# Science Ladder: a Dafny model of the audit log, the runner fleet, the ledger and exact scoring

Science Ladder runs scientific challenges: solvers submit artifacts, isolated hosts
score them twice, a ledger adjudicates receipts in order and awards a verified best, a
public frontier and milestones, and every decision goes into a hash-chained log that
independent witnesses sign. This project models the parts where that is hard to get
right and proves what the platform promises about them, for every input and every run.

`dafny verify dfyconfig.toml` checks everything.

## The modules

| Files | What they model |
|---|---|
| `AuditData`, `Merkle`, `Checkpoints` | Events, the Merkle tree of section 2.1 of RFC 6962, checkpoint building and verification, the log's producer |
| `KeyHistory`, `Quorum` | The root-signed key history with its membership lineage, and the two-of-three witness quorum |
| `WitnessJournal`, `WitnessSafety`, `WitnessAnswers`, `WitnessProcess` | A witness: its durable journal under failed writes, failed syncs, crashes and reopening; `WitnessProcess` holds the objects that are updated in place |
| `Ticks`, `Scores` | Integer ticks and rationals as text, directed rounding, thresholds, confirmation, the frontier test |
| `Binomial`, `Sorting`, `Timing`, `TimingTrials` | The exact median confidence interval, order statistics, timing evidence, confirmation of measured runs |
| `Broker` | The guest process that builds, runs and times a candidate |
| `Fleet`, `FleetSafety`, `FleetBounds`, `FleetVerdicts`, `FleetEvidence`, `FleetReach`, `FleetAnswers`, `FleetPlacement`, `RunnerStore` | Leased runner jobs with fencing tokens, results and verdicts; `RunnerStore` holds the tables as an object |
| `Achievements` | What milestones require of the measurements of both runs |
| `Ledger`, `LedgerSafety`, `LedgerResults`, `LedgerTicks`, `LedgerAnswers`, `LedgerFrontier`, `LedgerVersions`, `LedgerLineage`, `LedgerReturns`, `LedgerIdle`, `LedgerStore` | Acceptance, adjudication, publication, versions and migrations; `LedgerStore` holds the tables as an object |
| `Worker`, `JobQueue` | The job queue that drives adjudication; `JobQueue` holds it as an object over the ledger tables |
| `Platform`, `PlatformEvidence`, `PlatformProgress` | Fleet, ledger and worker on one set of tables, what stands behind a decided receipt, and when it is finalized |
| `Wrappers` | Options and two facts about finite sets |

## How things are represented

- A digest is the term that was hashed, so distinct inputs have distinct digests by
  definition. A signature is the fact that a key signed a payload. A signed payload keeps
  its `spelling`: two JSON texts can decode to the same document.
- The journal is a synced part and an unsynced part; a crash keeps any prefix of the
  latter, possibly torn. A successful sync makes everything written so far durable.
- A committed transaction is one step. A claim of a runner job is two: the read that
  prepares the signed job and the compare-and-set that leases it. A worker's call is
  three: picking the job, its own transaction, and recording the outcome.
- Clocks, sizes, executions, disk outcomes, new identifiers and lease tokens are inputs
  of a step. Lease tokens are new each time.
- The row at index `i` of a version has sequence number `i + 1`, so `next_sequence` is the
  number of rows. From the schema: `(version, sequence)` is unique, a milestone has one
  claim, `next_sequence` and `watermark` start at 0, a new tier is mapped to the version
  that creates it, at most one version of a challenge has open intake.
- A published manifest has a positive minimum delta, a nonnegative tolerance and a known
  direction, and its numbers parse.

## Where the code does not do what one would expect

- **Reopening a witness.** A witness re-signs the decoded checkpoint, and replay compares
  the stored signature's payload with the platform's. If the platform's payload text is
  not the canonical one, the witness signs and journals it and can never reopen that
  journal. `WitnessSafety.ReopeningRebuilds` gives the exact condition and
  `WitnessProcess.VoteThatCannotBeReopened` a run under an accepted key history.
- **Superseded drafts.** The editorial and preflight steps check only for a lock, so a
  superseded version that was never locked can return and accept submissions.
  `LedgerIdle.SupersededReturnsIff` gives the exact condition in every run, and
  `LedgerReturns.SupersededForGoodIff` states it on the present tables while no valid
  verdict waits at the predecessor.
- **Transferred milestones.** A migration does not remove the predecessor's mapping. A
  predecessor that was not locked can return and win a milestone that was transferred
  away: `LedgerReturns.SupersededPredecessorWins` is a run, and
  `LedgerReturns.PredecessorOutIff` the exact condition. With locked predecessors
  only the last holder of a milestone can win it: `LedgerLineage.LastHolderWins`.
- **Minimum runs of a timed program.** A timed session makes exactly two runs per pair.
  The manifest rules keep the maximum high enough for the schedule but do not keep the
  minimum low enough, and the guest refuses a session below the minimum:
  `Broker.AcceptedCompletable`, with a program in `Broker.AcceptedYetNotCompletable`.
- **Stranded receipts.** A job whose eighth call is broken off is set aside for attention
  for good, so a decided receipt can wait with an incomplete job that never runs again,
  until another receipt of its version is decided: `Worker.BrokenCallsStrand`,
  `Worker.SetAsideForGood`. Only failed calls set a job aside
  (`Worker.AttentionNeedsFailure`), and without a disturbed call every decided receipt is
  finalized by a normal call of its job (`PlatformProgress.DecidedReceiptIsFinalized`).
- **Claims per job.** The bound is 7 + |H| for a set H of hosts, one better than eight
  expiries plus one fault per host suggest, because the last claim needs a host that is
  not excluded. `FleetBounds.BoundReached` attains it.

## Model

| member | source | states |
|---|---|---|
| `Merkle.MerkleRoot` | internal/audit/checkpoint.go:92-122 | Refuses exactly too many leaves or an invalid leaf; otherwise the loops and the closure compute the tree hash of section 2.1 of RFC 6962 |
| `Merkle.Tree` | internal/audit/checkpoint.go:105-120 | The closure's doubling loop finds RFC 6962's split, and the recursion computes that tree hash from hashed leaves |
| `Merkle.HalvesAreProper` | internal/audit/checkpoint.go:114-119 | Both halves are nonempty and strictly shorter, and the split is the largest power of two below the length |
| `Merkle.TreeHashBytes` | internal/audit/checkpoint.go:105-120 | The hashed bytes as section 2.1 of RFC 6962 has them, left part before right part |
| `Merkle.RootDeterminesLeaves` | internal/audit/checkpoint.go:90-122 | Equal roots have equal leaf lists, also when the lengths differ |
| `Checkpoints.EventPreimageInjective` | internal/audit/checkpoint.go:62-71 | The newline-separated encoding of predecessor, kind and payload can be read back |
| `Checkpoints.EventDigestInjective` | internal/audit/checkpoint.go:62-71 | An event digest determines predecessor, kind and canonical payload |
| `Checkpoints.LinkedEventsDetermined` | internal/audit/checkpoint.go:150-163 | Two linked intervals with the same start and digests hold the same events up to payload layout |
| `Checkpoints.WalkEvents` | internal/audit/checkpoint.go:150-163 | The event loop accepts exactly the linked intervals and leaves the last digest, last number and digest list |
| `Checkpoints.Build` | internal/audit/checkpoint.go:124-167 | Build returns the one checkpoint of its interval or refuses |
| `Checkpoints.FollowsExact` | internal/audit/checkpoint.go:124-193 | A checkpoint is accepted after its predecessor exactly when each of its fields is the one that predecessor and events give, and each event is numbered, linked and hashed as required |
| `Checkpoints.EventsGapFree` | internal/audit/checkpoint.go:124-193 | The events of an accepted chain are numbered 1..n without gap |
| `Checkpoints.StepDetermined` | internal/audit/checkpoint.go:171-193 | One checkpoint accepted twice has one predecessor and the same events |
| `Checkpoints.ChainDetermined` | internal/audit/checkpoint.go:124-193 | Accepted chains that end in the same checkpoint digest have the same checkpoints and the same event list |
| `Checkpoints.ProducedLogIsLinked` | internal/platform/server.go:291-314 | The log that the platform appends to is accepted by the verifier exactly when every kind is acceptable |
| `Checkpoints.ProducedCheckpointFollows` | internal/platform/audit.go:102-186 | On such a log the next checkpoint can always be built and extends the accepted chain |
| `KeyHistory.CheckDelegations` | internal/audit/history.go:106-141 | The delegation loop accepts exactly lists of fit delegations without repeated key ids or keys |
| `KeyHistory.CheckWitnesses` | internal/audit/history.go:142-150 | The witness loop accepts exactly three different operators with three different delegated keys |
| `KeyHistory.CheckRetention` | internal/audit/history.go:151-172 | The retention loop accepts exactly when every earlier delegation is kept unrewritten and no revocation is lifted |
| `KeyHistory.VerifyHistory` | internal/audit/history.go:80-181 | Accepts exactly the root-signed, acceptable successors of the previous epoch, and extends the lineage |
| `KeyHistory.HistoryExact` | internal/audit/history.go:80-181 | Every rule for an epoch, each delegation, the witnesses and the previous epoch, spelled out; accepted exactly when all hold and the root signed it |
| `KeyHistory.KeysAtExact` | internal/audit/history.go:182-197 | A key is in force exactly when its delegation is active for the role at that instant |
| `KeyHistory.KeysAreInForce` | internal/audit/history.go:182-197 | A key is collected for a role at an instant exactly when a delegation gives it that role, from its beginning up to its end and its revocation |
| `KeyHistory.CollectKeys` | internal/audit/history.go:182-197 | The delegation loop collects exactly the keys in force for the role |
| `KeyHistory.CollectOperators` | internal/audit/history.go:211-226 | The lineage walk returns the membership in force |
| `KeyHistory.DelegationRetained` | internal/audit/history.go:151-172 | Every delegation is retained by every later epoch |
| `KeyHistory.AuthorityNeverGrows` | internal/audit/history.go:80-197 | A key that a later epoch holds active was already active at that instant in the earlier epoch, with the same key |
| `KeyHistory.RevocationPermanent` | internal/audit/history.go:151-197 | From a recorded revocation on, no later epoch holds the key active for any role |
| `KeyHistory.AppendKeepsPast` | internal/audit/history.go:173-226 | A new epoch leaves the membership unchanged at every instant before its issuance |
| `KeyHistory.MembershipIsLastIssued` | internal/audit/history.go:211-226 | The membership is that of the last epoch issued by then, else of the bootstrap epoch |
| `KeyHistory.EpochInForceIsLast` | internal/audit/history.go:211-226 | The epoch used was issued by then unless it is the first, and every later one was not |
| `KeyHistory.MembersExact` | internal/audit/history.go:211-226 | The members at an instant, one by one, are those that the last epoch issued by then lists |
| `KeyHistory.MembershipHasThreeOperators` | internal/audit/history.go:142-226 | At every instant an accepted chain names exactly three operators |
| `Quorum.CheckMembership` | internal/audit/checkpoint.go:198-219 | The configuration loop accepts exactly memberships without shared operators or key bytes |
| `Quorum.CountVotes` | internal/audit/checkpoint.go:220-237 | The vote loops collect exactly the operators with a verifying signature over the same payload |
| `Quorum.VerifyQuorum` | internal/audit/checkpoint.go:197-242 | Accepts exactly when enough different operators voted under an independent membership |
| `Quorum.VotesExact` | internal/audit/checkpoint.go:220-237 | A vote counts exactly when some envelope over the same payload carries a signature by the key in force under that id |
| `Quorum.QuorumExact` | internal/audit/checkpoint.go:197-242 | Accepted exactly when the quorum asked for is two, the three members are independent, and at least two of them have signed the payload with their keys in force |
| `Quorum.QuorumMonotone` | internal/audit/checkpoint.go:220-242 | More envelopes, in any order, never lose a quorum |
| `Quorum.QuorumsIntersect` | internal/audit/checkpoint.go:197-242 | Two quorums under one membership share a member who voted for both payloads |
| `Quorum.VoteIsSignature` | internal/audit/checkpoint.go:220-237 | A counted vote is a signature with the key in force over the platform's payload |
| `WitnessSafety.RunKeepsInv` | internal/audit/witness.go:45-265 | Over any run of observations, failures, crashes and reopenings the journal is a chain and every released signature is in it |
| `WitnessSafety.SyncedIsKept` | internal/audit/witness.go:246-258 | What was synced is a prefix of the file in every later state |
| `WitnessSafety.ReleasedOnOneChain` | internal/audit/witness.go:195-265 | All signatures a witness ever releases lie on one checkpoint chain from the pinned genesis |
| `WitnessSafety.NeverSignsFork` | internal/audit/witness.go:195-265 | A witness never releases signatures over two different successors of one checkpoint |
| `WitnessSafety.ReplayExact` | internal/audit/witness.go:112-144 | Replaying a journal the witness wrote succeeds exactly when every record is readable |
| `WitnessSafety.ReopeningRebuilds` | internal/audit/witness.go:45-150 | After any run reopening succeeds exactly when there is no torn tail and every record is readable, and then pins the last record |
| `WitnessSafety.RetryAnswersTheSame` | internal/audit/witness.go:201-213 | Repeating the last bundle returns the same answer and changes nothing |
| `WitnessSafety.RetryAfterRestart` | internal/audit/witness.go:45-213 | After a close or any crash reopening succeeds exactly when every record is readable; the same bundle then gets the same signature and the journal does not grow |
| `WitnessSafety.WitnessedForkNeedsDeviation` | internal/audit/witness.go:195-265 | Two witnessed successors of one checkpoint need an operator with two signatures that no run of Observe releases |
| `WitnessAnswers.ObserveExact` | internal/audit/witness.go:172-265 | The exact condition for a vote, for retaining without a vote and for a refusal of a bundle that is no repetition, with the journal line and the pinned checkpoint that result |
| `WitnessAnswers.RetryExact` | internal/audit/witness.go:201-213 | In every run a repetition gets the stored reply exactly when its events are the same up to JSON layout and the platform signature is good, and changes nothing |
| `WitnessAnswers.ReplayLineAnswers` | internal/audit/witness.go:112-144 | Any line, whoever wrote it, is replayed exactly when it presents a checkpoint after the ones before and its signature fits |
| `WitnessAnswers.ReopenExact` | internal/audit/witness.go:45-150 | After any run a stopped witness comes up exactly when its own key is in force for a named member, the file syncs, has no torn tail and is readable |
| `WitnessAnswers.ChainIsSigned` | internal/audit/witness.go:195-265 | For every accepted chain from the pinned genesis, with keys in force when its checkpoints are issued, there is a run that signs every one of them |
| `WitnessProcess.SameAuditEvents` | internal/audit/witness.go:277-296 | The comparison loop accepts exactly equal events with self-consistent digests |
| `WitnessProcess.Witness.Observe` | internal/audit/witness.go:195-265 | The method updates pinned checkpoint, record, poison flag and journal exactly as specified |
| `WitnessProcess.Witness.Retain` | internal/audit/witness.go:246-264 | The record is written and synced before memory advances; any failure poisons |
| `WitnessProcess.Witness.AnswerRetry` | internal/audit/witness.go:201-213 | A repetition is answered from the stored record |
| `WitnessProcess.Witness.ReplayFile` | internal/audit/witness.go:112-148 | The replay loop pins exactly what the specification's replay gives |
| `WitnessProcess.Witness.Open` | internal/audit/witness.go:45-150 | Opening is the specified reopening step |
| `WitnessProcess.VoteThatCannotBeReopened` | internal/audit/witness.go:125-141 | A run under an accepted key history whose vote is released and whose journal can never be reopened |
| `WitnessProcess.SmallHistoryAccepted` | internal/audit/history.go:80-181 | The key history of that run, with three operators and their delegated keys, is accepted as the first epoch |
| `Ticks.TicksRoundTrip` | pkg/protocol/scores.go:33-42 | Printing and parsing an integer gives it back, up to the length limit |
| `Ticks.TicksTextUnique` | pkg/protocol/scores.go:33-42 | Every accepted text is the one text of its number |
| `Ticks.RationalRoundTrip` | pkg/protocol/evaluation.go:174-203 | A rational in lowest terms survives its text |
| `Ticks.DurationRatioRoundTrip` | pkg/protocol/measurement.go:72-96 | Every ratio of two accepted durations survives its text |
| `Ticks.MakeRatOk` | pkg/protocol/measurement.go:96 | Normalizing a fraction keeps its value and leaves no common factor |
| `Scores.NormalizeRationalScore` | pkg/protocol/scores.go:63-99 | Truncation and correction give the directed rounding, or a refusal exactly outside domain and length |
| `Scores.NormalizedExact` | pkg/protocol/scores.go:63-99 | The published text is that of the number of quanta just below (or above) the value, exactly if it is short enough and within the bounds that are set |
| `Scores.RoundingExactAtThreshold` | pkg/protocol/scores.go:63-113 | The ticks meet an integer threshold exactly when the unrounded value meets that many quanta |
| `Scores.RoundingNeverFavours` | pkg/protocol/scores.go:63-99 | The value meets its own ticks in the metric's direction |
| `Scores.RoundingMonotone` | pkg/protocol/scores.go:63-99 | A larger value never rounds to fewer ticks |
| `Scores.QualifiesOnUnrounded` | pkg/protocol/scores.go:101-113 | Qualifies on published ticks decides the unrounded comparison |
| `Scores.ConfirmationIsConservative` | internal/platform/adjudication.go:61-84 | Both confirmation functions agree, are symmetric, accept exactly pairs within tolerance, and give the less favourable score |
| `Scores.ConfirmedCrossingHoldsForBoth` | internal/platform/adjudication.go:27-40 | A threshold crossed by the confirmed score is crossed by both runs, and conversely |
| `Scores.QualifiesIsCrossing` | internal/platform/adjudication.go:27-40 | The adjudicator's comparison of integers is the protocol's comparison of texts |
| `Scores.CrossingOnUnrounded` | internal/platform/adjudication.go:27-40 | A rounded score crosses a threshold exactly when the value it was rounded from meets it |
| `Scores.AdmissionAgrees` | pkg/protocol/frontier_claim.go:34-113 | Admission and adjudication apply the same test to the same frontier |
| `Binomial.RowSum` | pkg/protocol/measurement.go:56-70 | A binomial row adds up to two to the n |
| `Binomial.TailsEqual` | pkg/protocol/measurement.go:56-70 | The two tails of a row weigh the same |
| `Binomial.MedianIntervalIndex` | pkg/protocol/measurement.go:56-70 | The loop returns the largest index up to the middle whose tails fit, although it stops at the first misfit |
| `Binomial.IndexLargestOverall` | pkg/protocol/measurement.go:51-70 | For accepted confidences no larger index fits at all |
| `Binomial.CoverageAtLeastConfidence` | pkg/protocol/measurement.go:51-70 | 10^6 times the central row sum is at least confidence times 2^n |
| `Binomial.CentralPatternsCoverConfidence` | pkg/protocol/measurement.go:51-70 | Counted as sign patterns: the central ones are at least the confidence's share of all |
| `Sorting.SortedAscends` | pkg/protocol/measurement.go:98 | The sorted ratios ascend |
| `Sorting.RanksOnUnsorted` | pkg/protocol/measurement.go:98-106 | The k-th smallest is at most x exactly when k unsorted elements are, and dually for the k-th largest |
| `Timing.EnoughTrials` | pkg/protocol/measurement.go:46-48 | A policy with sound fields is refused for too few trials exactly when two million exceed 2^n times the allowed miss share |
| `Timing.CollectRatios` | pkg/protocol/measurement.go:85-97 | The trial loop refuses exactly failed, out-of-range or out-of-order trials and keeps every other |
| `Timing.SummarizeTimings` | pkg/protocol/measurement.go:77-116 | Accepts exactly complete schedules under a valid policy and computes their summary |
| `Timing.MedianInInterval` | pkg/protocol/measurement.go:98-106 | Lower bound, median and upper bound are in order, and their indices in range |
| `Timing.IntervalCovers` | pkg/protocol/measurement.go:98-106 | A ratio lies in the interval exactly when k trials are at most it and k at least it |
| `Timing.IntervalIsConservative` | pkg/protocol/measurement.go:51-55 | The interval holds on every central sign pattern, and on no other unless there is a tie |
| `Timing.ValidateTimingEvidence` | pkg/protocol/measurement.go:127-144 | Accepts exactly evidence with the locked baseline, warmups, trials and recomputed summary |
| `TimingTrials.EvidenceExact` | pkg/protocol/measurement.go:77-144 | Evidence is accepted exactly with the locked baseline and counts, every trial good, within a day and in alternating order, and the summary of its trials |
| `TimingTrials.EvidenceReports` | pkg/protocol/measurement.go:96-125 | In nanoseconds: the bounds are the speedups of the locked rank from either end, the median is the mean of the middle ones, the outcome is valid exactly when the interval is narrow for its median, and the gain is practical exactly when it is valid and the lower bound reaches the minimum |
| `TimingTrials.BoundsCountTrials` | pkg/protocol/measurement.go:96-110 | The reported lower bound is at least x exactly when all but k - 1 trials ran at least x times as fast, and dually for the upper bound |
| `Timing.BoundsParse` | pkg/protocol/measurement.go:149-162 | The bounds of an accepted summary always parse back to themselves |
| `Timing.ConfirmMeasuredExact` | pkg/protocol/measurement.go:149-170 | Two measured runs are confirmed exactly when both have valid evidence and some ratio lies in both intervals; no ignored error occurs |
| `Timing.ConfirmMeasuredConservative` | pkg/protocol/measurement.go:163-170 | The confirmed score is the rounded smaller lower bound, hence the less favourable one |
| `TimingTrials.ConfirmedByOverlap` | pkg/protocol/measurement.go:149-170 | Two runs confirm each other exactly when both are valid with matching evidence and neither lower bound exceeds the other's upper bound |
| `TimingTrials.TicksOfResult` | pkg/protocol/scores.go:147-216 | A typed result has published ticks exactly with accepted evidence whose lower bound is its score and with the contract's gates; they are the rounded score |
| `TimingTrials.EvidenceExplainsOutcome` | pkg/protocol/evaluation.go:529-565 | A run's outcome is the one its gates and its interval say, a failed gate first; other outcomes need no evidence |
| `Broker.CandidateBroker.TimingRequest` | internal/runner/broker_timing_linux.go:33-87 | The method updates pairs, pending flag, runs and fault exactly as specified |
| `Broker.CandidateBroker.Handle` | internal/runner/broker_linux.go:236-284 | One connection makes the specified build, run or timing step |
| `Broker.CandidateBroker.Serve` | internal/runner/broker_linux.go:211-292 | The loop serves requests in order and stops at the first fault |
| `Broker.ReachableInv` | internal/runner/broker_timing_linux.go:33-87 | In every reachable state runs are twice the pairs, only the last pair is unassessed, the order is the locked one, and each trial has its times from the two executions of its own accepted pair and its quality from its acknowledgement |
| `Broker.PairAnswers` | internal/runner/broker_timing_linux.go:48-87 | In every session, exactly when a pair is carried out, and that trial and reply give the first execution to the baseline at even positions of the phase and to the candidate at odd ones |
| `Broker.AssessAnswers` | internal/runner/broker_timing_linux.go:33-47 | An acknowledgement counts exactly when a pair waits for one |
| `Broker.BuildAnswers` | internal/runner/broker_linux.go:236-284 | A session builds at most once, and the candidate is ready exactly when every stage succeeded |
| `Broker.PlainAnswers` | internal/runner/broker_linux.go:236-284 | Without measuring, a run is carried out exactly while a ready candidate has budget left |
| `Broker.PlainSession` | internal/runner/broker_linux.go:211-292 | Without measuring, runs stay within the budget and only a built candidate is ready |
| `Broker.AssessedKept` | internal/runner/broker_timing_linux.go:39-47 | An assessed pair never changes again |
| `Broker.TimingEvidence` | internal/runner/broker_timing_linux.go:89-107 | Returns evidence that the independent verifier accepts, or nothing exactly when the schedule is incomplete or a trial is unacceptable |
| `Broker.CompletedScheduleAccepted` | pkg/protocol/measurement.go:127-144 | A reachable complete schedule passes the verifier exactly when all qualities pass and all durations are in range |
| `Broker.BudgetNeverBlocks` | pkg/protocol/evaluation.go:348-350 | With the manifest's budget rule a pair request is refused only for reasons other than the budget |
| `Broker.ScheduleCompletable` | pkg/protocol/evaluation.go:311-350 | A measured result can be produced exactly when minimum runs ≤ twice the schedule ≤ maximum runs |
| `Broker.AcceptedCompletable` | pkg/protocol/evaluation.go:311-350 | A program that the manifest rules accept can be completed exactly when its minimum does not exceed the schedule |
| `Broker.AcceptedYetNotCompletable` | internal/runner/guest_linux.go:189-191 | A program that the manifest rules accept and no session can complete |
| `FleetSafety.RunKeepsInv` | internal/platform/runners.go:70-446 | Every interleaving keeps rows, leases, claims in flight and results consistent |
| `FleetSafety.LeasedAtMostOnce` | internal/platform/runners.go:188-286 | Each pair of job and fence is leased at most once |
| `FleetSafety.ResultAnswersLease` | internal/platform/runners.go:340-446 | Every stored result is for a granted lease: same job, fence, host and signed document |
| `FleetSafety.ResultsPermanent` | internal/platform/runners.go:346-360 | A stored result is never changed or removed, and a job never changes its subject |
| `FleetBounds.ClaimsBounded` | internal/platform/runners.go:70-80 | With claims from a fixed host set H a job is leased at most 7 + \|H\| times, outside platform policy at most \|H\| times |
| `FleetBounds.BoundReached` | internal/platform/runners.go:372-381 | For every nonempty host set some run attains the bound |
| `FleetVerdicts.OneJobPerPurpose` | internal/platform/runners.go:46-56 | A submission has at most one primary and one confirmation job |
| `FleetVerdicts.ValidVerdictsAreReplicated` | internal/platform/runners.go:473-549 | A valid verdict rests on two stored valid results of different jobs, has the less favourable score, and different host groups under the independent policy |
| `FleetVerdicts.VerdictsPermanent` | internal/platform/runners.go:533-549 | A verdict never changes, whatever is delivered, expired or cancelled later |
| `FleetReach.ValidVerdictReached` | internal/platform/runners.go:473-549 | Any in-domain score of any plain manifest can be validated by two hosts of different groups, so the statements about valid verdicts are not empty |
| `FleetAnswers.DeliveryAnswers` | internal/platform/runners.go:294-446 | In every run, exactly when a delivery is stored, a duplicate, retried or refused |
| `FleetAnswers.FaultRequeues` | internal/platform/runners.go:372-381 | A host fault requeues the job behind a new fence and never for that host |
| `FleetAnswers.NothingDecided` | internal/platform/runners.go:447-472 | A build result and a fault of the challenge decide nothing; the latter asks for a pause |
| `FleetAnswers.PrimaryDecides` | internal/platform/runners.go:473-549 | A valid primary result queues one confirmation, away from its host and group under the independent policy; any other one is the verdict |
| `FleetAnswers.ConfirmationDecides` | internal/platform/runners.go:473-549 | The verdict on both runs: the confirmed score, the common other outcome, or the disagreement of the kind of contract |
| `FleetAnswers.QueueAnswers` | internal/platform/runners.go:21-64 | A submission is queued exactly once, under a known policy |
| `FleetAnswers.BeginAnswers` | internal/platform/runners.go:188-260 | A host is offered exactly the queued rows that exclude neither it nor its group |
| `FleetAnswers.FinishAnswers` | internal/platform/runners.go:273-279 | A row is leased exactly when it is still queued at the fence that was read |
| `FleetAnswers.RecoverAnswers` | internal/platform/runners.go:70-80 | Exactly the expired rows without result are requeued, or set aside after eight attempts |
| `FleetPlacement.ConfirmedElsewhere` | internal/platform/runners.go:188-286 | In every run, under the independent policy, no confirmation is leased to the host or to a host of the group that ran the primary |
| `RunnerStore.Store.QueueSubmission` | internal/platform/runners.go:21-64 | Makes the specified step and keeps all invariants |
| `RunnerStore.Store.RecoverLeases` | internal/platform/runners.go:70-80 | The recovery of all expired leases keeps all invariants |
| `RunnerStore.Store.RecoverRows` | internal/platform/runners.go:70-80 | The row-by-row update is the specified recovery of all expired leases |
| `RunnerStore.Store.BeginClaim` | internal/platform/runners.go:188-260 | The read prepares the document of an offered row |
| `RunnerStore.Store.FinishClaim` | internal/platform/runners.go:273-279 | The compare-and-set leases exactly when the row is still queued at the read fence |
| `RunnerStore.Store.RunnerResult` | internal/platform/runners.go:294-556 | Accepts, repeats, requeues or refuses a delivery exactly as specified and keeps all invariants |
| `LedgerSafety.FoldIsEarliestBest` | internal/platform/adjudication.go:158-198 | The fold over receipts is the earliest of the best ones, if any beats the baseline |
| `LedgerSafety.FinalizeKeepsInv` | internal/platform/adjudication.go:113-256 | Finalizing one receipt keeps order, best, frontier, capacity and milestone claims right |
| `LedgerSafety.RunKeepsInv` | internal/platform/adjudication.go:85-262 | Every run of every transaction keeps them |
| `LedgerResults.CapacityConserved` | internal/platform/submissions.go:197-249 | Reserved units are twice the unfinalized receipts and at most the maximum; a reservation is held exactly until finalization |
| `LedgerResults.ReleasedOnce` | internal/platform/adjudication.go:238-246 | A released reservation is never held again |
| `LedgerResults.BestIsFold` | internal/platform/adjudication.go:85-262 | Watermark and best equal one fold over receipts in sequence order, in any run |
| `LedgerResults.ClaimsAreFirst` | internal/platform/adjudication.go:159-193 | In every run a milestone is claimed exactly when a finalized receipt reaches it in some version where it is live, and the claim is the first such receipt of its version |
| `LedgerResults.OrderIndependent` | internal/platform/adjudication.go:85-262 | Runs that finalized the same receipts of a version agree on its best, however verdicts arrived and adjudication was batched |
| `LedgerResults.ClaimsPermanent` | internal/platform/adjudication.go:214-222 | Claims and finalized receipts stand for good |
| `LedgerResults.FrontierHolds` | internal/platform/adjudication.go:192-201 | The frontier is a finalized valid public receipt, not ahead of the best, and beaten by the delta by no public valid one |
| `LedgerResults.FrontierAdvancesByDelta` | internal/platform/submissions.go:262-330 | Any transaction that moves a frontier gains at least the delta |
| `LedgerResults.AdmissionUsesFrontier` | pkg/protocol/frontier_claim.go:99-113 | Claim admission uses the adjudicator's frontier and the adjudicator's test |
| `LedgerTicks.ClaimsMeetThreshold` | internal/platform/adjudication.go:159-222 | In every run a milestone is claimed exactly when a finalized valid receipt of a version that holds it shows it and is at the threshold or beyond, as integers; the winner is the first such receipt of its version and public |
| `LedgerTicks.ShortReceiptNeverWins` | internal/platform/adjudication.go:27-40 | A receipt strictly short of the threshold never wins the milestone |
| `LedgerTicks.BestIsExtreme` | internal/platform/adjudication.go:13-26 | In every run the best is the first receipt with the largest (or smallest) score, if one lies strictly beyond the baseline |
| `LedgerTicks.FrontierLeads` | internal/platform/adjudication.go:41-60 | In every run the frontier leads the baseline by the delta, does not lead the best, and no public valid receipt leads it by the delta |
| `LedgerTicks.FrontierGains` | internal/platform/submissions.go:262-330 | Any transaction that moves a frontier moves it to a receipt that leads the one before by the delta |
| `LedgerAnswers.SettleReaches` | internal/platform/adjudication.go:113-256 | A settling transaction finalizes exactly the decided receipts up to the first undecided one |
| `LedgerAnswers.FaultyBlocks` | internal/platform/adjudication.go:131-191 | Evidence that cannot be evaluated rolls the transaction back |
| `LedgerAnswers.PublicExactly` | internal/platform/adjudication.go:192-201 | In every run a finalized receipt is public exactly when its owner asked for it or it won a milestone |
| `LedgerAnswers.AcceptAnswers` | internal/platform/submissions.go:118-249 | A receipt is accepted exactly while the version is open and locked and two units are free |
| `LedgerAnswers.VerdictAnswers` | internal/platform/runners.go:533-546 | A verdict is stored exactly once, for a pending receipt |
| `LedgerAnswers.PublicizeAnswers` | internal/platform/submissions.go:262-330 | Exactly a finalized valid receipt can be published, and becomes the frontier exactly when it leads by the delta |
| `LedgerFrontier.FrontierIsFold` | internal/platform/adjudication.go:192-201 | Without voluntary publication the frontier is a fold over receipts in sequence order |
| `LedgerVersions.ClaimedNeverTransfers` | internal/platform/versions.go:131-158 | A claimed milestone never becomes live in another version |
| `LedgerVersions.SupersededForGood` | internal/platform/versions.go:161-165 | A locked superseded version never accepts a receipt or wins a milestone again |
| `LedgerAnswers.OneVersionOpen` | internal/platform/versions.go:301-314 | In every run at most one version of a challenge accepts submissions |
| `LedgerAnswers.MigrationAnswers` | internal/platform/versions.go:232-314 | A migration completes exactly when signed evidence, drained and stopped predecessor, checked frontier, no third open version and transferable milestones all hold, with that effect and no other |
| `LedgerAnswers.VersionAnswers` | internal/platform/versions.go:97-173 | A successor is created exactly from the drained latest version, with only the milestones it may name, and takes over nothing yet |
| `LedgerAnswers.PublishAnswers` | internal/platform/creation.go:333-385 | A locked season opens exactly when no other version is open; a locked migration is staged exactly when its source is at rest |
| `LedgerAnswers.ActAnswers` | internal/platform/editorial.go:95-130 | What editors and preflights can do to a version, and when; changes and preflights stop only at the lock |
| `LedgerLineage.RunKeepsLineage` | internal/platform/versions.go:104-160 | In every run each version has at most one successor, and a milestone waiting for transfer is held by the predecessor and by no later version |
| `LedgerLineage.TransferUnreached` | internal/platform/versions.go:279-300 | In every run, when a migration completes no receipt of any version has reached the milestones that move |
| `LedgerLineage.LastHolderWins` | internal/platform/versions.go:279-301 | If every migration came from a locked predecessor, a milestone is claimed exactly when the last version holding it reaches it, by that version's first such receipt |
| `LedgerLineage.WinnersOrderIndependent` | internal/platform/adjudication.go:159-193 | Such runs that finalized the same receipts agree on whether a milestone is claimed and by which receipt |
| `LedgerIdle.SupersededReturnsIff` | internal/platform/editorial.go:96-99 | In every run a superseded version can open again exactly when it is unlocked and, for a security migration, some continuation decides all of its predecessor's receipts without moving the checked frontier or claiming one of its milestones |
| `LedgerReturns.SupersededForGoodIff` | internal/platform/versions.go:232-278 | While no valid verdict waits at the predecessor, a superseded version stays closed in every continuation exactly when it is locked or, for a migration, its source has moved on or one of its milestones is claimed |
| `LedgerReturns.PredecessorOutIff` | internal/platform/versions.go:279-304 | In every run, after a completed migration the predecessor can come to reach a moved milestone exactly when it was unlocked and some continuation has it open with room for one receipt |
| `LedgerReturns.PredecessorOutIffLocked` | internal/platform/versions.go:279-304 | After a completed migration of a predecessor that meets its own opening condition, with room for one receipt, no continuation lets it reach a moved milestone exactly when it was locked |
| `LedgerReturns.SupersededPredecessorWins` | internal/platform/creation.go:379-385 | A run in which a superseded predecessor returns and wins a milestone transferred to its open successor |
| `LedgerStore.Tables.Adjudicate` | internal/platform/adjudication.go:85-262 | The transaction makes the specified step, rolls back exactly on unusable evidence, and keeps all invariants |
| `LedgerStore.Tables.SettleVersion` | internal/platform/adjudication.go:113-262 | The loop finalizes exactly the decided receipts after the watermark |
| `LedgerStore.Tables.DecideMilestones` | internal/platform/adjudication.go:159-191 | The inner loop wins exactly the open milestones the receipt reaches |
| `LedgerStore.Tables.AcceptIntent` | internal/platform/submissions.go:118-249 | Accepts exactly with open intake and two free units, with the next sequence number |
| `LedgerStore.Tables.StoreVerdict` | internal/platform/runners.go:533-546 | A pending submission gets its verdict, with the pause, and nothing else changes |
| `LedgerStore.Tables.PublishSubmission` | internal/platform/submissions.go:262-330 | Publishes exactly finalized valid submissions and moves the frontier as specified |
| `LedgerStore.Tables.CreateVersion` | internal/platform/versions.go:97-173 | Creates the successor or refuses as specified and keeps all invariants |
| `LedgerStore.Tables.CheckMilestones` | internal/platform/versions.go:131-158 | The milestone loop accepts exactly new ids and transferable ones |
| `LedgerStore.Tables.CompleteMigration` | internal/platform/versions.go:232-314 | Transfers, supersedes and opens as specified, or changes nothing |
| `LedgerStore.Tables.MapMilestones` | internal/platform/versions.go:279-300 | The transfer loop accepts exactly unclaimed milestones of its own or of the predecessor |
| `Worker.NoLostWakeup` | internal/platform/worker.go:37-91 | Whenever the receipt after the watermark is decided, its own adjudication job exists and is not complete |
| `Worker.QuiescentStanding` | internal/platform/runners.go:533-549 | When all jobs are complete, watermark and best are those of the longest decided prefix |
| `Worker.LedgerRun` | internal/platform/worker.go:66-72 | What the workers do to the ledger is a ledger run |
| `Worker.AttentionNeedsFailure` | internal/platform/worker.go:73-90 | In every run a job at attention has made all its attempts, and one of its calls failed |
| `Worker.SetAsideForGood` | internal/platform/worker.go:37-90 | In every run a job at attention stays there, whatever is reported, picked, performed and recorded later |
| `Worker.BrokenCallsStrand` | internal/platform/worker.go:37-90 | From any state, calls of a pickable job that are broken off use its attempts up and leave it at attention with the ledger unchanged |
| `JobQueue.Queue.Report` | internal/platform/runners.go:533-549 | The verdict and its job are stored together, and no decided receipt at a watermark is left without an incomplete job of its own |
| `JobQueue.Queue.WorkOne` | internal/platform/worker.go:37-91 | One call keeps that invariant, and when it ends normally it completes the job and leaves no decided receipt at its version's watermark |
| `Worker.WorkedOutcome` | internal/platform/worker.go:73-90 | Any other call leaves the job to be retried, or for attention after eight attempts |
| `Platform.Projections` | internal/platform/runners.go:473-549 | A run of the platform is a run of the fleet and of the workers |
| `Platform.AdjudicatedScoresAreReplicated` | internal/platform/adjudication.go:204-272 | Every adjudicated valid score is the less favourable of two stored valid results of different jobs, from different host groups when marked independently replicated |
| `Achievements.ConfirmedAchievement` | pkg/protocol/evaluation.go:567-592 | The loop over the runs answers as specified, with an error exactly where the source gives one |
| `Achievements.AchievementExact` | pkg/protocol/evaluation.go:567-592 | Two stored valid results of different jobs are always evaluated, and achieve a milestone exactly when it requires nothing or both demonstrate it |
| `Achievements.AchievementAnswers` | pkg/protocol/evaluation.go:495-592 | Every answer there is, with the comparison of each measurement as rationals: the second run is asked only if the first has shown everything |
| `FleetEvidence.RunChecked` | internal/platform/runners.go:393-420 | Every stored result passed the outcome, evidence, gate and domain checks of its signed job |
| `PlatformEvidence.AdjudicationNeverRollsBack` | internal/platform/adjudication.go:113-262 | In every run of the platform and for every version, the transaction that settles all decided receipts from the watermark on goes through |
| `PlatformEvidence.RowMirrorsSubmission` | internal/platform/runners.go:533-549 | In every run of the platform a ledger row is undecided exactly while its submission is, and then has its validity and score |
| `PlatformEvidence.DeliveryOnLedger` | internal/platform/runners.go:447-549 | What a delivery does to the ledger and the job queue |
| `PlatformEvidence.ShownExactly` | internal/platform/adjudication.go:131-191 | A milestone counts as shown exactly when it requires nothing or both stored runs meet every requirement |
| `PlatformProgress.DecidedReceiptIsFinalized` | internal/platform/worker.go:37-91 | In every run of the platform in which no call of its job was broken off or lost its confirmation, the job of the decided receipt at a watermark can be picked, and a normal call finalizes the receipt and completes the job |
| `PlatformEvidence.MilestonesAreReplicated` | internal/platform/adjudication.go:131-193 | Both stored runs of a milestone's winner are at its threshold or beyond, as integers, and demonstrate what it requires |

## Left out

- Cryptography and encodings (SHA-256, ECDSA, base64, PEM, canonical JSON): terms and an injective canonical form.
- Decimal text (`decimal`, `NormalizeScore`): a metric's quantum and a policy's decimals are given parsed.
- HTTP handlers, identity, OAuth, GitHub fetching, storage, email, reviews, tutoring and the web: plumbing without a deep invariant.
- Firecracker, cgroups, mounts and the execution of programs: their results are inputs of a broker step.
- Editorial resolution of a faulty version: only its cancellation of runner jobs, because it rewrites outcomes outside receipt order.
- `ValidateMeasurements` and `ValidatePredicates`: part of a well-formed result and manifest; declared measurements are given parsed.
- Executor matching, quotas, admission tickets, hidden suites and preflight builds: flat checks of one record; a step that they refuse is a step not taken.
- Checks of evaluation modes other than timed performance: a result of another mode carries no typed evidence here.
- `witnessReceipt`'s storage of receipts and the quorum mark on a checkpoint row: the quorum itself is `Quorum.VerifyQuorum`.
- Two `queueSubmission` transactions at the same instant for one submission: the model runs them one after the other, as leased jobs do.
- LedgerReturns.SupersededForGoodIff: stated while no valid verdict waits at the predecessor, because with one the present tables alone do not decide it; LedgerIdle.SupersededReturnsIff has no such condition.
- LedgerReturns.PredecessorOutIffLocked: the case in which the predecessor can be opened at once; LedgerReturns.PredecessorOutIff has no such condition.
- Sorting.SortedAscends: sorting is a function on values here, not a sort in place, because the source calls a library.

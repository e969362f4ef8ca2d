/** Runner jobs (internal/platform/runners.go, and the cancellation of
    internal/platform/editorial.go): leases with fencing tokens, exclusion of hosts,
    stored results and the verdict on a submission. One value of State is the
    content of the tables between two transactions; a claim takes two steps, the
    read that prepares a signed job and the compare-and-set that leases it. */
module Fleet {
  import opened Wrappers
  import opened Ticks
  import opened Scores
  import opened Timing

  type Id = nat
  type SubId = (nat, nat)

  const PLATFORM := "platform"
  const INDEPENDENT := "independent"
  const MAX_ATTEMPTS: nat := 8

  predicate ValidPolicyName(p: string) { p == PLATFORM || p == INDEPENDENT }

  /** JobVerificationPolicy: an absent policy is the independent one. */
  function JobPolicy(p: string): string { if p == "" then INDEPENDENT else p }

  datatype Purpose = Primary | Confirmation | Build

  /** The parts of a locked manifest that decide a verdict; `achievements` are what
      milestones require of the measurements. */
  datatype Manifest = Manifest(metric: Metric, hardGates: set<string>, timing: Option<Policy>,
                               achievements: map<string, seq<Requirement>>)

  function ContractOf(m: Manifest): Contract
    requires m.timing.Some?
  {
    Contract(m.timing.value, m.metric, m.hardGates)
  }

  /** The signed job document. A digest of it is the document itself here. */
  datatype Spec = Spec(jobId: Id, purpose: Purpose, submission: SubId, policy: string, manifest: Manifest,
                       excluded: seq<string>, group: string, fence: nat, expires: int)

  datatype JobStatus = Queued | Running | Completed | Attention | Cancelled

  datatype Job = Job(status: JobStatus, fence: nat, host: Option<string>, token: Option<nat>, deadline: Option<int>,
                     attempts: nat, payload: Spec, excludedGroup: Option<string>)

  datatype Host = Host(id: string, group: string)

  /** A run receipt signed by a host. */
  datatype Receipt = Receipt(id: nat, jobId: Id, host: string, group: string, fence: nat, jobDigest: Spec,
                             createdAt: int,
                             official: bool, run: MeasuredRun)

  datatype SubStatus = Accepted | SubQueued | Confirming | ChallengeFault | Validated

  datatype Sub = Sub(status: SubStatus, outcome: string, score: Option<string>, policy: string, manifest: Manifest)

  /** A claim between its read and its compare-and-set. */
  datatype Claim = Claim(job: Id, payload: Spec, fence: nat, host: Host)

  /** A lease that was granted; kept for the statements below. */
  datatype Lease = Lease(job: Id, fence: nat, host: string, payload: Spec)

  datatype State = State(jobs: map<Id, Job>, results: map<Id, Receipt>, subs: map<SubId, Sub>, claims: seq<Claim>,
                         leases: seq<Lease>)

  const EMPTY := State(map[], map[], map[], [], [])

  datatype Reply = Stored(final: bool, pause: bool) | Duplicate | Retrying | Refused

  // -------------------------------------------------------------- one job row

  function NewJob(payload: Spec, excludedGroup: Option<string>): Job {
    Job(Queued, 1, None, None, None, 0, payload, excludedGroup)
  }

  /** recoverRunnerLeases on one row that has no result. */
  predicate Expired(j: Job, now: int) { j.status == Running && j.deadline.Some? && j.deadline.value < now }

  function Exclude(payload: Spec, host: Option<string>): Spec {
    payload.(excluded := payload.excluded + if host.Some? then [host.value] else [])
  }

  function Recovered(j: Job): Job {
    j.(status := if j.attempts >= MAX_ATTEMPTS then Attention else Queued, fence := j.fence + 1,
       payload := if j.payload.policy == PLATFORM then j.payload else Exclude(j.payload, j.host),
       host := None, deadline := None, token := None)
  }

  /** The row after an infrastructure fault of its host; the token stays. */
  function Faulted(j: Job, host: string): Job {
    j.(status := Queued, fence := j.fence + 1, host := None, deadline := None,
       payload := Exclude(j.payload, Some(host)))
  }

  function CancelledJob(j: Job): Job {
    if j.status in {Queued, Running, Attention} then j.(status := Cancelled, fence := j.fence + 1, deadline := None)
    else j
  }

  /** The rows a host may be offered. */
  predicate Offered(j: Job, h: Host) {
    && j.status == Queued && h.id !in j.payload.excluded && j.excludedGroup != Some(h.group)
    && ValidPolicyName(JobPolicy(j.payload.policy))
  }

  function ClaimOf(id: Id, j: Job, h: Host, expires: int): Claim {
    Claim(id, j.payload.(group := h.group, fence := j.fence, expires := expires), j.fence, h)
  }

  function Leased(j: Job, c: Claim, token: nat): Job {
    j.(status := Running, host := Some(c.host.id), payload := c.payload, token := Some(token),
       deadline := Some(c.payload.expires),
       attempts := j.attempts + 1)
  }

  // ------------------------------------------------------------------ verdicts

  const TERMINAL := {"valid", "hard_gate_failed", "invalid_output", "resource_limit", "declared_timeout",
                     "nondeterministic",
                     "malicious", "challenge_fault", "measurement_inconclusive"}

  /** The checks on a result before it is stored. */
  predicate Storable(p: Spec, r: MeasuredRun) {
    && r.outcome in TERMINAL
    && (p.purpose != Build ==>
        if p.manifest.timing.Some? then EvidenceMatches(r, ContractOf(p.manifest)) else r.result.None?)
    && (p.purpose != Build && r.outcome == "valid" ==>
          r.gates.Keys == p.manifest.hardGates && (forall g :: g in r.gates ==> r.gates[g])
          && ParseTicks(r.scoreTicks).Some? && InDomain(ParseTicks(r.scoreTicks).value, p.manifest.metric))
  }

  /** The confirmed score of two valid runs. */
  function Confirm(first: MeasuredRun, second: MeasuredRun, m: Manifest): Option<string> {
    if m.timing.Some? then ConfirmMeasuredRuns(first, second, ContractOf(m))
    else ConfirmedScore(first.scoreTicks, second.scoreTicks, m.metric)
  }

  function Disagreement(m: Manifest): string {
    if m.timing.Some? then "measurement_inconclusive" else "nondeterministic"
  }

  /** Outcome and score of a confirmed submission. */
  function Verdict(first: MeasuredRun, second: MeasuredRun, m: Manifest): (string, Option<string>) {
    if second.outcome != first.outcome then (Disagreement(m), None)
    else if second.outcome == "valid" then
      var score := Confirm(first, second, m);
      if score.None? then (Disagreement(m), None) else ("valid", score)
    else (second.outcome, None)
  }

  // --------------------------------------------------------------- transactions

  predicate PrimaryOf(s: State, id: Id, sub: SubId) {
    id in s.jobs && s.jobs[id].payload.purpose == Primary && s.jobs[id].payload.submission == sub
  }

  ghost predicate HasPrimary(s: State, sub: SubId) { exists id :: PrimaryOf(s, id, sub) }

  /** acceptIntent, as far as the fleet sees it. */
  function Accept(s: State, sub: SubId, policy: string, m: Manifest): State {
    if sub in s.subs then s else s.(subs := s.subs[sub := Sub(Accepted, "pending", None, policy, m)])
  }

  /** queueSubmission: one primary job per submission. */
  ghost function QueueSubmission(s: State, sub: SubId, id: Id): State {
    if sub !in s.subs || id in s.jobs || !ValidPolicyName(s.subs[sub].policy) || HasPrimary(s, sub) then s
    else
      var payload := Spec(id, Primary, sub, s.subs[sub].policy, s.subs[sub].manifest, [], "", 1, 0);
      s.(jobs := s.jobs[id := NewJob(payload, None)], subs := s.subs[sub := s.subs[sub].(status := SubQueued)])
  }

  /** queuePreparation: a build job. */
  function QueueBuild(s: State, id: Id, policy: string, m: Manifest, excludedGroup: Option<string>): State {
    if id in s.jobs then s
    else s.(jobs := s.jobs[id := NewJob(Spec(id, Build, (0, 0), policy, m, [], "", 1, 0), excludedGroup)])
  }

  function RecoverRow(s: State, id: Id, now: int): Job
    requires id in s.jobs
  {
    if Expired(s.jobs[id], now) && id !in s.results then Recovered(s.jobs[id]) else s.jobs[id]
  }

  function Recover(s: State, now: int): State {
    s.(jobs := map id | id in s.jobs :: RecoverRow(s, id, now))
  }

  function Cancel(s: State, ids: set<Id>): State {
    s.(jobs := map id | id in s.jobs :: if id in ids then CancelledJob(s.jobs[id]) else s.jobs[id])
  }

  function BeginClaim(s: State, id: Id, h: Host, expires: int): State {
    if id !in s.jobs || !Offered(s.jobs[id], h) then s
    else s.(claims := s.claims + [ClaimOf(id, s.jobs[id], h, expires)])
  }

  predicate Claimable(s: State, c: Claim) {
    c.job in s.jobs && s.jobs[c.job].status == Queued && s.jobs[c.job].fence == c.fence
  }

  function FinishClaim(s: State, i: nat, token: nat): State {
    if i >= |s.claims| || !Claimable(s, s.claims[i]) then s
    else
      var c := s.claims[i];
      s.(jobs := s.jobs[c.job := Leased(s.jobs[c.job], c, token)],
         leases := s.leases + [Lease(c.job, c.fence, c.host.id, c.payload)])
  }

  /** The identity checks that need no table. */
  predicate Identified(h: Host, r: Receipt, now: int) {
    r.host == h.id && r.group == h.group && r.official && r.createdAt <= now + 60
  }

  /** The result is for the current lease of this host and for the signed job. */
  predicate ForCurrentLease(j: Job, h: Host, r: Receipt, now: int) {
    && j.status == Running && j.host == Some(h.id) && j.deadline.Some? && now <= j.deadline.value && j.fence == r.fence
    && ValidPolicyName(JobPolicy(j.payload.policy)) && r.jobDigest == j.payload
  }

  /** The stored primary result a confirmation is compared with. */
  ghost function PrimaryResult(s: State, sub: SubId): Option<Receipt> {
    if exists id :: PrimaryOf(s, id, sub) && id in s.results then
      var id :| PrimaryOf(s, id, sub) && id in s.results; Some(s.results[id])
    else None
  }

  /** The confirmation is a fresh attempt, in another group if the policy asks for it. */
  predicate FreshConfirmation(p: Spec, h: Host, r: Receipt, first: Receipt) {
    && (JobPolicy(p.policy) == INDEPENDENT ==> first.group != h.group)
    && first.jobId != r.jobId && first.id != r.id && first.createdAt <= r.createdAt
  }

  function ConfirmationSpec(p: Spec, h: Host, spare: Id): Spec {
    p.(jobId := spare, purpose := Confirmation, group := "", fence := 1,
       excluded := if JobPolicy(p.policy) == INDEPENDENT then [h.id] else [])
  }

  function ConfirmationGroup(p: Spec, h: Host): Option<string> {
    if JobPolicy(p.policy) == INDEPENDENT then Some(h.group) else None
  }

  function SetSub(s: State, sub: SubId, status: SubStatus, outcome: string, score: Option<string>): State {
    if sub !in s.subs then s
    else s.(subs := s.subs[sub := s.subs[sub].(status := status, outcome := outcome, score := score)])
  }

  /** runnerResult. */
  ghost function Deliver(s: State, h: Host, r: Receipt, token: nat, now: int, spare: Id): (State, Reply) {
    if !Identified(h, r, now) || r.jobId !in s.jobs || s.jobs[r.jobId].token != Some(token) then (s, Refused)
    else
      var j := s.jobs[r.jobId];
      if j.status == Completed then
        (s, if r.jobId in s.results && s.results[r.jobId] == r then Duplicate else Refused)
      else if !ForCurrentLease(j, h, r, now) then (s, Refused)
      else if r.run.outcome == "infrastructure_fault" then
        (s.(jobs := s.jobs[r.jobId := Faulted(j, h.id)]), Retrying)
      else if !Storable(j.payload, r.run) || r.jobId in s.results then (s, Refused)
      else Commit(s, h, r, spare)
  }

  /** The row and the result after a stored delivery. */
  function WithResult(s: State, r: Receipt): State
    requires r.jobId in s.jobs
  {
    s.(jobs := s.jobs[r.jobId := s.jobs[r.jobId].(status := Completed, deadline := None)],
       results := s.results[r.jobId := r])
  }

  ghost function Commit(s: State, h: Host, r: Receipt, spare: Id): (State, Reply)
    requires r.jobId in s.jobs
  {
    var p := s.jobs[r.jobId].payload;
    var t := WithResult(s, r);
    if p.purpose == Build then (t, Stored(true, false))
    else if r.run.outcome == "challenge_fault" then
      (SetSub(t, p.submission, ChallengeFault, "pending",
              if p.submission in s.subs then s.subs[p.submission].score else None),
       Stored(false, true))
    else if p.purpose == Primary then
      if r.run.outcome == "valid" then
        if spare in s.jobs then (s, Refused) else (StartConfirmation(t, p, h, spare), Stored(false, false))
      else
        (SetSub(t, p.submission, Validated, r.run.outcome, None), Stored(true, r.run.outcome == "nondeterministic"))
    else CommitConfirmation(s, t, h, r)
  }

  /** A valid primary's part: queue the confirmation. */
  function StartConfirmation(t: State, p: Spec, h: Host, spare: Id): State {
    t.(jobs := t.jobs[spare := NewJob(ConfirmationSpec(p, h, spare), ConfirmationGroup(p, h))],
       subs := if p.submission in t.subs then t.subs[p.submission := t.subs[p.submission].(status := Confirming)]
               else t.subs)
  }

  /** A confirmation's part: compare with the stored primary result and decide. */
  ghost function CommitConfirmation(s: State, t: State, h: Host, r: Receipt): (State, Reply)
    requires r.jobId in s.jobs
  {
    var p := s.jobs[r.jobId].payload;
    var first := PrimaryResult(s, p.submission);
    if first.None? || !FreshConfirmation(p, h, r, first.value) then (s, Refused)
    else
      var v := Verdict(first.value.run, r.run, p.manifest);
      (SetSub(t, p.submission, Validated, v.0, v.1), Stored(true, v.0 == "nondeterministic"))
  }

  // -------------------------------------------------------------------- runs

  datatype Step =
    | DoAccept(sub: SubId, policy: string, manifest: Manifest)
    | DoQueue(sub: SubId, id: Id)
    | DoQueueBuild(id: Id, policy: string, manifest: Manifest, excludedGroup: Option<string>)
    | DoRecover(now: int)
    | DoBegin(id: Id, host: Host, expires: int)
    | DoFinish(claim: nat, token: nat)
    | DoDeliver(host: Host, receipt: Receipt, token: nat, now: int, spare: Id)
    | DoCancel(ids: set<Id>)

  ghost function Next(s: State, step: Step): State {
    match step
    case DoAccept(sub, policy, manifest) => Accept(s, sub, policy, manifest)
    case DoQueue(sub, id) => QueueSubmission(s, sub, id)
    case DoQueueBuild(id, policy, manifest, group) => QueueBuild(s, id, policy, manifest, group)
    case DoRecover(now) => Recover(s, now)
    case DoBegin(id, host, expires) => BeginClaim(s, id, host, expires)
    case DoFinish(claim, token) => FinishClaim(s, claim, token)
    case DoDeliver(host, receipt, token, now, spare) => Deliver(s, host, receipt, token, now, spare).0
    case DoCancel(ids) => Cancel(s, ids)
  }

  ghost function Run(steps: seq<Step>): State {
    if steps == [] then EMPTY else Next(Run(steps[..|steps| - 1]), steps[|steps| - 1])
  }
}

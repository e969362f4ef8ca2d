/** What stands behind a decided receipt: the verdict that the ledger adjudicates is
    computed from two stored, checked results, and adjudication never stumbles over them. */
module PlatformEvidence {
  import opened Wrappers
  import opened Ticks
  import opened Scores
  import opened Platform
  import F = Fleet
  import FS = FleetSafety
  import FV = FleetVerdicts
  import FE = FleetEvidence
  import L = Ledger
  import LS = LedgerSafety
  import W = Worker
  import A = Achievements

  /** p and q are the results behind the row, and its milestones were read from them. */
  ghost predicate ShownIs(f: F.State, l: L.State, sub: F.SubId, p: F.Id, q: F.Id)
    requires HasRow(l, sub) && sub in f.subs
  {
    && FV.BackedBy(f, sub, p, q)
    && RowAt(l, sub).verdict.shown == Shown(f.subs[sub].manifest, [f.results[q], f.results[p]], MilestonesOf(l, sub.0))
    && RowAt(l, sub).verdict.faulty == Faulty(f.subs[sub].manifest, [f.results[q], f.results[p]],
                                              MilestonesOf(l, sub.0))
  }

  predicate Judged(l: L.State, sub: F.SubId) {
    HasRow(l, sub) && RowAt(l, sub).status != L.Pending && RowAt(l, sub).verdict.valid
  }

  ghost predicate ShownOk(f: F.State, l: L.State, sub: F.SubId) {
    Judged(l, sub) && sub in f.subs ==> exists p, q :: ShownIs(f, l, sub, p, q)
  }

  ghost predicate AllShown(f: F.State, l: L.State) { forall sub: F.SubId :: ShownOk(f, l, sub) }

  /** Two stored results stay behind a submission whose row in the fleet is unchanged. */
  lemma BackedKept(f: F.State, g: F.State, sub: F.SubId, p: F.Id, q: F.Id)
    requires FS.Stable(f, g) && sub in f.subs && sub in g.subs && g.subs[sub] == f.subs[sub]
             && FV.BackedBy(f, sub, p, q)
    ensures FV.BackedBy(g, sub, p, q) && g.results[p] == f.results[p] && g.results[q] == f.results[q]
  {
  }

  lemma ShownKept(f: F.State, g: F.State, l: L.State, k: L.State, sub: F.SubId)
    requires ShownOk(f, l, sub) && FS.Stable(f, g) && Judged(l, sub) && sub in f.subs && sub in g.subs
             && g.subs[sub] == f.subs[sub]
    requires HasRow(k, sub) && RowAt(k, sub).verdict == RowAt(l, sub).verdict
             && MilestonesOf(k, sub.0) == MilestonesOf(l, sub.0)
    ensures ShownOk(g, k, sub)
  {
    var p, q :| ShownIs(f, l, sub, p, q);
    BackedKept(f, g, sub, p, q);
    assert ShownIs(g, k, sub, p, q);
  }

  lemma QuietSub(f: F.State, g: F.State, l: L.State, k: L.State, sub: F.SubId)
    requires ShownOk(f, l, sub) && Linked(f, l, sub) && FS.Stable(f, g) && SubsKept(f, g) && RowsKept(l, k)
    ensures ShownOk(g, k, sub)
  {
    if Judged(k, sub) {
      assert HasRow(k, sub) && HasRow(l, sub);
      ShownKept(f, g, l, k, sub);
    }
  }

  /** Steps that decide nothing on either side. */
  lemma QuietKeepsShown(f: F.State, g: F.State, l: L.State, k: L.State)
    requires AllShown(f, l) && AllLinked(f, l) && FS.Stable(f, g) && SubsKept(f, g) && RowsKept(l, k)
    ensures AllShown(g, k)
  {
    forall sub: F.SubId
      ensures ShownOk(g, k, sub)
    {
      if sub in g.subs {
        assert Linked(f, l, sub);
        QuietSub(f, g, l, k, sub);
      }
    }
  }

  lemma SameRows(l: L.State)
    ensures RowsKept(l, l)
  {
  }

  lemma SameFleet(f: F.State)
    ensures FS.Stable(f, f) && SubsKept(f, f)
  {
  }

  /** A new row is undecided. */
  lemma AcceptKeepsShown(s: State, v: nat, publish: bool, policy: string, m: F.Manifest)
    requires AllShown(s.fleet, s.world.ledger) && AllLinked(s.fleet, s.world.ledger)
    ensures var t := Accept(s, v, publish, policy, m); AllShown(t.fleet, t.world.ledger)
  {
    var l := s.world.ledger;
    if L.Accept(l, v, publish) != l && v < |l.versions| {
      var g := F.Accept(s.fleet, (v, |l.versions[v].rows|), policy, m);
      forall sub: F.SubId
        ensures ShownOk(g, L.Accept(l, v, publish), sub)
      {
        if Judged(L.Accept(l, v, publish), sub) {
          AcceptedRow(l, v, publish, sub);
          assert Linked(s.fleet, l, sub);
          ShownKept(s.fleet, g, l, L.Accept(l, v, publish), sub);
        }
      }
    }
  }

  lemma AcceptedRow(l: L.State, v: nat, publish: bool, sub: F.SubId)
    requires Judged(L.Accept(l, v, publish), sub)
    ensures Judged(l, sub) && RowAt(l, sub) == RowAt(L.Accept(l, v, publish), sub)
    ensures MilestonesOf(L.Accept(l, v, publish), sub.0) == MilestonesOf(l, sub.0)
  {
  }

  // --------------------------------------------------------------- deliveries

  lemma BackedBefore(f: F.State, r: F.Receipt, g: F.State, sub: F.SubId, p: F.Id, q: F.Id)
    requires sub in g.subs && FV.BackedBy(g, sub, p, q) && FS.Stable(f, g) && g.results == f.results[r.jobId := r]
    requires f.results.Keys <= f.jobs.Keys && r.jobId in f.jobs
    ensures F.PrimaryOf(f, p, sub) && FV.ConfirmationOf(f, q, sub)
  {
  }

  /** The job of a final valid verdict is the confirmation, and the primary's result is
      the one that the table gives. */
  lemma FinalIsConfirmed(f: F.State, h: F.Host, r: F.Receipt, now: int, g: F.State, sub: F.SubId) returns (p: F.Id)
    requires FV.Live(f, h, r, now) && FS.Stable(f, g) && sub == f.jobs[r.jobId].payload.submission
    requires g.results == f.results[r.jobId := r] && sub in g.subs && FV.Backed(g, sub)
    ensures FV.BackedBy(g, sub, p, r.jobId) && p != r.jobId && p in f.results
            && F.PrimaryResult(f, sub) == Some(f.results[p])
  {
    var q;
    p, q :| FV.BackedBy(g, sub, p, q);
    BackedBefore(f, r, g, sub, p, q);
    if f.jobs[r.jobId].payload.purpose == F.Primary {
      FV.NoConfirmationYet(f, h, r, now, q);
    }
    OneConfirmation(f, r.jobId, q, sub);
    PrimaryIsStored(f, sub, p);
  }

  lemma OneConfirmation(f: F.State, a: F.Id, b: F.Id, sub: F.SubId)
    requires FV.Shape(f) && FV.ConfirmationOf(f, a, sub) && FV.ConfirmationOf(f, b, sub)
    ensures a == b
  {
  }

  lemma PrimaryIsStored(f: F.State, sub: F.SubId, p: F.Id)
    requires FV.Shape(f) && F.PrimaryOf(f, p, sub) && p in f.results
    ensures F.PrimaryResult(f, sub) == Some(f.results[p])
  {
  }

  /** The receipt that a final delivery decides. */
  lemma NewShown(f: F.State, w: W.World, r: F.Receipt, g: F.State, sub: F.SubId, p: F.Id, pause: bool)
    requires sub in f.subs && Linked(f, w.ledger, sub) && f.subs[sub].status != F.Validated && sub in g.subs
    requires FV.BackedBy(g, sub, p, r.jobId) && g.results == f.results[r.jobId := r] && p != r.jobId
    requires p in f.results && F.PrimaryResult(f, sub) == Some(f.results[p])
    ensures ShownOk(g, W.Report(w, sub.0, sub.1, JudgedVerdict(f, w.ledger, r, g.subs[sub], sub), pause).ledger, sub)
  {
    var k := W.Report(w, sub.0, sub.1, JudgedVerdict(f, w.ledger, r, g.subs[sub], sub), pause).ledger;
    assert ShownIs(g, k, sub, p, r.jobId);
  }

  /** A stored reply comes from the current lease of a job without a result. */
  lemma StoredIsLive(f: F.State, h: F.Host, r: F.Receipt, token: nat, now: int, spare: F.Id)
    requires FS.Inv(f) && FV.SubInv(f) && F.Deliver(f, h, r, token, now, spare).1.Stored?
    requires r.jobId in f.jobs && f.jobs[r.jobId].payload.purpose != F.Build
    ensures FV.Live(f, h, r, now) && F.Deliver(f, h, r, token, now, spare).0.results == f.results[r.jobId := r]
  {
    assert FS.RowOk(f, r.jobId);
    CommitStores(f, h, r, spare);
  }

  lemma CommitStores(f: F.State, h: F.Host, r: F.Receipt, spare: F.Id)
    requires r.jobId in f.jobs && F.Commit(f, h, r, spare).1.Stored?
    ensures F.Commit(f, h, r, spare).0.results == f.results[r.jobId := r]
  {
    if f.jobs[r.jobId].payload.purpose == F.Confirmation && r.run.outcome != "challenge_fault" {
      ConfirmationStores(f, h, r);
    }
  }

  lemma ConfirmationStores(f: F.State, h: F.Host, r: F.Receipt)
    requires r.jobId in f.jobs && F.CommitConfirmation(f, F.WithResult(f, r), h, r).1.Stored?
    ensures F.CommitConfirmation(f, F.WithResult(f, r), h, r).0.results == f.results[r.jobId := r]
  {
  }

  /** A delivery that decides nothing. */
  lemma QuietDelivery(f: F.State, w: W.World, r: F.Receipt, g: F.State, reply: F.Reply)
    requires FV.SubInv(f) && AllLinked(f, w.ledger) && AllShown(f, w.ledger) && DeliverySubs(f, r, g, reply)
             && FS.Stable(f, g)
    requires !reply.Stored? || r.jobId !in f.jobs || f.jobs[r.jobId].payload.purpose == F.Build || !reply.final
    ensures AllShown(g, WorldAfter(f, w, r, g, reply).ledger)
  {
    QuietRows(f, w, r, g, reply);
    QuietSubs(f, r, g, reply);
    QuietKeepsShown(f, g, w.ledger, WorldAfter(f, w, r, g, reply).ledger);
  }

  lemma QuietRows(f: F.State, w: W.World, r: F.Receipt, g: F.State, reply: F.Reply)
    requires !reply.Stored? || r.jobId !in f.jobs || f.jobs[r.jobId].payload.purpose == F.Build || !reply.final
    ensures RowsKept(w.ledger, WorldAfter(f, w, r, g, reply).ledger)
  {
    SameRows(w.ledger);
    if r.jobId in f.jobs {
      var sub := f.jobs[r.jobId].payload.submission;
      PublicizeRows(w.ledger, sub.0, sub.1);
    }
  }

  lemma QuietSubs(f: F.State, r: F.Receipt, g: F.State, reply: F.Reply)
    requires FV.SubInv(f) && DeliverySubs(f, r, g, reply)
    requires !reply.Stored? || r.jobId !in f.jobs || f.jobs[r.jobId].payload.purpose == F.Build || !reply.final
    ensures SubsKept(f, g)
  {
    if r.jobId in f.jobs {
      assert FV.JobOk(f, r.jobId);
    }
  }

  /** The other receipts when one is decided. */
  lemma OthersShown(f: F.State, w: W.World, g: F.State, sub: F.SubId, verdict: L.Verdict, pause: bool, other: F.SubId)
    requires other != sub && ShownOk(f, w.ledger, other) && FS.Stable(f, g) && sub in g.subs
             && g.subs == f.subs[sub := g.subs[sub]]
    ensures ShownOk(g, W.Report(w, sub.0, sub.1, verdict, pause).ledger, other)
  {
    var k := W.Report(w, sub.0, sub.1, verdict, pause).ledger;
    if Judged(k, other) && other in g.subs {
      assert HasRow(w.ledger, other) && RowAt(k, other) == RowAt(w.ledger, other);
      ShownKept(f, g, w.ledger, k, other);
    }
  }

  lemma FinalDelivery(f: F.State, w: W.World, h: F.Host, r: F.Receipt, now: int, g: F.State, pause: bool)
    requires FV.Live(f, h, r, now) && AllLinked(f, w.ledger) && AllShown(f, w.ledger) && FS.Stable(f, g)
             && g.results == f.results[r.jobId := r]
    requires var sub := f.jobs[r.jobId].payload.submission;
             && sub in f.subs && sub in g.subs && g.subs == f.subs[sub := g.subs[sub]]
             && f.subs[sub].status != F.Validated
             && (g.subs[sub].outcome == "valid" ==> FV.Backed(g, sub))
    ensures var sub := f.jobs[r.jobId].payload.submission;
            AllShown(g, W.Report(w, sub.0, sub.1, JudgedVerdict(f, w.ledger, r, g.subs[sub], sub), pause).ledger)
  {
    var sub := f.jobs[r.jobId].payload.submission;
    var verdict := JudgedVerdict(f, w.ledger, r, g.subs[sub], sub);
    var k := W.Report(w, sub.0, sub.1, verdict, pause).ledger;
    assert Linked(f, w.ledger, sub);
    forall other: F.SubId
      ensures ShownOk(g, k, other)
    {
      if other != sub {
        OthersShown(f, w, g, sub, verdict, pause, other);
      } else if g.subs[sub].outcome == "valid" {
        var p := FinalIsConfirmed(f, h, r, now, g, sub);
        NewShown(f, w, r, g, sub, p, pause);
      }
    }
  }

  lemma DeliverKeepsShown(s: State, h: F.Host, r: F.Receipt, token: nat, now: int, spare: F.Id)
    requires Inv(s) && AllShown(s.fleet, s.world.ledger)
    ensures var t := Deliver(s, h, r, token, now, spare); AllShown(t.fleet, t.world.ledger)
  {
    var f := s.fleet;
    var (g, reply) := F.Deliver(f, h, r, token, now, spare);
    DeliverSubs(f, h, r, token, now, spare);
    FS.DeliverStable(f, h, r, token, now, spare);
    if reply.Stored? && r.jobId in f.jobs && f.jobs[r.jobId].payload.purpose != F.Build && reply.final {
      StoredIsLive(f, h, r, token, now, spare);
      FV.DeliverKeeps(f, h, r, token, now, spare);
      FinalSub(f, r, g, reply);
      FinalDelivery(f, s.world, h, r, now, g, reply.pause);
    } else {
      QuietDelivery(f, s.world, r, g, reply);
    }
  }

  lemma FinalSub(f: F.State, r: F.Receipt, g: F.State, reply: F.Reply)
    requires FV.SubInv(f) && FV.SubInv(g) && DeliverySubs(f, r, g, reply) && reply.Stored? && reply.final
    requires r.jobId in f.jobs && f.jobs[r.jobId].payload.purpose != F.Build
    ensures var sub := f.jobs[r.jobId].payload.submission;
            && sub in f.subs && sub in g.subs && g.subs == f.subs[sub := g.subs[sub]]
            && f.subs[sub].status != F.Validated
            && (g.subs[sub].outcome == "valid" ==> FV.Backed(g, sub))
  {
    assert FV.JobOk(f, r.jobId);
    assert FV.SubOk(g, f.jobs[r.jobId].payload.submission);
  }

  // -------------------------------------------------------------------- runs

  lemma NextKeepsShown(s: State, step: Step)
    requires Inv(s) && AllShown(s.fleet, s.world.ledger)
    ensures AllShown(Next(s, step).fleet, Next(s, step).world.ledger)
  {
    match step
    case DoAccept(v, publish, policy, m) => AcceptKeepsShown(s, v, publish, policy, m);
    case DoDeliver(h, r, token, now, spare) => DeliverKeepsShown(s, h, r, token, now, spare);
    case DoFleet(t) => FleetKeepsShown(s, t);
    case DoWorker(t) => WorkerKeepsShown(s, t);
  }

  lemma FleetKeepsShown(s: State, t: F.Step)
    requires Inv(s) && AllShown(s.fleet, s.world.ledger)
    ensures AllShown(Next(s, DoFleet(t)).fleet, s.world.ledger)
  {
    if FleetOnly(t) {
      FleetSubs(s.fleet, t);
      FS.NextStable(s.fleet, t);
      SameRows(s.world.ledger);
      QuietKeepsShown(s.fleet, F.Next(s.fleet, t), s.world.ledger, s.world.ledger);
    }
  }

  lemma WorkerKeepsShown(s: State, t: W.Step)
    requires AllLinked(s.fleet, s.world.ledger) && AllShown(s.fleet, s.world.ledger)
    ensures AllShown(s.fleet, Next(s, DoWorker(t)).world.ledger)
  {
    if WorkerOnly(t) {
      WorkerRows(s.world, t);
      SameFleet(s.fleet);
      QuietKeepsShown(s.fleet, s.fleet, s.world.ledger, W.Next(s.world, t).ledger);
    }
  }

  lemma {:induction false} RunKeepsShown(maximum: nat, steps: seq<Step>)
    ensures AllShown(Run(maximum, steps).fleet, Run(maximum, steps).world.ledger)
  {
    if steps != [] {
      Platform.RunKeepsInv(maximum, steps[..|steps| - 1]);
      RunKeepsShown(maximum, steps[..|steps| - 1]);
      NextKeepsShown(Run(maximum, steps[..|steps| - 1]), steps[|steps| - 1]);
    }
  }

  // ------------------------------------------------------------- main results

  /** The results behind a decided valid receipt are sound under its manifest. */
  lemma JudgedIsSound(maximum: nat, steps: seq<Step>, sub: F.SubId) returns (p: F.Id, q: F.Id)
    requires Judged(Run(maximum, steps).world.ledger, sub)
    ensures var s := Run(maximum, steps);
            && sub in s.fleet.subs && ShownIs(s.fleet, s.world.ledger, sub, p, q) && ReplicatedScore(s, sub, p, q)
            && ManifestOk(s.fleet.subs[sub].manifest, s.world.ledger.versions[sub.0].contract)
            && A.Sound(s.fleet.results[p], s.fleet.subs[sub].manifest)
            && A.Sound(s.fleet.results[q], s.fleet.subs[sub].manifest)
            && s.fleet.results[p].jobId != s.fleet.results[q].jobId
  {
    var s := Run(maximum, steps);
    Platform.RunKeepsInv(maximum, steps);
    RunKeepsManifests(maximum, steps);
    RunKeepsShown(maximum, steps);
    RowIsDecided(s, sub);
    assert ShownOk(s.fleet, s.world.ledger, sub);
    p, q :| ShownIs(s.fleet, s.world.ledger, sub, p, q);
    var fleet, _ := Projections(maximum, steps);
    FE.RunChecked(fleet);
    FE.BackedIsSound(s.fleet, sub, p, q);
    FV.BackedIsReplicated(s.fleet, sub, p, q);
    ScoreMatches(s, sub, p, q);
  }

  /** Every decided receipt of the version can be evaluated. */
  ghost predicate AllUsable(version: L.Version) {
    && version.live <= version.contract.milestones.Keys
    && forall i :: 0 <= i < |version.rows| && Waiting(version, version.rows[i]) ==> version.rows[i].verdict.faulty == {}
  }

  /** A decided valid receipt whose milestones are still to be evaluated. */
  predicate Waiting(version: L.Version, row: L.Row) {
    row.status == L.Validated && row.verdict.valid && version.contract.evaluated
  }

  lemma {:induction false} UsableSettles(l: L.State, v: nat)
    requires v < |l.versions| && AllUsable(l.versions[v])
    ensures L.Settle(l, v).Some?
    decreases if l.versions[v].watermark < |l.versions[v].rows| then |l.versions[v].rows| - l.versions[v].watermark
              else 0
  {
    if L.Ready(l.versions[v]) {
      assert !L.Unusable(l, v);
      UsableSettles(L.Finalize(l, v), v);
    }
  }

  /** Adjudication never rolls back: in every run of the platform, whatever was delivered,
      adjudicating any version settles all its decided receipts after the watermark. */
  lemma AdjudicationNeverRollsBack(maximum: nat, steps: seq<Step>, v: nat)
    requires v < |Run(maximum, steps).world.ledger.versions|
    ensures L.Settle(Run(maximum, steps).world.ledger, v).Some?
  {
    var l := Run(maximum, steps).world.ledger;
    var version := l.versions[v];
    MilestonesDeclared(maximum, steps, v);
    forall i | 0 <= i < |version.rows| && Waiting(version, version.rows[i])
      ensures version.rows[i].verdict.faulty == {}
    {
      var sub: F.SubId := (v, i);
      assert Judged(l, sub) && RowAt(l, sub) == version.rows[i];
      JudgedIsUsable(maximum, steps, sub);
    }
    UsableSettles(l, v);
  }

  lemma JudgedIsUsable(maximum: nat, steps: seq<Step>, sub: F.SubId)
    requires var l := Run(maximum, steps).world.ledger; Judged(l, sub) && l.versions[sub.0].contract.evaluated
    ensures RowAt(Run(maximum, steps).world.ledger, sub).verdict.faulty == {}
  {
    var s := Run(maximum, steps);
    var p, q := JudgedIsSound(maximum, steps, sub);
    NothingFaulty(s.fleet.subs[sub].manifest, [s.fleet.results[q], s.fleet.results[p]],
                  MilestonesOf(s.world.ledger, sub.0));
  }

  lemma MilestonesDeclared(maximum: nat, steps: seq<Step>, v: nat)
    requires v < |Run(maximum, steps).world.ledger.versions|
    ensures var version := Run(maximum, steps).world.ledger.versions[v];
            version.live <= version.contract.milestones.Keys
  {
    var _, worker := Projections(maximum, steps);
    var parts := W.LedgerRun(maximum, worker);
    LS.RunKeepsInv(maximum, parts);
    assert LS.VersionOk(Run(maximum, steps).world.ledger.versions[v]);
  }

  lemma NothingFaulty(m: F.Manifest, runs: seq<F.Receipt>, milestones: set<L.Mid>)
    requires |runs| == 2 && runs[0].jobId != runs[1].jobId && A.Sound(runs[0], m) && A.Sound(runs[1], m)
             && m.timing.Some?
    ensures Faulty(m, runs, milestones) == {}
  {
    forall mid | mid in milestones
      ensures A.Achievement(m, mid, runs).Some?
    {
      A.AchievementExact(m, mid, runs);
    }
  }

  /** In every run of the platform a row of the ledger is undecided exactly while its
      submission is; then it is valid exactly when the submission's outcome is, and has the
      submission's score. */
  lemma RowMirrorsSubmission(maximum: nat, steps: seq<Step>, sub: F.SubId)
    requires HasRow(Run(maximum, steps).world.ledger, sub)
    ensures var s := Run(maximum, steps);
            sub in s.fleet.subs && Mirrors(RowAt(s.world.ledger, sub), s.fleet.subs[sub])
  {
    Platform.RunKeepsInv(maximum, steps);
    var s := Run(maximum, steps);
    assert Linked(s.fleet, s.world.ledger, sub);
    if s.fleet.subs[sub].status == F.Validated && s.fleet.subs[sub].outcome == "valid" {
      ValidHasScore(maximum, steps, sub);
    }
  }

  predicate Mirrors(row: L.Row, u: F.Sub) {
    && (row.status == L.Pending <==> u.status != F.Validated)
    && (row.status != L.Pending ==>
          && (row.verdict.valid <==> u.outcome == "valid")
          && (row.verdict.valid ==> u.score.Some? && ParseTicks(u.score.value) == Some(row.verdict.score)))
  }

  lemma ValidHasScore(maximum: nat, steps: seq<Step>, sub: F.SubId)
    requires var f := Run(maximum, steps).fleet;
             sub in f.subs && f.subs[sub].status == F.Validated && f.subs[sub].outcome == "valid"
    ensures var u := Run(maximum, steps).fleet.subs[sub]; u.score.Some? && ParseTicks(u.score.value).Some?
  {
    RunKeepsManifests(maximum, steps);
    var fleet, _ := Projections(maximum, steps);
    var p, q := FV.ValidVerdictsAreReplicated(fleet, sub);
  }

  /** What a delivery does to the ledger: a final result of a submission gives the pending row
      its verdict and inserts its adjudication job, and stops intake if the runs disagreed; a
      fault of the challenge only stops intake; everything else leaves the ledger alone. */
  lemma DeliveryOnLedger(s: State, h: F.Host, r: F.Receipt, token: nat, now: int, spare: F.Id)
    requires r.jobId in s.fleet.jobs && HasRow(s.world.ledger, s.fleet.jobs[r.jobId].payload.submission)
    requires RowAt(s.world.ledger, s.fleet.jobs[r.jobId].payload.submission).status == L.Pending
    requires s.fleet.jobs[r.jobId].payload.submission in s.fleet.subs
    ensures var p, (g, reply) := s.fleet.jobs[r.jobId].payload, F.Deliver(s.fleet, h, r, token, now, spare);
            var t, v, i := Deliver(s, h, r, token, now, spare), p.submission.0, p.submission.1;
            var a := s.world.ledger.versions[v];
            && t.fleet == g
            && if !reply.Stored? || p.purpose == F.Build || reply == F.Stored(false, false) then t.world == s.world
               else if reply == F.Stored(false, true)
               then t.world == s.world.(ledger := L.Put(s.world.ledger, v, a.(intake := L.Paused)))
               else
                 && p.submission in g.subs && (v, i) in t.world.jobs && HasRow(t.world.ledger, p.submission)
                 && RowAt(t.world.ledger, p.submission).status == L.Validated
                 && (RowAt(t.world.ledger, p.submission).verdict.valid ==> g.subs[p.submission].outcome == "valid")
                 && t.world.ledger.versions[v].intake == (if reply.pause then L.Paused else a.intake)
                 && t.world.ledger.claims == s.world.ledger.claims
  {
    var (g, reply) := F.Deliver(s.fleet, h, r, token, now, spare);
    SubmissionsStay(s.fleet, h, r, token, now, spare, s.fleet.jobs[r.jobId].payload.submission);
  }

  lemma SubmissionsStay(f: F.State, h: F.Host, r: F.Receipt, token: nat, now: int, spare: F.Id, sub: F.SubId)
    requires sub in f.subs
    ensures sub in F.Deliver(f, h, r, token, now, spare).0.subs
  {
  }

  /** Of a valid receipt under a measuring contract, a milestone counts as shown exactly when
      the manifest requires nothing for it or both stored runs meet every requirement. */
  lemma ShownExactly(maximum: nat, steps: seq<Step>, sub: F.SubId, m: L.Mid) returns (p: F.Id, q: F.Id)
    requires var l := Run(maximum, steps).world.ledger;
             Judged(l, sub) && l.versions[sub.0].contract.evaluated && m in l.versions[sub.0].contract.milestones
    ensures var s := Run(maximum, steps);
            && sub in s.fleet.subs && p in s.fleet.results && q in s.fleet.results && ReplicatedScore(s, sub, p, q)
            && var manifest := s.fleet.subs[sub].manifest;
               (m in RowAt(s.world.ledger, sub).verdict.shown <==>
                m in manifest.achievements && manifest.achievements[m] != [] ==>
                  A.MeetsAll(s.fleet.results[p].run, manifest.achievements[m])
                  && A.MeetsAll(s.fleet.results[q].run, manifest.achievements[m]))
  {
    var s := Run(maximum, steps);
    p, q := JudgedIsSound(maximum, steps, sub);
    var manifest := s.fleet.subs[sub].manifest;
    A.AchievementExact(manifest, m, [s.fleet.results[q], s.fleet.results[p]]);
    var needed := A.Requirements(manifest, m);
    A.DemonstratesExact(s.fleet.results[p].run, needed);
    A.DemonstratesExact(s.fleet.results[q].run, needed);
  }

  /** The published score of a run is at the milestone's threshold or beyond it. */
  predicate ScoreMeets(r: F.Receipt, c: L.Contract, m: L.Mid)
    requires m in c.milestones && ParseTicks(r.run.scoreTicks).Some?
  {
    var x := ParseTicks(r.run.scoreTicks).value;
    (c.direction == "maximize" && x >= c.milestones[m]) || (c.direction == "minimize" && x <= c.milestones[m])
  }

  /** A claimed milestone: both stored runs of its winner cross the threshold and, where
      the milestone requires something of the measurements, both demonstrate it. */
  lemma MilestonesAreReplicated(maximum: nat, steps: seq<Step>, m: L.Mid) returns (p: F.Id, q: F.Id)
    requires m in Run(maximum, steps).world.ledger.claims
    ensures var s := Run(maximum, steps);
            var l, sub := s.world.ledger, s.world.ledger.claims[m];
            && HasRow(l, sub) && sub in s.fleet.subs && p in s.fleet.results && q in s.fleet.results
            && ReplicatedScore(s, sub, p, q)
            && var c, needed := l.versions[sub.0].contract, A.Requirements(s.fleet.subs[sub].manifest, m);
               && m in c.milestones
               && ScoreMeets(s.fleet.results[p], c, m) && ScoreMeets(s.fleet.results[q], c, m)
               && (c.evaluated && needed != [] ==>
                     A.Demonstrates(s.fleet.results[p].run, needed) && A.Demonstrates(s.fleet.results[q].run, needed))
  {
    var s := Run(maximum, steps);
    var l, sub := s.world.ledger, s.world.ledger.claims[m];
    ClaimedRow(maximum, steps, m);
    p, q := JudgedIsSound(maximum, steps, sub);
    var x, y := ParseTicks(s.fleet.results[p].run.scoreTicks), ParseTicks(s.fleet.results[q].run.scoreTicks);
    var c := l.versions[sub.0].contract;
    ConfirmedCrossingHoldsForBoth(x.value, y.value, c.milestones[m], c.direction);
    if c.evaluated {
      A.AchievementExact(s.fleet.subs[sub].manifest, m, [s.fleet.results[q], s.fleet.results[p]]);
    }
  }
}

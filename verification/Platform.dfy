/** Fleet, ledger and worker together: the transactions of internal/platform on one
    set of tables, where a submission is the row (version, index) of the ledger. */
module Platform {
  import opened Wrappers
  import opened Ticks
  import opened Scores
  import F = Fleet
  import FS = FleetSafety
  import FV = FleetVerdicts
  import L = Ledger
  import LS = LedgerSafety
  import LR = LedgerResults
  import W = Worker
  import T = Timing
  import A = Achievements

  datatype State = State(fleet: F.State, world: W.World)

  /** The manifest's rules that a version is published with. */
  ghost predicate ManifestOk(m: F.Manifest, c: L.Contract) {
    && ValidMetric(m.metric) && m.metric.direction == c.direction && c.evaluated == m.timing.Some?
    && (m.timing.Some? ==> T.ValidContract(F.ContractOf(m)))
  }

  /** The verdict on a submission as the adjudicator reads it; `shown` and `faulty`
      are what the stored measurements say about the milestones. */
  function VerdictOf(u: F.Sub, shown: set<L.Mid>, faulty: set<L.Mid>): L.Verdict {
    if u.outcome == "valid" && u.score.Some? && ParseTicks(u.score.value).Some?
    then L.Verdict(true, ParseTicks(u.score.value).value, shown, faulty)
    else L.Verdict(false, 0, shown, faulty)
  }

  /** acceptIntent: the row and the submission. */
  ghost function Accept(s: State, v: nat, publish: bool, policy: string, m: F.Manifest): State {
    var l := s.world.ledger;
    var t := L.Accept(l, v, publish);
    if t == l || v >= |l.versions| || !ManifestOk(m, l.versions[v].contract) then s
    else State(F.Accept(s.fleet, (v, |l.versions[v].rows|), policy, m), s.world.(ledger := t))
  }

  /** The two stored results of a confirmed submission, as adjudication reads them. */
  ghost function StoredRuns(f: F.State, r: F.Receipt, sub: F.SubId): seq<F.Receipt> {
    var first := F.PrimaryResult(f, sub);
    if first.Some? then [r, first.value] else [r]
  }

  /** The milestones that the runs demonstrate, and those that cannot be evaluated. */
  function Shown(m: F.Manifest, runs: seq<F.Receipt>, milestones: set<L.Mid>): set<L.Mid> {
    set mid | mid in milestones && A.Achievement(m, mid, runs) == Some(true)
  }

  function Faulty(m: F.Manifest, runs: seq<F.Receipt>, milestones: set<L.Mid>): set<L.Mid> {
    set mid | mid in milestones && A.Achievement(m, mid, runs).None?
  }

  function MilestonesOf(l: L.State, v: nat): set<L.Mid> {
    if v < |l.versions| then l.versions[v].contract.milestones.Keys else {}
  }

  ghost function JudgedVerdict(f: F.State, l: L.State, r: F.Receipt, u: F.Sub, sub: F.SubId): L.Verdict {
    var runs, all := StoredRuns(f, r, sub), MilestonesOf(l, sub.0);
    VerdictOf(u, Shown(u.manifest, runs, all), Faulty(u.manifest, runs, all))
  }

  /** What a delivery means for the ledger: a final result gives the verdict and its
      adjudication job, a checker fault pauses intake, a valid primary does nothing yet. */
  ghost function WorldAfter(f: F.State, w: W.World, r: F.Receipt, g: F.State, reply: F.Reply): W.World {
    if !reply.Stored? || r.jobId !in f.jobs || f.jobs[r.jobId].payload.purpose == F.Build then w
    else
      var sub := f.jobs[r.jobId].payload.submission;
      if reply.final && sub in g.subs
      then W.Report(w, sub.0, sub.1, JudgedVerdict(f, w.ledger, r, g.subs[sub], sub), reply.pause)
      else if reply.pause then w.(ledger := L.Incident(w.ledger, sub.0, sub.1))
      else w
  }

  /** runnerResult. */
  ghost function Deliver(s: State, h: F.Host, r: F.Receipt, token: nat, now: int, spare: F.Id): State {
    var (g, reply) := F.Deliver(s.fleet, h, r, token, now, spare);
    State(g, WorldAfter(s.fleet, s.world, r, g, reply))
  }

  datatype Step =
    | DoAccept(v: nat, publish: bool, policy: string, manifest: F.Manifest)
    | DoDeliver(host: F.Host, receipt: F.Receipt, token: nat, now: int, spare: F.Id)
    | DoFleet(fleetStep: F.Step)
    | DoWorker(workerStep: W.Step)

  /** Steps of one part that the other does not take part in. */
  predicate FleetOnly(s: F.Step) { !s.DoAccept? && !s.DoDeliver? }

  predicate WorkerOnly(s: W.Step) {
    !s.DoReport? && (s.DoLedger? ==> !s.s.DoAccept? && !s.s.DoIncident? && W.Outside(s.s))
  }

  ghost function Next(s: State, step: Step): State {
    match step
    case DoAccept(v, publish, policy, m) => Accept(s, v, publish, policy, m)
    case DoDeliver(h, r, token, now, spare) => Deliver(s, h, r, token, now, spare)
    case DoFleet(t) => if FleetOnly(t) then s.(fleet := F.Next(s.fleet, t)) else s
    case DoWorker(t) => if WorkerOnly(t) then s.(world := W.Next(s.world, t)) else s
  }

  ghost function Run(maximum: nat, steps: seq<Step>): State {
    if steps == [] then State(F.EMPTY, W.Run(maximum, []))
    else Next(Run(maximum, steps[..|steps| - 1]), steps[|steps| - 1])
  }

  // ------------------------------------------------------- rows and submissions

  predicate HasRow(l: L.State, sub: F.SubId) { sub.0 < |l.versions| && sub.1 < |l.versions[sub.0].rows| }

  function RowAt(l: L.State, sub: F.SubId): L.Row
    requires HasRow(l, sub)
  {
    l.versions[sub.0].rows[sub.1]
  }

  predicate SameVerdict(v: L.Verdict, u: F.Sub) { VerdictOf(u, v.shown, v.faulty) == v }

  /** The row is undecided exactly while the submission is, and then says the same. */
  ghost predicate Linked(f: F.State, l: L.State, sub: F.SubId) {
    && HasRow(l, sub) && sub in f.subs
    && (RowAt(l, sub).status == L.Pending <==> f.subs[sub].status != F.Validated)
    && (f.subs[sub].status == F.Validated ==> SameVerdict(RowAt(l, sub).verdict, f.subs[sub]))
  }

  /** Submissions carry a manifest that fits their version. */
  ghost predicate ManifestsOk(f: F.State, l: L.State) {
    forall sub :: sub in f.subs ==> sub.0 < |l.versions| && ManifestOk(f.subs[sub].manifest, l.versions[sub.0].contract)
  }

  ghost predicate AllLinked(f: F.State, l: L.State) {
    && (forall sub :: sub in f.subs ==> Linked(f, l, sub))
    && (forall sub :: HasRow(l, sub) ==> sub in f.subs)
  }

  /** Rows stay, with their decision and verdict; no row is added. */
  ghost predicate RowsKept(l: L.State, t: L.State) {
    && |l.versions| <= |t.versions|
    && (forall sub :: HasRow(t, sub) <==> HasRow(l, sub))
    && (forall v :: 0 <= v < |l.versions| ==> t.versions[v].contract == l.versions[v].contract)
    && forall sub :: HasRow(l, sub) && HasRow(t, sub) ==>
         (RowAt(t, sub).status == L.Pending <==> RowAt(l, sub).status == L.Pending)
         && RowAt(t, sub).verdict == RowAt(l, sub).verdict
  }

  lemma RowsKeptLinks(f: F.State, l: L.State, t: L.State)
    requires AllLinked(f, l) && RowsKept(l, t)
    ensures AllLinked(f, t)
  {
    forall sub | sub in f.subs
      ensures Linked(f, t, sub)
    {
      assert Linked(f, l, sub);
    }
  }

  // --------------------------------------------------------------- ledger side

  lemma RowsKeptTransitive(a: L.State, b: L.State, c: L.State)
    requires RowsKept(a, b) && RowsKept(b, c)
    ensures RowsKept(a, c)
  {
    forall sub: F.SubId
      ensures HasRow(c, sub) <==> HasRow(a, sub)
    {
      assert HasRow(b, sub) <==> HasRow(a, sub);
    }
  }

  lemma FinalizeRows(l: L.State, v: nat)
    requires v < |l.versions| && L.Ready(l.versions[v])
    ensures RowsKept(l, L.Finalize(l, v))
  {
  }

  lemma {:induction false} SettleRows(l: L.State, v: nat)
    requires v < |l.versions| && L.Settle(l, v).Some?
    ensures RowsKept(l, L.Settle(l, v).value)
    decreases if l.versions[v].watermark < |l.versions[v].rows| then |l.versions[v].rows| - l.versions[v].watermark
              else 0
  {
    if L.Ready(l.versions[v]) {
      FinalizeRows(l, v);
      SettleRows(L.Finalize(l, v), v);
      RowsKeptTransitive(l, L.Finalize(l, v), L.Settle(l, v).value);
    }
  }

  lemma LifeRows(l: L.State, s: L.Step)
    requires s.DoChallenge? || s.DoVersion? || s.DoPublish? || s.DoComplete? || s.DoAct?
    ensures RowsKept(l, L.Next(l, s))
  {
    var t := L.Next(l, s);
    W.LifeAddsEmpty(l, s);
    forall v | 0 <= v < |l.versions|
      ensures t.versions[v].rows == l.versions[v].rows && t.versions[v].contract == l.versions[v].contract
    {
      LR.LifeLeavesFrontier(l, s, v);
    }
  }

  lemma PublicizeRows(l: L.State, v: nat, i: nat)
    ensures RowsKept(l, L.Publicize(l, v, i)) && RowsKept(l, L.Incident(l, v, i))
  {
  }

  lemma WorkerRows(w: W.World, s: W.Step)
    requires WorkerOnly(s)
    ensures RowsKept(w.ledger, W.Next(w, s).ledger)
  {
    W.LedgerMoves(w, s);
    match s
    case DoLedger(t) => if t.DoPublicize? { PublicizeRows(w.ledger, t.v, t.i); } else { LifeRows(w.ledger, t); }
    case DoPerform(k, e) =>
      if k < |w.calls| {
        var v := w.calls[k].job.0;
        if v < |w.ledger.versions| && L.Settle(w.ledger, v).Some? {
          SettleRows(w.ledger, v);
        }
      }
    case _ =>
  }

  // ---------------------------------------------------------------- fleet side

  /** Decided submissions stay as they are and no other becomes decided. */
  ghost predicate SubsKept(f: F.State, g: F.State) {
    && g.subs.Keys == f.subs.Keys
    && forall sub :: sub in f.subs ==>
         (g.subs[sub].status == F.Validated <==> f.subs[sub].status == F.Validated)
         && g.subs[sub].manifest == f.subs[sub].manifest
         && (f.subs[sub].status == F.Validated ==> g.subs[sub] == f.subs[sub])
  }

  lemma SubsKeptLinks(f: F.State, g: F.State, l: L.State)
    requires AllLinked(f, l) && SubsKept(f, g)
    ensures AllLinked(g, l)
  {
    forall sub | sub in g.subs
      ensures Linked(g, l, sub)
    {
      assert Linked(f, l, sub);
    }
  }

  lemma FleetSubs(f: F.State, s: F.Step)
    requires FV.SubInv(f) && FleetOnly(s)
    ensures SubsKept(f, F.Next(f, s))
  {
    match s
    case DoQueue(sub, id) => if sub in f.subs { assert FV.SubOk(f, sub); }
    case _ =>
  }

  /** What a delivery does to submissions: a refusal or a requeue leaves them alone, a
      stored result of a submission's job touches that submission only, and decides it
      exactly when it is final. */
  ghost predicate DeliverySubs(f: F.State, r: F.Receipt, g: F.State, reply: F.Reply) {
    if !reply.Stored? || r.jobId !in f.jobs || f.jobs[r.jobId].payload.purpose == F.Build then g.subs == f.subs
    else
      var sub := f.jobs[r.jobId].payload.submission;
      sub in f.subs ==>
        sub in g.subs && g.subs == f.subs[sub := g.subs[sub]] && f.subs[sub].status != F.Validated
        && (g.subs[sub].status == F.Validated <==> reply.final) && g.subs[sub].manifest == f.subs[sub].manifest
  }

  lemma CommitSubs(f: F.State, h: F.Host, r: F.Receipt, spare: F.Id)
    requires r.jobId in f.jobs
    requires var p := f.jobs[r.jobId].payload; p.purpose != F.Build ==>
               p.submission in f.subs && f.subs[p.submission].status != F.Validated
    ensures DeliverySubs(f, r, F.Commit(f, h, r, spare).0, F.Commit(f, h, r, spare).1)
  {
    if f.jobs[r.jobId].payload.purpose == F.Confirmation {
      ConfirmationSubs(f, h, r);
    }
  }

  lemma ConfirmationSubs(f: F.State, h: F.Host, r: F.Receipt)
    requires r.jobId in f.jobs && f.jobs[r.jobId].payload.purpose == F.Confirmation
    requires var p := f.jobs[r.jobId].payload; p.submission in f.subs && f.subs[p.submission].status != F.Validated
    ensures var c := F.CommitConfirmation(f, F.WithResult(f, r), h, r); DeliverySubs(f, r, c.0, c.1)
  {
  }

  lemma DeliverSubs(f: F.State, h: F.Host, r: F.Receipt, token: nat, now: int, spare: F.Id)
    requires FS.Inv(f) && FV.SubInv(f)
    ensures var (g, reply) := F.Deliver(f, h, r, token, now, spare); DeliverySubs(f, r, g, reply)
  {
    if r.jobId in f.jobs {
      assert FS.RowOk(f, r.jobId);
      if F.ForCurrentLease(f.jobs[r.jobId], h, r, now) && r.jobId !in f.results && F.Identified(h, r, now) {
        if f.jobs[r.jobId].payload.purpose != F.Build {
          FV.LiveIsOpen(f, h, r, now);
        }
        CommitSubs(f, h, r, spare);
      }
    }
  }

  // -------------------------------------------------------------- every run

  ghost predicate Inv(s: State) { FS.Inv(s.fleet) && FV.SubInv(s.fleet) && AllLinked(s.fleet, s.world.ledger) }

  /** Contracts of versions and manifests of submissions never change. */
  lemma ManifestsKept(f: F.State, g: F.State, l: L.State, k: L.State)
    requires ManifestsOk(f, l) && |l.versions| <= |k.versions|
    requires forall v :: 0 <= v < |l.versions| ==> k.versions[v].contract == l.versions[v].contract
    requires forall sub: F.SubId :: sub in g.subs ==>
               if sub in f.subs then g.subs[sub].manifest == f.subs[sub].manifest
               else sub.0 < |l.versions| && ManifestOk(g.subs[sub].manifest, l.versions[sub.0].contract)
    ensures ManifestsOk(g, k)
  {
  }

  lemma NextKeepsManifests(s: State, step: Step)
    requires Inv(s) && ManifestsOk(s.fleet, s.world.ledger)
    ensures ManifestsOk(Next(s, step).fleet, Next(s, step).world.ledger)
  {
    match step
    case DoAccept(v, publish, policy, m) => AcceptManifests(s, v, publish, policy, m);
    case DoDeliver(h, r, token, now, spare) => DeliverManifests(s, h, r, token, now, spare);
    case DoFleet(t) =>
      if FleetOnly(t) {
        FleetSubs(s.fleet, t);
        ManifestsKept(s.fleet, F.Next(s.fleet, t), s.world.ledger, s.world.ledger);
      }
    case DoWorker(t) =>
      if WorkerOnly(t) {
        WorkerRows(s.world, t);
        ManifestsKept(s.fleet, s.fleet, s.world.ledger, W.Next(s.world, t).ledger);
      }
  }

  lemma AcceptManifests(s: State, v: nat, publish: bool, policy: string, m: F.Manifest)
    requires ManifestsOk(s.fleet, s.world.ledger)
    ensures var t := Accept(s, v, publish, policy, m); ManifestsOk(t.fleet, t.world.ledger)
  {
    var t := Accept(s, v, publish, policy, m);
    ManifestsKept(s.fleet, t.fleet, s.world.ledger, t.world.ledger);
  }

  lemma DeliverManifests(s: State, h: F.Host, r: F.Receipt, token: nat, now: int, spare: F.Id)
    requires Inv(s) && ManifestsOk(s.fleet, s.world.ledger)
    ensures var t := Deliver(s, h, r, token, now, spare); ManifestsOk(t.fleet, t.world.ledger)
  {
    var t := Deliver(s, h, r, token, now, spare);
    DeliverSubs(s.fleet, h, r, token, now, spare);
    DeliveryManifests(s.fleet, r, t.fleet, F.Deliver(s.fleet, h, r, token, now, spare).1);
    WorldContracts(s.fleet, s.world, r, t.fleet, F.Deliver(s.fleet, h, r, token, now, spare).1);
    ManifestsKept(s.fleet, t.fleet, s.world.ledger, t.world.ledger);
  }

  lemma DeliveryManifests(f: F.State, r: F.Receipt, g: F.State, reply: F.Reply)
    requires FV.SubInv(f) && DeliverySubs(f, r, g, reply)
    ensures g.subs.Keys == f.subs.Keys && forall sub :: sub in f.subs ==> g.subs[sub].manifest == f.subs[sub].manifest
  {
    if r.jobId in f.jobs {
      assert FV.JobOk(f, r.jobId);
    }
  }

  lemma WorldContracts(f: F.State, w: W.World, r: F.Receipt, g: F.State, reply: F.Reply)
    ensures var t := WorldAfter(f, w, r, g, reply).ledger;
            |t.versions| == |w.ledger.versions| && forall v :: 0 <= v < |t.versions| ==>
              t.versions[v].contract == w.ledger.versions[v].contract
  {
  }

  lemma AcceptLinks(s: State, v: nat, publish: bool, policy: string, m: F.Manifest)
    requires AllLinked(s.fleet, s.world.ledger)
    ensures AllLinked(Accept(s, v, publish, policy, m).fleet, Accept(s, v, publish, policy, m).world.ledger)
  {
    var l := s.world.ledger;
    if L.Accept(l, v, publish) != l && v < |l.versions| && ManifestOk(m, l.versions[v].contract) {
      AddedRowLinks(s.fleet, l, v, publish, policy, m);
    }
  }

  lemma AddedRowLinks(f: F.State, l: L.State, v: nat, publish: bool, policy: string, m: F.Manifest)
    requires AllLinked(f, l) && v < |l.versions| && L.Accept(l, v, publish) != l
    ensures AllLinked(F.Accept(f, (v, |l.versions[v].rows|), policy, m), L.Accept(l, v, publish))
  {
    var sub: F.SubId := (v, |l.versions[v].rows|);
    var g, k := F.Accept(f, sub, policy, m), L.Accept(l, v, publish);
    assert !HasRow(l, sub);
    forall u | u in g.subs
      ensures Linked(g, k, u)
    {
      if u != sub {
        assert Linked(f, l, u);
      }
    }
    forall u | HasRow(k, u)
      ensures u in g.subs
    {
      assert u == sub || HasRow(l, u);
    }
  }

  /** One submission is decided, on both sides at once. */
  lemma ReportLinks(f: F.State, g: F.State, w: W.World, sub: F.SubId, verdict: L.Verdict, pause: bool)
    requires AllLinked(f, w.ledger) && sub in f.subs && f.subs[sub].status != F.Validated
    requires sub in g.subs && g.subs == f.subs[sub := g.subs[sub]] && g.subs[sub].status == F.Validated
    requires SameVerdict(verdict, g.subs[sub])
    ensures AllLinked(g, W.Report(w, sub.0, sub.1, verdict, pause).ledger)
  {
    var l, k := w.ledger, W.Report(w, sub.0, sub.1, verdict, pause).ledger;
    assert Linked(f, l, sub);
    forall u | u in g.subs
      ensures Linked(g, k, u)
    {
      assert Linked(f, l, u);
    }
    forall u | HasRow(k, u)
      ensures u in g.subs
    {
      assert HasRow(l, u);
    }
  }

  lemma DeliverLinks(s: State, h: F.Host, r: F.Receipt, token: nat, now: int, spare: F.Id)
    requires Inv(s)
    ensures var t := Deliver(s, h, r, token, now, spare); AllLinked(t.fleet, t.world.ledger)
  {
    DeliverSubs(s.fleet, h, r, token, now, spare);
    var (g, reply) := F.Deliver(s.fleet, h, r, token, now, spare);
    DeliveryLinks(s.fleet, s.world, r, g, reply);
  }

  lemma DeliveryLinks(f: F.State, w: W.World, r: F.Receipt, g: F.State, reply: F.Reply)
    requires FV.SubInv(f) && AllLinked(f, w.ledger) && DeliverySubs(f, r, g, reply)
    ensures AllLinked(g, WorldAfter(f, w, r, g, reply).ledger)
  {
    if !reply.Stored? || r.jobId !in f.jobs || f.jobs[r.jobId].payload.purpose == F.Build {
      SubsKeptLinks(f, g, w.ledger);
    } else {
      assert FV.JobOk(f, r.jobId);
      var sub := f.jobs[r.jobId].payload.submission;
      if reply.final {
        ReportLinks(f, g, w, sub, JudgedVerdict(f, w.ledger, r, g.subs[sub], sub), reply.pause);
      } else if reply.pause {
        IncidentLinks(f, g, w.ledger, sub);
      } else {
        SubsKeptLinks(f, g, w.ledger);
      }
    }
  }

  lemma IncidentLinks(f: F.State, g: F.State, l: L.State, sub: F.SubId)
    requires AllLinked(f, l) && SubsKept(f, g)
    ensures AllLinked(g, L.Incident(l, sub.0, sub.1))
  {
    SubsKeptLinks(f, g, l);
    PublicizeRows(l, sub.0, sub.1);
    RowsKeptLinks(g, l, L.Incident(l, sub.0, sub.1));
  }

  lemma NextLinks(s: State, step: Step)
    requires Inv(s)
    ensures AllLinked(Next(s, step).fleet, Next(s, step).world.ledger)
  {
    match step
    case DoAccept(v, publish, policy, m) => AcceptLinks(s, v, publish, policy, m);
    case DoDeliver(h, r, token, now, spare) => DeliverLinks(s, h, r, token, now, spare);
    case DoFleet(t) =>
      if FleetOnly(t) {
        FleetSubs(s.fleet, t);
        SubsKeptLinks(s.fleet, F.Next(s.fleet, t), s.world.ledger);
      }
    case DoWorker(t) =>
      if WorkerOnly(t) {
        WorkerRows(s.world, t);
        RowsKeptLinks(s.fleet, s.world.ledger, W.Next(s.world, t).ledger);
      }
  }

  /** What a step is on the fleet, and what it is on the ledger and the worker. */
  ghost function FleetPart(s: State, step: Step): seq<F.Step> {
    match step
    case DoAccept(v, publish, policy, m) =>
      var l := s.world.ledger;
      if L.Accept(l, v, publish) == l || v >= |l.versions| || !ManifestOk(m, l.versions[v].contract) then []
      else [F.DoAccept((v, |l.versions[v].rows|), policy, m)]
    case DoDeliver(h, r, token, now, spare) => [F.DoDeliver(h, r, token, now, spare)]
    case DoFleet(t) => if FleetOnly(t) then [t] else []
    case DoWorker(_) => []
  }

  ghost function WorkerPart(s: State, step: Step): seq<W.Step> {
    match step
    case DoAccept(v, publish, policy, m) =>
      var l := s.world.ledger;
      if L.Accept(l, v, publish) == l || v >= |l.versions| || !ManifestOk(m, l.versions[v].contract) then []
      else [W.DoLedger(L.DoAccept(v, publish))]
    case DoDeliver(h, r, token, now, spare) =>
      var (f, reply) := F.Deliver(s.fleet, h, r, token, now, spare);
      if !reply.Stored? || r.jobId !in s.fleet.jobs || s.fleet.jobs[r.jobId].payload.purpose == F.Build then []
      else
        var sub := s.fleet.jobs[r.jobId].payload.submission;
        if reply.final && sub in f.subs
        then [W.DoReport(sub.0, sub.1, JudgedVerdict(s.fleet, s.world.ledger, r, f.subs[sub], sub), reply.pause)]
        else if reply.pause then [W.DoLedger(L.DoIncident(sub.0, sub.1))]
        else []
    case DoFleet(_) => []
    case DoWorker(t) => if WorkerOnly(t) then [t] else []
  }

  lemma FleetMoves(s: State, step: Step)
    ensures |FleetPart(s, step)| <= 1
            && Next(s, step).fleet == if FleetPart(s, step) == [] then s.fleet
                                      else F.Next(s.fleet, FleetPart(s, step)[0])
  {
  }

  lemma WorkerMoves(s: State, step: Step)
    ensures |WorkerPart(s, step)| <= 1
            && Next(s, step).world == if WorkerPart(s, step) == [] then s.world
                                      else W.Next(s.world, WorkerPart(s, step)[0])
  {
    match step
    case DoAccept(v, publish, _, _) => assert W.Next(s.world, W.DoLedger(L.DoAccept(v, publish)))
      == s.world.(ledger := L.Accept(s.world.ledger, v, publish));
    case DoDeliver(_, r, _, _, _) =>
      if r.jobId in s.fleet.jobs {
        IncidentMoves(s.world, s.fleet.jobs[r.jobId].payload.submission);
      }
    case _ =>
  }

  lemma IncidentMoves(w: W.World, sub: F.SubId)
    ensures W.Next(w, W.DoLedger(L.DoIncident(sub.0, sub.1))) == w.(ledger := L.Incident(w.ledger, sub.0, sub.1))
  {
  }

  lemma FleetExtend(parts: seq<F.Step>, part: seq<F.Step>)
    requires |part| <= 1
    ensures F.Run(parts + part) == if part == [] then F.Run(parts) else F.Next(F.Run(parts), part[0])
  {
    if part == [] {
      assert parts + part == parts;
    } else {
      assert (parts + part)[..|parts|] == parts;
    }
  }

  lemma WorkerExtend(maximum: nat, parts: seq<W.Step>, part: seq<W.Step>)
    requires |part| <= 1
    ensures W.Run(maximum, parts + part) == if part == [] then W.Run(maximum, parts)
                                            else W.Next(W.Run(maximum, parts), part[0])
  {
    if part == [] {
      assert parts + part == parts;
    } else {
      assert (parts + part)[..|parts|] == parts;
    }
  }

  /** A run of the platform is a run of the fleet and a run of the workers, so all
      results about those hold of it. */
  lemma {:induction false} Projections(maximum: nat, steps: seq<Step>) returns (fleet: seq<F.Step>, worker: seq<W.Step>)
    ensures Run(maximum, steps).fleet == F.Run(fleet) && Run(maximum, steps).world == W.Run(maximum, worker)
  {
    fleet, worker := [], [];
    if steps != [] {
      var shorter, last := steps[..|steps| - 1], steps[|steps| - 1];
      var f, w := Projections(maximum, shorter);
      var s := Run(maximum, shorter);
      FleetMoves(s, last);
      WorkerMoves(s, last);
      FleetExtend(f, FleetPart(s, last));
      WorkerExtend(maximum, w, WorkerPart(s, last));
      fleet, worker := f + FleetPart(s, last), w + WorkerPart(s, last);
    }
  }

  lemma {:induction false} RunKeepsManifests(maximum: nat, steps: seq<Step>)
    ensures ManifestsOk(Run(maximum, steps).fleet, Run(maximum, steps).world.ledger)
  {
    if steps != [] {
      RunKeepsInv(maximum, steps[..|steps| - 1]);
      RunKeepsManifests(maximum, steps[..|steps| - 1]);
      NextKeepsManifests(Run(maximum, steps[..|steps| - 1]), steps[|steps| - 1]);
    }
  }

  lemma {:induction false} RunKeepsInv(maximum: nat, steps: seq<Step>)
    ensures Inv(Run(maximum, steps))
  {
    var fleet, _ := Projections(maximum, steps);
    FS.RunKeepsInv(fleet);
    FV.RunKeeps(fleet);
    if steps != [] {
      RunKeepsInv(maximum, steps[..|steps| - 1]);
      NextLinks(Run(maximum, steps[..|steps| - 1]), steps[|steps| - 1]);
    }
  }

  // ------------------------------------------------------------- main results

  /** verifiedStatus. */
  function VerifiedStatus(policy: string, valid: bool): string {
    if !valid || !F.ValidPolicyName(policy) then ""
    else if policy == F.INDEPENDENT then "independently_replicated" else "platform_verified"
  }

  /** Two stored valid results of different jobs stand behind a receipt's score. */
  ghost predicate ReplicatedScore(s: State, sub: F.SubId, p: F.Id, q: F.Id)
    requires HasRow(s.world.ledger, sub) && sub in s.fleet.subs && p in s.fleet.results && q in s.fleet.results
  {
    var first, second, u := s.fleet.results[p], s.fleet.results[q], s.fleet.subs[sub];
    var x, y := ParseTicks(first.run.scoreTicks), ParseTicks(second.run.scoreTicks);
    && p != q && first.jobId == p && second.jobId == q && first.run.outcome == "valid" && second.run.outcome == "valid"
    && x.Some? && y.Some?
    && RowAt(s.world.ledger, sub).verdict.score == LessFavourable(x.value, y.value,
                                                                  s.world.ledger.versions[sub.0].contract.direction)
    && (VerifiedStatus(F.JobPolicy(u.policy), true) == "independently_replicated" ==> first.group != second.group)
    && (F.JobPolicy(u.policy) == "independent" ==>
          first.group != second.group && VerifiedStatus(F.JobPolicy(u.policy), true) == "independently_replicated")
  }

  /** Every adjudicated valid score is backed by two stored valid results of different
      jobs, equals the less favourable of the two, and when it is marked
      independently replicated the two come from different host groups. */
  lemma AdjudicatedScoresAreReplicated(maximum: nat, steps: seq<Step>, sub: F.SubId) returns (p: F.Id, q: F.Id)
    requires var s := Run(maximum, steps);
             HasRow(s.world.ledger, sub) && RowAt(s.world.ledger, sub).status != L.Pending
             && RowAt(s.world.ledger, sub).verdict.valid
    ensures var s := Run(maximum, steps);
            sub in s.fleet.subs && p in s.fleet.results && q in s.fleet.results && ReplicatedScore(s, sub, p, q)
  {
    RunKeepsInv(maximum, steps);
    RunKeepsManifests(maximum, steps);
    var fleet, _ := Projections(maximum, steps);
    RowIsDecided(Run(maximum, steps), sub);
    p, q := FV.ValidVerdictsAreReplicated(fleet, sub);
    ScoreMatches(Run(maximum, steps), sub, p, q);
  }

  lemma RowIsDecided(s: State, sub: F.SubId)
    requires AllLinked(s.fleet, s.world.ledger) && HasRow(s.world.ledger, sub)
    requires RowAt(s.world.ledger, sub).status != L.Pending && RowAt(s.world.ledger, sub).verdict.valid
    ensures Linked(s.fleet, s.world.ledger, sub) && s.fleet.subs[sub].status == F.Validated
            && s.fleet.subs[sub].outcome == "valid"
  {
    assert Linked(s.fleet, s.world.ledger, sub);
  }

  lemma ScoreMatches(s: State, sub: F.SubId, p: F.Id, q: F.Id)
    requires Linked(s.fleet, s.world.ledger, sub) && s.fleet.subs[sub].status == F.Validated
             && RowAt(s.world.ledger, sub).verdict.valid
    requires ManifestOk(s.fleet.subs[sub].manifest, s.world.ledger.versions[sub.0].contract)
    requires p in s.fleet.results && q in s.fleet.results && FV.Replicated(s.fleet, sub, p, q)
    ensures ReplicatedScore(s, sub, p, q)
  {
  }

  lemma ClaimedRow(maximum: nat, steps: seq<Step>, m: L.Mid)
    requires m in Run(maximum, steps).world.ledger.claims
    ensures var l := Run(maximum, steps).world.ledger;
            var sub := l.claims[m];
            && HasRow(l, sub) && RowAt(l, sub).status == L.Finalized
            && L.Reaches(l.versions[sub.0].contract, RowAt(l, sub).verdict, m)
            && KnownDirection(l.versions[sub.0].contract.direction)
  {
    var _, worker := Projections(maximum, steps);
    var parts := W.LedgerRun(maximum, worker);
    LS.RunKeepsInv(maximum, parts);
    var l := Run(maximum, steps).world.ledger;
    assert LS.ClaimOk(l, m);
    assert LS.VersionOk(l.versions[l.claims[m].0]);
    assert LS.RowOk(l.versions[l.claims[m].0], l.claims[m].1);
  }
}

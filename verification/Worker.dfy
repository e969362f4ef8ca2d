/** The background worker (internal/platform/worker.go and enqueue in server.go):
    adjudication jobs are inserted once per submission, leased, retried and
    completed. No adjudicable receipt is ever left without an incomplete job, and a job
    is set aside for attention only after a failed call with eight or more attempts. */
module Worker {
  import opened Wrappers
  import opened Ledger
  import opened LedgerSafety
  import opened LedgerResults
  import opened LedgerFrontier

  const MAX_ATTEMPTS: nat := 8

  /** The adjudication job of a submission is named by its version and row. */
  type Name = (nat, nat)

  datatype JobStatus = Queued | Retry | Running | Complete | Attention

  datatype Job = Job(status: JobStatus, attempts: nat, token: Option<nat>)

  /** A worker between picking a job and recording how it went. */
  datatype Call = Call(job: Name, token: nat, attempts: nat, ran: Option<bool>)

  datatype World = World(ledger: State, jobs: map<Name, Job>, calls: seq<Call>, tokens: set<nat>)

  /** How a call's transaction ends: as adjudicate decides, broken off before its
      commit, or committed with the confirmation lost. */
  datatype Ending = Normal | BrokenOff | ConfirmationLost

  // --------------------------------------------------------------- transactions

  /** enqueue: insert once. */
  function Inserted(jobs: map<Name, Job>, name: Name): map<Name, Job> {
    if name in jobs then jobs else jobs[name := Job(Queued, 0, None)]
  }

  /** The first statement of workOne. A running job is picked again when its lease has
      expired; the lease token is new. */
  function Picked(w: World, name: Name, token: nat): World {
    if name !in w.jobs || token in w.tokens || w.jobs[name].status in {Complete, Attention} then w
    else
      var j := w.jobs[name];
      w.(jobs := w.jobs[name := Job(Running, j.attempts + 1, Some(token))],
         calls := w.calls + [Call(name, token, j.attempts + 1, None)], tokens := w.tokens + {token})
  }

  /** The call's own transaction: adjudicate the version of the job's submission. */
  function Performed(w: World, k: nat, e: Ending): World {
    if k >= |w.calls| || w.calls[k].ran.Some? then w
    else
      var v := w.calls[k].job.0;
      var ok := v < |w.ledger.versions| && Settle(w.ledger, v).Some?;
      w.(ledger := if e == BrokenOff then w.ledger else Adjudicate(w.ledger, v),
         calls := w.calls[k := w.calls[k].(ran := Some(ok && e == Normal))])
  }

  /** The last statement of workOne, effective only under the call's own token. */
  function Recorded(w: World, k: nat): World {
    if k >= |w.calls| || w.calls[k].ran.None? then w
    else
      var c := w.calls[k];
      if c.job !in w.jobs || w.jobs[c.job].token != Some(c.token) then w
      else
        var status := if c.ran.value then Complete else if c.attempts >= MAX_ATTEMPTS then Attention else Retry;
        w.(jobs := w.jobs[c.job := w.jobs[c.job].(status := status)])
  }

  /** The final part of runnerResult: the verdict and its job in one transaction. */
  function Report(w: World, v: nat, i: nat, verdict: Verdict, pause: bool): World {
    var l := Validate(w.ledger, v, i, verdict, pause);
    if v >= |w.ledger.versions| || i >= |w.ledger.versions[v].rows| || w.ledger.versions[v].rows[i].status != Pending
    then w
    else w.(ledger := l, jobs := Inserted(w.jobs, (v, i)))
  }

  datatype Step =
    | DoLedger(s: Ledger.Step)
    | DoReport(v: nat, i: nat, verdict: Verdict, pause: bool)
    | DoPick(name: Name, token: nat)
    | DoPerform(call: nat, ending: Ending)
    | DoRecord(call: nat)

  /** Every other transaction on the ledger: acceptance, publication, versions, editors. */
  predicate Outside(s: Ledger.Step) { !s.DoAdjudicate? && !s.DoValidate? }

  function Next(w: World, s: Step): World {
    match s
    case DoLedger(t) => if Outside(t) then w.(ledger := Ledger.Next(w.ledger, t)) else w
    case DoReport(v, i, verdict, pause) => Report(w, v, i, verdict, pause)
    case DoPick(name, token) => Picked(w, name, token)
    case DoPerform(call, ending) => Performed(w, call, ending)
    case DoRecord(call) => Recorded(w, call)
  }

  function Run(maximum: nat, steps: seq<Step>): World {
    if steps == [] then World(Start(maximum), map[], [], {})
    else Next(Run(maximum, steps[..|steps| - 1]), steps[|steps| - 1])
  }

  // ---------------------------------------------------------- no lost wakeup

  /** A call that went well and whose outcome the table would still accept. */
  predicate Effective(w: World, k: nat, name: Name) {
    k < |w.calls| && w.calls[k].job == name && w.calls[k].ran == Some(true) && name in w.jobs
    && w.jobs[name].token == Some(w.calls[k].token)
  }

  /** The job is not complete, and nothing that already ran can complete it. */
  ghost predicate Awake(w: World, name: Name) {
    name in w.jobs && w.jobs[name].status != Complete && forall k :: 0 <= k < |w.calls| ==> !Effective(w, k, name)
  }

  /** The receipt at a version's watermark, if decided, has such a job. */
  ghost predicate NoneLost(w: World, v: nat)
    requires v < |w.ledger.versions|
  {
    Ready(w.ledger.versions[v]) ==> Awake(w, (v, w.ledger.versions[v].watermark))
  }

  /** A job exists only for a decided submission. */
  predicate JobOk(w: World, name: Name) {
    name.0 < |w.ledger.versions| && name.1 < |w.ledger.versions[name.0].rows|
    && w.ledger.versions[name.0].rows[name.1].status != Pending
  }

  ghost predicate QueueOk(w: World) {
    && (forall name :: name in w.jobs ==>
        JobOk(w, name) && (w.jobs[name].token.Some? ==> w.jobs[name].token.value in w.tokens))
    && (forall k :: 0 <= k < |w.calls| ==> w.calls[k].job in w.jobs && w.calls[k].token in w.tokens)
    && (forall v :: 0 <= v < |w.ledger.versions| ==> NoneLost(w, v))
  }

  /** A ledger step that decides nothing new and keeps what was decided. */
  ghost predicate Neutral(l: State, t: State) {
    && |l.versions| <= |t.versions|
    && (forall v :: 0 <= v < |l.versions| ==>
          |l.versions[v].rows| <= |t.versions[v].rows| && t.versions[v].watermark == l.versions[v].watermark
          && forall i :: 0 <= i < |l.versions[v].rows| ==> t.versions[v].rows[i].status == l.versions[v].rows[i].status)
    && (forall v :: 0 <= v < |t.versions| && Ready(t.versions[v]) ==> v < |l.versions| && Ready(l.versions[v]))
  }

  lemma NeutralKeepsQueue(w: World, t: State)
    requires QueueOk(w) && Neutral(w.ledger, t)
    ensures QueueOk(w.(ledger := t))
  {
    var n := w.(ledger := t);
    forall name | name in n.jobs
      ensures JobOk(n, name)
    {
      assert JobOk(w, name);
    }
    forall v | 0 <= v < |t.versions|
      ensures NoneLost(n, v)
    {
      if Ready(t.versions[v]) {
        assert NoneLost(w, v);
        AwakeFrame(w, n, (v, t.versions[v].watermark));
      }
    }
  }

  lemma AwakeFrame(w: World, n: World, name: Name)
    requires Awake(w, name) && n.jobs == w.jobs && n.calls == w.calls
    ensures Awake(n, name)
  {
    forall k | 0 <= k < |n.calls|
      ensures !Effective(n, k, name)
    {
      assert !Effective(w, k, name);
    }
  }

  lemma RowsNeutral(l: State, s: Ledger.Step)
    requires s.DoAccept? || s.DoPublicize? || s.DoIncident?
    ensures Neutral(l, Ledger.Next(l, s))
  {
    match s
    case DoAccept(v, publish) => AcceptNeutral(l, v, publish);
    case DoPublicize(v, i) => PublicizeNeutral(l, v, i);
    case DoIncident(v, i) => IncidentNeutral(l, v, i);
  }

  lemma AcceptNeutral(l: State, v: nat, publish: bool)
    ensures Neutral(l, Accept(l, v, publish))
  {
  }

  lemma PublicizeNeutral(l: State, v: nat, i: nat)
    ensures Neutral(l, Publicize(l, v, i))
  {
  }

  lemma IncidentNeutral(l: State, v: nat, i: nat)
    ensures Neutral(l, Incident(l, v, i))
  {
  }

  lemma LifeNeutral(l: State, s: Ledger.Step)
    requires s.DoChallenge? || s.DoVersion? || s.DoPublish? || s.DoComplete? || s.DoAct?
    ensures Neutral(l, Ledger.Next(l, s))
  {
    var t := Ledger.Next(l, s);
    LifeAddsEmpty(l, s);
    forall v | 0 <= v < |l.versions|
      ensures t.versions[v].rows == l.versions[v].rows && t.versions[v].watermark == l.versions[v].watermark
    {
      LifeLeavesFrontier(l, s, v);
      LifeLeavesWatermark(l, s, v);
    }
  }

  lemma LifeAddsEmpty(l: State, s: Ledger.Step)
    requires s.DoChallenge? || s.DoVersion? || s.DoPublish? || s.DoComplete? || s.DoAct?
    ensures |l.versions| <= |Ledger.Next(l, s).versions|
    ensures forall v :: |l.versions| <= v < |Ledger.Next(l, s).versions| ==> Ledger.Next(l, s).versions[v].rows == []
  {
  }

  lemma ReportKeepsQueue(w: World, v: nat, i: nat, verdict: Verdict, pause: bool)
    requires QueueOk(w)
    ensures QueueOk(Report(w, v, i, verdict, pause))
  {
    var n := Report(w, v, i, verdict, pause);
    if n != w {
      assert (v, i) in w.jobs ==> JobOk(w, (v, i));
      forall name | name in n.jobs
        ensures JobOk(n, name)
      {
        if name != (v, i) {
          assert JobOk(w, name);
        }
      }
      forall u | 0 <= u < |n.ledger.versions|
        ensures NoneLost(n, u)
      {
        assert NoneLost(w, u);
        if Ready(n.ledger.versions[u]) {
          AwakeAfterReport(w, n, (v, i), (u, n.ledger.versions[u].watermark));
        }
      }
    }
  }

  lemma AwakeAfterReport(w: World, n: World, added: Name, name: Name)
    requires added !in w.jobs && n.jobs == w.jobs[added := Job(Queued, 0, None)] && n.calls == w.calls
    requires name != added ==> Awake(w, name)
    ensures Awake(n, name)
  {
    forall k | 0 <= k < |n.calls|
      ensures !Effective(n, k, name)
    {
      assert name != added ==> !Effective(w, k, name);
    }
  }

  lemma PickKeepsQueue(w: World, name: Name, token: nat)
    requires QueueOk(w)
    ensures QueueOk(Picked(w, name, token))
  {
    var n := Picked(w, name, token);
    if n != w {
      forall m | m in n.jobs
        ensures JobOk(n, m)
      {
        assert JobOk(w, m);
      }
      forall v | 0 <= v < |n.ledger.versions|
        ensures NoneLost(n, v)
      {
        assert NoneLost(w, v);
        if Ready(n.ledger.versions[v]) {
          AwakeAfterPick(w, name, token, (v, n.ledger.versions[v].watermark));
        }
      }
    }
  }

  lemma AwakeAfterPick(w: World, name: Name, token: nat, m: Name)
    requires QueueOk(w) && Picked(w, name, token) != w && Awake(w, m)
    ensures Awake(Picked(w, name, token), m)
  {
    var n := Picked(w, name, token);
    forall k | 0 <= k < |n.calls|
      ensures !Effective(n, k, m)
    {
      if k < |w.calls| {
        assert !Effective(w, k, m) && w.calls[k].token in w.tokens;
      }
    }
  }

  /** After adjudication the receipt at the watermark is undecided. */
  lemma {:induction false} SettledNotReady(l: State, v: nat)
    requires v < |l.versions| && Settle(l, v).Some?
    ensures var t := Settle(l, v).value;
            && |t.versions| == |l.versions| && !Ready(t.versions[v])
            && (forall u :: 0 <= u < |l.versions| && u != v ==> t.versions[u] == l.versions[u])
            && |t.versions[v].rows| == |l.versions[v].rows|
            && forall i :: 0 <= i < |l.versions[v].rows| && l.versions[v].rows[i].status != Pending ==>
                 t.versions[v].rows[i].status != Pending
    decreases if l.versions[v].watermark < |l.versions[v].rows| then |l.versions[v].rows| - l.versions[v].watermark
              else 0
  {
    if Ready(l.versions[v]) {
      SettledNotReady(Finalize(l, v), v);
    }
  }

  lemma PerformKeepsQueue(w: World, k: nat, e: Ending)
    requires QueueOk(w)
    ensures QueueOk(Performed(w, k, e))
  {
    var n := Performed(w, k, e);
    if k < |w.calls| && w.calls[k].ran.None? {
      var v := w.calls[k].job.0;
      if v < |w.ledger.versions| && Settle(w.ledger, v).Some? {
        SettledNotReady(w.ledger, v);
      }
      forall name | name in n.jobs
        ensures JobOk(n, name)
      {
        assert JobOk(w, name);
      }
      forall u | 0 <= u < |n.ledger.versions|
        ensures NoneLost(n, u)
      {
        if Ready(n.ledger.versions[u]) {
          assert NoneLost(w, u);
          AwakeAfterPerform(w, n, k, (u, n.ledger.versions[u].watermark));
        }
      }
    }
  }

  /** A call that went well belongs to a version whose next receipt is undecided. */
  lemma AwakeAfterPerform(w: World, n: World, k: nat, name: Name)
    requires Awake(w, name) && k < |w.calls| == |n.calls| && n.jobs == w.jobs
             && n.calls == w.calls[k := w.calls[k].(ran := n.calls[k].ran)]
    requires w.calls[k].job == name ==> n.calls[k].ran != Some(true)
    ensures Awake(n, name)
  {
    forall j | 0 <= j < |n.calls|
      ensures !Effective(n, j, name)
    {
      assert !Effective(w, j, name);
    }
  }

  lemma RecordKeepsQueue(w: World, k: nat)
    requires QueueOk(w)
    ensures QueueOk(Recorded(w, k))
  {
    var n := Recorded(w, k);
    if n != w {
      forall m | m in n.jobs
        ensures JobOk(n, m)
      {
        assert JobOk(w, m);
      }
      forall v | 0 <= v < |n.ledger.versions|
        ensures NoneLost(n, v)
      {
        assert NoneLost(w, v);
        if Ready(n.ledger.versions[v]) {
          AwakeAfterRecord(w, k, (v, n.ledger.versions[v].watermark));
        }
      }
    }
  }

  lemma AwakeAfterRecord(w: World, k: nat, name: Name)
    requires Awake(w, name)
    ensures Awake(Recorded(w, k), name)
  {
    var n := Recorded(w, k);
    if k < |w.calls| {
      assert !Effective(w, k, name);
    }
    forall j | 0 <= j < |n.calls|
      ensures !Effective(n, j, name)
    {
      assert !Effective(w, j, name);
    }
  }

  lemma NextKeepsQueue(w: World, s: Step)
    requires QueueOk(w)
    ensures QueueOk(Next(w, s))
  {
    match s
    case DoLedger(t) =>
      if Outside(t) {
        if t.DoAccept? || t.DoPublicize? || t.DoIncident? { RowsNeutral(w.ledger, t); }
        else { LifeNeutral(w.ledger, t); }
        NeutralKeepsQueue(w, Ledger.Next(w.ledger, t));
      }
    case DoReport(v, i, verdict, pause) => ReportKeepsQueue(w, v, i, verdict, pause);
    case DoPick(name, token) => PickKeepsQueue(w, name, token);
    case DoPerform(call, ending) => PerformKeepsQueue(w, call, ending);
    case DoRecord(call) => RecordKeepsQueue(w, call);
  }

  /** What a step does to the ledger is a ledger transaction, or nothing. */
  function LedgerPart(w: World, s: Step): seq<Ledger.Step> {
    match s
    case DoLedger(t) => if Outside(t) then [t] else []
    case DoReport(v, i, verdict, pause) => [DoValidate(v, i, verdict, pause)]
    case DoPerform(k, e) => if k >= |w.calls| || w.calls[k].ran.Some? || e == BrokenOff then []
                            else [DoAdjudicate(w.calls[k].job.0)]
    case _ => []
  }

  lemma LedgerMoves(w: World, s: Step)
    ensures var part := LedgerPart(w, s);
            |part| <= 1 && Next(w, s).ledger == if part == [] then w.ledger else Ledger.Next(w.ledger, part[0])
  {
  }

  /** Every run of the workers is, on the ledger, a run of the ledger; so all results
      about ledger runs hold of it. */
  lemma {:induction false} LedgerRun(maximum: nat, steps: seq<Step>) returns (parts: seq<Ledger.Step>)
    ensures Run(maximum, steps).ledger == Ledger.Run(maximum, parts)
  {
    parts := [];
    if steps != [] {
      var shorter, last := steps[..|steps| - 1], steps[|steps| - 1];
      var before := LedgerRun(maximum, shorter);
      var part := LedgerPart(Run(maximum, shorter), last);
      LedgerMoves(Run(maximum, shorter), last);
      parts := before + part;
      if part == [] {
        assert parts == before;
      } else {
        assert parts[..|parts| - 1] == before && parts[|parts| - 1] == part[0];
      }
    }
  }

  lemma {:induction false} RunKeepsQueue(maximum: nat, steps: seq<Step>)
    ensures QueueOk(Run(maximum, steps))
  {
    if steps != [] {
      RunKeepsQueue(maximum, steps[..|steps| - 1]);
      NextKeepsQueue(Run(maximum, steps[..|steps| - 1]), steps[|steps| - 1]);
    }
  }

  /** No lost wakeup: whenever the receipt after the watermark is decided, its own
      adjudication job exists and is not complete. */
  lemma NoLostWakeup(maximum: nat, steps: seq<Step>, v: nat)
    requires v < |Run(maximum, steps).ledger.versions| && Ready(Run(maximum, steps).ledger.versions[v])
    ensures var w := Run(maximum, steps);
            var name := (v, w.ledger.versions[v].watermark);
            name in w.jobs && w.jobs[name].status != Complete
  {
    RunKeepsQueue(maximum, steps);
    assert NoneLost(Run(maximum, steps), v);
  }

  /** The number of receipts decided without a gap. */
  function DecidedPrefix(rows: seq<Row>): (n: nat)
    ensures n <= |rows| && (forall i :: 0 <= i < n ==> rows[i].status != Pending)
            && (n < |rows| ==> rows[n].status == Pending)
  {
    if rows == [] || rows[0].status == Pending then 0
    else
      var n := DecidedPrefix(rows[1..]);
      assert forall i :: 0 < i <= n ==> rows[i] == rows[1..][i - 1];
      n + 1
  }

  /** When all jobs are complete every version stands exactly where its decided
      receipts put it: the watermark is the decided prefix, and the best is the fold
      over it. So the final standing depends on the receipts alone. */
  lemma QuiescentStanding(maximum: nat, steps: seq<Step>, v: nat)
    requires var w := Run(maximum, steps); v < |w.ledger.versions| && forall name :: name in w.jobs ==>
               w.jobs[name].status == Complete
    ensures var version := Run(maximum, steps).ledger.versions[v];
            && version.watermark == DecidedPrefix(version.rows)
            && version.best == FoldBest(version.contract, version.rows, DecidedPrefix(version.rows))
  {
    RunKeepsQueue(maximum, steps);
    var parts := LedgerRun(maximum, steps);
    LedgerSafety.RunKeepsInv(maximum, parts);
    var w := Run(maximum, steps);
    var version := w.ledger.versions[v];
    assert NoneLost(w, v);
    assert !Ready(version);
    assert VersionOk(version);
    PrefixIsWatermark(version);
  }

  lemma PrefixIsWatermark(version: Version)
    requires VersionOk(version) && !Ready(version)
    ensures version.watermark == DecidedPrefix(version.rows)
  {
    var n := DecidedPrefix(version.rows);
    assert n < |version.rows| ==> RowOk(version, n);
    assert version.watermark < |version.rows| ==> RowOk(version, version.watermark);
  }

  // ------------------------------------------------------------ a whole call

  predicate Pickable(w: World, name: Name) { name in w.jobs && w.jobs[name].status !in {Complete, Attention} }

  /** workOne on one job without interruption by other workers. */
  function Worked(w: World, name: Name, token: nat, e: Ending): World {
    if !Pickable(w, name) || token in w.tokens then w
    else Recorded(Performed(Picked(w, name, token), |w.calls|, e), |w.calls|)
  }

  lemma WorkedKeepsQueue(w: World, name: Name, token: nat, e: Ending)
    requires QueueOk(w)
    ensures QueueOk(Worked(w, name, token, e))
  {
    PickKeepsQueue(w, name, token);
    PerformKeepsQueue(Picked(w, name, token), |w.calls|, e);
    RecordKeepsQueue(Performed(Picked(w, name, token), |w.calls|, e), |w.calls|);
  }

  lemma WorkedLedger(w: World, name: Name, token: nat, e: Ending)
    ensures Worked(w, name, token, e).ledger == w.ledger
            || Worked(w, name, token, e).ledger == Ledger.Next(w.ledger, DoAdjudicate(name.0))
  {
    if Pickable(w, name) && token !in w.tokens {
      WorkedOutcome(w, name, token, e);
    }
  }

  /** A call that ends normally on usable evidence completes its job and leaves no decided
      receipt at its version's watermark; any other call leaves the job to be retried, or
      for attention after eight attempts. */
  lemma WorkedOutcome(w: World, name: Name, token: nat, e: Ending)
    requires Pickable(w, name) && token !in w.tokens
    ensures var t, v := Worked(w, name, token, e), name.0;
            && name in t.jobs && t.jobs[name].attempts == w.jobs[name].attempts + 1
            && t.ledger == (if e == BrokenOff then w.ledger else Adjudicate(w.ledger, v))
            && if e == Normal && v < |w.ledger.versions| && Settle(w.ledger, v).Some?
               then t.jobs[name].status == Complete && v < |t.ledger.versions| && !Ready(t.ledger.versions[v])
               else t.jobs[name].status == if t.jobs[name].attempts >= 8 then Attention else Retry
  {
    var v := name.0;
    if v < |w.ledger.versions| && Settle(w.ledger, v).Some? {
      SettledNotReady(w.ledger, v);
    }
    var picked := Picked(w, name, token);
    assert picked.calls[|w.calls|] == Call(name, token, w.jobs[name].attempts + 1, None);
  }

  // ------------------------------------------------------- jobs set aside

  /** A call of the job that failed with all attempts used up. */
  predicate FailedCall(w: World, k: nat, name: Name) {
    k < |w.calls| && w.calls[k].job == name && w.calls[k].ran == Some(false) && w.calls[k].attempts >= 8
  }

  ghost predicate AttentionOk(w: World, name: Name) {
    name in w.jobs && w.jobs[name].status == Attention ==> exists k: nat :: FailedCall(w, k, name)
  }

  /** Finished calls keep their outcome. */
  ghost predicate CallsKept(w: World, t: World) {
    |w.calls| <= |t.calls| && forall k :: 0 <= k < |w.calls| && w.calls[k].ran.Some? ==> t.calls[k] == w.calls[k]
  }

  lemma AttentionKept(w: World, t: World, name: Name)
    requires AttentionOk(w, name) && CallsKept(w, t)
    requires name in t.jobs && t.jobs[name].status == Attention ==> name in w.jobs && w.jobs[name].status == Attention
    ensures AttentionOk(t, name)
  {
    if name in t.jobs && t.jobs[name].status == Attention {
      var k: nat :| FailedCall(w, k, name);
      assert FailedCall(t, k, name);
    }
  }

  lemma RecordKeepsAttention(w: World, k: nat, name: Name)
    requires AttentionOk(w, name)
    ensures AttentionOk(Recorded(w, k), name)
  {
    var t := Recorded(w, k);
    if t != w && w.calls[k].job == name && t.jobs[name].status == Attention {
      assert FailedCall(t, k, name);
    } else {
      AttentionKept(w, t, name);
    }
  }

  lemma NextKeepsAttention(w: World, s: Step, name: Name)
    requires AttentionOk(w, name)
    ensures AttentionOk(Next(w, s), name)
  {
    if s.DoRecord? {
      RecordKeepsAttention(w, s.call, name);
    } else {
      AttentionKept(w, Next(w, s), name);
    }
  }

  /** In every run a job is set aside for attention only after one of its calls failed
      with eight or more attempts. */
  lemma {:induction false} AttentionNeedsFailure(maximum: nat, steps: seq<Step>, name: Name)
    ensures AttentionOk(Run(maximum, steps), name)
  {
    if steps != [] {
      AttentionNeedsFailure(maximum, steps[..|steps| - 1], name);
      NextKeepsAttention(Run(maximum, steps[..|steps| - 1]), steps[|steps| - 1], name);
    }
  }

  /** The calls of the job under its present token failed with all attempts used up. */
  predicate GivenUp(w: World, name: Name) {
    name in w.jobs && w.jobs[name].status == Attention
    && forall k :: 0 <= k < |w.calls| && w.calls[k].job == name && w.jobs[name].token == Some(w.calls[k].token) ==>
         w.calls[k].ran == Some(false) && w.calls[k].attempts >= MAX_ATTEMPTS
  }

  /** No two calls share a token. */
  predicate TokensDiffer(w: World) {
    && (forall k :: 0 <= k < |w.calls| ==> w.calls[k].token in w.tokens)
    && forall j, k :: 0 <= j < k < |w.calls| ==> w.calls[j].token != w.calls[k].token
  }

  lemma NextGivesUp(w: World, s: Step, name: Name)
    requires TokensDiffer(w) && (name in w.jobs && w.jobs[name].status == Attention ==> GivenUp(w, name))
    ensures TokensDiffer(Next(w, s))
    ensures GivenUp(w, name) ==> GivenUp(Next(w, s), name)
    ensures var t := Next(w, s); name in t.jobs && t.jobs[name].status == Attention ==> GivenUp(t, name)
  {
  }

  lemma {:induction false} AttentionIsGivenUp(maximum: nat, steps: seq<Step>, name: Name)
    ensures var w := Run(maximum, steps);
            TokensDiffer(w) && (name in w.jobs && w.jobs[name].status == Attention ==> GivenUp(w, name))
  {
    if steps != [] {
      AttentionIsGivenUp(maximum, steps[..|steps| - 1], name);
      NextGivesUp(Run(maximum, steps[..|steps| - 1]), steps[|steps| - 1], name);
    }
  }

  /** In every run a job that was set aside stays so, whatever is reported, picked,
      performed and recorded later. */
  lemma {:induction false} SetAsideForGood(maximum: nat, steps: seq<Step>, n: nat, name: Name)
    requires n <= |steps| && name in Run(maximum, steps[..n]).jobs
    requires Run(maximum, steps[..n]).jobs[name].status == Attention
    ensures name in Run(maximum, steps).jobs && Run(maximum, steps).jobs[name].status == Attention
  {
    if n == |steps| {
      assert steps[..n] == steps;
    } else {
      var shorter, last := steps[..|steps| - 1], steps[|steps| - 1];
      assert shorter[..n] == steps[..n];
      SetAsideForGood(maximum, shorter, n, name);
      AttentionIsGivenUp(maximum, shorter, name);
      NextGivesUp(Run(maximum, shorter), last, name);
    }
  }

  /** The condition is needed: from any state calls that are broken off use the attempts
      up, and then the job is set aside while the ledger, and so a decided receipt, is as
      before. */
  lemma BrokenCallsStrand(w: World, name: Name) returns (steps: seq<Step>)
    requires Pickable(w, name)
    ensures var t := Continue(w, steps); t.ledger == w.ledger && name in t.jobs && t.jobs[name].status == Attention
  {
    steps := BreakOff(w, name, MAX_ATTEMPTS);
  }

  lemma {:induction false} BreakOff(w: World, name: Name, left: nat) returns (steps: seq<Step>)
    requires Pickable(w, name) && w.jobs[name].attempts + left >= MAX_ATTEMPTS && left > 0
    ensures var t := Continue(w, steps); t.ledger == w.ledger && name in t.jobs && t.jobs[name].status == Attention
    decreases left
  {
    var token := FreshToken(w.tokens);
    WorkedOutcome(w, name, token, BrokenOff);
    ThreeSteps(w, name, token, BrokenOff);
    var once := Worked(w, name, token, BrokenOff);
    steps := [DoPick(name, token), DoPerform(|w.calls|, BrokenOff), DoRecord(|w.calls|)];
    if once.jobs[name].status != Attention {
      var rest := BreakOff(once, name, left - 1);
      ContinueConcat(w, steps, rest);
      steps := steps + rest;
    }
  }

  function Continue(w: World, steps: seq<Step>): World
    decreases |steps|
  {
    if steps == [] then w else Continue(Next(w, steps[0]), steps[1..])
  }

  lemma {:induction false} ContinueConcat(w: World, a: seq<Step>, b: seq<Step>)
    ensures Continue(w, a + b) == Continue(Continue(w, a), b)
    decreases |a|
  {
    if a == [] {
      assert a + b == b;
    } else {
      assert (a + b)[1..] == a[1..] + b;
      ContinueConcat(Next(w, a[0]), a[1..], b);
    }
  }

  lemma ThreeSteps(w: World, name: Name, token: nat, e: Ending)
    requires Pickable(w, name) && token !in w.tokens
    ensures Continue(w, [DoPick(name, token), DoPerform(|w.calls|, e), DoRecord(|w.calls|)])
               == Worked(w, name, token, e)
  {
    var steps := [DoPick(name, token), DoPerform(|w.calls|, e), DoRecord(|w.calls|)];
    var picked := Picked(w, name, token);
    var performed := Performed(picked, |w.calls|, e);
    assert steps[1..][1..][1..] == [];
    assert Continue(performed, steps[1..][1..]) == Recorded(performed, |w.calls|);
    assert Continue(picked, steps[1..]) == Recorded(performed, |w.calls|);
  }

  /** A token that was not used yet. */
  ghost function FreshToken(tokens: set<nat>): (t: nat)
    ensures t !in tokens
  {
    NotAllNumbers(tokens);
    var t: nat :| t !in tokens; t
  }

  lemma {:induction false} BoundedAbove(tokens: set<nat>) returns (bound: nat)
    ensures forall t :: t in tokens ==> t < bound
  {
    if tokens == {} {
      bound := 0;
    } else {
      var x := Pick(tokens);
      var b := BoundedAbove(tokens - {x});
      bound := if x < b then b else x + 1;
      assert tokens == tokens - {x} + {x};
    }
  }

  lemma NotAllNumbers(tokens: set<nat>)
    ensures exists t: nat :: t !in tokens
  {
    var bound := BoundedAbove(tokens);
    assert bound !in tokens;
  }
}

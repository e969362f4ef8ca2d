/** What an unlocked version can still do after it was superseded, and the exact
    conditions under which it cannot. */
module LedgerReturns {
  import opened Wrappers
  import opened Scores
  import opened Ledger
  import opened LedgerSafety
  import opened LedgerResults
  import opened LedgerFrontier
  import opened LedgerVersions
  import opened LedgerLineage

  // ---------------------------------------------------------- opening a migration

  predicate AnyClaimed(l: State, v: nat)
    requires v < |l.versions|
  {
    exists m :: m in l.versions[v].contract.milestones && m in l.claims
  }

  /** A security migration's source: the predecessor has no receipt left to decide and
      its frontier is the one that was checked. */
  predicate SourceReady(l: State, v: nat)
    requires v < |l.versions|
  {
    var p := l.versions[v].predecessor;
    p.Some? && p.value < v && Drained(l.versions[p.value])
    && l.versions[p.value].frontier == l.versions[v].priorFrontier
  }

  /** What has to hold of an unlocked version to be opened, besides the lock. */
  predicate Openable(l: State, v: nat)
    requires v < |l.versions|
  {
    l.versions[v].kind == Season || (SourceReady(l, v) && !AnyClaimed(l, v))
  }

  /** A milestone of a security version is its own or its predecessor holds it. */
  lemma MappedFromPredecessor(l: State, v: nat, m: Mid)
    requires Lineage(l) && v < |l.versions| && l.versions[v].kind == Security && m in l.versions[v].contract.milestones
    ensures l.versions[v].predecessor.Some? && l.versions[v].predecessor.value < v
    ensures m in l.tiers && (l.tiers[m] == v || m in l.versions[l.versions[v].predecessor.value].live)
  {
    assert PredecessorOk(l, v);
    if Holds(l, v, m) {
      assert HolderOk(l, v, m);
    } else {
      assert Awaits(l, v, m) && AwaitOk(l, v, m);
      assert HolderOk(l, l.versions[v].predecessor.value, m);
    }
  }

  /** All other versions are closed and v is locked: stage and complete its migration. */
  lemma StageAndComplete(l: State, v: nat)
    requires v < |l.versions| && l.versions[v].status == Locked && l.versions[v].kind == Security && SourceReady(l, v)
             && !AnyClaimed(l, v)
    requires forall w :: 0 <= w < |l.versions| && w != v ==> l.versions[w].intake == Closed
    requires forall m :: m in l.versions[v].contract.milestones ==>
               m in l.tiers && (l.tiers[m] == v || m in l.versions[l.versions[v].predecessor.value].live)
    ensures var t := CompleteMigration(Publish(l, v), v);
            && |t.versions| == |l.versions| && t == l.(versions := t.versions)
            && t.versions[v].status == Published && t.versions[v].intake == Open
            && t.versions[v].locked == l.versions[v].locked
            && t.versions[v].rows == l.versions[v].rows && t.versions[v].watermark == l.versions[v].watermark
            && t.versions[v].contract == l.versions[v].contract && l.versions[v].live <= t.versions[v].live
            && t.versions[v].live <= l.versions[v].live + l.versions[v].contract.milestones.Keys
  {
    assert SourceStill(l, v);
    var p := l.versions[v].predecessor.value;
    var s := Publish(l, v);
    assert s.versions[v].status == Signing && s.versions[v].staged
      == Some((l.versions[p].watermark, l.versions[p].frontier));
    assert SourceStill(s, v);
    assert OnlyOpen(Put(s, p, Supersede(s.versions[p])), v);
  }

  /** The version after it was opened: same receipts, contract and milestones at least. */
  ghost predicate OpenedFrom(l: State, t: State, v: nat) {
    && v < |l.versions| == |t.versions| && t == l.(versions := t.versions)
    && t.versions[v].status == Published && t.versions[v].intake == Open && t.versions[v].locked
    && t.versions[v].rows == l.versions[v].rows && t.versions[v].watermark == l.versions[v].watermark
    && t.versions[v].contract == l.versions[v].contract && l.versions[v].live <= t.versions[v].live
    && t.versions[v].live <= l.versions[v].live + l.versions[v].contract.milestones.Keys
  }

  /** Every unlocked version that meets its opening condition can be opened: editors stop
      the others and ask for changes, a new preflight passes, and it is locked and published. */
  lemma OpenAgain(l: State, v: nat) returns (more: seq<Step>)
    requires Lineage(l) && v < |l.versions| && !l.versions[v].locked && Openable(l, v)
    ensures OpenedFrom(l, Continue(l, more), v)
  {
    if l.versions[v].kind == Season {
      more := Reopen(l, v);
    } else {
      var stopped := StopOthers(v, |l.versions|);
      OthersStopped(l, v, |l.versions|);
      var locked := Relock(l, stopped, v);
      more := locked + [DoPublish(v)];
      ContinueAppend(l, locked, DoPublish(v));
      ContinueAppend(l, more, DoComplete(v));
      more := more + [DoComplete(v)];
      LockedIsReady(l, Continue(l, stopped), v);
      StageAndComplete(Continue(l, locked), v);
    }
  }

  lemma LockedIsReady(l: State, s: State, v: nat)
    requires Lineage(l) && OthersClosed(l, s, v, |l.versions|) && l.versions[v].kind == Security && SourceReady(l, v)
             && !AnyClaimed(l, v)
    ensures var t := Put(s, v, s.versions[v].(status := Locked, locked := true));
            && SourceReady(t, v) && !AnyClaimed(t, v)
            && forall m :: m in t.versions[v].contract.milestones ==>
                 m in t.tiers && (t.tiers[m] == v || m in t.versions[t.versions[v].predecessor.value].live)
  {
    var p := l.versions[v].predecessor.value;
    assert SameStanding(l.versions[p], s.versions[p]);
    forall m | m in l.versions[v].contract.milestones
      ensures m in l.tiers && (l.tiers[m] == v || m in l.versions[p].live)
    {
      MappedFromPredecessor(l, v, m);
    }
  }

  // ------------------------------------------------- the frontier a migration checked

  function PriorValue(l: State, v: nat): int
    requires v < |l.versions| && l.versions[v].predecessor.Some? && l.versions[v].predecessor.value < |l.versions|
  {
    var p := l.versions[l.versions[v].predecessor.value];
    ValueOf(p.contract, p.rows, l.versions[v].priorFrontier)
  }

  /** The predecessor's frontier has moved on since the version was created. */
  predicate MovedOn(l: State, v: nat)
    requires v < |l.versions|
  {
    var p := l.versions[v].predecessor;
    p.Some? && p.value < |l.versions| && PriorOk(l.versions[p.value], l.versions[v].priorFrontier)
    && Better(FrontierValue(l.versions[p.value]), PriorValue(l, v), l.versions[p.value].contract.direction)
  }

  predicate PriorOk(p: Version, prior: Option<nat>) {
    prior.Some? ==> prior.value < p.watermark && prior.value < |p.rows|
  }

  /** The checked frontier is the current one, or strictly behind it. */
  predicate SinceOk(l: State, v: nat)
    requires v < |l.versions|
  {
    var p := l.versions[v].predecessor;
    p.Some? ==>
      p.value < |l.versions| && PriorOk(l.versions[p.value], l.versions[v].priorFrontier)
      && (l.versions[p.value].frontier == l.versions[v].priorFrontier || MovedOn(l, v))
  }

  ghost predicate FrontierSince(l: State) { forall v :: 0 <= v < |l.versions| ==> SinceOk(l, v) }

  lemma PriorValueKept(l: State, t: State, v: nat)
    requires v < |l.versions| && AllPersist(l, t) && l.versions[v].predecessor.Some?
             && l.versions[v].predecessor.value < |l.versions|
    requires PriorOk(l.versions[l.versions[v].predecessor.value], l.versions[v].priorFrontier)
    ensures t.versions[v].predecessor == l.versions[v].predecessor
            && t.versions[v].priorFrontier == l.versions[v].priorFrontier
    ensures PriorOk(t.versions[l.versions[v].predecessor.value], t.versions[v].priorFrontier)
            && PriorValue(t, v) == PriorValue(l, v)
  {
    var p := l.versions[v].predecessor.value;
    assert Persists(l.versions[v], t.versions[v]) && Persists(l.versions[p], t.versions[p]);
  }

  /** One step on a version that is already there. */
  lemma SinceKept(l: State, t: State, v: nat)
    requires v < |l.versions| && SinceOk(l, v) && AllPersist(l, t)
    requires var p := l.versions[v].predecessor; p.Some? ==>
               Advances(l.versions[p.value], t.versions[p.value]) && ValidContract(l.versions[p.value].contract)
    ensures SinceOk(t, v) && (MovedOn(l, v) ==> MovedOn(t, v))
  {
    assert Persists(l.versions[v], t.versions[v]);
    if l.versions[v].predecessor.Some? {
      PriorValueKept(l, t, v);
    }
  }

  lemma StepKeepsSince(l: State, s: Step, v: nat)
    requires Inv(l) && v < |l.versions| && SinceOk(l, v)
    ensures v < |Next(l, s).versions| && SinceOk(Next(l, s), v) && (MovedOn(l, v) ==> MovedOn(Next(l, s), v))
  {
    NextPersists(l, s);
    if l.versions[v].predecessor.Some? {
      var p := l.versions[v].predecessor.value;
      assert VersionOk(l.versions[p]);
      StepAdvances(l, s, p);
    }
    SinceKept(l, Next(l, s), v);
  }

  /** A new version records the predecessor's frontier as it is. */
  lemma NewSince(l: State, s: Step, v: nat)
    requires VersionsOk(l) && |l.versions| <= v < |Next(l, s).versions|
    ensures SinceOk(Next(l, s), v)
  {
    if s.DoVersion? {
      assert VersionOk(l.versions[s.prior]);
    } else if s.DoAdjudicate? && s.v < |l.versions| && Settle(l, s.v).Some? {
      SettleLength(l, s.v);
    }
  }

  lemma {:induction false} RunKeepsSince(maximum: nat, steps: seq<Step>)
    ensures FrontierSince(Run(maximum, steps))
  {
    if steps != [] {
      var shorter, last := steps[..|steps| - 1], steps[|steps| - 1];
      RunKeepsInv(maximum, shorter);
      RunKeepsSince(maximum, shorter);
      forall v | 0 <= v < |Run(maximum, steps).versions|
        ensures SinceOk(Run(maximum, steps), v)
      {
        if v < |Run(maximum, shorter).versions| {
          StepKeepsSince(Run(maximum, shorter), last, v);
        } else {
          NewSince(Run(maximum, shorter), last, v);
        }
      }
    }
  }

  // --------------------------------------------------------- draining a predecessor

  /** No valid verdict is waiting: every undecided receipt is pending or was refused. */
  predicate Drainable(p: Version) {
    forall i :: p.watermark <= i < |p.rows| ==> p.rows[i].status == Pending || !p.rows[i].verdict.valid
  }

  /** Only receipts of p were decided, and none of them changed anything else. */
  ghost predicate OnlyDrained(l: State, t: State, p: nat) {
    && p < |l.versions| == |t.versions| && t == l.(versions := t.versions, reserved := t.reserved)
    && (forall w :: 0 <= w < |l.versions| && w != p ==> t.versions[w] == l.versions[w])
    && t.versions[p] == l.versions[p].(rows := t.versions[p].rows, watermark := t.versions[p].watermark)
  }

  predicate Refused(p: Version, from: nat, to: nat) {
    forall i :: from <= i < to && i < |p.rows| ==> p.rows[i].status == Validated && !p.rows[i].verdict.valid
  }

  /** Runners refuse the pending receipts from the watermark up to n. */
  lemma {:induction false} RefusePending(l: State, p: nat, n: nat) returns (steps: seq<Step>)
    requires p < |l.versions| && VersionOk(l.versions[p]) && Drainable(l.versions[p])
    requires l.versions[p].watermark <= n <= |l.versions[p].rows|
    ensures var t := Continue(l, steps);
            && OnlyDrained(l, t, p) && t.versions[p].watermark == l.versions[p].watermark
            && |t.versions[p].rows| == |l.versions[p].rows|
            && Refused(t.versions[p], l.versions[p].watermark, n)
            && forall i :: n <= i < |l.versions[p].rows| ==> t.versions[p].rows[i] == l.versions[p].rows[i]
    decreases n
  {
    steps := [];
    if l.versions[p].watermark < n {
      var before := RefusePending(l, p, n - 1);
      assert RowOk(l.versions[p], n - 1);
      steps := before + [DoValidate(p, n - 1, NO_VERDICT, false)];
      ContinueAppend(l, before, DoValidate(p, n - 1, NO_VERDICT, false));
    }
  }

  lemma RefusedFinalizes(l: State, p: nat)
    requires p < |l.versions| && Ready(l.versions[p]) && !l.versions[p].rows[l.versions[p].watermark].verdict.valid
    ensures !Unusable(l, p) && OnlyDrained(l, Finalize(l, p), p)
    ensures Finalize(l, p).versions[p].watermark == l.versions[p].watermark + 1
    ensures |Finalize(l, p).versions[p].rows| == |l.versions[p].rows|
    ensures forall i :: l.versions[p].watermark < i < |l.versions[p].rows| ==>
              Finalize(l, p).versions[p].rows[i] == l.versions[p].rows[i]
  {
    assert Won(l, p, l.versions[p].rows[l.versions[p].watermark].verdict) == {};
    assert Finalize(l, p).claims == l.claims;
  }

  /** Refused receipts settle without a trace. */
  lemma {:induction false} RefusedSettle(l: State, p: nat)
    requires p < |l.versions| && l.versions[p].watermark <= |l.versions[p].rows|
    requires Refused(l.versions[p], l.versions[p].watermark, |l.versions[p].rows|)
    ensures Settle(l, p).Some? && OnlyDrained(l, Settle(l, p).value, p) && Drained(Settle(l, p).value.versions[p])
    decreases |l.versions[p].rows| - l.versions[p].watermark
  {
    if l.versions[p].watermark < |l.versions[p].rows| {
      RefusedFinalizes(l, p);
      RefusedSettle(Finalize(l, p), p);
    }
  }

  lemma Drain(l: State, p: nat) returns (steps: seq<Step>)
    requires p < |l.versions| && VersionOk(l.versions[p]) && Drainable(l.versions[p])
    ensures OnlyDrained(l, Continue(l, steps), p) && Drained(Continue(l, steps).versions[p])
  {
    var refused := RefusePending(l, p, |l.versions[p].rows|);
    RefusedSettle(Continue(l, refused), p);
    ContinueAppend(l, refused, DoAdjudicate(p));
    steps := refused + [DoAdjudicate(p)];
  }

  lemma {:induction false} ContinueConcat(l: State, a: seq<Step>, b: seq<Step>)
    ensures Continue(l, a + b) == Continue(Continue(l, a), b)
  {
    if b == [] {
      assert a + b == a;
    } else {
      var shorter, last := b[..|b| - 1], b[|b| - 1];
      ContinueConcat(l, a, shorter);
      ContinueAppend(l, a + shorter, last);
      ContinueAppend(Continue(l, a), shorter, last);
      assert a + b == a + shorter + [last] && b == shorter + [last];
    }
  }

  /** A security version whose source has the checked frontier and no valid verdict
      waiting can be opened: first the source is drained. */
  lemma OpenAfterDraining(l: State, v: nat) returns (more: seq<Step>)
    requires Inv(l) && Lineage(l) && v < |l.versions| && !l.versions[v].locked && MayOpen(l, v)
    ensures Accepting(Continue(l, more), v)
  {
    if l.versions[v].kind == Season {
      more := OpenAgain(l, v);
    } else {
      var p := l.versions[v].predecessor.value;
      assert VersionOk(l.versions[p]);
      var drained := Drain(l, p);
      var t := Continue(l, drained);
      SameKeepsLineage(l, t);
      var opening := OpenAgain(t, v);
      more := drained + opening;
      ContinueConcat(l, drained, opening);
    }
  }

  /** The opening condition without the draining. */
  predicate MayOpen(l: State, v: nat)
    requires v < |l.versions|
  {
    var p := l.versions[v].predecessor;
    l.versions[v].kind == Season
    || (p.Some? && p.value < v && Drainable(l.versions[p.value])
        && l.versions[p.value].frontier == l.versions[v].priorFrontier
        && !AnyClaimed(l, v))
  }

  // ------------------------------------------------------------- never again

  /** A security version that can never complete its migration. */
  predicate Blocked(l: State, v: nat) {
    v < |l.versions| && l.versions[v].kind == Security && l.versions[v].status != Published
    && (AnyClaimed(l, v) || MovedOn(l, v))
  }

  lemma BlockedCannotComplete(l: State, v: nat)
    requires Blocked(l, v)
    ensures !Completes(l, v)
  {
    if Completes(l, v) {
      CompletesShape(l, v);
    }
  }

  lemma OnlyCompletionPublishes(l: State, s: Step, v: nat)
    requires v < |l.versions| && l.versions[v].kind == Security && l.versions[v].status != Published
             && !(s == DoComplete(v) && Completes(l, v))
    ensures v < |Next(l, s).versions| && Next(l, s).versions[v].status != Published
  {
    match s
    case DoAdjudicate(w) => if w < |l.versions| && Settle(l, w).Some? { SettleStatus(l, w); }
    case DoAct(w, a) => ActPublishesNone(l, w, a, v);
    case _ =>
  }

  lemma ActPublishesNone(l: State, w: nat, a: Action, v: nat)
    requires v < |l.versions| && l.versions[v].status != Published
    ensures v < |Act(l, w, a).versions| && Act(l, w, a).versions[v].status != Published
  {
  }

  lemma {:induction false} SettleStatus(l: State, v: nat)
    requires v < |l.versions| && Settle(l, v).Some?
    ensures var t := Settle(l, v).value;
            |t.versions| == |l.versions|
            && forall w :: 0 <= w < |l.versions| ==> t.versions[w].status == l.versions[w].status
    decreases if l.versions[v].watermark < |l.versions[v].rows| then |l.versions[v].rows| - l.versions[v].watermark
              else 0
  {
    if Ready(l.versions[v]) {
      SettleStatus(Finalize(l, v), v);
    }
  }

  lemma BlockedKept(l: State, s: Step, v: nat)
    requires Inv(l) && Blocked(l, v) && SinceOk(l, v)
    ensures Blocked(Next(l, s), v) && SinceOk(Next(l, s), v)
  {
    BlockedCannotComplete(l, v);
    OnlyCompletionPublishes(l, s, v);
    StepKeepsSince(l, s, v);
    NextPersists(l, s);
    assert Persists(l.versions[v], Next(l, s).versions[v]);
  }

  lemma {:induction false} BlockedForGood(l: State, steps: seq<Step>, v: nat)
    requires Inv(l) && Blocked(l, v) && SinceOk(l, v)
    ensures Inv(Continue(l, steps)) && Blocked(Continue(l, steps), v) && SinceOk(Continue(l, steps), v)
  {
    if steps != [] {
      var shorter, last := steps[..|steps| - 1], steps[|steps| - 1];
      BlockedForGood(l, shorter, v);
      BlockedKept(Continue(l, shorter), last, v);
      NextKeepsInv(Continue(l, shorter), last);
    }
  }

  /** A superseded version stays closed in every continuation exactly when it is locked or,
      for a security migration, when its predecessor's frontier has moved on or one of its
      milestones is claimed. Nothing else keeps it closed: the editorial and preflight
      steps look at the lock, not at the supersession. */
  lemma SupersededForGoodIff(maximum: nat, steps: seq<Step>, v: nat)
    requires var l := Run(maximum, steps);
             && v < |l.versions| && l.versions[v].status == Superseded
             && (l.versions[v].kind == Security ==>
                   l.versions[v].predecessor.Some? && l.versions[v].predecessor.value < |l.versions|
                   && Drainable(l.versions[l.versions[v].predecessor.value]))
    ensures var l := Run(maximum, steps);
            (forall more :: !AcceptsAfter(l, more, v)) <==>
            l.versions[v].locked
            || (l.versions[v].kind == Security
                && (l.versions[l.versions[v].predecessor.value].frontier != l.versions[v].priorFrontier
                    || AnyClaimed(l, v)))
  {
    RunKeepsInv(maximum, steps);
    RunKeepsLineage(maximum, steps);
    RunKeepsSince(maximum, steps);
    var l := Run(maximum, steps);
    assert VersionOk(l.versions[v]) && PredecessorOk(l, v) && SinceOk(l, v);
    StaysClosedIff(l, v);
  }

  lemma StaysClosedIff(l: State, v: nat)
    requires Inv(l) && Lineage(l) && v < |l.versions| && SinceOk(l, v) && VersionOk(l.versions[v])
             && l.versions[v].status == Superseded
    requires l.versions[v].kind == Security ==>
               l.versions[v].predecessor.Some? && l.versions[v].predecessor.value < v
               && Drainable(l.versions[l.versions[v].predecessor.value])
    ensures (forall more :: !AcceptsAfter(l, more, v)) <==> l.versions[v].locked || !MayOpen(l, v)
  {
    if !l.versions[v].locked && MayOpen(l, v) {
      var more := OpenAfterDraining(l, v);
      assert AcceptsAfter(l, more, v);
    } else {
      forall more
        ensures !AcceptsAfter(l, more, v)
      {
        if l.versions[v].locked {
          ContinueStandsStill(l, more, v);
        } else {
          BlockedForGood(l, more, v);
        }
      }
    }
  }

  // ------------------------------------------------- a transferred milestone

  ghost predicate ReachesAfter(l: State, steps: seq<Step>, v: nat, m: Mid) {
    var t := Continue(l, steps);
    v < |t.versions| && exists i: nat :: Reached(t.versions[v], m, i)
  }

  function WinningVerdict(c: Contract, m: Mid): Verdict
    requires m in c.milestones
  {
    Verdict(true, c.milestones[m], c.milestones.Keys, {})
  }

  /** An open version without receipts reaches any milestone of its own with its first
      receipt, and wins it if it is unclaimed. */
  lemma FirstReceiptWins(l: State, v: nat, m: Mid)
    requires v < |l.versions| && l.versions[v].intake == Open && l.versions[v].locked && l.versions[v].rows == []
             && l.versions[v].watermark == 0
    requires l.reserved + 2 <= l.maximum && m in l.versions[v].live
             && l.versions[v].live <= l.versions[v].contract.milestones.Keys
    ensures var t := Adjudicate(Validate(Accept(l, v, true), v, 0, WinningVerdict(l.versions[v].contract, m), false),
                                v);
            v < |t.versions| && Reached(t.versions[v], m, 0)
            && (m !in l.claims ==> m in t.claims && t.claims[m] == (v, 0))
  {
    var c := l.versions[v].contract;
    var a := Accept(l, v, true);
    var b := Validate(a, v, 0, WinningVerdict(c, m), false);
    assert b.versions[v].rows == [Row(Validated, WinningVerdict(c, m), true, false, true)] && b.claims == l.claims
      && b.versions[v].live == l.versions[v].live;
    assert !Unusable(b, v);
    assert m !in l.claims ==> m in Won(b, v, WinningVerdict(c, m));
    var t := Finalize(b, v);
    assert !Ready(t.versions[v]);
    assert Settle(t, v) == Some(t);
  }

  lemma WinAfterOpening(l: State, more: seq<Step>, v: nat, m: Mid) returns (last: seq<Step>)
    requires Inv(l) && OpenedFrom(l, Continue(l, more), v) && !l.versions[v].locked && m in l.versions[v].live
             && m !in l.claims
    requires l.reserved + 2 <= l.maximum
    ensures var t := Continue(l, last);
            v < |t.versions| && Reached(t.versions[v], m, 0) && m in t.claims && t.claims[m] == (v, 0)
  {
    assert VersionOk(l.versions[v]);
    last := OneReceipt(l, more, v, WinningVerdict(l.versions[v].contract, m));
    FirstReceiptWins(Continue(l, more), v, m);
  }

  lemma OneReceipt(l: State, more: seq<Step>, v: nat, r: Verdict) returns (last: seq<Step>)
    ensures Continue(l, last) == Adjudicate(Validate(Accept(Continue(l, more), v, true), v, 0, r, false), v)
  {
    ContinueAppend(l, more, DoAccept(v, true));
    var accepted := more + [DoAccept(v, true)];
    ContinueAppend(l, accepted, DoValidate(v, 0, r, false));
    var validated := accepted + [DoValidate(v, 0, r, false)];
    ContinueAppend(l, validated, DoAdjudicate(v));
    last := validated + [DoAdjudicate(v)];
  }

  /** After a completed migration the predecessor, if it is not locked, can come back and
      win a milestone that was transferred away. */
  lemma PredecessorCanWin(l: State, v: nat, m: Mid) returns (more: seq<Step>)
    requires Inv(l) && Lineage(l) && Completes(l, v) && m in l.versions[v].contract.milestones
    requires var p := l.versions[v].predecessor.value;
             Holds(l, p, m) && !l.versions[p].locked && Openable(CompleteMigration(l, v), p)
             && l.reserved + 2 <= l.maximum
    ensures var t, p := Continue(CompleteMigration(l, v), more), l.versions[v].predecessor.value;
            p < |t.versions| && Reached(t.versions[p], m, 0) && m in t.claims && t.claims[m] == (p, 0)
  {
    CompletesShape(l, v);
    CompleteKeepsInv(l, v);
    CompleteKeepsLineage(l, v);
    var t, p := CompleteMigration(l, v), l.versions[v].predecessor.value;
    var opening := OpenAgain(t, p);
    more := WinAfterOpening(t, opening, p, m);
  }

  /** In every run: after a completed migration no continuation lets the predecessor reach
      a milestone that moved, exactly when the predecessor was locked. Stated for a
      predecessor that can be opened but for the lock, with room for one receipt. */
  lemma PredecessorOutIffLocked(maximum: nat, steps: seq<Step>, v: nat, m: Mid)
    requires var l := Run(maximum, steps);
             && Completes(l, v) && m in l.versions[v].contract.milestones && l.versions[v].predecessor.Some?
             && var p := l.versions[v].predecessor.value;
                Holds(l, p, m) && Openable(CompleteMigration(l, v), p) && l.reserved + 2 <= maximum
    ensures var l := Run(maximum, steps);
            var t, p := CompleteMigration(l, v), l.versions[v].predecessor.value;
            (forall more :: !ReachesAfter(t, more, p, m)) <==> l.versions[p].locked
  {
    RunKeepsInv(maximum, steps);
    RunKeepsLineage(maximum, steps);
    OutIffLocked(Run(maximum, steps), v, m);
  }

  lemma OutIffLocked(l: State, v: nat, m: Mid)
    requires Inv(l) && Lineage(l) && Completes(l, v) && m in l.versions[v].contract.milestones
    requires var p := l.versions[v].predecessor.value;
             Holds(l, p, m) && Openable(CompleteMigration(l, v), p) && l.reserved + 2 <= l.maximum
    ensures var t, p := CompleteMigration(l, v), l.versions[v].predecessor.value;
            (forall more :: !ReachesAfter(t, more, p, m)) <==> l.versions[p].locked
  {
    CompletesShape(l, v);
    var t, p := CompleteMigration(l, v), l.versions[v].predecessor.value;
    if l.versions[p].locked {
      forall more
        ensures !ReachesAfter(t, more, p, m)
      {
        LockedNeverReaches(l, v, m, more);
      }
    } else {
      var more := PredecessorCanWin(l, v, m);
      assert ReachesAfter(t, more, p, m);
    }
  }

  /** Open, with room for one receipt, after the steps. */
  predicate OpenWithRoom(l: State, steps: seq<Step>, v: nat) {
    var t := Continue(l, steps);
    v < |t.versions| && t.versions[v].intake == Open && t.versions[v].locked && t.reserved + 2 <= t.maximum
  }

  lemma OnlyAcceptAddsRows(l: State, s: Step, v: nat)
    requires v < |l.versions| && l.versions[v].rows == [] && v < |Next(l, s).versions|
             && Next(l, s).versions[v].rows != []
    ensures l.versions[v].intake == Open && l.versions[v].locked && l.reserved + 2 <= l.maximum
  {
    if s.DoAdjudicate? {
      if s.v < |l.versions| && Settle(l, s.v).Some? {
        SettleRowCount(l, s.v);
      }
    } else if s.DoChallenge? || s.DoVersion? || s.DoPublish? || s.DoComplete? || s.DoAct? || s.DoIncident? {
      LifeLeavesFrontier(l, s, v);
    }
  }

  lemma {:induction false} SettleRowCount(l: State, v: nat)
    requires v < |l.versions| && Settle(l, v).Some?
    ensures var t := Settle(l, v).value;
            |t.versions| == |l.versions|
            && forall w :: 0 <= w < |l.versions| ==> |t.versions[w].rows| == |l.versions[w].rows|
    decreases if l.versions[v].watermark < |l.versions[v].rows| then |l.versions[v].rows| - l.versions[v].watermark
              else 0
  {
    if Ready(l.versions[v]) {
      SettleRowCount(Finalize(l, v), v);
    }
  }

  /** A version without receipts gets one only from a state in which it is open with room. */
  lemma {:induction false} FirstOpening(l: State, steps: seq<Step>, v: nat) returns (before: seq<Step>)
    requires Inv(l) && v < |l.versions| && l.versions[v].rows == []
    requires v < |Continue(l, steps).versions| && (Continue(l, steps).versions[v].rows != []
                                                   || OpenWithRoom(l, steps, v))
    ensures Inv(Continue(l, before)) && OpenWithRoom(l, before, v) && Continue(l, before).versions[v].rows == []
    ensures l.versions[v].live <= Continue(l, before).versions[v].live
    decreases |steps|
  {
    ContinueKeeps(l, steps, v);
    if Continue(l, steps).versions[v].rows == [] {
      before := steps;
    } else {
      var shorter, last := steps[..|steps| - 1], steps[|steps| - 1];
      ContinueKeeps(l, shorter, v);
      if Continue(l, shorter).versions[v].rows == [] {
        OnlyAcceptAddsRows(Continue(l, shorter), last, v);
        before := shorter;
      } else {
        before := FirstOpening(l, shorter, v);
      }
    }
  }

  lemma {:induction false} ContinueKeeps(l: State, steps: seq<Step>, v: nat)
    requires Inv(l) && v < |l.versions|
    ensures Inv(Continue(l, steps)) && v < |Continue(l, steps).versions|
            && l.versions[v].live <= Continue(l, steps).versions[v].live
  {
    if steps != [] {
      var shorter, last := steps[..|steps| - 1], steps[|steps| - 1];
      ContinueKeeps(l, shorter, v);
      NextKeepsInv(Continue(l, shorter), last);
      NextPersists(Continue(l, shorter), last);
      assert Persists(Continue(l, shorter).versions[v], Next(Continue(l, shorter), last).versions[v]);
    }
  }

  /** The first receipt after such a state reaches any milestone of the version. */
  lemma ReachFromOpening(l: State, before: seq<Step>, v: nat, m: Mid) returns (last: seq<Step>)
    requires Inv(l) && v < |l.versions| && m in l.versions[v].live && Inv(Continue(l, before))
             && OpenWithRoom(l, before, v)
    requires Continue(l, before).versions[v].rows == [] && l.versions[v].live <= Continue(l, before).versions[v].live
    ensures ReachesAfter(l, last, v, m)
  {
    var s := Continue(l, before);
    assert VersionOk(s.versions[v]);
    last := OneReceipt(l, before, v, WinningVerdict(s.versions[v].contract, m));
    FirstReceiptWins(s, v, m);
  }

  /** A version without receipts can come to reach a milestone it holds exactly when some
      continuation has it open with room for one receipt. */
  lemma ReachableIffOpens(l: State, v: nat, m: Mid)
    requires Inv(l) && Holds(l, v, m) && l.versions[v].rows == []
    ensures (exists more :: ReachesAfter(l, more, v, m)) <==> (exists more :: OpenWithRoom(l, more, v))
  {
    if more :| ReachesAfter(l, more, v, m) {
      var before := FirstOpening(l, more, v);
      assert OpenWithRoom(l, before, v);
    }
    if more :| OpenWithRoom(l, more, v) {
      ContinueKeeps(l, more, v);
      var before := FirstOpening(l, more, v);
      var last := ReachFromOpening(l, before, v, m);
      assert ReachesAfter(l, last, v, m);
    }
  }

  /** In every run, with no further condition: after a completed migration the predecessor
      can come to reach a milestone that moved exactly when it was not locked and some
      continuation has it open with room for one receipt. */
  lemma PredecessorOutIff(maximum: nat, steps: seq<Step>, v: nat, m: Mid)
    requires var l := Run(maximum, steps);
             && Completes(l, v) && m in l.versions[v].contract.milestones && l.versions[v].predecessor.Some?
             && Holds(l, l.versions[v].predecessor.value, m)
    ensures var l := Run(maximum, steps);
            var t, p := CompleteMigration(l, v), l.versions[v].predecessor.value;
            (exists more :: ReachesAfter(t, more, p, m)) <==>
            !l.versions[p].locked && exists more :: OpenWithRoom(t, more, p)
  {
    RunKeepsInv(maximum, steps);
    var l := Run(maximum, steps);
    CompletesShape(l, v);
    CompleteKeepsInv(l, v);
    var t, p := CompleteMigration(l, v), l.versions[v].predecessor.value;
    assert VersionOk(l.versions[p]);
    if l.versions[p].locked {
      if more :| ReachesAfter(t, more, p, m) {
        LockedNeverReaches(l, v, m, more);
      }
    } else {
      ReachableIffOpens(t, p, m);
    }
  }

  /** The locked half needs no room and no opening condition. */
  lemma LockedNeverReaches(l: State, v: nat, m: Mid, more: seq<Step>)
    requires Inv(l) && Completes(l, v) && m in l.versions[v].contract.milestones
    requires var p := l.versions[v].predecessor.value; Holds(l, p, m) && l.versions[p].locked
    ensures !ReachesAfter(CompleteMigration(l, v), more, l.versions[v].predecessor.value, m)
  {
    CompletesShape(l, v);
    CompleteKeepsInv(l, v);
    var t, p := CompleteMigration(l, v), l.versions[v].predecessor.value;
    UnreachedAtTransfer(l, v, m, p);
    SameReached(l.versions[p], t.versions[p], m);
    ContinueStandsStill(t, more, p);
    SameReached(t.versions[p], Continue(t, more).versions[p], m);
  }

  // ------------------------------------------------------------------- a run

  const ONE_MILESTONE: Contract := Contract(MAXIMIZE, 0, 1, false, map["m" := 1])

  /** The first version as a rejected draft, and its security successor. */
  ghost predicate Migrating(l: State, status: Status, preflights: nat, locked: bool,
                            staged: Option<(nat, Option<nat>)>) {
    var first := FreshVersion(0, ONE_MILESTONE, Season, None, None, {"m"}).(intake := Closed);
    var second := FreshVersion(0, ONE_MILESTONE, Security, Some(0), None, {});
    && l.versions == [first, second.(status := status, preflights := preflights, locked := locked, staged := staged)]
    && l.tiers.Keys == {"m"} && l.tiers["m"] == 0 && l.claims == map[] && l.reserved == 0 && l.maximum == 2
  }

  lemma RejectedDraft(steps: seq<Step>)
    requires steps == [] + [DoChallenge(0, ONE_MILESTONE)] + [DoAct(0, Reject)]
    ensures var l := Run(2, steps);
            && l.versions == [FreshVersion(0, ONE_MILESTONE, Season, None, None, {"m"}).(intake := Closed)]
            && l.tiers.Keys == {"m"} && l.tiers["m"] == 0 && l.claims == map[] && l.reserved == 0 && l.maximum == 2
  {
    RunAppend(2, [], DoChallenge(0, ONE_MILESTONE));
    var l := Run(2, [] + [DoChallenge(0, ONE_MILESTONE)]);
    assert ONE_MILESTONE.milestones.Keys == {"m"};
    assert l.versions == [FreshVersion(0, ONE_MILESTONE, Season, None, None, {"m"})];
    RunAppend(2, [] + [DoChallenge(0, ONE_MILESTONE)], DoAct(0, Reject));
  }

  lemma SuccessorCreated(l: State)
    requires l.versions == [FreshVersion(0, ONE_MILESTONE, Season, None, None, {"m"}).(intake := Closed)]
    requires l.tiers.Keys == {"m"} && l.tiers["m"] == 0 && l.claims == map[] && l.reserved == 0 && l.maximum == 2
    ensures Migrating(CreateVersion(l, 0, Security, ONE_MILESTONE), Draft, 0, false, None)
  {
    assert Latest(l, 0, 0);
    forall m | m in ONE_MILESTONE.milestones
      ensures m in l.tiers && Transferable(l, 0, m)
    {
      assert m == "m";
    }
    assert (set m | m in ONE_MILESTONE.milestones && m !in l.tiers) == {};
    var t := CreateVersion(l, 0, Security, ONE_MILESTONE);
    assert t.tiers == l.tiers;
  }

  lemma SuccessorActs(l: State, status: Status, preflights: nat, locked: bool)
    requires Migrating(l, status, preflights, locked, None)
    ensures status == Draft ==> Migrating(Act(l, 1, StartPreflight), Preflight, preflights + 1, locked, None)
    ensures status == Preflight && preflights == 1 && !locked ==>
              Migrating(Act(l, 1, PreflightPassed), ReviewReady, 0, false, None)
    ensures status == ReviewReady && !locked ==> Migrating(Act(l, 1, Lock), Locked, preflights, true, None)
  {
  }

  lemma SuccessorStaged(l: State)
    requires Migrating(l, Locked, 0, true, None)
    ensures Migrating(Publish(l, 1), Signing, 0, true, Some((0, None))) && Completes(Publish(l, 1), 1)
  {
    assert SourceStill(l, 1);
    var s := Publish(l, 1);
    assert SourceStill(s, 1);
    forall m | m in ONE_MILESTONE.milestones
      ensures m in s.tiers && m !in s.claims && m in s.versions[0].live
    {
      assert m == "m";
    }
    assert OnlyOpen(Put(s, 0, Supersede(s.versions[0])), 1);
  }

  /** A reachable state in which a migration from an unlocked predecessor completes. */
  lemma MigratingRun() returns (steps: seq<Step>)
    ensures var l := Run(2, steps); Migrating(l, Signing, 0, true, Some((0, None))) && Completes(l, 1)
  {
    var draft := SuccessorRun();
    var started := ActRun(draft, Draft, 0, StartPreflight);
    var passed := ActRun(started, Preflight, 1, PreflightPassed);
    var locked := ActRun(passed, ReviewReady, 0, Lock);
    SuccessorStaged(Run(2, locked));
    RunAppend(2, locked, DoPublish(1));
    steps := locked + [DoPublish(1)];
  }

  lemma SuccessorRun() returns (steps: seq<Step>)
    ensures Migrating(Run(2, steps), Draft, 0, false, None)
  {
    var rejected := [] + [DoChallenge(0, ONE_MILESTONE)] + [DoAct(0, Reject)];
    RejectedDraft(rejected);
    SuccessorCreated(Run(2, rejected));
    RunAppend(2, rejected, DoVersion(0, Security, ONE_MILESTONE));
    steps := rejected + [DoVersion(0, Security, ONE_MILESTONE)];
  }

  lemma ActRun(steps: seq<Step>, status: Status, preflights: nat, a: Action) returns (more: seq<Step>)
    requires Migrating(Run(2, steps), status, preflights, false, None)
    ensures Run(2, more) == Act(Run(2, steps), 1, a)
    ensures status == Draft && a == StartPreflight ==> Migrating(Run(2, more), Preflight, preflights + 1, false, None)
    ensures status == Preflight && preflights == 1 && a == PreflightPassed ==>
              Migrating(Run(2, more), ReviewReady, 0, false, None)
    ensures status == ReviewReady && a == Lock ==> Migrating(Run(2, more), Locked, preflights, true, None)
  {
    SuccessorActs(Run(2, steps), status, preflights, false);
    RunAppend(2, steps, DoAct(1, a));
    more := steps + [DoAct(1, a)];
  }

  /** The failing run: a rejected draft passes its milestone on, is superseded, comes back
      and wins the milestone that now belongs to its successor. */
  lemma SupersededPredecessorWins() returns (before: seq<Step>, after: seq<Step>)
    ensures before <= after
    ensures var l := Run(2, before);
            |l.versions| == 2 && l.versions[0].status == Superseded && Accepting(l, 1) && Holds(l, 1, "m")
            && "m" !in l.claims
    ensures var l := Run(2, after); "m" in l.claims && l.claims["m"] == (0, 0)
  {
    var staged := MigratingRun();
    RunKeepsInv(2, staged);
    RunKeepsLineage(2, staged);
    var l := Run(2, staged);
    CompletesShape(l, 1);
    RunAppend(2, staged, DoComplete(1));
    before := staged + [DoComplete(1)];
    var more := PredecessorCanWin(l, 1, "m");
    RunContinue(2, before, more);
    after := before + more;
  }
}

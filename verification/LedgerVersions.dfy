/** Milestones across versions, and superseded versions: a claimed milestone never
    transfers, and a locked superseded version stands still. */
module LedgerVersions {
  import opened Ledger
  import opened LedgerSafety
  import opened LedgerResults

  // -------------------------------------------------------------- transferring

  lemma ClaimedIsTiered(l: State, m: Mid)
    requires Inv(l) && m in l.claims
    ensures m in l.tiers
  {
    assert ClaimOk(l, m);
  }

  lemma SameLive(l: State, s: Step, v: nat)
    requires !s.DoChallenge? && !s.DoVersion? && !s.DoComplete? && !s.DoAdjudicate? && v < |Next(l, s).versions|
    ensures v < |l.versions| && Next(l, s).versions[v].live == l.versions[v].live
  {
  }

  lemma NewLive(l: State, s: Step, m: Mid, v: nat)
    requires (s.DoChallenge? || s.DoVersion? || s.DoComplete?) && m in l.claims && m in l.tiers
    requires v < |Next(l, s).versions| && m in Next(l, s).versions[v].live
    ensures v < |l.versions| && m in l.versions[v].live
  {
  }

  lemma StepNeverTransfers(l: State, s: Step, m: Mid, v: nat)
    requires Inv(l) && m in l.claims && v < |Next(l, s).versions| && m in Next(l, s).versions[v].live
    ensures v < |l.versions| && m in l.versions[v].live
  {
    ClaimedIsTiered(l, m);
    StepAddsNoClaimed(l, s, m, v);
  }

  lemma StepAddsNoClaimed(l: State, s: Step, m: Mid, v: nat)
    requires m in l.claims && m in l.tiers && v < |Next(l, s).versions| && m in Next(l, s).versions[v].live
    ensures v < |l.versions| && m in l.versions[v].live
  {
    if s.DoAdjudicate? {
      if s.v < |l.versions| && Settle(l, s.v).Some? {
        SettleLive(l, s.v);
      }
    } else if s.DoChallenge? || s.DoVersion? || s.DoComplete? {
      NewLive(l, s, m, v);
    } else {
      SameLive(l, s, v);
    }
  }

  lemma {:induction false} SettleLive(l: State, v: nat)
    requires v < |l.versions| && Settle(l, v).Some?
    ensures var t := Settle(l, v).value;
            |t.versions| == |l.versions|
            && forall w :: 0 <= w < |l.versions| ==> t.versions[w].live == l.versions[w].live
    decreases if l.versions[v].watermark < |l.versions[v].rows| then |l.versions[v].rows| - l.versions[v].watermark
              else 0
  {
    if Ready(l.versions[v]) {
      SettleLive(Finalize(l, v), v);
    }
  }

  /** A claimed milestone never becomes live in another version. */
  lemma {:induction false} ClaimedNeverTransfers(maximum: nat, steps: seq<Step>, n: nat, m: Mid, v: nat)
    requires n <= |steps| && m in Run(maximum, steps[..n]).claims
    requires v < |Run(maximum, steps).versions| && m in Run(maximum, steps).versions[v].live
    ensures v < |Run(maximum, steps[..n]).versions| && m in Run(maximum, steps[..n]).versions[v].live
  {
    if n == |steps| {
      assert steps[..n] == steps;
    } else {
      var shorter := steps[..|steps| - 1];
      assert shorter[..n] == steps[..n];
      RunKeepsInv(maximum, shorter);
      ClaimsPermanent(maximum, shorter, n);
      StepNeverTransfers(Run(maximum, shorter), steps[|steps| - 1], m, v);
      ClaimedNeverTransfers(maximum, shorter, n, m, v);
    }
  }

  // ---------------------------------------------------------------- superseded

  /** A locked version that is out of use and has no receipt left to decide. */
  predicate Retired(version: Version) {
    version.locked && version.status in {Superseded, Withdrawn, Compromised} && Drained(version)
  }

  lemma LifeKeepsRetired(l: State, s: Step, v: nat)
    requires v < |l.versions| && Retired(l.versions[v]) && VersionOk(l.versions[v])
             && (s.DoVersion? || s.DoPublish? || s.DoComplete? || s.DoAct?)
    ensures v < |Next(l, s).versions| && Next(l, s).claims == l.claims
    ensures var a, b := l.versions[v], Next(l, s).versions[v];
            b.rows == a.rows && b.watermark == a.watermark && b.locked
            && b.status in {Superseded, Withdrawn, Compromised}
  {
    if s.DoAct? {
      ActKeepsRetired(l, s.v, s.action, v);
    }
  }

  lemma ActKeepsRetired(l: State, w: nat, a: Action, v: nat)
    requires v < |l.versions| && Retired(l.versions[v])
    ensures v < |Act(l, w, a).versions| && Act(l, w, a).claims == l.claims
    ensures var a, b := l.versions[v], Act(l, w, a).versions[v];
            b.rows == a.rows && b.watermark == a.watermark && b.locked
            && b.status in {Superseded, Withdrawn, Compromised}
  {
  }

  lemma RowsKeepRetired(l: State, s: Step, v: nat)
    requires v < |l.versions| && Retired(l.versions[v]) && VersionOk(l.versions[v])
    requires s.DoChallenge? || s.DoAccept? || s.DoValidate? || s.DoIncident?
    ensures v < |Next(l, s).versions| && Next(l, s).versions[v] == l.versions[v] && Next(l, s).claims == l.claims
  {
    if (s.DoValidate? || s.DoIncident?) && s.i < |l.versions[v].rows| {
      assert RowOk(l.versions[v], s.i);
    }
  }

  /** Adjudicating another version wins nothing for this one. */
  lemma {:induction false} SettleOther(l: State, v: nat, w: nat)
    requires v < |l.versions| && w < |l.versions| && v != w && Settle(l, w).Some?
    ensures var t := Settle(l, w).value;
            |t.versions| == |l.versions| && t.versions[v] == l.versions[v]
            && forall m :: m in t.claims && t.claims[m].0 == v ==> m in l.claims && l.claims[m] == t.claims[m]
    decreases if l.versions[w].watermark < |l.versions[w].rows| then |l.versions[w].rows| - l.versions[w].watermark
              else 0
  {
    if Ready(l.versions[w]) {
      FinalizeOther(l, v, w);
      SettleOther(Finalize(l, w), v, w);
    }
  }

  lemma FinalizeOther(l: State, v: nat, w: nat)
    requires v < |l.versions| && w < |l.versions| && v != w && Ready(l.versions[w])
    ensures Finalize(l, w).versions[v] == l.versions[v]
    ensures forall m :: m in Finalize(l, w).claims && Finalize(l, w).claims[m].0 == v ==>
              m in l.claims && l.claims[m] == Finalize(l, w).claims[m]
  {
  }

  lemma AdjudicateKeepsRetired(l: State, v: nat, w: nat)
    requires v < |l.versions| && Drained(l.versions[v])
    ensures v < |Adjudicate(l, w).versions| && Adjudicate(l, w).versions[v] == l.versions[v]
    ensures forall m :: m in Adjudicate(l, w).claims && Adjudicate(l, w).claims[m].0 == v ==> m in l.claims
  {
    if w < |l.versions| && w != v && Settle(l, w).Some? {
      SettleOther(l, v, w);
    }
  }

  /** The receipts a version holds, without the flag that publication sets. */
  predicate SameDecisions(version: Version, next: Version) {
    |next.rows| == |version.rows| && next.watermark == version.watermark
    && forall i :: 0 <= i < |version.rows| ==>
         next.rows[i].status == version.rows[i].status && next.rows[i].verdict == version.rows[i].verdict
  }

  /** Version v is still out of use, with the same decided receipts and no new win. */
  ghost predicate StandsStill(l: State, t: State, v: nat) {
    && v < |l.versions| && v < |t.versions| && Retired(t.versions[v]) && SameDecisions(l.versions[v], t.versions[v])
    && forall m :: m in t.claims && t.claims[m].0 == v ==> m in l.claims
  }

  lemma StandsStillTransitive(a: State, b: State, c: State, v: nat)
    requires StandsStill(a, b, v) && StandsStill(b, c, v) && AllPersist(b, c)
    ensures StandsStill(a, c, v)
  {
    forall m | m in c.claims && c.claims[m].0 == v
      ensures m in a.claims
    {
      assert m in b.claims;
    }
  }

  lemma StepKeepsRetired(l: State, s: Step, v: nat)
    requires v < |l.versions| && VersionOk(l.versions[v]) && Retired(l.versions[v])
    ensures StandsStill(l, Next(l, s), v)
  {
    if s.DoAdjudicate? {
      AdjudicateKeepsRetired(l, v, s.v);
    } else if s.DoVersion? || s.DoPublish? || s.DoComplete? || s.DoAct? {
      LifeKeepsRetired(l, s, v);
    } else if !s.DoPublicize? {
      RowsKeepRetired(l, s, v);
    }
  }

  /** A locked version, once superseded, never accepts a receipt and never wins a
      milestone again. */
  lemma {:induction false} SupersededForGood(maximum: nat, steps: seq<Step>, n: nat, v: nat)
    requires n <= |steps| && v < |Run(maximum, steps[..n]).versions|
    requires Run(maximum, steps[..n]).versions[v].status == Superseded && Run(maximum, steps[..n]).versions[v].locked
    ensures StandsStill(Run(maximum, steps[..n]), Run(maximum, steps), v)
  {
    if n == |steps| {
      assert steps[..n] == steps;
      RunKeepsInv(maximum, steps);
      assert VersionOk(Run(maximum, steps).versions[v]);
    } else {
      var shorter, last := steps[..|steps| - 1], steps[|steps| - 1];
      assert shorter[..n] == steps[..n];
      SupersededForGood(maximum, shorter, n, v);
      RunKeepsInv(maximum, shorter);
      assert VersionOk(Run(maximum, shorter).versions[v]);
      StepKeepsRetired(Run(maximum, shorter), last, v);
      NextPersists(Run(maximum, shorter), last);
      StandsStillTransitive(Run(maximum, steps[..n]), Run(maximum, shorter), Run(maximum, steps), v);
    }
  }

  // --------------------------------------------------- the version that was not locked

  /** The run continued from a given state. */
  function Continue(l: State, steps: seq<Step>): State {
    if steps == [] then l else Next(Continue(l, steps[..|steps| - 1]), steps[|steps| - 1])
  }

  lemma ContinueAppend(l: State, steps: seq<Step>, s: Step)
    ensures Continue(l, steps + [s]) == Next(Continue(l, steps), s)
  {
    assert (steps + [s])[..|steps|] == steps;
  }

  predicate Accepting(l: State, v: nat) {
    v < |l.versions| && l.versions[v].intake == Open && l.versions[v].status == Published
  }

  predicate AcceptsAfter(l: State, steps: seq<Step>, v: nat) { Accepting(Continue(l, steps), v) }

  /** Editors stop every other version. */
  function StopOthers(v: nat, n: nat): seq<Step> {
    if n == 0 then [] else StopOthers(v, n - 1) + if n - 1 == v then [] else [DoAct(n - 1, Compromise)]
  }

  /** The same version up to status and intake. */
  predicate SameStanding(a: Version, b: Version) { b == a.(status := b.status, intake := b.intake) }

  lemma CompromiseCloses(l: State, w: nat)
    requires w < |l.versions|
    ensures Next(l, DoAct(w, Compromise)) == Put(l, w, l.versions[w].(status := Compromised, intake := Closed))
  {
  }

  /** Below n every version but v is closed; otherwise only status and intake changed. */
  ghost predicate OthersClosed(l: State, t: State, v: nat, n: nat) {
    && v < |l.versions| == |t.versions| && t == l.(versions := t.versions) && t.versions[v] == l.versions[v]
    && (forall w :: 0 <= w < |l.versions| ==> SameStanding(l.versions[w], t.versions[w]))
    && forall w :: 0 <= w < n && w < |l.versions| && w != v ==> t.versions[w].intake == Closed
  }

  lemma CloseOne(l: State, t: State, v: nat, n: nat)
    requires OthersClosed(l, t, v, n) && n < |l.versions| && n != v
    ensures OthersClosed(l, Put(t, n, t.versions[n].(status := Compromised, intake := Closed)), v, n + 1)
  {
    assert SameStanding(l.versions[n], t.versions[n]);
  }

  lemma {:induction false} OthersStopped(l: State, v: nat, n: nat)
    requires v < |l.versions| && n <= |l.versions|
    ensures OthersClosed(l, Continue(l, StopOthers(v, n)), v, n)
  {
    if n > 0 {
      OthersStopped(l, v, n - 1);
      var t := Continue(l, StopOthers(v, n - 1));
      if n - 1 != v {
        ContinueAppend(l, StopOthers(v, n - 1), DoAct(n - 1, Compromise));
        CompromiseCloses(t, n - 1);
        CloseOne(l, t, v, n - 1);
      } else {
        assert StopOthers(v, n) == StopOthers(v, n - 1);
      }
    }
  }

  /** The way back of an unlocked version: changes requested, a new preflight, the lock. */
  lemma Relock(l: State, steps: seq<Step>, v: nat) returns (more: seq<Step>)
    requires v < |Continue(l, steps).versions| && !Continue(l, steps).versions[v].locked
    ensures Continue(l, more) == Put(Continue(l, steps), v,
                                     Continue(l, steps).versions[v].(status := Locked, locked := true))
  {
    var t := Continue(l, steps);
    more := steps + [DoAct(v, AskChanges)];
    ContinueAppend(l, steps, DoAct(v, AskChanges));
    ContinueAppend(l, more, DoAct(v, StartPreflight));
    more := more + [DoAct(v, StartPreflight)];
    ContinueAppend(l, more, DoAct(v, PreflightPassed));
    more := more + [DoAct(v, PreflightPassed)];
    ContinueAppend(l, more, DoAct(v, Lock));
    more := more + [DoAct(v, Lock)];
    FourActsLock(t, v);
  }

  lemma FourActsLock(l: State, v: nat)
    requires v < |l.versions| && !l.versions[v].locked
    ensures Act(Act(Act(Act(l, v, AskChanges), v, StartPreflight), v, PreflightPassed), v, Lock)
            == Put(l, v, l.versions[v].(status := Locked, locked := true))
  {
    var version := l.versions[v];
    var asked := Act(l, v, AskChanges);
    assert asked == Put(l, v, version.(status := ChangesRequired));
    var started := Act(asked, v, StartPreflight);
    assert started == Put(l, v, version.(status := Preflight, preflights := version.preflights + 1));
    var passed := Act(started, v, PreflightPassed);
    assert passed == Put(l, v, version.(status := ReviewReady));
  }

  /** An unlocked version that opens on its own can always be opened, and nothing else
      that matters to it changes on the way. */
  lemma Reopen(l: State, v: nat) returns (more: seq<Step>)
    requires v < |l.versions| && !l.versions[v].locked && l.versions[v].kind == Season
    ensures var t := Continue(l, more);
            && |t.versions| == |l.versions| && t == l.(versions := t.versions)
            && t.versions[v] == l.versions[v].(status := Published, intake := Open, locked := true)
  {
    var stopped := StopOthers(v, |l.versions|);
    OthersStopped(l, v, |l.versions|);
    var locked := Relock(l, stopped, v);
    more := locked + [DoPublish(v)];
    ContinueAppend(l, locked, DoPublish(v));
    PublishOpens(Continue(l, locked), v);
  }

  lemma PublishOpens(l: State, v: nat)
    requires v < |l.versions| && l.versions[v].status == Locked && l.versions[v].kind == Season
    requires forall w :: 0 <= w < |l.versions| && w != v ==> l.versions[w].intake == Closed
    ensures Publish(l, v) == Put(l, v, l.versions[v].(status := Published, intake := Open))
  {
    assert OnlyOpen(l, v);
  }

  lemma RunAppend(maximum: nat, steps: seq<Step>, s: Step)
    ensures Run(maximum, steps + [s]) == Next(Run(maximum, steps), s)
  {
    assert (steps + [s])[..|steps|] == steps;
  }

  /** A continued run is a run. */
  lemma {:induction false} RunContinue(maximum: nat, steps: seq<Step>, more: seq<Step>)
    ensures Run(maximum, steps + more) == Continue(Run(maximum, steps), more)
  {
    if more == [] {
      assert steps + more == steps;
    } else {
      var shorter, last := more[..|more| - 1], more[|more| - 1];
      RunContinue(maximum, steps, shorter);
      assert more == shorter + [last];
      ContinueOne(maximum, steps, shorter, last);
    }
  }

  lemma ContinueOne(maximum: nat, steps: seq<Step>, more: seq<Step>, s: Step)
    requires Run(maximum, steps + more) == Continue(Run(maximum, steps), more)
    ensures Run(maximum, steps + (more + [s])) == Continue(Run(maximum, steps), more + [s])
  {
    RunAppend(maximum, steps + more, s);
    ContinueAppend(Run(maximum, steps), more, s);
    assert steps + (more + [s]) == steps + more + [s];
  }

  lemma {:induction false} ContinueStandsStill(l: State, steps: seq<Step>, v: nat)
    requires Inv(l) && v < |l.versions| && Retired(l.versions[v])
    ensures Inv(Continue(l, steps)) && StandsStill(l, Continue(l, steps), v)
    ensures Continue(l, steps).versions[v].contract == l.versions[v].contract
  {
    if steps != [] {
      var shorter, last := steps[..|steps| - 1], steps[|steps| - 1];
      ContinueStandsStill(l, shorter, v);
      var t := Continue(l, shorter);
      assert VersionOk(t.versions[v]);
      StepKeepsRetired(t, last, v);
      NextPersists(t, last);
      assert Persists(t.versions[v], Next(t, last).versions[v]);
      StandsStillTransitive(l, t, Next(t, last), v);
      NextKeepsInv(t, last);
    }
  }
}

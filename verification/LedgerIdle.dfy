/** Whatever a run does to an unlocked superseded version, it can leave it alone instead.
    Hence the exact condition under which such a version can return, whatever receipts
    its predecessor has left. */
module LedgerIdle {
  import opened Wrappers
  import opened Ledger
  import opened LedgerSafety
  import opened LedgerResults
  import opened LedgerVersions
  import opened LedgerLineage
  import opened LedgerReturns

  /** A superseded version that nobody works on. */
  predicate Idle(version: Version) {
    version.kind == Security && version.status == Superseded && version.intake == Closed && !version.locked
    && version.rows == [] && version.watermark == 0
  }

  /** The same version at any stage before it opens. */
  predicate Unopened(version: Version, idle: Version) {
    version.status != Published && version.intake != Open
    && version == idle.(status := version.status, intake := version.intake, locked := version.locked,
                        preflights := version.preflights, staged := version.staged)
  }

  predicate AimedAt(s: Step, v: nat) { (s.DoPublish? || s.DoComplete? || s.DoAct?) && s.v == v }

  /** The step did the same to a state in which the version is idle. */
  ghost predicate Shadowed(l: State, s: Step, v: nat, idle: Version) {
    && v < |l.versions| && v < |Next(l, s).versions| && Unopened(Next(l, s).versions[v], idle)
    && Next(Put(l, v, idle), s) == Put(Next(l, s), v, idle)
  }

  lemma AimedStep(l: State, s: Step, v: nat, idle: Version)
    requires v < |l.versions| && Idle(idle) && Unopened(l.versions[v], idle) && AimedAt(s, v)
    requires s.DoComplete? ==> !Completes(l, v)
    ensures v < |Next(l, s).versions| && Unopened(Next(l, s).versions[v], idle)
    ensures Put(Next(l, s), v, idle) == Put(l, v, idle)
  {
  }

  lemma AcceptStep(l: State, w: nat, publish: bool, v: nat, idle: Version)
    requires v < |l.versions| && Idle(idle) && Unopened(l.versions[v], idle)
    ensures Shadowed(l, DoAccept(w, publish), v, idle)
  {
  }

  lemma PublicizeStep(l: State, w: nat, i: nat, v: nat, idle: Version)
    requires v < |l.versions| && Idle(idle) && Unopened(l.versions[v], idle)
    ensures Shadowed(l, DoPublicize(w, i), v, idle)
  {
  }

  lemma RunnerStep(l: State, s: Step, v: nat, idle: Version)
    requires v < |l.versions| && Idle(idle) && Unopened(l.versions[v], idle) && (s.DoValidate? || s.DoIncident?)
    ensures Shadowed(l, s, v, idle)
  {
  }

  lemma ChallengeStep(l: State, challenge: nat, c: Contract, v: nat, idle: Version)
    requires v < |l.versions| && Idle(idle) && Unopened(l.versions[v], idle)
    requires CreateChallenge(l, challenge, c) != l
    ensures Shadowed(l, DoChallenge(challenge, c), v, idle)
  {
  }

  lemma VersionStep(l: State, prior: nat, kind: Kind, c: Contract, v: nat, idle: Version)
    requires v < |l.versions| && Idle(idle) && Unopened(l.versions[v], idle)
    requires CreateVersion(l, prior, kind, c) != l
    ensures Shadowed(l, DoVersion(prior, kind, c), v, idle)
  {
  }

  lemma PublishStep(l: State, w: nat, v: nat, idle: Version)
    requires v < |l.versions| && Idle(idle) && Unopened(l.versions[v], idle) && v != w && Publish(l, w) != l
    ensures Shadowed(l, DoPublish(w), v, idle)
  {
  }

  lemma CompleteStep(l: State, w: nat, v: nat, idle: Version)
    requires v < |l.versions| && Idle(idle) && Unopened(l.versions[v], idle) && v != w && CompleteMigration(l, w) != l
    ensures Shadowed(l, DoComplete(w), v, idle)
  {
    assert Completes(l, w);
    CompletesShape(l, w);
    var p, t := l.versions[w].predecessor.value, Put(l, v, idle);
    assert SourceStill(t, w) && t.versions[w] == l.versions[w];
    StillOnlyOpen(Put(l, p, Supersede(l.versions[p])), Put(t, p, Supersede(t.versions[p])), w);
    assert t.versions[p].live == l.versions[p].live;
  }

  /** Closing a version does not keep another from being the only open one. */
  lemma StillOnlyOpen(l: State, t: State, w: nat)
    requires w < |l.versions| == |t.versions| && OnlyOpen(l, w)
    requires forall u :: 0 <= u < |l.versions| ==> t.versions[u].challenge == l.versions[u].challenge
    requires forall u :: 0 <= u < |l.versions| && t.versions[u].intake == Open ==> l.versions[u].intake == Open
    ensures OnlyOpen(t, w)
  {
  }

  lemma ActStep(l: State, w: nat, a: Action, v: nat, idle: Version)
    requires v < |l.versions| && Idle(idle) && Unopened(l.versions[v], idle) && v != w && Act(l, w, a) != l
    ensures Shadowed(l, DoAct(w, a), v, idle)
  {
  }

  /** Adjudication of another version does not look at this one. */
  lemma {:induction false} SettleStep(l: State, w: nat, v: nat, idle: Version)
    requires v < |l.versions| && w < |l.versions| && v != w
    ensures Settle(Put(l, v, idle), w).Some? <==> Settle(l, w).Some?
    ensures Settle(l, w).Some? ==>
              && |Settle(l, w).value.versions| == |l.versions|
              && Settle(l, w).value.versions[v] == l.versions[v]
              && Settle(Put(l, v, idle), w).value == Put(Settle(l, w).value, v, idle)
    decreases if l.versions[w].watermark < |l.versions[w].rows| then |l.versions[w].rows| - l.versions[w].watermark
              else 0
  {
    if Ready(l.versions[w]) {
      FinalizeStep(l, w, v, idle);
      SettleStep(Finalize(l, w), w, v, idle);
    }
  }

  lemma FinalizeStep(l: State, w: nat, v: nat, idle: Version)
    requires v < |l.versions| && w < |l.versions| && v != w && Ready(l.versions[w])
    ensures Unusable(Put(l, v, idle), w) <==> Unusable(l, w)
    ensures |Finalize(l, w).versions| == |l.versions| && Finalize(l, w).versions[v] == l.versions[v]
    ensures Finalize(Put(l, v, idle), w) == Put(Finalize(l, w), v, idle)
  {
  }

  lemma AdjudicateStep(l: State, w: nat, v: nat, idle: Version)
    requires v < |l.versions| && Idle(idle) && Unopened(l.versions[v], idle)
    ensures Shadowed(l, DoAdjudicate(w), v, idle)
  {
    if w < |l.versions| && w != v {
      SettleStep(l, w, v, idle);
    }
  }

  lemma OtherStep(l: State, s: Step, v: nat, idle: Version)
    requires v < |l.versions| && Idle(idle) && Unopened(l.versions[v], idle) && Next(l, s) != l && !AimedAt(s, v)
    ensures Shadowed(l, s, v, idle)
  {
    match s
    case DoPublish(w) => PublishStep(l, w, v, idle);
    case DoComplete(w) => CompleteStep(l, w, v, idle);
    case DoAct(w, a) => ActStep(l, w, a, v, idle);
    case DoAdjudicate(w) => AdjudicateStep(l, w, v, idle);
    case DoChallenge(challenge, c) => ChallengeStep(l, challenge, c, v, idle);
    case DoVersion(prior, kind, c) => VersionStep(l, prior, kind, c, v, idle);
    case DoAccept(w, publish) => AcceptStep(l, w, publish, v, idle);
    case DoPublicize(w, i) => PublicizeStep(l, w, i, v, idle);
    case _ => RunnerStep(l, s, v, idle);
  }

  /** What the steps do up to the version's completion, without touching the version. */
  lemma {:induction false} LeaveAlone(l: State, steps: seq<Step>, v: nat, idle: Version)
    returns (n: nat, kept: seq<Step>)
    requires v < |l.versions| && Idle(idle) && idle == l.versions[v].(intake := Closed) && l.versions[v].intake != Open
    ensures n <= |steps| && v < |Continue(l, steps[..n]).versions|
    ensures Unopened(Continue(l, steps[..n]).versions[v], idle)
    ensures Continue(l, kept) == Put(Continue(l, steps[..n]), v, idle)
    ensures n < |steps| ==> Completes(Continue(l, steps[..n]), v)
  {
    if steps == [] {
      n, kept := 0, [DoAct(v, Reject)];
      ContinueAppend(l, [], DoAct(v, Reject));
    } else {
      var shorter, last := steps[..|steps| - 1], steps[|steps| - 1];
      n, kept := LeaveAlone(l, shorter, v, idle);
      assert shorter[..n] == steps[..n];
      var s := Continue(l, shorter);
      if n == |shorter| && !(last == DoComplete(v) && Completes(s, v)) {
        assert shorter[..n] == shorter && steps[..|steps|] == steps;
        n := |steps|;
        if AimedAt(last, v) {
          AimedStep(s, last, v, idle);
        } else if Next(s, last) != s {
          OtherStep(s, last, v, idle);
          ContinueAppend(l, kept, last);
          kept := kept + [last];
        }
      }
    }
  }

  /** After the steps the predecessor has no receipt left to decide, its frontier is the
      one that was checked, and none of the version's milestones is claimed. */
  predicate SourceKept(l: State, steps: seq<Step>, v: nat) {
    var t := Continue(l, steps);
    v < |t.versions| && SourceReady(t, v) && !AnyClaimed(t, v)
  }

  lemma {:induction false} ContinueIdentity(l: State, steps: seq<Step>, v: nat)
    requires Inv(l) && Lineage(l) && v < |l.versions|
    ensures var t := Continue(l, steps);
            Inv(t) && Lineage(t) && v < |t.versions| && t.versions[v].kind == l.versions[v].kind
  {
    if steps != [] {
      var shorter, last := steps[..|steps| - 1], steps[|steps| - 1];
      ContinueIdentity(l, shorter, v);
      var s := Continue(l, shorter);
      NextKeepsInv(s, last);
      NextKeepsLineage(s, last);
      NextPersists(s, last);
      assert Persists(s.versions[v], Next(s, last).versions[v]);
    }
  }

  /** A migration completes only while its source is at rest. */
  lemma {:induction false} OpeningNeedsSource(l: State, steps: seq<Step>, v: nat) returns (before: seq<Step>)
    requires Inv(l) && Lineage(l) && v < |l.versions| && l.versions[v].kind == Security
    requires l.versions[v].status != Published
    requires v < |Continue(l, steps).versions| && Continue(l, steps).versions[v].status == Published
    ensures SourceKept(l, before, v)
  {
    var shorter, last := steps[..|steps| - 1], steps[|steps| - 1];
    ContinueIdentity(l, shorter, v);
    var s := Continue(l, shorter);
    if s.versions[v].status == Published {
      before := OpeningNeedsSource(l, shorter, v);
    } else {
      StepOpens(s, last, v);
      before := shorter;
    }
  }

  lemma StepOpens(l: State, s: Step, v: nat)
    requires v < |l.versions| && l.versions[v].kind == Security && l.versions[v].status != Published
    requires v < |Next(l, s).versions| && Next(l, s).versions[v].status == Published
    ensures SourceReady(l, v) && !AnyClaimed(l, v)
  {
    if !(s == DoComplete(v) && Completes(l, v)) {
      OnlyCompletionPublishes(l, s, v);
      assert false;
    }
    CompletesShape(l, v);
  }

  /** A source that can be kept can be kept while the version stays unlocked, and then it opens. */
  lemma OpensIfSourceKept(l: State, steps: seq<Step>, v: nat) returns (more: seq<Step>)
    requires Inv(l) && Lineage(l) && v < |l.versions| && l.versions[v].kind == Security
    requires l.versions[v].status == Superseded && !l.versions[v].locked && SourceKept(l, steps, v)
    ensures AcceptsAfter(l, more, v)
  {
    assert VersionOk(l.versions[v]);
    var idle := l.versions[v].(intake := Closed);
    var n, kept := LeaveAlone(l, steps, v, idle);
    var s, t := Continue(l, steps[..n]), Continue(l, kept);
    if n < |steps| {
      CompletesShape(s, v);
    } else {
      assert steps[..n] == steps;
    }
    assert SourceReady(s, v) && !AnyClaimed(s, v);
    ContinueIdentity(l, kept, v);
    var opening := OpenAgain(t, v);
    ContinueConcat(l, kept, opening);
    more := kept + opening;
  }

  /** In every run, whatever receipts are left: a superseded version can open again exactly
      when it is not locked and, for a security migration, some continuation decides every
      receipt of its predecessor without moving the checked frontier or claiming one of its
      milestones. Its own steps never stand in the way of that. */
  lemma SupersededReturnsIff(maximum: nat, steps: seq<Step>, v: nat)
    requires var l := Run(maximum, steps); v < |l.versions| && l.versions[v].status == Superseded
    ensures var l := Run(maximum, steps);
            (exists more :: AcceptsAfter(l, more, v)) <==>
            !l.versions[v].locked && (l.versions[v].kind == Season || exists more :: SourceKept(l, more, v))
  {
    RunKeepsInv(maximum, steps);
    RunKeepsLineage(maximum, steps);
    var l := Run(maximum, steps);
    assert VersionOk(l.versions[v]);
    if more :| AcceptsAfter(l, more, v) {
      if l.versions[v].locked {
        ContinueStandsStill(l, more, v);
      } else if l.versions[v].kind == Security {
        var before := OpeningNeedsSource(l, more, v);
      }
    }
    if !l.versions[v].locked {
      if l.versions[v].kind == Season {
        var more := Reopen(l, v);
        assert AcceptsAfter(l, more, v);
      } else if before :| SourceKept(l, before, v) {
        var more := OpensIfSourceKept(l, before, v);
      }
    }
  }
}

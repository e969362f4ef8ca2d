/** What each transaction on the ledger does, in every reachable state: when it takes
    effect, and which effect that is. */
module LedgerAnswers {
  import opened Wrappers
  import opened Scores
  import opened Ledger
  import opened LedgerSafety
  import opened LedgerResults
  import opened LedgerFrontier
  import opened LedgerLineage

  // ------------------------------------------------------------ one open version

  ghost predicate OneOpen(l: State) {
    forall v, w :: 0 <= v < |l.versions| && 0 <= w < |l.versions| && BothOpen(l, v, w) ==> v == w
  }

  predicate BothOpen(l: State, v: nat, w: nat)
    requires v < |l.versions| && w < |l.versions|
  {
    l.versions[v].intake == Open && l.versions[w].intake == Open && l.versions[v].challenge == l.versions[w].challenge
  }

  /** No version opens, and none changes its challenge. */
  ghost predicate OpensNone(l: State, t: State) {
    && |l.versions| <= |t.versions|
    && (forall v :: 0 <= v < |l.versions| ==>
          t.versions[v].challenge == l.versions[v].challenge
          && (t.versions[v].intake == Open ==> l.versions[v].intake == Open))
    && forall v :: |l.versions| <= v < |t.versions| ==> t.versions[v].intake != Open
  }

  lemma OpensNoneKeeps(l: State, t: State)
    requires OneOpen(l) && OpensNone(l, t)
    ensures OneOpen(t)
  {
    forall v, w | 0 <= v < |t.versions| && 0 <= w < |t.versions| && BothOpen(t, v, w)
      ensures v == w
    {
      assert BothOpen(l, v, w);
    }
  }

  /** One version opens where no other of its challenge is open. */
  lemma OpeningKeeps(l: State, v: nat, next: Version)
    requires OneOpen(l) && v < |l.versions| && OnlyOpen(l, v) && next.challenge == l.versions[v].challenge
    ensures OneOpen(Put(l, v, next))
  {
    var t := Put(l, v, next);
    forall u, w | 0 <= u < |t.versions| && 0 <= w < |t.versions| && BothOpen(t, u, w)
      ensures u == w
    {
      if u != v && w != v {
        assert BothOpen(l, u, w);
      }
    }
  }

  lemma {:induction false} SettleOpensNone(l: State, v: nat)
    requires v < |l.versions| && Settle(l, v).Some?
    ensures OpensNone(l, Settle(l, v).value)
    decreases if l.versions[v].watermark < |l.versions[v].rows| then |l.versions[v].rows| - l.versions[v].watermark
              else 0
  {
    if Ready(l.versions[v]) {
      SettleOpensNone(Finalize(l, v), v);
    }
  }

  lemma CompleteKeepsOneOpen(l: State, v: nat)
    requires OneOpen(l)
    ensures OneOpen(CompleteMigration(l, v))
  {
    if CompleteMigration(l, v) != l {
      var p := l.versions[v].predecessor.value;
      var closed := Put(l, p, Supersede(l.versions[p]));
      OpensNoneKeeps(l, closed);
      OpeningKeeps(closed, v, CompleteMigration(l, v).versions[v]);
    }
  }

  lemma ActKeepsOneOpen(l: State, v: nat, a: Action)
    requires OneOpen(l)
    ensures OneOpen(Act(l, v, a))
  {
    if v < |l.versions| {
      if a == Resume && OnlyOpen(l, v) {
        OpeningKeeps(l, v, Act(l, v, a).versions[v]);
      } else {
        OpensNoneKeeps(l, Act(l, v, a));
      }
    }
  }

  lemma PublishKeepsOneOpen(l: State, v: nat)
    requires OneOpen(l)
    ensures OneOpen(Publish(l, v))
  {
    if v < |l.versions| && Publish(l, v) != l {
      if OnlyOpen(l, v) {
        OpeningKeeps(l, v, Publish(l, v).versions[v]);
      } else {
        OpensNoneKeeps(l, Publish(l, v));
      }
    }
  }

  lemma StepKeepsOneOpen(l: State, s: Step)
    requires OneOpen(l)
    ensures OneOpen(Next(l, s))
  {
    match s
    case DoPublish(v) => PublishKeepsOneOpen(l, v);
    case DoComplete(v) => CompleteKeepsOneOpen(l, v);
    case DoAct(v, a) => ActKeepsOneOpen(l, v, a);
    case DoAdjudicate(v) =>
      if v < |l.versions| && Settle(l, v).Some? {
        SettleOpensNone(l, v);
        OpensNoneKeeps(l, Next(l, s));
      }
    case _ => OpensNoneKeeps(l, Next(l, s));
  }

  /** In every run at most one version of a challenge accepts submissions. */
  lemma {:induction false} OneVersionOpen(maximum: nat, steps: seq<Step>)
    ensures OneOpen(Run(maximum, steps))
  {
    if steps != [] {
      OneVersionOpen(maximum, steps[..|steps| - 1]);
      StepKeepsOneOpen(Run(maximum, steps[..|steps| - 1]), steps[|steps| - 1]);
    }
  }

  // ------------------------------------------------------------------- migration

  /** What the transfer needs: evidence signed for the predecessor as it is now, all its
      receipts decided and intake stopped, the frontier that was checked, no third version
      open, and only unclaimed milestones, each the version's own or the predecessor's. */
  ghost predicate Transferring(l: State, v: nat) {
    && v < |l.versions| && l.versions[v].status == Signing && l.versions[v].predecessor.Some?
    && l.versions[v].predecessor.value < v
    && var version, p := l.versions[v], l.versions[l.versions[v].predecessor.value];
       && p.watermark == |p.rows| && p.intake in {Paused, Closed} && p.frontier == version.priorFrontier
       && version.staged == Some((p.watermark, p.frontier))
       && (forall w :: 0 <= w < |l.versions| && w != v && l.versions[w].challenge == version.challenge ==>
             l.versions[w].intake != Open)
       && forall m :: m in version.contract.milestones ==>
            m in l.tiers && m !in l.claims && (l.tiers[m] == v || m in p.live)
  }

  /** A migration completes exactly then, and it supersedes and closes the predecessor,
      publishes and opens the version, and gives it the milestones; otherwise it changes nothing. */
  lemma MigrationAnswers(l: State, v: nat)
    ensures if Transferring(l, v) then
              var p := l.versions[v].predecessor.value;
              CompleteMigration(l, v)
              == l.(versions := l.versions[p := l.versions[p].(status := Superseded, intake := Closed)]
                                          [v := l.versions[v].(status := Published, intake := Open,
                                                live := l.versions[v].live + l.versions[v].contract.milestones.Keys)])
            else CompleteMigration(l, v) == l
  {
    if v < |l.versions| && l.versions[v].status == Signing && SourceStill(l, v) {
      var p := l.versions[v].predecessor.value;
      var closed := Put(l, p, Supersede(l.versions[p]));
      if OnlyOpen(closed, v) {
        forall w | 0 <= w < |l.versions| && w != v && l.versions[w].challenge == l.versions[v].challenge
          ensures l.versions[w].intake != Open
        {
          assert w != p ==> closed.versions[w] == l.versions[w];
        }
      }
    }
  }

  /** Intake of one receipt: exactly while the version is open and locked and two units are
      free. It gets the next sequence number, undecided and not public. */
  lemma AcceptAnswers(l: State, v: nat, publish: bool)
    ensures if v < |l.versions| && l.versions[v].intake == Open && l.versions[v].locked && l.maximum - l.reserved >= 2
            then
              && Accept(l, v, publish).reserved == l.reserved + 2
              && Accept(l, v, publish).versions
                 == l.versions[v := l.versions[v].(rows := l.versions[v].rows
                      + [Row(Pending, Verdict(false, 0, {}, {}), publish, false, true)])]
              && Accept(l, v, publish).claims == l.claims && Accept(l, v, publish).tiers == l.tiers
            else Accept(l, v, publish) == l
  {
  }

  /** A verdict is stored exactly once, for a pending receipt, and stops intake if the runs
      disagreed. */
  lemma VerdictAnswers(l: State, v: nat, i: nat, verdict: Verdict, pause: bool)
    ensures if v < |l.versions| && i < |l.versions[v].rows| && l.versions[v].rows[i].status == Pending then
              var a := l.versions[v];
              Validate(l, v, i, verdict, pause)
              == l.(versions := l.versions[v :=
                      a.(rows := a.rows[i := a.rows[i].(status := Validated, verdict := verdict)],
                         intake := if pause then Paused else a.intake)])
            else Validate(l, v, i, verdict, pause) == l
  {
  }

  /** An owner can publish a finalized valid receipt that is not public yet, and only that. It
      becomes the frontier exactly when it leads the present one by the delta. */
  lemma PublicizeAnswers(l: State, v: nat, i: nat)
    requires v < |l.versions| && ValidContract(l.versions[v].contract)
    requires l.versions[v].frontier.Some? ==> l.versions[v].frontier.value < |l.versions[v].rows|
    ensures var a := l.versions[v];
            var c := a.contract;
            var before := if a.frontier.Some? then a.rows[a.frontier.value].verdict.score else c.baseline;
            if i < |a.rows| && a.rows[i].status == Finalized && a.rows[i].verdict.valid && !a.rows[i].public then
              var x := a.rows[i].verdict.score;
              var leads := (c.direction == "maximize" && x >= before + c.delta)
                           || (c.direction == "minimize" && x <= before - c.delta);
              Publicize(l, v, i)
              == l.(versions := l.versions[v :=
                      a.(rows := a.rows[i := a.rows[i].(public := true, publish := true)],
                         frontier := if leads then Some(i) else a.frontier)])
            else Publicize(l, v, i) == l
  {
  }

  /** A successor is created exactly from the latest version of the challenge, with all its
      receipts decided, no preflight under way, and intake stopped for a security migration.
      A new season names only new milestones; a migration may also name unclaimed ones that
      the predecessor holds. The new version takes over nothing yet, and records the frontier. */
  lemma VersionAnswers(l: State, prior: nat, kind: Kind, c: Contract)
    requires prior < |l.versions|
    ensures var p, t := l.versions[prior], CreateVersion(l, prior, kind, c);
            var fits := && (c.direction == "maximize" || c.direction == "minimize") && c.delta > 0
                        && (forall w :: prior < w < |l.versions| ==> l.versions[w].challenge != p.challenge)
                        && |p.rows| == p.watermark && p.status != Preflight
                        && (kind == Security ==> p.intake in {Paused, Closed})
                        && forall m :: m in c.milestones && m in l.tiers ==>
                             kind == Security && m !in l.claims && m in p.live && l.tiers[m] < |l.versions|
                             && l.versions[l.tiers[m]].challenge == p.challenge;
            if !fits then t == l
            else
              && |t.versions| == |l.versions| + 1 && t.claims == l.claims && t.reserved == l.reserved
              && var v, n := t.versions[|l.versions|], |l.versions|;
                 && v.challenge == p.challenge && v.contract == c && v.kind == kind && v.predecessor == Some(prior)
                 && v.priorFrontier == p.frontier && v.status == Draft && v.intake == Unavailable && !v.locked
                 && v.rows == [] && v.watermark == 0 && v.best.None? && v.frontier.None? && v.staged.None?
                 && v.live == (set m | m in c.milestones && m !in l.tiers)
                 && t.versions[..n]
                    == (if kind == Season then l.versions[prior := p.(status := Superseded, intake := Closed)]
                        else l.versions)
                 && t.tiers.Keys == l.tiers.Keys + v.live
                 && (forall m :: m in l.tiers ==> t.tiers[m] == l.tiers[m])
                 && (forall m :: m in v.live ==> t.tiers[m] == n)
  {
  }

  /** A locked version of a new season opens exactly when no other of its challenge is open; a
      locked migration is staged exactly when its source is at rest at the checked frontier. */
  lemma PublishAnswers(l: State, v: nat)
    requires v < |l.versions|
    ensures var version, t := l.versions[v], Publish(l, v);
            if version.status != Locked then t == l
            else if version.kind == Season then
              t == if forall w :: 0 <= w < |l.versions| && w != v && l.versions[w].challenge == version.challenge ==>
                        l.versions[w].intake != Open
                   then l.(versions := l.versions[v := version.(status := Published, intake := Open)]) else l
            else if version.predecessor.None? || version.predecessor.value >= v then t == l
            else
              var p := l.versions[version.predecessor.value];
              t == if |p.rows| == p.watermark && p.intake in {Paused, Closed} && p.frontier == version.priorFrontier
                   then l.(versions := l.versions[v := version.(status := Signing,
                                                                staged := Some((p.watermark, p.frontier)))]) else l
  {
  }

  /** What the editors and the preflight can do to a version, and when. Changes can be asked
      for, and a preflight can move it, exactly until it is locked, superseded or not. */
  lemma ActAnswers(l: State, v: nat, a: Action)
    requires v < |l.versions|
    ensures var x := l.versions[v];
            var result := x.preflights > 0 && (a == PreflightFailed || a == PreflightPassed);
            var alone := forall w :: 0 <= w < |l.versions| && w != v && l.versions[w].challenge == x.challenge ==>
                           l.versions[w].intake != Open;
            Act(l, v, a)
            == l.(versions := l.versions[v := x.(
                 preflights := if a == StartPreflight && x.status in {Draft, ChangesRequired} then x.preflights + 1
                               else if result then x.preflights - 1 else x.preflights,
                 locked := x.locked || (a == Lock && x.status == ReviewReady),
                 status := if a == StartPreflight && x.status in {Draft, ChangesRequired} then Preflight
                           else if a == PreflightFailed && result && !x.locked then ChangesRequired
                           else if a == PreflightPassed && result && !x.locked then ReviewReady
                           else if a == Lock && x.status == ReviewReady && !x.locked then Locked
                           else if a == AskChanges && !x.locked then ChangesRequired
                           else if a == Withdraw && x.status in {Published, Superseded} then Withdrawn
                           else if a == Compromise then Compromised else x.status,
                 intake := if a == Reject || a == Compromise || (a == Withdraw && x.status in {Published, Superseded})
                           then Closed
                           else if a == Pause && x.status == Published then Paused
                           else if a == Resume && x.status == Published && x.intake == Paused && alone
                                   && !Awaited(l, v) then Open
                           else x.intake)])
  {
  }

  /** A security migration away from the version is under way. */
  ghost predicate Awaited(l: State, v: nat) {
    exists w :: 0 <= w < |l.versions| && l.versions[w].predecessor == Some(v) && l.versions[w].kind == Security
                && l.versions[w].status != Published && l.versions[w].status != Superseded
                && l.versions[w].status != Compromised
  }

  // ---------------------------------------------------------------- adjudication

  /** The decided receipts from a's watermark up to the first undecided one are finalized. */
  ghost predicate FinalizesAll(a: Version, b: Version) {
    && |b.rows| == |a.rows| && a.watermark <= b.watermark <= |b.rows|
    && (forall i :: a.watermark <= i < b.watermark ==>
          a.rows[i].status == Validated && b.rows[i].status == Finalized
          && b.rows[i].verdict == a.rows[i].verdict && !b.rows[i].held)
    && (b.watermark < |b.rows| ==> a.rows[b.watermark].status != Validated)
    && (forall i :: 0 <= i < |a.rows| && !(a.watermark <= i < b.watermark) ==> b.rows[i] == a.rows[i])
  }

  /** A settling transaction finalizes exactly the decided receipts after the watermark, up
      to the first undecided one, whatever their verdicts are. */
  lemma {:induction false} SettleReaches(l: State, v: nat)
    requires v < |l.versions| && Settle(l, v).Some? && l.versions[v].watermark <= |l.versions[v].rows|
    ensures var t := Settle(l, v).value; |t.versions| == |l.versions| && FinalizesAll(l.versions[v], t.versions[v])
    decreases |l.versions[v].rows| - l.versions[v].watermark
  {
    if Ready(l.versions[v]) {
      FinalizesOne(l, v);
      var next := Finalize(l, v);
      SettleReaches(next, v);
      OneThenRest(l.versions[v], next.versions[v], Settle(next, v).value.versions[v]);
    }
  }

  lemma OneThenRest(a: Version, b: Version, c: Version)
    requires a.watermark < |a.rows| == |b.rows| && b.watermark == a.watermark + 1
    requires b.rows == a.rows[a.watermark := b.rows[a.watermark]] && a.rows[a.watermark].status == Validated
    requires var row := b.rows[a.watermark];
             row.status == Finalized && !row.held && row.verdict == a.rows[a.watermark].verdict
    requires FinalizesAll(b, c)
    ensures FinalizesAll(a, c)
  {
    assert c.rows[a.watermark] == b.rows[a.watermark];
  }

  lemma FinalizesOne(l: State, v: nat)
    requires v < |l.versions| && Ready(l.versions[v])
    ensures var a, t := l.versions[v], Finalize(l, v);
            && |t.versions| == |l.versions|
            && var b, i := t.versions[v], a.watermark;
               && b.watermark == i + 1 && |b.rows| == |a.rows|
               && b.rows == a.rows[i := b.rows[i]] && b.rows[i].status == Finalized && !b.rows[i].held
               && b.rows[i].verdict == a.rows[i].verdict
  {
  }

  /** If the next receipt is valid and the evidence for a milestone it could win cannot be
      evaluated, the whole transaction is rolled back. */
  lemma FaultyBlocks(l: State, v: nat, m: Mid)
    requires v < |l.versions| && Ready(l.versions[v]) && l.versions[v].contract.evaluated
    requires m in l.versions[v].live && m !in l.claims
    requires var r := l.versions[v].rows[l.versions[v].watermark].verdict; r.valid && m in r.faulty
    ensures Adjudicate(l, v) == l
  {
  }

  /** Finalized receipts are public exactly when their owner asked for it or they won a milestone. */
  ghost predicate PublicOk(l: State, v: nat)
    requires v < |l.versions|
  {
    forall i :: 0 <= i < l.versions[v].watermark && i < |l.versions[v].rows| ==>
      (l.versions[v].rows[i].public <==> l.versions[v].rows[i].publish || Wins(l.claims, v, i))
  }

  /** Versions whose finalized rows and won milestones stay as they are. */
  lemma PublicKept(l: State, t: State, v: nat)
    requires v < |l.versions| <= |t.versions| && PublicOk(l, v) && t.claims == l.claims
    requires t.versions[v].watermark == l.versions[v].watermark <= |l.versions[v].rows| <= |t.versions[v].rows|
    requires forall i :: 0 <= i < l.versions[v].watermark ==> t.versions[v].rows[i] == l.versions[v].rows[i]
    ensures PublicOk(t, v)
  {
  }

  lemma FinalizePublic(l: State, w: nat, v: nat)
    requires Inv(l) && w < |l.versions| && Ready(l.versions[w]) && v < |l.versions| && PublicOk(l, v)
    ensures PublicOk(Finalize(l, w), v)
  {
    var t := Finalize(l, w);
    forall i | 0 <= i < t.versions[v].watermark && i < |t.versions[v].rows|
      ensures t.versions[v].rows[i].public <==> t.versions[v].rows[i].publish || Wins(t.claims, v, i)
    {
      FinalizeWins(l, w, v, i);
      if v == w && i == l.versions[v].watermark {
        NotYetWon(l, v, i);
      }
    }
  }

  lemma {:induction false} SettlePublic(l: State, w: nat, v: nat)
    requires Inv(l) && w < |l.versions| && v < |l.versions| && PublicOk(l, v) && Settle(l, w).Some?
    ensures v < |Settle(l, w).value.versions| && PublicOk(Settle(l, w).value, v)
    decreases if l.versions[w].watermark < |l.versions[w].rows| then |l.versions[w].rows| - l.versions[w].watermark
              else 0
  {
    if Ready(l.versions[w]) {
      FinalizePublic(l, w, v);
      FinalizeKeepsInv(l, w);
      SettlePublic(Finalize(l, w), w, v);
    }
  }

  lemma RowsPublic(l: State, s: Step, v: nat)
    requires v < |l.versions| && VersionOk(l.versions[v]) && PublicOk(l, v) && (s.DoAccept? || s.DoValidate?)
    ensures v < |Next(l, s).versions| && PublicOk(Next(l, s), v)
  {
    if s.DoValidate? && s.i < |l.versions[v].rows| {
      assert RowOk(l.versions[v], s.i);
    }
    PublicKept(l, Next(l, s), v);
  }

  lemma PublicizePublic(l: State, w: nat, i: nat, v: nat)
    requires v < |l.versions| && VersionOk(l.versions[v]) && PublicOk(l, v)
    ensures v < |Publicize(l, w, i).versions| && PublicOk(Publicize(l, w, i), v)
  {
  }

  lemma StepPublic(l: State, s: Step, v: nat)
    requires Inv(l) && v < |l.versions| && PublicOk(l, v)
    ensures v < |Next(l, s).versions| && PublicOk(Next(l, s), v)
  {
    assert VersionOk(l.versions[v]);
    if s.DoAdjudicate? {
      if s.v < |l.versions| && Settle(l, s.v).Some? {
        SettlePublic(l, s.v, v);
      }
    } else if s.DoAccept? || s.DoValidate? {
      RowsPublic(l, s, v);
    } else if s.DoPublicize? {
      PublicizePublic(l, s.v, s.i, v);
    } else {
      LifePublic(l, s, v);
    }
  }

  lemma LifePublic(l: State, s: Step, v: nat)
    requires v < |l.versions| && l.versions[v].watermark <= |l.versions[v].rows| && PublicOk(l, v)
    requires s.DoChallenge? || s.DoVersion? || s.DoPublish? || s.DoComplete? || s.DoAct? || s.DoIncident?
    ensures v < |Next(l, s).versions| && PublicOk(Next(l, s), v)
  {
    LifeLeavesFrontier(l, s, v);
    LifeLeavesWatermark(l, s, v);
    PublicKept(l, Next(l, s), v);
  }

  /** In every run a finalized receipt is public exactly when its owner asked for it, before
      or after, or it won a milestone. */
  lemma {:induction false} PublicExactly(maximum: nat, steps: seq<Step>, v: nat)
    requires v < |Run(maximum, steps).versions|
    ensures PublicOk(Run(maximum, steps), v)
  {
    var shorter, last := steps[..|steps| - 1], steps[|steps| - 1];
    var l := Run(maximum, shorter);
    RunKeepsInv(maximum, shorter);
    if v < |l.versions| {
      PublicExactly(maximum, shorter, v);
      StepPublic(l, last, v);
    } else {
      NewVersionIsFresh(l, last, v);
    }
  }
}

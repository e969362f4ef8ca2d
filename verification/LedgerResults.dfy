/** The main results about the ledger, for every run. */
module LedgerResults {
  import opened Wrappers
  import opened Ticks
  import opened Scores
  import opened Ledger
  import opened LedgerSafety

  // ---------------------------------------------------------------- persistence

  /** Finalized receipts keep their verdict, stay finalized and stay public. */
  ghost predicate Persists(version: Version, next: Version) {
    && next.contract == version.contract && version.live <= next.live && version.watermark <= next.watermark
    && |version.rows| <= |next.rows|
    && (version.rows != [] ==> next.live == version.live)
    && next.challenge == version.challenge && next.kind == version.kind && next.predecessor == version.predecessor
    && next.priorFrontier == version.priorFrontier
    && forall i :: 0 <= i < version.watermark && i < |version.rows| ==>
         next.rows[i].verdict == version.rows[i].verdict && (version.rows[i].public ==> next.rows[i].public)
  }

  /** Versions stay, and a claim is never moved or withdrawn. */
  ghost predicate AllPersist(l: State, t: State) {
    && |l.versions| <= |t.versions| && (forall v :: 0 <= v < |l.versions| ==> Persists(l.versions[v], t.versions[v]))
    && (forall m :: m in l.claims ==> m in t.claims && t.claims[m] == l.claims[m])
  }

  lemma FinalizePersists(l: State, v: nat)
    requires v < |l.versions| && Ready(l.versions[v])
    ensures AllPersist(l, Finalize(l, v))
  {
  }

  lemma PersistsTransitive(a: State, b: State, c: State)
    requires AllPersist(a, b) && AllPersist(b, c)
    ensures AllPersist(a, c)
  {
    forall v | 0 <= v < |a.versions|
      ensures Persists(a.versions[v], c.versions[v])
    {
      assert Persists(a.versions[v], b.versions[v]) && Persists(b.versions[v], c.versions[v]);
    }
  }

  lemma {:induction false} SettlePersists(l: State, v: nat)
    requires v < |l.versions| && Settle(l, v).Some?
    ensures AllPersist(l, Settle(l, v).value)
    decreases if l.versions[v].watermark < |l.versions[v].rows| then |l.versions[v].rows| - l.versions[v].watermark
              else 0
  {
    if Ready(l.versions[v]) {
      FinalizePersists(l, v);
      SettlePersists(Finalize(l, v), v);
      PersistsTransitive(l, Finalize(l, v), Settle(l, v).value);
    }
  }

  lemma PutPersists(l: State, v: nat, t: State)
    requires v < |l.versions| && |t.versions| == |l.versions| && t.claims == l.claims
             && Persists(l.versions[v], t.versions[v])
    requires forall w :: 0 <= w < |l.versions| && w != v ==> t.versions[w] == l.versions[w]
    ensures AllPersist(l, t)
  {
  }

  ghost predicate VersionsOk(l: State) { forall v :: 0 <= v < |l.versions| ==> VersionOk(l.versions[v]) }

  lemma CompletePersists(l: State, v: nat)
    requires VersionsOk(l)
    ensures AllPersist(l, CompleteMigration(l, v))
  {
    if CompleteMigration(l, v) != l {
      assert VersionOk(l.versions[v]);
    }
  }

  lemma ValidatePersists(l: State, v: nat, i: nat, verdict: Verdict, pause: bool)
    requires VersionsOk(l)
    ensures AllPersist(l, Validate(l, v, i, verdict, pause))
  {
    var t := Validate(l, v, i, verdict, pause);
    if t != l {
      assert VersionOk(l.versions[v]) && RowOk(l.versions[v], i);
      PutPersists(l, v, t);
    }
  }

  lemma VersionPersists(l: State, prior: nat, kind: Kind, c: Contract)
    ensures AllPersist(l, CreateVersion(l, prior, kind, c))
  {
  }

  lemma AdjudicatePersists(l: State, v: nat)
    ensures AllPersist(l, Adjudicate(l, v))
  {
    if v < |l.versions| && Settle(l, v).Some? {
      SettlePersists(l, v);
    }
  }

  lemma ChallengePersists(l: State, challenge: nat, c: Contract)
    ensures AllPersist(l, CreateChallenge(l, challenge, c))
  {
  }

  lemma PublishPersists(l: State, v: nat)
    ensures AllPersist(l, Publish(l, v))
  {
    if Publish(l, v) != l {
      PutPersists(l, v, Publish(l, v));
    }
  }

  lemma ActPersists(l: State, v: nat, a: Action)
    ensures AllPersist(l, Act(l, v, a))
  {
    if v < |l.versions| {
      PutPersists(l, v, Act(l, v, a));
    }
  }

  lemma RowsPersist(l: State, v: nat, i: nat, publish: bool)
    ensures AllPersist(l, Accept(l, v, publish)) && AllPersist(l, Incident(l, v, i))
            && AllPersist(l, Publicize(l, v, i))
  {
    if v < |l.versions| {
      PutPersists(l, v, Accept(l, v, publish));
      PutPersists(l, v, Incident(l, v, i));
      PutPersists(l, v, Publicize(l, v, i));
    }
  }

  lemma NextPersists(l: State, s: Step)
    requires VersionsOk(l)
    ensures AllPersist(l, Next(l, s))
  {
    match s
    case DoAdjudicate(v) => AdjudicatePersists(l, v);
    case DoValidate(v, i, verdict, pause) => ValidatePersists(l, v, i, verdict, pause);
    case DoComplete(v) => CompletePersists(l, v);
    case DoChallenge(challenge, c) => ChallengePersists(l, challenge, c);
    case DoVersion(prior, kind, c) => VersionPersists(l, prior, kind, c);
    case DoPublish(v) => PublishPersists(l, v);
    case DoAct(v, a) => ActPersists(l, v, a);
    case DoAccept(v, publish) => RowsPersist(l, v, 0, publish);
    case DoIncident(v, i) => RowsPersist(l, v, i, false);
    case DoPublicize(v, i) => RowsPersist(l, v, i, false);
  }

  /** A receipt once finalized and a claim once made stand for good. */
  lemma {:induction false} ClaimsPermanent(maximum: nat, steps: seq<Step>, n: nat)
    requires n <= |steps|
    ensures AllPersist(Run(maximum, steps[..n]), Run(maximum, steps))
  {
    if n == |steps| {
      assert steps[..n] == steps;
    } else {
      var shorter := steps[..|steps| - 1];
      assert shorter[..n] == steps[..n];
      ClaimsPermanent(maximum, shorter, n);
      RunKeepsInv(maximum, shorter);
      NextPersists(Run(maximum, shorter), steps[|steps| - 1]);
      PersistsTransitive(Run(maximum, steps[..n]), Run(maximum, shorter), Run(maximum, steps));
    }
  }

  // ------------------------------------------------------------------ capacity

  /** Reserved units are twice the receipts not yet finalized, never more than the
      maximum, and a receipt's reservation is held exactly until it is finalized. */
  lemma CapacityConserved(maximum: nat, steps: seq<Step>)
    ensures var l := Run(maximum, steps);
            && l.reserved == 2 * Outstanding(l.versions) && l.reserved <= maximum
            && forall v, i :: 0 <= v < |l.versions| && 0 <= i < |l.versions[v].rows| ==>
                 (l.versions[v].rows[i].held <==> i >= l.versions[v].watermark)
  {
    RunKeepsInv(maximum, steps);
    var l := Run(maximum, steps);
    forall v, i | 0 <= v < |l.versions| && 0 <= i < |l.versions[v].rows|
      ensures l.versions[v].rows[i].held <==> i >= l.versions[v].watermark
    {
      assert VersionOk(l.versions[v]) && RowOk(l.versions[v], i);
    }
  }

  /** A released reservation is never held again, so each is released exactly once. */
  lemma ReleasedOnce(maximum: nat, steps: seq<Step>, n: nat, v: nat, i: nat)
    requires n <= |steps| && v < |Run(maximum, steps[..n]).versions| && i < |Run(maximum, steps[..n]).versions[v].rows|
    requires !Run(maximum, steps[..n]).versions[v].rows[i].held
    ensures v < |Run(maximum, steps).versions| && i < |Run(maximum, steps).versions[v].rows|
            && !Run(maximum, steps).versions[v].rows[i].held
  {
    ClaimsPermanent(maximum, steps, n);
    CapacityConserved(maximum, steps[..n]);
    CapacityConserved(maximum, steps);
    assert Persists(Run(maximum, steps[..n]).versions[v], Run(maximum, steps).versions[v]);
  }

  // ------------------------------------------------------- order independence

  /** The verified best is the earliest best receipt among those below the watermark,
      in whatever order verdicts arrived and however adjudication was batched. */
  lemma BestIsFold(maximum: nat, steps: seq<Step>, v: nat)
    requires v < |Run(maximum, steps).versions|
    ensures var version := Run(maximum, steps).versions[v];
            && version.watermark <= |version.rows|
            && version.best == FoldBest(version.contract, version.rows, version.watermark)
            && forall i :: 0 <= i < |version.rows| ==> (version.rows[i].status == Finalized <==> i < version.watermark)
  {
    RunKeepsInv(maximum, steps);
    var version := Run(maximum, steps).versions[v];
    assert VersionOk(version);
    forall i | 0 <= i < |version.rows|
      ensures version.rows[i].status == Finalized <==> i < version.watermark
    {
      assert RowOk(version, i);
    }
  }

  /** Version v holds milestone m and its receipt i reaches it. */
  predicate Earned(l: State, v: nat, m: Mid, i: nat) {
    v < |l.versions| && m in l.versions[v].live && Reached(l.versions[v], m, i)
  }

  /** In every run a milestone is claimed exactly when some finalized receipt reaches it
      in a version where it is live, and the claim is the first such receipt of its version. */
  lemma ClaimsAreFirst(maximum: nat, steps: seq<Step>, m: Mid)
    ensures var l := Run(maximum, steps);
            && (m in l.claims <==> exists v: nat, i: nat :: Earned(l, v, m, i))
            && (m in l.claims ==>
                l.claims[m].0 < |l.versions| && FirstReaching(l.versions[l.claims[m].0], m, l.claims[m].1))
  {
    RunKeepsInv(maximum, steps);
    var l := Run(maximum, steps);
    if m in l.claims {
      assert ClaimOk(l, m);
      assert Earned(l, l.claims[m].0, m, l.claims[m].1);
    }
    if v: nat, i: nat :| Earned(l, v, m, i) {
      assert NoneMissed(l, v);
    }
  }

  /** Same contract, same mapping, same receipts up to the same watermark. */
  ghost predicate SameReceipts(a: Version, b: Version) {
    && a.contract == b.contract && a.live == b.live && a.watermark == b.watermark <= |a.rows| && a.watermark <= |b.rows|
    && forall i :: 0 <= i < a.watermark ==> a.rows[i].verdict == b.rows[i].verdict
  }

  /** Two runs that finalized the same receipts of a version agree on its best, however
      verdicts arrived and adjudication was batched in either. */
  lemma OrderIndependent(maximum: nat, steps: seq<Step>, max': nat, steps': seq<Step>, v: nat, v': nat)
    requires v < |Run(maximum, steps).versions| && v' < |Run(max', steps').versions|
    requires SameReceipts(Run(maximum, steps).versions[v], Run(max', steps').versions[v'])
    ensures Run(maximum, steps).versions[v].best == Run(max', steps').versions[v'].best
  {
    BestIsFold(maximum, steps, v);
    BestIsFold(max', steps', v');
    var a, b := Run(maximum, steps).versions[v], Run(max', steps').versions[v'];
    FoldFrame(a.contract, a.rows, b.rows, a.watermark);
  }

  lemma FirstUnique(a: Version, b: Version, m: Mid, i: nat, j: nat)
    requires SameReceipts(a, b) && FirstReaching(a, m, i) && FirstReaching(b, m, j)
    ensures i == j
  {
  }

  // ------------------------------------------------------------------ frontier

  /** The public frontier in every reachable state: a finalized, valid, public receipt,
      never ahead of the verified best, at least the delta ahead of the baseline, and
      beaten by the delta by no public valid receipt. */
  lemma FrontierHolds(maximum: nat, steps: seq<Step>, v: nat)
    requires v < |Run(maximum, steps).versions|
    ensures FrontierOk(Run(maximum, steps).versions[v])
    ensures var version := Run(maximum, steps).versions[v];
            version.frontier.Some? ==>
              version.frontier.value < |version.rows| && version.rows[version.frontier.value].status == Finalized
  {
    RunKeepsInv(maximum, steps);
    var version := Run(maximum, steps).versions[v];
    assert VersionOk(version);
    if version.frontier.Some? {
      assert RowOk(version, version.frontier.value);
    }
  }

  function FrontierValue(version: Version): int { ValueOf(version.contract, version.rows, version.frontier) }

  /** The frontier either stays where it is or moves to a receipt ahead by the delta. */
  predicate Advances(version: Version, next: Version) {
    next.contract == version.contract
    && ((next.frontier == version.frontier && FrontierValue(next) == FrontierValue(version))
        || Meaningful(FrontierValue(next), FrontierValue(version), version.contract.delta, version.contract.direction))
  }

  lemma AdvancesTransitive(a: Version, b: Version, c: Version)
    requires ValidContract(a.contract) && Advances(a, b) && Advances(b, c)
    ensures Advances(a, c)
  {
  }

  lemma FinalizeAdvances(l: State, v: nat)
    requires v < |l.versions| && Ready(l.versions[v]) && VersionOk(l.versions[v])
    ensures Advances(l.versions[v], Finalize(l, v).versions[v])
    ensures forall w :: 0 <= w < |l.versions| && w != v ==> Finalize(l, v).versions[w] == l.versions[w]
  {
  }

  lemma {:induction false} SettleAdvances(l: State, v: nat)
    requires v < |l.versions| && VersionOk(l.versions[v]) && Settle(l, v).Some?
    ensures |Settle(l, v).value.versions| == |l.versions| && Advances(l.versions[v], Settle(l, v).value.versions[v])
    ensures forall w :: 0 <= w < |l.versions| && w != v ==> Settle(l, v).value.versions[w] == l.versions[w]
    decreases if l.versions[v].watermark < |l.versions[v].rows| then |l.versions[v].rows| - l.versions[v].watermark
              else 0
  {
    if Ready(l.versions[v]) {
      FinalizeAdvances(l, v);
      FinalizeVersionOk(l, v);
      SettleAdvances(Finalize(l, v), v);
      AdvancesTransitive(l.versions[v], Finalize(l, v).versions[v], Settle(l, v).value.versions[v]);
    }
  }

  /** Steps of the life cycle leave rows and frontier alone. */
  lemma LifeLeavesFrontier(l: State, s: Step, v: nat)
    requires v < |l.versions| && (s.DoChallenge? || s.DoVersion? || s.DoPublish? || s.DoComplete? || s.DoAct?
                                  || s.DoIncident?)
    ensures v < |Next(l, s).versions|
    ensures var a, b := l.versions[v], Next(l, s).versions[v];
            b.rows == a.rows && b.frontier == a.frontier && b.contract == a.contract
  {
    match s
    case DoPublish(w) =>
    case DoComplete(w) =>
    case _ =>
  }

  lemma RowsAdvance(l: State, s: Step, v: nat)
    requires v < |l.versions| && VersionOk(l.versions[v]) && (s.DoAccept? || s.DoValidate? || s.DoPublicize?)
    ensures v < |Next(l, s).versions| && Advances(l.versions[v], Next(l, s).versions[v])
  {
    if s.DoValidate? && s.i < |l.versions[v].rows| {
      assert RowOk(l.versions[v], s.i);
    }
  }

  /** Every transaction that moves a public frontier gains at least the minimum delta,
      whether adjudication or the owner's publication moves it. */
  lemma FrontierAdvancesByDelta(maximum: nat, steps: seq<Step>, s: Step, v: nat)
    requires v < |Run(maximum, steps).versions|
    ensures var l := Run(maximum, steps); v < |Next(l, s).versions| && Advances(l.versions[v], Next(l, s).versions[v])
  {
    RunKeepsInv(maximum, steps);
    StepAdvances(Run(maximum, steps), s, v);
  }

  lemma StepAdvances(l: State, s: Step, v: nat)
    requires Inv(l) && v < |l.versions|
    ensures v < |Next(l, s).versions| && Advances(l.versions[v], Next(l, s).versions[v])
  {
    assert VersionOk(l.versions[v]);
    if s.DoAdjudicate? {
      if s.v < |l.versions| && Settle(l, s.v).Some? {
        SettleAdvances(l, s.v);
      }
    } else if s.DoAccept? || s.DoValidate? || s.DoPublicize? {
      RowsAdvance(l, s, v);
    } else {
      LifeLeavesFrontier(l, s, v);
    }
  }

  /** The texts a claim is admitted with: a metric that spells the version's contract,
      and the published frontier, empty when there is none. */
  ghost predicate Spells(metric: Metric, text: string, version: Version) {
    && ValidMetric(metric) && metric.direction == version.contract.direction
    && ParseTicks(metric.baselineTicks) == Some(version.contract.baseline)
    && ParseTicks(metric.minimumDeltaTicks) == Some(version.contract.delta)
    && if version.frontier.None? then text == "" else text != "" && ParseTicks(text) == Some(FrontierValue(version))
  }

  /** Claim admission measures against the same frontier, with the same test, as
      adjudication. */
  lemma AdmissionUsesFrontier(maximum: nat, steps: seq<Step>, v: nat, metric: Metric, text: string, score: string)
    requires v < |Run(maximum, steps).versions| && Spells(metric, text, Run(maximum, steps).versions[v])
             && ParseTicks(score).Some?
    ensures var version := Run(maximum, steps).versions[v];
            && ParseTicks(AdmissionFrontier(metric, text)) == Some(FrontierValue(version))
            && (FrontierImprovement(score, AdmissionFrontier(metric, text), metric)
                <==> Meaningful(ParseTicks(score).value, FrontierValue(version), version.contract.delta,
                                version.contract.direction))
  {
    FrontierHolds(maximum, steps, v);
    AdmissionAgrees(score, text, metric);
  }
}

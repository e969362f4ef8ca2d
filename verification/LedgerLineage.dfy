/** Milestones that move from version to version: where a milestone is live, which of
    those versions can still win it, and when a predecessor cannot. */
module LedgerLineage {
  import opened Wrappers
  import opened Ledger
  import opened LedgerSafety
  import opened LedgerResults
  import opened LedgerVersions

  // -------------------------------------------------------- who holds a milestone

  predicate Holds(l: State, v: nat, m: Mid) { v < |l.versions| && m in l.versions[v].live }

  /** A milestone of the manifest that is still to be transferred. */
  predicate Awaits(l: State, v: nat, m: Mid) {
    v < |l.versions| && m in l.versions[v].contract.milestones && m !in l.versions[v].live
  }

  /** The predecessor is an earlier version of the same challenge. */
  predicate PredecessorOk(l: State, v: nat)
    requires v < |l.versions|
  {
    var p := l.versions[v].predecessor;
    && (l.versions[v].kind == Security ==> p.Some?)
    && (p.Some? ==> p.value < v && l.versions[p.value].challenge == l.versions[v].challenge)
  }

  /** A milestone lives in the challenge that introduced it, and came from the
      predecessor unless the version introduced it itself. */
  predicate HolderOk(l: State, v: nat, m: Mid)
    requires Holds(l, v, m)
  {
    && m in l.tiers && l.tiers[m] < |l.versions| && l.versions[l.tiers[m]].challenge == l.versions[v].challenge
    && (l.tiers[m] == v || (l.versions[v].predecessor.Some? && Holds(l, l.versions[v].predecessor.value, m)))
  }

  /** A milestone still to be transferred is held by the predecessor and by no later version. */
  ghost predicate AwaitOk(l: State, v: nat, m: Mid)
    requires Awaits(l, v, m)
  {
    && l.versions[v].kind == Security && l.versions[v].predecessor.Some?
    && Holds(l, l.versions[v].predecessor.value, m)
    && forall u: nat :: Holds(l, u, m) ==> u <= l.versions[v].predecessor.value
  }

  predicate SamePredecessor(l: State, v: nat, w: nat)
    requires v < |l.versions| && w < |l.versions|
  {
    l.versions[v].predecessor.Some? && l.versions[v].predecessor == l.versions[w].predecessor
  }

  ghost predicate Lineage(l: State) {
    && (forall v :: 0 <= v < |l.versions| ==> PredecessorOk(l, v))
    && (forall v, w :: 0 <= v < |l.versions| && 0 <= w < |l.versions| && SamePredecessor(l, v, w) ==> v == w)
    && (forall v: nat, m :: Holds(l, v, m) ==> HolderOk(l, v, m))
    && (forall v: nat, m :: Awaits(l, v, m) ==> AwaitOk(l, v, m))
  }

  /** What a version is: nothing but its live milestones ever changes here. */
  predicate SameIdentity(a: Version, b: Version) {
    b.challenge == a.challenge && b.kind == a.kind && b.predecessor == a.predecessor && b.contract == a.contract
  }

  ghost predicate AllSame(l: State, t: State) {
    && |t.versions| == |l.versions| && t.tiers == l.tiers
    && forall v :: 0 <= v < |l.versions| ==>
         SameIdentity(l.versions[v], t.versions[v]) && t.versions[v].live == l.versions[v].live
  }

  lemma SameKeepsLineage(l: State, t: State)
    requires Lineage(l) && AllSame(l, t)
    ensures Lineage(t)
  {
    forall v | 0 <= v < |t.versions|
      ensures PredecessorOk(t, v)
    {
      assert PredecessorOk(l, v);
    }
    forall v, w | 0 <= v < |t.versions| && 0 <= w < |t.versions| && SamePredecessor(t, v, w)
      ensures v == w
    {
      assert SamePredecessor(l, v, w);
    }
    forall v: nat, m | Holds(t, v, m)
      ensures HolderOk(t, v, m)
    {
      assert Holds(l, v, m) && HolderOk(l, v, m);
    }
    forall v: nat, m | Awaits(t, v, m)
      ensures AwaitOk(t, v, m)
    {
      assert Awaits(l, v, m) && AwaitOk(l, v, m);
      forall u: nat | Holds(t, u, m)
        ensures u <= t.versions[v].predecessor.value
      {
        assert Holds(l, u, m);
      }
    }
  }

  // --------------------------------------------------------- a version is added

  /** One more version at the end, holding new milestones only. */
  ghost predicate Adds(l: State, t: State, introduced: set<Mid>) {
    && |t.versions| == |l.versions| + 1 && introduced !! l.tiers.Keys
    && t.tiers == l.tiers + (map m | m in introduced :: |l.versions|)
    && (forall v :: 0 <= v < |l.versions| ==>
        SameIdentity(l.versions[v], t.versions[v]) && t.versions[v].live == l.versions[v].live)
    && t.versions[|l.versions|].live == introduced
  }

  lemma AddKeepsHolders(l: State, t: State, introduced: set<Mid>, v: nat, m: Mid)
    requires Lineage(l) && TiersOk(l) && Adds(l, t, introduced) && Holds(t, v, m)
    ensures HolderOk(t, v, m)
  {
    if v < |l.versions| {
      assert Holds(l, v, m) && HolderOk(l, v, m);
    }
  }

  lemma AddKeepsAwaits(l: State, t: State, introduced: set<Mid>, v: nat, m: Mid)
    requires Lineage(l) && TiersOk(l) && Adds(l, t, introduced) && Awaits(t, v, m) && v < |l.versions|
    ensures AwaitOk(t, v, m)
  {
    assert Awaits(l, v, m) && AwaitOk(l, v, m);
    forall u: nat | Holds(t, u, m)
      ensures u <= t.versions[v].predecessor.value
    {
      assert u < |l.versions| ==> Holds(l, u, m);
    }
  }

  lemma AddKeepsLineage(l: State, t: State, introduced: set<Mid>)
    requires Lineage(l) && TiersOk(l) && Adds(l, t, introduced)
    requires PredecessorOk(t, |l.versions|)
    requires forall v :: 0 <= v < |l.versions| ==> !SamePredecessor(t, |l.versions|, v)
    requires forall m :: Awaits(t, |l.versions|, m) ==> AwaitOk(t, |l.versions|, m)
    ensures Lineage(t)
  {
    forall v | 0 <= v < |t.versions|
      ensures PredecessorOk(t, v)
    {
      assert v < |l.versions| ==> PredecessorOk(l, v);
    }
    forall v, w | 0 <= v < |t.versions| && 0 <= w < |t.versions| && SamePredecessor(t, v, w)
      ensures v == w
    {
      if v < |l.versions| && w < |l.versions| {
        assert SamePredecessor(l, v, w);
      } else if v < |l.versions| {
        assert SamePredecessor(t, w, v);
      }
    }
    forall v: nat, m | Holds(t, v, m)
      ensures HolderOk(t, v, m)
    {
      AddKeepsHolders(l, t, introduced, v, m);
    }
    forall v: nat, m | Awaits(t, v, m)
      ensures AwaitOk(t, v, m)
    {
      if v < |l.versions| {
        AddKeepsAwaits(l, t, introduced, v, m);
      }
    }
  }

  /** The predecessor of a new version is the latest of its challenge, so it has no
      other successor. */
  lemma NoOtherSuccessor(l: State, prior: nat, v: nat)
    requires Lineage(l) && prior < |l.versions| && Latest(l, prior, l.versions[prior].challenge) && v < |l.versions|
    ensures l.versions[v].predecessor != Some(prior)
  {
    assert PredecessorOk(l, v);
  }

  /** And it is the last holder of every milestone that it can pass on. */
  lemma LatestHolds(l: State, prior: nat, m: Mid, u: nat)
    requires Lineage(l) && prior < |l.versions| && Latest(l, prior, l.versions[prior].challenge)
    requires Transferable(l, prior, m) && Holds(l, u, m)
    ensures u <= prior
  {
    assert HolderOk(l, u, m);
  }

  lemma CreateKeepsLineage(l: State, prior: nat, kind: Kind, c: Contract)
    requires Lineage(l) && TiersOk(l)
    ensures Lineage(CreateVersion(l, prior, kind, c))
  {
    var t := CreateVersion(l, prior, kind, c);
    if |t.versions| > |l.versions| {
      var n := |l.versions|;
      var introduced := set m | m in c.milestones && m !in l.tiers;
      assert Adds(l, t, introduced);
      forall v | 0 <= v < n
        ensures !SamePredecessor(t, n, v)
      {
        NoOtherSuccessor(l, prior, v);
      }
      forall m | Awaits(t, n, m)
        ensures AwaitOk(t, n, m)
      {
        NewAwaitOk(l, t, prior, kind, c, m);
      }
      AddKeepsLineage(l, t, introduced);
    }
  }

  lemma NewAwaitOk(l: State, t: State, prior: nat, kind: Kind, c: Contract, m: Mid)
    requires Lineage(l) && t == CreateVersion(l, prior, kind, c) && |t.versions| > |l.versions|
             && Awaits(t, |l.versions|, m)
    ensures AwaitOk(t, |l.versions|, m)
  {
    assert kind == Security && Transferable(l, prior, m);
    forall u: nat | Holds(t, u, m)
      ensures u <= prior
    {
      assert Holds(l, u, m);
      LatestHolds(l, prior, m, u);
    }
  }

  lemma ChallengeKeepsLineage(l: State, challenge: nat, c: Contract)
    requires Lineage(l) && TiersOk(l)
    ensures Lineage(CreateChallenge(l, challenge, c))
  {
    var t := CreateChallenge(l, challenge, c);
    if |t.versions| > |l.versions| {
      assert Adds(l, t, c.milestones.Keys);
      AddKeepsLineage(l, t, c.milestones.Keys);
    }
  }

  // ------------------------------------------------------- a migration completes

  /** The migration of v succeeds in this state. */
  predicate Completes(l: State, v: nat) {
    v < |l.versions| && l.versions[v].status == Signing && |CompleteMigration(l, v).versions| == |l.versions|
    && CompleteMigration(l, v).versions[v].status == Published
  }

  lemma CompletesShape(l: State, v: nat)
    requires Completes(l, v)
    ensures l.versions[v].predecessor.Some? && l.versions[v].predecessor.value < v
    ensures var p := l.versions[v].predecessor.value;
            var t := CompleteMigration(l, v);
            && t == l.(versions := l.versions[p := Supersede(l.versions[p])][v := t.versions[v]])
            && t.versions[v] == l.versions[v].(status := Published, intake := Open,
                                               live := l.versions[v].live + l.versions[v].contract.milestones.Keys)
            && Drained(l.versions[p])
            && forall m :: m in l.versions[v].contract.milestones ==> m !in l.claims
  {
  }

  /** Two versions never wait for the same milestone. */
  lemma OneAwaits(l: State, v: nat, w: nat, m: Mid)
    requires Lineage(l) && Awaits(l, v, m) && Awaits(l, w, m)
    ensures v == w
  {
    assert AwaitOk(l, v, m) && AwaitOk(l, w, m);
    assert SamePredecessor(l, v, w);
  }

  lemma CompleteKeepsLineage(l: State, v: nat)
    requires Lineage(l) && TiersOk(l) && Completes(l, v)
    ensures Lineage(CompleteMigration(l, v))
  {
    CompletesShape(l, v);
    var t := CompleteMigration(l, v);
    forall w | 0 <= w < |t.versions|
      ensures PredecessorOk(t, w)
    {
      assert PredecessorOk(l, w);
    }
    forall u, w | 0 <= u < |t.versions| && 0 <= w < |t.versions| && SamePredecessor(t, u, w)
      ensures u == w
    {
      assert SamePredecessor(l, u, w);
    }
    forall w: nat, m | Holds(t, w, m)
      ensures HolderOk(t, w, m)
    {
      CompletedHolder(l, v, t, w, m);
    }
    forall w: nat, m | Awaits(t, w, m)
      ensures AwaitOk(t, w, m)
    {
      CompletedAwait(l, v, t, w, m);
    }
  }

  /** The versions after a completed migration, up to status and intake. */
  ghost predicate Moved(l: State, v: nat, t: State) {
    && v < |l.versions| == |t.versions| && t.tiers == l.tiers
    && (forall w :: 0 <= w < |l.versions| ==> SameIdentity(l.versions[w], t.versions[w]))
    && (forall w :: 0 <= w < |l.versions| && w != v ==> t.versions[w].live == l.versions[w].live)
    && t.versions[v].live == l.versions[v].live + l.versions[v].contract.milestones.Keys
  }

  lemma CompletedHolder(l: State, v: nat, t: State, w: nat, m: Mid)
    requires Lineage(l) && Moved(l, v, t) && Holds(t, w, m)
    ensures HolderOk(t, w, m)
  {
    if w == v && !Holds(l, v, m) {
      assert Awaits(l, v, m) && AwaitOk(l, v, m);
      var p := l.versions[v].predecessor.value;
      assert HolderOk(l, p, m) && PredecessorOk(l, v);
      assert Holds(t, p, m);
    } else {
      assert Holds(l, w, m) && HolderOk(l, w, m);
      if l.tiers[m] != w {
        assert Holds(t, l.versions[w].predecessor.value, m);
      }
    }
  }

  lemma CompletedAwait(l: State, v: nat, t: State, w: nat, m: Mid)
    requires Lineage(l) && Moved(l, v, t) && Awaits(t, w, m)
    ensures AwaitOk(t, w, m)
  {
    assert w != v && Awaits(l, w, m) && AwaitOk(l, w, m);
    assert Holds(t, l.versions[w].predecessor.value, m);
    forall u: nat | Holds(t, u, m)
      ensures u <= t.versions[w].predecessor.value
    {
      if !Holds(l, u, m) {
        assert u == v && Awaits(l, v, m);
        OneAwaits(l, v, w, m);
      }
    }
  }

  // --------------------------------------------------------------------- runs

  lemma OtherStepsSame(l: State, s: Step)
    requires !s.DoChallenge? && !s.DoVersion? && !s.DoAdjudicate? && (s.DoComplete? ==> !Completes(l, s.v))
    ensures AllSame(l, Next(l, s))
  {
    match s
    case DoAct(v, a) => ActSame(l, v, a);
    case DoPublish(v) => PublishSame(l, v);
    case DoComplete(v) => RefusedSame(l, v);
    case _ => RowStepsSame(l, s);
  }

  lemma PublishSame(l: State, v: nat)
    ensures AllSame(l, Publish(l, v))
  {
  }

  lemma RefusedSame(l: State, v: nat)
    requires !Completes(l, v)
    ensures CompleteMigration(l, v) == l
  {
  }

  lemma RowStepsSame(l: State, s: Step)
    requires s.DoAccept? || s.DoValidate? || s.DoIncident? || s.DoPublicize?
    ensures AllSame(l, Next(l, s))
  {
  }

  lemma ActSame(l: State, v: nat, a: Action)
    ensures AllSame(l, Act(l, v, a))
  {
  }

  lemma {:induction false} SettleSame(l: State, v: nat)
    requires v < |l.versions| && Settle(l, v).Some?
    ensures AllSame(l, Settle(l, v).value)
    decreases if l.versions[v].watermark < |l.versions[v].rows| then |l.versions[v].rows| - l.versions[v].watermark
              else 0
  {
    if Ready(l.versions[v]) {
      SettleSame(Finalize(l, v), v);
    }
  }

  lemma NextKeepsLineage(l: State, s: Step)
    requires Lineage(l) && TiersOk(l)
    ensures Lineage(Next(l, s))
  {
    if s.DoChallenge? {
      ChallengeKeepsLineage(l, s.challenge, s.contract);
    } else if s.DoVersion? {
      CreateKeepsLineage(l, s.prior, s.kind, s.contract);
    } else if s.DoComplete? && Completes(l, s.v) {
      CompleteKeepsLineage(l, s.v);
    } else {
      if !s.DoAdjudicate? {
        OtherStepsSame(l, s);
      } else if s.v < |l.versions| && Settle(l, s.v).Some? {
        SettleSame(l, s.v);
      }
      SameKeepsLineage(l, Next(l, s));
    }
  }

  lemma {:induction false} RunKeepsLineage(maximum: nat, steps: seq<Step>)
    ensures Lineage(Run(maximum, steps))
  {
    if steps != [] {
      RunKeepsInv(maximum, steps[..|steps| - 1]);
      RunKeepsLineage(maximum, steps[..|steps| - 1]);
      NextKeepsLineage(Run(maximum, steps[..|steps| - 1]), steps[|steps| - 1]);
    }
  }

  // ------------------------------------------------------- rivals for a milestone

  /** The version can never win m again: it is out of use and none of its receipts reaches m. */
  ghost predicate Spent(l: State, v: nat, m: Mid) {
    v < |l.versions| && Retired(l.versions[v]) && forall i: nat :: !Reached(l.versions[v], m, i)
  }

  /** Of the versions that hold a milestone only the last can win it. */
  ghost predicate Exclusive(l: State) {
    forall v: nat, w: nat, m :: v < w && Holds(l, v, m) && Holds(l, w, m) ==> Spent(l, v, m)
  }

  lemma SameReached(a: Version, b: Version, m: Mid)
    requires SameDecisions(a, b) && a.contract == b.contract
    ensures forall i: nat :: Reached(a, m, i) <==> Reached(b, m, i)
  {
  }

  lemma SpentKept(l: State, s: Step, v: nat, m: Mid)
    requires VersionsOk(l) && Spent(l, v, m)
    ensures Spent(Next(l, s), v, m)
  {
    assert VersionOk(l.versions[v]);
    StepKeepsRetired(l, s, v);
    NextPersists(l, s);
    assert Persists(l.versions[v], Next(l, s).versions[v]);
    SameReached(l.versions[v], Next(l, s).versions[v], m);
  }

  /** The migration's predecessor was locked. */
  predicate LockedStep(l: State, s: Step) {
    s.DoComplete? && Completes(l, s.v) && l.versions[s.v].predecessor.Some?
    && l.versions[s.v].predecessor.value < |l.versions| ==>
      l.versions[l.versions[s.v].predecessor.value].locked
  }

  /** A milestone starts to be live in a version only when it is new, or by a migration. */
  lemma NewHolder(l: State, s: Step, u: nat, m: Mid)
    requires TiersOk(l) && Holds(Next(l, s), u, m) && !Holds(l, u, m)
    ensures (u == |l.versions| && m !in l.tiers) || (s == DoComplete(u) && Completes(l, u) && Awaits(l, u, m))
  {
    if s.DoComplete? && Completes(l, s.v) {
      CompletesShape(l, s.v);
    } else if s.DoAdjudicate? {
      if s.v < |l.versions| && Settle(l, s.v).Some? {
        SettleSame(l, s.v);
      }
    } else if !s.DoChallenge? && !s.DoVersion? {
      OtherStepsSame(l, s);
    }
  }

  /** A completed migration leaves a locked predecessor without any claim on what it passed on. */
  lemma PredecessorSpent(l: State, v: nat, m: Mid)
    requires Inv(l) && Completes(l, v) && Awaits(l, v, m) && Holds(l, l.versions[v].predecessor.value, m)
    requires LockedStep(l, DoComplete(v))
    ensures Spent(CompleteMigration(l, v), l.versions[v].predecessor.value, m)
  {
    CompletesShape(l, v);
    var p := l.versions[v].predecessor.value;
    UnreachedAtTransfer(l, v, m, p);
    SameReached(l.versions[p], CompleteMigration(l, v).versions[p], m);
  }

  /** In every run, when a migration completes no receipt of any version has reached a
      milestone that it transfers. */
  lemma TransferUnreached(maximum: nat, steps: seq<Step>, v: nat, m: Mid, w: nat)
    requires var l := Run(maximum, steps); Completes(l, v) && m in l.versions[v].contract.milestones && Holds(l, w, m)
    ensures var l := Run(maximum, steps);
            && Holds(CompleteMigration(l, v), v, m) && m !in l.claims && forall i: nat :: !Reached(l.versions[w], m, i)
  {
    RunKeepsInv(maximum, steps);
    UnreachedAtTransfer(Run(maximum, steps), v, m, w);
  }

  lemma UnreachedAtTransfer(l: State, v: nat, m: Mid, w: nat)
    requires Inv(l) && Completes(l, v) && m in l.versions[v].contract.milestones && Holds(l, w, m)
    ensures Holds(CompleteMigration(l, v), v, m) && m !in l.claims && forall i: nat :: !Reached(l.versions[w], m, i)
  {
    CompletesShape(l, v);
    assert NoneMissed(l, w);
  }

  lemma NextKeepsExclusive(l: State, s: Step)
    requires Inv(l) && Lineage(l) && Exclusive(l) && LockedStep(l, s)
    ensures Exclusive(Next(l, s))
  {
    var t := Next(l, s);
    forall v: nat, w: nat, m | v < w && Holds(t, v, m) && Holds(t, w, m)
      ensures Spent(t, v, m)
    {
      if Holds(l, v, m) && Holds(l, w, m) {
        SpentKept(l, s, v, m);
      } else {
        PassedOn(l, s, v, w, m);
      }
    }
  }

  lemma PassedOn(l: State, s: Step, v: nat, w: nat, m: Mid)
    requires Inv(l) && Lineage(l) && Exclusive(l) && LockedStep(l, s) && v < w
    requires Holds(Next(l, s), v, m) && Holds(Next(l, s), w, m) && !(Holds(l, v, m) && Holds(l, w, m))
    ensures Spent(Next(l, s), v, m)
  {
    NewIsLater(l, s, v, w, m);
    assert AwaitOk(l, w, m);
    var p := l.versions[w].predecessor.value;
    if v == p {
      PredecessorSpent(l, w, m);
    } else {
      assert v < p && Holds(l, p, m);
      SpentKept(l, s, v, m);
    }
  }

  /** Of two versions that come to hold a milestone together, the later one got it by
      this step's migration. */
  lemma NewIsLater(l: State, s: Step, v: nat, w: nat, m: Mid)
    requires TiersOk(l) && Lineage(l) && v < w
    requires Holds(Next(l, s), v, m) && Holds(Next(l, s), w, m) && !(Holds(l, v, m) && Holds(l, w, m))
    ensures Holds(l, v, m) && s == DoComplete(w) && Completes(l, w) && Awaits(l, w, m)
  {
    assert Awaits(l, v, m) ==> AwaitOk(l, v, m);
    assert v < |l.versions| ==> PredecessorOk(l, v);
    if !Holds(l, w, m) {
      NewHolder(l, s, w, m);
    }
    if !Holds(l, v, m) {
      NewHolder(l, s, v, m);
    }
  }

  /** Every migration of the run was completed from a locked predecessor. */
  ghost predicate LockedMigrations(maximum: nat, steps: seq<Step>) {
    forall n :: 0 <= n < |steps| ==> LockedStep(Run(maximum, steps[..n]), steps[n])
  }

  lemma {:induction false} RunKeepsExclusive(maximum: nat, steps: seq<Step>)
    requires LockedMigrations(maximum, steps)
    ensures Exclusive(Run(maximum, steps))
  {
    if steps != [] {
      var shorter, n := steps[..|steps| - 1], |steps| - 1;
      forall k | 0 <= k < |shorter|
        ensures LockedStep(Run(maximum, shorter[..k]), shorter[k])
      {
        assert shorter[..k] == steps[..k];
        assert LockedStep(Run(maximum, steps[..k]), steps[k]);
      }
      RunKeepsExclusive(maximum, shorter);
      RunKeepsInv(maximum, shorter);
      RunKeepsLineage(maximum, shorter);
      assert LockedStep(Run(maximum, steps[..n]), steps[n]);
      NextKeepsExclusive(Run(maximum, shorter), steps[n]);
    }
  }

  predicate LastHolder(l: State, v: nat, m: Mid) {
    Holds(l, v, m) && forall w :: v < w < |l.versions| ==> m !in l.versions[w].live
  }

  /** When all migrations came from locked predecessors, a milestone is claimed exactly
      when a finalized receipt of the last version that holds it reaches it, and then by
      the first such receipt: no predecessor competes for it. */
  lemma LastHolderWins(maximum: nat, steps: seq<Step>, v: nat, m: Mid)
    requires LockedMigrations(maximum, steps) && LastHolder(Run(maximum, steps), v, m)
    ensures var l := Run(maximum, steps);
            && (m in l.claims <==> exists i: nat :: Reached(l.versions[v], m, i))
            && (m in l.claims ==> l.claims[m].0 == v && FirstReaching(l.versions[v], m, l.claims[m].1))
  {
    var l := Run(maximum, steps);
    RunKeepsExclusive(maximum, steps);
    ClaimsAreFirst(maximum, steps, m);
    if m in l.claims {
      var w, i := l.claims[m].0, l.claims[m].1;
      assert Reached(l.versions[w], m, i) && Holds(l, w, m);
      assert w < v ==> Spent(l, w, m);
    }
    if i: nat :| Reached(l.versions[v], m, i) {
      assert Earned(l, v, m, i);
    }
  }

  /** Such runs that finalized the same receipts of the milestone's last holder agree
      on whether it is claimed and by which receipt. */
  lemma WinnersOrderIndependent(maximum: nat, steps: seq<Step>, max': nat, steps': seq<Step>, v: nat, v': nat, m: Mid)
    requires LockedMigrations(maximum, steps) && LastHolder(Run(maximum, steps), v, m)
    requires LockedMigrations(max', steps') && LastHolder(Run(max', steps'), v', m)
    requires SameReceipts(Run(maximum, steps).versions[v], Run(max', steps').versions[v'])
    ensures m in Run(maximum, steps).claims <==> m in Run(max', steps').claims
    ensures m in Run(maximum, steps).claims ==>
              Run(maximum, steps).claims[m].0 == v && Run(max', steps').claims[m].0 == v'
              && Run(maximum, steps).claims[m].1 == Run(max', steps').claims[m].1
  {
    var l, k := Run(maximum, steps), Run(max', steps');
    LastHolderWins(maximum, steps, v, m);
    LastHolderWins(max', steps', v', m);
    assert forall i: nat :: Reached(l.versions[v], m, i) <==> Reached(k.versions[v'], m, i);
    if m in l.claims {
      FirstUnique(l.versions[v], k.versions[v'], m, l.claims[m].1, k.claims[m].1);
    }
  }
}

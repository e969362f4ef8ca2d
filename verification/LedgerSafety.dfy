/** What every transaction keeps: receipts are finalized in order, the verified best
    is one fold over them, the public frontier, capacity, and milestone claims. */
module LedgerSafety {
  import opened Wrappers
  import opened Scores
  import opened Ledger

  // ------------------------------------------------------- the best, as a fold

  /** The left fold over the first n receipts, in sequence order. */
  function FoldBest(c: Contract, rows: seq<Row>, n: nat): (best: Option<nat>)
    requires n <= |rows|
    ensures best.Some? ==> best.value < n
  {
    if n == 0 then None
    else
      var prior := FoldBest(c, rows, n - 1);
      var r := rows[n - 1].verdict;
      if r.valid && Better(r.score, ValueOf(c, rows, prior), c.direction) then Some(n - 1) else prior
  }

  /** No receipt read so far is better than the fold's value. */
  lemma {:induction false} FoldDominates(c: Contract, rows: seq<Row>, n: nat, j: nat)
    requires j < n <= |rows| && rows[j].verdict.valid
    ensures !Better(rows[j].verdict.score, ValueOf(c, rows, FoldBest(c, rows, n)), c.direction)
  {
    if j < n - 1 {
      FoldDominates(c, rows, n - 1, j);
    }
  }

  lemma {:induction false} FoldValue(c: Contract, rows: seq<Row>, n: nat)
    requires n <= |rows|
    ensures var best := FoldBest(c, rows, n);
            if best.None? then ValueOf(c, rows, best) == c.baseline
            else rows[best.value].verdict.valid && Better(rows[best.value].verdict.score, c.baseline, c.direction)
  {
    if n > 0 {
      FoldValue(c, rows, n - 1);
    }
  }

  /** The fold's result without recursion: the earliest of the best receipts, if any
      receipt is better than the baseline. */
  lemma {:induction false} FoldIsEarliestBest(c: Contract, rows: seq<Row>, n: nat)
    requires n <= |rows|
    ensures var best := FoldBest(c, rows, n);
            && (best.None? <==>
                forall j :: 0 <= j < n && rows[j].verdict.valid ==>
                  !Better(rows[j].verdict.score, c.baseline, c.direction))
            && (best.Some? ==>
                  && (forall j :: 0 <= j < n && rows[j].verdict.valid ==>
                      !Better(rows[j].verdict.score, rows[best.value].verdict.score, c.direction))
                  && (forall j :: 0 <= j < best.value && rows[j].verdict.valid ==>
                      Better(rows[best.value].verdict.score, rows[j].verdict.score, c.direction)))
  {
    FoldValue(c, rows, n);
    forall j | 0 <= j < n && rows[j].verdict.valid
      ensures !Better(rows[j].verdict.score, ValueOf(c, rows, FoldBest(c, rows, n)), c.direction)
    {
      FoldDominates(c, rows, n, j);
    }
    var best := FoldBest(c, rows, n);
    if best.Some? {
      FoldStops(c, rows, n);
      forall j | 0 <= j < best.value && rows[j].verdict.valid
        ensures Better(rows[best.value].verdict.score, rows[j].verdict.score, c.direction)
      {
        FoldDominates(c, rows, best.value, j);
      }
    }
  }

  /** When the fold took row b, row b was better than everything folded before it. */
  lemma {:induction false} FoldStops(c: Contract, rows: seq<Row>, n: nat)
    requires n <= |rows| && FoldBest(c, rows, n).Some?
    ensures var b := FoldBest(c, rows, n).value;
            Better(rows[b].verdict.score, ValueOf(c, rows, FoldBest(c, rows, b)), c.direction)
  {
    if FoldBest(c, rows, n) == FoldBest(c, rows, n - 1) {
      FoldStops(c, rows, n - 1);
    }
  }

  /** Only the verdicts of the receipts folded matter. */
  lemma {:induction false} FoldFrame(c: Contract, rows: seq<Row>, more: seq<Row>, n: nat)
    requires n <= |rows| && n <= |more| && forall i :: 0 <= i < n ==> rows[i].verdict == more[i].verdict
    ensures FoldBest(c, rows, n) == FoldBest(c, more, n)
  {
    if n > 0 {
      FoldFrame(c, rows, more, n - 1);
    }
  }

  // ------------------------------------------------------------ one version

  predicate RowOk(version: Version, i: nat)
    requires i < |version.rows|
  {
    var row := version.rows[i];
    && (row.status == Finalized <==> i < version.watermark) && (row.held <==> i >= version.watermark)
    && (row.public ==> row.status == Finalized)
  }

  /** The public frontier: a finalized valid public receipt at least the minimum delta
      ahead of the baseline, not ahead of the best, and not beaten by the delta by any
      public valid receipt. */
  ghost predicate FrontierOk(version: Version) {
    var c := version.contract;
    var f := ValueOf(c, version.rows, version.frontier);
    && (version.frontier.Some? ==>
          version.frontier.value < version.watermark <= |version.rows|
          && version.rows[version.frontier.value].verdict.valid && version.rows[version.frontier.value].public
          && Meaningful(f, c.baseline, c.delta, c.direction))
    && !Better(f, ValueOf(c, version.rows, version.best), c.direction)
    && forall j :: 0 <= j < |version.rows| && version.rows[j].public && version.rows[j].verdict.valid ==>
         !Meaningful(version.rows[j].verdict.score, f, c.delta, c.direction)
  }

  predicate LifeOk(version: Version) {
    && ValidContract(version.contract) && version.live <= version.contract.milestones.Keys
    && (version.intake == Open ==> version.locked && version.status == Published)
    && (version.rows != [] ==> version.locked)
    && (version.status in {Locked, Signing} ==> version.rows == [])
    && (version.status in {Locked, Signing, Published} ==> version.locked)
    && (version.status in {Draft, Preflight, ChangesRequired, ReviewReady} ==> !version.locked)
    && (version.status == Superseded ==> Drained(version))
  }

  ghost predicate VersionOk(version: Version) {
    && version.watermark <= |version.rows| && LifeOk(version)
    && (forall i :: 0 <= i < |version.rows| ==> RowOk(version, i))
    && version.best == FoldBest(version.contract, version.rows, version.watermark)
    && FrontierOk(version)
  }

  lemma FreshOk(challenge: nat, c: Contract, kind: Kind, p: Option<nat>, f: Option<nat>, live: set<Mid>)
    requires ValidContract(c) && live <= c.milestones.Keys
    ensures VersionOk(FreshVersion(challenge, c, kind, p, f, live))
  {
  }

  /** Changes of status, intake and mapping only. */
  lemma LifeChangeOk(version: Version, next: Version)
    requires VersionOk(version) && LifeOk(next)
    requires next.rows == version.rows && next.watermark == version.watermark && next.best == version.best
    requires next.frontier == version.frontier && next.contract == version.contract
    ensures VersionOk(next)
  {
    forall i | 0 <= i < |next.rows|
      ensures RowOk(next, i)
    {
      assert RowOk(version, i);
    }
  }

  /** One more pending row, or a verdict for a pending one. */
  lemma PendingChangeOk(version: Version, next: Version)
    requires VersionOk(version) && LifeOk(next) && next.contract == version.contract
    requires next.watermark == version.watermark && next.best == version.best && next.frontier == version.frontier
    requires version.watermark <= |version.rows| <= |next.rows|
             && forall i :: 0 <= i < version.watermark ==> next.rows[i] == version.rows[i]
    requires forall i :: version.watermark <= i < |next.rows| ==>
               next.rows[i].status != Finalized && next.rows[i].held && !next.rows[i].public
    ensures VersionOk(next)
  {
    FoldFrame(version.contract, version.rows, next.rows, version.watermark);
    forall i | 0 <= i < |next.rows|
      ensures RowOk(next, i)
    {
      if i < version.watermark {
        assert RowOk(version, i);
      }
    }
  }

  /** A row is published, and the frontier follows if it is better by the delta. */
  lemma FrontierMoves(version: Version, next: Version, i: nat)
    requires FrontierOk(version) && ValidContract(version.contract) && next.contract == version.contract
    requires i < next.watermark <= |next.rows| && |next.rows| == |version.rows| && version.watermark <= next.watermark
    requires next.rows[i].verdict == version.rows[i].verdict
             && forall j :: 0 <= j < |next.rows| && j != i ==> next.rows[j] == version.rows[j]
    requires next.rows[i].public || !version.rows[i].public
    requires !Better(ValueOf(version.contract, version.rows, version.best),
                     ValueOf(version.contract, next.rows, next.best), version.contract.direction)
    requires var row, f := next.rows[i], ValueOf(version.contract, version.rows, version.frontier);
             if row.verdict.valid && row.public
                && Meaningful(row.verdict.score, f, version.contract.delta, version.contract.direction)
             then next.frontier == Some(i)
                  && !Better(row.verdict.score, ValueOf(version.contract, next.rows, next.best),
                             version.contract.direction)
             else next.frontier == version.frontier
    ensures FrontierOk(next)
  {
    if version.frontier.Some? {
      assert next.rows[version.frontier.value].verdict == version.rows[version.frontier.value].verdict;
    }
    var f := ValueOf(next.contract, next.rows, next.frontier);
    forall j | 0 <= j < |next.rows| && next.rows[j].public && next.rows[j].verdict.valid
      ensures !Meaningful(next.rows[j].verdict.score, f, next.contract.delta, next.contract.direction)
    {
      if j != i {
        assert version.rows[j].public && version.rows[j].verdict.valid;
      }
    }
  }

  lemma FinalizeVersionOk(l: State, v: nat)
    requires v < |l.versions| && Ready(l.versions[v]) && VersionOk(l.versions[v])
    ensures VersionOk(Finalize(l, v).versions[v])
  {
    var version, next := l.versions[v], Finalize(l, v).versions[v];
    var c, i := version.contract, version.watermark;
    FoldFrame(c, version.rows, next.rows, i);
    assert ValueOf(c, version.rows, version.best) == ValueOf(c, next.rows, version.best);
    assert RowOk(version, i);
    forall j | 0 <= j < |next.rows|
      ensures RowOk(next, j)
    {
      assert RowOk(version, j);
    }
    FrontierMoves(version, next, i);
  }

  lemma PublicizeVersionOk(l: State, v: nat, i: nat)
    requires v < |l.versions| && VersionOk(l.versions[v])
    ensures VersionOk(Publicize(l, v, i).versions[v])
  {
    var version, next := l.versions[v], Publicize(l, v, i).versions[v];
    if next != version {
      var c := version.contract;
      FoldFrame(c, version.rows, next.rows, version.watermark);
      assert RowOk(version, i);
      forall j | 0 <= j < |next.rows|
        ensures RowOk(next, j)
      {
        assert RowOk(version, j);
      }
      FoldDominates(c, version.rows, version.watermark, i);
      assert ValueOf(c, version.rows, version.best) == ValueOf(c, next.rows, next.best);
      FrontierMoves(version, next, i);
    }
  }

  // ---------------------------------------------------------------- milestones

  /** Row i is the first finalized receipt of the version that reaches m, m is live
      there, and the receipt is public. */
  ghost predicate FirstReaching(version: Version, m: Mid, i: nat) {
    && m in version.live && i < version.watermark <= |version.rows|
    && Reaches(version.contract, version.rows[i].verdict, m) && version.rows[i].public
    && forall j :: 0 <= j < i ==> !Reaches(version.contract, version.rows[j].verdict, m)
  }

  ghost predicate ClaimOk(l: State, m: Mid)
    requires m in l.claims
  {
    l.claims[m].0 < |l.versions| && FirstReaching(l.versions[l.claims[m].0], m, l.claims[m].1)
  }

  predicate Reached(version: Version, m: Mid, i: nat) {
    i < version.watermark && i < |version.rows| && Reaches(version.contract, version.rows[i].verdict, m)
  }

  /** No milestone is left unclaimed that a finalized receipt reaches. */
  ghost predicate NoneMissed(l: State, v: nat)
    requires v < |l.versions|
  {
    forall m, i :: m in l.versions[v].live && Reached(l.versions[v], m, i) ==> m in l.claims
  }

  predicate TiersOk(l: State) {
    && (forall m :: m in l.tiers ==> l.tiers[m] < |l.versions| && m in l.versions[l.tiers[m]].live)
    && (forall v, m :: 0 <= v < |l.versions| && m in l.versions[v].live ==> m in l.tiers)
  }

  function Outstanding(versions: seq<Version>): int {
    if versions == [] then 0
    else Outstanding(versions[..|versions| - 1]) + |versions[|versions| - 1].rows| - versions[|versions| - 1].watermark
  }

  lemma {:induction false} OutstandingUpdate(versions: seq<Version>, v: nat, next: Version)
    requires v < |versions|
    ensures Outstanding(versions[v := next]) == Outstanding(versions)
            - (|versions[v].rows| - versions[v].watermark) + (|next.rows| - next.watermark)
  {
    var n := |versions| - 1;
    if v == n {
      assert versions[v := next][..n] == versions[..n];
    } else {
      assert versions[v := next][..n] == versions[..n][v := next];
      OutstandingUpdate(versions[..n], v, next);
    }
  }

  /** Two units are reserved for every accepted receipt that is not finalized. */
  predicate CapacityOk(l: State) { l.reserved == 2 * Outstanding(l.versions) && 0 <= l.reserved <= l.maximum }

  ghost predicate Inv(l: State) {
    && (forall v :: 0 <= v < |l.versions| ==> VersionOk(l.versions[v]))
    && (forall m :: m in l.claims ==> ClaimOk(l, m))
    && (forall v :: 0 <= v < |l.versions| ==> NoneMissed(l, v))
    && TiersOk(l) && CapacityOk(l)
  }

  /** What a step on one version must keep for the claims of all to stay right. */
  ghost predicate Keeps(version: Version, next: Version) {
    && next.contract == version.contract && next.live == version.live
    && version.watermark <= |version.rows| && version.watermark <= next.watermark <= |next.rows|
    && forall i :: 0 <= i < version.watermark ==>
         next.rows[i].verdict == version.rows[i].verdict && (version.rows[i].public ==> next.rows[i].public)
  }

  lemma FirstReachingKept(version: Version, next: Version, m: Mid, i: nat)
    requires Keeps(version, next) && FirstReaching(version, m, i)
    ensures FirstReaching(next, m, i)
  {
  }

  lemma ClaimsKept(l: State, v: nat, next: Version, m: Mid)
    requires v < |l.versions| && Keeps(l.versions[v], next) && m in l.claims && ClaimOk(l, m)
    ensures ClaimOk(Put(l, v, next), m)
  {
    if l.claims[m].0 == v {
      FirstReachingKept(l.versions[v], next, m, l.claims[m].1);
    }
  }

  lemma MissedKept(l: State, v: nat, next: Version, w: nat)
    requires v < |l.versions| && Keeps(l.versions[v], next) && next.watermark == l.versions[v].watermark
             && w < |l.versions| && NoneMissed(l, w)
    ensures NoneMissed(Put(l, v, next), w)
  {
    forall m: Mid, i: nat | m in Put(l, v, next).versions[w].live && Reached(Put(l, v, next).versions[w], m, i)
      ensures m in l.claims
    {
      assert Reached(l.versions[w], m, i);
    }
  }

  /** Steps that replace one version by one that keeps its finalized receipts. */
  lemma PutKeepsInv(l: State, v: nat, next: Version, reserved: int)
    requires Inv(l) && v < |l.versions| && VersionOk(next) && Keeps(l.versions[v], next)
             && next.watermark == l.versions[v].watermark
    requires reserved == l.reserved + 2 * (|next.rows| - |l.versions[v].rows|) && reserved <= l.maximum && 0 <= reserved
    ensures Inv(Put(l, v, next).(reserved := reserved))
  {
    var t := Put(l, v, next).(reserved := reserved);
    OutstandingUpdate(l.versions, v, next);
    forall m | m in t.claims
      ensures ClaimOk(t, m)
    {
      ClaimsKept(l, v, next, m);
    }
    forall w | 0 <= w < |t.versions|
      ensures NoneMissed(t, w)
    {
      MissedKept(l, v, next, w);
    }
  }

  lemma FinalizeKeepsInv(l: State, v: nat)
    requires Inv(l) && v < |l.versions| && Ready(l.versions[v])
    ensures Inv(Finalize(l, v))
  {
    var t, i := Finalize(l, v), l.versions[v].watermark;
    FinalizeVersionOk(l, v);
    OutstandingUpdate(l.versions, v, t.versions[v]);
    assert RowOk(l.versions[v], i);
    FinalizeClaims(l, v);
    forall w | 0 <= w < |t.versions|
      ensures NoneMissed(t, w)
    {
      FinalizeMisses(l, v, w);
    }
    OutstandingPositive(t.versions);
  }

  lemma {:induction false} OutstandingPositive(versions: seq<Version>)
    requires forall v :: 0 <= v < |versions| ==> VersionOk(versions[v])
    ensures Outstanding(versions) >= 0
  {
    if versions != [] {
      OutstandingPositive(versions[..|versions| - 1]);
    }
  }

  lemma FinalizeMisses(l: State, v: nat, w: nat)
    requires Inv(l) && v < |l.versions| && Ready(l.versions[v]) && w < |l.versions|
    ensures NoneMissed(Finalize(l, v), w)
  {
    var t := Finalize(l, v);
    assert NoneMissed(l, w);
    forall m: Mid, i: nat | m in t.versions[w].live && Reached(t.versions[w], m, i)
      ensures m in t.claims
    {
      if w == v && i == l.versions[v].watermark {
        assert m in l.claims || m in Won(l, v, l.versions[v].rows[i].verdict);
      } else {
        assert Reached(l.versions[w], m, i);
      }
    }
  }

  lemma FinalizeClaims(l: State, v: nat)
    requires Inv(l) && v < |l.versions| && Ready(l.versions[v])
    ensures forall m :: m in Finalize(l, v).claims ==> ClaimOk(Finalize(l, v), m)
  {
    var t, i := Finalize(l, v), l.versions[v].watermark;
    assert Keeps(l.versions[v], t.versions[v]);
    forall m | m in t.claims
      ensures ClaimOk(t, m)
    {
      if m in l.claims {
        ClaimsKept(l, v, t.versions[v], m);
        assert t.claims[m] == l.claims[m];
      } else {
        assert m in Won(l, v, l.versions[v].rows[i].verdict) && t.claims[m] == (v, i);
        FirstIsFirst(l, v, m);
      }
    }
  }

  lemma FirstIsFirst(l: State, v: nat, m: Mid)
    requires Inv(l) && v < |l.versions| && Ready(l.versions[v])
    requires m in Won(l, v, l.versions[v].rows[l.versions[v].watermark].verdict)
    ensures FirstReaching(Finalize(l, v).versions[v], m, l.versions[v].watermark)
  {
    assert NoneMissed(l, v);
    forall j | 0 <= j < l.versions[v].watermark
      ensures !Reaches(l.versions[v].contract, l.versions[v].rows[j].verdict, m)
    {
      assert Reaches(l.versions[v].contract, l.versions[v].rows[j].verdict, m) ==> Reached(l.versions[v], m, j);
    }
  }

  lemma {:induction false} SettleKeepsInv(l: State, v: nat)
    requires Inv(l) && v < |l.versions| && Settle(l, v).Some?
    ensures Inv(Settle(l, v).value)
    decreases if l.versions[v].watermark < |l.versions[v].rows| then |l.versions[v].rows| - l.versions[v].watermark
              else 0
  {
    if Ready(l.versions[v]) {
      FinalizeKeepsInv(l, v);
      SettleKeepsInv(Finalize(l, v), v);
    }
  }

  // --------------------------------------------------------------- every step

  /** A new version with new milestone ids. */
  lemma AppendKeepsInv(l: State, added: Version, tiers: map<Mid, nat>)
    requires Inv(l) && VersionOk(added) && added.rows == [] && added.watermark == 0
    requires l.tiers.Keys <= tiers.Keys && added.live <= tiers.Keys
    requires forall m :: m in tiers ==>
               if m in l.tiers then tiers[m] == l.tiers[m] else tiers[m] == |l.versions| && m in added.live
    ensures Inv(l.(versions := l.versions + [added], tiers := tiers))
  {
    var t := l.(versions := l.versions + [added], tiers := tiers);
    assert t.versions[..|l.versions|] == l.versions;
    forall m | m in t.claims
      ensures ClaimOk(t, m)
    {
      assert ClaimOk(l, m);
      assert t.versions[l.claims[m].0] == l.versions[l.claims[m].0];
    }
    forall w | 0 <= w < |t.versions|
      ensures NoneMissed(t, w)
    {
      if w < |l.versions| {
        assert NoneMissed(l, w);
        assert t.versions[w] == l.versions[w];
      }
    }
  }

  /** A change of status and intake. */
  lemma LifeKeepsInv(l: State, v: nat, next: Version)
    requires Inv(l) && v < |l.versions| && LifeOk(next)
    requires var version := l.versions[v];
             next.rows == version.rows && next.watermark == version.watermark && next.best == version.best
             && next.frontier == version.frontier && next.contract == version.contract && next.live == version.live
    ensures Inv(Put(l, v, next))
  {
    LifeChangeOk(l.versions[v], next);
    PutKeepsInv(l, v, next, l.reserved);
  }

  lemma SupersedeKeepsInv(l: State, v: nat)
    requires Inv(l) && v < |l.versions| && Drained(l.versions[v])
    ensures Inv(Put(l, v, Supersede(l.versions[v])))
  {
    assert VersionOk(l.versions[v]);
    LifeKeepsInv(l, v, Supersede(l.versions[v]));
  }

  lemma SuccessorKeepsInv(l: State, added: Version, introduced: set<Mid>)
    requires Inv(l) && VersionOk(added) && added.rows == [] && added.watermark == 0 && added.live == introduced
             && introduced !! l.tiers.Keys
    ensures Inv(l.(versions := l.versions + [added], tiers := l.tiers + (map m | m in introduced :: |l.versions|)))
  {
    AppendKeepsInv(l, added, l.tiers + (map m | m in introduced :: |l.versions|));
  }

  lemma CreateKeepsInv(l: State, prior: nat, kind: Kind, c: Contract)
    requires Inv(l)
    ensures Inv(CreateVersion(l, prior, kind, c))
  {
    if prior < |l.versions| && ValidContract(c) && Drained(l.versions[prior]) {
      var p := l.versions[prior];
      var introduced := set m | m in c.milestones && m !in l.tiers;
      var added := FreshVersion(p.challenge, c, kind, Some(prior), p.frontier, introduced);
      FreshOk(p.challenge, c, kind, Some(prior), p.frontier, introduced);
      SupersedeKeepsInv(l, prior);
      SuccessorKeepsInv(l, added, introduced);
      SuccessorKeepsInv(Put(l, prior, Supersede(p)), added, introduced);
    }
  }

  lemma ChallengeKeepsInv(l: State, challenge: nat, c: Contract)
    requires Inv(l)
    ensures Inv(CreateChallenge(l, challenge, c))
  {
    var t := CreateChallenge(l, challenge, c);
    if |t.versions| > |l.versions| {
      FreshOk(challenge, c, Season, None, None, c.milestones.Keys);
      AppendKeepsInv(l, FreshVersion(challenge, c, Season, None, None, c.milestones.Keys), t.tiers);
    }
  }

  /** A version without receipts takes over milestones. */
  lemma TakeOverKeepsInv(l: State, v: nat, next: Version)
    requires Inv(l) && v < |l.versions| && l.versions[v].rows == [] && next.rows == [] && next.watermark == 0
             && VersionOk(next)
    requires l.versions[v].live <= next.live && next.live <= l.tiers.Keys
    ensures Inv(Put(l, v, next))
  {
    var t := Put(l, v, next);
    OutstandingUpdate(l.versions, v, next);
    forall m | m in t.claims
      ensures ClaimOk(t, m)
    {
      TakeOverClaims(l, v, next, m);
    }
    forall w | 0 <= w < |t.versions|
      ensures NoneMissed(t, w)
    {
      TakeOverMisses(l, v, next, w);
    }
  }

  lemma TakeOverClaims(l: State, v: nat, next: Version, m: Mid)
    requires v < |l.versions| && l.versions[v].rows == [] && m in l.claims && ClaimOk(l, m)
    ensures ClaimOk(Put(l, v, next), m)
  {
  }

  lemma TakeOverMisses(l: State, v: nat, next: Version, w: nat)
    requires v < |l.versions| && next.rows == [] && w < |l.versions| && NoneMissed(l, w)
    ensures NoneMissed(Put(l, v, next), w)
  {
  }

  lemma CompleteKeepsInv(l: State, v: nat)
    requires Inv(l)
    ensures Inv(CompleteMigration(l, v))
  {
    if CompleteMigration(l, v) != l {
      var version, prior := l.versions[v], l.versions[v].predecessor.value;
      SupersedeKeepsInv(l, prior);
      OpenedWithMilestones(Put(l, prior, Supersede(l.versions[prior])), v);
    }
  }

  /** A migration that is ready to open takes all its milestones. */
  lemma OpenedWithMilestones(l: State, v: nat)
    requires Inv(l) && v < |l.versions| && l.versions[v].status == Signing
    requires l.versions[v].contract.milestones.Keys <= l.tiers.Keys
    ensures var version := l.versions[v];
            Inv(Put(l, v, version.(status := Published, intake := Open,
                                   live := version.live + version.contract.milestones.Keys)))
  {
    var version := l.versions[v];
    assert VersionOk(version);
    var next := version.(status := Published, intake := Open, live := version.live + version.contract.milestones.Keys);
    LifeChangeOk(version, next);
    TakeOverKeepsInv(l, v, next);
  }

  lemma PublishKeepsInv(l: State, v: nat)
    requires Inv(l)
    ensures Inv(Publish(l, v))
  {
    if v < |l.versions| && l.versions[v].status == Locked {
      if l.versions[v].kind == Security {
        StageKeepsInv(l, v);
      } else {
        OpenKeepsInv(l, v);
      }
    }
  }

  lemma OpenKeepsInv(l: State, v: nat)
    requires Inv(l) && v < |l.versions| && l.versions[v].status == Locked && l.versions[v].kind != Security
    ensures Inv(Publish(l, v))
  {
    assert VersionOk(l.versions[v]);
    LifeKeepsInv(l, v, l.versions[v].(status := Published, intake := Open));
  }

  lemma StageKeepsInv(l: State, v: nat)
    requires Inv(l) && v < |l.versions| && l.versions[v].status == Locked && l.versions[v].kind == Security
    ensures Inv(Publish(l, v))
  {
    if SourceStill(l, v) {
      var p := l.versions[l.versions[v].predecessor.value];
      assert VersionOk(l.versions[v]);
      LifeKeepsInv(l, v, l.versions[v].(status := Signing, staged := Some((p.watermark, p.frontier))));
    }
  }

  lemma ActKeepsInv(l: State, v: nat, a: Action)
    requires Inv(l)
    ensures Inv(Act(l, v, a))
  {
    if v < |l.versions| {
      LifeKeepsInv(l, v, Act(l, v, a).versions[v]);
    }
  }

  lemma AcceptKeepsInv(l: State, v: nat, publish: bool)
    requires Inv(l)
    ensures Inv(Accept(l, v, publish))
  {
    var t := Accept(l, v, publish);
    if t != l {
      PendingRows(l.versions[v]);
      PendingChangeOk(l.versions[v], t.versions[v]);
      PutKeepsInv(l, v, t.versions[v], l.reserved + 2);
    }
  }

  lemma PendingRows(version: Version)
    requires VersionOk(version)
    ensures forall i :: version.watermark <= i < |version.rows| ==>
              version.rows[i].status != Finalized && version.rows[i].held && !version.rows[i].public
  {
    forall i | version.watermark <= i < |version.rows|
      ensures version.rows[i].status != Finalized && version.rows[i].held && !version.rows[i].public
    {
      assert RowOk(version, i);
    }
  }

  lemma ValidateKeepsInv(l: State, v: nat, i: nat, verdict: Verdict, pause: bool)
    requires Inv(l)
    ensures Inv(Validate(l, v, i, verdict, pause))
  {
    var t := Validate(l, v, i, verdict, pause);
    if t != l {
      PendingRows(l.versions[v]);
      assert RowOk(l.versions[v], i);
      PendingChangeOk(l.versions[v], t.versions[v]);
      PutKeepsInv(l, v, t.versions[v], l.reserved);
    }
  }

  lemma PublicizeKeepsInv(l: State, v: nat, i: nat)
    requires Inv(l)
    ensures Inv(Publicize(l, v, i))
  {
    var t := Publicize(l, v, i);
    if t != l {
      PublicizeVersionOk(l, v, i);
      PutKeepsInv(l, v, t.versions[v], l.reserved);
    }
  }

  lemma NextKeepsInv(l: State, s: Step)
    requires Inv(l)
    ensures Inv(Next(l, s))
  {
    match s
    case DoChallenge(challenge, c) => ChallengeKeepsInv(l, challenge, c);
    case DoVersion(prior, kind, c) => CreateKeepsInv(l, prior, kind, c);
    case DoPublish(v) => PublishKeepsInv(l, v);
    case DoComplete(v) => CompleteKeepsInv(l, v);
    case DoAct(v, a) => ActKeepsInv(l, v, a);
    case DoAccept(v, publish) => AcceptKeepsInv(l, v, publish);
    case DoValidate(v, i, verdict, pause) => ValidateKeepsInv(l, v, i, verdict, pause);
    case DoIncident(v, i) => if Incident(l, v, i) != l { LifeKeepsInv(l, v, Incident(l, v, i).versions[v]); }
    case DoAdjudicate(v) => if v < |l.versions| && Settle(l, v).Some? { SettleKeepsInv(l, v); }
    case DoPublicize(v, i) => PublicizeKeepsInv(l, v, i);
  }

  lemma {:induction false} RunKeepsInv(maximum: nat, steps: seq<Step>)
    ensures Inv(Run(maximum, steps)) && Run(maximum, steps).maximum == maximum
  {
    if steps != [] {
      RunKeepsInv(maximum, steps[..|steps| - 1]);
      NextKeepsInv(Run(maximum, steps[..|steps| - 1]), steps[|steps| - 1]);
      MaximumKept(Run(maximum, steps[..|steps| - 1]), steps[|steps| - 1]);
    }
  }

  lemma MaximumKept(l: State, s: Step)
    ensures Next(l, s).maximum == l.maximum
  {
    match s
    case DoAdjudicate(v) => if v < |l.versions| && Settle(l, v).Some? { SettleMaximum(l, v); }
    case _ =>
  }

  lemma {:induction false} SettleMaximum(l: State, v: nat)
    requires v < |l.versions| && Settle(l, v).Some?
    ensures Settle(l, v).value.maximum == l.maximum
    decreases if l.versions[v].watermark < |l.versions[v].rows| then |l.versions[v].rows| - l.versions[v].watermark
              else 0
  {
    if Ready(l.versions[v]) {
      SettleMaximum(Finalize(l, v), v);
    }
  }
}

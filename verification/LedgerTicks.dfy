/** The ledger's standings in every run, read as integers: who holds a milestone, what
    the verified best is, and where the public frontier lies. */
module LedgerTicks {
  import opened Wrappers
  import opened Scores
  import opened Ledger
  import opened LedgerSafety
  import opened LedgerResults

  /** Receipt i is finalized and valid, shows what the milestone asks for, and its score
      is at the threshold or beyond it. */
  ghost predicate Qualified(version: Version, m: Mid, i: nat) {
    var c := version.contract;
    && i < version.watermark && i < |version.rows| && m in c.milestones
    && var r := version.rows[i].verdict;
       && r.valid && (c.evaluated ==> m in r.shown)
       && (c.direction == "maximize" ==> r.score >= c.milestones[m])
       && (c.direction == "minimize" ==> r.score <= c.milestones[m])
  }

  ghost predicate QualifiedIn(l: State, v: nat, m: Mid, i: nat) {
    v < |l.versions| && m in l.versions[v].live && Qualified(l.versions[v], m, i)
  }

  lemma QualifiedReaches(version: Version, m: Mid, i: nat)
    requires KnownDirection(version.contract.direction)
    ensures Qualified(version, m, i) <==> Reached(version, m, i)
  {
  }

  /** In every run a milestone is claimed exactly when a finalized valid receipt of a
      version that holds it meets the threshold, and then by the first such receipt of
      its version, which is public. */
  lemma ClaimsMeetThreshold(maximum: nat, steps: seq<Step>, m: Mid)
    ensures var l := Run(maximum, steps);
            && (m in l.claims <==> exists v: nat, i: nat :: QualifiedIn(l, v, m, i))
            && (m in l.claims ==>
                  var (v, i) := l.claims[m];
                  && v < |l.versions| && Qualified(l.versions[v], m, i) && l.versions[v].rows[i].public
                  && forall j :: 0 <= j < i ==> !Qualified(l.versions[v], m, j))
  {
    RunKeepsInv(maximum, steps);
    ClaimsAreFirst(maximum, steps, m);
    var l := Run(maximum, steps);
    forall v: nat, i: nat | v < |l.versions|
      ensures QualifiedIn(l, v, m, i) <==> Earned(l, v, m, i)
    {
      assert VersionOk(l.versions[v]);
      QualifiedReaches(l.versions[v], m, i);
    }
    if m in l.claims {
      var (v, i) := l.claims[m];
      assert VersionOk(l.versions[v]);
      forall j | 0 <= j <= i
        ensures Qualified(l.versions[v], m, j) <==> Reached(l.versions[v], m, j)
      {
        QualifiedReaches(l.versions[v], m, j);
      }
      assert Earned(l, v, m, i) <==> QualifiedIn(l, v, m, i);
    }
  }

  /** A receipt strictly short of the threshold never wins the milestone. */
  lemma ShortReceiptNeverWins(maximum: nat, steps: seq<Step>, m: Mid, v: nat, i: nat)
    requires var l := Run(maximum, steps);
             && v < |l.versions| && i < |l.versions[v].rows| && m in l.versions[v].contract.milestones
             && var c, score := l.versions[v].contract, l.versions[v].rows[i].verdict.score;
                (c.direction == "maximize" && score < c.milestones[m])
                || (c.direction == "minimize" && score > c.milestones[m])
    ensures var l := Run(maximum, steps); m in l.claims ==> l.claims[m] != (v, i)
  {
    ClaimsMeetThreshold(maximum, steps, m);
  }

  /** In every run the verified best is the first of the finalized valid receipts with the
      largest (or smallest) score, if one lies strictly beyond the baseline. */
  lemma BestIsExtreme(maximum: nat, steps: seq<Step>, v: nat)
    requires v < |Run(maximum, steps).versions|
    ensures var version := Run(maximum, steps).versions[v];
            var c := version.contract;
            && version.watermark <= |version.rows|
            && (c.direction == "maximize" || c.direction == "minimize")
            && (version.best.None? ==> forall j :: 0 <= j < version.watermark && version.rows[j].verdict.valid ==>
                  if c.direction == "maximize" then version.rows[j].verdict.score <= c.baseline
                  else version.rows[j].verdict.score >= c.baseline)
            && (version.best.Some? ==>
                  && version.best.value < version.watermark && version.rows[version.best.value].verdict.valid
                  && var best := version.rows[version.best.value].verdict.score;
                     && (if c.direction == "maximize" then best > c.baseline else best < c.baseline)
                     && forall j :: 0 <= j < version.watermark && version.rows[j].verdict.valid ==>
                          var x := version.rows[j].verdict.score;
                          if c.direction == "maximize" then x <= best && (j < version.best.value ==> x < best)
                          else x >= best && (j < version.best.value ==> x > best))
  {
    RunKeepsInv(maximum, steps);
    var version := Run(maximum, steps).versions[v];
    assert VersionOk(version);
    FoldIsEarliestBest(version.contract, version.rows, version.watermark);
    FoldValue(version.contract, version.rows, version.watermark);
  }

  /** How far x is ahead of y. */
  function Lead(c: Contract, x: int, y: int): int { if c.direction == "minimize" then y - x else x - y }

  /** In every run the public frontier is a finalized valid public receipt that leads the
      baseline by the delta and does not lead the best, and no public valid receipt leads
      it by the delta. */
  lemma FrontierLeads(maximum: nat, steps: seq<Step>, v: nat)
    requires v < |Run(maximum, steps).versions|
    ensures var version := Run(maximum, steps).versions[v];
            var c := version.contract;
            && (version.frontier.Some? ==>
                  && version.frontier.value < |version.rows|
                  && var row := version.rows[version.frontier.value];
                     && row.status == Finalized && row.public && row.verdict.valid && version.best.Some?
                     && version.best.value < |version.rows|
                     && Lead(c, row.verdict.score, c.baseline) >= c.delta
                     && Lead(c, row.verdict.score, version.rows[version.best.value].verdict.score) <= 0)
            && forall j :: 0 <= j < |version.rows| && version.rows[j].public && version.rows[j].verdict.valid ==>
                 Lead(c, version.rows[j].verdict.score,
                      if version.frontier.Some? then version.rows[version.frontier.value].verdict.score
                      else c.baseline) < c.delta
  {
    FrontierHolds(maximum, steps, v);
    BestIsExtreme(maximum, steps, v);
    RunKeepsInv(maximum, steps);
    assert VersionOk(Run(maximum, steps).versions[v]);
  }

  /** A transaction that moves a public frontier moves it to a receipt that leads the
      frontier before by at least the delta. */
  lemma FrontierGains(maximum: nat, steps: seq<Step>, s: Step, v: nat)
    requires v < |Run(maximum, steps).versions|
    ensures var l := Run(maximum, steps);
            && v < |Next(l, s).versions|
            && var a, b := l.versions[v], Next(l, s).versions[v];
               b.frontier != a.frontier ==>
                 && b.frontier.Some? && b.frontier.value < |b.rows|
                 && (a.frontier.Some? ==> a.frontier.value < |a.rows|)
                 && Lead(a.contract, b.rows[b.frontier.value].verdict.score,
                         if a.frontier.Some? then a.rows[a.frontier.value].verdict.score else a.contract.baseline)
                    >= a.contract.delta
  {
    RunKeepsInv(maximum, steps);
    var l := Run(maximum, steps);
    FrontierAdvancesByDelta(maximum, steps, s, v);
    assert VersionOk(l.versions[v]);
    NextKeepsInv(l, s);
    assert VersionOk(Next(l, s).versions[v]);
  }
}

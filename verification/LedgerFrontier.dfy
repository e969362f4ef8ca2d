/** The public frontier as a fold over receipts, when no owner publishes voluntarily. */
module LedgerFrontier {
  import opened Wrappers
  import opened Scores
  import opened Ledger
  import opened LedgerSafety
  import opened LedgerResults

  ghost predicate Wins(claims: map<Mid, (nat, nat)>, v: nat, i: nat) { exists m :: m in claims && claims[m] == (v, i) }

  /** The fold: a receipt that asked for publication or won a milestone moves the
      frontier if it is ahead by the delta. */
  ghost function FoldFrontier(c: Contract, rows: seq<Row>, claims: map<Mid, (nat, nat)>, v: nat,
                              n: nat): (f: Option<nat>)
    requires n <= |rows|
    ensures f.Some? ==> f.value < n
  {
    if n == 0 then None
    else
      var prior := FoldFrontier(c, rows, claims, v, n - 1);
      var row := rows[n - 1];
      if row.verdict.valid && (row.publish || Wins(claims, v, n - 1))
         && Meaningful(row.verdict.score, ValueOf(c, rows, prior), c.delta, c.direction)
      then Some(n - 1) else prior
  }

  lemma {:induction false} FoldFrontierFrame(c: Contract, a: seq<Row>, b: seq<Row>, claims: map<Mid, (nat, nat)>,
                                             more: map<Mid, (nat, nat)>, v: nat, n: nat)
    requires n <= |a| && n <= |b|
    requires forall i :: 0 <= i < n ==> a[i].verdict == b[i].verdict && a[i].publish == b[i].publish
    requires forall i: nat :: i < n ==> (Wins(claims, v, i) <==> Wins(more, v, i))
    ensures FoldFrontier(c, a, claims, v, n) == FoldFrontier(c, b, more, v, n)
  {
    if n > 0 {
      FoldFrontierFrame(c, a, b, claims, more, v, n - 1);
    }
  }

  ghost predicate IsFold(l: State, v: nat)
    requires v < |l.versions|
  {
    var version := l.versions[v];
    version.watermark <= |version.rows|
    && version.frontier == FoldFrontier(version.contract, version.rows, l.claims, v, version.watermark)
  }

  /** Steps that keep the finalized receipts of v, its frontier and all claims. */
  lemma IsFoldKept(l: State, t: State, v: nat)
    requires v < |l.versions| && v < |t.versions| && IsFold(l, v) && t.claims == l.claims
    requires var a, b := l.versions[v], t.versions[v];
             && b.contract == a.contract && b.watermark == a.watermark && b.frontier == a.frontier
             && a.watermark <= |b.rows|
             && forall i :: 0 <= i < a.watermark ==>
                  b.rows[i].verdict == a.rows[i].verdict && b.rows[i].publish == a.rows[i].publish
    ensures IsFold(t, v)
  {
    var a, b := l.versions[v], t.versions[v];
    FoldFrontierFrame(a.contract, a.rows, b.rows, l.claims, t.claims, v, a.watermark);
  }

  /** Finalizing wins milestones for the receipt at the watermark only. */
  lemma FinalizeWins(l: State, w: nat, v: nat, i: nat)
    requires Inv(l) && w < |l.versions| && Ready(l.versions[w])
    ensures Wins(Finalize(l, w).claims, v, i) <==>
            Wins(l.claims, v, i) || (v == w && i == l.versions[w].watermark
                                     && Won(l, w, l.versions[w].rows[i].verdict) != {})
  {
    var t := Finalize(l, w);
    if Wins(l.claims, v, i) {
      var m :| m in l.claims && l.claims[m] == (v, i);
      assert m in t.claims && t.claims[m] == (v, i);
    }
    if v == w && i == l.versions[w].watermark && Won(l, w, l.versions[w].rows[i].verdict) != {} {
      var m :| m in Won(l, w, l.versions[w].rows[i].verdict);
      assert m in t.claims && t.claims[m] == (v, i);
    }
    if Wins(t.claims, v, i) {
      var m :| m in t.claims && t.claims[m] == (v, i);
      assert m in l.claims || m in Won(l, w, l.versions[w].rows[l.versions[w].watermark].verdict);
    }
  }

  lemma NotYetWon(l: State, v: nat, i: nat)
    requires Inv(l) && v < |l.versions| && i >= l.versions[v].watermark
    ensures !Wins(l.claims, v, i)
  {
    forall m | m in l.claims
      ensures l.claims[m] != (v, i)
    {
      assert ClaimOk(l, m);
    }
  }

  lemma FinalizeIsFold(l: State, w: nat, v: nat)
    requires Inv(l) && w < |l.versions| && Ready(l.versions[w]) && v < |l.versions| && IsFold(l, v)
    ensures IsFold(Finalize(l, w), v)
  {
    var t, n := Finalize(l, w), l.versions[v].watermark;
    var a, b := l.versions[v], t.versions[v];
    forall i: nat | i < n
      ensures Wins(l.claims, v, i) <==> Wins(t.claims, v, i)
    {
      FinalizeWins(l, w, v, i);
    }
    FoldFrontierFrame(a.contract, a.rows, b.rows, l.claims, t.claims, v, n);
    if v == w {
      FinalizeWins(l, w, v, n);
      NotYetWon(l, v, n);
    }
  }

  lemma {:induction false} SettleIsFold(l: State, w: nat, v: nat)
    requires Inv(l) && w < |l.versions| && v < |l.versions| && IsFold(l, v) && Settle(l, w).Some?
    ensures v < |Settle(l, w).value.versions| && IsFold(Settle(l, w).value, v)
    decreases if l.versions[w].watermark < |l.versions[w].rows| then |l.versions[w].rows| - l.versions[w].watermark
              else 0
  {
    if Ready(l.versions[w]) {
      FinalizeIsFold(l, w, v);
      FinalizeKeepsInv(l, w);
      SettleIsFold(Finalize(l, w), w, v);
    }
  }

  lemma RowsKeepFold(l: State, s: Step, v: nat)
    requires v < |l.versions| && VersionOk(l.versions[v]) && IsFold(l, v)
    requires s.DoAccept? || s.DoValidate? || (s.DoPublicize? && s.v != v)
    ensures v < |Next(l, s).versions| && IsFold(Next(l, s), v)
  {
    if s.DoValidate? && s.i < |l.versions[v].rows| {
      assert RowOk(l.versions[v], s.i);
    }
    IsFoldKept(l, Next(l, s), v);
  }

  lemma LifeKeepsFold(l: State, s: Step, v: nat)
    requires v < |l.versions| && IsFold(l, v) && (s.DoChallenge? || s.DoVersion? || s.DoPublish? || s.DoComplete?
                                                  || s.DoAct? || s.DoIncident?)
    ensures v < |Next(l, s).versions| && IsFold(Next(l, s), v)
  {
    LifeLeavesFrontier(l, s, v);
    LifeLeavesWatermark(l, s, v);
    IsFoldKept(l, Next(l, s), v);
  }

  lemma LifeLeavesWatermark(l: State, s: Step, v: nat)
    requires v < |l.versions| && (s.DoChallenge? || s.DoVersion? || s.DoPublish? || s.DoComplete? || s.DoAct?
                                  || s.DoIncident?)
    ensures v < |Next(l, s).versions| && Next(l, s).versions[v].watermark == l.versions[v].watermark
            && Next(l, s).claims == l.claims
  {
  }

  lemma StepKeepsFold(l: State, s: Step, v: nat)
    requires Inv(l) && v < |l.versions| && IsFold(l, v) && !(s.DoPublicize? && s.v == v)
    ensures v < |Next(l, s).versions| && IsFold(Next(l, s), v)
  {
    assert VersionOk(l.versions[v]);
    if s.DoAdjudicate? {
      if s.v < |l.versions| && Settle(l, s.v).Some? {
        SettleIsFold(l, s.v, v);
      }
    } else if s.DoAccept? || s.DoValidate? || s.DoPublicize? {
      RowsKeepFold(l, s, v);
    } else {
      LifeKeepsFold(l, s, v);
    }
  }

  /** Until an owner publishes a submission of the version voluntarily, its public
      frontier is the fold over its receipts in sequence order. */
  lemma {:induction false} FrontierIsFold(maximum: nat, steps: seq<Step>, v: nat)
    requires forall k :: 0 <= k < |steps| ==> !(steps[k].DoPublicize? && steps[k].v == v)
    requires v < |Run(maximum, steps).versions|
    ensures IsFold(Run(maximum, steps), v)
  {
    var shorter, last := steps[..|steps| - 1], steps[|steps| - 1];
    var l := Run(maximum, shorter);
    RunKeepsInv(maximum, shorter);
    if v < |l.versions| {
      FrontierIsFold(maximum, shorter, v);
      StepKeepsFold(l, last, v);
    } else {
      NewVersionIsFresh(l, last, v);
    }
  }

  lemma NewVersionIsFresh(l: State, s: Step, v: nat)
    requires |l.versions| <= v < |Next(l, s).versions|
    ensures Next(l, s).versions[v].watermark == 0 && Next(l, s).versions[v].frontier.None?
  {
    if s.DoAdjudicate? && s.v < |l.versions| && Settle(l, s.v).Some? {
      SettleLength(l, s.v);
    }
  }

  lemma {:induction false} SettleLength(l: State, v: nat)
    requires v < |l.versions| && Settle(l, v).Some?
    ensures |Settle(l, v).value.versions| == |l.versions|
    decreases if l.versions[v].watermark < |l.versions[v].rows| then |l.versions[v].rows| - l.versions[v].watermark
              else 0
  {
    if Ready(l.versions[v]) {
      SettleLength(Finalize(l, v), v);
    }
  }
}

/** The ledger tables as an object whose methods are the transactions of
    internal/platform/adjudication.go, submissions.go and versions.go, each proved to
    make exactly the step that module Ledger specifies. */
module LedgerStore {
  import opened Wrappers
  import opened Scores
  import opened Ledger
  import opened LedgerSafety

  class Tables {
    var versions: seq<Version>
    var tiers: map<Mid, nat>
    var claims: map<Mid, (nat, nat)>
    var reserved: int
    const maximum: nat

    ghost function Now(): State
      reads this
    {
      State(versions, tiers, claims, reserved, maximum)
    }

    ghost predicate Valid()
      reads this
    {
      Inv(Now())
    }

    constructor (maximum: nat)
      ensures Valid() && Now() == Start(maximum)
    {
      this.maximum := maximum;
      versions, tiers, claims, reserved := [], map[], map[], 0;
    }

    method Adjudicate(v: nat) returns (ok: bool)
      requires Valid()
      modifies this
      ensures Valid() && Now() == Next(old(Now()), DoAdjudicate(v))
      ensures ok <==> v < |old(versions)| && Settle(old(Now()), v).Some?
    {
      NextKeepsInv(Now(), DoAdjudicate(v));
      if v >= |versions| {
        return false;
      }
      ok := SettleVersion(v);
    }

    /** adjudicate: finalize receipts from the watermark on until one is missing or
        undecided; an unusable piece of evidence rolls everything back. */
    method SettleVersion(v: nat) returns (ok: bool)
      requires v < |versions|
      modifies this
      ensures ok <==> Settle(old(Now()), v).Some?
      ensures Now() == if ok then Settle(old(Now()), v).value else old(Now())
    {
      ghost var l := Now();
      var version, won, units := versions[v], claims, reserved;
      while version.watermark < |version.rows| && version.rows[version.watermark].status == Validated
        invariant v < |l.versions| && Settle(l, v) == Settle(old(Now()), v) && Now() == old(Now())
        invariant l == State(versions[v := version], tiers, won, units, maximum)
        decreases |version.rows| - version.watermark
      {
        var usable;
        usable, version, won, units := FinalizeReceipt(l, v, version, won, units);
        if !usable {
          return false;
        }
        l := Finalize(l, v);
      }
      versions, claims, reserved := versions[v := version], won, units;
      ok := true;
    }

    /** One iteration: decide the receipt at the watermark. */
    method FinalizeReceipt(ghost l: State, v: nat, version: Version, won: map<Mid, (nat, nat)>, units: int)
      returns (usable: bool, next: Version, wonNext: map<Mid, (nat, nat)>, unitsNext: int)
      requires v < |l.versions| && l.versions[v] == version && l.claims == won && l.reserved == units && Ready(version)
      ensures usable <==> !Unusable(l, v)
      ensures usable ==>
                Finalize(l, v) == l.(versions := l.versions[v := next], claims := wonNext, reserved := unitsNext)
    {
      var i, c := version.watermark, version.contract;
      var row := version.rows[i];
      var claimed: set<Mid> := {};
      var record, advance, publish := false, false, row.publish;
      next, wonNext, unitsNext := version, won, units;
      if row.verdict.valid {
        usable, claimed := DecideMilestones(c, version.live, won, row.verdict);
        assert OpenMilestones(l, v) == set m | m in version.live && m !in won;
        if !usable {
          return;
        }
        publish := publish || claimed != {};
        record := Better(row.verdict.score, ValueOf(c, version.rows, version.best), c.direction);
        advance := publish && Meaningful(row.verdict.score, ValueOf(c, version.rows, version.frontier), c.delta,
                                         c.direction);
      }
      assert claimed == Won(l, v, row.verdict);
      usable := true;
      next := version.(watermark := i + 1, best := if record then Some(i) else version.best,
                       frontier := if advance then Some(i) else version.frontier,
                       rows := version.rows[i := row.(status := Finalized, public := publish, held := false)]);
      wonNext := won + (map m | m in claimed :: (v, i));
      if row.held {
        unitsNext := units - 2;
      }
    }

    /** The inner loop: which open milestones a valid receipt wins, and whether the
        evidence for all of them can be evaluated. */
    method DecideMilestones(c: Contract, live: set<Mid>, won: map<Mid, (nat, nat)>, r: Verdict)
      returns (usable: bool, claimed: set<Mid>)
      requires r.valid
      ensures usable <==> !(c.evaluated && exists m :: m in live && m !in won && (m in r.faulty || m !in c.milestones))
      ensures usable ==> claimed == set m | m in live && m !in won && Reaches(c, r, m)
    {
      var open := set m | m in live && m !in won;
      var todo := open;
      claimed := {};
      usable := true;
      while todo != {}
        invariant todo <= open
        invariant claimed == set m | m in open && m !in todo && Reaches(c, r, m)
        invariant !(c.evaluated && exists m :: m in open && m !in todo && (m in r.faulty || m !in c.milestones))
        decreases |todo|
      {
        var m :| m in todo;
        if c.evaluated && (m in r.faulty || m !in c.milestones) {
          assert m in live && m !in won;
          return false, {};
        }
        todo := todo - {m};
        if (c.evaluated ==> m in r.shown) && m in c.milestones && Crosses(r.score, c.milestones[m], c.direction) {
          claimed := claimed + {m};
        }
      }
    }

    /** acceptIntent. */
    method AcceptIntent(v: nat, publish: bool) returns (sequence: Option<nat>)
      requires Valid()
      modifies this
      ensures Valid() && Now() == Next(old(Now()), DoAccept(v, publish))
      ensures sequence.Some? <==> v < |old(versions)| && old(versions)[v].intake == Open && old(reserved) + 2 <= maximum
      ensures sequence.Some? ==> sequence.value == |old(versions)[v].rows| + 1 && reserved == old(reserved) + 2
      ensures sequence.None? ==> Now() == old(Now())
    {
      NextKeepsInv(Now(), DoAccept(v, publish));
      if v >= |versions| {
        return None;
      }
      assert VersionOk(versions[v]);
      if versions[v].intake != Open || !versions[v].locked || reserved + 2 > maximum {
        return None;
      }
      reserved := reserved + 2;
      var row := Row(Pending, NO_VERDICT, publish, false, true);
      versions := versions[v := versions[v].(rows := versions[v].rows + [row])];
      sequence := Some(|versions[v].rows|);
    }

    /** The submission part of a final runner result. */
    method StoreVerdict(v: nat, i: nat, verdict: Verdict, pause: bool) returns (stored: bool)
      requires Valid()
      modifies this
      ensures Valid() && Now() == Next(old(Now()), DoValidate(v, i, verdict, pause))
      ensures stored <==>
              v < |old(versions)| && i < |old(versions)[v].rows| && old(versions)[v].rows[i].status == Pending
    {
      NextKeepsInv(Now(), DoValidate(v, i, verdict, pause));
      stored := v < |versions| && i < |versions[v].rows| && versions[v].rows[i].status == Pending;
      if stored {
        var version := versions[v];
        version := version.(rows := version.rows[i := version.rows[i].(status := Validated, verdict := verdict)]);
        if pause {
          version := version.(intake := Paused);
        }
        versions := versions[v := version];
      }
    }

    /** publishSubmission. */
    method PublishSubmission(v: nat, i: nat) returns (public: bool)
      requires Valid()
      modifies this
      ensures Valid() && Now() == Next(old(Now()), DoPublicize(v, i))
      ensures public <==>
              v < |old(versions)| && i < |old(versions)[v].rows| && old(versions)[v].rows[i].status == Finalized
                          && old(versions)[v].rows[i].verdict.valid
    {
      NextKeepsInv(Now(), DoPublicize(v, i));
      if v >= |versions| || i >= |versions[v].rows| {
        return false;
      }
      var version := versions[v];
      var row := version.rows[i];
      if row.status != Finalized || !row.verdict.valid {
        return false;
      }
      if row.public {
        return true;
      }
      var frontier := version.frontier;
      if Meaningful(row.verdict.score, ValueOf(version.contract, version.rows, frontier), version.contract.delta,
                    version.contract.direction) {
        frontier := Some(i);
      }
      versions := versions[v := version.(rows := version.rows[i := row.(public := true, publish := true)],
                                         frontier := frontier)];
      public := true;
    }

    method CreateVersion(prior: nat, kind: Kind, c: Contract) returns (ok: bool)
      requires Valid()
      modifies this
      ensures Valid() && Now() == Next(old(Now()), DoVersion(prior, kind, c))
      ensures !ok ==> Now() == old(Now())
    {
      NextKeepsInv(Now(), DoVersion(prior, kind, c));
      if prior >= |versions| || !ValidContract(c) {
        return false;
      }
      ok := InsertVersion(prior, kind, c);
    }

    /** createVersion, its transaction. */
    method InsertVersion(prior: nat, kind: Kind, c: Contract) returns (ok: bool)
      requires prior < |versions| && ValidContract(c)
      modifies this
      ensures Now() == Ledger.CreateVersion(old(Now()), prior, kind, c)
      ensures !ok ==> Now() == old(Now())
    {
      var p := versions[prior];
      if (exists w :: prior < w < |versions| && versions[w].challenge == p.challenge)
         || (kind == Security && !Stopped(p)) || !Drained(p) || p.status == Preflight {
        return false;
      }
      var introduced;
      ok, introduced := CheckMilestones(prior, kind, c);
      if !ok {
        return;
      }
      tiers := tiers + (map m | m in introduced :: |versions|);
      if kind == Season {
        versions := versions[prior := Supersede(p)];
      }
      versions := versions + [FreshVersion(p.challenge, c, kind, Some(prior), p.frontier, introduced)];
    }

    /** The loop over the manifest's milestones: new ids are introduced, known ones
        must be transferable. */
    method CheckMilestones(prior: nat, kind: Kind, c: Contract) returns (ok: bool, introduced: set<Mid>)
      requires prior < |versions|
      ensures ok <==>
              !(exists m :: m in c.milestones && m in tiers && (kind == Season || !Transferable(Now(), prior, m)))
      ensures ok ==> introduced == set m | m in c.milestones && m !in tiers
    {
      var p, todo := versions[prior], c.milestones.Keys;
      introduced := {};
      while todo != {}
        invariant todo <= c.milestones.Keys
        invariant introduced == set m | m in c.milestones && m !in todo && m !in tiers
        invariant forall m :: m in c.milestones && m !in todo && m in tiers ==>
                    kind != Season && Transferable(Now(), prior, m)
        decreases |todo|
      {
        var m :| m in todo;
        if m !in tiers {
          introduced := introduced + {m};
        } else if kind != Security || !(tiers[m] < |versions| && versions[tiers[m]].challenge == p.challenge)
                  || m in claims || m !in p.live {
          assert m in c.milestones && m in tiers && (kind == Season || !Transferable(Now(), prior, m));
          return false, {};
        }
        todo := todo - {m};
      }
      ok := true;
    }

    method CompleteMigration(v: nat) returns (ok: bool)
      requires Valid()
      modifies this
      ensures Valid() && Now() == Next(old(Now()), DoComplete(v))
      ensures !ok ==> Now() == old(Now())
    {
      NextKeepsInv(Now(), DoComplete(v));
      if v >= |versions| {
        return false;
      }
      OwnMilestonesLive(Now(), v);
      ok := Transfer(v);
    }

    /** completeMigration, once the evidence is signed. */
    method Transfer(v: nat) returns (ok: bool)
      requires v < |versions| && forall m :: m in tiers && tiers[m] == v ==> m in versions[v].live
      modifies this
      ensures Now() == Ledger.CompleteMigration(old(Now()), v)
      ensures !ok ==> Now() == old(Now())
    {
      var version := versions[v];
      if version.status != Signing || version.predecessor.None? || version.predecessor.value >= v {
        return false;
      }
      var prior := version.predecessor.value;
      var p := versions[prior];
      if |p.rows| != p.watermark || !Stopped(p) || p.frontier != version.priorFrontier
        || version.staged != Some((p.watermark, p.frontier)) {
        return false;
      }
      var live;
      ok, live := MapMilestones(v, p.live);
      if !ok {
        return;
      }
      var closed := versions[prior := Supersede(p)];
      if exists w :: 0 <= w < |closed| && w != v && closed[w].challenge == version.challenge
                  && closed[w].intake == Open {
        return false;
      }
      versions := closed[v := version.(status := Published, intake := Open, live := live)];
    }

    /** The loop over the successor's milestones: each is its own or comes unclaimed
        from the predecessor. */
    method MapMilestones(v: nat, prior: set<Mid>) returns (ok: bool, live: set<Mid>)
      requires v < |versions| && forall m :: m in tiers && tiers[m] == v ==> m in versions[v].live
      ensures ok <==>
              !(exists m :: m in versions[v].contract.milestones
                         && (m !in tiers || m in claims || (tiers[m] != v && m !in prior)))
      ensures ok ==> live == versions[v].live + versions[v].contract.milestones.Keys
    {
      var all := versions[v].contract.milestones.Keys;
      var todo := all;
      live := versions[v].live;
      while todo != {}
        invariant todo <= all
        invariant forall m :: m in all && m !in todo ==> m in tiers && m !in claims && (tiers[m] == v || m in prior)
        invariant live == versions[v].live + (all - todo)
        decreases |todo|
      {
        var m :| m in todo;
        if m !in tiers || m in claims || (tiers[m] != v && m !in prior) {
          assert m in versions[v].contract.milestones;
          return false, live;
        }
        if tiers[m] != v {
          live := live + {m};
        }
        todo := todo - {m};
      }
      ok := true;
    }
  }

  lemma OwnMilestonesLive(l: State, v: nat)
    requires Inv(l) && v < |l.versions|
    ensures forall m :: m in l.tiers && l.tiers[m] == v ==> m in l.versions[v].live
  {
  }
}

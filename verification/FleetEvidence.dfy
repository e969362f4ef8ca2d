/** Every stored result passed the checks on its signed job. */
module FleetEvidence {
  import opened Fleet
  import opened FleetSafety
  import opened FleetVerdicts
  import opened Achievements

  predicate Checked(r: Receipt) { Storable(r.jobDigest, r.run) }

  ghost predicate AllChecked(s: State) { forall id :: id in s.results ==> Checked(s.results[id]) }

  /** A delivery changes no result but its own, and stores only what it checked. */
  lemma DeliverChecks(s: State, h: Host, r: Receipt, token: nat, now: int, spare: Id)
    ensures var t := Deliver(s, h, r, token, now, spare).0;
            t.results == s.results || (Checked(r) && t.results == s.results[r.jobId := r])
  {
    if r.jobId in s.jobs {
      CommitShape(s, h, r, spare);
    }
  }

  lemma OtherStepsStoreNothing(s: State, step: Step)
    requires !step.DoDeliver?
    ensures Next(s, step).results == s.results
  {
  }

  lemma {:induction false} RunChecked(steps: seq<Step>)
    ensures AllChecked(Run(steps))
  {
    if steps != [] {
      var s, last := Run(steps[..|steps| - 1]), steps[|steps| - 1];
      RunChecked(steps[..|steps| - 1]);
      match last
      case DoDeliver(h, r, token, now, spare) => DeliverChecks(s, h, r, token, now, spare);
      case _ => OtherStepsStoreNothing(s, last);
    }
  }

  /** Both results behind a valid verdict are sound evidence under the submission's manifest. */
  lemma BackedIsSound(s: State, sub: SubId, p: Id, q: Id)
    requires Inv(s) && Shape(s) && AllChecked(s) && sub in s.subs && BackedBy(s, sub, p, q)
    ensures Sound(s.results[p], s.subs[sub].manifest) && Sound(s.results[q], s.subs[sub].manifest)
    ensures s.results[p].jobId != s.results[q].jobId
  {
    assert RowOk(s, p) && RowOk(s, q) && JobOk(s, p) && JobOk(s, q);
    StorableIsSound(s.results[p]);
    StorableIsSound(s.results[q]);
  }

  lemma StorableIsSound(r: Receipt)
    requires Checked(r) && r.run.outcome == "valid" && r.jobDigest.purpose != Build
    ensures Sound(r, r.jobDigest.manifest)
  {
  }
}

/** Progress of adjudication in runs of the platform: exactly which calls can keep a
    decided receipt from being finalized. */
module PlatformProgress {
  import opened Wrappers
  import opened Platform
  import opened PlatformEvidence
  import F = Fleet
  import L = Ledger
  import W = Worker

  /** The step is a call of the job whose transaction is cut short or whose confirmation is lost. */
  predicate Disturbs(s: State, step: Step, name: W.Name) {
    && step.DoWorker? && step.workerStep.DoPerform? && step.workerStep.ending != W.Normal
    && step.workerStep.call < |s.world.calls| && s.world.calls[step.workerStep.call].job == name
  }

  /** No call of the job was disturbed. */
  ghost predicate Undisturbed(maximum: nat, steps: seq<Step>, name: W.Name) {
    forall n :: 0 <= n < |steps| ==> !Disturbs(Run(maximum, steps[..n]), steps[n], name)
  }

  /** No call of the job failed. */
  ghost predicate NoneFailed(w: W.World, name: W.Name) {
    forall k :: 0 <= k < |w.calls| && w.calls[k].job == name ==> w.calls[k].ran != Some(false)
  }

  lemma WorkerKeepsNoneFailed(w: W.World, t: W.Step, name: W.Name)
    requires NoneFailed(w, name)
    requires t.DoPerform? && t.call < |w.calls| && w.calls[t.call].job == name ==>
               t.ending == W.Normal && name.0 < |w.ledger.versions| && L.Settle(w.ledger, name.0).Some?
    ensures NoneFailed(W.Next(w, t), name)
  {
  }

  lemma OtherStepsCallNothing(s: State, step: Step)
    requires !step.DoWorker?
    ensures Next(s, step).world.calls == s.world.calls
  {
    match step
    case DoDeliver(h, r, token, now, spare) =>
      var (g, reply) := F.Deliver(s.fleet, h, r, token, now, spare);
      DeliveryCallsNothing(s.fleet, s.world, r, g, reply);
    case _ =>
  }

  lemma DeliveryCallsNothing(f: F.State, w: W.World, r: F.Receipt, g: F.State, reply: F.Reply)
    ensures WorldAfter(f, w, r, g, reply).calls == w.calls
  {
  }

  /** Calls belong to jobs of versions that exist. */
  lemma CalledVersionExists(maximum: nat, steps: seq<Step>, k: nat)
    requires k < |Run(maximum, steps).world.calls|
    ensures Run(maximum, steps).world.calls[k].job.0 < |Run(maximum, steps).world.ledger.versions|
  {
    var _, worker := Projections(maximum, steps);
    W.RunKeepsQueue(maximum, worker);
    var w := Run(maximum, steps).world;
    assert w.calls[k].job in w.jobs;
  }

  lemma {:induction false} UndisturbedNeverFails(maximum: nat, steps: seq<Step>, name: W.Name)
    requires Undisturbed(maximum, steps, name)
    ensures NoneFailed(Run(maximum, steps).world, name)
  {
    if steps != [] {
      var shorter, n := steps[..|steps| - 1], |steps| - 1;
      forall k | 0 <= k < |shorter|
        ensures !Disturbs(Run(maximum, shorter[..k]), shorter[k], name)
      {
        assert shorter[..k] == steps[..k];
        assert !Disturbs(Run(maximum, steps[..k]), steps[k], name);
      }
      UndisturbedNeverFails(maximum, shorter, name);
      assert !Disturbs(Run(maximum, steps[..n]), steps[n], name);
      LastStepNeverFails(maximum, shorter, steps[n], name);
    }
  }

  lemma LastStepNeverFails(maximum: nat, steps: seq<Step>, last: Step, name: W.Name)
    requires NoneFailed(Run(maximum, steps).world, name) && !Disturbs(Run(maximum, steps), last, name)
    ensures NoneFailed(Next(Run(maximum, steps), last).world, name)
  {
    var s := Run(maximum, steps);
    if !last.DoWorker? {
      OtherStepsCallNothing(s, last);
    } else {
      var t := last.workerStep;
      if t.DoPerform? && t.call < |s.world.calls| && s.world.calls[t.call].job == name {
        CalledVersionExists(maximum, steps, t.call);
        AdjudicationNeverRollsBack(maximum, steps, name.0);
      }
      WorkerKeepsNoneFailed(s.world, t, name);
    }
  }

  /** In every run of the platform: if no call of its adjudication job was broken off or
      lost its confirmation, the job of a decided receipt at the watermark can be picked,
      now or once its lease ends, and a call of it that ends normally finalizes the receipt. */
  lemma DecidedReceiptIsFinalized(maximum: nat, steps: seq<Step>, v: nat, token: nat)
    requires var w := Run(maximum, steps).world;
             && v < |w.ledger.versions| && L.Ready(w.ledger.versions[v]) && token !in w.tokens
             && Undisturbed(maximum, steps, (v, w.ledger.versions[v].watermark))
    ensures var w := Run(maximum, steps).world;
            var name := (v, w.ledger.versions[v].watermark);
            && W.Pickable(w, name)
            && var t := W.Worked(w, name, token, W.Normal);
               v < |t.ledger.versions| && !L.Ready(t.ledger.versions[v]) && t.jobs[name].status == W.Complete
  {
    var w := Run(maximum, steps).world;
    var name: W.Name := (v, w.ledger.versions[v].watermark);
    UndisturbedNeverFails(maximum, steps, name);
    NotSetAside(maximum, steps, name);
    StillIncomplete(maximum, steps, v);
    AdjudicationNeverRollsBack(maximum, steps, v);
    W.WorkedOutcome(w, name, token, W.Normal);
  }

  lemma NotSetAside(maximum: nat, steps: seq<Step>, name: W.Name)
    requires NoneFailed(Run(maximum, steps).world, name)
    ensures var w := Run(maximum, steps).world; name in w.jobs ==> w.jobs[name].status != W.Attention
  {
    var _, worker := Projections(maximum, steps);
    W.AttentionNeedsFailure(maximum, worker, name);
  }

  lemma StillIncomplete(maximum: nat, steps: seq<Step>, v: nat)
    requires var w := Run(maximum, steps).world; v < |w.ledger.versions| && L.Ready(w.ledger.versions[v])
    ensures var w := Run(maximum, steps).world;
            var name := (v, w.ledger.versions[v].watermark);
            name in w.jobs && w.jobs[name].status != W.Complete
  {
    var _, worker := Projections(maximum, steps);
    W.NoLostWakeup(maximum, worker, v);
  }
}

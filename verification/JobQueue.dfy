/** The job table and the worker as an object over the ledger tables: enqueueing with a
    verdict, and workOne as its three transactions. Every method keeps the invariant
    that no decided receipt is left without an incomplete job. */
module JobQueue {
  import opened Wrappers
  import opened Ledger
  import opened LedgerSafety
  import opened LedgerStore
  import W = Worker

  class Queue {
    const tables: Tables
    var jobs: map<W.Name, W.Job>
    var calls: seq<W.Call>
    var tokens: set<nat>

    ghost function Now(): W.World
      reads this, tables
    {
      W.World(tables.Now(), jobs, calls, tokens)
    }

    ghost predicate Valid()
      reads this, tables
    {
      tables.Valid() && W.QueueOk(Now())
    }

    constructor (maximum: nat)
      ensures Valid() && fresh(tables) && Now() == W.Run(maximum, [])
    {
      tables := new Tables(maximum);
      jobs, calls, tokens := map[], [], {};
    }

    /** The end of runnerResult: the verdict and, in the same transaction, its job. */
    method Report(v: nat, i: nat, verdict: Verdict, pause: bool)
      requires Valid()
      modifies this, tables
      ensures Valid() && Now() == W.Next(old(Now()), W.DoReport(v, i, verdict, pause))
    {
      W.ReportKeepsQueue(Now(), v, i, verdict, pause);
      StoreAndEnqueue(v, i, verdict, pause);
    }

    method StoreAndEnqueue(v: nat, i: nat, verdict: Verdict, pause: bool)
      requires tables.Valid()
      modifies this, tables
      ensures tables.Valid() && Now() == W.Report(old(Now()), v, i, verdict, pause)
    {
      var stored := tables.StoreVerdict(v, i, verdict, pause);
      if stored {
        jobs := W.Inserted(jobs, (v, i));
      }
    }

    /** workOne on a job that is ready or whose lease has expired. It keeps the invariant,
        and a call that ends normally on usable evidence completes the job and leaves no
        decided receipt at its version's watermark. */
    method WorkOne(name: W.Name, token: nat, e: W.Ending) returns (worked: bool)
      requires Valid() && token !in tokens
      modifies this, tables
      ensures Valid() && Now() == W.Worked(old(Now()), name, token, e)
      ensures worked <==> name in old(jobs) && old(jobs)[name].status !in {W.Complete, W.Attention}
      ensures worked && e == W.Normal && name.0 < |old(tables.versions)| && Settle(old(tables.Now()), name.0).Some? ==>
                name in jobs && jobs[name].status == W.Complete && name.0 < |tables.versions|
                && !Ready(tables.versions[name.0])
    {
      ghost var before := Now();
      WorkedIsSafe(before, name, token, e);
      worked := PickJob(name, token);
      if worked {
        W.WorkedOutcome(before, name, token, e);
        PerformCall(|calls| - 1, e);
        RecordCall(|calls| - 1);
      }
    }

    /** The first statement of workOne. */
    method PickJob(name: W.Name, token: nat) returns (picked: bool)
      requires token !in tokens
      modifies this
      ensures Now() == W.Picked(old(Now()), name, token) && (picked <==> W.Pickable(old(Now()), name))
      ensures picked ==> |calls| == |old(calls)| + 1 && calls[|calls| - 1].ran.None?
    {
      picked := name in jobs && jobs[name].status != W.Complete && jobs[name].status != W.Attention;
      if picked {
        var attempts := jobs[name].attempts + 1;
        jobs := jobs[name := W.Job(W.Running, attempts, Some(token))];
        calls := calls + [W.Call(name, token, attempts, None)];
        tokens := tokens + {token};
      }
    }

    /** The job's own transaction. */
    method PerformCall(k: nat, e: W.Ending)
      requires k < |calls| && calls[k].ran.None?
      modifies this`calls, tables
      ensures Now() == W.Performed(old(Now()), k, e) && |calls| == |old(calls)| && calls[k].ran.Some?
    {
      var ok, v := false, calls[k].job.0;
      if v < |tables.versions| {
        if e != W.BrokenOff {
          ok := tables.SettleVersion(v);
        }
      }
      calls := calls[k := calls[k].(ran := Some(ok && e == W.Normal))];
    }

    /** The last statement of workOne, effective under the call's own token only. */
    method RecordCall(k: nat)
      requires k < |calls| && calls[k].ran.Some?
      modifies this`jobs
      ensures Now() == W.Recorded(old(Now()), k)
    {
      var c := calls[k];
      if c.job !in jobs || jobs[c.job].token != Some(c.token) {
        return;
      }
      var status := W.Retry;
      if c.ran.value {
        status := W.Complete;
      } else if c.attempts >= W.MAX_ATTEMPTS {
        status := W.Attention;
      }
      jobs := jobs[c.job := jobs[c.job].(status := status)];
    }
  }

  lemma WorkedIsSafe(w: W.World, name: W.Name, token: nat, e: W.Ending)
    requires Inv(w.ledger) && W.QueueOk(w)
    ensures Inv(W.Worked(w, name, token, e).ledger) && W.QueueOk(W.Worked(w, name, token, e))
  {
    W.WorkedKeepsQueue(w, name, token, e);
    WorkedKeepsLedger(w, name, token, e);
  }

  lemma WorkedKeepsLedger(w: W.World, name: W.Name, token: nat, e: W.Ending)
    requires Inv(w.ledger)
    ensures Inv(W.Worked(w, name, token, e).ledger)
  {
    W.WorkedLedger(w, name, token, e);
    if W.Worked(w, name, token, e).ledger != w.ledger {
      NextKeepsInv(w.ledger, DoAdjudicate(name.0));
    }
  }
}

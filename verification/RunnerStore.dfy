/** The runner tables as an object whose methods are the transactions of
    internal/platform/runners.go. Each method is proved to make exactly the step
    that module Fleet specifies, and to keep the invariants. */
module RunnerStore {
  import opened Wrappers
  import opened Fleet
  import opened FleetSafety
  import opened FleetVerdicts

  class Store {
    var jobs: map<Id, Job>
    var results: map<Id, Receipt>
    var subs: map<SubId, Sub>
    var claims: seq<Claim>
    ghost var leases: seq<Lease>

    ghost function Now(): State
      reads this
    {
      State(jobs, results, subs, claims, leases)
    }

    ghost predicate Valid()
      reads this
    {
      Inv(Now()) && SubInv(Now())
    }

    constructor ()
      ensures Valid() && Now() == EMPTY
    {
      jobs, results, subs, claims, leases := map[], map[], map[], [], [];
    }

    method QueueSubmission(sub: SubId, id: Id)
      requires Valid()
      modifies this
      ensures Now() == Next(old(Now()), DoQueue(sub, id)) && Valid()
    {
      ghost var before := Now();
      NextKeepsInv(before, DoQueue(sub, id));
      NextKeeps(before, DoQueue(sub, id));
      if sub !in subs || id in jobs || !ValidPolicyName(subs[sub].policy) {
        return;
      }
      if k :| k in jobs && jobs[k].payload.purpose == Primary && jobs[k].payload.submission == sub {
        assert PrimaryOf(before, k, sub);
        return;
      }
      jobs := jobs[id := NewJob(Spec(id, Primary, sub, subs[sub].policy, subs[sub].manifest, [], "", 1, 0), None)];
      subs := subs[sub := subs[sub].(status := SubQueued)];
    }

    method RecoverLeases(now: int)
      requires Valid()
      modifies this
      ensures Now() == Next(old(Now()), DoRecover(now)) && Valid()
    {
      NextKeepsInv(Now(), DoRecover(now));
      NextKeeps(Now(), DoRecover(now));
      RecoverRows(now);
    }

    /** The update of recoverRunnerLeases, row by row. */
    method RecoverRows(now: int)
      modifies this`jobs
      ensures Now() == Recover(old(Now()), now)
    {
      ghost var before := Now();
      var todo := jobs.Keys;
      while todo != {}
        invariant jobs.Keys == before.jobs.Keys && todo <= jobs.Keys
        invariant forall id :: id in jobs ==>
                    jobs[id] == if id in todo then before.jobs[id] else RecoverRow(before, id, now)
        decreases |todo|
      {
        var id :| id in todo;
        var j := jobs[id];
        if j.status == Running && j.deadline.Some? && j.deadline.value < now && id !in results {
          jobs := jobs[id := Recovered(j)];
        }
        todo := todo - {id};
      }
    }

    /** The read of claimRunnerJob: any offered row may be chosen. */
    method BeginClaim(id: Id, h: Host, expires: int)
      requires Valid()
      modifies this
      ensures Now() == Next(old(Now()), DoBegin(id, h, expires)) && Valid()
    {
      NextKeepsInv(Now(), DoBegin(id, h, expires));
      NextKeeps(Now(), DoBegin(id, h, expires));
      if id in jobs && Offered(jobs[id], h) {
        var payload := jobs[id].payload.(group := h.group, fence := jobs[id].fence, expires := expires);
        claims := claims + [Claim(id, payload, jobs[id].fence, h)];
      }
    }

    /** The compare-and-set of claimRunnerJob. */
    method FinishClaim(i: nat, token: nat) returns (claimed: bool)
      requires Valid() && i < |claims|
      modifies this
      ensures Now() == Next(old(Now()), DoFinish(i, token)) && Valid()
      ensures claimed <==> old(Claimable(Now(), claims[i]))
      ensures claimed ==>
                leases == old(leases) + [Lease(claims[i].job, claims[i].fence, claims[i].host.id, claims[i].payload)]
    {
      NextKeepsInv(Now(), DoFinish(i, token));
      NextKeeps(Now(), DoFinish(i, token));
      var c := claims[i];
      claimed := c.job in jobs && jobs[c.job].status == Queued && jobs[c.job].fence == c.fence;
      if claimed {
        var j := jobs[c.job];
        jobs := jobs[c.job := j.(status := Running, host := Some(c.host.id), payload := c.payload, token := Some(token),
                                 deadline := Some(c.payload.expires), attempts := j.attempts + 1)];
        leases := leases + [Lease(c.job, c.fence, c.host.id, c.payload)];
      }
    }

    /** runnerResult. */
    method RunnerResult(h: Host, r: Receipt, token: nat, now: int, spare: Id) returns (reply: Reply)
      requires Valid()
      modifies this
      ensures (Now(), reply) == Deliver(old(Now()), h, r, token, now, spare) && Valid()
    {
      NextKeepsInv(Now(), DoDeliver(h, r, token, now, spare));
      NextKeeps(Now(), DoDeliver(h, r, token, now, spare));
      if r.host != h.id || r.group != h.group || !r.official || r.createdAt > now + 60 || r.jobId !in jobs {
        return Refused;
      }
      var j := jobs[r.jobId];
      if j.token != Some(token) {
        return Refused;
      }
      if j.status == Completed {
        return if r.jobId in results && results[r.jobId] == r then Duplicate else Refused;
      }
      if !ForCurrentLease(j, h, r, now) {
        return Refused;
      }
      if r.run.outcome == "infrastructure_fault" {
        jobs := jobs[r.jobId := Faulted(j, h.id)];
        return Retrying;
      }
      if !Storable(j.payload, r.run) || r.jobId in results {
        return Refused;
      }
      reply := CommitResult(h, r, spare);
    }

    /** The end of runnerResult: store the result and decide what follows. */
    method CommitResult(h: Host, r: Receipt, spare: Id) returns (reply: Reply)
      requires Shape(Now()) && r.jobId in jobs
      modifies this
      ensures (Now(), reply) == Commit(old(Now()), h, r, spare)
    {
      ghost var before := Now();
      var p := jobs[r.jobId].payload;
      var outcome, score := r.run.outcome, None;
      if p.purpose == Primary && outcome == "valid" {
        if spare in jobs {
          return Refused;
        }
        StoreResult(r);
        jobs := jobs[spare := NewJob(ConfirmationSpec(p, h, spare), ConfirmationGroup(p, h))];
        if p.submission in subs {
          subs := subs[p.submission := subs[p.submission].(status := Confirming)];
        }
        return Stored(false, false);
      }
      if p.purpose == Confirmation && outcome != "challenge_fault" {
        var first := FindPrimary(p.submission);
        if first.None? || !FreshConfirmation(p, h, r, first.value) {
          return Refused;
        }
        var v := Verdict(first.value.run, r.run, p.manifest);
        outcome, score := v.0, v.1;
      }
      StoreResult(r);
      if p.purpose == Build {
        return Stored(true, false);
      }
      if r.run.outcome == "challenge_fault" {
        if p.submission in subs {
          subs := subs[p.submission := subs[p.submission].(status := ChallengeFault, outcome := "pending")];
        }
        return Stored(false, true);
      }
      if p.submission in subs {
        subs := subs[p.submission := subs[p.submission].(status := Validated, outcome := outcome, score := score)];
      }
      reply := Stored(true, outcome == "nondeterministic");
    }

    method StoreResult(r: Receipt)
      requires r.jobId in jobs
      modifies this
      ensures Now() == WithResult(old(Now()), r)
    {
      results := results[r.jobId := r];
      jobs := jobs[r.jobId := jobs[r.jobId].(status := Completed, deadline := None)];
    }

    /** The stored primary result; there is at most one. */
    method FindPrimary(sub: SubId) returns (first: Option<Receipt>)
      requires Shape(Now())
      ensures first == PrimaryResult(Now(), sub)
    {
      if k :| k in jobs && jobs[k].payload.purpose == Primary && jobs[k].payload.submission == sub && k in results {
        assert PrimaryOf(Now(), k, sub);
        first := Some(results[k]);
      } else {
        first := None;
      }
    }
  }
}

/** The candidate broker (internal/runner/broker_linux.go, broker_timing_linux.go and
    the request rules of broker.go): a guest process that builds once, runs the
    candidate, and in measuring mode runs baseline/candidate pairs that the checker
    acknowledges one by one. What the operating system does in one request is
    given as an Effects value. */
module Broker {
  import opened Wrappers
  import opened Timing
  import opened Ticks
  import Binomial

  const MAX_INPUT: nat := 16_777_216

  /** A program's run limits and, in measuring mode, the locked policy. */
  datatype Program = Program(measurement: Option<Policy>, minRuns: int, maxRuns: int)

  datatype State = State(built: bool, ready: bool, baselineReady: bool, runs: int, pairs: seq<Trial>,
                         pending: bool, outputsValid: bool, fault: bool)

  const FRESH := State(false, false, false, 0, [], false, false, false)

  /** A request with the length of its input. */
  datatype Request = Request(action: string, quality: Option<bool>, input: nat)

  /** One execution: an infrastructure error, or an outcome and a trusted duration. */
  datatype Execution = Broken | Finished(outcome: string, nanos: int)

  predicate Passed(e: Execution) { e.Finished? && e.outcome == "valid" }

  /** The executions of a request in their order, and whether the file system steps
      of a build succeed. */
  datatype Effects = Effects(first: Execution, second: Execution, baselineSealed: bool, sealed: bool, published: bool)

  /** The answer; `pair` holds the baseline's and the candidate's execution. */
  datatype Reply = Reply(outcome: string, pair: Option<(Execution, Execution)>)

  const INVALID := Reply("invalid_request", None)
  const FAULT := Reply("infrastructure_fault", None)

  // ------------------------------------------------------- one request, as a value

  /** The locked order of pair i: alternating, restarting at the first measured trial. */
  predicate BaselineFirst(p: Policy, i: nat) { (if i < p.warmups then i else i - p.warmups) % 2 == 0 }

  predicate Assessable(s: State, r: Request) { s.pending && r.quality.Some? && r.input == 0 }

  predicate Pairable(c: Program, s: State, r: Request)
    requires c.measurement.Some?
  {
    && r.action == "pair" && r.quality.None? && r.input <= MAX_INPUT && s.ready && s.baselineReady && !s.pending
    && |s.pairs| < c.measurement.value.warmups + c.measurement.value.repetitions && s.runs + 2 <= c.maxRuns
  }

  function TimingStep(c: Program, s: State, r: Request, e: Effects): (State, Reply)
    requires c.measurement.Some? && (s.pending ==> s.pairs != [])
  {
    if r.action == "assess" then
      if !Assessable(s, r) then (s, INVALID)
      else
        var last := s.pairs[|s.pairs| - 1].(qualityPassed := r.quality.value && s.outputsValid);
        (s.(pairs := s.pairs[..|s.pairs| - 1] + [last], pending := false), Reply("valid", None))
    else if !Pairable(c, s, r) then (s, INVALID)
    else if e.first.Broken? || e.second.Broken? then (s.(fault := true), FAULT)
    else
      var baselineFirst := BaselineFirst(c.measurement.value, |s.pairs|);
      var baseline := if baselineFirst then e.first else e.second;
      var candidate := if baselineFirst then e.second else e.first;
      (s.(pairs := s.pairs + [Trial(baseline.nanos, candidate.nanos, baselineFirst, false)], runs := s.runs + 2,
          pending := true, outputsValid := Passed(baseline) && Passed(candidate)),
       Reply("valid", Some((baseline, candidate))))
  }

  /** The build request: the candidate, then the frozen baseline, then sealing. */
  function BuildStep(c: Program, s: State, r: Request, e: Effects): (State, Reply) {
    if r.quality.Some? || r.input != 0 || s.built || s.runs != 0 then (s, INVALID)
    else
      var t := s.(built := true);
      if e.first.Broken? then (t.(fault := true), FAULT)
      else if e.first.outcome != "valid" then (t, Reply(e.first.outcome, None))
      else if c.measurement.Some? && !(Passed(e.second) && e.baselineSealed) then (t.(fault := true), FAULT)
      else
        var u := if c.measurement.Some? then t.(baselineReady := true) else t;
        if !e.sealed then (u.(fault := true), FAULT)
        else if !e.published then (u, Reply("invalid_output", None))
        else (u.(ready := true), Reply("valid", None))
  }

  /** A run request outside measuring mode. */
  function RunStep(c: Program, s: State, r: Request, e: Effects): (State, Reply) {
    if r.action != "run" || r.quality.Some? || r.input > MAX_INPUT || !s.built || s.runs >= c.maxRuns || !s.ready
    then (s, INVALID)
    else
      var t := s.(runs := s.runs + 1);
      if e.first.Broken? then (t.(fault := true), FAULT) else (t, Reply(e.first.outcome, None))
  }

  function Step(c: Program, s: State, r: Request, e: Effects): (State, Reply)
    requires s.pending ==> s.pairs != []
  {
    if r.action == "build" then BuildStep(c, s, r, e)
    else if c.measurement.Some? then TimingStep(c, s, r, e)
    else RunStep(c, s, r, e)
  }

  // ------------------------------------------------------------ the process

  class CandidateBroker {
    const program: Program
    var built: bool
    var ready: bool
    var baselineReady: bool
    var runs: int
    var pairs: seq<Trial>
    var pending: bool
    var outputsValid: bool
    var fault: bool

    ghost predicate Valid()
      reads this
    {
      pending ==> pairs != []
    }

    ghost function Now(): State
      reads this
    {
      State(built, ready, baselineReady, runs, pairs, pending, outputsValid, fault)
    }

    constructor (p: Program)
      ensures Valid() && program == p && Now() == FRESH
    {
      program := p;
      built, ready, baselineReady, runs := false, false, false, 0;
      pairs, pending, outputsValid, fault := [], false, false, false;
    }

    method TimingRequest(r: Request, e: Effects) returns (reply: Reply)
      requires Valid() && program.measurement.Some?
      modifies this
      ensures Valid() && (Now(), reply) == TimingStep(program, old(Now()), r, e)
    {
      var p := program.measurement.value;
      if r.action == "assess" {
        if !pending || r.quality.None? || r.input != 0 {
          return INVALID;
        }
        var n := |pairs| - 1;
        pairs := pairs[..n] + [pairs[n].(qualityPassed := r.quality.value && outputsValid)];
        pending := false;
        return Reply("valid", None);
      }
      if r.action != "pair" || r.quality.Some? || r.input > MAX_INPUT || !ready || !baselineReady || pending
         || |pairs| >= p.warmups + p.repetitions || runs + 2 > program.maxRuns {
        return INVALID;
      }
      var index := |pairs|;
      var warmup := index < p.warmups;
      var relative := index;
      if !warmup {
        relative := relative - p.warmups;
      }
      var baselineFirst := relative % 2 == 0;
      if e.first.Broken? || e.second.Broken? {
        fault := true;
        return FAULT;
      }
      var baseline, candidate := e.second, e.first;
      if baselineFirst {
        baseline, candidate := e.first, e.second;
      }
      runs := runs + 2;
      pending := true;
      outputsValid := Passed(baseline) && Passed(candidate);
      pairs := pairs + [Trial(baseline.nanos, candidate.nanos, baselineFirst, false)];
      reply := Reply("valid", Some((baseline, candidate)));
    }

    /** One connection of serve. */
    method Handle(r: Request, e: Effects) returns (reply: Reply)
      requires Valid()
      modifies this
      ensures Valid() && (Now(), reply) == Step(program, old(Now()), r, e)
    {
      if program.measurement.Some? && r.action != "build" {
        reply := TimingRequest(r, e);
        return;
      }
      reply := INVALID;
      var refused := r.quality.Some? || r.input > MAX_INPUT;
      if r.action == "build" {
        refused := refused || built || runs != 0 || r.input != 0;
      } else if r.action == "run" {
        refused := refused || !built || runs >= program.maxRuns;
      } else {
        refused := true;
      }
      if refused || !(r.action == "build" || ready) {
        return;
      }
      if r.action == "build" {
        built := true;
      } else {
        runs := runs + 1;
      }
      if e.first.Broken? {
        fault := true;
        reply := FAULT;
      } else {
        reply := Reply(e.first.outcome, None);
      }
      if r.action == "build" && reply.outcome == "valid" && program.measurement.Some? {
        if e.second.Broken? || e.second.outcome != "valid" || !e.baselineSealed {
          fault := true;
          reply := FAULT;
        } else {
          baselineReady := true;
        }
      }
      if r.action == "build" && reply.outcome == "valid" {
        if !e.sealed {
          fault := true;
          reply := FAULT;
        } else if !e.published {
          reply := Reply("invalid_output", None);
        } else {
          ready := true;
        }
      }
    }

    /** serve: requests one after another until a fault. */
    method Serve(requests: seq<(Request, Effects)>)
      requires Valid() && Now() == FRESH
      modifies this
      ensures Valid() && Now() == Run(program, requests)
    {
      var i := 0;
      while i < |requests| && !fault
        invariant 0 <= i <= |requests| && Valid() && Now() == Run(program, requests[..i])
      {
        var reply := Handle(requests[i].0, requests[i].1);
        assert requests[..i + 1][..i] == requests[..i];
        i := i + 1;
      }
      assert requests[..|requests|] == requests;
      if i < |requests| {
        FaultStops(program, requests, i);
      }
    }
  }

  /** The state after serving a list of requests; a fault ends the service. */
  function Run(c: Program, requests: seq<(Request, Effects)>): (s: State)
    ensures s.pending ==> s.pairs != []
  {
    if requests == [] then FRESH
    else
      var s := Run(c, requests[..|requests| - 1]);
      var last := requests[|requests| - 1];
      if s.fault then s else Step(c, s, last.0, last.1).0
  }

  lemma {:induction false} FaultStops(c: Program, requests: seq<(Request, Effects)>, i: nat)
    requires i <= |requests| && Run(c, requests[..i]).fault
    ensures Run(c, requests) == Run(c, requests[..i])
  {
    if i < |requests| {
      var shorter := requests[..|requests| - 1];
      assert shorter[..i] == requests[..i];
      FaultStops(c, shorter, i);
    } else {
      assert requests[..i] == requests;
    }
  }

  // ------------------------------------------------------- every reachable state

  /** The accepted requests: a pair with its two executions in the order in which they were
      made, and an acknowledgement with what the checker said. */
  datatype Accepted = Ran(first: Execution, second: Execution) | Acknowledged(quality: bool)

  /** The accepted timing requests of a run, in order. */
  function Transcript(c: Program, requests: seq<(Request, Effects)>): seq<Accepted> {
    if requests == [] then []
    else
      var shorter, last := requests[..|requests| - 1], requests[|requests| - 1];
      var s := Run(c, shorter);
      Transcript(c, shorter) + if s.fault then [] else Entry(c, s, last.0, last.1)
  }

  function Entry(c: Program, s: State, r: Request, e: Effects): seq<Accepted>
    requires s.pending ==> s.pairs != []
  {
    var reply := Step(c, s, r, e).1;
    if c.measurement.None? || r.action == "build" || reply.outcome != "valid" then []
    else if r.action == "assess" && r.quality.Some? then [Acknowledged(r.quality.value)]
    else if r.action == "pair" then [Ran(e.first, e.second)]
    else []
  }

  /** The position of pair i in its phase: warmups first, then the measured trials. */
  function Position(p: Policy, i: nat): int { if i < p.warmups then i else i - p.warmups }

  /** Trial i as two consecutive accepted requests tell it: at even positions of its phase
      the baseline was executed first, at odd ones the candidate; the quality is what its
      own acknowledgement said, if both executions passed. */
  ghost predicate Tells(p: Policy, log: seq<Accepted>, i: nat, t: Trial) {
    && 2 * i < |log| && log[2 * i].Ran? && log[2 * i].first.Finished? && log[2 * i].second.Finished?
    && (Position(p, i) % 2 == 0 ==>
          t.baselineFirst && t.baselineNanos == log[2 * i].first.nanos && t.candidateNanos == log[2 * i].second.nanos)
    && (Position(p, i) % 2 == 1 ==>
          !t.baselineFirst && t.candidateNanos == log[2 * i].first.nanos && t.baselineNanos == log[2 * i].second.nanos)
    && (2 * i + 1 < |log| ==>
          (log[2 * i + 1].Acknowledged?
           && t.qualityPassed == (log[2 * i + 1].quality && log[2 * i].first.outcome == "valid"
                                  && log[2 * i].second.outcome == "valid")))
    && (2 * i + 1 == |log| ==> !t.qualityPassed)
  }

  /** The invariant of a measuring broker. */
  ghost predicate Inv(c: Program, s: State, log: seq<Accepted>)
    requires c.measurement.Some?
  {
    var p := c.measurement.value;
    && s.runs == 2 * |s.pairs| && (s.pairs != [] ==> s.runs <= c.maxRuns && |s.pairs| <= p.warmups + p.repetitions)
    && |log| == 2 * |s.pairs| - (if s.pending then 1 else 0)
    && (s.pending ==> s.pairs != [] && s.outputsValid == (Passed(Last(log).first) && Passed(Last(log).second)))
    && (s.pairs != [] ==> s.ready && s.baselineReady) && (s.ready ==> s.built && s.baselineReady)
    && forall i :: 0 <= i < |s.pairs| ==> Tells(p, log, i, s.pairs[i])
  }

  ghost function Last(log: seq<Accepted>): Accepted {
    if log != [] && log[|log| - 1].Ran? then log[|log| - 1] else Ran(Broken, Broken)
  }

  lemma AssessKeepsInv(c: Program, s: State, log: seq<Accepted>, r: Request, e: Effects)
    requires c.measurement.Some? && Inv(c, s, log) && r.action == "assess"
    ensures Inv(c, Step(c, s, r, e).0, log + Entry(c, s, r, e))
  {
    if Assessable(s, r) {
      var t, more := Step(c, s, r, e).0, log + Entry(c, s, r, e);
      var n := |s.pairs| - 1;
      assert Tells(c.measurement.value, log, n, s.pairs[n]);
      forall i | 0 <= i < |t.pairs|
        ensures Tells(c.measurement.value, more, i, t.pairs[i])
      {
        assert Tells(c.measurement.value, log, i, s.pairs[i]);
      }
    }
  }

  lemma PairKeepsInv(c: Program, s: State, log: seq<Accepted>, r: Request, e: Effects)
    requires c.measurement.Some? && Inv(c, s, log) && r.action != "assess" && r.action != "build"
    ensures Inv(c, Step(c, s, r, e).0, log + Entry(c, s, r, e))
  {
    var t, more := Step(c, s, r, e).0, log + Entry(c, s, r, e);
    if Pairable(c, s, r) && e.first.Finished? && e.second.Finished? {
      forall i | 0 <= i < |t.pairs|
        ensures Tells(c.measurement.value, more, i, t.pairs[i])
      {
        if i < |s.pairs| {
          assert Tells(c.measurement.value, log, i, s.pairs[i]);
        }
      }
    } else {
      assert more == log;
    }
  }

  lemma StepKeepsInv(c: Program, s: State, log: seq<Accepted>, r: Request, e: Effects)
    requires c.measurement.Some? && Inv(c, s, log)
    ensures Inv(c, Step(c, s, r, e).0, log + Entry(c, s, r, e))
  {
    if r.action == "assess" {
      AssessKeepsInv(c, s, log, r, e);
    } else if r.action == "build" {
      assert log + Entry(c, s, r, e) == log;
    } else {
      PairKeepsInv(c, s, log, r, e);
    }
  }

  /** Every reachable state: runs are twice the pairs, only the last pair can be
      unassessed, the order is the locked one, and the recorded trials are exactly
      what the accepted pair and assess requests said, which strictly alternate. */
  lemma {:induction false} ReachableInv(c: Program, requests: seq<(Request, Effects)>)
    requires c.measurement.Some?
    ensures Inv(c, Run(c, requests), Transcript(c, requests))
  {
    if requests != [] {
      var n := |requests| - 1;
      ReachableInv(c, requests[..n]);
      var s, log := Run(c, requests[..n]), Transcript(c, requests[..n]);
      if s.fault {
        assert log + [] == log;
      } else {
        StepKeepsInv(c, s, log, requests[n].0, requests[n].1);
      }
    }
  }

  /** A pair request in a reachable measuring session is carried out exactly when it has the
      right form, the programs are ready, the last pair is assessed, and schedule and budget
      have room for it. It then adds the trial that its two executions make at this position
      of the phase, and answers with them; a broken execution ends the session. */
  lemma PairAnswers(c: Program, requests: seq<(Request, Effects)>, r: Request, e: Effects)
    requires c.measurement.Some? && r.action == "pair" && !Run(c, requests).fault
    ensures var p, s := c.measurement.value, Run(c, requests);
            var (t, reply) := Step(c, s, r, e);
            var carried := r.quality.None? && r.input <= 16_777_216 && s.ready && !s.pending
                           && |s.pairs| < p.warmups + p.repetitions && 2 * |s.pairs| + 2 <= c.maxRuns;
            var even := Position(p, |s.pairs|) % 2 == 0;
            if !carried then t == s && reply == Reply("invalid_request", None)
            else if e.first.Broken? || e.second.Broken?
            then t == s.(fault := true) && reply == Reply("infrastructure_fault", None)
            else
              && reply == Reply("valid", Some(if even then (e.first, e.second) else (e.second, e.first)))
              && t.pending && t.runs == s.runs + 2 && |t.pairs| == |s.pairs| + 1 && t.pairs[..|s.pairs|] == s.pairs
              && t.outputsValid == (e.first.outcome == "valid" && e.second.outcome == "valid")
              && t.pairs[|s.pairs|] == (if even then Trial(e.first.nanos, e.second.nanos, true, false)
                                        else Trial(e.second.nanos, e.first.nanos, false, false))
              && t == s.(pairs := t.pairs, pending := true, runs := s.runs + 2, outputsValid := t.outputsValid)
  {
    ReachableInv(c, requests);
  }

  /** An acknowledgement counts exactly when a pair waits for one; every other action is refused. */
  lemma AssessAnswers(c: Program, requests: seq<(Request, Effects)>, r: Request, e: Effects)
    requires c.measurement.Some? && r.action != "pair" && r.action != "build" && !Run(c, requests).fault
    ensures var s := Run(c, requests);
            var (t, reply) := Step(c, s, r, e);
            if r.action == "assess" && s.pending && r.quality.Some? && r.input == 0
            then
              && s.pairs != [] && reply == Reply("valid", None)
              && var n := |s.pairs| - 1;
                 t == s.(pending := false,
                         pairs := s.pairs[n := s.pairs[n].(qualityPassed := r.quality.value && s.outputsValid)])
            else t == s && reply == Reply("invalid_request", None)
  {
    ReachableInv(c, requests);
  }

  // ---------------------------------------------------- sessions without measuring

  /** Without a measuring policy there are no pairs, the runs stay within the budget, and
      only a candidate that was built is ready or was run. */
  ghost predicate PlainInv(c: Program, s: State) {
    && s.pairs == [] && !s.pending && !s.baselineReady && 0 <= s.runs && (s.runs > 0 ==> s.runs <= c.maxRuns && s.ready)
    && (s.ready ==> s.built)
  }

  lemma {:induction false} PlainSession(c: Program, requests: seq<(Request, Effects)>)
    requires c.measurement.None?
    ensures PlainInv(c, Run(c, requests))
  {
    if requests != [] {
      PlainSession(c, requests[..|requests| - 1]);
    }
  }

  /** A run is carried out exactly while a ready candidate has budget left. */
  lemma PlainAnswers(c: Program, requests: seq<(Request, Effects)>, r: Request, e: Effects)
    requires c.measurement.None? && r.action != "build" && !Run(c, requests).fault
    ensures var s := Run(c, requests);
            var (t, reply) := Step(c, s, r, e);
            if r.action == "run" && r.quality.None? && r.input <= 16_777_216 && s.ready && s.runs < c.maxRuns then
              && t == s.(runs := s.runs + 1, fault := e.first.Broken?)
              && reply == Reply(if e.first.Broken? then "infrastructure_fault" else e.first.outcome, None)
            else t == s && reply == Reply("invalid_request", None)
  {
    PlainSession(c, requests);
  }

  /** In either mode a session builds at most once. The candidate is ready afterwards exactly
      when its build, the baseline's where there is one, sealing and publishing all succeed;
      a failure that is not the candidate's own ends the session. */
  lemma BuildAnswers(c: Program, requests: seq<(Request, Effects)>, r: Request, e: Effects)
    requires r.action == "build" && !Run(c, requests).fault
    ensures var s := Run(c, requests);
            var (t, reply) := Step(c, s, r, e);
            if r.quality.Some? || r.input != 0 || s.built then t == s && reply == Reply("invalid_request", None)
            else
              var good := e.first.Finished? && e.first.outcome == "valid";
              var baseline := e.second.Finished? && e.second.outcome == "valid" && e.baselineSealed;
              var sound := good && (c.measurement.Some? ==> baseline);
              && !s.ready && !s.baselineReady
              && t == s.(built := true, baselineReady := sound && c.measurement.Some?,
                         ready := sound && e.sealed && e.published,
                         fault := e.first.Broken? || (good && !(sound && e.sealed)))
              && reply == Reply(if t.fault then "infrastructure_fault" else if !good then e.first.outcome
                                else if !e.published then "invalid_output" else "valid", None)
  {
    if c.measurement.Some? {
      ReachableInv(c, requests);
    } else {
      PlainSession(c, requests);
    }
    BaselineNeedsBuild(c, requests);
  }

  lemma {:induction false} BaselineNeedsBuild(c: Program, requests: seq<(Request, Effects)>)
    ensures Run(c, requests).baselineReady || Run(c, requests).ready ==> Run(c, requests).built
  {
    if requests != [] {
      BaselineNeedsBuild(c, requests[..|requests| - 1]);
    }
  }

  /** Assessed pairs never change again. */
  function Assessed(s: State): seq<Trial> {
    if s.pending && s.pairs != [] then s.pairs[..|s.pairs| - 1] else s.pairs
  }

  lemma StepKeepsAssessed(c: Program, s: State, r: Request, e: Effects)
    requires s.pending ==> s.pairs != []
    ensures Assessed(s) <= Assessed(Step(c, s, r, e).0)
  {
    if r.action != "build" && c.measurement.Some? {
      TimingKeepsAssessed(c, s, r, e);
    } else {
      assert Step(c, s, r, e).0.pairs == s.pairs;
    }
  }

  lemma TimingKeepsAssessed(c: Program, s: State, r: Request, e: Effects)
    requires c.measurement.Some? && (s.pending ==> s.pairs != [])
    ensures Assessed(s) <= Assessed(TimingStep(c, s, r, e).0)
  {
  }

  lemma PrefixTransitive(a: seq<Trial>, b: seq<Trial>, c: seq<Trial>)
    requires a <= b && b <= c
    ensures a <= c
  {
  }

  lemma {:induction false} AssessedKept(c: Program, requests: seq<(Request, Effects)>, i: nat)
    requires i <= |requests|
    ensures Assessed(Run(c, requests[..i])) <= Assessed(Run(c, requests))
  {
    if i < |requests| {
      var shorter := requests[..|requests| - 1];
      assert shorter[..i] == requests[..i];
      AssessedKept(c, shorter, i);
      var last := requests[|requests| - 1];
      StepKeepsAssessed(c, Run(c, shorter), last.0, last.1);
      PrefixTransitive(Assessed(Run(c, requests[..i])), Assessed(Run(c, shorter)), Assessed(Run(c, requests)));
    } else {
      assert requests[..i] == requests;
    }
  }

  // ------------------------------------------------------ the finished schedule

  predicate Complete(p: Policy, s: State) { !s.pending && |s.pairs| == p.warmups + p.repetitions }

  predicate AllGood(s: State) { forall i :: 0 <= i < |s.pairs| ==> s.pairs[i].qualityPassed && InRange(s.pairs[i]) }

  /** timingEvidence. */
  method TimingEvidence(p: Policy, s: State) returns (r: Option<Evidence>)
    requires p.warmups >= 0 && p.repetitions >= 0
    ensures r.Some? ==> Complete(p, s) && ValidEvidence(r.value, p)
                        && r.value.warmups == s.pairs[..p.warmups] && r.value.trials == s.pairs[p.warmups..]
    ensures r.None? ==>
              !Complete(p, s) || !ValidPolicy(p) || !TrialsOk(s.pairs[..p.warmups]) || !TrialsOk(s.pairs[p.warmups..])
  {
    if s.pending || |s.pairs| != p.warmups + p.repetitions {
      return None;
    }
    var trials := s.pairs[p.warmups..];
    var summary := SummarizeTimings(trials, p);
    if summary.None? {
      return None;
    }
    var e := Evidence(p.baselineDigest, s.pairs[..p.warmups], trials, summary.value);
    var checked := ValidateTimingEvidence(e, p);
    if checked.None? {
      return None;
    }
    r := Some(e);
  }

  /** In every reachable complete state the recorded trials pass the verifier's checks
      exactly when all qualities passed and all durations are in range: the order can
      never be the reason. */
  lemma CompletedScheduleAccepted(c: Program, requests: seq<(Request, Effects)>)
    requires c.measurement.Some? && ValidPolicy(c.measurement.value)
    requires Complete(c.measurement.value, Run(c, requests))
    ensures var p, s := c.measurement.value, Run(c, requests);
            TrialsOk(s.pairs[..p.warmups]) && TrialsOk(s.pairs[p.warmups..]) <==> AllGood(s)
  {
    ReachableInv(c, requests);
    var p, s, log := c.measurement.value, Run(c, requests), Transcript(c, requests);
    var warmups, trials := s.pairs[..p.warmups], s.pairs[p.warmups..];
    forall i | 0 <= i < |s.pairs|
      ensures s.pairs[i].baselineFirst == (Position(p, i) % 2 == 0)
    {
      assert Tells(p, log, i, s.pairs[i]);
    }
    if TrialsOk(warmups) && TrialsOk(trials) {
      forall i | 0 <= i < |s.pairs|
        ensures s.pairs[i].qualityPassed && InRange(s.pairs[i])
      {
        assert if i < p.warmups then TrialOk(warmups[i], i) else TrialOk(trials[i - p.warmups], i - p.warmups);
      }
    }
    if AllGood(s) {
      assert forall i :: 0 <= i < |warmups| ==> TrialOk(warmups[i], i);
      assert forall i :: 0 <= i < |trials| ==> TrialOk(trials[i], i);
    }
  }

  /** The run budget never blocks an unfinished schedule. */
  lemma BudgetNeverBlocks(c: Program, requests: seq<(Request, Effects)>, r: Request)
    requires c.measurement.Some? && r.action == "pair" && r.quality.None? && r.input <= MAX_INPUT
    requires var p := c.measurement.value; c.maxRuns >= 2 * (p.warmups + p.repetitions)
    ensures var p, s := c.measurement.value, Run(c, requests);
            Pairable(c, s, r) <==> s.ready && !s.pending && |s.pairs| < p.warmups + p.repetitions
  {
    ReachableInv(c, requests);
  }

  const BUILD := Request("build", None, 0)
  const PAIR := Request("pair", None, 0)
  const APPROVE := Request("assess", Some(true), 0)
  const SMOOTH := Effects(Finished("valid", 1), Finished("valid", 1), true, true, true)

  /** Build, then n approved pairs. */
  function SmoothRun(n: nat): seq<(Request, Effects)> {
    if n == 0 then [(BUILD, SMOOTH)] else SmoothRun(n - 1) + [(PAIR, SMOOTH)] + [(APPROVE, SMOOTH)]
  }

  lemma RunAppend(c: Program, requests: seq<(Request, Effects)>, r: Request, e: Effects)
    requires !Run(c, requests).fault
    ensures Run(c, requests + [(r, e)]) == Step(c, Run(c, requests), r, e).0
  {
    assert (requests + [(r, e)])[..|requests|] == requests;
  }

  predicate Smoothly(s: State, n: nat) {
    s.ready && s.baselineReady && !s.pending && !s.fault && |s.pairs| == n && s.runs == 2 * n && AllGood(s)
  }

  lemma SmoothPair(c: Program, s: State, n: nat)
    requires c.measurement.Some? && n < c.measurement.value.warmups + c.measurement.value.repetitions
             && 2 * n + 2 <= c.maxRuns
    requires Smoothly(s, n)
    ensures var t := TimingStep(c, s, PAIR, SMOOTH).0;
            t.pending && t.pairs != [] && !t.fault && Smoothly(TimingStep(c, t, APPROVE, SMOOTH).0, n + 1)
  {
    assert Pairable(c, s, PAIR);
    var t := TimingStep(c, s, PAIR, SMOOTH).0;
    assert t.outputsValid && t.pairs[..n] == s.pairs;
    assert Assessable(t, APPROVE);
  }

  lemma {:induction false} SmoothRunReaches(c: Program, n: nat)
    requires c.measurement.Some? && n <= c.measurement.value.warmups + c.measurement.value.repetitions
             && 2 * n <= c.maxRuns
    ensures Smoothly(Run(c, SmoothRun(n)), n)
  {
    if n == 0 {
      assert SmoothRun(0) == [] + [(BUILD, SMOOTH)];
      RunAppend(c, [], BUILD, SMOOTH);
    } else {
      SmoothRunReaches(c, n - 1);
      SmoothPair(c, Run(c, SmoothRun(n - 1)), n - 1);
      RunAppend(c, SmoothRun(n - 1), PAIR, SMOOTH);
      RunAppend(c, SmoothRun(n - 1) + [(PAIR, SMOOTH)], APPROVE, SMOOTH);
    }
  }

  /** What the guest publishes as a result: a ready candidate with enough runs and a
      complete schedule of good trials. */
  ghost predicate Publishable(c: Program, s: State)
    requires c.measurement.Some?
  {
    s.ready && !s.fault && s.runs >= c.minRuns && Complete(c.measurement.value, s) && AllGood(s)
  }

  /** A measured result can be produced at all exactly when the budget covers the
      schedule and the required minimum does not exceed it. */
  lemma ScheduleCompletable(c: Program)
    requires c.measurement.Some? && ValidPolicy(c.measurement.value)
    ensures CanPublish(c) <==> c.minRuns <= 2 * PairCount(c) <= c.maxRuns
  {
    var n := PairCount(c);
    if c.minRuns <= 2 * n <= c.maxRuns {
      SmoothRunReaches(c, n);
      assert Publishable(c, Run(c, SmoothRun(n)));
    }
    if requests :| Publishable(c, Run(c, requests)) {
      ReachableInv(c, requests);
    }
  }

  ghost predicate CanPublish(c: Program)
    requires c.measurement.Some?
  {
    exists requests :: Publishable(c, Run(c, requests))
  }

  /** The number of scheduled pairs. */
  function PairCount(c: Program): int
    requires c.measurement.Some?
  {
    c.measurement.value.warmups + c.measurement.value.repetitions
  }

  /** The run rules of ValidateEvaluation for a timed program. */
  predicate AcceptedProgram(c: Program) {
    && c.measurement.Some? && ValidPolicy(c.measurement.value)
    && 1 <= c.minRuns <= c.maxRuns <= 10_000 && 2 * PairCount(c) <= c.maxRuns
  }

  /** An accepted program can be completed exactly when its minimum does not exceed
      the schedule, which the manifest rules do not ask for. */
  lemma AcceptedCompletable(c: Program)
    requires AcceptedProgram(c)
    ensures CanPublish(c) <==> c.minRuns <= 2 * PairCount(c)
  {
    ScheduleCompletable(c);
  }

  const SHORT_POLICY: Policy :=
    Policy("paired-median-ratio", "alternating", 1, 9, 900_000, Some(Rat(1, 1)), Some(Rat(2, 1)), "baseline", true)

  lemma ShortPolicyValid()
    ensures ValidPolicy(SHORT_POLICY)
  {
    NineShifts(100_000);
    FirstTail(9, 900_000);
    assert Binomial.TailFits(9, 900_000, 1);
  }

  lemma NineShifts(x: int)
    ensures Binomial.Shifted(x, 9) == 512 * x
  {
    assert Binomial.Shifted(x, 0) == x;
    assert Binomial.Shifted(x, 1) == 2 * x;
    assert Binomial.Shifted(x, 2) == 4 * x;
    assert Binomial.Shifted(x, 3) == 8 * x;
    assert Binomial.Shifted(x, 4) == 16 * x;
    assert Binomial.Shifted(x, 5) == 32 * x;
    assert Binomial.Shifted(x, 6) == 64 * x;
    assert Binomial.Shifted(x, 7) == 128 * x;
    assert Binomial.Shifted(x, 8) == 256 * x;
  }

  /** An accepted program that no session can complete: ten pairs, thirty runs required. */
  lemma AcceptedYetNotCompletable()
    ensures var c := Program(Some(SHORT_POLICY), 30, 30); AcceptedProgram(c) && !CanPublish(c)
  {
    ShortPolicyValid();
    AcceptedCompletable(Program(Some(SHORT_POLICY), 30, 30));
  }
}

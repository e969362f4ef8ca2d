/** The witness process itself (internal/audit/witness.go): an object with a
    pinned predecessor, the last record and a poisoned flag, over a journal file
    that outlives it. Each method does what the corresponding function of
    WitnessJournal says. */
module WitnessProcess {
  import opened Wrappers
  import opened AuditData
  import opened KeyHistory
  import WitnessJournal
  import WitnessSafety

  /** The loop of sameAuditEvents. */
  method SameAuditEvents(a: seq<Event>, b: seq<Event>) returns (same: bool)
    ensures same == WitnessJournal.SameAuditEvents(a, b)
  {
    if |a| != |b| {
      return false;
    }
    for i := 0 to |a|
      invariant forall j :: 0 <= j < i ==> WitnessJournal.SameAuditEventAt(a, b, j)
    {
      if !WitnessJournal.SameAuditEventAt(a, b, i) {
        return false;
      }
    }
    same := true;
  }

  class JournalFile {
    var durable: seq<WitnessJournal.Chunk>
    var pending: seq<WitnessJournal.Chunk>

    constructor ()
      ensures durable == [] && pending == []
    {
      durable, pending := [], [];
    }

    /** Append one line; a failed write may leave all, part or none of it. */
    method Write(record: WitnessJournal.Record, outcome: WitnessJournal.Write) returns (ok: bool)
      modifies this
      ensures durable == old(durable) && pending == old(pending) + WitnessJournal.Written(record, outcome)
      ensures ok == outcome.Complete?
    {
      match outcome {
        case Complete => pending := pending + [WitnessJournal.Line(record)];
        case FailedWhole => pending := pending + [WitnessJournal.Line(record)];
        case FailedTorn => pending := pending + [WitnessJournal.Torn];
        case FailedEmpty =>
          assert pending + [] == pending;
      }
      ok := outcome.Complete?;
    }

    method Sync(succeeds: bool)
      modifies this
      ensures durable == if succeeds then old(durable) + old(pending) else old(durable)
      ensures pending == if succeeds then [] else old(pending)
    {
      if succeeds {
        durable, pending := durable + pending, [];
      }
    }
  }

  class Witness {
    const cfg: WitnessJournal.Config
    const journal: JournalFile
    var up: bool
    var last: Option<Checkpoint>
    var lastRecord: Option<WitnessJournal.Record>
    var poisoned: bool

    constructor (cfg: WitnessJournal.Config, journal: JournalFile)
      ensures this.cfg == cfg && this.journal == journal && !up
    {
      this.cfg, this.journal := cfg, journal;
      up, last, lastRecord, poisoned := false, None, None, false;
    }

    ghost function Snapshot(): WitnessJournal.State
      reads this, journal
    {
      WitnessJournal.State(WitnessJournal.Disk(journal.durable, journal.pending),
                           if up then WitnessJournal.Up(last, lastRecord, poisoned) else WitnessJournal.Down)
    }

    /** Answer a repetition of the last payload from the stored record. */
    method AnswerRetry(bundle: Bundle) returns (reply: WitnessJournal.Reply)
      requires WitnessJournal.IsRetry(Snapshot(), bundle)
      ensures reply == WitnessJournal.Retry(cfg, Snapshot(), bundle)
    {
      var r := lastRecord.value;
      var same := SameAuditEvents(bundle.events, r.bundle.events);
      if !same {
        return WitnessJournal.Refused;
      }
      if last.None? || !Verifies(bundle.checkpoint, WitnessJournal.KeysFor(cfg, CHECKPOINT_ROLE, last.value.issuedAt)) {
        return WitnessJournal.Refused;
      }
      reply := if r.signature.None? then WitnessJournal.Retained else WitnessJournal.Voted(r.signature.value);
    }

    /** Journal a record, make it durable, and only then advance and answer. */
    method Retain(cp: Checkpoint, record: WitnessJournal.Record, io: WitnessJournal.Io)
      returns (reply: WitnessJournal.Reply)
      requires up && !poisoned
      modifies this, journal
      ensures (Snapshot(), reply) == WitnessJournal.Commit(old(Snapshot()), cp, record, io)
    {
      var ok := journal.Write(record, io.write);
      if !ok {
        poisoned := true;
        return WitnessJournal.Refused;
      }
      journal.Sync(io.syncs);
      if !io.syncs {
        poisoned := true;
        return WitnessJournal.Refused;
      }
      last, lastRecord := Some(cp), Some(record);
      reply := if record.signature.None? then WitnessJournal.Retained else WitnessJournal.Voted(record.signature.value);
    }

    method Observe(bundle: Bundle, now: Time, io: WitnessJournal.Io) returns (reply: WitnessJournal.Reply)
      modifies this, journal
      ensures (Snapshot(), reply) == WitnessJournal.Observe(cfg, old(Snapshot()), bundle, now, io)
    {
      if !up || poisoned {
        return WitnessJournal.Refused;
      }
      if lastRecord.Some? && bundle.checkpoint.payload == lastRecord.value.bundle.checkpoint.payload {
        reply := AnswerRetry(bundle);
        return;
      }
      var cp := WitnessJournal.Validate(cfg, last, bundle, now);
      if cp.None? || !WitnessJournal.Eligible(cfg, now) {
        return WitnessJournal.Refused;
      }
      var historical := !WitnessJournal.Eligible(cfg, cp.value.issuedAt);
      if historical && cp.value.issuedAt >= now {
        return WitnessJournal.Refused;
      }
      if !io.fits {
        return WitnessJournal.Refused;
      }
      var record := WitnessJournal.Record(bundle.(witnesses := []), None, historical);
      if !historical {
        if io.signing.None? {
          return WitnessJournal.Refused;
        }
        record := record.(signature := Some(Sign(cfg.keyId, cfg.key, CheckpointDoc(cp.value), io.signing.value)));
      }
      reply := Retain(cp.value, record, io);
    }

    /** The replay loop of openWitness. */
    method ReplayFile(now: Time) returns (ok: bool)
      requires journal.pending == [] && !up
      modifies this
      ensures !up
      ensures ok == WitnessJournal.Replay(cfg, journal.durable, now).Some?
      ensures ok ==> WitnessJournal.Replay(cfg, journal.durable, now) == Some(WitnessJournal.Pinned(last, lastRecord))
    {
      last, lastRecord := None, None;
      var lines := journal.durable;
      for i := 0 to |lines|
        invariant !up && journal.durable == lines
        invariant WitnessJournal.Replay(cfg, lines[..i], now) == Some(WitnessJournal.Pinned(last, lastRecord))
      {
        assert lines[..i + 1][..i] == lines[..i];
        var pinned := WitnessJournal.ReplayLine(cfg, WitnessJournal.Pinned(last, lastRecord), lines[i], now);
        if pinned.None? {
          ReplayStopsAt(cfg, lines, i + 1, now);
          return false;
        }
        last, lastRecord := pinned.value.last, pinned.value.lastRecord;
      }
      assert lines[..|lines|] == lines;
      ok := true;
    }

    method Open(now: Time, syncs: bool)
      modifies this, journal
      ensures Snapshot() == WitnessJournal.Open(cfg, old(Snapshot()), now, syncs)
    {
      if up || !WitnessJournal.Delegated(cfg, now) {
        return;
      }
      journal.Sync(syncs);
      if !syncs {
        return;
      }
      assert journal.durable == old(journal.durable) + old(journal.pending);
      if journal.durable != [] && journal.durable[|journal.durable| - 1].Torn? {
        return;
      }
      var ok := ReplayFile(now);
      if ok {
        up, poisoned := true, false;
      }
    }

    method Close()
      modifies this
      ensures Snapshot() == old(Snapshot()).(process := WitnessJournal.Down)
    {
      up := false;
    }
  }

  lemma {:induction false} ReplayStopsAt(cfg: WitnessJournal.Config, lines: seq<WitnessJournal.Chunk>, n: nat,
                                         now: Time)
    requires n <= |lines| && WitnessJournal.Replay(cfg, lines[..n], now).None?
    ensures WitnessJournal.Replay(cfg, lines, now).None?
    decreases |lines| - n
  {
    if n == |lines| {
      assert lines[..n] == lines;
    } else {
      assert lines[..n + 1][..n] == lines[..n];
      ReplayStopsAt(cfg, lines, n + 1, now);
    }
  }

  // ---------------------------------------- a vote that cannot be reopened

  const GENESIS_CHECKPOINT: Checkpoint :=
    Checkpoint(API_VERSION, "AuditCheckpoint", "log", Number(1), Number(0), Genesis, Genesis, Genesis, Sha([]), 10)

  const RESPELLED: Envelope :=
    Envelope(PAYLOAD_TYPE, Text(CheckpointDoc(GENESIS_CHECKPOINT), 1),
             [Signature("platform", Made(1, PAYLOAD_TYPE, Text(CheckpointDoc(GENESIS_CHECKPOINT), 1), 0))])

  const SMALL_CONFIG: WitnessJournal.Config :=
    WitnessJournal.Config(
      History(HistoryBody(API_VERSION, "KeyHistory", 9, Genesis, CheckpointDigest(GENESIS_CHECKPOINT), 5,
                          [Delegation("platform", Some(1), [CHECKPOINT_ROLE], 0, 100, None, "", "kms"),
                           Delegation("witness", Some(2), [WITNESS_ROLE], 0, 100, None, "", "kms"),
                           Delegation("second", Some(3), [WITNESS_ROLE], 0, 100, None, "", "kms"),
                           Delegation("third", Some(4), [WITNESS_ROLE], 0, 100, None, "", "kms")],
                          [WitnessIdentity("witness", "a"), WitnessIdentity("second", "b"),
                           WitnessIdentity("third", "c")],
                          QUORUM, OUTAGE_GRACE_SECONDS), NoLineage),
      "witness", 2)

  /** The example's history is one that VerifyHistory accepts as the first epoch. */
  lemma SmallHistoryAccepted(now: Time)
    requires now >= 5
    ensures Acceptable(SMALL_CONFIG.history.body, 9, None, now) && SMALL_CONFIG.history.lineage == LineageAfter(None)
    ensures AcceptedHistories([SMALL_CONFIG.history], 9)
  {
    SmallDelegations();
    SmallWitnesses();
    assert Acceptable(SMALL_CONFIG.history.body, 9, None, now);
  }

  lemma SmallDelegations()
    ensures DelegationsOk(SMALL_CONFIG.history.body.delegations, 9, 5)
  {
    var ds := SMALL_CONFIG.history.body.delegations;
    forall i | 0 <= i < |ds|
      ensures DelegationOk(ds[i], 9, 5)
    {
      SmallDelegationOk(ds[i]);
    }
  }

  lemma SmallWitnesses()
    ensures WitnessesOk(SMALL_CONFIG.history.body.witnesses, SMALL_CONFIG.history.body.delegations)
  {
    var ws, ds := SMALL_CONFIG.history.body.witnesses, SMALL_CONFIG.history.body.delegations;
    forall i | 0 <= i < 3
      ensures IsWitnessKey(ds, ws[i].keyId)
    {
      assert ds[i + 1].keyId == ws[i].keyId && ds[i + 1].roles[0] == WITNESS_ROLE;
    }
  }

  lemma SmallDelegationOk(d: Delegation)
    requires d in SMALL_CONFIG.history.body.delegations
    ensures DelegationOk(d, 9, 5)
  {
    assert d.roles == [d.roles[0]];
  }

  lemma SmallConfigKeys(at: Time)
    requires 0 <= at < 100
    ensures "platform" in WitnessJournal.KeysFor(SMALL_CONFIG, CHECKPOINT_ROLE, at)
    ensures WitnessJournal.KeysFor(SMALL_CONFIG, CHECKPOINT_ROLE, at)["platform"] == 1
    ensures WitnessJournal.Delegated(SMALL_CONFIG, at)
  {
    var ds := SMALL_CONFIG.history.body.delegations;
    assert ds[0].roles[0] == CHECKPOINT_ROLE && ds[1].roles[0] == WITNESS_ROLE;
    KeysAtExact(ds, CHECKPOINT_ROLE, at, "platform");
    KeysAtExact(ds, WITNESS_ROLE, at, "witness");
    assert ActiveFor(ds[0], CHECKPOINT_ROLE, at) && ActiveFor(ds[1], WITNESS_ROLE, at);
    SmallOperator();
  }

  lemma SmallOperator()
    ensures "witness" in Operators(SMALL_CONFIG.history.body.witnesses)
            && Operators(SMALL_CONFIG.history.body.witnesses)["witness"] == "a"
  {
    var ws := SMALL_CONFIG.history.body.witnesses;
    assert ws[..2][..1] == ws[..1] && ws[..1][..0] == [];
    assert "witness" in Operators(ws[..1]);
    assert "witness" in Operators(ws[..2]);
  }

  lemma SmallVote(io: WitnessJournal.Io)
    requires io == WitnessJournal.Io(true, Some(0), WitnessJournal.Complete, true)
    ensures var bundle := Bundle(RESPELLED, [], []);
            var vote := Sign("witness", 2, CheckpointDoc(GENESIS_CHECKPOINT), 0);
            var s := WitnessJournal.State(WitnessJournal.Disk([], []), WitnessJournal.Up(None, None, false));
            var (s', reply) := WitnessJournal.Observe(SMALL_CONFIG, s, bundle, 20, io);
            && reply == WitnessJournal.Voted(vote) && s'.process.Up?
            && s'.disk == WitnessJournal.Disk([WitnessJournal.Line(WitnessJournal.Record(bundle, Some(vote), false))],
                                              [])
  {
    var bundle := Bundle(RESPELLED, [], []);
    SmallConfigKeys(10);
    SmallConfigKeys(20);
    assert RESPELLED.signatures[0].keyId == "platform";
    assert Verifies(RESPELLED, WitnessJournal.KeysFor(SMALL_CONFIG, CHECKPOINT_ROLE, 10));
    assert WitnessJournal.Validate(SMALL_CONFIG, None, bundle, 20) == Some(GENESIS_CHECKPOINT);
    assert bundle.(witnesses := []) == bundle;
  }

  lemma SmallRun(steps: seq<WitnessJournal.Step>)
    requires steps == [WitnessJournal.Opening(20, true),
                       WitnessJournal.Observing(Bundle(RESPELLED, [], []), 20,
                                                WitnessJournal.Io(true, Some(0), WitnessJournal.Complete, true)),
                       WitnessJournal.Closing]
    ensures var vote := Sign("witness", 2, CheckpointDoc(GENESIS_CHECKPOINT), 0);
            var w := WitnessJournal.Execute(SMALL_CONFIG, steps);
            && vote in w.released && w.state.process.Down?
            && WitnessSafety.File(w) == [WitnessJournal.Line(WitnessJournal.Record(Bundle(RESPELLED, [], []),
                   Some(vote), false))]
  {
    var cfg := SMALL_CONFIG;
    assert steps[..2][..1] == steps[..1] && steps[..1][..0] == [];
    SmallConfigKeys(20);
    var w1 := WitnessJournal.Execute(cfg, steps[..1]);
    assert w1 == WitnessJournal.Next(cfg, WitnessJournal.Execute(cfg, []), WitnessJournal.Opening(20, true));
    assert w1.state == WitnessJournal.State(WitnessJournal.Disk([], []), WitnessJournal.Up(None, None, false));
    SmallVote(steps[1].io);
    var w2 := WitnessJournal.Execute(cfg, steps[..2]);
    assert w2 == WitnessJournal.Next(cfg, w1, steps[1]);
    assert WitnessJournal.Execute(cfg, steps) == WitnessJournal.Next(cfg, w2, WitnessJournal.Closing);
  }

  /** The readability condition is needed: here is a run in which a vote is released
      for a platform payload in another spelling and the journal can never be
      reopened, whatever the clock says. */
  lemma VoteThatCannotBeReopened(steps: seq<WitnessJournal.Step>)
    requires steps == [WitnessJournal.Opening(20, true),
                       WitnessJournal.Observing(Bundle(RESPELLED, [], []), 20,
                                                WitnessJournal.Io(true, Some(0), WitnessJournal.Complete, true)),
                       WitnessJournal.Closing]
    ensures var w := WitnessJournal.Execute(SMALL_CONFIG, steps);
            && w.released != {}
            && forall now :: WitnessJournal.Next(SMALL_CONFIG, w, WitnessJournal.Opening(now, true)).state.process.Down?
  {
    var cfg := SMALL_CONFIG;
    SmallRun(steps);
    var w := WitnessJournal.Execute(cfg, steps);
    forall now
      ensures WitnessJournal.Next(cfg, w, WitnessJournal.Opening(now, true)).state.process.Down?
    {
      if WitnessJournal.Delegated(cfg, now) {
        WitnessSafety.ReopeningRebuilds(cfg, steps, now);
        assert !WitnessSafety.Readable(WitnessSafety.File(w)[0], now);
      }
    }
  }
}

/** What holds in every run of a witness: observations, failed writes and syncs,
    crashes, closings and reopenings in any order. */
module WitnessSafety {
  import opened Wrappers
  import opened AuditData
  import opened KeyHistory
  import opened WitnessJournal
  import Checkpoints
  import Quorum

  predicate CarriesCheckpoint(r: Record) {
    r.bundle.checkpoint.payload.Text? && r.bundle.checkpoint.payload.document.CheckpointDoc?
  }

  function CheckpointOf(r: Record): Checkpoint
    requires CarriesCheckpoint(r)
  {
    r.bundle.checkpoint.payload.document.checkpoint
  }

  /** A signed record carries this witness's signature over its checkpoint. */
  ghost predicate OwnSignature(cfg: Config, r: Record)
    requires CarriesCheckpoint(r)
  {
    if Eligible(cfg, CheckpointOf(r).issuedAt)
    then !r.historical
         && exists nonce :: r.signature == Some(Sign(cfg.keyId, cfg.key, CheckpointDoc(CheckpointOf(r)), nonce))
    else r.historical && r.signature.None?
  }

  ghost predicate ValidatedOnce(cfg: Config, last: Option<Checkpoint>, r: Record)
    requires CarriesCheckpoint(r)
  {
    exists now :: Validate(cfg, last, r.bundle, now) == Some(CheckpointOf(r))
  }

  ghost predicate LineOk(cfg: Config, last: Option<Checkpoint>, chunk: Chunk) {
    chunk.Line? && CarriesCheckpoint(chunk.record)
    && ValidatedOnce(cfg, last, chunk.record) && OwnSignature(cfg, chunk.record)
  }

  function TipCheckpoint(chunks: seq<Chunk>): Option<Checkpoint> {
    if chunks != [] && chunks[|chunks| - 1].Line? && CarriesCheckpoint(chunks[|chunks| - 1].record)
    then Some(CheckpointOf(chunks[|chunks| - 1].record)) else None
  }

  function TipRecord(chunks: seq<Chunk>): Option<Record> {
    if chunks != [] && chunks[|chunks| - 1].Line? then Some(chunks[|chunks| - 1].record) else None
  }

  /** Every line was accepted after the line before it. */
  ghost predicate Journal(cfg: Config, chunks: seq<Chunk>) {
    chunks == [] ||
    (Journal(cfg, chunks[..|chunks| - 1]) && LineOk(cfg, TipCheckpoint(chunks[..|chunks| - 1]), chunks[|chunks| - 1]))
  }

  ghost predicate Recorded(chunks: seq<Chunk>, e: Envelope) {
    exists i :: 0 <= i < |chunks| && chunks[i].Line? && chunks[i].record.signature == Some(e)
  }

  /** The synced file is a journal, possibly with one torn line after it. */
  ghost predicate DurableOk(cfg: Config, chunks: seq<Chunk>) {
    Journal(cfg, chunks) || (EndsTorn(chunks) && Journal(cfg, chunks[..|chunks| - 1]))
  }

  ghost predicate PendingOk(cfg: Config, disk: Disk) {
    disk.pending == [] ||
    (|disk.pending| == 1 && Journal(cfg, disk.durable)
     && (disk.pending[0].Torn? || Journal(cfg, disk.durable + disk.pending)))
  }

  ghost predicate ProcessOk(cfg: Config, s: State) {
    s.process.Up? ==>
      && Journal(cfg, s.disk.durable)
      && s.process.last == TipCheckpoint(s.disk.durable) && s.process.lastRecord == TipRecord(s.disk.durable)
      && (!s.process.poisoned ==> s.disk.pending == [])
  }

  ghost predicate Inv(cfg: Config, w: World) {
    && DurableOk(cfg, w.state.disk.durable)
    && PendingOk(cfg, w.state.disk)
    && ProcessOk(cfg, w.state)
    && forall e :: e in w.released ==> Recorded(w.state.disk.durable, e)
  }

  // ------------------------------------------------------------ preservation

  lemma JournalExtends(cfg: Config, chunks: seq<Chunk>, r: Record)
    requires Journal(cfg, chunks) && LineOk(cfg, TipCheckpoint(chunks), Line(r))
    ensures Journal(cfg, chunks + [Line(r)])
  {
    assert (chunks + [Line(r)])[..|chunks|] == chunks;
  }

  lemma NewRecordOk(cfg: Config, s: State, bundle: Bundle, now: Time, io: Io)
    requires s.process.Up? && NewRecord(cfg, s, bundle, now, io).Some?
    ensures LineOk(cfg, s.process.last, Line(NewRecord(cfg, s, bundle, now, io).value))
    ensures Validate(cfg, s.process.last, bundle, now) == Some(CheckpointOf(NewRecord(cfg, s, bundle, now, io).value))
  {
    var r := NewRecord(cfg, s, bundle, now, io).value;
    assert Validate(cfg, s.process.last, r.bundle, now) == Validate(cfg, s.process.last, bundle, now);
    assert Validate(cfg, s.process.last, r.bundle, now) == Some(CheckpointOf(r));
  }

  lemma RecordedGrows(a: seq<Chunk>, b: seq<Chunk>, e: Envelope)
    requires Recorded(a, e) && a <= b
    ensures Recorded(b, e)
  {
    var i :| 0 <= i < |a| && a[i].Line? && a[i].record.signature == Some(e);
    assert b[i] == a[i];
  }

  /** A record that was written and synced, with its signature released if it has one. */
  lemma StoredKeepsInv(cfg: Config, w: World, r: Record, next: World)
    requires Inv(cfg, w) && w.state.process.Up? && LineOk(cfg, w.state.process.last, Line(r))
    requires next.state == State(Disk(w.state.disk.durable + [Line(r)], []), Up(Some(CheckpointOf(r)), Some(r), false))
    requires next.released == w.released || (r.signature.Some? && next.released == w.released + {r.signature.value})
    ensures Inv(cfg, next)
  {
    var d, file := w.state.disk.durable, next.state.disk.durable;
    JournalExtends(cfg, d, r);
    assert file[|d|] == Line(r);
    forall e | e in next.released
      ensures Recorded(file, e)
    {
      if e in w.released {
        RecordedGrows(d, file, e);
      }
    }
  }

  /** A record whose write or sync failed: the process is poisoned. */
  lemma PoisonedKeepsInv(cfg: Config, w: World, r: Record, write: Write)
    requires Inv(cfg, w) && w.state.process.Up? && w.state.disk.pending == []
             && LineOk(cfg, w.state.process.last, Line(r))
    ensures Inv(cfg, w.(state := State(w.state.disk.(pending := Written(r, write)),
                                       w.state.process.(poisoned := true))))
  {
    JournalExtends(cfg, w.state.disk.durable, r);
  }

  /** Journaling a record, whatever the write and the sync do. */
  lemma CommitKeepsInv(cfg: Config, w: World, cp: Checkpoint, r: Record, io: Io)
    requires Inv(cfg, w) && w.state.process.Up? && !w.state.process.poisoned
    requires LineOk(cfg, w.state.process.last, Line(r)) && CheckpointOf(r) == cp
    ensures var (s, reply) := Commit(w.state, cp, r, io);
            Inv(cfg, World(s, if reply.Voted? then w.released + {reply.envelope} else w.released))
  {
    var (s, reply) := Commit(w.state, cp, r, io);
    assert [] + Written(r, io.write) == Written(r, io.write);
    if s.process.poisoned {
      PoisonedKeepsInv(cfg, w, r, io.write);
    } else {
      StoredKeepsInv(cfg, w, r, World(s, if reply.Voted? then w.released + {reply.envelope} else w.released));
    }
  }

  lemma RetryKeepsInv(cfg: Config, w: World, bundle: Bundle)
    requires Inv(cfg, w) && w.state.process.Up? && !w.state.process.poisoned && IsRetry(w.state, bundle)
    ensures var reply := Retry(cfg, w.state, bundle);
            Inv(cfg, w.(released := if reply.Voted? then w.released + {reply.envelope} else w.released))
  {
    var d := w.state.disk.durable;
    assert d[|d| - 1].Line? && d[|d| - 1].record == w.state.process.lastRecord.value;
  }

  lemma ObserveKeepsInv(cfg: Config, w: World, bundle: Bundle, now: Time, io: Io)
    requires Inv(cfg, w)
    ensures Inv(cfg, Next(cfg, w, Observing(bundle, now, io)))
  {
    var s := w.state;
    if s.process.Up? && !s.process.poisoned {
      if IsRetry(s, bundle) {
        RetryKeepsInv(cfg, w, bundle);
      } else if NewRecord(cfg, s, bundle, now, io).Some? {
        NewRecordOk(cfg, s, bundle, now, io);
        CommitKeepsInv(cfg, w, Validate(cfg, s.process.last, bundle, now).value,
                       NewRecord(cfg, s, bundle, now, io).value, io);
      }
    }
  }

  lemma CrashKeepsInv(cfg: Config, w: World, kept: nat, torn: bool)
    requires Inv(cfg, w)
    ensures Inv(cfg, Next(cfg, w, Crashing(kept, torn)))
  {
    var d := w.state.disk;
    var after := Next(cfg, w, Crashing(kept, torn)).state.disk;
    assert after.durable == d.durable || after.durable == d.durable + d.pending || after.durable == d.durable + [Torn];
    if d.pending != [] && after.durable != d.durable {
      assert after.durable[..|d.durable|] == d.durable;
    }
    forall e | e in w.released
      ensures Recorded(after.durable, e)
    {
      RecordedGrows(d.durable, after.durable, e);
    }
  }

  /** A successful replay pins exactly the last line. */
  lemma ReplayPinsTip(cfg: Config, chunks: seq<Chunk>, now: Time)
    requires Replay(cfg, chunks, now).Some?
    ensures !EndsTorn(chunks)
    ensures Replay(cfg, chunks, now) == Some(Pinned(TipCheckpoint(chunks), TipRecord(chunks)))
  {
  }

  lemma OpenKeepsInv(cfg: Config, w: World, now: Time, syncs: bool)
    requires Inv(cfg, w)
    ensures Inv(cfg, Next(cfg, w, Opening(now, syncs)))
  {
    var d := w.state.disk;
    var w' := Next(cfg, w, Opening(now, syncs));
    if w'.state != w.state {
      var file := d.durable + d.pending;
      assert w'.state.disk == Disk(file, []);
      assert d.pending != [] ==> file[..|d.durable|] == d.durable;
      assert d.pending == [] ==> file == d.durable;
      if w'.state.process.Up? {
        ReplayPinsTip(cfg, file, now);
      }
      forall e | e in w.released
        ensures Recorded(file, e)
      {
        RecordedGrows(d.durable, file, e);
      }
    }
  }

  lemma NextKeepsInv(cfg: Config, w: World, step: Step)
    requires Inv(cfg, w)
    ensures Inv(cfg, Next(cfg, w, step))
  {
    match step
    case Observing(bundle, now, io) => ObserveKeepsInv(cfg, w, bundle, now, io);
    case Crashing(kept, torn) => CrashKeepsInv(cfg, w, kept, torn);
    case Closing =>
    case Opening(now, syncs) => OpenKeepsInv(cfg, w, now, syncs);
  }

  lemma {:induction false} RunKeepsInv(cfg: Config, steps: seq<Step>)
    ensures Inv(cfg, Execute(cfg, steps))
  {
    if steps != [] {
      RunKeepsInv(cfg, steps[..|steps| - 1]);
      NextKeepsInv(cfg, Execute(cfg, steps[..|steps| - 1]), steps[|steps| - 1]);
    }
  }

  /** What is synced is never lost: later in any run the file still starts with it. */
  lemma {:induction false} SyncedIsKept(cfg: Config, before: seq<Step>, after: seq<Step>)
    ensures Execute(cfg, before).state.disk.durable <= Execute(cfg, before + after).state.disk.durable
  {
    if after == [] {
      assert before + after == before;
    } else {
      var shorter := before + after[..|after| - 1];
      assert (before + after)[..|before + after| - 1] == shorter;
      SyncedIsKept(cfg, before, after[..|after| - 1]);
    }
  }

  // ------------------------------------------------------------ linear chain

  /** The journal as a chain of accepted intervals. */
  function Chain(chunks: seq<Chunk>): (c: seq<Checkpoints.Interval>)
    ensures |c| <= |chunks|
  {
    if chunks == [] then []
    else
      var n := |chunks| - 1;
      if chunks[n].Line? && CarriesCheckpoint(chunks[n].record)
      then Chain(chunks[..n]) + [Checkpoints.Interval(CheckpointOf(chunks[n].record), chunks[n].record.bundle.events)]
      else Chain(chunks[..n])
  }

  predicate FromGenesis(cfg: Config, chain: seq<Checkpoints.Interval>) {
    Checkpoints.AcceptedChain(chain)
    && (chain != [] ==> CheckpointDigest(chain[0].checkpoint) == cfg.history.body.genesisCheckpointDigest)
  }

  lemma {:induction false} JournalIsChain(cfg: Config, chunks: seq<Chunk>)
    requires Journal(cfg, chunks)
    ensures FromGenesis(cfg, Chain(chunks)) && |Chain(chunks)| == |chunks|
    ensures Checkpoints.Tip(Chain(chunks)) == TipCheckpoint(chunks)
  {
    if chunks != [] {
      var n := |chunks| - 1;
      JournalIsChain(cfg, chunks[..n]);
      var r := chunks[n].record;
      var now :| Validate(cfg, TipCheckpoint(chunks[..n]), r.bundle, now) == Some(CheckpointOf(r));
      Checkpoints.ChainExtends(Chain(chunks[..n]), Checkpoints.Interval(CheckpointOf(r), r.bundle.events));
    }
  }

  /** e is this witness's signature over a checkpoint of the chain. */
  ghost predicate SignsOn(cfg: Config, chain: seq<Checkpoints.Interval>, e: Envelope) {
    exists i, nonce :: 0 <= i < |chain| && e == Sign(cfg.keyId, cfg.key, CheckpointDoc(chain[i].checkpoint), nonce)
  }

  lemma {:induction false} RecordedSignsOn(cfg: Config, chunks: seq<Chunk>, e: Envelope)
    requires Journal(cfg, chunks) && Recorded(chunks, e)
    ensures SignsOn(cfg, Chain(chunks), e)
  {
    var n := |chunks| - 1;
    JournalIsChain(cfg, chunks);
    var i :| 0 <= i < |chunks| && chunks[i].Line? && chunks[i].record.signature == Some(e);
    var shorter := Chain(chunks[..n]);
    if i == n {
      var nonce :| chunks[n].record.signature
                   == Some(Sign(cfg.keyId, cfg.key, CheckpointDoc(CheckpointOf(chunks[n].record)), nonce));
      assert Chain(chunks)[|shorter|].checkpoint == CheckpointOf(chunks[n].record);
    } else {
      assert chunks[..n][i] == chunks[i];
      RecordedSignsOn(cfg, chunks[..n], e);
      var j, nonce :| 0 <= j < |shorter| && e == Sign(cfg.keyId, cfg.key, CheckpointDoc(shorter[j].checkpoint), nonce);
      assert Chain(chunks)[j] == shorter[j];
    }
  }

  /** In every run, everything a witness has released lies on one chain of
      checkpoints from the pinned genesis. */
  lemma ReleasedOnOneChain(cfg: Config, steps: seq<Step>) returns (chain: seq<Checkpoints.Interval>)
    ensures FromGenesis(cfg, chain)
    ensures forall e :: e in Execute(cfg, steps).released ==> SignsOn(cfg, chain, e)
  {
    var w := Execute(cfg, steps);
    var d := w.state.disk.durable;
    RunKeepsInv(cfg, steps);
    var lines := if Journal(cfg, d) then d else d[..|d| - 1];
    JournalIsChain(cfg, lines);
    chain := Chain(lines);
    forall e | e in w.released
      ensures SignsOn(cfg, chain, e)
    {
      var i :| 0 <= i < |d| && d[i].Line? && d[i].record.signature == Some(e);
      assert lines[i] == d[i];
      RecordedSignsOn(cfg, lines, e);
    }
  }

  /** On one chain, checkpoints with the same predecessor are the same checkpoint. */
  lemma NoForkOnChain(chain: seq<Checkpoints.Interval>, i: nat, j: nat)
    requires Checkpoints.AcceptedChain(chain) && i <= j < |chain|
    requires chain[i].checkpoint.previousCheckpointDigest == chain[j].checkpoint.previousCheckpointDigest
    ensures i == j
  {
    assert Checkpoints.AcceptedAt(chain, i) && Checkpoints.AcceptedAt(chain, j);
    if i > 0 {
      Checkpoints.PrefixAccepted(chain, i);
      Checkpoints.PrefixAccepted(chain, j);
      Checkpoints.ChainDetermined(chain[..i], chain[..j]);
    }
  }

  /** A witness never releases signatures over two different successors of one checkpoint. */
  lemma NeverSignsFork(cfg: Config, steps: seq<Step>, e: Envelope, e': Envelope, cp: Checkpoint, cp': Checkpoint,
                       p: nat, p': nat)
    requires e in Execute(cfg, steps).released && e.payload == Text(CheckpointDoc(cp), p)
    requires e' in Execute(cfg, steps).released && e'.payload == Text(CheckpointDoc(cp'), p')
    requires cp.previousCheckpointDigest == cp'.previousCheckpointDigest
    ensures cp == cp'
  {
    var chain := ReleasedOnOneChain(cfg, steps);
    var i, a :| 0 <= i < |chain| && e == Sign(cfg.keyId, cfg.key, CheckpointDoc(chain[i].checkpoint), a);
    var j, b :| 0 <= j < |chain| && e' == Sign(cfg.keyId, cfg.key, CheckpointDoc(chain[j].checkpoint), b);
    if i <= j {
      NoForkOnChain(chain, i, j);
    } else {
      NoForkOnChain(chain, j, i);
    }
  }

  // --------------------------------------------------------------- reopening

  /** Replay accepts a record exactly when its checkpoint is not in the future and,
      if the record is signed, the platform's payload text is the encoder's own. */
  predicate Readable(chunk: Chunk, now: Time) {
    chunk.Line? && CarriesCheckpoint(chunk.record)
    && CheckpointOf(chunk.record).issuedAt <= now + CLOCK_SKEW
    && (chunk.record.signature.Some? ==> chunk.record.bundle.checkpoint.payload.spelling == 0)
  }

  lemma OneKeyPerId(ds: seq<Delegation>, k: string, t: Time, t': Time)
    requires Distinct(ds) && k in KeysAt(ds, WITNESS_ROLE, t) && k in KeysAt(ds, WITNESS_ROLE, t')
    ensures KeysAt(ds, WITNESS_ROLE, t)[k] == KeysAt(ds, WITNESS_ROLE, t')[k]
  {
    KeysAtExact(ds, WITNESS_ROLE, t, k);
    KeysAtExact(ds, WITNESS_ROLE, t', k);
  }

  lemma ReplayLineExact(cfg: Config, pinned: Pinned, chunk: Chunk, now: Time)
    requires Distinct(cfg.history.body.delegations) && Delegated(cfg, now)
    requires LineOk(cfg, pinned.last, chunk)
    ensures ReplayLine(cfg, pinned, chunk, now).Some? <==> Readable(chunk, now)
  {
    var r := chunk.record;
    var cp := CheckpointOf(r);
    var then' :| Validate(cfg, pinned.last, r.bundle, then') == Some(cp);
    assert Validate(cfg, pinned.last, r.bundle, now).Some? <==> cp.issuedAt <= now + CLOCK_SKEW;
    if Eligible(cfg, cp.issuedAt) {
      OneKeyPerId(cfg.history.body.delegations, cfg.keyId, now, cp.issuedAt);
      var nonce :| r.signature == Some(Sign(cfg.keyId, cfg.key, CheckpointDoc(cp), nonce));
      var e := Sign(cfg.keyId, cfg.key, CheckpointDoc(cp), nonce);
      assert Verifies(e, KeysFor(cfg, WITNESS_ROLE, cp.issuedAt));
      assert ReplaySignature(cfg, r, cp) <==> r.bundle.checkpoint.payload.spelling == 0;
    }
  }

  lemma {:induction false} ReplayExact(cfg: Config, chunks: seq<Chunk>, now: Time)
    requires Distinct(cfg.history.body.delegations) && Delegated(cfg, now)
    requires Journal(cfg, chunks)
    ensures Replay(cfg, chunks, now).Some? <==> forall i :: 0 <= i < |chunks| ==> Readable(chunks[i], now)
  {
    if chunks != [] {
      var n := |chunks| - 1;
      ReplayExact(cfg, chunks[..n], now);
      assert forall i :: 0 <= i < n ==> chunks[..n][i] == chunks[i];
      if Replay(cfg, chunks[..n], now).Some? {
        ReplayPinsTip(cfg, chunks[..n], now);
        ReplayLineExact(cfg, Replay(cfg, chunks[..n], now).value, chunks[n], now);
      }
    }
  }

  function File(w: World): seq<Chunk> { w.state.disk.durable + w.state.disk.pending }

  /** After any run, reopening succeeds exactly when the file has no torn tail and
      every record is readable; it then pins the last record of the file again. */
  lemma ReopeningRebuilds(cfg: Config, steps: seq<Step>, now: Time)
    requires Distinct(cfg.history.body.delegations) && Delegated(cfg, now)
    requires Execute(cfg, steps).state.process.Down?
    ensures var w, w' := Execute(cfg, steps), Next(cfg, Execute(cfg, steps), Opening(now, true));
            && (w'.state.process.Up? <==>
                !EndsTorn(File(w)) && forall i :: 0 <= i < |File(w)| ==> Readable(File(w)[i], now))
            && (w'.state.process.Up? ==> w'.state.process == Up(TipCheckpoint(File(w)), TipRecord(File(w)), false))
            && w'.state.disk == Disk(File(w), []) && w'.released == w.released
  {
    var w := Execute(cfg, steps);
    RunKeepsInv(cfg, steps);
    var file := File(w);
    if !EndsTorn(file) {
      assert w.state.disk.pending == [] ==> file == w.state.disk.durable;
      assert Journal(cfg, file);
      ReplayExact(cfg, file, now);
      if Replay(cfg, file, now).Some? {
        ReplayPinsTip(cfg, file, now);
      }
    }
  }

  // ------------------------------------------------------------------ retries

  lemma LinkedIsSelfDigested(events: seq<Event>, from: nat, previous: Digest)
    requires Checkpoints.Linked(events, from, previous)
    ensures SameAuditEvents(events, events)
  {
    forall i | 0 <= i < |events|
      ensures SameAuditEventAt(events, events, i)
    {
      assert Checkpoints.LinkedAt(events, from, previous, i);
    }
  }

  /** Observing again what was just answered gives the same answer and changes
      nothing, whatever the clock and the environment do. */
  lemma RetryAnswersTheSame(cfg: Config, w: World, bundle: Bundle, now: Time, io: Io, again: State, now': Time, io': Io)
    requires Inv(cfg, w)
    requires var (s', reply) := Observe(cfg, w.state, bundle, now, io);
             !reply.Refused? && again.process == s'.process
    ensures Observe(cfg, again, bundle, now', io') == (again, Observe(cfg, w.state, bundle, now, io).1)
  {
    var s := w.state;
    if !IsRetry(s, bundle) {
      var cp := Validate(cfg, s.process.last, bundle, now).value;
      var start := Checkpoints.StartAfter(cp.logId, s.process.last, cp.issuedAt).value;
      LinkedIsSelfDigested(bundle.events, start.from, start.event);
    }
  }

  /** A vote survives a restart: after closing or a crash, however much a crash may
      drop, reopening succeeds exactly when every record is readable, and the same
      bundle then gets the same signature again without the file growing. */
  lemma RetryAfterRestart(cfg: Config, steps: seq<Step>, bundle: Bundle, now: Time, io: Io, stop: Step,
                          reopenedAt: Time, now': Time, io': Io)
    requires Distinct(cfg.history.body.delegations) && Delegated(cfg, reopenedAt) && (stop.Closing? || stop.Crashing?)
    requires Observe(cfg, Execute(cfg, steps).state, bundle, now, io).1.Voted?
    ensures var (s, reply) := Observe(cfg, Execute(cfg, steps).state, bundle, now, io);
            var w := Execute(cfg, steps + [Observing(bundle, now, io), stop, Opening(reopenedAt, true)]);
            && reply.envelope in w.released && w.state.disk == s.disk
            && (w.state.process.Up? <==>
                forall i :: 0 <= i < |s.disk.durable| ==> Readable(s.disk.durable[i], reopenedAt))
            && (w.state.process.Up? ==> Observe(cfg, w.state, bundle, now', io') == (w.state, reply))
  {
    var w0 := Execute(cfg, steps);
    RunKeepsInv(cfg, steps);
    var s1 := steps + [Observing(bundle, now, io)];
    var s2 := s1 + [stop];
    var s3 := s2 + [Opening(reopenedAt, true)];
    assert steps + [Observing(bundle, now, io), stop, Opening(reopenedAt, true)] == s3;
    assert s1[..|s1| - 1] == steps && s2[..|s2| - 1] == s1 && s3[..|s3| - 1] == s2;
    var w1, w2, w3 := Execute(cfg, s1), Execute(cfg, s2), Execute(cfg, s3);
    RunKeepsInv(cfg, s1);
    StoppedFile(cfg, w1, stop);
    ReopeningRebuilds(cfg, s2, reopenedAt);
    if w3.state.process.Up? {
      RetryAnswersTheSame(cfg, w0, bundle, now, io, w3.state, now', io');
    }
  }

  /** Once everything is synced, stopping in any way leaves the file as it is. */
  lemma StoppedFile(cfg: Config, w: World, stop: Step)
    requires (stop.Closing? || stop.Crashing?) && w.state.disk.pending == []
    ensures var w' := Next(cfg, w, stop);
            File(w') == w.state.disk.durable && w'.released == w.released && w'.state.process.Down?
  {
  }

  // ----------------------------------------------------------- witnessed forks

  /** A witnessed fork needs a deviating operator. When two different successors
      of one checkpoint both reach quorum under the same membership, one member's
      key signed both payloads, and no run of the witness with that key releases
      both of these signatures. */
  lemma WitnessedForkNeedsDeviation(h: History, cp: Checkpoint, cp': Checkpoint,
                                    p: Envelope, ws: seq<Envelope>, p': Envelope, ws': seq<Envelope>)
    returns (k: string, key: Key, sig: SignatureValue, sig': SignatureValue)
    requires Distinct(h.body.delegations)
    requires WitnessOperatorsAt(h, cp.issuedAt) == WitnessOperatorsAt(h, cp'.issuedAt)
    requires p.payload.Text? && p.payload.document == CheckpointDoc(cp)
    requires p'.payload.Text? && p'.payload.document == CheckpointDoc(cp')
    requires cp != cp' && cp.previousCheckpointDigest == cp'.previousCheckpointDigest
    requires Quorum.QuorumReached(p, ws, KeysAt(h.body.delegations, WITNESS_ROLE, cp.issuedAt),
                                  WitnessOperatorsAt(h, cp.issuedAt), QUORUM)
    requires Quorum.QuorumReached(p', ws', KeysAt(h.body.delegations, WITNESS_ROLE, cp'.issuedAt),
                                  WitnessOperatorsAt(h, cp'.issuedAt), QUORUM)
    ensures k in WitnessOperatorsAt(h, cp.issuedAt)
    ensures Signed(sig, key, p.payloadType, p.payload) && Signed(sig', key, p'.payloadType, p'.payload)
    ensures forall steps ::
              var released := Execute(Config(h, k, key), steps).released;
              !(Envelope(p.payloadType, p.payload, [Signature(k, sig)]) in released
                && Envelope(p'.payloadType, p'.payload, [Signature(k, sig')]) in released)
  {
    var ds := h.body.delegations;
    var keys, keys' := KeysAt(ds, WITNESS_ROLE, cp.issuedAt), KeysAt(ds, WITNESS_ROLE, cp'.issuedAt);
    k := Quorum.QuorumsIntersect(p, ws, keys, p', ws', keys', WitnessOperatorsAt(h, cp.issuedAt));
    sig := Quorum.VoteIsSignature(p, ws, keys, k);
    sig' := Quorum.VoteIsSignature(p', ws', keys', k);
    OneKeyPerId(ds, k, cp.issuedAt, cp'.issuedAt);
    key := keys[k];
    var cfg := Config(h, k, key);
    var e, e' := Envelope(p.payloadType, p.payload, [Signature(k, sig)]),
      Envelope(p'.payloadType, p'.payload, [Signature(k, sig')]);
    forall steps | e in Execute(cfg, steps).released && e' in Execute(cfg, steps).released
      ensures false
    {
      NeverSignsFork(cfg, steps, e, e', cp, cp', p.payload.spelling, p'.payload.spelling);
    }
  }
}

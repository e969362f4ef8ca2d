/** A witness and its journal (internal/audit/witness.go), on values: what one
    call does, what a crash keeps and what reopening rebuilds. */
module WitnessJournal {
  import opened Wrappers
  import opened AuditData
  import opened KeyHistory
  import Checkpoints

  /** The fixed context of one witness: a verified history, its key id and key. */
  datatype Config = Config(history: History, keyId: string, key: Key)

  datatype Record = Record(bundle: Bundle, signature: Option<Envelope>, historical: bool)

  /** A journal line, or the beginning of one that was never completed. */
  datatype Chunk = Line(record: Record) | Torn

  /** The synced part of the file and what was written after the last sync. */
  datatype Disk = Disk(durable: seq<Chunk>, pending: seq<Chunk>)

  datatype Process = Down | Up(last: Option<Checkpoint>, lastRecord: Option<Record>, poisoned: bool)

  datatype State = State(disk: Disk, process: Process)

  /** How one journal write ends: complete, or failed with this much written. */
  datatype Write = Complete | FailedWhole | FailedTorn | FailedEmpty

  /** What the environment decides during one observation: whether the record is
      within the size bound, the signer's randomness or failure, write and sync. */
  datatype Io = Io(fits: bool, signing: Option<nat>, write: Write, syncs: bool)

  /** Refused is an error. Retained is success with the empty envelope. */
  datatype Reply = Refused | Retained | Voted(envelope: Envelope)

  // --------------------------------------------------------------- one call

  function KeysFor(cfg: Config, role: string, at: Time): map<string, Key> {
    KeysAt(cfg.history.body.delegations, role, at)
  }

  predicate Eligible(cfg: Config, at: Time) {
    && cfg.keyId in KeysFor(cfg, WITNESS_ROLE, at)
    && cfg.keyId in WitnessOperatorsAt(cfg.history, at)
    && WitnessOperatorsAt(cfg.history, at)[cfg.keyId] != ""
  }

  /** `validate`: the checkpoint follows the pinned predecessor, or is the pinned genesis. */
  function Validate(cfg: Config, last: Option<Checkpoint>, bundle: Bundle, now: Time): Option<Checkpoint> {
    var p := bundle.checkpoint.payload;
    if !p.Text? || !p.document.CheckpointDoc? then None
    else
      var cp := Checkpoints.VerifyCheckpoint(bundle.checkpoint,
                                             KeysFor(cfg, CHECKPOINT_ROLE, p.document.checkpoint.issuedAt),
                                             bundle.events, last, now);
      if cp.Some? && last.None? && CheckpointDigest(cp.value) != cfg.history.body.genesisCheckpointDigest then None
      else cp
  }

  predicate SelfDigested(e: Event) {
    Checkpoints.EventDigest(e.previousDigest, e.kind, e.payload) == Some(e.digest)
  }

  predicate SameAuditEventAt(a: seq<Event>, b: seq<Event>, i: nat)
    requires i < |a| && i < |b|
  {
    && a[i].sequence == b[i].sequence && a[i].kind == b[i].kind
    && a[i].previousDigest == b[i].previousDigest && a[i].digest == b[i].digest
    && SelfDigested(a[i]) && SelfDigested(b[i])
  }

  predicate SameAuditEvents(a: seq<Event>, b: seq<Event>) {
    |a| == |b| && forall i :: 0 <= i < |a| ==> SameAuditEventAt(a, b, i)
  }

  predicate IsRetry(s: State, bundle: Bundle) {
    s.process.Up? && s.process.lastRecord.Some?
    && bundle.checkpoint.payload == s.process.lastRecord.value.bundle.checkpoint.payload
  }

  function ReplyOf(r: Record): Reply {
    if r.signature.None? then Retained else Voted(r.signature.value)
  }

  /** A repetition of the last payload: same events and a good platform signature
      bring back the stored reply. */
  function Retry(cfg: Config, s: State, bundle: Bundle): Reply
    requires IsRetry(s, bundle)
  {
    var r := s.process.lastRecord.value;
    if !SameAuditEvents(bundle.events, r.bundle.events) then Refused
    else if s.process.last.None?
            || !Verifies(bundle.checkpoint, KeysFor(cfg, CHECKPOINT_ROLE, s.process.last.value.issuedAt)) then Refused
    else ReplyOf(r)
  }

  /** The record that observing a new checkpoint would journal, if it gets that far. */
  function NewRecord(cfg: Config, s: State, bundle: Bundle, now: Time, io: Io): Option<Record>
    requires s.process.Up?
  {
    var cp := Validate(cfg, s.process.last, bundle, now);
    if cp.None? || !Eligible(cfg, now) || !io.fits then None
    else
      var stripped := bundle.(witnesses := []);
      if !Eligible(cfg, cp.value.issuedAt)
      then if cp.value.issuedAt < now then Some(Record(stripped, None, true)) else None
      else match io.signing
        case None => None
        case Some(nonce) => Some(Record(stripped, Some(Sign(cfg.keyId, cfg.key, CheckpointDoc(cp.value), nonce)),
                                        false))
  }

  function Written(record: Record, w: Write): seq<Chunk> {
    match w
    case Complete => [Line(record)]
    case FailedWhole => [Line(record)]
    case FailedTorn => [Torn]
    case FailedEmpty => []
  }

  /** Journal first, then sync, then advance and reply; any failure poisons. */
  function Commit(s: State, cp: Checkpoint, record: Record, io: Io): (State, Reply)
    requires s.process.Up?
  {
    var pending := s.disk.pending + Written(record, io.write);
    if io.write != Complete || !io.syncs
    then (State(s.disk.(pending := pending), s.process.(poisoned := true)), Refused)
    else (State(Disk(s.disk.durable + pending, []), Up(Some(cp), Some(record), false)), ReplyOf(record))
  }

  /** Observe. */
  function Observe(cfg: Config, s: State, bundle: Bundle, now: Time, io: Io): (State, Reply) {
    if !s.process.Up? || s.process.poisoned then (s, Refused)
    else if IsRetry(s, bundle) then (s, Retry(cfg, s, bundle))
    else
      var record := NewRecord(cfg, s, bundle, now, io);
      if record.None? then (s, Refused)
      else Commit(s, Validate(cfg, s.process.last, bundle, now).value, record.value, io)
  }

  // -------------------------------------------------------------- reopening

  /** The signature part of the replay check for one record. */
  predicate ReplaySignature(cfg: Config, record: Record, cp: Checkpoint) {
    if record.historical then record.signature.None?
    else
      && record.signature.Some?
      && var e := record.signature.value;
         && |e.signatures| == 1
         && Verifies(e, KeysFor(cfg, WITNESS_ROLE, cp.issuedAt))
         && e.signatures[0].keyId in WitnessOperatorsAt(cfg.history, cp.issuedAt)
         && WitnessOperatorsAt(cfg.history, cp.issuedAt)[e.signatures[0].keyId] != ""
         && PayloadHash(e.payload) == CheckpointDigest(cp)
         && e.payload == record.bundle.checkpoint.payload
  }

  datatype Pinned = Pinned(last: Option<Checkpoint>, lastRecord: Option<Record>)

  /** The replay loop of openWitness over the lines of the file. */
  function Replay(cfg: Config, chunks: seq<Chunk>, now: Time): Option<Pinned> {
    if chunks == [] then Some(Pinned(None, None))
    else
      var n := |chunks| - 1;
      match Replay(cfg, chunks[..n], now)
      case None => None
      case Some(pinned) => ReplayLine(cfg, pinned, chunks[n], now)
  }

  function ReplayLine(cfg: Config, pinned: Pinned, chunk: Chunk, now: Time): Option<Pinned> {
    if chunk.Torn? then None
    else
      var cp := Validate(cfg, pinned.last, chunk.record.bundle, now);
      if cp.None? || !ReplaySignature(cfg, chunk.record, cp.value) then None
      else Some(Pinned(cp, Some(chunk.record)))
  }

  /** The delegated key is in force and is the process's own key. */
  predicate Delegated(cfg: Config, now: Time) {
    Eligible(cfg, now) && KeysFor(cfg, WITNESS_ROLE, now)[cfg.keyId] == cfg.key
  }

  predicate EndsTorn(chunks: seq<Chunk>) { chunks != [] && chunks[|chunks| - 1].Torn? }

  /** openWitness: sync what is there, refuse a partial tail, replay the rest. The
      exclusive lock means it runs only while no process is up. */
  function Open(cfg: Config, s: State, now: Time, syncs: bool): State {
    if s.process.Up? || !Delegated(cfg, now) || !syncs then s
    else
      var file := s.disk.durable + s.disk.pending;
      var synced := State(Disk(file, []), Down);
      if EndsTorn(file) then synced
      else match Replay(cfg, file, now)
        case None => synced
        case Some(pinned) => synced.(process := Up(pinned.last, pinned.lastRecord, false))
  }

  /** A crash keeps the synced part and some beginning of the unsynced part, which
      may end inside a line. */
  function Crash(s: State, kept: nat, torn: bool): State {
    var n := if kept < |s.disk.pending| then kept else |s.disk.pending|;
    var part := s.disk.pending[..n] + if torn && n < |s.disk.pending| then [Torn] else [];
    State(Disk(s.disk.durable + part, []), Down)
  }

  // ------------------------------------------------------------------- runs

  datatype Step =
    | Observing(bundle: Bundle, now: Time, io: Io)
    | Crashing(kept: nat, torn: bool)
    | Closing
    | Opening(now: Time, syncs: bool)

  /** A state together with every signature released so far. */
  datatype World = World(state: State, released: set<Envelope>)

  function Next(cfg: Config, w: World, step: Step): World {
    match step
    case Observing(bundle, now, io) =>
      var (s, reply) := Observe(cfg, w.state, bundle, now, io);
      World(s, if reply.Voted? then w.released + {reply.envelope} else w.released)
    case Crashing(kept, torn) => w.(state := Crash(w.state, kept, torn))
    case Closing => w.(state := w.state.(process := Down))
    case Opening(now, syncs) => w.(state := Open(cfg, w.state, now, syncs))
  }

  const START: World := World(State(Disk([], []), Down), {})

  function Execute(cfg: Config, steps: seq<Step>): World {
    if steps == [] then START
    else Next(cfg, Execute(cfg, steps[..|steps| - 1]), steps[|steps| - 1])
  }
}

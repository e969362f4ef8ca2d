/** What a witness answers, and that it answers: the exact condition for every reply, and a
    run that signs every checkpoint of a given chain. */
module WitnessAnswers {
  import opened Wrappers
  import opened AuditData
  import opened KeyHistory
  import opened WitnessJournal
  import WitnessSafety
  import Checkpoints

  // ------------------------------------------------------------- a new checkpoint

  /** One to eight signatures under different key ids over readable JSON, one of them made
      with a checkpoint key in force. */
  ghost predicate PlatformSigned(h: History, e: Envelope, at: Time) {
    && e.payloadType == "application/vnd.science-ladder.v1+json" && e.payload.Text? && 1 <= |e.signatures| <= 8
    && (forall i, j :: 0 <= i < j < |e.signatures| ==> e.signatures[i].keyId != e.signatures[j].keyId)
    && exists i :: 0 <= i < |e.signatures| && PlatformSignature(h, e, at, i)
  }

  ghost predicate PlatformSignature(h: History, e: Envelope, at: Time, i: nat)
    requires i < |e.signatures|
  {
    var s := e.signatures[i];
    && s.sig.Made? && s.sig.payloadType == e.payloadType && s.sig.payload == e.payload
    && KeyInForce(h.body.delegations, "audit-checkpoint", s.keyId, s.sig.key, at)
  }

  /** A named member of the witness set with a witness key in force. */
  ghost predicate Entitled(cfg: Config, at: Time) {
    && (exists key :: KeyInForce(cfg.history.body.delegations, "audit-witness", cfg.keyId, key, at))
    && cfg.keyId in WitnessOperatorsAt(cfg.history, at) && WitnessOperatorsAt(cfg.history, at)[cfg.keyId] != ""
  }

  /** The bundle shows a checkpoint that the platform signed, that is not in the future, and
      that follows the pinned predecessor or is the pinned genesis. */
  ghost predicate Presents(cfg: Config, last: Option<Checkpoint>, bundle: Bundle, now: Time, cp: Checkpoint) {
    var e := bundle.checkpoint;
    && e.payload.Text? && e.payload.document == CheckpointDoc(cp) && PlatformSigned(cfg.history, e, cp.issuedAt)
    && cp.issuedAt <= now + 300_000_000_000 && Checkpoints.Follows(cp, bundle.events, last)
    && (last.None? ==> CheckpointDigest(cp) == cfg.history.body.genesisCheckpointDigest)
  }

  lemma VerifiesExact(h: History, e: Envelope, at: Time)
    requires Distinct(h.body.delegations)
    ensures Verifies(e, KeysAt(h.body.delegations, CHECKPOINT_ROLE, at)) <==> PlatformSigned(h, e, at)
  {
    var ds := h.body.delegations;
    var keys := KeysAt(ds, CHECKPOINT_ROLE, at);
    forall i | 0 <= i < |e.signatures|
      ensures (e.signatures[i].keyId in keys
               && Signed(e.signatures[i].sig, keys[e.signatures[i].keyId], e.payloadType, e.payload))
              <==> PlatformSignature(h, e, at, i)
    {
      if e.signatures[i].sig.Made? {
        KeysAreInForce(ds, CHECKPOINT_ROLE, at, e.signatures[i].keyId, e.signatures[i].sig.key);
      }
    }
  }

  lemma EligibleExact(cfg: Config, at: Time)
    requires Distinct(cfg.history.body.delegations)
    ensures Eligible(cfg, at) <==> Entitled(cfg, at)
  {
    var ds := cfg.history.body.delegations;
    var keys := KeysAt(ds, WITNESS_ROLE, at);
    if cfg.keyId in keys {
      KeysAreInForce(ds, WITNESS_ROLE, at, cfg.keyId, keys[cfg.keyId]);
    }
    if key :| KeyInForce(ds, "audit-witness", cfg.keyId, key, at) {
      KeysAreInForce(ds, WITNESS_ROLE, at, cfg.keyId, key);
    }
  }

  lemma ValidateExact(cfg: Config, last: Option<Checkpoint>, bundle: Bundle, now: Time, cp: Checkpoint)
    requires Distinct(cfg.history.body.delegations)
    ensures Validate(cfg, last, bundle, now) == Some(cp) <==> Presents(cfg, last, bundle, now, cp)
  {
    VerifiesExact(cfg.history, bundle.checkpoint, cp.issuedAt);
  }

  /** The record is written and synced before the witness advances and answers; if either
      fails it refuses, now and until it is reopened. */
  predicate Journals(s: State, cp: Checkpoint, r: Record, io: Io, t: State, reply: Reply)
    requires s.process.Up?
  {
    if io.write == Complete && io.syncs then
      && t.disk == Disk(s.disk.durable + s.disk.pending + [Line(r)], []) && t.process == Up(Some(cp), Some(r), false)
      && reply == (if r.signature.Some? then Voted(r.signature.value) else Retained)
    else
      && reply == Refused && t.process == s.process.(poisoned := true) && t.disk.durable == s.disk.durable
      && s.disk.pending <= t.disk.pending && |t.disk.pending| <= |s.disk.pending| + 1
  }

  /** This witness's signature over a checkpoint. */
  function Vote(cfg: Config, cp: Checkpoint, nonce: nat): Envelope {
    var payload := Text(CheckpointDoc(cp), 0);
    Envelope("application/vnd.science-ladder.v1+json", payload,
             [Signature(cfg.keyId, Made(cfg.key, "application/vnd.science-ladder.v1+json", payload, nonce))])
  }

  /** The answer to a bundle that is not a repetition. A presented checkpoint is journaled
      with a vote exactly when the witness is entitled now and was when it was issued;
      without one when it was not and the checkpoint lies in the past. Every other bundle is
      refused and changes nothing. */
  lemma ObserveExact(cfg: Config, s: State, bundle: Bundle, now: Time, io: Io)
    requires Distinct(cfg.history.body.delegations) && s.process.Up? && !s.process.poisoned
    requires s.process.lastRecord.Some? ==>
               bundle.checkpoint.payload != s.process.lastRecord.value.bundle.checkpoint.payload
    ensures var (t, reply) := Observe(cfg, s, bundle, now, io);
            && (forall cp :: Presents(cfg, s.process.last, bundle, now, cp) && Entitled(cfg, now) && io.fits ==>
                  if Entitled(cfg, cp.issuedAt) && io.signing.Some?
                  then Journals(s, cp, Record(bundle.(witnesses := []), Some(Vote(cfg, cp, io.signing.value)), false),
                                io, t, reply)
                  else if !Entitled(cfg, cp.issuedAt) && cp.issuedAt < now
                  then Journals(s, cp, Record(bundle.(witnesses := []), None, true), io, t, reply)
                  else t == s && reply == Refused)
            && ((forall cp :: !Presents(cfg, s.process.last, bundle, now, cp)) || !Entitled(cfg, now) || !io.fits ==>
                  t == s && reply == Refused)
  {
    EligibleExact(cfg, now);
    var r := Validate(cfg, s.process.last, bundle, now);
    if r.Some? {
      ValidateExact(cfg, s.process.last, bundle, now, r.value);
      EligibleExact(cfg, r.value.issuedAt);
    }
    forall cp | Presents(cfg, s.process.last, bundle, now, cp)
      ensures r == Some(cp)
    {
      ValidateExact(cfg, s.process.last, bundle, now, cp);
    }
  }

  // ------------------------------------------------------------------ repetitions

  lemma SameEventsExact(a: seq<Event>, b: seq<Event>)
    requires SameAuditEvents(b, b)
    ensures SameAuditEvents(a, b) <==> Checkpoints.SameEvents(a, b)
  {
    if SameAuditEvents(a, b) {
      forall i | 0 <= i < |a|
        ensures Checkpoints.SameEvent(a[i], b[i])
      {
        assert SameAuditEventAt(a, b, i);
        Checkpoints.EventDigestInjective(a[i].previousDigest, a[i].kind, a[i].payload,
                                         b[i].previousDigest, b[i].kind, b[i].payload);
      }
    }
    if Checkpoints.SameEvents(a, b) {
      forall i | 0 <= i < |a|
        ensures SameAuditEventAt(a, b, i)
      {
        assert Checkpoints.SameEvent(a[i], b[i]) && SameAuditEventAt(b, b, i);
      }
    }
  }

  /** In every run, a repetition of the last payload is answered with the stored reply exactly
      when it has the same events, up to the layout of their JSON, and a platform signature
      that was good when the checkpoint was issued. It never changes anything. */
  lemma RetryExact(cfg: Config, steps: seq<Step>, bundle: Bundle, now: Time, io: Io)
    requires Distinct(cfg.history.body.delegations)
    requires var s := Execute(cfg, steps).state;
             && s.process.Up? && !s.process.poisoned && s.process.lastRecord.Some?
             && bundle.checkpoint.payload == s.process.lastRecord.value.bundle.checkpoint.payload
    ensures var s := Execute(cfg, steps).state;
            var r := s.process.lastRecord.value;
            && s.process.last.Some?
            && Observe(cfg, s, bundle, now, io)
               == (s, if Checkpoints.SameEvents(bundle.events, r.bundle.events)
                         && PlatformSigned(cfg.history, bundle.checkpoint, s.process.last.value.issuedAt)
                      then (if r.signature.Some? then Voted(r.signature.value) else Retained) else Refused)
  {
    var s := Execute(cfg, steps).state;
    var r := s.process.lastRecord.value;
    WitnessSafety.RunKeepsInv(cfg, steps);
    JournaledEvents(cfg, s.disk.durable);
    SameEventsExact(bundle.events, r.bundle.events);
    VerifiesExact(cfg.history, bundle.checkpoint, s.process.last.value.issuedAt);
  }

  /** The events of the last line of a journal carry their own digests. */
  lemma JournaledEvents(cfg: Config, chunks: seq<Chunk>)
    requires WitnessSafety.Journal(cfg, chunks) && chunks != []
    ensures WitnessSafety.TipCheckpoint(chunks).Some? && WitnessSafety.TipRecord(chunks).Some?
    ensures var events := WitnessSafety.TipRecord(chunks).value.bundle.events; SameAuditEvents(events, events)
  {
    var n := |chunks| - 1;
    var r, last := chunks[n].record, WitnessSafety.TipCheckpoint(chunks[..n]);
    var cp := WitnessSafety.CheckpointOf(r);
    var at :| Validate(cfg, last, r.bundle, at) == Some(cp);
    var start := Checkpoints.StartAfter(cp.logId, last, cp.issuedAt).value;
    WitnessSafety.LinkedIsSelfDigested(r.bundle.events, start.from, start.event);
  }

  // -------------------------------------------------------------------- reopening

  /** The process holds the witness key in force under its id, as a named member. */
  ghost predicate Enrolled(cfg: Config, at: Time) {
    && KeyInForce(cfg.history.body.delegations, "audit-witness", cfg.keyId, cfg.key, at)
    && cfg.keyId in WitnessOperatorsAt(cfg.history, at) && WitnessOperatorsAt(cfg.history, at)[cfg.keyId] != ""
  }

  lemma DelegatedExact(cfg: Config, at: Time)
    requires Distinct(cfg.history.body.delegations)
    ensures Delegated(cfg, at) <==> Enrolled(cfg, at)
  {
    KeysAreInForce(cfg.history.body.delegations, WITNESS_ROLE, at, cfg.keyId, cfg.key);
  }

  /** The signature part of a line. A historical line has none. Any other has one signature
      over the platform's own payload in the encoder's spelling, made with a witness key in
      force, by a named member, when the checkpoint was issued. */
  ghost predicate SignatureFits(cfg: Config, r: Record, cp: Checkpoint) {
    if r.historical then r.signature.None?
    else
      && r.signature.Some?
      && var e := r.signature.value;
         && |e.signatures| == 1 && e.payloadType == "application/vnd.science-ladder.v1+json"
         && e.payload == Text(CheckpointDoc(cp), 0) && r.bundle.checkpoint.payload == e.payload
         && var s := e.signatures[0];
            && s.sig.Made? && s.sig.payloadType == e.payloadType && s.sig.payload == e.payload
            && KeyInForce(cfg.history.body.delegations, "audit-witness", s.keyId, s.sig.key, cp.issuedAt)
            && s.keyId in WitnessOperatorsAt(cfg.history, cp.issuedAt)
            && WitnessOperatorsAt(cfg.history, cp.issuedAt)[s.keyId] != ""
  }

  lemma SignatureExact(cfg: Config, r: Record, cp: Checkpoint)
    requires Distinct(cfg.history.body.delegations)
    ensures ReplaySignature(cfg, r, cp) <==> SignatureFits(cfg, r, cp)
  {
    if !r.historical && r.signature.Some? && |r.signature.value.signatures| == 1 {
      var e := r.signature.value;
      var keys := KeysFor(cfg, WITNESS_ROLE, cp.issuedAt);
      if e.signatures[0].sig.Made? {
        KeysAreInForce(cfg.history.body.delegations, WITNESS_ROLE, cp.issuedAt, e.signatures[0].keyId,
                       e.signatures[0].sig.key);
      }
      if e.payload.Text? {
        assert PayloadHash(e.payload) == CheckpointDigest(cp) <==> e.payload == Text(CheckpointDoc(cp), 0) by {
          if PayloadHash(e.payload) == CheckpointDigest(cp) {
            assert PayloadHash(e.payload).body[0] == CheckpointDigest(cp).body[0];
          }
        }
      }
    }
  }

  /** Replaying any line, whoever wrote it: it is accepted exactly when it is whole, presents
      a checkpoint after the ones before it, and its signature fits; it is then the one pinned. */
  lemma ReplayLineAnswers(cfg: Config, pinned: Pinned, chunk: Chunk, now: Time)
    requires Distinct(cfg.history.body.delegations)
    ensures var t := ReplayLine(cfg, pinned, chunk, now);
            && (forall cp :: chunk.Line? && Presents(cfg, pinned.last, chunk.record.bundle, now, cp)
                             && SignatureFits(cfg, chunk.record, cp) ==>
                  t == Some(Pinned(Some(cp), Some(chunk.record))))
            && (t.Some? ==>
                  && chunk.Line? && t.value.last.Some?
                  && Presents(cfg, pinned.last, chunk.record.bundle, now, t.value.last.value)
                  && SignatureFits(cfg, chunk.record, t.value.last.value))
  {
    if chunk.Line? {
      var r := Validate(cfg, pinned.last, chunk.record.bundle, now);
      if r.Some? {
        ValidateExact(cfg, pinned.last, chunk.record.bundle, now, r.value);
        SignatureExact(cfg, chunk.record, r.value);
      }
      forall cp | Presents(cfg, pinned.last, chunk.record.bundle, now, cp)
        ensures r == Some(cp)
      {
        ValidateExact(cfg, pinned.last, chunk.record.bundle, now, cp);
      }
    }
  }

  /** After any run, a stopped witness comes up exactly when it is enrolled now, the file can
      be synced, it does not end in a torn line, and every record in it is readable. Without
      enrolment or sync nothing changes at all. */
  lemma ReopenExact(cfg: Config, steps: seq<Step>, now: Time, syncs: bool)
    requires Distinct(cfg.history.body.delegations) && Execute(cfg, steps).state.process.Down?
    ensures var w, w' := Execute(cfg, steps), Next(cfg, Execute(cfg, steps), Opening(now, syncs));
            var file := WitnessSafety.File(w);
            && (w'.state.process.Up? <==>
                Enrolled(cfg, now) && syncs && !EndsTorn(file)
                && forall i :: 0 <= i < |file| ==> WitnessSafety.Readable(file[i], now))
            && (!Enrolled(cfg, now) || !syncs ==> w' == w)
  {
    DelegatedExact(cfg, now);
    if Delegated(cfg, now) && syncs {
      WitnessSafety.ReopeningRebuilds(cfg, steps, now);
    }
  }

  // ---------------------------------------------------------------- it does sign

  /** The platform's envelope over a checkpoint. */
  function Published(cp: Checkpoint, id: string, key: Key): Envelope { Sign(id, key, CheckpointDoc(cp), 0) }

  function Shown(interval: Checkpoints.Interval, id: string, key: Key): Bundle {
    Bundle(Published(interval.checkpoint, id, key), [], interval.events)
  }

  const SMOOTH: Io := Io(true, Some(0), Complete, true)

  /** The witness and the platform both hold keys in force at the instant. */
  ghost predicate Staffed(cfg: Config, id: string, key: Key, at: Time) {
    KeyInForce(cfg.history.body.delegations, "audit-checkpoint", id, key, at) && Enrolled(cfg, at)
  }

  ghost predicate AllStaffed(cfg: Config, chain: seq<Checkpoints.Interval>, id: string, key: Key) {
    forall i :: 0 <= i < |chain| ==> Staffed(cfg, id, key, chain[i].checkpoint.issuedAt)
  }

  /** The witness has journaled exactly the chain and waits for what follows it. */
  predicate StandsAt(chain: seq<Checkpoints.Interval>, id: string, key: Key, s: State) {
    && s.disk.pending == [] && |s.disk.durable| == |chain|
    && s.process.Up? && s.process.last == Checkpoints.Tip(chain) && !s.process.poisoned
    && (chain == [] ==> s.process.lastRecord.None?)
    && (chain != [] ==> s.process.lastRecord.Some?
                        && s.process.lastRecord.value.bundle == Shown(chain[|chain| - 1], id, key))
  }

  /** A signature over every checkpoint of the chain was released. */
  ghost predicate AllVoted(cfg: Config, chain: seq<Checkpoints.Interval>, released: set<Envelope>) {
    forall i :: 0 <= i < |chain| ==> Vote(cfg, chain[i].checkpoint, 0) in released
  }

  lemma FreshOpens(cfg: Config, id: string, key: Key, at: Time)
    requires Distinct(cfg.history.body.delegations) && Staffed(cfg, id, key, at)
    ensures Next(cfg, START, Opening(at, true)) == World(State(Disk([], []), Up(None, None, false)), {})
  {
    DelegatedExact(cfg, at);
  }

  lemma PublishedIsSigned(cfg: Config, cp: Checkpoint, id: string, key: Key)
    requires KeyInForce(cfg.history.body.delegations, "audit-checkpoint", id, key, cp.issuedAt)
    ensures PlatformSigned(cfg.history, Published(cp, id, key), cp.issuedAt)
  {
    assert PlatformSignature(cfg.history, Published(cp, id, key), cp.issuedAt, 0);
  }

  /** The witness stands at the end of the chain before its last checkpoint, and signs that. */
  lemma AnswersNext(cfg: Config, chain: seq<Checkpoints.Interval>, id: string, key: Key, s: State)
    requires Distinct(cfg.history.body.delegations) && WitnessSafety.FromGenesis(cfg, chain) && chain != []
    requires Staffed(cfg, id, key, chain[|chain| - 1].checkpoint.issuedAt)
    requires StandsAt(chain[..|chain| - 1], id, key, s)
    ensures var cp, bundle := chain[|chain| - 1].checkpoint, Shown(chain[|chain| - 1], id, key);
            var (t, reply) := Observe(cfg, s, bundle, cp.issuedAt, SMOOTH);
            reply == Voted(Vote(cfg, cp, 0)) && StandsAt(chain, id, key, t)
  {
    var n := |chain| - 1;
    var cp, bundle := chain[n].checkpoint, Shown(chain[n], id, key);
    NextIsNew(cfg, chain);
    PublishedIsSigned(cfg, cp, id, key);
    assert Presents(cfg, s.process.last, bundle, cp.issuedAt, cp);
    assert Entitled(cfg, cp.issuedAt);
    ObserveExact(cfg, s, bundle, cp.issuedAt, SMOOTH);
    assert bundle.(witnesses := []) == bundle;
    var (t, reply) := Observe(cfg, s, bundle, cp.issuedAt, SMOOTH);
    assert Journals(s, cp, Record(bundle, Some(Vote(cfg, cp, 0)), false), SMOOTH, t, reply);
  }

  lemma NextIsNew(cfg: Config, chain: seq<Checkpoints.Interval>)
    requires WitnessSafety.FromGenesis(cfg, chain) && chain != []
    ensures var n := |chain| - 1;
            && Checkpoints.Follows(chain[n].checkpoint, chain[n].events, Checkpoints.Tip(chain[..n]))
            && (n > 0 ==> chain[n].checkpoint != chain[n - 1].checkpoint)
  {
    var n := |chain| - 1;
    assert Checkpoints.AcceptedAt(chain, n) && Checkpoints.Tip(chain[..n]) == Checkpoints.Before(chain, n);
    if n > 0 && chain[n].checkpoint == chain[n - 1].checkpoint {
      WitnessSafety.NoForkOnChain(chain, n - 1, n);
      assert false;
    }
  }

  lemma ExecuteAppend(cfg: Config, steps: seq<Step>, step: Step)
    ensures Execute(cfg, steps + [step]) == Next(cfg, Execute(cfg, steps), step)
  {
    assert (steps + [step])[..|steps|] == steps;
  }

  /** For every accepted chain from the pinned genesis there is a run that signs each of its
      checkpoints, if witness and platform hold their keys when they are issued. */
  lemma {:induction false} ChainIsSigned(cfg: Config, chain: seq<Checkpoints.Interval>, id: string, key: Key)
    returns (steps: seq<Step>)
    requires Distinct(cfg.history.body.delegations) && WitnessSafety.FromGenesis(cfg, chain) && chain != []
    requires AllStaffed(cfg, chain, id, key)
    ensures StandsAt(chain, id, key, Execute(cfg, steps).state)
    ensures AllVoted(cfg, chain, Execute(cfg, steps).released)
    decreases |chain|, 1
  {
    var n := |chain| - 1;
    var before := RunBefore(cfg, chain, id, key);
    assert Staffed(cfg, id, key, chain[n].checkpoint.issuedAt);
    steps := RunOneMore(cfg, chain, id, key, before);
    VotesGrow(cfg, chain, Execute(cfg, before).released, Execute(cfg, steps).released);
  }

  lemma VotesGrow(cfg: Config, chain: seq<Checkpoints.Interval>, released: set<Envelope>, more: set<Envelope>)
    requires chain != [] && AllVoted(cfg, chain[..|chain| - 1], released)
    requires more == released + {Vote(cfg, chain[|chain| - 1].checkpoint, 0)}
    ensures AllVoted(cfg, chain, more)
  {
    forall i | 0 <= i < |chain|
      ensures Vote(cfg, chain[i].checkpoint, 0) in more
    {
      if i < |chain| - 1 {
        assert Vote(cfg, chain[..|chain| - 1][i].checkpoint, 0) in released;
      }
    }
  }

  lemma RunOneMore(cfg: Config, chain: seq<Checkpoints.Interval>, id: string, key: Key, before: seq<Step>)
    returns (steps: seq<Step>)
    requires Distinct(cfg.history.body.delegations) && WitnessSafety.FromGenesis(cfg, chain) && chain != []
    requires Staffed(cfg, id, key, chain[|chain| - 1].checkpoint.issuedAt)
    requires StandsAt(chain[..|chain| - 1], id, key, Execute(cfg, before).state)
    ensures StandsAt(chain, id, key, Execute(cfg, steps).state)
    ensures Execute(cfg, steps).released
            == Execute(cfg, before).released + {Vote(cfg, chain[|chain| - 1].checkpoint, 0)}
  {
    var last := chain[|chain| - 1];
    AnswersNext(cfg, chain, id, key, Execute(cfg, before).state);
    var step := Observing(Shown(last, id, key), last.checkpoint.issuedAt, SMOOTH);
    ExecuteAppend(cfg, before, step);
    steps := before + [step];
  }

  /** The run up to the last checkpoint: opening for the first one. */
  lemma {:induction false} RunBefore(cfg: Config, chain: seq<Checkpoints.Interval>, id: string, key: Key)
    returns (steps: seq<Step>)
    requires Distinct(cfg.history.body.delegations) && WitnessSafety.FromGenesis(cfg, chain) && chain != []
    requires AllStaffed(cfg, chain, id, key)
    ensures var shorter := chain[..|chain| - 1];
            StandsAt(shorter, id, key, Execute(cfg, steps).state)
            && AllVoted(cfg, shorter, Execute(cfg, steps).released)
    decreases |chain|, 0
  {
    var n := |chain| - 1;
    assert forall i :: 0 <= i <= n ==> Staffed(cfg, id, key, chain[i].checkpoint.issuedAt);
    if n == 0 {
      var at := chain[0].checkpoint.issuedAt;
      FreshOpens(cfg, id, key, at);
      steps := [] + [Opening(at, true)];
      ExecuteAppend(cfg, [], Opening(at, true));
    } else {
      Checkpoints.PrefixAccepted(chain, n);
      assert forall i :: 0 <= i < n ==> chain[..n][i] == chain[i];
      steps := ChainIsSigned(cfg, chain[..n], id, key);
    }
  }
}

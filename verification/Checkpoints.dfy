/** Event hash chains and checkpoints (internal/audit/checkpoint.go, and the
    producer's `audit` in internal/platform/server.go). */
module Checkpoints {
  import opened Wrappers
  import opened AuditData
  import opened Merkle

  // ---------------------------------------------------------------- events

  function Chars(s: string): (t: seq<Token>)
    ensures |t| == |s| && forall i :: 0 <= i < |s| ==> t[i] == Byte(s[i])
  {
    seq(|s|, i requires 0 <= i < |s| => Byte(s[i]))
  }

  predicate ValidKind(kind: string) {
    kind != "" && |kind| <= 128 && '\n' !in kind && '\r' !in kind
  }

  /** The hashed bytes of an event: three fields separated by newlines. */
  function EventPreimage(previous: Digest, kind: string, canonical: string): seq<Token> {
    [Hex(previous), Byte('\n')] + Chars(kind) + [Byte('\n')] + Chars(canonical)
  }

  function EventDigest(previous: Digest, kind: string, payload: RawJson): Option<Digest> {
    if !ValidDigest(previous, true) || !ValidKind(kind) || payload.canonical.None? then None
    else Some(Sha(EventPreimage(previous, kind, payload.canonical.value)))
  }

  lemma CharsInjective(s: string, t: string)
    requires Chars(s) == Chars(t)
    ensures s == t
  {
    assert |s| == |Chars(s)| == |Chars(t)| == |t|;
    forall i | 0 <= i < |s|
      ensures s[i] == t[i]
    {
      assert Chars(s)[i] == Chars(t)[i];
    }
  }

  /** The newline-separated encoding can be read back, because neither a digest's
      text nor an accepted kind contains a newline. */
  lemma EventPreimageInjective(p: Digest, k: string, c: string, p': Digest, k': string, c': string)
    requires '\n' !in k && '\n' !in k'
    requires EventPreimage(p, k, c) == EventPreimage(p', k', c')
    ensures p == p' && k == k' && c == c'
  {
    var x, y := EventPreimage(p, k, c), EventPreimage(p', k', c');
    assert x[0] == y[0];
    assert x[2 + |k|] == Byte('\n') && y[2 + |k'|] == Byte('\n');
    assert |k| == |k'|;
    assert x[2..2 + |k|] == Chars(k) && y[2..2 + |k'|] == Chars(k');
    assert x[3 + |k|..] == Chars(c) && y[3 + |k'|..] == Chars(c');
    CharsInjective(k, k');
    CharsInjective(c, c');
  }

  /** An event digest determines predecessor, kind and canonical payload. */
  lemma EventDigestInjective(p: Digest, k: string, r: RawJson, p': Digest, k': string, r': RawJson)
    requires EventDigest(p, k, r).Some? && EventDigest(p, k, r) == EventDigest(p', k', r')
    ensures p == p' && k == k' && r.canonical == r'.canonical
  {
    EventPreimageInjective(p, k, r.canonical.value, p', k', r'.canonical.value);
  }

  /** Equality of events up to the layout of their JSON payloads. */
  predicate SameEvent(a: Event, b: Event) {
    a.(payload := b.payload) == b && a.payload.canonical == b.payload.canonical
  }

  predicate SameEvents(a: seq<Event>, b: seq<Event>) {
    |a| == |b| && forall i :: 0 <= i < |a| ==> SameEvent(a[i], b[i])
  }

  function Digests(events: seq<Event>): (ds: seq<Digest>)
    ensures |ds| == |events| && forall i :: 0 <= i < |ds| ==> ds[i] == events[i].digest
  {
    seq(|events|, i requires 0 <= i < |events| => events[i].digest)
  }

  /** Event i of an interval carries number from + i, follows the event before it
      and has the digest of its own content. */
  predicate LinkedAt(events: seq<Event>, from: nat, previous: Digest, i: nat)
    requires i < |events|
  {
    var prior := if i == 0 then previous else events[i - 1].digest;
    && events[i].sequence == Number(from + i)
    && from + i <= MAX_INT64
    && events[i].previousDigest == prior
    && EventDigest(prior, events[i].kind, events[i].payload) == Some(events[i].digest)
  }

  predicate Linked(events: seq<Event>, from: nat, previous: Digest) {
    forall i :: 0 <= i < |events| ==> LinkedAt(events, from, previous, i)
  }

  /** Two linked intervals with the same start and the same digests hold the same events. */
  lemma LinkedEventsDetermined(a: seq<Event>, b: seq<Event>, from: nat, previous: Digest)
    requires Linked(a, from, previous) && Linked(b, from, previous)
    requires Digests(a) == Digests(b)
    ensures SameEvents(a, b)
  {
    assert |a| == |Digests(a)| == |Digests(b)| == |b|;
    forall i | 0 <= i < |a|
      ensures SameEvent(a[i], b[i])
    {
      assert LinkedAt(a, from, previous, i) && LinkedAt(b, from, previous, i);
      assert Digests(a)[i] == Digests(b)[i];
      EventDigestInjective(a[i].previousDigest, a[i].kind, a[i].payload,
                           b[i].previousDigest, b[i].kind, b[i].payload);
    }
  }

  // ----------------------------------------------------------- checkpoints

  /** Where the interval after `previous` starts. */
  datatype Start = Start(from: nat, checkpoint: Digest, event: Digest)

  /** The start of the next interval; absent when the call is refused. */
  function StartAfter(logId: string, previous: Option<Checkpoint>, at: Time): Option<Start> {
    if logId == "" || |logId| > 128 || at == 0 then None
    else match previous
      case None => Some(Start(1, Genesis, Genesis))
      case Some(p) =>
        if !p.toSequence.Number? || p.toSequence.n >= MAX_INT64 || p.logId != logId || at < p.issuedAt
        then None
        else Some(Start(p.toSequence.n + 1, CheckpointDigest(p), p.lastEventDigest))
  }

  /** The one checkpoint of a linked interval after `previous`, if there is one. */
  function BuildCheckpoint(logId: string, events: seq<Event>, previous: Option<Checkpoint>,
                           at: Time): Option<Checkpoint> {
    match StartAfter(logId, previous, at)
    case None => None
    case Some(s) =>
      if !Linked(events, s.from, s.event) || |events| > MAX_EVENTS then None
      else
        var last := if |events| == 0 then s.event else events[|events| - 1].digest;
        Some(Checkpoint(API_VERSION, "AuditCheckpoint", logId, Number(s.from), Number(s.from + |events| - 1),
                        s.checkpoint, s.event, last, TreeHash(Digests(events)), at))
  }

  /** The event loop of Build: walks the events once, keeping the running digest. */
  method WalkEvents(events: seq<Event>, from: nat, previous: Digest)
    returns (ok: bool, last: Digest, to: SequenceText, digests: seq<Digest>)
    requires from > 0
    ensures ok == Linked(events, from, previous)
    ensures ok ==> last == if |events| == 0 then previous else events[|events| - 1].digest
    ensures ok ==> to == Number(from + |events| - 1) && digests == Digests(events)
    ensures ok ==> forall i :: 0 <= i < |digests| ==> ValidDigest(digests[i], false)
  {
    last, to, digests := previous, Number(from - 1), [];
    for i := 0 to |events|
      invariant forall j :: 0 <= j < i ==> LinkedAt(events, from, previous, j)
      invariant last == if i == 0 then previous else events[i - 1].digest
      invariant to == Number(from + i - 1)
      invariant |digests| == i && forall j :: 0 <= j < i ==> digests[j] == events[j].digest && digests[j].Sha?
    {
      var e := events[i];
      if !e.sequence.Number? || e.sequence.n > MAX_INT64 || e.sequence.n != from + i {
        assert !LinkedAt(events, from, previous, i);
        return false, last, to, digests;
      }
      var d := EventDigest(last, e.kind, e.payload);
      if d.None? || e.previousDigest != last || d.value != e.digest {
        assert !LinkedAt(events, from, previous, i);
        return false, last, to, digests;
      }
      last := e.digest;
      to := e.sequence;
      digests := digests + [e.digest];
    }
    ok := true;
  }

  /** Build refuses or returns the one checkpoint of the interval. */
  method Build(logId: string, events: seq<Event>, previous: Option<Checkpoint>, at: Time)
    returns (r: Option<Checkpoint>)
    ensures r == BuildCheckpoint(logId, events, previous, at)
  {
    var start := StartAfter(logId, previous, at);
    if start.None? {
      return None;
    }
    var ok, last, to, digests := WalkEvents(events, start.value.from, start.value.event);
    if !ok {
      return None;
    }
    var root := MerkleRoot(digests);
    if root.None? {
      return None;
    }
    r := Some(Checkpoint(API_VERSION, "AuditCheckpoint", logId, Number(start.value.from), to,
                         start.value.checkpoint, start.value.event, last, root.value, at));
  }

  /** The content check of VerifyCheckpoint, after the signature has been checked
      and the payload decoded to `cp`. */
  predicate Follows(cp: Checkpoint, events: seq<Event>, previous: Option<Checkpoint>) {
    BuildCheckpoint(cp.logId, events, previous, cp.issuedAt) == Some(cp)
  }

  /** VerifyCheckpoint: a signed, decodable, not-future checkpoint whose content
      is exactly what the observed events give after the pinned predecessor. */
  function VerifyCheckpoint(e: Envelope, keys: map<string, Key>, events: seq<Event>,
                            previous: Option<Checkpoint>, now: Time): (r: Option<Checkpoint>)
    ensures r.Some? ==> Follows(r.value, events, previous) && e.payload.Text?
                        && e.payload.document == CheckpointDoc(r.value)
                        && r.value.issuedAt <= now + CLOCK_SKEW && Verifies(e, keys)
  {
    if !Verifies(e, keys) || !e.payload.document.CheckpointDoc? then None
    else
      var cp := e.payload.document.checkpoint;
      if cp.apiVersion != API_VERSION || cp.kind != "AuditCheckpoint" || cp.issuedAt > now + CLOCK_SKEW then None
      else if Follows(cp, events, previous) then Some(cp) else None
  }

  /** Event i of the interval after number `from - 1` and digest `previous`: numbered on,
      linked to the event before it, of an acceptable kind, and hashed over the
      predecessor's digest, its kind and its canonical payload, one to a line. */
  predicate EventFits(events: seq<Event>, from: nat, previous: Digest, i: nat)
    requires i < |events|
  {
    var e, prior := events[i], if i == 0 then previous else events[i - 1].digest;
    && e.sequence == Number(from + i) && from + i <= 0x7FFF_FFFF_FFFF_FFFF && e.previousDigest == prior
    && (prior.Sha? || prior.Genesis?) && 1 <= |e.kind| <= 128 && '\n' !in e.kind && '\r' !in e.kind
    && e.payload.canonical.Some?
    && e.digest == Sha([Hex(prior), Byte('\n')] + Chars(e.kind) + [Byte('\n')] + Chars(e.payload.canonical.value))
  }

  /** A checkpoint follows its predecessor exactly when every field of it is what the
      predecessor and the events make it, and every event fits. */
  lemma FollowsExact(cp: Checkpoint, events: seq<Event>, previous: Option<Checkpoint>)
    ensures Follows(cp, events, previous) <==>
            && cp.apiVersion == "science-ladder/v1" && cp.kind == "AuditCheckpoint"
            && 1 <= |cp.logId| <= 128 && cp.issuedAt != 0 && |events| <= 10_000
            && (previous.None? ==>
                  cp.fromSequence == Number(1) && cp.previousCheckpointDigest == Genesis
                  && cp.previousEventDigest == Genesis)
            && (previous.Some? ==>
                  var p := previous.value;
                  && p.toSequence.Number? && p.toSequence.n < 0x7FFF_FFFF_FFFF_FFFF
                  && cp.logId == p.logId && p.issuedAt <= cp.issuedAt
                  && cp.fromSequence == Number(p.toSequence.n + 1)
                  && cp.previousCheckpointDigest == CheckpointDigest(p) && cp.previousEventDigest == p.lastEventDigest)
            && cp.fromSequence.Number? && cp.fromSequence.n >= 1
            && cp.toSequence == Number(cp.fromSequence.n + |events| - 1)
            && cp.lastEventDigest == (if events == [] then cp.previousEventDigest else events[|events| - 1].digest)
            && cp.merkleRoot == TreeHash(Digests(events))
            && forall i :: 0 <= i < |events| ==> EventFits(events, cp.fromSequence.n, cp.previousEventDigest, i)
  {
    var s := StartAfter(cp.logId, previous, cp.issuedAt);
    if s.Some? {
      LinkedExact(events, s.value.from, s.value.event);
    }
  }

  lemma LinkedExact(events: seq<Event>, from: nat, previous: Digest)
    ensures Linked(events, from, previous) <==> forall i :: 0 <= i < |events| ==> EventFits(events, from, previous, i)
  {
    assert forall i :: 0 <= i < |events| ==>
             (LinkedAt(events, from, previous, i) <==> EventFits(events, from, previous, i));
  }

  // ---------------------------------------------------------------- chains

  /** One accepted step of a chain: a checkpoint with its events. */
  datatype Interval = Interval(checkpoint: Checkpoint, events: seq<Event>)

  function Before(chain: seq<Interval>, i: nat): Option<Checkpoint>
    requires i < |chain|
  {
    if i == 0 then None else Some(chain[i - 1].checkpoint)
  }

  predicate AcceptedAt(chain: seq<Interval>, i: nat)
    requires i < |chain|
  {
    Follows(chain[i].checkpoint, chain[i].events, Before(chain, i))
  }

  predicate AcceptedChain(chain: seq<Interval>) {
    forall i :: 0 <= i < |chain| ==> AcceptedAt(chain, i)
  }

  function Tip(chain: seq<Interval>): Option<Checkpoint> {
    if chain == [] then None else Some(chain[|chain| - 1].checkpoint)
  }

  lemma PrefixAccepted(chain: seq<Interval>, n: nat)
    requires AcceptedChain(chain) && n <= |chain|
    ensures AcceptedChain(chain[..n])
  {
    forall i | 0 <= i < n
      ensures AcceptedAt(chain[..n], i)
    {
      assert AcceptedAt(chain, i);
      assert Before(chain[..n], i) == Before(chain, i);
    }
  }

  lemma ChainExtends(chain: seq<Interval>, next: Interval)
    requires AcceptedChain(chain)
    requires Follows(next.checkpoint, next.events, Tip(chain))
    ensures AcceptedChain(chain + [next])
  {
    var longer := chain + [next];
    forall i | 0 <= i < |longer|
      ensures AcceptedAt(longer, i)
    {
      if i < |chain| {
        assert AcceptedAt(chain, i);
        assert Before(longer, i) == Before(chain, i);
      } else {
        assert Before(longer, i) == Tip(chain);
      }
    }
  }

  function AllEvents(chain: seq<Interval>): seq<Event> {
    if chain == [] then [] else AllEvents(chain[..|chain| - 1]) + chain[|chain| - 1].events
  }

  function LastNumber(chain: seq<Interval>): nat {
    if chain == [] || !chain[|chain| - 1].checkpoint.toSequence.Number? then 0
    else chain[|chain| - 1].checkpoint.toSequence.n
  }

  /** The events of an accepted chain are numbered 1, 2, ... without a gap. */
  lemma {:induction false} EventsGapFree(chain: seq<Interval>)
    requires AcceptedChain(chain)
    ensures LastNumber(chain) == |AllEvents(chain)|
    ensures forall i :: 0 <= i < |AllEvents(chain)| ==> AllEvents(chain)[i].sequence == Number(i + 1)
  {
    if chain != [] {
      var n := |chain| - 1;
      var shorter, last := chain[..n], chain[n];
      PrefixAccepted(chain, n);
      EventsGapFree(shorter);
      assert AcceptedAt(chain, n);
      var s := StartAfter(last.checkpoint.logId, Before(chain, n), last.checkpoint.issuedAt).value;
      assert s.from == |AllEvents(shorter)| + 1;
      forall i | |AllEvents(shorter)| <= i < |AllEvents(chain)|
        ensures AllEvents(chain)[i].sequence == Number(i + 1)
      {
        assert LinkedAt(last.events, s.from, s.event, i - |AllEvents(shorter)|);
      }
    }
  }

  /** One step back: the same checkpoint accepted twice has the same predecessor
      and, up to payload layout, the same events. */
  lemma StepDetermined(cp: Checkpoint, a: seq<Event>, p: Option<Checkpoint>, b: seq<Event>, q: Option<Checkpoint>)
    requires Follows(cp, a, p) && Follows(cp, b, q)
    ensures p == q && SameEvents(a, b)
  {
    var s := StartAfter(cp.logId, p, cp.issuedAt).value;
    var t := StartAfter(cp.logId, q, cp.issuedAt).value;
    assert s.checkpoint == t.checkpoint == cp.previousCheckpointDigest;
    if p.Some? && q.Some? {
      assert s.checkpoint.body[0] == t.checkpoint.body[0];
    }
    RootDeterminesLeaves(Digests(a), Digests(b));
    LinkedEventsDetermined(a, b, s.from, s.event);
  }

  /** Two accepted chains that end in the same checkpoint digest have the same
      checkpoints and, up to payload layout, the same event list. */
  lemma {:induction false} ChainDetermined(a: seq<Interval>, b: seq<Interval>)
    requires AcceptedChain(a) && AcceptedChain(b) && a != [] && b != []
    requires CheckpointDigest(a[|a| - 1].checkpoint) == CheckpointDigest(b[|b| - 1].checkpoint)
    ensures |a| == |b|
    ensures forall i :: 0 <= i < |a| ==> a[i].checkpoint == b[i].checkpoint && SameEvents(a[i].events, b[i].events)
    ensures SameEvents(AllEvents(a), AllEvents(b))
    decreases |a|
  {
    var m, n := |a| - 1, |b| - 1;
    assert AcceptedAt(a, m) && AcceptedAt(b, n);
    assert CheckpointDigest(a[m].checkpoint).body[0] == CheckpointDigest(b[n].checkpoint).body[0];
    StepDetermined(a[m].checkpoint, a[m].events, Before(a, m), b[n].events, Before(b, n));
    if m > 0 {
      PrefixAccepted(a, m);
      PrefixAccepted(b, n);
      ChainDetermined(a[..m], b[..n]);
      assert forall i :: 0 <= i < m ==> a[..m][i] == a[i] && b[..n][i] == b[i];
    } else {
      assert a[..m] == [] && b[..n] == [];
    }
  }

  // -------------------------------------------------------------- producer

  /** `audit`: append one event after the last one. The kind is not checked here. */
  function Append(log: seq<Event>, kind: string, canonical: string): seq<Event> {
    var previous := if log == [] then Genesis else log[|log| - 1].digest;
    log + [Event(Number(|log| + 1), kind, RawJson(Some(canonical), 0), previous,
                 Sha(EventPreimage(previous, kind, canonical)))]
  }

  function AppendAll(entries: seq<(string, string)>): seq<Event> {
    if entries == [] then []
    else Append(AppendAll(entries[..|entries| - 1]), entries[|entries| - 1].0, entries[|entries| - 1].1)
  }

  /** What the producer appends is what the verifier accepts, exactly when every
      kind is one the verifier accepts. */
  lemma {:induction false} ProducedLogIsLinked(entries: seq<(string, string)>)
    requires |entries| <= MAX_INT64
    ensures |AppendAll(entries)| == |entries|
    ensures forall i :: 0 <= i < |entries| ==>
              AppendAll(entries)[i].kind == entries[i].0 && AppendAll(entries)[i].digest.Sha?
    ensures Linked(AppendAll(entries), 1, Genesis) <==> forall i :: 0 <= i < |entries| ==> ValidKind(entries[i].0)
  {
    if entries != [] {
      var n := |entries| - 1;
      var shorter := AppendAll(entries[..n]);
      ProducedLogIsLinked(entries[..n]);
      var log := AppendAll(entries);
      forall i | 0 <= i <= n
        ensures LinkedAt(log, 1, Genesis, i) <==>
                if i < n then LinkedAt(shorter, 1, Genesis, i) else ValidKind(entries[n].0)
      {
        assert i < n ==> log[i] == shorter[i];
        assert 0 < i ==> log[i - 1] == shorter[i - 1];
      }
      assert forall i :: 0 <= i < n ==> entries[..n][i] == entries[i];
      assert LinkedAt(log, 1, Genesis, n) <==> ValidKind(entries[n].0);
      assert Linked(log, 1, Genesis) <==> Linked(shorter, 1, Genesis) && LinkedAt(log, 1, Genesis, n);
    }
  }

  /** checkpointTick reads the events after the last checkpoint and builds the next
      one; on a linked log that always succeeds and the verifier accepts it. */
  lemma ProducedCheckpointFollows(log: seq<Event>, chain: seq<Interval>, upTo: nat, logId: string, at: Time)
    requires Linked(log, 1, Genesis) && AcceptedChain(chain) && AllEvents(chain) <= log
    requires |AllEvents(chain)| <= upTo <= |log| && upTo - |AllEvents(chain)| <= MAX_EVENTS
    requires StartAfter(logId, Tip(chain), at).Some?
    ensures var events := log[|AllEvents(chain)|..upTo];
            var cp := BuildCheckpoint(logId, events, Tip(chain), at);
            cp.Some? && AcceptedChain(chain + [Interval(cp.value, events)])
  {
    var n := |AllEvents(chain)|;
    var events := log[n..upTo];
    var s := StartAfter(logId, Tip(chain), at).value;
    EventsGapFree(chain);
    if chain != [] {
      LastDigest(chain);
    }
    assert s.from == n + 1 && s.event == if n == 0 then Genesis else log[n - 1].digest;
    forall i | 0 <= i < |events|
      ensures LinkedAt(events, s.from, s.event, i)
    {
      assert LinkedAt(log, 1, Genesis, n + i);
    }
    ChainExtends(chain, Interval(BuildCheckpoint(logId, events, Tip(chain), at).value, events));
  }

  /** The last event digest recorded by a chain is the digest of its last event. */
  lemma {:induction false} LastDigest(chain: seq<Interval>)
    requires AcceptedChain(chain) && chain != []
    ensures chain[|chain| - 1].checkpoint.lastEventDigest ==
            if AllEvents(chain) == [] then Genesis else AllEvents(chain)[|AllEvents(chain)| - 1].digest
  {
    var n := |chain| - 1;
    assert AcceptedAt(chain, n);
    if n > 0 {
      PrefixAccepted(chain, n);
      LastDigest(chain[..n]);
    } else {
      assert AllEvents(chain[..n]) == [];
    }
  }
}

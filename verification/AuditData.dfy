/** The data of the public audit log (internal/audit): digests, events,
    checkpoints, key histories and signed envelopes.

    SHA-256 is modelled by a constructor. A digest is a term that records the
    bytes it was computed from, so two digests are equal exactly when the hashed
    bytes are. The hashed bytes are a sequence of tokens; every token stands for
    a byte string of known length or with a recognisable first byte, and each
    preimage below starts with a byte that fixes how the rest is read ('s' or 'g'
    for an event, '{' for a document, 0x00 and 0x01 for Merkle leaves and nodes). */
module AuditData {
  import opened Wrappers

  const MAX_EVENTS: nat := 10000
  const MAX_INT64: nat := 0x7FFF_FFFF_FFFF_FFFF
  const CLOCK_SKEW: int := 300_000_000_000
  const API_VERSION := "science-ladder/v1"
  const PAYLOAD_TYPE := "application/vnd.science-ladder.v1+json"
  const WITNESS_ROLE := "audit-witness"
  const CHECKPOINT_ROLE := "audit-checkpoint"

  /** Public keys are compared by fingerprint only. */
  type Key = nat
  /** Instants, in nanoseconds. Zero is Go's zero time. */
  type Time = int

  datatype Digest =
    | Genesis
    | Sha(body: seq<Token>)
    | Malformed(text: string)

  datatype Token =
    | Byte(b: char)
    | Hex(text: Digest)       // a digest as text: "genesis" or "sha256:" and 64 hex digits
    | Raw(bytes: Digest)      // a digest as its 32 bytes
    | Json(document: Document, spelling: nat)

  /** Spelling 0 is the text the encoder itself produces for a document. Other
      spellings are different texts that decode to the same document (field names
      in another case, another spelling of an instant). */
  datatype Document =
    | CheckpointDoc(checkpoint: Checkpoint)
    | HistoryDoc(history: HistoryBody)
    | OtherDoc(id: nat)

  /** A sequence number as text: canonical decimal, or something else. */
  datatype SequenceText = Number(n: nat) | NotCanonical(text: string)

  /** Raw JSON of an event: its canonical bytes, absent when it is not acceptable
      JSON, and the insignificant layout that canonicalization drops. */
  datatype RawJson = RawJson(canonical: Option<string>, layout: nat)

  datatype Event = Event(sequence: SequenceText, kind: string, payload: RawJson,
                         previousDigest: Digest, digest: Digest)

  datatype Checkpoint = Checkpoint(apiVersion: string, kind: string, logId: string,
                                   fromSequence: SequenceText, toSequence: SequenceText,
                                   previousCheckpointDigest: Digest,
                                   previousEventDigest: Digest, lastEventDigest: Digest,
                                   merkleRoot: Digest, issuedAt: Time)

  datatype Delegation = Delegation(keyId: string, publicKey: Option<Key>, roles: seq<string>,
                                   notBefore: Time, notAfter: Time, revokedAt: Option<Time>,
                                   hostId: string, custody: string)

  datatype WitnessIdentity = WitnessIdentity(keyId: string, operator: string)

  /** The signed JSON of a key history. */
  datatype HistoryBody = HistoryBody(apiVersion: string, kind: string, rootFingerprint: Key,
                                     previousDigest: Digest, genesisCheckpointDigest: Digest,
                                     issuedAt: Time, delegations: seq<Delegation>,
                                     witnesses: seq<WitnessIdentity>, witnessQuorum: int,
                                     outageGraceSeconds: int)

  /** An envelope payload: canonical JSON text, or bytes that signature checking
      refuses (not strict base64, not canonical, too large). */
  datatype Payload = Text(document: Document, spelling: nat) | Unusable(raw: string)

  /** A signature value: made by a key over a payload type and payload, with the
      randomness of the signing call, or bytes that verify under no key. */
  datatype SignatureValue =
    | Made(key: Key, payloadType: string, payload: Payload, nonce: nat)
    | Junk(id: nat)

  datatype Signature = Signature(keyId: string, sig: SignatureValue)
  datatype Envelope = Envelope(payloadType: string, payload: Payload, signatures: seq<Signature>)
  datatype Bundle = Bundle(checkpoint: Envelope, witnesses: seq<Envelope>, events: seq<Event>)

  predicate ValidDigest(d: Digest, genesis: bool) {
    d.Sha? || (genesis && d.Genesis?)
  }

  function CheckpointDigest(cp: Checkpoint): Digest {
    Sha([Json(CheckpointDoc(cp), 0)])
  }

  function HistoryDigest(h: HistoryBody): Digest {
    Sha([Json(HistoryDoc(h), 0)])
  }

  /** The hash of a payload's own bytes. */
  function PayloadHash(p: Payload): Digest
    requires p.Text?
  {
    Sha([Json(p.document, p.spelling)])
  }

  predicate Signed(sig: SignatureValue, key: Key, payloadType: string, payload: Payload) {
    sig.Made? && sig.key == key && sig.payloadType == payloadType && sig.payload == payload
  }

  predicate DistinctKeyIds(signatures: seq<Signature>) {
    forall i, j :: 0 <= i < j < |signatures| ==> signatures[i].keyId != signatures[j].keyId
  }

  /** protocol.Verify: one to eight signatures with distinct key ids over canonical
      JSON, at least one of them valid under a trusted key. */
  predicate Verifies(e: Envelope, keys: map<string, Key>) {
    && e.payloadType == PAYLOAD_TYPE
    && 1 <= |e.signatures| <= 8
    && e.payload.Text?
    && DistinctKeyIds(e.signatures)
    && exists i :: 0 <= i < |e.signatures| && e.signatures[i].keyId in keys
                   && Signed(e.signatures[i].sig, keys[e.signatures[i].keyId], e.payloadType, e.payload)
  }

  /** protocol.Sign: one signature over the encoder's own text of a document. */
  function Sign(keyId: string, key: Key, document: Document, nonce: nat): (e: Envelope)
    ensures forall keys: map<string, Key> :: keyId in keys ==> (Verifies(e, keys) <==> keys[keyId] == key)
  {
    var payload := Text(document, 0);
    var e := Envelope(PAYLOAD_TYPE, payload, [Signature(keyId, Made(key, PAYLOAD_TYPE, payload, nonce))]);
    assert e.signatures[0].keyId == keyId;
    e
  }
}

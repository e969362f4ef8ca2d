/** Witness quorums (internal/audit/checkpoint.go, VerifyQuorum). */
module Quorum {
  import opened Wrappers
  import opened AuditData
  import opened KeyHistory

  /** Key id k holds a valid vote for the platform's exact payload. */
  predicate Votes(platform: Envelope, witnesses: seq<Envelope>, keys: map<string, Key>, k: string) {
    exists w, i :: 0 <= w < |witnesses| && 0 <= i < |witnesses[w].signatures|
                   && VoteAt(platform, witnesses, keys, k, w, i)
  }

  predicate VoteAt(platform: Envelope, witnesses: seq<Envelope>, keys: map<string, Key>, k: string, w: nat, i: nat)
    requires w < |witnesses| && i < |witnesses[w].signatures|
  {
    var e := witnesses[w];
    && e.payloadType == platform.payloadType && e.payload == platform.payload
    && e.signatures[i].keyId == k && k in keys
    && Verifies(Envelope(e.payloadType, e.payload, [e.signatures[i]]), map[k := keys[k]])
  }

  /** Two configured ids with the same operator, or the same active key. */
  predicate Clash(keys: map<string, Key>, operators: map<string, string>, k: string, l: string)
    requires k in operators && l in operators
  {
    operators[k] == operators[l] || (k in keys && l in keys && keys[k] == keys[l])
  }

  predicate IndependentAmong(keys: map<string, Key>, operators: map<string, string>, ids: set<string>)
    requires ids <= operators.Keys
  {
    && (forall k :: k in ids ==> k != "" && operators[k] != "")
    && (forall k, l :: k in ids && l in ids && k != l ==> !Clash(keys, operators, k, l))
  }

  /** Named, different operators, and no key behind two active ids. */
  predicate IndependentMembership(keys: map<string, Key>, operators: map<string, string>) {
    IndependentAmong(keys, operators, operators.Keys)
  }

  lemma IndependentGrows(keys: map<string, Key>, operators: map<string, string>, ids: set<string>, id: string)
    requires ids <= operators.Keys && id in operators && id !in ids
    ensures IndependentAmong(keys, operators, ids + {id}) <==>
            IndependentAmong(keys, operators, ids) && id != "" && operators[id] != ""
            && forall k :: k in ids ==> !Clash(keys, operators, k, id)
  {
    if IndependentAmong(keys, operators, ids + {id}) {
      assert forall k :: k in ids ==> k in ids + {id};
      assert id in ids + {id};
    }
  }

  lemma IndependentShrinks(keys: map<string, Key>, operators: map<string, string>, ids: set<string>)
    requires ids <= operators.Keys
    ensures IndependentMembership(keys, operators) ==> IndependentAmong(keys, operators, ids)
  {
  }

  /** The operators whose vote counts. */
  function Voters(platform: Envelope, witnesses: seq<Envelope>, keys: map<string, Key>,
                  operators: map<string, string>): set<string> {
    set k | k in operators && operators[k] != "" && Votes(platform, witnesses, keys, k) :: operators[k]
  }

  predicate QuorumReached(platform: Envelope, witnesses: seq<Envelope>, keys: map<string, Key>,
                          operators: map<string, string>, quorum: int) {
    && quorum == QUORUM && |operators| == 3
    && IndependentMembership(keys, operators)
    && |Voters(platform, witnesses, keys, operators)| >= QUORUM
  }

  /** The first loop of VerifyQuorum, over the configured identities in any order. */
  method CheckMembership(keys: map<string, Key>, operators: map<string, string>) returns (ok: bool)
    ensures ok == IndependentMembership(keys, operators)
  {
    var rest := operators.Keys;
    var seen: set<string> := {};
    while rest != {}
      invariant seen + rest == operators.Keys && seen !! rest
      invariant IndependentAmong(keys, operators, seen)
      decreases |rest|
    {
      var id :| id in rest;
      IndependentGrows(keys, operators, seen, id);
      if id == "" || operators[id] == "" || exists k :: k in seen && Clash(keys, operators, k, id) {
        IndependentShrinks(keys, operators, seen + {id});
        return false;
      }
      seen := seen + {id};
      rest := rest - {id};
    }
    assert seen == operators.Keys;
    ok := true;
  }

  predicate Counted(platform: Envelope, witnesses: seq<Envelope>, keys: map<string, Key>,
                    operators: map<string, string>, k: string, w: nat, i: nat)
    requires w < |witnesses| && i < |witnesses[w].signatures|
  {
    k in operators && operators[k] != "" && VoteAt(platform, witnesses, keys, k, w, i)
  }

  /** The vote loops: seen collects the operators with a counted vote. */
  method CountVotes(platform: Envelope, witnesses: seq<Envelope>, keys: map<string, Key>,
                    operators: map<string, string>) returns (seen: set<string>)
    ensures seen == Voters(platform, witnesses, keys, operators)
  {
    var ids: set<string> := {};
    for w := 0 to |witnesses|
      invariant ids <= operators.Keys
      invariant forall k :: k in ids ==> operators[k] != "" && Votes(platform, witnesses, keys, k)
      invariant forall k, v, i ::
                  && 0 <= v < w && 0 <= i < |witnesses[v].signatures|
                  && Counted(platform, witnesses, keys, operators, k, v, i) ==>
                    k in ids
    {
      var e := witnesses[w];
      for n := 0 to |e.signatures|
        invariant ids <= operators.Keys
        invariant forall k :: k in ids ==> operators[k] != "" && Votes(platform, witnesses, keys, k)
        invariant forall k, v, i ::
                    && 0 <= v < w && 0 <= i < |witnesses[v].signatures|
                    && Counted(platform, witnesses, keys, operators, k, v, i) ==>
                      k in ids
        invariant forall k, i :: 0 <= i < n && Counted(platform, witnesses, keys, operators, k, w, i) ==> k in ids
      {
        var k := e.signatures[n].keyId;
        if Counted(platform, witnesses, keys, operators, k, w, n) {
          ids := ids + {k};
        }
      }
    }
    seen := set k | k in ids :: operators[k];
    forall k | k in operators && operators[k] != "" && Votes(platform, witnesses, keys, k)
      ensures k in ids
    {
      var w, i :| 0 <= w < |witnesses| && 0 <= i < |witnesses[w].signatures|
        && VoteAt(platform, witnesses, keys, k, w, i);
      assert Counted(platform, witnesses, keys, operators, k, w, i);
    }
  }

  method VerifyQuorum(platform: Envelope, witnesses: seq<Envelope>, keys: map<string, Key>,
                      operators: map<string, string>, quorum: int) returns (ok: bool)
    ensures ok == QuorumReached(platform, witnesses, keys, operators, quorum)
  {
    if quorum != QUORUM || |operators| != 3 {
      return false;
    }
    ok := CheckMembership(keys, operators);
    if ok {
      var seen := CountVotes(platform, witnesses, keys, operators);
      ok := |seen| >= quorum;
    }
  }

  lemma {:induction false} ImageSize(operators: map<string, string>, ids: set<string>)
    requires ids <= operators.Keys
    ensures |set k | k in ids :: operators[k]| <= |ids|
  {
    if ids != {} {
      var x := Pick(ids);
      ImageSize(operators, ids - {x});
      assert (set k | k in ids :: operators[k]) == (set k | k in ids - {x} :: operators[k]) + {operators[x]};
    }
  }

  /** Two quorums under one membership share a member: some key id voted for both
      payloads, whatever the payloads and whatever keys were in force. */
  lemma QuorumsIntersect(p: Envelope, ws: seq<Envelope>, keys: map<string, Key>,
                         p': Envelope, ws': seq<Envelope>, keys': map<string, Key>,
                         operators: map<string, string>) returns (k: string)
    requires QuorumReached(p, ws, keys, operators, QUORUM)
    requires QuorumReached(p', ws', keys', operators, QUORUM)
    ensures k in operators && Votes(p, ws, keys, k) && Votes(p', ws', keys', k)
  {
    var all := set k | k in operators.Keys :: operators[k];
    ImageSize(operators, operators.Keys);
    var operator := Pigeonhole(Voters(p, ws, keys, operators), Voters(p', ws', keys', operators), all);
    k :| k in operators && operators[k] == operator && Votes(p, ws, keys, k);
    var l :| l in operators && operators[l] == operator && Votes(p', ws', keys', l);
    assert k != l ==> !Clash(keys, operators, k, l);
  }

  /** A vote is a signature, made with the key in force, over the platform's payload. */
  lemma VoteIsSignature(p: Envelope, ws: seq<Envelope>, keys: map<string, Key>, k: string) returns (sig: SignatureValue)
    requires Votes(p, ws, keys, k)
    ensures k in keys && Signed(sig, keys[k], p.payloadType, p.payload)
    ensures p.payloadType == PAYLOAD_TYPE && p.payload.Text?
    ensures exists w, i :: 0 <= w < |ws| && 0 <= i < |ws[w].signatures| && ws[w].signatures[i] == Signature(k, sig)
  {
    var w, i :| 0 <= w < |ws| && 0 <= i < |ws[w].signatures| && VoteAt(p, ws, keys, k, w, i);
    sig := ws[w].signatures[i].sig;
    assert ws[w].signatures[i] == Signature(k, sig);
  }

  // ------------------------------------------------------ when there is a quorum

  /** Some envelope over the platform's payload carries a signature by this key under this id. */
  ghost predicate SignedBy(p: Envelope, ws: seq<Envelope>, k: string, key: Key) {
    exists w, i :: 0 <= w < |ws| && 0 <= i < |ws[w].signatures| && SignatureAt(p, ws[w], k, key, i)
  }

  predicate SignatureAt(p: Envelope, e: Envelope, k: string, key: Key, i: nat)
    requires i < |e.signatures|
  {
    && e.payloadType == p.payloadType && e.payload == p.payload && e.signatures[i].keyId == k
    && Signed(e.signatures[i].sig, key, p.payloadType, p.payload)
  }

  /** A vote is exactly a signature, made with the key in force, over the platform's payload. */
  lemma VotesExact(p: Envelope, ws: seq<Envelope>, keys: map<string, Key>, k: string)
    ensures Votes(p, ws, keys, k) <==>
            k in keys && p.payload.Text? && p.payloadType == "application/vnd.science-ladder.v1+json"
            && SignedBy(p, ws, k, keys[k])
  {
    if Votes(p, ws, keys, k) {
      var w, i :| 0 <= w < |ws| && 0 <= i < |ws[w].signatures| && VoteAt(p, ws, keys, k, w, i);
      assert SignatureAt(p, ws[w], k, keys[k], i);
    }
    if k in keys && p.payload.Text? && p.payloadType == PAYLOAD_TYPE && SignedBy(p, ws, k, keys[k]) {
      var w, i :| 0 <= w < |ws| && 0 <= i < |ws[w].signatures| && SignatureAt(p, ws[w], k, keys[k], i);
      var single := Envelope(ws[w].payloadType, ws[w].payload, [ws[w].signatures[i]]);
      assert single.signatures[0].keyId == k;
      assert VoteAt(p, ws, keys, k, w, i);
    }
  }

  /** Two different members have signed the payload with their keys in force. */
  ghost predicate TwoSigned(p: Envelope, ws: seq<Envelope>, keys: map<string, Key>, operators: map<string, string>) {
    exists k, l :: k in operators && l in operators && k != l && k in keys && l in keys
                   && SignedBy(p, ws, k, keys[k]) && SignedBy(p, ws, l, keys[l])
  }

  /** Three members with names of their own, and no key in force behind two of them. */
  ghost predicate ThreeIndependent(keys: map<string, Key>, operators: map<string, string>) {
    && |operators| == 3 && (forall k :: k in operators ==> k != "" && operators[k] != "")
    && (forall k, l :: k in operators && l in operators && k != l ==> operators[k] != operators[l])
    && (forall k, l :: k in operators && l in operators && k != l && k in keys && l in keys ==> keys[k] != keys[l])
  }

  lemma IndependentExact(keys: map<string, Key>, operators: map<string, string>)
    ensures ThreeIndependent(keys, operators) <==> |operators| == 3 && IndependentMembership(keys, operators)
  {
    if IndependentMembership(keys, operators) {
      forall k, l | k in operators && l in operators && k != l
        ensures operators[k] != operators[l] && (k in keys && l in keys ==> keys[k] != keys[l])
      {
        assert !Clash(keys, operators, k, l);
      }
    }
  }

  /** A quorum is reached exactly when the quorum asked for is two, the membership is
      three independent operators, and at least two of them have signed the platform's
      payload with their keys in force. */
  lemma QuorumExact(p: Envelope, ws: seq<Envelope>, keys: map<string, Key>, operators: map<string, string>, quorum: int)
    ensures QuorumReached(p, ws, keys, operators, quorum) <==>
            quorum == 2 && ThreeIndependent(keys, operators)
            && p.payload.Text? && p.payloadType == "application/vnd.science-ladder.v1+json"
            && TwoSigned(p, ws, keys, operators)
  {
    IndependentExact(keys, operators);
    if QuorumReached(p, ws, keys, operators, quorum) {
      var k, l := TwoVoters(p, ws, keys, operators);
      VotesExact(p, ws, keys, k);
      VotesExact(p, ws, keys, l);
    }
    if ThreeIndependent(keys, operators) && p.payload.Text? && p.payloadType == PAYLOAD_TYPE
       && TwoSigned(p, ws, keys, operators) {
      TwoSuffice(p, ws, keys, operators);
    }
  }

  lemma TwoSuffice(p: Envelope, ws: seq<Envelope>, keys: map<string, Key>, operators: map<string, string>)
    requires ThreeIndependent(keys, operators) && p.payload.Text? && p.payloadType == PAYLOAD_TYPE
    requires TwoSigned(p, ws, keys, operators)
    ensures |Voters(p, ws, keys, operators)| >= 2
  {
    var k, l :| k in operators && l in operators && k != l && k in keys && l in keys
                && SignedBy(p, ws, k, keys[k]) && SignedBy(p, ws, l, keys[l]);
    VotesExact(p, ws, keys, k);
    VotesExact(p, ws, keys, l);
    SubsetSize({operators[k], operators[l]}, Voters(p, ws, keys, operators));
  }

  lemma TwoVoters(p: Envelope, ws: seq<Envelope>, keys: map<string, Key>, operators: map<string, string>)
    returns (k: string, l: string)
    requires |Voters(p, ws, keys, operators)| >= 2
    ensures k in operators && l in operators && k != l && Votes(p, ws, keys, k) && Votes(p, ws, keys, l)
  {
    var all := Voters(p, ws, keys, operators);
    var a := Pick(all);
    assert |all - {a}| >= 1;
    var b := Pick(all - {a});
    k :| k in operators && operators[k] == a && Votes(p, ws, keys, k);
    l :| l in operators && operators[l] == b && Votes(p, ws, keys, l);
  }

  /** More envelopes never lose a quorum, in whatever order they are listed. */
  lemma QuorumMonotone(p: Envelope, ws: seq<Envelope>, more: seq<Envelope>, keys: map<string, Key>,
                       operators: map<string, string>, quorum: int)
    requires QuorumReached(p, ws, keys, operators, quorum) && forall e :: e in ws ==> e in more
    ensures QuorumReached(p, more, keys, operators, quorum)
  {
    QuorumExact(p, ws, keys, operators, quorum);
    QuorumExact(p, more, keys, operators, quorum);
    var k, l :| k in operators && l in operators && k != l && k in keys && l in keys
                && SignedBy(p, ws, k, keys[k]) && SignedBy(p, ws, l, keys[l]);
    SignedStays(p, ws, more, k, keys[k]);
    SignedStays(p, ws, more, l, keys[l]);
  }

  lemma SignedStays(p: Envelope, ws: seq<Envelope>, more: seq<Envelope>, k: string, key: Key)
    requires SignedBy(p, ws, k, key) && forall e :: e in ws ==> e in more
    ensures SignedBy(p, more, k, key)
  {
    var w, i :| 0 <= w < |ws| && 0 <= i < |ws[w].signatures| && SignatureAt(p, ws[w], k, key, i);
    assert ws[w] in ws;
    var v :| 0 <= v < |more| && more[v] == ws[w];
    assert SignatureAt(p, more[v], k, key, i);
  }
}

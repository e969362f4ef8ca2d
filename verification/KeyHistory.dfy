/** Root-signed key histories (internal/audit/history.go): acceptance of one
    epoch after another, the keys active at an instant, and the witness
    membership in force at an instant. */
module KeyHistory {
  import opened Wrappers
  import opened AuditData

  const QUORUM: int := 2
  const OUTAGE_GRACE_SECONDS: int := 3600
  const SUPPORTED_ROLES: set<string> := {"control-plane-receipt", "audit-checkpoint", "validation-run", "audit-witness"}

  /** Earlier memberships, newest first; rebuilt while a chain is verified. */
  datatype Lineage =
    | NoLineage
    | Epoch(issuedAt: Time, witnesses: seq<WitnessIdentity>, genesis: bool, previous: Lineage)

  datatype History = History(body: HistoryBody, lineage: Lineage)

  // ------------------------------------------------------------ acceptance

  predicate BootstrapPolicy(h: HistoryBody, root: Key, now: Time) {
    && h.apiVersion == API_VERSION && h.kind == "KeyHistory" && h.rootFingerprint == root
    && h.issuedAt != 0 && h.issuedAt <= now + CLOCK_SKEW
    && ValidDigest(h.genesisCheckpointDigest, false)
    && h.witnessQuorum == QUORUM && h.outageGraceSeconds == OUTAGE_GRACE_SECONDS && |h.witnesses| == 3
  }

  predicate RolesOk(d: Delegation) {
    && (forall i :: 0 <= i < |d.roles| ==> d.roles[i] in SUPPORTED_ROLES)
    && (forall i, j :: 0 <= i < j < |d.roles| ==> d.roles[i] != d.roles[j])
    && ("validation-run" in d.roles ==> d.hostId != "" && |d.roles| == 1)
    && (WITNESS_ROLE in d.roles ==> |d.roles| == 1)
  }

  /** What one delegation must satisfy by itself. */
  predicate DelegationOk(d: Delegation, root: Key, issuedAt: Time) {
    && d.publicKey.Some? && d.publicKey.value != root
    && d.keyId != "" && d.notBefore < d.notAfter && d.custody != "" && d.roles != []
    && (d.revokedAt.Some? ==> d.notBefore <= d.revokedAt.value <= issuedAt)
    && RolesOk(d)
  }

  predicate Distinct(ds: seq<Delegation>) {
    forall i, j :: 0 <= i < j < |ds| ==> ds[i].keyId != ds[j].keyId && ds[i].publicKey != ds[j].publicKey
  }

  predicate DelegationsOk(ds: seq<Delegation>, root: Key, issuedAt: Time) {
    Distinct(ds) && forall i :: 0 <= i < |ds| ==> DelegationOk(ds[i], root, issuedAt)
  }

  predicate IsWitnessKey(ds: seq<Delegation>, keyId: string) {
    exists i :: 0 <= i < |ds| && ds[i].keyId == keyId && WITNESS_ROLE in ds[i].roles
  }

  predicate WitnessesOk(ws: seq<WitnessIdentity>, ds: seq<Delegation>) {
    && (forall i :: 0 <= i < |ws| ==> ws[i].operator != "" && IsWitnessKey(ds, ws[i].keyId))
    && (forall i, j :: 0 <= i < j < |ws| ==> ws[i].operator != ws[j].operator && ws[i].keyId != ws[j].keyId)
  }

  /** d is the later form of prior: nothing rewritten, no recorded revocation touched. */
  predicate Retains(prior: Delegation, d: Delegation) {
    prior.(revokedAt := None) == d.(revokedAt := None) && (prior.revokedAt.Some? ==> d.revokedAt == prior.revokedAt)
  }

  predicate RetainedIn(prior: Delegation, ds: seq<Delegation>) {
    exists j :: 0 <= j < |ds| && Retains(prior, ds[j])
  }

  predicate KeepsAll(olds: seq<Delegation>, ds: seq<Delegation>) {
    forall i :: 0 <= i < |olds| ==> RetainedIn(olds[i], ds)
  }

  predicate LinksTo(h: HistoryBody, previous: Option<History>) {
    match previous
    case None => h.previousDigest == Genesis
    case Some(p) =>
      && h.previousDigest == HistoryDigest(p.body) && p.body.issuedAt <= h.issuedAt
      && h.genesisCheckpointDigest == p.body.genesisCheckpointDigest
      && h.rootFingerprint == p.body.rootFingerprint
      && KeepsAll(p.body.delegations, h.delegations)
  }

  predicate Acceptable(h: HistoryBody, root: Key, previous: Option<History>, now: Time) {
    && BootstrapPolicy(h, root, now)
    && DelegationsOk(h.delegations, root, h.issuedAt)
    && WitnessesOk(h.witnesses, h.delegations)
    && LinksTo(h, previous)
  }

  function LineageAfter(previous: Option<History>): Lineage {
    match previous
    case None => NoLineage
    case Some(p) => Epoch(p.body.issuedAt, p.body.witnesses, p.body.previousDigest == Genesis, p.lineage)
  }

  /** The role loop of VerifyHistory for one delegation. */
  method CheckRoles(d: Delegation) returns (ok: bool)
    ensures ok == RolesOk(d)
  {
    var seen: set<string> := {};
    for i := 0 to |d.roles|
      invariant seen == set j | 0 <= j < i :: d.roles[j]
      invariant forall j :: 0 <= j < i ==> d.roles[j] in SUPPORTED_ROLES
      invariant forall j, k :: 0 <= j < k < i ==> d.roles[j] != d.roles[k]
    {
      if d.roles[i] !in SUPPORTED_ROLES {
        return false;
      }
      if d.roles[i] in seen {
        return false;
      }
      seen := seen + {d.roles[i]};
    }
    assert forall r :: r in seen <==> r in d.roles;
    if "validation-run" in seen && (d.hostId == "" || |d.roles| != 1) {
      return false;
    }
    ok := !(WITNESS_ROLE in seen && |d.roles| != 1);
  }

  /** Everything VerifyHistory asks of one delegation by itself. */
  method CheckDelegation(d: Delegation, root: Key, issuedAt: Time) returns (ok: bool)
    ensures ok == DelegationOk(d, root, issuedAt)
  {
    if d.publicKey.None? || d.publicKey.value == root {
      return false;
    }
    if d.keyId == "" || d.notBefore >= d.notAfter || d.custody == "" || d.roles == [] {
      return false;
    }
    if d.revokedAt.Some? && (d.revokedAt.value < d.notBefore || issuedAt < d.revokedAt.value) {
      return false;
    }
    ok := CheckRoles(d);
  }

  /** Whether an earlier delegation already has the key id or the key of number i;
      this is what the code's `keys` and `fingerprints` maps record. */
  predicate Repeats(ds: seq<Delegation>, i: nat)
    requires i < |ds|
  {
    exists j :: 0 <= j < i && (ds[j].keyId == ds[i].keyId || ds[j].publicKey == ds[i].publicKey)
  }

  /** The delegation loop: every delegation is fit and repeats no earlier one. */
  method CheckDelegations(ds: seq<Delegation>, root: Key, issuedAt: Time) returns (ok: bool)
    ensures ok == DelegationsOk(ds, root, issuedAt)
  {
    for i := 0 to |ds|
      invariant forall j :: 0 <= j < i ==> DelegationOk(ds[j], root, issuedAt)
      invariant forall j :: 0 <= j < i ==> !Repeats(ds, j)
    {
      var fine := CheckDelegation(ds[i], root, issuedAt);
      if !fine || Repeats(ds, i) {
        return false;
      }
    }
    forall j, k | 0 <= j < k < |ds|
      ensures ds[j].keyId != ds[k].keyId && ds[j].publicKey != ds[k].publicKey
    {
      assert !Repeats(ds, k);
    }
    ok := true;
  }

  /** The witness loop: three operators and three key ids, all different, each key
      delegated for witnessing. */
  method CheckWitnesses(ws: seq<WitnessIdentity>, ds: seq<Delegation>) returns (ok: bool)
    ensures ok == WitnessesOk(ws, ds)
  {
    var operators: set<string>, ids: set<string> := {}, {};
    for i := 0 to |ws|
      invariant operators == set j | 0 <= j < i :: ws[j].operator
      invariant ids == set j | 0 <= j < i :: ws[j].keyId
      invariant forall j :: 0 <= j < i ==> ws[j].operator != "" && IsWitnessKey(ds, ws[j].keyId)
      invariant forall j, k :: 0 <= j < k < i ==> ws[j].operator != ws[k].operator && ws[j].keyId != ws[k].keyId
    {
      var w := ws[i];
      if w.operator == "" || w.operator in operators || w.keyId in ids || !IsWitnessKey(ds, w.keyId) {
        return false;
      }
      operators := operators + {w.operator};
      ids := ids + {w.keyId};
    }
    ok := true;
  }

  /** The retention loop: every earlier delegation is still there, unrewritten. */
  method CheckRetention(olds: seq<Delegation>, ds: seq<Delegation>) returns (ok: bool)
    requires Distinct(ds)
    ensures ok == KeepsAll(olds, ds)
  {
    var current: map<string, Delegation> := map[];
    for i := 0 to |ds|
      invariant forall k :: k in current <==> exists j :: 0 <= j < i && ds[j].keyId == k
      invariant forall j :: 0 <= j < i ==> ds[j].keyId in current && current[ds[j].keyId] == ds[j]
    {
      current := current[ds[i].keyId := ds[i]];
    }
    for i := 0 to |olds|
      invariant forall m :: 0 <= m < i ==> RetainedIn(olds[m], ds)
    {
      var prior := olds[i];
      if prior.keyId !in current {
        assert !RetainedIn(olds[i], ds);
        return false;
      }
      var d := current[prior.keyId];
      var n :| 0 <= n < |ds| && ds[n] == d;
      assert forall j :: 0 <= j < |ds| && Retains(prior, ds[j]) ==> ds[j] == d;
      if prior.(revokedAt := None) != d.(revokedAt := None) {
        return false;
      }
      if prior.revokedAt.Some? && (d.revokedAt.None? || prior.revokedAt.value != d.revokedAt.value) {
        return false;
      }
      assert Retains(olds[i], ds[n]);
    }
    ok := true;
  }

  /** The result of VerifyHistory, stated outright. */
  function VerifiedHistory(e: Envelope, rootId: string, root: Key, previous: Option<History>,
                           now: Time): Option<History> {
    if Verifies(e, map[rootId := root]) && e.payload.document.HistoryDoc?
      && Acceptable(e.payload.document.history, root, previous, now)
    then Some(History(e.payload.document.history, LineageAfter(previous)))
    else None
  }

  method VerifyHistory(e: Envelope, rootId: string, root: Key, previous: Option<History>, now: Time)
    returns (r: Option<History>)
    ensures r == VerifiedHistory(e, rootId, root, previous, now)
  {
    if !Verifies(e, map[rootId := root]) || !e.payload.document.HistoryDoc? {
      return None;
    }
    var h := e.payload.document.history;
    if !BootstrapPolicy(h, root, now) {
      return None;
    }
    if previous.None? && h.previousDigest != Genesis {
      return None;
    }
    if previous.Some? {
      var p := previous.value.body;
      if h.previousDigest != HistoryDigest(p) || h.issuedAt < p.issuedAt
        || h.genesisCheckpointDigest != p.genesisCheckpointDigest || h.rootFingerprint != p.rootFingerprint {
        return None;
      }
    }
    var ok := CheckDelegations(h.delegations, root, h.issuedAt);
    if !ok {
      return None;
    }
    ok := CheckWitnesses(h.witnesses, h.delegations);
    if !ok {
      return None;
    }
    if previous.Some? {
      ok := CheckRetention(previous.value.body.delegations, h.delegations);
      if !ok {
        return None;
      }
    }
    r := Some(History(h, LineageAfter(previous)));
  }

  /** What a delegation must be: a key of its own that is not the root's, with a name, a
      custodian, a period, at least one of the four roles and none twice; a host key and a
      witness key serve nothing else; a revocation lies in the period and is already past. */
  predicate Fit(d: Delegation, root: Key, issuedAt: Time) {
    && d.keyId != "" && d.custody != "" && d.publicKey.Some? && d.publicKey != Some(root) && d.notBefore < d.notAfter
    && |d.roles| >= 1
    && (forall i :: 0 <= i < |d.roles| ==>
          d.roles[i] in {"control-plane-receipt", "audit-checkpoint", "validation-run", "audit-witness"})
    && (forall i, j :: 0 <= i < j < |d.roles| ==> d.roles[i] != d.roles[j])
    && ("audit-witness" in d.roles || "validation-run" in d.roles ==> |d.roles| == 1)
    && ("validation-run" in d.roles ==> d.hostId != "")
    && (d.revokedAt.Some? ==> d.notBefore <= d.revokedAt.value && d.revokedAt.value <= issuedAt)
  }

  /** The later delegation is the earlier one, at most with a revocation that was not there. */
  predicate Upholds(a: Delegation, b: Delegation) {
    && b.keyId == a.keyId && b.publicKey == a.publicKey && b.roles == a.roles && b.notBefore == a.notBefore
    && b.notAfter == a.notAfter && b.hostId == a.hostId && b.custody == a.custody
    && (a.revokedAt.Some? ==> b.revokedAt == a.revokedAt)
  }

  /** Everything an epoch is accepted for. */
  ghost predicate Sound(h: HistoryBody, root: Key, previous: Option<History>, now: Time) {
    && h.apiVersion == "science-ladder/v1" && h.kind == "KeyHistory" && h.rootFingerprint == root
    && h.issuedAt != 0 && h.issuedAt <= now + 300_000_000_000 && h.genesisCheckpointDigest.Sha?
    && h.witnessQuorum == 2 && h.outageGraceSeconds == 3600
    && AllFit(h.delegations, root, h.issuedAt) && ThreeWitnesses(h.witnesses, h.delegations)
    && (previous.None? ==> h.previousDigest == Genesis)
    && (previous.Some? ==>
          var p := previous.value.body;
          && h.previousDigest == HistoryDigest(p) && p.issuedAt <= h.issuedAt
          && p.genesisCheckpointDigest == h.genesisCheckpointDigest && p.rootFingerprint == h.rootFingerprint
          && UpholdsAll(p.delegations, h.delegations))
  }

  /** All fit, and no two with the same name or the same key. */
  predicate AllFit(ds: seq<Delegation>, root: Key, issuedAt: Time) {
    && (forall i :: 0 <= i < |ds| ==> Fit(ds[i], root, issuedAt))
    && (forall i, j :: 0 <= i < j < |ds| ==> ds[i].keyId != ds[j].keyId && ds[i].publicKey != ds[j].publicKey)
  }

  /** Three operators with names of their own, each with a witness key of its own. */
  ghost predicate ThreeWitnesses(ws: seq<WitnessIdentity>, ds: seq<Delegation>) {
    && |ws| == 3
    && (forall i :: 0 <= i < 3 ==> ws[i].operator != "" && HasWitnessKey(ds, ws[i].keyId))
    && (forall i, j :: 0 <= i < j < 3 ==> ws[i].operator != ws[j].operator && ws[i].keyId != ws[j].keyId)
  }

  ghost predicate HasWitnessKey(ds: seq<Delegation>, k: string) {
    exists d :: d in ds && d.keyId == k && "audit-witness" in d.roles
  }

  ghost predicate UpheldBy(a: Delegation, ds: seq<Delegation>) { exists b :: b in ds && Upholds(a, b) }

  ghost predicate UpholdsAll(olds: seq<Delegation>, ds: seq<Delegation>) { forall a :: a in olds ==> UpheldBy(a, ds) }

  lemma DelegationsExact(ds: seq<Delegation>, root: Key, issuedAt: Time)
    ensures DelegationsOk(ds, root, issuedAt) <==> AllFit(ds, root, issuedAt)
  {
    forall i | 0 <= i < |ds|
      ensures DelegationOk(ds[i], root, issuedAt) <==> Fit(ds[i], root, issuedAt)
    {
    }
  }

  lemma WitnessesExact(ws: seq<WitnessIdentity>, ds: seq<Delegation>)
    requires |ws| == 3
    ensures WitnessesOk(ws, ds) <==> ThreeWitnesses(ws, ds)
  {
    forall i | 0 <= i < 3
      ensures IsWitnessKey(ds, ws[i].keyId) <==> HasWitnessKey(ds, ws[i].keyId)
    {
      WitnessKeyExact(ds, ws[i].keyId);
    }
  }

  lemma WitnessKeyExact(ds: seq<Delegation>, k: string)
    ensures IsWitnessKey(ds, k) <==> HasWitnessKey(ds, k)
  {
    if IsWitnessKey(ds, k) {
      var i :| 0 <= i < |ds| && ds[i].keyId == k && WITNESS_ROLE in ds[i].roles;
      assert ds[i] in ds;
    }
    if HasWitnessKey(ds, k) {
      var d :| d in ds && d.keyId == k && "audit-witness" in d.roles;
      var i :| 0 <= i < |ds| && ds[i] == d;
    }
  }

  lemma RetentionExact(olds: seq<Delegation>, ds: seq<Delegation>)
    ensures KeepsAll(olds, ds) <==> UpholdsAll(olds, ds)
  {
    forall a
      ensures UpheldBy(a, ds) <==> RetainedIn(a, ds)
    {
      UpheldExact(a, ds);
    }
    if UpholdsAll(olds, ds) {
      assert forall i :: 0 <= i < |olds| ==> olds[i] in olds;
    }
  }

  lemma UpheldExact(a: Delegation, ds: seq<Delegation>)
    ensures UpheldBy(a, ds) <==> RetainedIn(a, ds)
  {
    if UpheldBy(a, ds) {
      var b :| b in ds && Upholds(a, b);
      var j :| 0 <= j < |ds| && ds[j] == b;
      assert Retains(a, ds[j]);
    }
    if RetainedIn(a, ds) {
      var j :| 0 <= j < |ds| && Retains(a, ds[j]);
      assert ds[j] in ds && Upholds(a, ds[j]);
    }
  }

  /** VerifyHistory accepts exactly the sound epochs that the root has signed. */
  lemma HistoryExact(e: Envelope, rootId: string, root: Key, previous: Option<History>, now: Time)
    ensures var r := VerifiedHistory(e, rootId, root, previous, now);
            && (r.Some? <==>
                && Verifies(e, map[rootId := root]) && e.payload.document.HistoryDoc?
                && Sound(e.payload.document.history, root, previous, now))
            && (r.Some? ==> r.value.body == e.payload.document.history)
  {
    if e.payload.Text? && e.payload.document.HistoryDoc? {
      SoundExact(e.payload.document.history, root, previous, now);
    }
  }

  lemma SoundExact(h: HistoryBody, root: Key, previous: Option<History>, now: Time)
    ensures Acceptable(h, root, previous, now) <==> Sound(h, root, previous, now)
  {
    DelegationsExact(h.delegations, root, h.issuedAt);
    if |h.witnesses| == 3 {
      WitnessesExact(h.witnesses, h.delegations);
    }
    if previous.Some? {
      RetentionExact(previous.value.body.delegations, h.delegations);
    }
  }

  // ------------------------------------------------------------ keys in force

  predicate ActiveFor(d: Delegation, role: string, at: Time) {
    && d.notBefore <= at < d.notAfter && (d.revokedAt.Some? ==> at < d.revokedAt.value)
    && role in d.roles && d.publicKey.Some?
  }

  /** Key ids with a delegation active for a role at an instant. */
  function KeysAt(ds: seq<Delegation>, role: string, at: Time): map<string, Key> {
    if ds == [] then map[]
    else
      var d := ds[|ds| - 1];
      var keys := KeysAt(ds[..|ds| - 1], role, at);
      if ActiveFor(d, role, at) then keys[d.keyId := d.publicKey.value] else keys
  }

  method CollectKeys(ds: seq<Delegation>, role: string, at: Time) returns (keys: map<string, Key>)
    ensures keys == KeysAt(ds, role, at)
  {
    keys := map[];
    for i := 0 to |ds|
      invariant keys == KeysAt(ds[..i], role, at)
    {
      assert ds[..i + 1][..i] == ds[..i];
      if ds[i].notBefore <= at < ds[i].notAfter && (ds[i].revokedAt.None? || at < ds[i].revokedAt.value) {
        if role in ds[i].roles && ds[i].publicKey.Some? {
          keys := keys[ds[i].keyId := ds[i].publicKey.value];
        }
      }
    }
    assert ds[..|ds|] == ds;
  }

  /** A key is in force exactly when the delegation with its id is active. */
  lemma {:induction false} KeysAtExact(ds: seq<Delegation>, role: string, at: Time, k: string)
    requires Distinct(ds)
    ensures k in KeysAt(ds, role, at) <==> exists i :: 0 <= i < |ds| && ds[i].keyId == k && ActiveFor(ds[i], role, at)
    ensures forall i :: 0 <= i < |ds| && ds[i].keyId == k && ActiveFor(ds[i], role, at) ==>
              k in KeysAt(ds, role, at) && KeysAt(ds, role, at)[k] == ds[i].publicKey.value
  {
    if ds != [] {
      var n := |ds| - 1;
      KeysAtExact(ds[..n], role, at, k);
      assert forall i :: 0 <= i < n ==> ds[..n][i] == ds[i];
      assert ds[n].keyId == k ==> forall i :: 0 <= i < n ==> ds[i].keyId != k;
    }
  }

  /** Some delegation gives this key under this id the role, from its beginning up to its
      end and up to its revocation, if there is one. */
  ghost predicate KeyInForce(ds: seq<Delegation>, role: string, k: string, key: Key, at: Time) {
    exists i :: 0 <= i < |ds| && GivesKey(ds[i], role, k, key, at)
  }

  predicate GivesKey(d: Delegation, role: string, k: string, key: Key, at: Time) {
    && d.keyId == k && d.publicKey == Some(key) && role in d.roles && d.notBefore <= at && at < d.notAfter
    && (d.revokedAt.None? || at < d.revokedAt.value)
  }

  /** The keys collected for a role are exactly those in force. */
  lemma KeysAreInForce(ds: seq<Delegation>, role: string, at: Time, k: string, key: Key)
    requires Distinct(ds)
    ensures k in KeysAt(ds, role, at) && KeysAt(ds, role, at)[k] == key <==> KeyInForce(ds, role, k, key, at)
  {
    KeysAtExact(ds, role, at, k);
    if k in KeysAt(ds, role, at) {
      var i :| 0 <= i < |ds| && ds[i].keyId == k && ActiveFor(ds[i], role, at);
      assert GivesKey(ds[i], role, k, ds[i].publicKey.value, at);
    }
    if KeyInForce(ds, role, k, key, at) {
      var i :| 0 <= i < |ds| && GivesKey(ds[i], role, k, key, at);
      assert ActiveFor(ds[i], role, at);
    }
  }

  // ----------------------------------------------------- membership in force

  function Operators(ws: seq<WitnessIdentity>): map<string, string> {
    if ws == [] then map[]
    else Operators(ws[..|ws| - 1])[ws[|ws| - 1].keyId := ws[|ws| - 1].operator]
  }

  /** The lineage walk of WitnessOperatorsAt. */
  function MembershipAt(ws: seq<WitnessIdentity>, issuedAt: Time, genesis: bool, lineage: Lineage,
                        at: Time): map<string, string>
    decreases lineage
  {
    if at < issuedAt && lineage.Epoch?
    then MembershipAt(lineage.witnesses, lineage.issuedAt, lineage.genesis, lineage.previous, at)
    else if at < issuedAt && !genesis then map[]
    else Operators(ws)
  }

  function WitnessOperatorsAt(h: History, at: Time): map<string, string> {
    MembershipAt(h.body.witnesses, h.body.issuedAt, h.body.previousDigest == Genesis, h.lineage, at)
  }

  method CollectOperators(h: History, at: Time) returns (operators: map<string, string>)
    ensures operators == WitnessOperatorsAt(h, at)
  {
    var ws, issuedAt := h.body.witnesses, h.body.issuedAt;
    var genesis, previous := h.body.previousDigest == Genesis, h.lineage;
    while at < issuedAt && previous.Epoch?
      invariant MembershipAt(ws, issuedAt, genesis, previous, at) == WitnessOperatorsAt(h, at)
      decreases previous
    {
      ws, issuedAt, genesis := previous.witnesses, previous.issuedAt, previous.genesis;
      previous := previous.previous;
    }
    operators := map[];
    if at < issuedAt && !genesis {
      return;
    }
    for i := 0 to |ws|
      invariant operators == Operators(ws[..i])
    {
      assert ws[..i + 1][..i] == ws[..i];
      operators := operators[ws[i].keyId := ws[i].operator];
    }
    assert ws[..|ws|] == ws;
  }

  // ------------------------------------------------------------------ chains

  function Prior(chain: seq<History>, i: nat): Option<History>
    requires i < |chain|
  {
    if i == 0 then None else Some(chain[i - 1])
  }

  ghost predicate AcceptedAt(chain: seq<History>, root: Key, i: nat)
    requires i < |chain|
  {
    chain[i].lineage == LineageAfter(Prior(chain, i))
    && exists now :: Acceptable(chain[i].body, root, Prior(chain, i), now)
  }

  /** A complete verified chain, from the bootstrap epoch on. */
  ghost predicate AcceptedHistories(chain: seq<History>, root: Key) {
    forall i :: 0 <= i < |chain| ==> AcceptedAt(chain, root, i)
  }

  lemma AcceptedPrefix(chain: seq<History>, root: Key, n: nat)
    requires AcceptedHistories(chain, root) && n <= |chain|
    ensures AcceptedHistories(chain[..n], root)
  {
    forall i | 0 <= i < n
      ensures AcceptedAt(chain[..n], root, i)
    {
      assert AcceptedAt(chain, root, i);
      assert Prior(chain[..n], i) == Prior(chain, i);
    }
  }

  /** Every delegation of an epoch is retained by every later epoch. */
  lemma {:induction false} DelegationRetained(chain: seq<History>, root: Key, i: nat, j: nat, d: Delegation)
    returns (d': Delegation)
    requires AcceptedHistories(chain, root) && i <= j < |chain|
    requires d in chain[i].body.delegations
    ensures d' in chain[j].body.delegations && Retains(d, d')
    decreases j - i
  {
    if i == j {
      d' := d;
    } else {
      var m := DelegationRetained(chain, root, i, j - 1, d);
      assert AcceptedAt(chain, root, j);
      var a :| 0 <= a < |chain[j - 1].body.delegations| && chain[j - 1].body.delegations[a] == m;
      var b :| 0 <= b < |chain[j].body.delegations|
        && Retains(chain[j - 1].body.delegations[a], chain[j].body.delegations[b]);
      d' := chain[j].body.delegations[b];
    }
  }

  /** Authority never grows: a key delegated by epoch i that a later epoch j holds
      active at an instant was held active, with the same key, by epoch i. */
  lemma AuthorityNeverGrows(chain: seq<History>, root: Key, i: nat, j: nat, d: Delegation, role: string, at: Time)
    requires AcceptedHistories(chain, root) && i <= j < |chain|
    requires d in chain[i].body.delegations
    requires d.keyId in KeysAt(chain[j].body.delegations, role, at)
    ensures d.keyId in KeysAt(chain[i].body.delegations, role, at)
    ensures KeysAt(chain[i].body.delegations, role, at)[d.keyId] == KeysAt(chain[j].body.delegations, role, at)[d.keyId]
  {
    assert AcceptedAt(chain, root, i) && AcceptedAt(chain, root, j);
    var d' := DelegationRetained(chain, root, i, j, d);
    KeysAtExact(chain[i].body.delegations, role, at, d.keyId);
    KeysAtExact(chain[j].body.delegations, role, at, d.keyId);
    assert forall e :: e in chain[j].body.delegations && e.keyId == d.keyId ==> e == d';
    assert ActiveFor(d', role, at) && ActiveFor(d, role, at);
  }

  /** A recorded revocation is permanent: from its instant on, no later epoch
      holds the key active for any role. */
  lemma RevocationPermanent(chain: seq<History>, root: Key, i: nat, j: nat, d: Delegation, role: string, at: Time)
    requires AcceptedHistories(chain, root) && i <= j < |chain|
    requires d in chain[i].body.delegations && d.revokedAt.Some? && d.revokedAt.value <= at
    ensures d.keyId !in KeysAt(chain[j].body.delegations, role, at)
  {
    if d.keyId in KeysAt(chain[j].body.delegations, role, at) {
      AuthorityNeverGrows(chain, root, i, j, d, role, at);
      assert AcceptedAt(chain, root, i);
      KeysAtExact(chain[i].body.delegations, role, at, d.keyId);
      assert false;
    }
  }

  /** Appending an epoch leaves the membership before its issuance unchanged. */
  lemma AppendKeepsPast(chain: seq<History>, root: Key, i: nat, at: Time)
    requires AcceptedHistories(chain, root) && 0 < i < |chain|
    requires at < chain[i].body.issuedAt
    ensures WitnessOperatorsAt(chain[i], at) == WitnessOperatorsAt(chain[i - 1], at)
  {
    assert AcceptedAt(chain, root, i);
  }

  /** The last epoch issued by an instant, else the bootstrap epoch. */
  function EpochInForce(chain: seq<History>, at: Time): (i: nat)
    requires chain != []
    ensures i < |chain|
  {
    if |chain| == 1 || chain[|chain| - 1].body.issuedAt <= at then |chain| - 1
    else EpochInForce(chain[..|chain| - 1], at)
  }

  /** The membership in force at any instant is the one of the last epoch issued
      by then, or of the bootstrap epoch before any was issued. */
  lemma {:induction false} MembershipIsLastIssued(chain: seq<History>, root: Key, at: Time)
    requires AcceptedHistories(chain, root) && chain != []
    ensures WitnessOperatorsAt(chain[|chain| - 1], at) == Operators(chain[EpochInForce(chain, at)].body.witnesses)
  {
    var n := |chain| - 1;
    assert AcceptedAt(chain, root, n);
    if n > 0 && at < chain[n].body.issuedAt {
      AppendKeepsPast(chain, root, n, at);
      AcceptedPrefix(chain, root, n);
      MembershipIsLastIssued(chain[..n], root, at);
    }
  }

  /** EpochInForce really is the last one: later epochs were issued after the
      instant, and it was issued by then unless it is the bootstrap epoch. */
  lemma {:induction false} EpochInForceIsLast(chain: seq<History>, root: Key, at: Time)
    requires AcceptedHistories(chain, root) && chain != []
    ensures forall j :: EpochInForce(chain, at) < j < |chain| ==> at < chain[j].body.issuedAt
    ensures EpochInForce(chain, at) > 0 ==> chain[EpochInForce(chain, at)].body.issuedAt <= at
  {
    var n := |chain| - 1;
    if n > 0 && at < chain[n].body.issuedAt {
      AcceptedPrefix(chain, root, n);
      EpochInForceIsLast(chain[..n], root, at);
      assert forall j :: 0 <= j < n ==> chain[..n][j] == chain[j];
    }
  }

  /** Three key ids with three different, named operators. */
  predicate ThreeOperators(operators: map<string, string>) {
    && |operators| == 3
    && (forall k :: k in operators ==> operators[k] != "")
    && (forall k, l :: k in operators && l in operators && operators[k] == operators[l] ==> k == l)
  }

  /** Every entry of the operator map is one of the listed identities. */
  lemma {:induction false} OperatorListed(ws: seq<WitnessIdentity>, k: string) returns (i: nat)
    requires k in Operators(ws)
    ensures i < |ws| && ws[i].keyId == k && Operators(ws)[k] == ws[i].operator
  {
    i := |ws| - 1;
    if k != ws[i].keyId {
      i := OperatorListed(ws[..|ws| - 1], k);
    }
  }

  lemma {:induction false} ListedOperator(ws: seq<WitnessIdentity>, i: nat)
    requires (forall j, l :: 0 <= j < l < |ws| ==> ws[j].keyId != ws[l].keyId) && i < |ws|
    ensures ws[i].keyId in Operators(ws) && Operators(ws)[ws[i].keyId] == ws[i].operator
  {
    if i < |ws| - 1 {
      ListedOperator(ws[..|ws| - 1], i);
    }
  }

  /** The members in force at an instant, one by one: the identities that the last epoch
      issued by then lists, or the bootstrap epoch before any was issued. */
  lemma MembersExact(chain: seq<History>, root: Key, at: Time, i: nat, k: string, operator: string)
    requires AcceptedHistories(chain, root) && i < |chain|
    requires i > 0 ==> chain[i].body.issuedAt <= at
    requires forall j :: i < j < |chain| ==> at < chain[j].body.issuedAt
    ensures var operators := WitnessOperatorsAt(chain[|chain| - 1], at);
            k in operators && operators[k] == operator <==> WitnessIdentity(k, operator) in chain[i].body.witnesses
  {
    MembershipIsLastIssued(chain, root, at);
    EpochInForceIsLast(chain, root, at);
    assert EpochInForce(chain, at) == i;
    assert AcceptedAt(chain, root, i);
    var ws := chain[i].body.witnesses;
    if k in Operators(ws) {
      var n := OperatorListed(ws, k);
      assert ws[n] == WitnessIdentity(k, Operators(ws)[k]);
    }
    if WitnessIdentity(k, operator) in ws {
      var n :| 0 <= n < |ws| && ws[n] == WitnessIdentity(k, operator);
      ListedOperator(ws, n);
    }
  }

  lemma {:induction false} OperatorCount(ws: seq<WitnessIdentity>)
    requires forall i, j :: 0 <= i < j < |ws| ==> ws[i].keyId != ws[j].keyId
    ensures |Operators(ws)| == |ws|
  {
    if ws != [] {
      var n := |ws| - 1;
      OperatorCount(ws[..n]);
      if ws[n].keyId in Operators(ws[..n]) {
        var i := OperatorListed(ws[..n], ws[n].keyId);
        assert false;
      }
      assert Operators(ws).Keys == Operators(ws[..n]).Keys + {ws[n].keyId};
    }
  }

  /** At every instant an accepted chain names exactly three operators. */
  lemma MembershipHasThreeOperators(chain: seq<History>, root: Key, at: Time)
    requires AcceptedHistories(chain, root) && chain != []
    ensures ThreeOperators(WitnessOperatorsAt(chain[|chain| - 1], at))
  {
    MembershipIsLastIssued(chain, root, at);
    var i := EpochInForce(chain, at);
    assert AcceptedAt(chain, root, i);
    var ws := chain[i].body.witnesses;
    OperatorCount(ws);
    forall k, l | k in Operators(ws) && l in Operators(ws)
      ensures Operators(ws)[k] != "" && (Operators(ws)[k] == Operators(ws)[l] ==> k == l)
    {
      var a := OperatorListed(ws, k);
      var b := OperatorListed(ws, l);
    }
  }
}

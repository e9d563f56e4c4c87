/**
 The offline-root key manifest chain: a hash-linked log whose keys only ever age.

 A digest is abstracted as an injective wrapper of the payload it was taken from, and a signature
 as the fact that it verifies under the pinned root.
 */
module ManifestChain {
  import opened Basics

  datatype KeyState = Active | Retiring | Revoked

  datatype KeyId = KeyId(name: string, version: int)

  datatype KeyRecord = KeyRecord(algorithm: string, fingerprint: string, state: KeyState)

  datatype KeyEntry = KeyEntry(id: KeyId, record: KeyRecord)

  datatype Manifest = Manifest(
    generation: int, previous: Option<Digest>, issuedAt: int, root: string, entries: seq<KeyEntry>)

  datatype Digest = Sha256(of: Manifest)

  datatype Envelope = Envelope(payload: Manifest, verifies: bool)

  datatype Authenticated = Authenticated(payload: Manifest, keys: map<KeyId, KeyRecord>)

  datatype ManifestError =
    | RootMismatch | BadSignature | BadPayload | BrokenLink | KeyRollback | TimeRollback
    | Unavailable | BelowPersisted | ConflictsPersisted

  const ALGORITHMS := {"Ed25519", "platform-native-P256"}

  predicate ValidEntry(e: KeyEntry) {
    e.id.version >= 1 && e.record.algorithm in ALGORITHMS
  }

  predicate DistinctIds(entries: seq<KeyEntry>) {
    forall i, j :: 0 <= i < j < |entries| ==> entries[i].id != entries[j].id
  }

  predicate ValidPayload(m: Manifest, root: string) {
    m.generation >= 1 && m.root == root && m.entries != []
    && (forall e :: e in m.entries ==> ValidEntry(e)) && DistinctIds(m.entries)
  }

  function KeyTable(entries: seq<KeyEntry>): map<KeyId, KeyRecord> {
    if entries == [] then map[]
    else
      var last := entries[|entries| - 1];
      KeyTable(entries[..|entries| - 1])[last.id := last.record]
  }

  lemma {:induction false} KeyTableKeys(entries: seq<KeyEntry>)
    ensures forall k :: k in KeyTable(entries) <==> exists i :: 0 <= i < |entries| && entries[i].id == k
  {
    if entries != [] {
      var init := entries[..|entries| - 1];
      KeyTableKeys(init);
      forall k | k in KeyTable(entries) ensures exists i :: 0 <= i < |entries| && entries[i].id == k {
        if k in KeyTable(init) {
          var i :| 0 <= i < |init| && init[i].id == k;
          assert entries[i].id == k;
        }
      }
      forall i | 0 <= i < |entries| ensures entries[i].id in KeyTable(entries) {
        assert i < |init| ==> init[i] == entries[i];
      }
    }
  }

  function Age(s: KeyState): nat {
    match s case Active => 0 case Retiring => 1 case Revoked => 2
  }

  /** The key may move from `before` to `after` in one step of the chain. */
  predicate Ages(before: KeyRecord, after: KeyRecord) {
    before.algorithm == after.algorithm && before.fingerprint == after.fingerprint && Age(before.state) <= Age(after.state)
  }

  ghost predicate KeyTransition(previous: map<KeyId, KeyRecord>, current: map<KeyId, KeyRecord>) {
    (forall k :: k in previous ==> k in current && Ages(previous[k], current[k]))
    && forall k :: k in current && k !in previous ==> current[k].state == Active
  }

  ghost predicate Follows(previous: Manifest, current: Manifest) {
    current.generation == previous.generation + 1
    && current.previous == Some(Sha256(previous))
    && KeyTransition(KeyTable(previous.entries), KeyTable(current.entries))
    && previous.issuedAt <= current.issuedAt
  }

  ghost predicate Starts(m: Manifest) {
    m.generation == 1 && m.previous == None
  }

  /** The chain of payloads an honest verifier accepts under a root. */
  ghost predicate Accepted(ms: seq<Manifest>, root: string) {
    ms != [] && Starts(ms[0])
    && (forall i :: 0 <= i < |ms| ==> ValidPayload(ms[i], root))
    && forall i :: 0 < i < |ms| ==> Follows(ms[i - 1], ms[i])
  }

  /** The accepted chain does not fall behind what was persisted. */
  ghost predicate RespectsPersisted(ms: seq<Manifest>, minGeneration: Option<int>, minDigest: Option<Digest>) {
    minGeneration.Some? ==>
      ms != [] && minGeneration.value <= ms[|ms| - 1].generation
      && (minDigest.Some? ==> exists i :: 0 <= i < |ms| && ms[i].generation == minGeneration.value
                                          && minDigest.value == Sha256(ms[i]))
  }

  function Payloads(chain: seq<Authenticated>): seq<Manifest> {
    seq(|chain|, i requires 0 <= i < |chain| => chain[i].payload)
  }

  /** Collects the key table of one payload, refusing duplicates and malformed entries. */
  method ReadKeys(entries: seq<KeyEntry>) returns (r: Option<map<KeyId, KeyRecord>>)
    ensures r.Some? <==> entries != [] && (forall e :: e in entries ==> ValidEntry(e)) && DistinctIds(entries)
    ensures r.Some? ==> r.value == KeyTable(entries)
  {
    if entries == [] {
      return None;
    }
    var keys: map<KeyId, KeyRecord> := map[];
    for i := 0 to |entries|
      invariant keys == KeyTable(entries[..i])
      invariant forall j :: 0 <= j < i ==> ValidEntry(entries[j])
      invariant DistinctIds(entries[..i])
    {
      var e := entries[i];
      KeyTableKeys(entries[..i]);
      if !ValidEntry(e) || e.id in keys {
        if e.id in keys {
          var j :| 0 <= j < i && entries[..i][j].id == e.id;
          assert entries[j].id == entries[i].id;
        }
        return None;
      }
      forall j | 0 <= j < i ensures entries[j].id != e.id {
        assert entries[..i][j].id in keys;
      }
      assert entries[..i + 1][..i] == entries[..i];
      keys := keys[e.id := e.record];
    }
    assert entries[..|entries|] == entries;
    return Some(keys);
  }

  /** Why a manifest may not follow another, as far as their keys go. */
  datatype KeyRefusal = KeyOmitted | MetadataChanged | StateRolledBack | EntersInactive

  /** A key of the previous manifest shows the refusal. */
  predicate Shows(previous: map<KeyId, KeyRecord>, current: map<KeyId, KeyRecord>, k: KeyId, refusal: KeyRefusal) {
    match refusal
    case KeyOmitted => k in previous && k !in current
    case MetadataChanged =>
      k in previous && k in current
      && (previous[k].algorithm != current[k].algorithm || previous[k].fingerprint != current[k].fingerprint)
    case StateRolledBack => k in previous && k in current && Age(current[k].state) < Age(previous[k].state)
    case EntersInactive => k in current && k !in previous && current[k].state != Active
  }

  /** Looks at every key that was there, and then at the new ones. A refusal names a key that shows it, and a new key
      is only complained of when all the old ones are in order. */
  method CheckKeyTransition(previous: map<KeyId, KeyRecord>, current: map<KeyId, KeyRecord>)
    returns (refusal: Option<KeyRefusal>)
    ensures refusal.None? <==> KeyTransition(previous, current)
    ensures refusal.Some? ==> exists k :: Shows(previous, current, k, refusal.value)
    ensures refusal == Some(EntersInactive) ==> forall k :: k in previous ==> k in current && Ages(previous[k], current[k])
  {
    var rest := previous.Keys;
    while rest != {}
      invariant rest <= previous.Keys
      invariant forall k :: k in previous && k !in rest ==> k in current && Ages(previous[k], current[k])
    {
      var k :| k in rest;
      rest := rest - {k};
      var was := previous[k];
      if k !in current {
        assert Shows(previous, current, k, KeyOmitted);
        return Some(KeyOmitted);
      }
      var now := current[k];
      if (was.algorithm, was.fingerprint) != (now.algorithm, now.fingerprint) {
        assert Shows(previous, current, k, MetadataChanged);
        return Some(MetadataChanged);
      }
      if !MayBecome(was.state, now.state) {
        assert Shows(previous, current, k, StateRolledBack);
        return Some(StateRolledBack);
      }
    }
    rest := current.Keys;
    while rest != {}
      invariant rest <= current.Keys
      invariant forall k :: k in current && k !in rest && k !in previous ==> current[k].state == Active
    {
      var k :| k in rest;
      rest := rest - {k};
      if k !in previous && current[k].state != Active {
        assert Shows(previous, current, k, EntersInactive);
        return Some(EntersInactive);
      }
    }
    refusal := None;
  }

  /** The states a key's next manifest may show. */
  predicate MayBecome(was: KeyState, now: KeyState) {
    match was
    case Active => true
    case Retiring => now == Retiring || now == Revoked
    case Revoked => now == Revoked
  }

  /** One link: the payload is signed, well formed, and starts the chain or follows its predecessor. */
  method AuthenticateLink(envelope: Envelope, previous: Option<Authenticated>, pinned: string)
    returns (r: Result<Authenticated, ManifestError>)
    requires previous.Some? ==> previous.value.keys == KeyTable(previous.value.payload.entries)
    ensures r.Ok? <==> envelope.verifies && ValidPayload(envelope.payload, pinned)
                       && (previous.None? ==> Starts(envelope.payload))
                       && (previous.Some? ==> Follows(previous.value.payload, envelope.payload))
    ensures r.Ok? ==> r.value == Authenticated(envelope.payload, KeyTable(envelope.payload.entries))
  {
    hide KeyTransition, KeyTable;
    var payload := envelope.payload;
    if !envelope.verifies {
      return Err(BadSignature);
    }
    if payload.generation < 1 || payload.root != pinned {
      return Err(BadPayload);
    }
    var keys := ReadKeys(payload.entries);
    if keys.None? {
      return Err(BadPayload);
    }
    if previous.None? {
      if payload.generation != 1 || payload.previous != None {
        return Err(BrokenLink);
      }
    } else {
      var p := previous.value;
      if payload.generation != p.payload.generation + 1 || payload.previous != Some(Sha256(p.payload)) {
        return Err(BrokenLink);
      }
      var refusal := CheckKeyTransition(p.keys, keys.value);
      if refusal.Some? {
        return Err(KeyRollback);
      }
      if payload.issuedAt < p.payload.issuedAt {
        return Err(TimeRollback);
      }
    }
    return Ok(Authenticated(payload, keys.value));
  }

  /** Accepts exactly the correctly signed, linked, ageing chains that respect the persisted floor. */
  method AuthenticateChain(envelopes: seq<Envelope>, root: string, pinned: string,
                           minGeneration: Option<int>, minDigest: Option<Digest>)
    returns (r: Result<seq<Authenticated>, ManifestError>)
    ensures r.Ok? <==> root == pinned && (forall i :: 0 <= i < |envelopes| ==> envelopes[i].verifies)
                       && Accepted(PayloadsOf(envelopes), pinned)
                       && RespectsPersisted(PayloadsOf(envelopes), minGeneration, minDigest)
    ensures r.Ok? ==> Payloads(r.value) == PayloadsOf(envelopes)
                      && forall i :: 0 <= i < |r.value| ==> r.value[i].keys == KeyTable(r.value[i].payload.entries)
  {
    hide Follows, Starts, ValidPayload, KeyTable;
    if root != pinned {
      return Err(RootMismatch);
    }
    var authenticated: seq<Authenticated> := [];
    ghost var ms := PayloadsOf(envelopes);
    for i := 0 to |envelopes|
      invariant |authenticated| == i
      invariant forall j :: 0 <= j < i ==> authenticated[j] == Authenticated(ms[j], KeyTable(ms[j].entries))
      invariant forall j :: 0 <= j < i ==> envelopes[j].verifies && ValidPayload(ms[j], pinned)
      invariant i > 0 ==> Starts(ms[0])
      invariant forall j :: 0 < j < i ==> Follows(ms[j - 1], ms[j])
    {
      assert ms[i] == envelopes[i].payload;
      var previous := if i == 0 then None else Some(authenticated[i - 1]);
      var link := AuthenticateLink(envelopes[i], previous, pinned);
      if link.Err? {
        return Err(link.error);
      }
      authenticated := authenticated + [link.value];
    }
    if authenticated == [] {
      return Err(Unavailable);
    }
    assert Payloads(authenticated) == ms;
    assert Accepted(ms, pinned);
    var highest := authenticated[|authenticated| - 1];
    if minGeneration.Some? && highest.payload.generation < minGeneration.value {
      return Err(BelowPersisted);
    }
    if minGeneration.Some? && minDigest.Some? {
      var found := FindGeneration(authenticated, minGeneration.value);
      if found.None? || Sha256(found.value.payload) != minDigest.value {
        AcceptedGenerations(ms, pinned);
        return Err(ConflictsPersisted);
      }
      assert exists i :: 0 <= i < |ms| && ms[i] == found.value.payload;
    }
    return Ok(authenticated);
  }

  function PayloadsOf(envelopes: seq<Envelope>): seq<Manifest> {
    seq(|envelopes|, i requires 0 <= i < |envelopes| => envelopes[i].payload)
  }

  method FindGeneration(chain: seq<Authenticated>, generation: int) returns (r: Option<Authenticated>)
    ensures r.Some? ==> r.value in chain && r.value.payload.generation == generation
    ensures r.None? ==> forall i :: 0 <= i < |chain| ==> chain[i].payload.generation != generation
  {
    for i := 0 to |chain|
      invariant forall j :: 0 <= j < i ==> chain[j].payload.generation != generation
    {
      if chain[i].payload.generation == generation {
        return Some(chain[i]);
      }
    }
    return None;
  }

  /** Generations run 1, 2, 3, ... without a gap. */
  lemma {:induction false} AcceptedGenerations(ms: seq<Manifest>, root: string)
    requires Accepted(ms, root)
    ensures forall i :: 0 <= i < |ms| ==> ms[i].generation == i + 1
  {
    hide KeyTransition, ValidPayload;
    if |ms| > 1 {
      var init := ms[..|ms| - 1];
      assert Accepted(init, root);
      AcceptedGenerations(init, root);
      assert Follows(ms[|ms| - 2], ms[|ms| - 1]);
      assert ms[|ms| - 2] == init[|ms| - 2];
      forall i | 0 <= i < |ms| ensures ms[i].generation == i + 1 {
        if i < |init| {
          assert init[i].generation == i + 1;
        }
      }
    }
  }

  ghost function KeysAt(ms: seq<Manifest>, i: nat): map<KeyId, KeyRecord>
    requires i < |ms|
  {
    KeyTable(ms[i].entries)
  }

  /** A key never disappears, never changes its metadata and never becomes younger. */
  lemma {:induction false} KeysAge(ms: seq<Manifest>, root: string, i: nat, j: nat, k: KeyId)
    requires Accepted(ms, root) && i <= j < |ms|
    requires k in KeysAt(ms, i)
    ensures k in KeysAt(ms, j) && Ages(KeysAt(ms, i)[k], KeysAt(ms, j)[k])
    ensures ms[i].issuedAt <= ms[j].issuedAt
    decreases j
  {
    hide KeyTable, ValidPayload;
    if i < j {
      KeysAge(ms, root, i, j - 1, k);
      assert Follows(ms[j - 1], ms[j]);
    }
  }

  /** Every key enters the chain active, unless it was there from the first manifest. */
  lemma {:induction false} KeysEnterActive(ms: seq<Manifest>, root: string, j: nat, k: KeyId) returns (i: nat)
    requires Accepted(ms, root) && j < |ms| && k in KeysAt(ms, j)
    ensures i <= j && k in KeysAt(ms, i) && (i == 0 || KeysAt(ms, i)[k].state == Active)
    ensures forall h :: 0 <= h < i ==> k !in KeysAt(ms, h)
    decreases j
  {
    hide KeyTable, ValidPayload;
    if j > 0 && k in KeysAt(ms, j - 1) {
      i := KeysEnterActive(ms, root, j - 1, k);
    } else {
      i := j;
      if j > 0 {
        assert Follows(ms[j - 1], ms[j]);
        forall h | 0 <= h < i ensures k !in KeysAt(ms, h) {
          if k in KeysAt(ms, h) {
            KeysAge(ms, root, h, j - 1, k);
          }
        }
      }
    }
  }

  /** Two accepted chains with one digest in common share their whole history up to it. */
  lemma {:induction false} SharedHistory(a: seq<Manifest>, b: seq<Manifest>, rootA: string, rootB: string, g: nat)
    requires Accepted(a, rootA) && Accepted(b, rootB)
    requires g < |a| && g < |b| && Sha256(a[g]) == Sha256(b[g])
    ensures a[..g + 1] == b[..g + 1]
  {
    hide KeyTransition, ValidPayload;
    if g > 0 {
      assert Follows(a[g - 1], a[g]) && Follows(b[g - 1], b[g]);
      SharedHistory(a, b, rootA, rootB, g - 1);
      assert a[..g + 1] == a[..g] + [a[g]] && b[..g + 1] == b[..g] + [b[g]];
    }
  }

  /** A verifier that persists the last generation and digest it accepted can only ever extend its history. */
  lemma PersistedFloorExtends(past: seq<Manifest>, next: seq<Manifest>, root: string, g: nat)
    requires Accepted(past, root) && Accepted(next, root) && g < |past|
    requires RespectsPersisted(next, Some(past[g].generation), Some(Sha256(past[g])))
    ensures past[..g + 1] <= next
  {
    hide Follows, ValidPayload;
    AcceptedGenerations(past, root);
    AcceptedGenerations(next, root);
    var i :| 0 <= i < |next| && next[i].generation == past[g].generation && Sha256(past[g]) == Sha256(next[i]);
    assert i == g;
    SharedHistory(past, next, root, root, g);
  }

  datatype Attestation = Attestation(
    key: KeyId, generation: int, digest: Digest, algorithm: string, fingerprint: string,
    issuedAt: int, expiresAt: int, verifies: bool)

  datatype AttestationError =
    | NotCurrent | UnknownIssuance | NotActiveAtIssuance | RevokedOrUnknown | KeyMismatch
    | PredatesManifest | AfterRetirement | InvalidSignature

  /** First manifest after `issuance` in which the key is present and no longer active. */
  ghost predicate FirstRetirement(ms: seq<Manifest>, issuance: nat, k: KeyId, at: nat) {
    issuance < at < |ms|
    && k in KeysAt(ms, at) && KeysAt(ms, at)[k].state != Active
    && forall h :: issuance <= h < at ==> k in KeysAt(ms, h) && KeysAt(ms, h)[k].state == Active
  }

  /** The issuance manifest `i` supports the proof, which was made before the key left `active`. */
  ghost predicate Supports(ms: seq<Manifest>, i: nat, a: Attestation, algorithm: string, fingerprint: string)
    requires i < |ms|
  {
    ms[i].generation == a.generation && Sha256(ms[i]) == a.digest
    && a.key in KeysAt(ms, i) && KeysAt(ms, i)[a.key].state == Active
    && a.algorithm == algorithm == KeysAt(ms, i)[a.key].algorithm
    && a.fingerprint == fingerprint == KeysAt(ms, i)[a.key].fingerprint
    && ms[i].issuedAt <= a.issuedAt
    && a.key in KeysAt(ms, |ms| - 1) && KeysAt(ms, |ms| - 1)[a.key].state != Revoked
    && forall at: nat :: FirstRetirement(ms, i, a.key, at) ==> a.issuedAt < ms[at].issuedAt
  }

  /** What makes the proof of a key acceptable now, for the public key with this fingerprint. */
  ghost predicate Acceptable(ms: seq<Manifest>, a: Attestation, algorithm: string, fingerprint: string, now: int) {
    a.issuedAt <= now < a.expiresAt && a.verifies
    && exists i: nat :: i < |ms| && Supports(ms, i, a, algorithm, fingerprint)
  }

  /**
   The retirement search never comes up empty: a key that was active at issuance and is retiring now
   left `active` at one first manifest in between.
   */
  lemma RetirementIsFound(ms: seq<Manifest>, root: string, i: nat, k: KeyId) returns (at: nat)
    requires Accepted(ms, root) && i < |ms|
    requires k in KeysAt(ms, i) && KeysAt(ms, i)[k].state == Active
    requires k in KeysAt(ms, |ms| - 1) && KeysAt(ms, |ms| - 1)[k].state != Active
    ensures FirstRetirement(ms, i, k, at)
  {
    hide KeyTable, Accepted;
    at := i;
    while k in KeysAt(ms, at) && KeysAt(ms, at)[k].state == Active
      invariant i <= at < |ms| && k in KeysAt(ms, at)
      invariant forall h :: i <= h < at ==> k in KeysAt(ms, h) && KeysAt(ms, h)[k].state == Active
      decreases |ms| - at
    {
      at := at + 1;
      KeysAge(ms, root, i, at, k);
    }
  }

  /** The search for the manifest that retired a key, which is still active at `i` and retired by the end. */
  method FindRetirement(chain: seq<Authenticated>, i: nat, k: KeyId, ghost root: string) returns (at: nat)
    requires Accepted(Payloads(chain), root) && i < |chain|
    requires forall j :: 0 <= j < |chain| ==> chain[j].keys == KeyTable(chain[j].payload.entries)
    requires k in chain[i].keys && chain[i].keys[k].state == Active
    requires k in chain[|chain| - 1].keys && chain[|chain| - 1].keys[k].state != Active
    ensures forall h: nat :: FirstRetirement(Payloads(chain), i, k, h) <==> h == at
  {
    hide KeyTable, Accepted;
    ghost var ms := Payloads(chain);
    assert forall j :: 0 <= j < |ms| ==> KeysAt(ms, j) == chain[j].keys;
    ghost var first := RetirementIsFound(ms, root, i, k);
    at := i + 1;
    while k !in chain[at].keys || chain[at].keys[k].state == Active
      invariant i < at <= first
      decreases first - at
    {
      assert at != first;
      at := at + 1;
    }
  }

  /** Judges a proof against the manifest `i` that it names as its issuance manifest. */
  method CheckSupport(chain: seq<Authenticated>, i: nat, a: Attestation, algorithm: string, fingerprint: string,
                      ghost root: string)
    returns (r: Result<(), AttestationError>)
    requires Accepted(Payloads(chain), root) && i < |chain|
    requires forall j :: 0 <= j < |chain| ==> chain[j].keys == KeyTable(chain[j].payload.entries)
    requires chain[i].payload.generation == a.generation && Sha256(chain[i].payload) == a.digest
    ensures r.Ok? <==> Supports(Payloads(chain), i, a, algorithm, fingerprint)
  {
    hide KeyTable, Accepted;
    ghost var ms := Payloads(chain);
    assert forall j :: 0 <= j < |ms| ==> ms[j] == chain[j].payload && KeysAt(ms, j) == chain[j].keys;
    if a.key !in chain[i].keys || chain[i].keys[a.key].state != Active {
      return Err(NotActiveAtIssuance);
    }
    var current := chain[|chain| - 1];
    KeysAge(ms, root, i, |ms| - 1, a.key);
    if current.keys[a.key].state == Revoked {
      return Err(RevokedOrUnknown);
    }
    if a.algorithm != algorithm || chain[i].keys[a.key].algorithm != algorithm
       || a.fingerprint != fingerprint || chain[i].keys[a.key].fingerprint != fingerprint {
      return Err(KeyMismatch);
    }
    if a.issuedAt < chain[i].payload.issuedAt {
      return Err(PredatesManifest);
    }
    if current.keys[a.key].state == Retiring {
      var at := FindRetirement(chain, i, a.key, root);
      assert FirstRetirement(ms, i, a.key, at);
      if a.issuedAt >= chain[at].payload.issuedAt {
        return Err(AfterRetirement);
      }
    } else {
      forall at: nat | FirstRetirement(ms, i, a.key, at) ensures false {
        KeysAge(ms, root, at, |ms| - 1, a.key);
      }
    }
    return Ok(());
  }

  /** The key-state part of attestation verification over an authenticated chain. */
  method VerifyAttestation(chain: seq<Authenticated>, a: Attestation, algorithm: string, fingerprint: string,
                           now: int, ghost root: string)
    returns (r: Result<(), AttestationError>)
    requires Accepted(Payloads(chain), root)
    requires forall i :: 0 <= i < |chain| ==> chain[i].keys == KeyTable(chain[i].payload.entries)
    ensures r.Ok? <==> Acceptable(Payloads(chain), a, algorithm, fingerprint, now)
  {
    hide KeyTable, Accepted, FirstRetirement;
    ghost var ms := Payloads(chain);
    if a.issuedAt > now || now >= a.expiresAt {
      return Err(NotCurrent);
    }
    AcceptedGenerations(ms, root);
    if a.generation < 1 || a.generation > |chain| || Sha256(chain[a.generation - 1].payload) != a.digest {
      return Err(UnknownIssuance);
    }
    assert ms[a.generation - 1].generation == a.generation;
    r := CheckSupport(chain, a.generation - 1, a, algorithm, fingerprint, root);
    if r.Ok? && !a.verifies {
      return Err(InvalidSignature);
    }
  }
}

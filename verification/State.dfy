/**
 Caller-owned durable state (src/state/mod.rs): revisions, pending output, bounded commits,
 and the old-or-new contract of the coupled state and custody backend.
 */
module State {
  import opened Errors
  import opened Integers
  import opened Octets
  import opened Symbolic

  const MAX_PENDING_PAYLOAD_BYTES := 524_288
  const MAX_PENDING_PLAINTEXT_BYTES := 524_224

  // ---- Custody ----

  datatype Purpose = X25519Private | MlKem768Private | MlKemEntropy

  datatype Lifecycle = Staged | Adopted

  datatype KeyRecord = KeyRecord(purpose: Purpose, lifecycle: Lifecycle)

  type Custody = map<Token, KeyRecord>

  /** The source's five mutations, indexed by purpose. */
  datatype KeyMutation = Adopt(purpose: Purpose, token: Token) | Delete(purpose: Purpose, token: Token)

  /** Adoption takes a staged key, deletion an adopted one, and the purpose has to match. */
  predicate MutationValid(keys: Custody, m: KeyMutation) {
    m.token in keys && keys[m.token] == KeyRecord(m.purpose, if m.Adopt? then Staged else Adopted)
  }

  predicate MutationsValid(keys: Custody, ms: seq<KeyMutation>) {
    forall m | m in ms :: MutationValid(keys, m)
  }

  function ApplyMutation(keys: Custody, m: KeyMutation): Custody {
    if m.Adopt? then keys[m.token := KeyRecord(m.purpose, Adopted)] else keys - {m.token}
  }

  function ApplyMutations(keys: Custody, ms: seq<KeyMutation>): Custody {
    if ms == [] then keys else ApplyMutation(ApplyMutations(keys, ms[..|ms| - 1]), ms[|ms| - 1])
  }

  predicate DistinctTokens(ms: seq<KeyMutation>) {
    forall i, j | 0 <= i < j < |ms| :: ms[i].token != ms[j].token
  }

  /** What a key becomes under a set of valid mutations of distinct tokens. */
  function Fate(keys: Custody, ms: seq<KeyMutation>, token: Token): Option<KeyRecord> {
    if token !in keys || Delete(keys[token].purpose, token) in ms then None
    else if Adopt(keys[token].purpose, token) in ms then Some(KeyRecord(keys[token].purpose, Adopted))
    else Some(keys[token])
  }

  function Lookup(keys: Custody, token: Token): Option<KeyRecord> {
    if token in keys then Some(keys[token]) else None
  }

  /** Valid mutations of distinct tokens do just what each one says, in whatever order. */
  lemma {:induction false} MutationsTakeEffect(keys: Custody, ms: seq<KeyMutation>, token: Token)
    requires DistinctTokens(ms) && MutationsValid(keys, ms)
    ensures Lookup(ApplyMutations(keys, ms), token) == Fate(keys, ms, token)
  {
    if ms != [] {
      var front, last := ms[..|ms| - 1], ms[|ms| - 1];
      MutationsTakeEffect(keys, front, token);
      assert ms == front + [last];
      assert last in ms && forall m :: m in ms <==> m in front || m == last;
      assert forall m | m in front :: m.token != last.token by {
        forall m | m in front
          ensures m.token != last.token
        {
          var i :| 0 <= i < |front| && front[i] == m;
          assert ms[i] == m;
        }
      }
    }
  }

  // ---- Pending output ----

  /** Pending identifiers are truncated digests of the kind and the octets; here they keep both. */
  datatype PendingId =
    | RecordSend(packet: Packet)
    | RecordReceive(packet: Packet)
    | CapabilitySend(packet: Packet)
    | CapabilityEffect(effect: Bytes)

  datatype PendingKind = PacketOutput(packet: Packet) | EffectOutput(effect: Bytes) | PlaintextOutput(plaintext: Bytes)

  datatype PendingItem = PendingItem(id: PendingId, kind: PendingKind)

  predicate DistinctIds(items: seq<PendingItem>) {
    forall i, j | 0 <= i < j < |items| :: items[i].id != items[j].id
  }

  // ---- Snapshots and commits ----

  datatype Versioned<S> = Versioned(revision: nat, state: S, pending: seq<PendingItem>)

  datatype Commit<S> = Commit(nextState: S, keyMutations: seq<KeyMutation>, pending: seq<PendingItem>)

  function Successor(revision: nat): Result<nat> {
    if revision >= MAX_SAFE_INTEGER then Err(Terminal(BoundExceeded, Stage.Commit)) else Ok(revision + 1)
  }

  function BoundedCommit<S>(
    nextState: S, keyMutations: seq<KeyMutation>, pending: seq<PendingItem>, maximumMutations: nat, maximumPending: nat)
    : Result<Commit<S>>
  {
    if |keyMutations| > maximumMutations || |pending| > maximumPending
       || !DistinctIds(pending) || !DistinctTokens(keyMutations)
    then Err(Invalid(BoundExceeded))
    else Ok(Commit.Commit(nextState, keyMutations, pending))
  }

  /** `Commit::bounded` as it runs: one set collects the identifiers seen, another the tokens. */
  method RunBounded<S>(
    nextState: S, keyMutations: seq<KeyMutation>, pending: seq<PendingItem>, maximumMutations: nat, maximumPending: nat)
    returns (r: Result<Commit<S>>)
    ensures r == BoundedCommit(nextState, keyMutations, pending, maximumMutations, maximumPending)
  {
    if |keyMutations| > maximumMutations || |pending| > maximumPending {
      return Err(Invalid(BoundExceeded));
    }
    var pendingIds: set<PendingId> := {};
    for i := 0 to |pending|
      invariant DistinctIds(pending[..i])
      invariant forall id :: id in pendingIds <==> exists k | 0 <= k < i :: pending[k].id == id
    {
      if pending[i].id in pendingIds {
        var k :| 0 <= k < i && pending[k].id == pending[i].id;
        assert !DistinctIds(pending);
        return Err(Invalid(BoundExceeded));
      }
      pendingIds := pendingIds + {pending[i].id};
    }
    assert pending[..|pending|] == pending;
    var mutationTokens: set<Token> := {};
    for i := 0 to |keyMutations|
      invariant DistinctTokens(keyMutations[..i])
      invariant forall token :: token in mutationTokens <==> exists k | 0 <= k < i :: keyMutations[k].token == token
    {
      if keyMutations[i].token in mutationTokens {
        var k :| 0 <= k < i && keyMutations[k].token == keyMutations[i].token;
        assert !DistinctTokens(keyMutations);
        return Err(Invalid(BoundExceeded));
      }
      mutationTokens := mutationTokens + {keyMutations[i].token};
    }
    assert keyMutations[..|keyMutations|] == keyMutations;
    return Ok(Commit.Commit(nextState, keyMutations, pending));
  }

  // ---- The contract of the atomic backend ----

  /** What a compare-and-swap may do: apply the whole commit at the expected revision, or nothing. */
  predicate Applicable<S>(value: Versioned<S>, keys: Custody, expected: nat, commit: Commit<S>) {
    && value.revision == expected && Successor(expected).Ok?
    && MutationsValid(keys, commit.keyMutations)
  }

  function IntoVersioned<S>(commit: Commit<S>, expected: nat): Versioned<S> {
    Versioned(expected + 1, commit.nextState, commit.pending)
  }

  function WithoutId(items: seq<PendingItem>, id: PendingId): (rest: seq<PendingItem>)
    ensures |rest| <= |items|
  {
    if items == [] then []
    else if items[0].id == id then items[1..]
    else [items[0]] + WithoutId(items[1..], id)
  }

  function Find(items: seq<PendingItem>, id: PendingId): Option<PendingItem> {
    if items == [] then None else if items[0].id == id then Some(items[0]) else Find(items[1..], id)
  }

  lemma {:induction false} WithoutIdKeepsOrder(items: seq<PendingItem>, id: PendingId)
    ensures forall item | item in WithoutId(items, id) :: item in items
    ensures DistinctIds(items) ==> DistinctIds(WithoutId(items, id))
  {
    if items != [] && items[0].id != id {
      WithoutIdKeepsOrder(items[1..], id);
      var rest := WithoutId(items[1..], id);
      if DistinctIds(items) {
        forall j | 0 <= j < |rest|
          ensures rest[j].id != items[0].id
        {
          assert rest[j] in items[1..];
        }
      }
    }
  }
}

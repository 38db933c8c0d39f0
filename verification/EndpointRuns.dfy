/**
 Every run of one Endpoint over its coupled state and custody backend. A backend keeps,
 besides the snapshot and the keys, the history that the theorems speak of. Moves are what
 can happen to it: keys are issued and aborted, an operation's commit is applied, a pending
 item is handed to the caller's boundary or settled. Own work, rival writers, restarts and
 lost replies are all just moves, since an operation that fails leaves no trace.
 */
module EndpointRuns {
  import opened Errors
  import opened Integers
  import opened Symbolic
  import opened State
  import opened Handshake
  import opened Ratchet
  import opened Endpoint

  datatype Author = Own | Rival

  /** `history[r]` is the snapshot at revision `r`, and `authors[r]` is who moved on from it. */
  datatype Backend = Backend(
    history: seq<Snapshot>,
    authors: seq<Author>,
    keys: Custody,
    issued: set<Token>,
    adopted: set<Token>,
    aborted: set<Token>,
    handed: set<PendingItem>)

  datatype Move =
    | Issue(token: Token, purpose: Purpose)
    | Abort(token: Token, purpose: Purpose)
    | Perform(author: Author, seen: Custody, op: Operation)
    | Settle(author: Author, id: PendingId)
    | HandOver(revision: nat, item: PendingItem)

  predicate Fits(b: Backend) {
    |b.history| >= 1
  }

  function Current(b: Backend): Snapshot
    requires Fits(b)
  {
    b.history[|b.history| - 1]
  }

  function Start(phase: Phase): Backend {
    Backend([Versioned(0, phase, [])], [], map[], {}, {}, {}, {})
  }

  predicate IsInitial(phase: Phase) {
    phase == InitiatorNew || phase == ResponderReady(0, map[])
  }

  function AdoptedBy(ms: seq<KeyMutation>): set<Token> {
    set m | m in ms && m.Adopt? :: m.token
  }

  /** The backend with a commit applied at its current revision. */
  function Apply(b: Backend, author: Author, commit: Commit<Phase>): (r: Backend)
    requires Fits(b)
    ensures Fits(r)
  {
    b.(history := b.history + [IntoVersioned(commit, Current(b).revision)],
       authors := b.authors + [author],
       keys := ApplyMutations(b.keys, commit.keyMutations),
       adopted := b.adopted + AdoptedBy(commit.keyMutations))
  }

  /** The commit an operation makes when planned on the current snapshot, if the backend can apply it. */
  function Effective(line: LineIds, b: Backend, seen: Custody, op: Operation): Option<Commit<Phase>>
    requires Fits(b)
  {
    match Plan(line, seen, Current(b), op)
    case Err(_) => None
    case Ok(Answer(_)) => None
    case Ok(Change(next, mutations, queue, reply)) =>
      var commit := CommitOf(Change(next, mutations, queue, reply));
      if commit.Ok? && Applicable(Current(b), b.keys, Current(b).revision, commit.value) then Some(commit.value) else None
  }

  function AfterSettling(b: Backend, author: Author, id: PendingId): (r: Backend)
    requires Fits(b)
    ensures Fits(r)
  {
    var s := Current(b);
    if Find(s.pending, id).Some? && Successor(s.revision).Ok?
    then b.(history := b.history + [Versioned(s.revision + 1, s.state, WithoutId(s.pending, id))],
            authors := b.authors + [author])
    else b
  }

  function AfterAborting(b: Backend, token: Token, purpose: Purpose): Backend {
    if StagedAs(b.keys, token, purpose) then b.(keys := b.keys - {token}, aborted := b.aborted + {token}) else b
  }

  /** One move. A move that is not possible changes nothing. */
  function Step(line: LineIds, b: Backend, move: Move): (r: Backend)
    requires Fits(b)
    ensures Fits(r)
  {
    match move
    case Issue(token, purpose) =>
      if token in b.issued then b
      else b.(keys := b.keys[token := KeyRecord(purpose, if purpose.MlKemEntropy? then Adopted else Staged)],
              issued := b.issued + {token})
    case Abort(token, purpose) => AfterAborting(b, token, purpose)
    case Perform(author, seen, op) => (
      match Effective(line, b, seen, op)
      case None => b
      case Some(commit) => Apply(b, author, commit)
    )
    case Settle(author, id) => AfterSettling(b, author, id)
    case HandOver(revision, item) =>
      if revision < |b.history| && item in b.history[revision].pending then b.(handed := b.handed + {item}) else b
  }

  function Run(line: LineIds, b: Backend, moves: seq<Move>): (r: Backend)
    requires Fits(b)
    ensures Fits(r)
    decreases |moves|
  {
    if moves == [] then b else Run(line, Step(line, b, moves[0]), moves[1..])
  }

  // ---- The invariant ----

  /** The phase reaches an adopted private key of the given purpose. */
  predicate Reaches(phase: Phase, token: Token, purpose: Purpose) {
    match phase
    case ResponderReady(_, active) =>
      exists pair | pair in active ::
        || (purpose.X25519Private? && active[pair].x25519Private == token)
        || (purpose.MlKem768Private? && active[pair].mlKemPrivate == token)
    case InitiatorAwaiting(_, _, _, _, ratchet) => purpose.X25519Private? && ratchet.localPrivate == token
    case Established(session, _, _, _, _) => purpose.X25519Private? && session.localPrivate == token
    case _ => false
  }

  /** Custody holds exactly the adopted handles that the stored phase reaches. */
  ghost predicate CustodyInv(phase: Phase, keys: Custody) {
    forall token: Token, purpose: Purpose | !purpose.MlKemEntropy? ::
      AdoptedAs(keys, token, purpose) <==> Reaches(phase, token, purpose)
  }

  /** Every issued handle has one fate at most: staged, adopted or aborted. */
  predicate FatesInv(b: Backend) {
    && b.keys.Keys <= b.issued && b.adopted <= b.issued && b.aborted <= b.issued
    && b.adopted !! b.aborted
    && (forall token | token in b.keys && b.keys[token].lifecycle.Staged? :: token !in b.adopted)
    && (forall token | token in b.keys :: token !in b.aborted)
    && (forall token | token in b.keys && b.keys[token].lifecycle.Adopted? && !b.keys[token].purpose.MlKemEntropy? ::
          token in b.adopted)
  }

  predicate PrekeyInv(line: LineIds, pair: nat, highWater: nat, prekey: ActivePrekey) {
    var fields := prekey.bundle.fields;
    && 1 <= pair <= highWater
    && PrekeyShape(fields) && fields.line == line && fields.pairSequence == pair
    && fields.x25519Public == PublicOf(prekey.x25519Private) && fields.mlKemPublic == prekey.mlKemPrivate
  }

  predicate DistinctPrekeys(active: map<nat, ActivePrekey>) {
    forall pair, other | pair in active && other in active && pair != other ::
      && active[pair].x25519Private != active[other].x25519Private
      && active[pair].mlKemPrivate != active[other].mlKemPrivate
  }

  /** What an awaiting initiator remembers is what its first packet says. */
  predicate AwaitingInv(line: LineIds, p: Phase)
    requires p.InitiatorAwaiting?
  {
    var offer, fields := p.firstPacket.offer, p.firstPacket.prekey.fields;
    && p.transcript == Transcript(p.firstPacket)
    && p.context == ContextOf(line, p.firstPacket)
    && fields.x25519Public.PublicOf? && offer.mlKemCiphertext.decapsulator == fields.mlKemPublic
    && offer.x25519Public == PublicOf(p.ratchet.localPrivate)
    && p.hybrid == HybridOf(Agree(p.ratchet.localPrivate, fields.x25519Public.token),
                            Encapsulated(offer.mlKemCiphertext), offer, fields)
    && p.firstPacket.confirmation == Confirmation(p.hybrid)
    && p.ratchet == InitiatorState(p.hybrid, p.context, p.ratchet.localPrivate, offer.x25519Public, fields.x25519Public)
  }

  predicate PhaseInv(line: LineIds, phase: Phase) {
    match phase
    case ResponderReady(highWater, active) =>
      && highWater <= MAX_SAFE_INTEGER && |active| <= MAX_ACTIVE_PREKEY_PAIRS
      && DistinctPrekeys(active)
      && forall pair | pair in active :: PrekeyInv(line, pair, highWater, active[pair])
    case InitiatorAwaiting(_, _, _, _, _) => AwaitingInv(line, phase)
    case Established(session, replayDigest, retryAccept, _, _) =>
      && session.localPublic == PublicOf(session.localPrivate)
      && (replayDigest.Some? <==> retryAccept.Some?)
      && (retryAccept.Some? ==> replayDigest == Some(retryAccept.value.fields.transcript))
    case _ => true
  }

  /** An item waits under an identifier of its own kind. */
  predicate NamedByKind(item: PendingItem) {
    match item.id
    case RecordSend(packet) => item.kind == PacketOutput(packet)
    case CapabilitySend(packet) => item.kind == PacketOutput(packet)
    case RecordReceive(_) => item.kind.PlaintextOutput?
    case CapabilityEffect(effect) => item.kind == EffectOutput(effect)
  }

  /** At most one packet and one plaintext wait, under distinct identifiers of their kinds, sixteen items in all. */
  predicate QueueInv(queue: seq<PendingItem>) {
    && |queue| <= MAX_ENDPOINT_PENDING && DistinctIds(queue)
    && (forall item | item in queue :: NamedByKind(item))
    && (forall item, other | item in queue && other in queue && item.kind.PacketOutput? && other.kind.PacketOutput? ::
          item == other)
    && (forall item, other | item in queue && other in queue && item.kind.PlaintextOutput? && other.kind.PlaintextOutput? ::
          item == other)
  }

  /** A packet was committed to the pending queue of some snapshot. */
  predicate Committed(history: seq<Snapshot>, packet: Packet) {
    exists r, item | 0 <= r < |history| && item in history[r].pending :: item.kind == PacketOutput(packet)
  }

  predicate SameCoordinate(x: Packet, y: Packet) {
    x.header.dh == y.header.dh && x.header.n == y.header.n
  }

  /** Committed packets belong to adopted keys, lie below the session's counter, and never share a coordinate. */
  ghost predicate PacketsInv(b: Backend)
    requires Fits(b)
  {
    && (forall packet | Committed(b.history, packet) ::
          && packet.header.dh.PublicOf? && packet.header.dh.token in b.adopted
          && (Current(b).state.Established? || Current(b).state.Closed?)
          && (Current(b).state.Established? && packet.header.dh == Current(b).state.session.localPublic ==>
                packet.header.n < Current(b).state.session.ns))
    && (forall x, y | Committed(b.history, x) && Committed(b.history, y) && SameCoordinate(x, y) :: x == y)
  }

  /** What one later snapshot of an Endpoint may be, seen from an earlier one. */
  predicate Follows(earlier: Phase, later: Phase) {
    match earlier
    case InitiatorNew => !later.ResponderReady? && HighWaterOf(later) == None
    case InitiatorAwaiting(_, _, _, _, _) =>
      later == earlier || ((later.Established? || later.Closed?) && HighWaterOf(later) == None)
    case ResponderReady(highWater, active) =>
      && HighWaterOf(later).Some? && highWater <= HighWaterOf(later).value
      && (later.ResponderReady? ==>
            && (forall pair | pair in active :: pair in later.active && later.active[pair] == active[pair])
            && (forall pair | pair in later.active && pair !in active :: highWater < pair))
    case Established(_, replayDigest, retryAccept, highWater, capabilities) =>
      || later == Closed(highWater)
      || (&& later.Established? && later.replayDigest == replayDigest && later.retryAccept == retryAccept
          && later.prekeyHighWater == highWater && (capabilities.Some? ==> later.capabilities.Some?))
    case Closed(_) => later == earlier
  }

  function HighWaterOf(phase: Phase): Option<nat> {
    match phase
    case ResponderReady(highWater, _) => Some(highWater)
    case Established(_, _, _, highWater, _) => highWater
    case Closed(highWater) => highWater
    case _ => None
  }

  ghost predicate HistoryInv(b: Backend) {
    && Fits(b) && |b.authors| == |b.history| - 1 <= MAX_SAFE_INTEGER
    && (forall r | 0 <= r < |b.history| :: b.history[r].revision == r && QueueInv(b.history[r].pending))
    && (forall r, s | 0 <= r <= s < |b.history| :: Follows(b.history[r].state, b.history[s].state))
    && (forall item | item in b.handed :: exists r | 0 <= r < |b.history| :: item in b.history[r].pending)
  }

  /** Every handle that any snapshot ever reached had been adopted. */
  ghost predicate ReachedInv(b: Backend) {
    forall r, token, purpose | 0 <= r < |b.history| && Reaches(b.history[r].state, token, purpose) :: token in b.adopted
  }

  /** Nothing is ever pending before a session is established. */
  predicate QuietInv(b: Backend)
    requires Fits(b)
  {
    Current(b).state.Established? || Current(b).state.Closed? || forall r | 0 <= r < |b.history| :: b.history[r].pending == []
  }

  ghost predicate Inv(line: LineIds, b: Backend) {
    && HistoryInv(b)
    && QuietInv(b)
    && ReachedInv(b)
    && PhaseInv(line, Current(b).state)
    && CustodyInv(Current(b).state, b.keys)
    && FatesInv(b)
    && PacketsInv(b)
  }
}

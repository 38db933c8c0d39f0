/**
 Two ratchets and a network that loses, reorders, duplicates and tampers. A world keeps,
 besides the two states, the history that the theorems speak of: the DH epochs in the
 order they were opened, every packet either side ever produced, and every coordinate
 either side ever accepted.

 Epoch 1 is the initiator's first sending chain, epoch 2 the responder's, and so on in
 turn. Epoch 0 stands for the responder's prekey, under which nothing is ever sent.
 */
module RatchetRuns {
  import opened Errors
  import opened Integers
  import opened Octets
  import opened Symbolic
  import opened Ratchet

  datatype Party = Initiator | Responder {
    function Peer(): Party {
      if Initiator? then Responder else Initiator
    }
  }

  datatype Session = Session(hybrid: HybridInputs, context: Digest)

  datatype Epoch = Epoch(key: Token, plaintexts: seq<Bytes>)

  datatype Sent = Sent(party: Party, packet: Packet)

  datatype Accepted = Accepted(party: Party, coordinate: Coordinate)

  datatype World = World(
    session: Session,
    initiator: RatchetState,
    responder: RatchetState,
    epochs: seq<Epoch>,
    network: set<Sent>,
    accepted: set<Accepted>)
  {
    function State(p: Party): RatchetState {
      if p.Initiator? then initiator else responder
    }

    function With(p: Party, state: RatchetState): World {
      if p.Initiator? then this.(initiator := state) else this.(responder := state)
    }
  }

  datatype Action =
    | SendAction(party: Party, plaintext: Bytes)
    | BootstrapAction(custody: set<Token>, staged: Token)
    | DeliverAction(to: Party, custody: set<Token>, packet: Packet, offered: Option<Token>)

  function Start(session: Session, initiatorKey: Token, prekey: Token): World {
    World(
      session,
      InitiatorState(session.hybrid, session.context, initiatorKey, PublicOf(initiatorKey), PublicOf(prekey)),
      ResponderState(session.hybrid, session.context, prekey, PublicOf(prekey), PublicOf(initiatorKey)),
      [Epoch(prekey, []), Epoch(initiatorKey, [])], {}, {})
  }

  predicate Owns(p: Party, epoch: nat) {
    p.Initiator? <==> epoch % 2 == 1
  }

  /** The epoch in which `p` sends: the latest one it opened. */
  function SendEpoch(e: seq<Epoch>, p: Party): (k: nat)
    requires |e| >= 2
    ensures k < |e| && Owns(p, k)
  {
    if Owns(p, |e| - 1) then |e| - 1 else |e| - 2
  }

  function AppendPlaintext(e: seq<Epoch>, j: nat, plaintext: Bytes): seq<Epoch>
    requires j < |e|
  {
    e[j := e[j].(plaintexts := e[j].plaintexts + [plaintext])]
  }

  /** One step. An operation that reports an error leaves the world as it is. */
  function Step(w: World, a: Action): World
    requires |w.epochs| >= 2
  {
    match a
    case SendAction(party, plaintext) => (
      match Send(w.State(party), plaintext)
      case Err(_) => w
      case Ok((next, packet)) =>
        w.With(party, next).(
          epochs := AppendPlaintext(w.epochs, SendEpoch(w.epochs, party), plaintext),
          network := w.network + {Sent(party, packet)})
    )
    case BootstrapAction(custody, staged) => (
      match BootstrapResponder(w.responder, custody, staged)
      case Err(_) => w
      case Ok(next) => w.(responder := next, epochs := w.epochs + [Epoch(staged, [])])
    )
    case DeliverAction(to, custody, packet, offered) => (
      match Receive(w.State(to), custody, packet, offered)
      case Err(_) => w
      case Ok((next, plaintext)) =>
        w.With(to, next).(
          epochs := if next.localPrivate == w.State(to).localPrivate then w.epochs
                    else w.epochs + [Epoch(next.localPrivate, [])],
          accepted := w.accepted + {Accepted(to, Coordinate(packet.header.dh, packet.header.n))})
    )
  }

  predicate Unused(e: seq<Epoch>, token: Token) {
    forall j | 0 <= j < |e| :: e[j].key != token
  }

  /** The key was derived, however indirectly, from the session's hybrid secret. */
  predicate Descends(secret: Secret, hybrid: HybridInputs) {
    match secret
    case HybridKey(_, inputs) => inputs == hybrid
    case Expanded(key, _, _) => Descends(key, hybrid)
    case Extracted(salt, _, _, _) => Descends(salt, hybrid)
  }

  /**
   What the network can put behind any header: octets that are no ciphertext, the body of
   any packet either side ever produced, or a box under a key it knows, which is never one
   derived from the session secret.
   */
  ghost predicate Injectable(w: World, body: Body) {
    || body.Noise?
    || (exists sent :: sent in w.network && sent.packet.body == body)
    || !Descends(body.key, w.session.hybrid)
  }

  ghost predicate Admissible(w: World, a: Action) {
    match a
    case SendAction(_, _) => true
    case BootstrapAction(_, staged) => Unused(w.epochs, staged)
    case DeliverAction(_, _, packet, offered) =>
      (offered.Some? ==> Unused(w.epochs, offered.value)) && Injectable(w, packet.body)
  }

  function Run(w: World, actions: seq<Action>): (r: World)
    requires |w.epochs| >= 2
    ensures |r.epochs| >= 2
    decreases |actions|
  {
    if actions == [] then w else Run(Step(w, actions[0]), actions[1..])
  }

  ghost predicate AdmissibleRun(w: World, actions: seq<Action>)
    requires |w.epochs| >= 2
    decreases |actions|
  {
    actions != [] ==> Admissible(w, actions[0]) && AdmissibleRun(Step(w, actions[0]), actions[1..])
  }

  // ---- What the epochs determine ----

  /** The epoch whose key a header names, or -1. */
  function EpochOf(e: seq<Epoch>, dh: PublicKey): (j: int)
    ensures -1 <= j < |e|
    ensures j >= 0 ==> dh == PublicOf(e[j].key)
  {
    if e == [] then -1
    else if dh == PublicOf(e[|e| - 1].key) then |e| - 1
    else EpochOf(e[..|e| - 1], dh)
  }

  function EpochDirection(j: nat): Direction {
    if j % 2 == 1 then InitiatorToResponder else ResponderToInitiator
  }

  function RootTerm(s: Session, e: seq<Epoch>, j: nat): Secret
    requires 1 <= j < |e|
  {
    if j == 1 then InitialRootKey(s.hybrid, s.context)
    else DhStep(RootTerm(s, e, j - 1), Agree(e[j].key, e[j - 1].key), EpochDirection(j), s.context).root
  }

  function ChainTerm(s: Session, e: seq<Epoch>, j: nat): Secret
    requires 1 <= j < |e|
  {
    if j == 1 then InitialChainKey(s.hybrid, s.context)
    else DhStep(RootTerm(s, e, j - 1), Agree(e[j].key, e[j - 1].key), EpochDirection(j), s.context).chain
  }

  function EpochKeys(s: Session, e: seq<Epoch>, j: nat, n: nat): MessageKeys
    requires 1 <= j < |e|
  {
    KeysAt(ChainAt(ChainTerm(s, e, j), 0, n), n)
  }

  predicate EpochsOk(e: seq<Epoch>) {
    && |e| >= 2
    && e[0].plaintexts == []
    && (forall j | 0 <= j < |e| :: |e[j].plaintexts| <= MAX_U32)
    && (forall i, j | 0 <= i < j < |e| :: e[i].key != e[j].key)
  }

  /** How many records the owner of epoch `j` sent in its previous epoch. */
  function PreviousCount(e: seq<Epoch>, j: nat): u32
    requires EpochsOk(e) && j < |e|
  {
    if j >= 2 then |e[j - 2].plaintexts| else 0
  }

  /** The packet that carries plaintext `n` of epoch `j`. */
  function HonestPacket(s: Session, e: seq<Epoch>, j: nat, n: nat): Packet
    requires EpochsOk(e) && 1 <= j < |e| && n < |e[j].plaintexts|
  {
    var header := Header(PublicOf(e[j].key), PreviousCount(e, j), n);
    var keys := EpochKeys(s, e, j, n);
    Packet(header, Sealed(keys.key, keys.nonce, RecordAad(s.context, header), e[j].plaintexts[n]))
  }

  predicate IsHonest(s: Session, e: seq<Epoch>, sent: Sent)
    requires EpochsOk(e)
  {
    var j, n := EpochOf(e, sent.packet.header.dh), sent.packet.header.n;
    j >= 1 && n < |e[j].plaintexts| && Owns(sent.party, j) && sent.packet == HonestPacket(s, e, j, n)
  }

  // ---- The invariant ----

  /** The epoch whose packets `p` reads on its receiving chain; 0 before the initiator heard anything. */
  function ReceiveEpoch(e: seq<Epoch>, p: Party): (r: nat)
    requires |e| >= 2
    ensures r < |e|
  {
    var k := SendEpoch(e, p);
    if k == 0 then 1 else k - 1
  }

  /** The latest epoch whose root `p` holds. */
  function RootEpoch(e: seq<Epoch>, p: Party): (j: nat)
    requires |e| >= 2
    ensures 1 <= j < |e|
  {
    if SendEpoch(e, p) == 0 then 1 else SendEpoch(e, p)
  }

  ghost predicate FieldsInv(s: Session, e: seq<Epoch>, p: Party, st: RatchetState)
    requires EpochsOk(e)
  {
    var k, r := SendEpoch(e, p), ReceiveEpoch(e, p);
    && st.context == s.context
    && st.sendDirection == (if p.Initiator? then InitiatorToResponder else ResponderToInitiator)
    && st.localPrivate == e[k].key && st.localPublic == PublicOf(e[k].key)
    && st.peerPublic == PublicOf(e[r].key)
    && st.root == RootTerm(s, e, RootEpoch(e, p))
    && st.ns == |e[k].plaintexts|
    && st.pn == PreviousCount(e, k)
    && st.sending == (if k == 0 then None else Some(ChainAt(ChainTerm(s, e, k), 0, st.ns)))
    && st.nr <= |e[r].plaintexts|
    && st.receiving == (if r == 0 then None else Some(ChainAt(ChainTerm(s, e, r), 0, st.nr)))
  }

  /** Counters of epoch `j` below this have been delivered or stored by a receiver now in epoch `r`. */
  function Watermark(e: seq<Epoch>, r: nat, nr: nat, j: nat): nat
    requires j < |e|
  {
    if j == r then nr else |e[j].plaintexts|
  }

  predicate Below(e: seq<Epoch>, r: nat, nr: nat, c: Coordinate) {
    var j := EpochOf(e, c.dh);
    1 <= j <= r && (r - j) % 2 == 0 && c.n < Watermark(e, r, nr, j)
  }

  /**
   The skipped store holds exactly the coordinates below the watermarks that were not
   accepted, each with the keys its sender used; only such coordinates were ever accepted.
   */
  ghost predicate Exact(
    s: Session, e: seq<Epoch>, p: Party, r: nat, nr: nat, skipped: map<Coordinate, MessageKeys>, accepted: set<Accepted>)
    requires r < |e|
  {
    && (forall c: Coordinate :: c in skipped <==> Below(e, r, nr, c) && Accepted(p, c) !in accepted)
    && (forall c: Coordinate | c in skipped :: skipped[c] == EpochKeys(s, e, EpochOf(e, c.dh), c.n))
    && (forall c: Coordinate :: Accepted(p, c) in accepted ==> Below(e, r, nr, c))
  }

  ghost predicate StoreInv(s: Session, e: seq<Epoch>, p: Party, st: RatchetState, accepted: set<Accepted>)
    requires EpochsOk(e)
  {
    Exact(s, e, p, ReceiveEpoch(e, p), st.nr, st.skipped, accepted) && |st.skipped| <= MAX_SKIPPED_KEYS
  }

  ghost predicate NetworkInv(s: Session, e: seq<Epoch>, network: set<Sent>)
    requires EpochsOk(e)
  {
    forall sent :: sent in network <==> IsHonest(s, e, sent)
  }

  predicate PlaintextsFit(e: seq<Epoch>) {
    forall j, n | 0 <= j < |e| && 0 <= n < |e[j].plaintexts| :: |e[j].plaintexts[n]| <= MAX_PLAINTEXT_BYTES
  }

  ghost predicate Inv(w: World) {
    && EpochsOk(w.epochs)
    && PlaintextsFit(w.epochs)
    && NetworkInv(w.session, w.epochs, w.network)
    && forall p :: FieldsInv(w.session, w.epochs, p, w.State(p))
                && StoreInv(w.session, w.epochs, p, w.State(p), w.accepted)
  }
}

/**
 The Double Ratchet of src/protection/mod.rs: two parties' states, the responder's
 bootstrap, sending, and receiving with skipped message keys and DH transitions.
 */
module Ratchet {
  import opened Errors
  import opened Integers
  import opened Octets
  import opened Symbolic
  import Wire

  const MAX_SKIP_PER_RECORD := 256
  const MAX_SKIPPED_KEYS := 1024
  const MAX_PLAINTEXT_BYTES := 524_224
  const MAX_PROTECTED_PACKET_BYTES := 524_288

  datatype Coordinate = Coordinate(dh: PublicKey, n: nat)

  datatype MessageKeys = MessageKeys(key: Secret, nonce: Secret)

  datatype RatchetState = RatchetState(
    context: Digest,
    root: Secret,
    localPrivate: Token,
    localPublic: PublicKey,
    peerPublic: PublicKey,
    sending: Option<Secret>,
    receiving: Option<Secret>,
    sendDirection: Direction,
    pn: u32,
    ns: u32,
    nr: u32,
    skipped: map<Coordinate, MessageKeys>)

  // ---- Key schedule ----

  function InitialRootKey(hybrid: HybridInputs, context: Digest): Secret {
    Expanded(HybridKey(HybridRoot, hybrid), InitialRoot, OfContext(context))
  }

  function InitialChainKey(hybrid: HybridInputs, context: Digest): Secret {
    Expanded(HybridKey(HybridRoot, hybrid), ChainI2R, OfContext(context))
  }

  function RootDomain(direction: Direction): Domain {
    if direction.InitiatorToResponder? then RootI2R else RootR2I
  }

  function ChainDomain(direction: Direction): Domain {
    if direction.InitiatorToResponder? then ChainI2R else ChainR2I
  }

  datatype DhKeys = DhKeys(root: Secret, chain: Secret)

  function DhStep(root: Secret, shared: Shared, direction: Direction, context: Digest): DhKeys {
    DhKeys(
      Extracted(root, shared, RootDomain(direction), OfContext(context)),
      Extracted(root, shared, ChainDomain(direction), OfContext(context)))
  }

  function KeysAt(chain: Secret, number: nat): MessageKeys {
    MessageKeys(Expanded(chain, MessageKey, OfCounter(number)), Expanded(chain, Nonce, OfCounter(number)))
  }

  function Following(chain: Secret, number: nat): Secret {
    Expanded(chain, NextChain, OfCounter(number))
  }

  /** The chain key at counter `to`, starting from the one at counter `start`. */
  function ChainAt(chain: Secret, start: nat, to: nat): Secret
    requires start <= to
  {
    if start == to then chain else Following(ChainAt(chain, start, to - 1), to - 1)
  }

  /** `skipped` with the message keys of counters `start..to` of one chain added. */
  function Skip(skipped: map<Coordinate, MessageKeys>, dh: PublicKey, chain: Secret, start: nat, to: nat)
    : map<Coordinate, MessageKeys>
    requires start <= to
  {
    if start == to then skipped
    else Skip(skipped, dh, chain, start, to - 1)
      [Coordinate(dh, to - 1) := KeysAt(ChainAt(chain, start, to - 1), to - 1)]
  }

  function Open(keys: MessageKeys, aad: AssociatedData, body: Body): Result<Bytes> {
    if body.Sealed? && body.key == keys.key && body.nonce == keys.nonce && body.aad == aad then Ok(body.plaintext)
    else Err(Invalid(RecordAuthentication))
  }

  // ---- Custody ----

  /** Custody answers for the tokens in `custody` and refuses points that contribute nothing. */
  function X25519(custody: set<Token>, token: Token, peer: PublicKey): Result<Shared> {
    if token in custody && peer.PublicOf? then Ok(Agree(token, peer.token)) else Err(Invalid(RecordAuthentication))
  }

  function X25519Public(custody: set<Token>, token: Token): Result<PublicKey> {
    if token in custody then Ok(PublicOf(token)) else Err(Invalid(RecordAuthentication))
  }

  // ---- Construction, bootstrap and sending ----

  function InitiatorState(
    hybrid: HybridInputs, context: Digest, localPrivate: Token, localPublic: PublicKey, peerPublic: PublicKey): RatchetState
  {
    RatchetState(
      context, InitialRootKey(hybrid, context), localPrivate, localPublic, peerPublic,
      Some(InitialChainKey(hybrid, context)), None, InitiatorToResponder, 0, 0, 0, map[])
  }

  function ResponderState(
    hybrid: HybridInputs, context: Digest, localPrivate: Token, localPublic: PublicKey, peerPublic: PublicKey): RatchetState
  {
    RatchetState(
      context, InitialRootKey(hybrid, context), localPrivate, localPublic, peerPublic,
      None, Some(InitialChainKey(hybrid, context)), ResponderToInitiator, 0, 0, 0, map[])
  }

  function BootstrapResponder(state: RatchetState, custody: set<Token>, staged: Token): Result<RatchetState> {
    if state.sending.Some? || !state.sendDirection.ResponderToInitiator? then Err(Invalid(InvalidTransition))
    else
      var stagedPublic :- X25519Public(custody, staged);
      var shared :- X25519(custody, staged, state.peerPublic);
      var keys := DhStep(state.root, shared, state.sendDirection, state.context);
      Ok(state.(root := keys.root, localPrivate := staged, localPublic := stagedPublic, sending := Some(keys.chain)))
  }

  /** The octets a header takes on the wire; Framing proves this of the header codec. */
  function HeaderLength(header: Header): nat {
    38 + Wire.HeadLength(header.pn) + Wire.HeadLength(header.n)
  }

  function PacketLength(packet: Packet): nat {
    HeaderLength(packet.header) + BodyLength(packet.body)
  }

  function Send(state: RatchetState, plaintext: Bytes): Result<(RatchetState, Packet)> {
    if |plaintext| > MAX_PLAINTEXT_BYTES then Err(Invalid(BoundExceeded))
    else if state.sending.None? then Err(Invalid(InvalidTransition))
    else if state.ns == MAX_U32 then Err(Invalid(CounterOverflow))
    else
      var chain := state.sending.value;
      var keys := KeysAt(chain, state.ns);
      var header := Header(state.localPublic, state.pn, state.ns);
      var packet := Packet(header, Sealed(keys.key, keys.nonce, RecordAad(state.context, header), plaintext));
      if PacketLength(packet) > MAX_PROTECTED_PACKET_BYTES then Err(Invalid(BoundExceeded))
      else Ok((state.(sending := Some(Following(chain, state.ns)), ns := state.ns + 1), packet))
  }

  /** An admissible plaintext always fits its packet: the second bound of `Send` never refuses. */
  lemma PlaintextBoundImpliesPacketBound(header: Header, body: Body)
    requires body.Sealed? && |body.plaintext| <= MAX_PLAINTEXT_BYTES
    ensures PacketLength(Packet(header, body)) <= MAX_PROTECTED_PACKET_BYTES
  {
  }

  // ---- Receiving ----

  function OverSkipBound(skipped: map<Coordinate, MessageKeys>, distance: nat): bool {
    distance > MAX_SKIP_PER_RECORD || |skipped| + distance > MAX_SKIPPED_KEYS
  }

  function ReceiveDhTransition(
    state: RatchetState, custody: set<Token>, header: Header, staged: Option<Token>): Result<RatchetState>
  {
    if header.pn < state.nr || header.pn - state.nr > MAX_SKIP_PER_RECORD then Err(Invalid(StaleRatchet))
    else if |state.skipped| + (header.pn - state.nr) > MAX_SKIPPED_KEYS then Err(Invalid(SkipBound))
    else if staged.None? then Err(Invalid(InvalidTransition))
    else
      var stagedPublic :- X25519Public(custody, staged.value);
      if header.pn != state.nr && state.receiving.None? then Err(Invalid(StaleRatchet))
      else
        var skipped :=
          if header.pn == state.nr then state.skipped
          else Skip(state.skipped, state.peerPublic, state.receiving.value, state.nr, header.pn);
        var incoming :- X25519(custody, state.localPrivate, header.dh);
        var received := DhStep(state.root, incoming, state.sendDirection.Opposite(), state.context);
        var outgoing :- X25519(custody, staged.value, header.dh);
        var sent := DhStep(received.root, outgoing, state.sendDirection, state.context);
        Ok(state.(
          root := sent.root, peerPublic := header.dh, localPrivate := staged.value, localPublic := stagedPublic,
          receiving := Some(received.chain), sending := Some(sent.chain),
          pn := state.ns, ns := 0, nr := 0, skipped := skipped))
  }

  /** Receiving on the current receiving chain: skip to the counter, open, and advance. */
  function ReceiveInChain(state: RatchetState, packet: Packet): Result<(RatchetState, Bytes)> {
    var header := packet.header;
    if header.n < state.nr then Err(Invalid(Replay))
    else if OverSkipBound(state.skipped, header.n - state.nr) then Err(Invalid(SkipBound))
    else if state.receiving.None? then Err(Invalid(StaleRatchet))
    else if header.n == MAX_U32 then Err(Invalid(CounterOverflow))
    else
      var chain := ChainAt(state.receiving.value, state.nr, header.n);
      var plaintext :- Open(KeysAt(chain, header.n), RecordAad(state.context, header), packet.body);
      Ok((state.(
            skipped := Skip(state.skipped, header.dh, state.receiving.value, state.nr, header.n),
            receiving := Some(Following(chain, header.n)), nr := header.n + 1),
          plaintext))
  }

  function Receive(
    state: RatchetState, custody: set<Token>, packet: Packet, staged: Option<Token>): Result<(RatchetState, Bytes)>
  {
    var coordinate := Coordinate(packet.header.dh, packet.header.n);
    if PacketLength(packet) > MAX_PROTECTED_PACKET_BYTES then Err(Invalid(BoundExceeded))
    else if coordinate in state.skipped then
      var plaintext :- Open(state.skipped[coordinate], RecordAad(state.context, packet.header), packet.body);
      Ok((state.(skipped := state.skipped - {coordinate}), plaintext))
    else if packet.header.dh == state.peerPublic then ReceiveInChain(state, packet)
    else
      var turned :- ReceiveDhTransition(state, custody, packet.header, staged);
      ReceiveInChain(turned, packet)
  }

  /** `Replay` is reported for, and only for, used counters of the peer's current chain. */
  lemma ReplayExactly(state: RatchetState, custody: set<Token>, packet: Packet, staged: Option<Token>)
    requires PacketLength(packet) <= MAX_PROTECTED_PACKET_BYTES
    ensures Receive(state, custody, packet, staged) == Err(Invalid(Replay)) <==>
            && packet.header.dh == state.peerPublic && packet.header.n < state.nr
            && Coordinate(packet.header.dh, packet.header.n) !in state.skipped
  {
  }

  /** A packet is refused for its length exactly if it takes more than 524288 octets, before anything else is looked at. */
  lemma OverlongPacketsExactly(state: RatchetState, custody: set<Token>, packet: Packet, staged: Option<Token>)
    ensures Receive(state, custody, packet, staged) == Err(Invalid(BoundExceeded)) <==>
            HeaderLength(packet.header)
            + (match packet.body case Sealed(_, _, _, plaintext) => |plaintext| + 16 case Noise(octets) => |octets|)
            > 524_288
  {
  }

  // ---- The two receiving operations as they run ----

  method SkipInto(
    skipped: map<Coordinate, MessageKeys>, dh: PublicKey, chain: Secret, start: u32, to: u32)
    returns (store: map<Coordinate, MessageKeys>, advanced: Secret)
    requires start <= to
    ensures store == Skip(skipped, dh, chain, start, to) && advanced == ChainAt(chain, start, to)
  {
    store, advanced := skipped, chain;
    for number := start to to
      invariant store == Skip(skipped, dh, chain, start, number) && advanced == ChainAt(chain, start, number)
    {
      store := store[Coordinate(dh, number) := KeysAt(advanced, number)];
      advanced := Following(advanced, number);
    }
  }

  method RunDhTransition(
    state: RatchetState, custody: set<Token>, header: Header, staged: Option<Token>) returns (r: Result<RatchetState>)
    ensures r == ReceiveDhTransition(state, custody, header, staged)
  {
    if header.pn < state.nr || header.pn - state.nr > MAX_SKIP_PER_RECORD {
      return Err(Invalid(StaleRatchet));
    }
    var previousDistance := header.pn - state.nr;
    if |state.skipped| + previousDistance > MAX_SKIPPED_KEYS {
      return Err(Invalid(SkipBound));
    }
    if staged.None? {
      return Err(Invalid(InvalidTransition));
    }
    var stagedPublic :- X25519Public(custody, staged.value);
    var next := state;
    if previousDistance != 0 {
      if state.receiving.None? {
        return Err(Invalid(StaleRatchet));
      }
      var store, _ := SkipInto(next.skipped, state.peerPublic, state.receiving.value, state.nr, header.pn);
      next := next.(skipped := store);
    }
    var incoming :- X25519(custody, state.localPrivate, header.dh);
    var received := DhStep(state.root, incoming, state.sendDirection.Opposite(), state.context);
    var outgoing :- X25519(custody, staged.value, header.dh);
    var sent := DhStep(received.root, outgoing, state.sendDirection, state.context);
    next := next.(root := sent.root);
    next := next.(peerPublic := header.dh);
    next := next.(localPrivate := staged.value, localPublic := stagedPublic);
    next := next.(receiving := Some(received.chain), sending := Some(sent.chain));
    next := next.(pn := state.ns, ns := 0, nr := 0);
    return Ok(next);
  }

  method RunReceive(
    state: RatchetState, custody: set<Token>, packet: Packet, staged: Option<Token>)
    returns (r: Result<(RatchetState, Bytes)>)
    ensures r == Receive(state, custody, packet, staged)
  {
    if PacketLength(packet) > MAX_PROTECTED_PACKET_BYTES {
      return Err(Invalid(BoundExceeded));
    }
    var header := packet.header;
    var coordinate := Coordinate(header.dh, header.n);
    if coordinate in state.skipped {
      var plaintext :- Open(state.skipped[coordinate], RecordAad(state.context, header), packet.body);
      return Ok((state.(skipped := state.skipped - {coordinate}), plaintext));
    }
    var tentative := state;
    if header.dh != tentative.peerPublic {
      tentative :- RunDhTransition(tentative, custody, header, staged);
    }
    if header.n < tentative.nr {
      // The source looks the coordinate up once more here; no turn happened, so it is still absent.
      if coordinate in tentative.skipped {
        assert false;
      }
      return Err(Invalid(Replay));
    }
    var distance := header.n - tentative.nr;
    if distance > MAX_SKIP_PER_RECORD || |tentative.skipped| + distance > MAX_SKIPPED_KEYS {
      return Err(Invalid(SkipBound));
    }
    if tentative.receiving.None? {
      return Err(Invalid(StaleRatchet));
    }
    var store, chain := SkipInto(tentative.skipped, header.dh, tentative.receiving.value, tentative.nr, header.n);
    tentative := tentative.(skipped := store);
    var keys, nextChain := KeysAt(chain, header.n), Following(chain, header.n);
    if header.n == MAX_U32 {
      return Err(Invalid(CounterOverflow));
    }
    var plaintext :- Open(keys, RecordAad(tentative.context, header), packet.body);
    tentative := tentative.(receiving := Some(nextChain), nr := header.n + 1);
    return Ok((tentative, plaintext));
  }
}

/**
 The two-role Endpoint of src/endpoint/mod.rs: its phases, and for every operation what
 it decides from one loaded snapshot: an error, an answer that changes nothing, or one
 commit of a next phase, key mutations and a pending queue.
 */
module Endpoint {
  import opened Errors
  import opened Integers
  import opened Octets
  import opened Symbolic
  import opened State
  import opened Handshake
  import opened Ratchet
  import Cbor

  const MAX_ACTIVE_PREKEY_PAIRS := 256
  const MAX_ENDPOINT_KEY_MUTATIONS := MAX_ACTIVE_PREKEY_PAIRS * 2
  const MAX_ENDPOINT_PENDING := 16

  datatype ActivePrekey = ActivePrekey(bundle: PrekeyBundle, x25519Private: Token, mlKemPrivate: Token)

  /** The capability reducers' state is one opaque value, except for the last message it took. */
  datatype Capabilities = Capabilities(runtime: nat, lastMessage: Option<nat>)

  datatype Phase =
    | InitiatorNew
    | InitiatorAwaiting(
        firstPacket: FirstPacket, transcript: Digest, context: Digest, hybrid: HybridInputs, ratchet: RatchetState)
    | ResponderReady(highWater: nat, active: map<nat, ActivePrekey>)
    | Established(
        session: RatchetState,
        replayDigest: Option<Digest>,
        retryAccept: Option<SessionAccept>,
        prekeyHighWater: Option<nat>,
        capabilities: Option<Capabilities>)
    | Closed(prekeyHighWater: Option<nat>)

  type Snapshot = Versioned<Phase>

  /**
   One complete capability flow. The governance, identity and message reducers run before
   the record is sealed and either refuse or yield the message's octets; the others run
   after it and either refuse or yield the next runtime and the effect.
   */
  datatype Flow = Flow(message: nat, before: Result<Bytes>, after: Result<FlowOutcome>)

  datatype FlowOutcome = FlowOutcome(runtime: nat, effect: Bytes)

  datatype Operation =
    | AdmitPrekey(
        identity: IdentityPublic, signing: SigningHandles, pairSequence: nat, x25519: Token, mlKem: Token,
        validFrom: nat, validUntil: nat)
    | AcceptFirstPacket(
        initiator: TrustedIdentity, responder: IdentityPublic, responderAuthority: Digest, packet: FirstPacket, now: nat)
    | CreateFirstPacket(
        local: IdentityPublic, peer: TrustedIdentity, initiatorAuthority: Digest, responderAuthority: Digest,
        signing: SigningHandles, prekey: PrekeyBundle, now: nat, x25519: Token, entropy: Token)
    | VerifySessionAccept(accept: SessionAccept)
    | SendRecord(plaintext: Bytes, bootstrap: Option<Token>)
    | ReceiveRecord(record: Packet, offered: Option<Token>)
    | BootstrapCapabilities(capabilities: Capabilities)
    | ApplyCapabilityFlow(flow: Flow)
    | DeleteSession

  datatype Reply =
    | BundleReply(bundle: PrekeyBundle)
    | AcceptReply(accept: SessionAccept)
    | FirstPacketReply(packet: FirstPacket)
    | PendingReply(id: PendingId)
    | ReceiptReply(record: Packet)
    | NoReply

  datatype Planned =
    | Answer(reply: Reply)
    | Change(next: Phase, mutations: seq<KeyMutation>, queue: seq<PendingItem>, reply: Reply)

  // ---- What custody answers ----

  predicate StagedAs(seen: Custody, token: Token, purpose: Purpose) {
    Lookup(seen, token) == Some(KeyRecord(purpose, Staged))
  }

  predicate AdoptedAs(seen: Custody, token: Token, purpose: Purpose) {
    Lookup(seen, token) == Some(KeyRecord(purpose, Adopted))
  }

  /** The X25519 tokens custody answers for when `staged` is looked up as staged and all others as adopted. */
  function Answering(seen: Custody, staged: Option<Token>): set<Token> {
    set token | token in seen
                && seen[token] == KeyRecord(X25519Private, if staged == Some(token) then Staged else Adopted)
  }

  /** As `Answering`, for an operation that also looks `local` up as adopted: no token is both. */
  function AnsweringApart(seen: Custody, local: Token, staged: Option<Token>): set<Token> {
    if staged == Some(local) then {} else Answering(seen, staged)
  }

  // ---- Responder ----

  function PlanAdmitPrekey(line: LineIds, seen: Custody, current: Snapshot, op: Operation): Result<Planned>
    requires op.AdmitPrekey?
  {
    if current.state.Closed? then Err(Invalid(ErrorCode.Deleted))
    else if op.validFrom >= op.validUntil || op.validUntil - op.validFrom > MAX_PREKEY_SPAN_SECONDS
            || op.validUntil > MAX_SAFE_INTEGER || op.pairSequence == 0 || op.pairSequence > MAX_SAFE_INTEGER
    then Err(Invalid(BoundExceeded))
    else if !SignsAs(op.identity, op.signing) then Err(Rejection())
    else if !current.state.ResponderReady? then Err(Invalid(InvalidTransition))
    else if op.pairSequence <= current.state.highWater || |current.state.active| >= MAX_ACTIVE_PREKEY_PAIRS
    then Err(Invalid(PrekeyConsumed))
    else if !StagedAs(seen, op.x25519, X25519Private) || !StagedAs(seen, op.mlKem, MlKem768Private)
    then Err(Terminal(ProviderFailure, Provider))
    else
      var fields := BundleFields(
        line, op.identity.stateDigest, op.identity.ed25519KeyId, op.identity.mlDsa65KeyId, op.pairSequence,
        PublicOf(op.x25519), op.mlKem, op.validFrom, op.validUntil);
      var bundle := PrekeyBundle(fields, Sign(op.signing, BundleStatement(fields)));
      var active := current.state.active[op.pairSequence := ActivePrekey(bundle, op.x25519, op.mlKem)];
      Ok(Change(
        ResponderReady(op.pairSequence, active),
        [Adopt(X25519Private, op.x25519), Adopt(MlKem768Private, op.mlKem)],
        current.pending, BundleReply(bundle)))
  }

  /** Deletions of every active ML-KEM key and of every active X25519 key but the spared pair's. */
  function Spent(active: map<nat, ActivePrekey>, pairs: seq<nat>, spared: nat): seq<KeyMutation>
    requires forall pair | pair in pairs :: pair in active
  {
    if pairs == [] then []
    else
      [Delete(MlKem768Private, active[pairs[0]].mlKemPrivate)]
      + (if pairs[0] == spared then [] else [Delete(X25519Private, active[pairs[0]].x25519Private)])
      + Spent(active, pairs[1..], spared)
  }

  function EstablishResponder(
    line: LineIds, prekey: ActivePrekey, responder: IdentityPublic, responderAuthority: Digest, packet: FirstPacket,
    x25519: Shared, highWater: nat): Result<Phase>
  {
    var hybrid := HybridOf(x25519, Decapsulate(prekey.mlKemPrivate, packet.offer.mlKemCiphertext),
                           packet.offer, packet.prekey.fields);
    if !Confirms(hybrid, packet.confirmation) then Err(Rejection())
    else
      var context := ContextOf(line, packet);
      var accept := MakeAccept(hybrid, AcceptFields(
        Transcript(packet), context, packet.offer.initiatorAuthority, responder.stateDigest, responderAuthority,
        packet.prekey.fields.pairSequence));
      Ok(Established(
        ResponderState(hybrid, context, prekey.x25519Private, prekey.bundle.fields.x25519Public, packet.offer.x25519Public),
        Some(Transcript(packet)), Some(accept), Some(highWater), None))
  }

  function PlanAcceptFirstPacket(line: LineIds, seen: Custody, current: Snapshot, op: Operation): Result<Planned>
    requires op.AcceptFirstPacket?
  {
    var packet := op.packet;
    if current.state.Closed? then Err(Invalid(ErrorCode.Deleted))
    else if !FirstPacketShape(packet) then Err(Rejection())
    else if op.initiator.protectionProfile != line.protectionProfile then Err(Rejection())
    else if current.state.Established? && current.state.replayDigest.Some? && current.state.retryAccept.Some? then
      if current.state.replayDigest.value == Transcript(packet) then Ok(Answer(AcceptReply(current.state.retryAccept.value)))
      else Err(Invalid(PrekeyConsumed))
    else if !current.state.ResponderReady? then Err(Invalid(InvalidTransition))
    else
      var active, pair := current.state.active, packet.prekey.fields.pairSequence;
      if pair !in active then Err(Invalid(PrekeyConsumed))
      else
        var prekey := active[pair];
        if || packet.prekey != prekey.bundle
           || packet.offer.line != line
           || packet.offer.responderIdentityState != op.responder.stateDigest
           || packet.offer.responderAuthority != op.responderAuthority
           || op.now < prekey.bundle.fields.validFrom || op.now >= prekey.bundle.fields.validUntil
           || pair > current.state.highWater
        then Err(Rejection())
        else if !VerifiesBundle(op.responder, packet.prekey) then Err(Rejection())
        else if !VerifiesInitiator(op.initiator.identity, packet) then Err(Rejection())
        else if !AdoptedAs(seen, prekey.x25519Private, X25519Private) || packet.offer.x25519Public.LowOrder?
        then Err(Rejection())
        else if !AdoptedAs(seen, prekey.mlKemPrivate, MlKem768Private) then Err(Rejection())
        else
          var next :- EstablishResponder(
            line, prekey, op.responder, op.responderAuthority, packet,
            Agree(prekey.x25519Private, packet.offer.x25519Public.token), current.state.highWater);
          Ok(Change(
            next, Spent(active, Cbor.SortedKeys(active.Keys), pair), current.pending,
            AcceptReply(next.retryAccept.value)))
  }

  // ---- Initiator ----

  function PlanCreateFirstPacket(line: LineIds, seen: Custody, current: Snapshot, op: Operation): Result<Planned>
    requires op.CreateFirstPacket?
  {
    var fields := op.prekey.fields;
    if current.state.Closed? then Err(Invalid(ErrorCode.Deleted))
    else if !PrekeyShape(fields) then Err(Rejection())
    else if op.peer.protectionProfile != line.protectionProfile then Err(Rejection())
    else if current.state.InitiatorAwaiting? then Ok(Answer(FirstPacketReply(current.state.firstPacket)))
    else if !current.state.InitiatorNew? || op.now < fields.validFrom || op.now >= fields.validUntil
            || fields.line != line
    then Err(Rejection())
    else if !SignsAs(op.local, op.signing) then Err(Rejection())
    else if !VerifiesBundle(op.peer.identity, op.prekey) then Err(Rejection())
    else if !AdoptedAs(seen, op.entropy, MlKemEntropy) then Err(Rejection())
    else if !StagedAs(seen, op.x25519, X25519Private) || fields.x25519Public.LowOrder? then Err(Rejection())
    else
      var ciphertext := Ciphertext(fields.mlKemPublic, op.entropy);
      var offer := Offer(
        line, IdsOf(op.local), op.initiatorAuthority, op.peer.identity.stateDigest, op.responderAuthority,
        PublicOf(op.x25519), ciphertext);
      var hybrid := HybridOf(Agree(op.x25519, fields.x25519Public.token), Encapsulated(ciphertext), offer, fields);
      var packet := FirstPacket(
        offer, op.prekey, Sign(op.signing, InitiatorStatement(CoreOf(offer, fields))), Confirmation(hybrid));
      var context := ContextOf(line, packet);
      var ratchet := InitiatorState(hybrid, context, op.x25519, PublicOf(op.x25519), fields.x25519Public);
      Ok(Change(
        InitiatorAwaiting(packet, Transcript(packet), context, hybrid, ratchet),
        [Adopt(X25519Private, op.x25519), Delete(MlKemEntropy, op.entropy)],
        current.pending, FirstPacketReply(packet)))
  }

  function PlanVerifySessionAccept(current: Snapshot, op: Operation): Result<Planned>
    requires op.VerifySessionAccept?
  {
    var fields := op.accept.fields;
    if current.state.Closed? then Err(Invalid(ErrorCode.Deleted))
    else if !current.state.InitiatorAwaiting? then Err(Invalid(InvalidTransition))
    else if || fields.transcript != current.state.transcript || fields.context != current.state.context
            || fields.initiatorAuthority != current.state.firstPacket.offer.initiatorAuthority
            || fields.responderAuthority != current.state.firstPacket.offer.responderAuthority
    then Err(Rejection())
    else if !VerifiesAccept(current.state.hybrid, op.accept) then Err(Rejection())
    else Ok(Change(Established(current.state.ratchet, None, None, None, None), [], current.pending, NoReply))
  }

  // ---- Records ----

  predicate HasPacket(queue: seq<PendingItem>) {
    exists item | item in queue :: item.kind.PacketOutput?
  }

  predicate HasPlaintext(queue: seq<PendingItem>) {
    exists item | item in queue :: item.kind.PlaintextOutput?
  }

  function PlanSendRecord(seen: Custody, current: Snapshot, op: Operation): Result<Planned>
    requires op.SendRecord?
  {
    if current.state.Closed? then Err(Invalid(ErrorCode.Deleted))
    else if !current.state.Established? then Err(Invalid(InvalidTransition))
    else if HasPacket(current.pending) then Err(Invalid(InvalidTransition))
    else
      var session := current.state.session;
      var ratchet :- if op.bootstrap.None? then Ok(session)
        else BootstrapResponder(session, Answering(seen, op.bootstrap), op.bootstrap.value);
      var (next, packet) :- Send(ratchet, op.plaintext);
      var mutations :=
        if op.bootstrap.None? then []
        else [Adopt(X25519Private, op.bootstrap.value), Delete(X25519Private, session.localPrivate)];
      var item := PendingItem(RecordSend(packet), PacketOutput(packet));
      Ok(Change(current.state.(session := next), mutations, current.pending + [item], PendingReply(item.id)))
  }

  function PlanReceiveRecord(seen: Custody, current: Snapshot, op: Operation): Result<Planned>
    requires op.ReceiveRecord?
  {
    if current.state.Closed? then Err(Invalid(ErrorCode.Deleted))
    else if !current.state.Established? then Err(Invalid(InvalidTransition))
    else if HasPlaintext(current.pending) then Err(Invalid(InvalidTransition))
    else
      var session := current.state.session;
      var (next, plaintext) :- Receive(
        session, AnsweringApart(seen, session.localPrivate, op.offered), op.record, op.offered);
      var rotated := next.localPrivate != session.localPrivate;
      if rotated && op.offered.None? then Err(Invalid(InvalidTransition))
      else if |plaintext| > MAX_PENDING_PLAINTEXT_BYTES then Err(Invalid(BoundExceeded))
      else
        var mutations :=
          if rotated then [Adopt(X25519Private, op.offered.value), Delete(X25519Private, session.localPrivate)] else [];
        var item := PendingItem(State.RecordReceive(op.record), PlaintextOutput(plaintext));
        Ok(Change(current.state.(session := next), mutations, current.pending + [item], PendingReply(item.id)))
  }

  // ---- Capabilities and deletion ----

  function PlanBootstrapCapabilities(current: Snapshot, op: Operation): Result<Planned>
    requires op.BootstrapCapabilities?
  {
    if current.state.Closed? then Err(Invalid(ErrorCode.Deleted))
    else if !current.state.Established? || current.state.capabilities.Some? then Err(Invalid(InvalidTransition))
    else Ok(Change(current.state.(capabilities := Some(op.capabilities)), [], current.pending, NoReply))
  }

  function PlanApplyCapabilityFlow(current: Snapshot, op: Operation): Result<Planned>
    requires op.ApplyCapabilityFlow?
  {
    if current.state.Closed? then Err(Invalid(ErrorCode.Deleted))
    else if !current.state.Established? || current.state.capabilities.None? then Err(Invalid(InvalidTransition))
    else if HasPacket(current.pending) || current.state.capabilities.value.lastMessage == Some(op.flow.message)
    then Err(Invalid(InvalidTransition))
    else
      var message :- op.flow.before;
      var (next, packet) :- Send(current.state.session, message);
      var outcome :- op.flow.after;
      if |outcome.effect| > MAX_PENDING_PAYLOAD_BYTES then Err(Invalid(BoundExceeded))
      else
        var runtime := Capabilities(outcome.runtime, Some(op.flow.message));
        var items := [
          PendingItem(CapabilitySend(packet), PacketOutput(packet)),
          PendingItem(CapabilityEffect(outcome.effect), EffectOutput(outcome.effect))];
        Ok(Change(
          current.state.(session := next, capabilities := Some(runtime)), [], current.pending + items,
          ReceiptReply(packet)))
  }

  function AllSpent(active: map<nat, ActivePrekey>, pairs: seq<nat>): seq<KeyMutation>
    requires forall pair | pair in pairs :: pair in active
  {
    if pairs == [] then []
    else
      [Delete(X25519Private, active[pairs[0]].x25519Private), Delete(MlKem768Private, active[pairs[0]].mlKemPrivate)]
      + AllSpent(active, pairs[1..])
  }

  /** Deletion drops every key the phase reaches and replaces the pending queue with an empty one. */
  function PlanDeleteSession(current: Snapshot): Result<Planned> {
    match current.state
    case Closed(_) => Err(Invalid(ErrorCode.Deleted))
    case ResponderReady(highWater, active) =>
      Ok(Change(Closed(Some(highWater)), AllSpent(active, Cbor.SortedKeys(active.Keys)), [], NoReply))
    case Established(session, _, _, highWater, _) =>
      Ok(Change(Closed(highWater), [Delete(X25519Private, session.localPrivate)], [], NoReply))
    case InitiatorAwaiting(_, _, _, _, ratchet) =>
      Ok(Change(Closed(None), [Delete(X25519Private, ratchet.localPrivate)], [], NoReply))
    case InitiatorNew => Ok(Change(Closed(None), [], [], NoReply))
  }

  /** What an operation decides; `seen` is what custody answers while it plans. */
  function Plan(line: LineIds, seen: Custody, current: Snapshot, op: Operation): Result<Planned> {
    match op
    case AdmitPrekey(_, _, _, _, _, _, _) => PlanAdmitPrekey(line, seen, current, op)
    case AcceptFirstPacket(_, _, _, _, _) => PlanAcceptFirstPacket(line, seen, current, op)
    case CreateFirstPacket(_, _, _, _, _, _, _, _, _) => PlanCreateFirstPacket(line, seen, current, op)
    case VerifySessionAccept(_) => PlanVerifySessionAccept(current, op)
    case SendRecord(_, _) => PlanSendRecord(seen, current, op)
    case ReceiveRecord(_, _) => PlanReceiveRecord(seen, current, op)
    case BootstrapCapabilities(_) => PlanBootstrapCapabilities(current, op)
    case ApplyCapabilityFlow(_) => PlanApplyCapabilityFlow(current, op)
    case DeleteSession => PlanDeleteSession(current)
  }

  /** The commit a change makes, if it is within the commit bounds. */
  function CommitOf(change: Planned): Result<Commit<Phase>>
    requires change.Change?
  {
    BoundedCommit(change.next, change.mutations, change.queue, MAX_ENDPOINT_KEY_MUTATIONS, MAX_ENDPOINT_PENDING)
  }
}

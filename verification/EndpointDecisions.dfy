/** Exactly when each operation of the Endpoint goes through, spelled out over the snapshot, custody and its arguments. */
module EndpointDecisions {
  import opened Errors
  import opened Octets
  import opened Symbolic
  import opened State
  import opened Handshake
  import opened Ratchet
  import opened Endpoint

  // ---- Custody and secrets ----

  predicate Unadopted(seen: Custody, token: Token, purpose: Purpose) {
    token in seen && seen[token].purpose == purpose && seen[token].lifecycle.Staged?
  }

  predicate Kept(seen: Custody, token: Token, purpose: Purpose) {
    token in seen && seen[token].purpose == purpose && seen[token].lifecycle.Adopted?
  }

  /** What both ends of a handshake feed into their key derivation: both exchanges, the transcript and the core. */
  function SecretFrom(x: Token, y: Token, mlKem: KemSecret, offer: Offer, fields: BundleFields): HybridInputs {
    var transcript := PrekeyTranscript(offer.line, offer.initiator, fields);
    HybridInputs(if x <= y then Shared(x, y) else Shared(y, x), mlKem, transcript, HandshakeCore(transcript, offer))
  }

  /** The secret a responder derives from its prekey and a first packet. */
  function ReceivedSecret(prekey: ActivePrekey, packet: FirstPacket): HybridInputs
    requires packet.offer.x25519Public.PublicOf?
  {
    var ciphertext := packet.offer.mlKemCiphertext;
    SecretFrom(
      prekey.x25519Private, packet.offer.x25519Public.token,
      if ciphertext.decapsulator == prekey.mlKemPrivate then Encapsulated(ciphertext)
      else Rejected(prekey.mlKemPrivate, ciphertext),
      packet.offer, packet.prekey.fields)
  }

  // ---- Signatures ----

  /** The bundle is well-formed and signed with both keys of the identity that it names. */
  predicate SignedBundle(identity: IdentityPublic, bundle: PrekeyBundle) {
    var f := bundle.fields;
    && 0 < f.pairSequence <= 9_007_199_254_740_991
    && f.validFrom < f.validUntil <= 9_007_199_254_740_991 && f.validUntil - f.validFrom <= 604_800
    && f.responderIdentityState == identity.stateDigest
    && f.ed25519KeyId == identity.ed25519KeyId && f.mlDsa65KeyId == identity.mlDsa65KeyId
    && bundle.signatures == SignedBy(identity.ed25519Public, identity.mlDsa65Public, BundleStatement(f))
  }

  /** The packet names the identity, and is signed with both of its keys over the whole offer and bundle. */
  predicate SignedPacket(identity: IdentityPublic, packet: FirstPacket) {
    var transcript := PrekeyTranscript(packet.offer.line, packet.offer.initiator, packet.prekey.fields);
    && packet.offer.initiator == InitiatorIds(identity.stateDigest, identity.ed25519KeyId, identity.mlDsa65KeyId)
    && packet.signatures == SignedBy(
                              identity.ed25519Public, identity.mlDsa65Public,
                              InitiatorStatement(HandshakeCore(transcript, packet.offer)))
  }

  /** The confirmation is sealed under keys of the secret, over its core. */
  predicate ConfirmedBy(secret: HybridInputs, body: Body) {
    body == Sealed(
              HybridKey(ClientConfirmKey, secret), HybridKey(ClientConfirmNonce, secret), CoreAad(secret.core),
              ConfirmationText())
  }

  // ---- Responder ----

  /** A prekey is admitted exactly for a fresh sequence, a bounded window, the identity's own signing keys and staged handles. */
  lemma AdmissionExactly(line: LineIds, seen: Custody, current: Snapshot, op: Operation)
    requires op.AdmitPrekey?
    ensures Plan(line, seen, current, op).Ok? <==>
              && current.state.ResponderReady?
              && op.validFrom < op.validUntil <= 9_007_199_254_740_991 && op.validUntil - op.validFrom <= 604_800
              && 0 < op.pairSequence <= 9_007_199_254_740_991 && current.state.highWater < op.pairSequence
              && |current.state.active| < 256
              && op.signing.ed25519Public == op.identity.ed25519Public
              && op.signing.mlDsa65Public == op.identity.mlDsa65Public
              && Unadopted(seen, op.x25519, X25519Private) && Unadopted(seen, op.mlKem, MlKem768Private)
    ensures Plan(line, seen, current, op).Ok? ==>
              var change := Plan(line, seen, current, op).value;
              && change.Change? && change.reply.BundleReply?
              && SignedBundle(op.identity, change.reply.bundle)
              && change.reply.bundle.fields.line == line
              && change.reply.bundle.fields.pairSequence == op.pairSequence
              && change.reply.bundle.fields.x25519Public == PublicOf(op.x25519)
              && change.reply.bundle.fields.mlKemPublic == op.mlKem
              && change.reply.bundle.fields.validFrom == op.validFrom && change.reply.bundle.fields.validUntil == op.validUntil
              && change.next == ResponderReady(
                   op.pairSequence,
                   current.state.active[op.pairSequence := ActivePrekey(change.reply.bundle, op.x25519, op.mlKem)])
  {
  }

  /** What a responder asks of a first packet before it establishes a session. */
  predicate Acceptable(line: LineIds, seen: Custody, current: Snapshot, op: Operation)
    requires op.AcceptFirstPacket?
  {
    var offer, fields := op.packet.offer, op.packet.prekey.fields;
    && op.initiator.protectionProfile == line.protectionProfile
    && current.state.ResponderReady? && fields.pairSequence in current.state.active
    && fields.pairSequence <= current.state.highWater
    && var prekey := current.state.active[fields.pairSequence];
       && op.packet.prekey == prekey.bundle && SignedBundle(op.responder, prekey.bundle)
       && fields.validFrom <= op.now < fields.validUntil
       && offer.line == line == fields.line
       && offer.responderIdentityState == op.responder.stateDigest && offer.responderAuthority == op.responderAuthority
       && SignedPacket(op.initiator.identity, op.packet)
       && Kept(seen, prekey.x25519Private, X25519Private) && Kept(seen, prekey.mlKemPrivate, MlKem768Private)
       && offer.x25519Public.PublicOf? && ConfirmedBy(ReceivedSecret(prekey, op.packet), op.packet.confirmation)
  }

  /** The packet is the one that this session was established with. */
  predicate Repeated(line: LineIds, current: Snapshot, op: Operation)
    requires op.AcceptFirstPacket?
  {
    var offer, fields := op.packet.offer, op.packet.prekey.fields;
    && op.initiator.protectionProfile == line.protectionProfile
    && 0 < fields.pairSequence <= 9_007_199_254_740_991
    && fields.validFrom < fields.validUntil <= 9_007_199_254_740_991 && fields.validUntil - fields.validFrom <= 604_800
    && offer.line == fields.line && offer.responderIdentityState == fields.responderIdentityState
    && current.state.Established? && current.state.retryAccept.Some?
    && current.state.replayDigest == Some(Transcript(op.packet))
  }

  /**
   A session is established exactly for a packet of an active, signed and valid bundle, signed by
   the initiator over that bundle and offer, whose confirmation opens under the secret derived here.
   */
  lemma AcceptanceExactly(line: LineIds, seen: Custody, current: Snapshot, op: Operation)
    requires op.AcceptFirstPacket?
    ensures var r := Plan(line, seen, current, op);
            r.Ok? && r.value.Change? <==> Acceptable(line, seen, current, op)
  {
    hide Spent, EstablishResponder, VerifiesBundle, VerifiesInitiator, SignedBundle, SignedPacket, ConfirmedBy, ReceivedSecret;
    var packet := op.packet;
    SignaturesExactly(op.responder, op.initiator.identity, packet);
    if current.state.ResponderReady? && packet.prekey.fields.pairSequence in current.state.active
       && packet.offer.x25519Public.PublicOf? && packet.prekey == current.state.active[packet.prekey.fields.pairSequence].bundle
    {
      ConfirmationExactly(
        line, current.state.active[packet.prekey.fields.pairSequence], op.responder, op.responderAuthority, packet,
        current.state.highWater);
    }
  }

  lemma SignaturesExactly(responder: IdentityPublic, initiator: IdentityPublic, packet: FirstPacket)
    ensures VerifiesBundle(responder, packet.prekey) <==> SignedBundle(responder, packet.prekey)
    ensures VerifiesInitiator(initiator, packet) <==> FirstPacketShape(packet) && SignedPacket(initiator, packet)
    ensures SignedBundle(responder, packet.prekey) ==>
              (FirstPacketShape(packet) <==>
               && packet.offer.line == packet.prekey.fields.line
               && packet.offer.responderIdentityState == responder.stateDigest)
  {
  }

  lemma ConfirmationExactly(
    line: LineIds, prekey: ActivePrekey, responder: IdentityPublic, responderAuthority: Digest, packet: FirstPacket,
    highWater: nat)
    requires packet.offer.x25519Public.PublicOf? && packet.prekey == prekey.bundle
    ensures EstablishResponder(
              line, prekey, responder, responderAuthority, packet,
              Agree(prekey.x25519Private, packet.offer.x25519Public.token), highWater).Ok? <==>
            ConfirmedBy(ReceivedSecret(prekey, packet), packet.confirmation)
  {
    hide ConfirmationText;
  }

  /** A packet is answered without a change exactly if the session was established with it, and then by the same accept. */
  lemma RepetitionsExactly(line: LineIds, seen: Custody, current: Snapshot, op: Operation)
    requires op.AcceptFirstPacket?
    ensures var r := Plan(line, seen, current, op);
            && (r.Ok? && r.value.Answer? <==> Repeated(line, current, op))
            && (r.Ok? && r.value.Answer? ==> r.value.reply == AcceptReply(current.state.retryAccept.value))
  {
    hide EstablishResponder, VerifiesBundle, VerifiesInitiator, Spent;
  }

  /** The session and the accept are of the derived secret, the packet's transcript and context. */
  lemma AcceptanceEstablishes(line: LineIds, seen: Custody, current: Snapshot, op: Operation)
    requires op.AcceptFirstPacket? && Plan(line, seen, current, op).Ok? && Plan(line, seen, current, op).value.Change?
    ensures Acceptable(line, seen, current, op)
    ensures var next := Plan(line, seen, current, op).value.next;
            var prekey := current.state.active[op.packet.prekey.fields.pairSequence];
            var secret := ReceivedSecret(prekey, op.packet);
            var context := SessionContext(line, Transcript(op.packet), op.packet.offer, op.packet.prekey.fields.pairSequence);
            && next.Established? && next.replayDigest == Some(Transcript(op.packet))
            && next.prekeyHighWater == Some(current.state.highWater) && next.capabilities.None?
            && next.session.context == context
            && next.session.root == Expanded(HybridKey(HybridRoot, secret), InitialRoot, OfContext(context))
            && next.session.receiving == Some(Expanded(HybridKey(HybridRoot, secret), ChainI2R, OfContext(context)))
            && next.session.localPrivate == prekey.x25519Private
            && next.session.peerPublic == op.packet.offer.x25519Public
            && next.retryAccept.Some?
            && next.retryAccept.value.fields == AcceptFields(
                 Transcript(op.packet), context, op.packet.offer.initiatorAuthority, op.responder.stateDigest,
                 op.responderAuthority, op.packet.prekey.fields.pairSequence)
            && next.retryAccept.value.mac == MacUnder(HybridKey(SessionAcceptKey, secret), next.retryAccept.value.fields)
  {
    hide Spent, ConfirmationText, Acceptable;
    AcceptanceExactly(line, seen, current, op);
  }

  // ---- Initiator ----

  /** What an initiator asks before it makes a first packet. */
  predicate Creatable(line: LineIds, seen: Custody, current: Snapshot, op: Operation)
    requires op.CreateFirstPacket?
  {
    var fields := op.prekey.fields;
    && current.state.InitiatorNew? && op.peer.protectionProfile == line.protectionProfile && fields.line == line
    && SignedBundle(op.peer.identity, op.prekey) && fields.validFrom <= op.now < fields.validUntil
    && op.signing.ed25519Public == op.local.ed25519Public && op.signing.mlDsa65Public == op.local.mlDsa65Public
    && Kept(seen, op.entropy, MlKemEntropy) && Unadopted(seen, op.x25519, X25519Private)
    && fields.x25519Public.PublicOf?
  }

  /** A first packet is made exactly for a valid bundle that the peer's identity signed. */
  lemma CreationExactly(line: LineIds, seen: Custody, current: Snapshot, op: Operation)
    requires op.CreateFirstPacket?
    ensures var r, fields := Plan(line, seen, current, op), op.prekey.fields;
            && (r.Ok? && r.value.Change? <==> Creatable(line, seen, current, op))
            && (r.Ok? && r.value.Answer? <==>
                  && current.state.InitiatorAwaiting? && op.peer.protectionProfile == line.protectionProfile
                  && 0 < fields.pairSequence <= 9_007_199_254_740_991
                  && fields.validFrom < fields.validUntil <= 9_007_199_254_740_991
                  && fields.validUntil - fields.validFrom <= 604_800)
            && (r.Ok? && r.value.Answer? ==> r.value.reply == FirstPacketReply(current.state.firstPacket))
  {
    hide CoreOf, HybridOf, ContextOf, Confirmation, InitiatorState, Sign;
  }

  /** The packet is signed and confirmed, and the session it waits for is of the secret that both exchanges give. */
  lemma CreationPrepares(line: LineIds, seen: Custody, current: Snapshot, op: Operation)
    requires op.CreateFirstPacket? && Creatable(line, seen, current, op)
    ensures Plan(line, seen, current, op).Ok? && Plan(line, seen, current, op).value.Change?
    ensures var next, fields := Plan(line, seen, current, op).value.next, op.prekey.fields;
            && next.InitiatorAwaiting? && Plan(line, seen, current, op).value.reply == FirstPacketReply(next.firstPacket)
            && var packet := next.firstPacket;
               var ciphertext := Ciphertext(fields.mlKemPublic, op.entropy);
               var secret := SecretFrom(op.x25519, fields.x25519Public.token, Encapsulated(ciphertext), packet.offer, fields);
               var context := SessionContext(line, Transcript(packet), packet.offer, fields.pairSequence);
               && packet.prekey == op.prekey && SignedPacket(op.local, packet) && ConfirmedBy(secret, packet.confirmation)
               && packet.offer.line == line && packet.offer.initiatorAuthority == op.initiatorAuthority
               && packet.offer.responderIdentityState == op.peer.identity.stateDigest
               && packet.offer.responderAuthority == op.responderAuthority
               && packet.offer.x25519Public == PublicOf(op.x25519) && packet.offer.mlKemCiphertext == ciphertext
               && next.transcript == Transcript(packet) && next.context == context && next.hybrid == secret
               && next.ratchet.context == context && next.ratchet.localPrivate == op.x25519
               && next.ratchet.peerPublic == fields.x25519Public
               && next.ratchet.root == Expanded(HybridKey(HybridRoot, secret), InitialRoot, OfContext(context))
               && next.ratchet.sending == Some(Expanded(HybridKey(HybridRoot, secret), ChainI2R, OfContext(context)))
  {
    hide ConfirmationText;
  }

  /**
   An accept, whoever made it, is verified exactly if it names the waiting packet's transcript,
   context and authorities, and carries a tag under the session's own accept key over its fields.
   */
  lemma VerificationExactly(line: LineIds, seen: Custody, current: Snapshot, op: Operation)
    requires op.VerifySessionAccept?
    ensures Plan(line, seen, current, op).Ok? <==>
              && current.state.InitiatorAwaiting?
              && op.accept.fields.transcript == current.state.transcript
              && op.accept.fields.context == current.state.context
              && op.accept.fields.initiatorAuthority == current.state.firstPacket.offer.initiatorAuthority
              && op.accept.fields.responderAuthority == current.state.firstPacket.offer.responderAuthority
              && op.accept.mac == MacUnder(HybridKey(SessionAcceptKey, current.state.hybrid), op.accept.fields)
    ensures Plan(line, seen, current, op).Ok? ==>
              var change := Plan(line, seen, current, op).value;
              && change.Change? && change.next.Established? && change.next.session == current.state.ratchet
              && change.next.replayDigest.None? && change.next.retryAccept.None? && change.next.capabilities.None?
              && change.mutations == [] && change.queue == current.pending
  {
  }

  // ---- Records ----

  /** A session that can seal a plaintext next. */
  predicate CanSeal(session: RatchetState, plaintext: Bytes) {
    session.sending.Some? && session.ns < 4_294_967_295 && |plaintext| <= 524_224
  }

  /** A responder that has not sent yet can, with a staged key. */
  predicate CanBootstrap(seen: Custody, session: RatchetState, staged: Token, plaintext: Bytes) {
    && session.sending.None? && session.sendDirection.ResponderToInitiator? && session.peerPublic.PublicOf?
    && Unadopted(seen, staged, X25519Private) && session.ns < 4_294_967_295 && |plaintext| <= 524_224
  }

  /** A send plans a change exactly when no packet waits and the session can seal, or be made to. */
  lemma SendExactly(line: LineIds, seen: Custody, current: Snapshot, op: Operation)
    requires op.SendRecord?
    ensures Plan(line, seen, current, op).Ok? <==>
              && current.state.Established?
              && (forall item | item in current.pending :: !item.kind.PacketOutput?)
              && match op.bootstrap
                 case None => CanSeal(current.state.session, op.plaintext)
                 case Some(staged) => CanBootstrap(seen, current.state.session, staged, op.plaintext)
    ensures Plan(line, seen, current, op).Ok? ==>
              var change, session := Plan(line, seen, current, op).value, current.state.session;
              && change.Change? && change.next.Established? && |change.queue| == |current.pending| + 1
              && var item := change.queue[|current.pending|];
                 && change.queue == current.pending + [item] && item.kind.PacketOutput?
                 && item.id == RecordSend(item.kind.packet) && change.reply == PendingReply(item.id)
                 && item.kind.packet.body.Sealed? && item.kind.packet.body.plaintext == op.plaintext
                 && item.kind.packet.header.pn == session.pn && item.kind.packet.header.n == session.ns
                 && item.kind.packet.header.dh ==
                    (if op.bootstrap.Some? then PublicOf(op.bootstrap.value) else session.localPublic)
                 && change.next.session.ns == session.ns + 1
  {
    hide KeysAt, DhStep, Following;
  }

  /** A receive plans a change exactly when no plaintext waits and the ratchet opens the record. */
  lemma ReceiveExactly(line: LineIds, seen: Custody, current: Snapshot, op: Operation)
    requires op.ReceiveRecord?
    ensures Plan(line, seen, current, op).Ok? <==>
              && current.state.Established?
              && (forall item | item in current.pending :: !item.kind.PlaintextOutput?)
              && var outcome := Opening(seen, current.state.session, op);
                 outcome.Ok? && |outcome.value.1| <= 524_224
    ensures Plan(line, seen, current, op).Ok? ==>
              var change, outcome := Plan(line, seen, current, op).value, Opening(seen, current.state.session, op).value;
              && change.Change? && change.next == current.state.(session := outcome.0)
              && change.queue == current.pending + [PendingItem(RecordReceive(op.record), PlaintextOutput(outcome.1))]
              && change.reply == PendingReply(RecordReceive(op.record))
  {
    if current.state.Established? {
      OpeningUsesOffer(seen, current.state.session, op);
    }
    hide Receive;
  }

  /** The tokens custody answers for: the offered one while it is staged, others once adopted; none if the local key is offered. */
  function Answered(seen: Custody, session: RatchetState, offered: Option<Token>): set<Token> {
    set token | token in seen && offered != Some(session.localPrivate)
                && seen[token] == KeyRecord(X25519Private, if offered == Some(token) then Staged else Adopted)
  }

  /** What the ratchet makes of a record. */
  function Opening(seen: Custody, session: RatchetState, op: Operation): Result<(RatchetState, Bytes)>
    requires op.ReceiveRecord?
  {
    Receive(session, Answered(seen, session, op.offered), op.record, op.offered)
  }

  lemma OpeningUsesOffer(seen: Custody, session: RatchetState, op: Operation)
    requires op.ReceiveRecord?
    ensures Opening(seen, session, op)
            == Receive(session, AnsweringApart(seen, session.localPrivate, op.offered), op.record, op.offered)
    ensures var outcome := Opening(seen, session, op);
            outcome.Ok? && outcome.value.0.localPrivate != session.localPrivate ==> op.offered.Some?
  {
    assert AnsweringApart(seen, session.localPrivate, op.offered) == Answered(seen, session, op.offered);
  }

  // ---- Capabilities and deletion ----

  lemma CapabilitiesExactly(line: LineIds, seen: Custody, current: Snapshot, op: Operation)
    requires op.BootstrapCapabilities?
    ensures Plan(line, seen, current, op).Ok? <==> current.state.Established? && current.state.capabilities.None?
    ensures Plan(line, seen, current, op).Ok? ==>
              Plan(line, seen, current, op) ==
              Ok(Change(current.state.(capabilities := Some(op.capabilities)), [], current.pending, NoReply))
  {
  }

  /**
   A capability flow plans a change exactly when no packet waits, its message was not the last one
   applied, the reducers before and after agree, and the session can seal the message.
   */
  lemma FlowExactly(line: LineIds, seen: Custody, current: Snapshot, op: Operation)
    requires op.ApplyCapabilityFlow?
    ensures Plan(line, seen, current, op).Ok? <==>
              && current.state.Established? && current.state.capabilities.Some?
              && (forall item | item in current.pending :: !item.kind.PacketOutput?)
              && current.state.capabilities.value.lastMessage != Some(op.flow.message)
              && op.flow.before.Ok? && op.flow.after.Ok?
              && CanSeal(current.state.session, op.flow.before.value) && |op.flow.after.value.effect| <= 524_288
    ensures Plan(line, seen, current, op).Ok? ==>
              var change := Plan(line, seen, current, op).value;
              && change.Change? && change.next.Established? && |change.queue| == |current.pending| + 2
              && change.next.capabilities == Some(Capabilities(op.flow.after.value.runtime, Some(op.flow.message)))
              && change.reply.ReceiptReply?
              && change.reply.record.body.Sealed? && change.reply.record.body.plaintext == op.flow.before.value
              && change.queue == current.pending + [
                   PendingItem(CapabilitySend(change.reply.record), PacketOutput(change.reply.record)),
                   PendingItem(CapabilityEffect(op.flow.after.value.effect), EffectOutput(op.flow.after.value.effect))]
  {
    hide KeysAt, Following;
  }

  /** A message that was applied is refused when it is offered again, whatever waits and whatever the reducers say. */
  lemma AppliedMessagesAreRefused(
    line: LineIds, seen: Custody, current: Snapshot, op: Operation, later: Custody, revision: nat,
    queue: seq<PendingItem>, again: Operation)
    requires op.ApplyCapabilityFlow? && Plan(line, seen, current, op).Ok?
    requires again.ApplyCapabilityFlow? && again.flow.message == op.flow.message
    ensures Plan(line, later, Versioned(revision, Plan(line, seen, current, op).value.next, queue), again)
            == Err(Invalid(InvalidTransition))
  {
    FlowExactly(line, seen, current, op);
    hide Send;
  }

  /** A session is deleted exactly once. */
  lemma DeletionExactly(line: LineIds, seen: Custody, current: Snapshot)
    ensures Plan(line, seen, current, DeleteSession).Ok? <==> !current.state.Closed?
    ensures current.state.Closed? ==> Plan(line, seen, current, DeleteSession) == Err(Invalid(ErrorCode.Deleted))
    ensures Plan(line, seen, current, DeleteSession).Ok? ==>
              var change := Plan(line, seen, current, DeleteSession).value;
              && change.Change? && change.queue == []
              && change.next == Closed(
                   match current.state
                   case ResponderReady(highWater, _) => Some(highWater)
                   case Established(_, _, _, highWater, _) => highWater
                   case _ => None)
  {
    hide AllSpent;
  }

  // ---- Refusals ----

  /** With which error a prekey is not admitted: what concerns the caller's arguments first, then the phase, then custody. */
  lemma AdmissionRefusals(line: LineIds, seen: Custody, current: Snapshot, op: Operation)
    requires op.AdmitPrekey? && Plan(line, seen, current, op).Err?
    ensures Plan(line, seen, current, op).error ==
            if current.state.Closed? then Invalid(ErrorCode.Deleted)
            else if !(op.validFrom < op.validUntil <= 9_007_199_254_740_991) || op.validUntil - op.validFrom > 604_800
                    || !(0 < op.pairSequence <= 9_007_199_254_740_991)
            then Invalid(BoundExceeded)
            else if op.signing != SigningHandles(op.identity.ed25519Public, op.identity.mlDsa65Public)
            then Invalid(HandshakeRejected)
            else if !current.state.ResponderReady? then Invalid(InvalidTransition)
            else if op.pairSequence <= current.state.highWater || |current.state.active| >= 256 then Invalid(PrekeyConsumed)
            else Terminal(ProviderFailure, Provider)
  {
  }

  /** A spent prekey is told from a packet that does not fit: it is one that is not active, or any packet but the first. */
  lemma AcceptanceRefusals(line: LineIds, seen: Custody, current: Snapshot, op: Operation)
    requires op.AcceptFirstPacket? && Plan(line, seen, current, op).Err?
    ensures var fields, offer := op.packet.prekey.fields, op.packet.offer;
            var fits :=
              && 0 < fields.pairSequence <= 9_007_199_254_740_991
              && fields.validFrom < fields.validUntil <= 9_007_199_254_740_991
              && fields.validUntil - fields.validFrom <= 604_800
              && offer.line == fields.line && offer.responderIdentityState == fields.responderIdentityState
              && op.initiator.protectionProfile == line.protectionProfile;
            Plan(line, seen, current, op).error == Invalid(
              if current.state.Closed? then ErrorCode.Deleted
              else if !fits then HandshakeRejected
              else if current.state.Established? && current.state.replayDigest.Some? && current.state.retryAccept.Some?
              then PrekeyConsumed
              else if !current.state.ResponderReady? then InvalidTransition
              else if fields.pairSequence !in current.state.active then PrekeyConsumed
              else HandshakeRejected)
  {
    hide VerifiesBundle, VerifiesInitiator, Spent, HybridOf, Confirms;
  }

  lemma InitiatorRefusals(line: LineIds, seen: Custody, current: Snapshot, op: Operation)
    requires (op.CreateFirstPacket? || op.VerifySessionAccept?) && Plan(line, seen, current, op).Err?
    ensures Plan(line, seen, current, op).error == Invalid(
              if current.state.Closed? then ErrorCode.Deleted
              else if op.VerifySessionAccept? && !current.state.InitiatorAwaiting? then InvalidTransition
              else HandshakeRejected)
  {
    hide VerifiesBundle, CoreOf, HybridOf, ContextOf, Confirmation, InitiatorState, Sign;
  }

  /** Why a session does not seal a plaintext: its length, its missing chain, or its last counter. */
  function SealingRefusal(session: RatchetState, plaintext: Bytes): Error {
    Invalid(
      if |plaintext| > 524_224 then BoundExceeded else if session.sending.None? then InvalidTransition else CounterOverflow)
  }

  lemma SendRefusals(line: LineIds, seen: Custody, current: Snapshot, op: Operation)
    requires op.SendRecord? && Plan(line, seen, current, op).Err?
    ensures Plan(line, seen, current, op).error ==
            if current.state.Closed? then Invalid(ErrorCode.Deleted)
            else if !current.state.Established? || exists item | item in current.pending :: item.kind.PacketOutput?
            then Invalid(InvalidTransition)
            else
              var session := current.state.session;
              if op.bootstrap.None? then SealingRefusal(session, op.plaintext)
              else if session.sending.Some? || !session.sendDirection.ResponderToInitiator? then Invalid(InvalidTransition)
              else if !Unadopted(seen, op.bootstrap.value, X25519Private) || session.peerPublic.LowOrder?
              then Invalid(RecordAuthentication)
              else if |op.plaintext| > 524_224 then Invalid(BoundExceeded)
              else Invalid(CounterOverflow)
  {
    hide KeysAt, DhStep, Following;
  }

  lemma ReceiveRefusals(line: LineIds, seen: Custody, current: Snapshot, op: Operation)
    requires op.ReceiveRecord? && Plan(line, seen, current, op).Err?
    ensures Plan(line, seen, current, op).error ==
            if current.state.Closed? then Invalid(ErrorCode.Deleted)
            else if !current.state.Established? || exists item | item in current.pending :: item.kind.PlaintextOutput?
            then Invalid(InvalidTransition)
            else
              var outcome := Opening(seen, current.state.session, op);
              if outcome.Err? then outcome.error else Invalid(BoundExceeded)
  {
    if current.state.Established? {
      OpeningUsesOffer(seen, current.state.session, op);
    }
    hide Receive;
  }

  lemma CapabilityRefusals(line: LineIds, seen: Custody, current: Snapshot, op: Operation)
    requires (op.BootstrapCapabilities? || op.ApplyCapabilityFlow?) && Plan(line, seen, current, op).Err?
    ensures Plan(line, seen, current, op).error ==
            if current.state.Closed? then Invalid(ErrorCode.Deleted)
            else if || op.BootstrapCapabilities? || !current.state.Established? || current.state.capabilities.None?
                    || (exists item | item in current.pending :: item.kind.PacketOutput?)
                    || current.state.capabilities.value.lastMessage == Some(op.flow.message)
            then Invalid(InvalidTransition)
            else if op.flow.before.Err? then op.flow.before.error
            else if !CanSeal(current.state.session, op.flow.before.value)
            then SealingRefusal(current.state.session, op.flow.before.value)
            else if op.flow.after.Err? then op.flow.after.error
            else Invalid(BoundExceeded)
  {
    hide KeysAt, Following;
  }
}

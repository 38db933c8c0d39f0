/**
 Who is behind what an Endpoint takes: over every run, and whatever the network makes up
 besides, bundles, first packets and accepts come from the holders of the keys they name.
 */
module EndpointAuthenticity {
  import opened Errors
  import opened Symbolic
  import opened State
  import opened Handshake
  import opened Endpoint
  import opened EndpointRuns
  import opened EndpointTheorems
  import opened EndpointDecisions
  import EndpointHandshake
  import RatchetRuns

  // ---- What the holders of keys have made ----

  /** Some run of an Endpoint performed the operation; `change` is what it committed. */
  ghost predicate Performs(line: LineIds, phase: Phase, moves: seq<Move>, seen: Custody, op: Operation, change: Planned) {
    && IsInitial(phase) && change.Change?
    && Effective(line, Run(line, Start(phase), moves), seen, op).Some?
    && Plan(line, seen, Current(Run(line, Start(phase), moves)), op) == Ok(change)
  }

  /** A run with these signing keys made the first packet, and waits with the phase. */
  ghost predicate CreatedWith(signing: SigningHandles, packet: FirstPacket, next: Phase) {
    exists line, moves, seen, op, change ::
      && Performs(line, InitiatorNew, moves, seen, op, change)
      && op.CreateFirstPacket? && op.signing == signing
      && change.reply == FirstPacketReply(packet) && change.next == next
  }

  /** A run with these signing keys admitted the bundle. */
  ghost predicate AdmittedWith(signing: SigningHandles, bundle: PrekeyBundle) {
    exists line, moves, seen, op, change ::
      && Performs(line, ResponderReady(0, map[]), moves, seen, op, change)
      && op.AdmitPrekey? && op.signing == signing && change.reply == BundleReply(bundle)
  }

  /**
   The network can put together whatever signatures it likes, but those under two keys it does
   not hold it has from a packet or a bundle that a holder made.
   */
  ghost predicate Obtainable(signing: SigningHandles, signatures: SignaturePair) {
    signatures.SignedBy? && signatures.ed25519Public == signing.ed25519Public
    && signatures.mlDsa65Public == signing.mlDsa65Public ==>
      || (exists packet, next :: CreatedWith(signing, packet, next) && packet.signatures == signatures)
      || (exists bundle :: AdmittedWith(signing, bundle) && bundle.signatures == signatures)
  }

  function KeysOf(identity: IdentityPublic): SigningHandles {
    SigningHandles(identity.ed25519Public, identity.mlDsa65Public)
  }

  lemma RunsAreSound(line: LineIds, phase: Phase, moves: seq<Move>)
    requires IsInitial(phase)
    ensures Inv(line, Run(line, Start(phase), moves))
    ensures PhaseInv(line, Current(Run(line, Start(phase), moves)).state)
  {
    hide Run, PhaseInv, CustodyInv, FatesInv, HistoryInv, PacketsInv, ReachedInv, QuietInv;
    StartIsSound(line, phase);
    RunKeepsInv(line, Start(phase), moves);
  }

  /** A packet made with signing keys carries their signatures over its offer and bundle, and confirms its maker's secret. */
  lemma CreatedPacketsSay(signing: SigningHandles, packet: FirstPacket, next: Phase)
    requires CreatedWith(signing, packet, next)
    ensures packet.signatures == SignedBy(
                                   signing.ed25519Public, signing.mlDsa65Public,
                                   InitiatorStatement(HandshakeCore(
                                                        PrekeyTranscript(
                                                          packet.offer.line, packet.offer.initiator, packet.prekey.fields),
                                                        packet.offer)))
    ensures next.InitiatorAwaiting? && next.firstPacket == packet && packet.prekey.fields.x25519Public.PublicOf?
    ensures packet.offer.x25519Public == PublicOf(next.ratchet.localPrivate)
    ensures packet.offer.mlKemCiphertext.decapsulator == packet.prekey.fields.mlKemPublic
    ensures next.hybrid == SecretFrom(
                             next.ratchet.localPrivate, packet.prekey.fields.x25519Public.token,
                             Encapsulated(packet.offer.mlKemCiphertext), packet.offer, packet.prekey.fields)
    ensures ConfirmedBy(next.hybrid, packet.confirmation)
  {
    hide Run, Plan, Effective, ConfirmationText;
    var line, moves, seen, op, change :|
      && Performs(line, InitiatorNew, moves, seen, op, change)
      && op.CreateFirstPacket? && op.signing == signing
      && change.reply == FirstPacketReply(packet) && change.next == next;
    var current := Current(Run(line, Start(InitiatorNew), moves));
    CreationExactly(line, seen, current, op);
    CreationPrepares(line, seen, current, op);
  }

  lemma AdmittedBundlesSay(signing: SigningHandles, bundle: PrekeyBundle)
    requires AdmittedWith(signing, bundle)
    ensures bundle.signatures == SignedBy(signing.ed25519Public, signing.mlDsa65Public, BundleStatement(bundle.fields))
  {
    hide Run, Plan, Effective;
    var line, moves, seen, op, change :|
      && Performs(line, ResponderReady(0, map[]), moves, seen, op, change)
      && op.AdmitPrekey? && op.signing == signing && change.reply == BundleReply(bundle);
    AdmissionExactly(line, seen, Current(Run(line, Start(ResponderReady(0, map[])), moves)), op);
  }

  // ---- Bundles ----

  /** An initiator makes a first packet only for a bundle that a holder of the peer's keys admitted. */
  lemma BundlesWereAdmitted(line: LineIds, moves: seq<Move>, seen: Custody, op: Operation, change: Planned)
    requires Performs(line, InitiatorNew, moves, seen, op, change) && op.CreateFirstPacket?
    requires Obtainable(KeysOf(op.peer.identity), op.prekey.signatures)
    ensures AdmittedWith(KeysOf(op.peer.identity), op.prekey)
  {
    hide Run, Plan, Effective, CreatedWith, AdmittedWith;
    CreationExactly(line, seen, Current(Run(line, Start(InitiatorNew), moves)), op);
    var signing, signatures := KeysOf(op.peer.identity), op.prekey.signatures;
    if packet, next :| CreatedWith(signing, packet, next) && packet.signatures == signatures {
      CreatedPacketsSay(signing, packet, next);
    }
    var bundle :| AdmittedWith(signing, bundle) && bundle.signatures == signatures;
    AdmittedBundlesSay(signing, bundle);
    assert bundle == op.prekey;
  }

  // ---- First packets ----

  /** Two packets say the same, under the same signatures and confirmation, of the same bundle fields. */
  predicate SaysTheSame(x: FirstPacket, y: FirstPacket) {
    && x.offer == y.offer && x.prekey.fields == y.prekey.fields && x.signatures == y.signatures
    && x.confirmation == y.confirmation
  }

  /**
   A responder establishes a session only for a packet that a holder of the initiator's keys
   made, for this very offer and bundle, and derives the secret that its maker derived.
   */
  lemma AcceptedPacketsWereSigned(line: LineIds, moves: seq<Move>, seen: Custody, op: Operation, change: Planned)
    requires Performs(line, ResponderReady(0, map[]), moves, seen, op, change) && op.AcceptFirstPacket?
    requires Obtainable(KeysOf(op.initiator.identity), op.packet.signatures)
    ensures var current := Current(Run(line, Start(ResponderReady(0, map[])), moves));
            && Acceptable(line, seen, current, op)
            && var prekey := current.state.active[op.packet.prekey.fields.pairSequence];
               exists packet, next ::
                 && CreatedWith(KeysOf(op.initiator.identity), packet, next) && SaysTheSame(packet, op.packet)
                 && next.InitiatorAwaiting? && next.hybrid == ReceivedSecret(prekey, op.packet)
  {
    hide Run, Plan, Effective, CreatedWith, AdmittedWith, PhaseInv, ConfirmationText;
    var current := Current(Run(line, Start(ResponderReady(0, map[])), moves));
    AcceptanceExactly(line, seen, current, op);
    RunsAreSound(line, ResponderReady(0, map[]), moves);
    var prekey := current.state.active[op.packet.prekey.fields.pairSequence];
    ActiveKeysAnswer(line, current.state, op.packet.prekey.fields.pairSequence);
    var signing, signatures := KeysOf(op.initiator.identity), op.packet.signatures;
    if bundle :| AdmittedWith(signing, bundle) && bundle.signatures == signatures {
      AdmittedBundlesSay(signing, bundle);
    }
    var packet, next :| CreatedWith(signing, packet, next) && packet.signatures == signatures;
    CreatedPacketsSay(signing, packet, next);
    assert packet.offer == op.packet.offer && packet.prekey.fields == op.packet.prekey.fields;
    assert next.hybrid == ReceivedSecret(prekey, op.packet);
  }

  lemma ActiveKeysAnswer(line: LineIds, phase: Phase, pair: nat)
    requires phase.ResponderReady? && PhaseInv(line, phase) && pair in phase.active
    ensures var prekey := phase.active[pair];
            && prekey.bundle.fields.x25519Public == PublicOf(prekey.x25519Private)
            && prekey.bundle.fields.mlKemPublic == prekey.mlKemPrivate
  {
    assert PrekeyInv(line, pair, phase.highWater, phase.active[pair]);
  }

  // ---- Accepts ----

  /** A responder's run committed the accept for the packet. */
  ghost predicate AcceptedIn(line: LineIds, packet: FirstPacket, accept: SessionAccept, session: Phase) {
    exists moves, seen, op, change ::
      && Performs(line, ResponderReady(0, map[]), moves, seen, op, change)
      && op.AcceptFirstPacket? && op.packet == packet && change.next == session
      && change.reply == AcceptReply(accept)
  }

  /** The network can tag what it likes, but under keys of a secret it does not hold it has tags from responders only. */
  ghost predicate Taggable(line: LineIds, secret: HybridInputs, accept: SessionAccept) {
    || (exists packet, session :: AcceptedIn(line, packet, accept, session))
    || accept.mac.OtherMac?
    || !RatchetRuns.Descends(accept.mac.key, secret)
  }

  /**
   An initiator verifies only an accept that a responder committed for its own first packet, and
   then the two sessions are the two ends of one ratchet.
   */
  lemma VerifiedAcceptsWereMade(line: LineIds, moves: seq<Move>, seen: Custody, accept: SessionAccept)
    requires var awaiting := Current(Run(line, Start(InitiatorNew), moves));
             && Plan(line, seen, awaiting, VerifySessionAccept(accept)).Ok? && awaiting.state.InitiatorAwaiting?
             && Taggable(line, awaiting.state.hybrid, accept)
    ensures var awaiting := Current(Run(line, Start(InitiatorNew), moves)).state;
            exists session ::
              && AcceptedIn(line, awaiting.firstPacket, accept, session) && session.Established?
              && EndpointHandshake.Mirrored(awaiting.ratchet, session.session, awaiting.hybrid, awaiting.context)
  {
    hide Run, Plan, AcceptedIn, EndpointHandshake.Mirrored;
    var awaiting := Current(Run(line, Start(InitiatorNew), moves));
    VerificationExactly(line, seen, awaiting, VerifySessionAccept(accept));
    var packet, session :| AcceptedIn(line, packet, accept, session);
    AcceptIsForOwnPacket(line, moves, seen, packet, accept, session);
  }

  lemma AcceptIsForOwnPacket(
    line: LineIds, moves: seq<Move>, seen: Custody, packet: FirstPacket, accept: SessionAccept, session: Phase)
    requires AcceptedIn(line, packet, accept, session)
    requires Current(Run(line, Start(InitiatorNew), moves)).state.InitiatorAwaiting?
    requires Plan(line, seen, Current(Run(line, Start(InitiatorNew), moves)), VerifySessionAccept(accept)).Ok?
    ensures var awaiting := Current(Run(line, Start(InitiatorNew), moves)).state;
            && packet == awaiting.firstPacket && session.Established?
            && EndpointHandshake.Mirrored(awaiting.ratchet, session.session, awaiting.hybrid, awaiting.context)
  {
    hide Run, Effective, PlanVerifySessionAccept, PlanAcceptFirstPacket, EndpointHandshake.Mirrored;
    var responderMoves, custody, op, change :|
      && Performs(line, ResponderReady(0, map[]), responderMoves, custody, op, change)
      && op.AcceptFirstPacket? && op.packet == packet && change.next == session
      && change.reply == AcceptReply(accept);
    var ready := Run(line, Start(ResponderReady(0, map[])), responderMoves);
    var planned := EffectiveIsPlanned(line, ready, custody, op);
    AcceptanceEstablishes(line, custody, Current(ready), op);
    EndpointHandshake.AcceptsVerifyExactlyForOwnPackets(line, moves, responderMoves, custody, op);
    AcceptReplies(line, custody, Current(ready), op);
  }

  lemma AcceptReplies(line: LineIds, seen: Custody, current: Snapshot, op: Operation)
    requires op.AcceptFirstPacket? && Plan(line, seen, current, op).Ok? && Plan(line, seen, current, op).value.Change?
    ensures Plan(line, seen, current, op).value.next.Established?
    ensures Plan(line, seen, current, op).value.next.retryAccept.Some?
    ensures Plan(line, seen, current, op).value.reply == AcceptReply(Plan(line, seen, current, op).value.next.retryAccept.value)
  {
  }
}

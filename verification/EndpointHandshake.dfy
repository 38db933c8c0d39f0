/**
 The handshake between two Endpoints: what one side established is what the other side
 verifies, and together they stand where the ratchet runs begin.
 */
module EndpointHandshake {
  import opened Errors
  import opened Symbolic
  import opened State
  import opened Handshake
  import opened Ratchet
  import opened Endpoint
  import opened EndpointRuns
  import opened EndpointSafety
  import opened EndpointTheorems
  import RatchetRuns

  /** Some responder, with well-formed prekeys, accepts a first packet and answers `accept`. */
  predicate Accepts(line: LineIds, seen: Custody, ready: Snapshot, op: Operation) {
    && ready.state.ResponderReady? && PhaseInv(line, ready.state) && op.AcceptFirstPacket?
    && PlanAcceptFirstPacket(line, seen, ready, op).Ok?
    && PlanAcceptFirstPacket(line, seen, ready, op).value.Change?
  }

  function AcceptedPhase(line: LineIds, seen: Custody, ready: Snapshot, op: Operation): (r: Phase)
    requires Accepts(line, seen, ready, op)
    ensures r.Established? && r.retryAccept.Some?
  {
    PlanAcceptFirstPacket(line, seen, ready, op).value.next
  }

  /** The two parties stand at the start of one ratchet run. */
  predicate Mirrored(initiator: RatchetState, responder: RatchetState, hybrid: HybridInputs, context: Digest) {
    var start := RatchetRuns.Start(
      RatchetRuns.Session(hybrid, context), initiator.localPrivate, responder.localPrivate);
    initiator == start.initiator && responder == start.responder
  }

  /**
   If an awaiting initiator verifies an accept that any responder made for any packet, then
   it was made for the initiator's own packet and the two sessions mirror each other.
   */
  lemma AcceptBindsBothSessions(
    line: LineIds, awaiting: Snapshot, verify: Operation, seen: Custody, ready: Snapshot, op: Operation)
    requires awaiting.state.InitiatorAwaiting? && PhaseInv(line, awaiting.state)
    requires Accepts(line, seen, ready, op)
    requires verify == VerifySessionAccept(AcceptedPhase(line, seen, ready, op).retryAccept.value)
    requires PlanVerifySessionAccept(awaiting, verify).Ok?
    ensures op.packet == awaiting.state.firstPacket
    ensures PlanVerifySessionAccept(awaiting, verify) ==
            Ok(Change(Established(awaiting.state.ratchet, None, None, None, None), [], awaiting.pending, NoReply))
    ensures Mirrored(
              awaiting.state.ratchet, AcceptedPhase(line, seen, ready, op).session,
              awaiting.state.hybrid, awaiting.state.context)
  {
    hide PlanAcceptFirstPacket, PhaseInv;
    AcceptedSession(line, seen, ready, op);
    assert AwaitingInv(line, awaiting.state) by {
      AwaitingIsSound(line, awaiting.state);
    }
    hide Accepts, AcceptedPhase;
  }

  lemma AwaitingIsSound(line: LineIds, phase: Phase)
    requires PhaseInv(line, phase) && phase.InitiatorAwaiting?
    ensures AwaitingInv(line, phase)
  {
  }

  /** What the responder's session and accept are made of. */
  lemma AcceptedSession(line: LineIds, seen: Custody, ready: Snapshot, op: Operation)
    requires Accepts(line, seen, ready, op)
    ensures op.packet.prekey.fields.pairSequence in ready.state.active && op.packet.offer.x25519Public.PublicOf?
    ensures var prekey := ready.state.active[op.packet.prekey.fields.pairSequence];
            var next, offer, fields := AcceptedPhase(line, seen, ready, op), op.packet.offer, op.packet.prekey.fields;
            var hybrid := HybridOf(
              Agree(prekey.x25519Private, offer.x25519Public.token),
              Decapsulate(prekey.mlKemPrivate, offer.mlKemCiphertext), offer, fields);
            && next.session == ResponderState(
                 hybrid, ContextOf(line, op.packet), prekey.x25519Private, fields.x25519Public, offer.x25519Public)
            && fields.x25519Public == PublicOf(prekey.x25519Private) && fields.mlKemPublic == prekey.mlKemPrivate
            && next.retryAccept.value.fields.transcript == Transcript(op.packet)
            && next.retryAccept.value.fields.context == ContextOf(line, op.packet)
            && next.retryAccept.value.mac == MacUnder(HybridKey(SessionAcceptKey, hybrid), next.retryAccept.value.fields)
            && next.retryAccept.value.fields.initiatorAuthority == offer.initiatorAuthority
            && next.retryAccept.value.fields.responderAuthority == offer.responderAuthority
  {
    hide VerifiesBundle, VerifiesInitiator, FirstPacketShape, Spent, DistinctPrekeys, Confirms;
  }

  /**
   Conversely, a responder's accept of the initiator's own packet always verifies: the
   handshake of two honest parties completes.
   */
  lemma HonestAcceptVerifies(line: LineIds, awaiting: Snapshot, seen: Custody, ready: Snapshot, op: Operation)
    requires awaiting.state.InitiatorAwaiting? && PhaseInv(line, awaiting.state)
    requires Accepts(line, seen, ready, op) && op.packet == awaiting.state.firstPacket
    ensures PlanVerifySessionAccept(
              awaiting, VerifySessionAccept(AcceptedPhase(line, seen, ready, op).retryAccept.value)).Ok?
  {
    hide PlanAcceptFirstPacket, PhaseInv;
    AcceptedSession(line, seen, ready, op);
    assert AwaitingInv(line, awaiting.state) by {
      AwaitingIsSound(line, awaiting.state);
    }
    hide Accepts, AcceptedPhase;
  }

  /**
   A first packet made for an active bundle is accepted while the bundle is valid, by a
   responder that trusts the initiator and whose custody still holds the pair.
   */
  lemma HonestFirstPacketIsAccepted(
    line: LineIds, seenByInitiator: Custody, idle: Snapshot, create: Operation, seen: Custody, ready: Snapshot,
    op: Operation)
    requires idle.state.InitiatorNew? && create.CreateFirstPacket?
    requires PlanCreateFirstPacket(line, seenByInitiator, idle, create).Ok?
    requires ready.state.ResponderReady? && PhaseInv(line, ready.state)
    requires op.AcceptFirstPacket?
    requires op.packet == PlanCreateFirstPacket(line, seenByInitiator, idle, create).value.reply.packet
    requires op.initiator == TrustedIdentity(create.local, line.protectionProfile)
    requires op.responder == create.peer.identity && op.responderAuthority == create.responderAuthority
    requires var pair := create.prekey.fields.pairSequence;
             && pair in ready.state.active && ready.state.active[pair].bundle == create.prekey
             && AdoptedAs(seen, ready.state.active[pair].x25519Private, X25519Private)
             && AdoptedAs(seen, ready.state.active[pair].mlKemPrivate, MlKem768Private)
    requires create.prekey.fields.validFrom <= op.now < create.prekey.fields.validUntil
    ensures Accepts(line, seen, ready, op)
  {
    hide PlanCreateFirstPacket, VerifiesBundle, VerifiesInitiator, FirstPacketShape, Confirmation, Confirms, HybridOf;
    CreatedPacketIsSound(line, seenByInitiator, idle, create);
    var pair := create.prekey.fields.pairSequence;
    assert PrekeyInv(line, pair, ready.state.highWater, ready.state.active[pair]);
  }

  /** The first packet of an initiator is well-formed, verifies, and confirms the secret that the responder derives. */
  lemma CreatedPacketIsSound(line: LineIds, seen: Custody, idle: Snapshot, create: Operation)
    requires idle.state.InitiatorNew? && create.CreateFirstPacket? && PlanCreateFirstPacket(line, seen, idle, create).Ok?
    ensures PlanCreateFirstPacket(line, seen, idle, create).value.reply.FirstPacketReply?
    ensures var packet := PlanCreateFirstPacket(line, seen, idle, create).value.reply.packet;
            var fields := create.prekey.fields;
            && packet.prekey == create.prekey && FirstPacketShape(packet) && fields.line == line
            && VerifiesBundle(create.peer.identity, create.prekey) && VerifiesInitiator(create.local, packet)
            && packet.offer.line == line && packet.offer.responderIdentityState == create.peer.identity.stateDigest
            && packet.offer.responderAuthority == create.responderAuthority && packet.offer.x25519Public.PublicOf?
            && fields.x25519Public.PublicOf? && packet.offer.mlKemCiphertext.decapsulator == fields.mlKemPublic
            && Confirms(
                 HybridOf(Agree(fields.x25519Public.token, packet.offer.x25519Public.token),
                          Encapsulated(packet.offer.mlKemCiphertext), packet.offer, fields),
                 packet.confirmation)
  {
    hide ContextOf, InitiatorState, ConfirmationText;
  }

  /**
   Over any two runs from the initial phases: the initiator verifies the accept that a
   responder made exactly when it was made for the initiator's own packet, and then the two
   sessions are the two ends of one ratchet.
   */
  lemma AcceptsVerifyExactlyForOwnPackets(
    line: LineIds, initiatorMoves: seq<Move>, responderMoves: seq<Move>, seen: Custody, op: Operation)
    requires Current(Run(line, EndpointRuns.Start(InitiatorNew), initiatorMoves)).state.InitiatorAwaiting?
    requires op.AcceptFirstPacket?
    requires Effective(line, Run(line, EndpointRuns.Start(ResponderReady(0, map[])), responderMoves), seen, op).Some?
    ensures var awaiting := Current(Run(line, EndpointRuns.Start(InitiatorNew), initiatorMoves));
            var accepted :=
              Effective(line, Run(line, EndpointRuns.Start(ResponderReady(0, map[])), responderMoves), seen, op).value.nextState;
            && accepted.Established? && accepted.retryAccept.Some?
            && (PlanVerifySessionAccept(awaiting, VerifySessionAccept(accepted.retryAccept.value)).Ok? <==>
                op.packet == awaiting.state.firstPacket)
            && (op.packet == awaiting.state.firstPacket ==>
                  Mirrored(awaiting.state.ratchet, accepted.session, awaiting.state.hybrid, awaiting.state.context))
  {
    hide Run, Plan, CustodyInv, FatesInv, HistoryInv, PacketsInv, ReachedInv, QuietInv, PlanAcceptFirstPacket;
    hide PlanVerifySessionAccept, PhaseInv;
    StartIsSound(line, InitiatorNew);
    StartIsSound(line, ResponderReady(0, map[]));
    RunKeepsInv(line, EndpointRuns.Start(InitiatorNew), initiatorMoves);
    RunKeepsInv(line, EndpointRuns.Start(ResponderReady(0, map[])), responderMoves);
    var i := Run(line, EndpointRuns.Start(InitiatorNew), initiatorMoves);
    var r := Run(line, EndpointRuns.Start(ResponderReady(0, map[])), responderMoves);
    var change := EffectiveIsPlanned(line, r, seen, op);
    AcceptingPlan(line, seen, Current(r), op);
    assert AcceptedPhase(line, seen, Current(r), op) == change.next;
    var verify := VerifySessionAccept(AcceptedPhase(line, seen, Current(r), op).retryAccept.value);
    if PlanVerifySessionAccept(Current(i), verify).Ok? {
      AcceptBindsBothSessions(line, Current(i), verify, seen, Current(r), op);
    }
    if op.packet == Current(i).state.firstPacket {
      HonestAcceptVerifies(line, Current(i), seen, Current(r), op);
      AcceptBindsBothSessions(line, Current(i), verify, seen, Current(r), op);
      VerifyingKeepsRatchet(Current(i), verify);
    }
  }

  lemma AcceptingPlan(line: LineIds, seen: Custody, current: Snapshot, op: Operation)
    requires op.AcceptFirstPacket? && PhaseInv(line, current.state)
    requires Plan(line, seen, current, op).Ok? && Plan(line, seen, current, op).value.Change?
    ensures PlanAcceptFirstPacket(line, seen, current, op) == Plan(line, seen, current, op)
    ensures Accepts(line, seen, current, op)
  {
    hide PhaseInv;
    AcceptedShape(line, seen, current, op);
  }

  lemma VerifyingKeepsRatchet(awaiting: Snapshot, verify: Operation)
    requires verify.VerifySessionAccept? && PlanVerifySessionAccept(awaiting, verify).Ok?
    ensures awaiting.state.InitiatorAwaiting? && PlanVerifySessionAccept(awaiting, verify).value.Change?
    ensures PlanVerifySessionAccept(awaiting, verify).value.next.session == awaiting.state.ratchet
  {
  }

  /** The bundle a responder admits is one that an initiator who trusts its identity makes a first packet for. */
  lemma AdmittedBundlesAreUsable(
    line: LineIds, seen: Custody, ready: Snapshot, admit: Operation, seenByInitiator: Custody, idle: Snapshot,
    create: Operation)
    requires admit.AdmitPrekey? && PlanAdmitPrekey(line, seen, ready, admit).Ok?
    requires create.CreateFirstPacket? && idle.state.InitiatorNew?
    requires create.prekey == PlanAdmitPrekey(line, seen, ready, admit).value.reply.bundle
    requires create.peer == TrustedIdentity(admit.identity, line.protectionProfile)
    requires SignsAs(create.local, create.signing) && admit.validFrom <= create.now < admit.validUntil
    requires StagedAs(seenByInitiator, create.x25519, X25519Private) && AdoptedAs(seenByInitiator, create.entropy, MlKemEntropy)
    ensures PlanCreateFirstPacket(line, seenByInitiator, idle, create).Ok?
  {
  }

  /** Admission, first packet, acceptance and verification all succeed for two honest parties, and end mirrored. */
  lemma HonestHandshakesComplete(
    line: LineIds, seen: Custody, before: Snapshot, admit: Operation, seenByInitiator: Custody, idle: Snapshot,
    create: Operation, seenLater: Custody, ready: Snapshot, op: Operation)
    requires admit.AdmitPrekey? && PlanAdmitPrekey(line, seen, before, admit).Ok?
    requires create.CreateFirstPacket? && idle.state.InitiatorNew?
    requires create.prekey == PlanAdmitPrekey(line, seen, before, admit).value.reply.bundle
    requires create.peer == TrustedIdentity(admit.identity, line.protectionProfile)
    requires SignsAs(create.local, create.signing) && admit.validFrom <= create.now < admit.validUntil
    requires StagedAs(seenByInitiator, create.x25519, X25519Private) && AdoptedAs(seenByInitiator, create.entropy, MlKemEntropy)
    requires ready.state == PlanAdmitPrekey(line, seen, before, admit).value.next && PhaseInv(line, ready.state)
    requires AdoptedAs(seenLater, admit.x25519, X25519Private) && AdoptedAs(seenLater, admit.mlKem, MlKem768Private)
    requires op.AcceptFirstPacket? && op == AcceptFirstPacket(
                     TrustedIdentity(create.local, line.protectionProfile), admit.identity, create.responderAuthority,
                     PlanCreateFirstPacket(line, seenByInitiator, idle, create).value.reply.packet, op.now)
    requires admit.validFrom <= op.now < admit.validUntil
    ensures var awaiting := Versioned(idle.revision + 1, PlanCreateFirstPacket(line, seenByInitiator, idle, create).value.next, []);
            && Accepts(line, seenLater, ready, op)
            && PlanVerifySessionAccept(
                 awaiting, VerifySessionAccept(AcceptedPhase(line, seenLater, ready, op).retryAccept.value)).Ok?
            && Mirrored(awaiting.state.ratchet, AcceptedPhase(line, seenLater, ready, op).session,
                        awaiting.state.hybrid, awaiting.state.context)
  {
    AdmittedBundlesAreUsable(line, seen, before, admit, seenByInitiator, idle, create);
    AdmittedShape(line, seen, before, admit);
    CreatedShape(line, seenByInitiator, idle, create);
    CreateFirstPacketKeeps(line, seenByInitiator, idle, create);
    hide PlanAdmitPrekey, PlanCreateFirstPacket, PlanAcceptFirstPacket, PlanVerifySessionAccept, PhaseInv;
    HonestFirstPacketIsAccepted(line, seenByInitiator, idle, create, seenLater, ready, op);
    var awaiting := Versioned(idle.revision + 1, PlanCreateFirstPacket(line, seenByInitiator, idle, create).value.next, []);
    HonestAcceptVerifies(line, awaiting, seenLater, ready, op);
    var verify := VerifySessionAccept(AcceptedPhase(line, seenLater, ready, op).retryAccept.value);
    AcceptBindsBothSessions(line, awaiting, verify, seenLater, ready, op);
    VerifyingKeepsRatchet(awaiting, verify);
  }

  lemma AdmittedShape(line: LineIds, seen: Custody, current: Snapshot, admit: Operation)
    requires admit.AdmitPrekey? && PlanAdmitPrekey(line, seen, current, admit).Ok?
    ensures var change := PlanAdmitPrekey(line, seen, current, admit).value;
            && change.next.ResponderReady? && change.reply.BundleReply?
            && admit.pairSequence in change.next.active
            && change.next.active[admit.pairSequence] == ActivePrekey(change.reply.bundle, admit.x25519, admit.mlKem)
            && change.reply.bundle.fields.pairSequence == admit.pairSequence
            && change.reply.bundle.fields.validFrom == admit.validFrom
            && change.reply.bundle.fields.validUntil == admit.validUntil
  {
  }

  lemma CreatedShape(line: LineIds, seen: Custody, idle: Snapshot, create: Operation)
    requires create.CreateFirstPacket? && idle.state.InitiatorNew? && PlanCreateFirstPacket(line, seen, idle, create).Ok?
    ensures var change := PlanCreateFirstPacket(line, seen, idle, create).value;
            && change.Change? && change.next.InitiatorAwaiting? && change.reply == FirstPacketReply(change.next.firstPacket)
  {
  }

  predicate WellFormedOffer(line: LineIds, op: Operation) {
    op.AcceptFirstPacket? && FirstPacketShape(op.packet) && op.initiator.protectionProfile == line.protectionProfile
  }

  /**
   Once a first packet was accepted, then in every later state short of deletion that
   packet is answered by the same accept, without a change, and every other is refused.
   */
  lemma OneFirstPacketForEver(
    line: LineIds, b: Backend, author: Author, seen: Custody, op: Operation, moves: seq<Move>, later: Custody,
    again: Operation)
    requires Inv(line, b) && op.AcceptFirstPacket? && Effective(line, b, seen, op).Some?
    requires WellFormedOffer(line, again)
    requires !Current(Run(line, Step(line, b, Perform(author, seen, op)), moves)).state.Closed?
    ensures var accepted := Effective(line, b, seen, op).value.nextState;
            var now := Current(Run(line, Step(line, b, Perform(author, seen, op)), moves));
            && accepted.Established? && accepted.retryAccept.Some?
            && Plan(line, later, now, again) ==
               (if again.packet == op.packet then Ok(Answer(AcceptReply(accepted.retryAccept.value)))
                else Err(Invalid(PrekeyConsumed)))
  {
    hide Effective, Step, Run, Inv;
    InvFits(line, b);
    var first := Step(line, b, Perform(author, seen, op));
    var last := Run(line, first, moves);
    var accepted := Effective(line, b, seen, op).value.nextState;
    AcceptanceIsRemembered(line, b, seen, op);
    AcceptedFollows(line, b, author, seen, op, moves);
    assert Follows(accepted, Current(last).state);
  }

  lemma AcceptanceIsRemembered(line: LineIds, b: Backend, seen: Custody, op: Operation)
    requires Fits(b) && op.AcceptFirstPacket? && Effective(line, b, seen, op).Some?
    ensures var accepted := Effective(line, b, seen, op).value.nextState;
            accepted.Established? && accepted.retryAccept.Some? && accepted.replayDigest == Some(Transcript(op.packet))
  {
  }

  lemma AcceptedFollows(
    line: LineIds, b: Backend, author: Author, seen: Custody, op: Operation, moves: seq<Move>)
    requires Inv(line, b) && Effective(line, b, seen, op).Some?
    ensures Follows(
              Effective(line, b, seen, op).value.nextState,
              Current(Run(line, Step(line, b, Perform(author, seen, op)), moves)).state)
  {
    hide Plan, Effective, PhaseInv, CustodyInv, FatesInv, PacketsInv, QueueInv, Follows;
    var first := Step(line, b, Perform(author, seen, op));
    StepKeepsInv(line, b, Perform(author, seen, op));
    RunKeepsInv(line, first, moves);
    RunExtendsHistory(line, first, moves);
    var last := Run(line, first, moves);
    var r := |b.history|;
    assert first.history[r].state == Effective(line, b, seen, op).value.nextState;
    assert last.history[r] == first.history[r];
    assert Follows(last.history[r].state, last.history[|last.history| - 1].state);
  }
}

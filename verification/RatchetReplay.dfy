/** What becomes of a packet that is delivered again after it was accepted. */
module RatchetReplay {
  import opened Errors
  import opened Symbolic
  import opened Ratchet
  import opened RatchetRuns
  import opened RatchetSafety
  import opened RatchetTheorems
  import opened RatchetProgress

  function CoordinateOf(packet: Packet): Coordinate {
    Coordinate(packet.header.dh, packet.header.n)
  }

  /** The refusal an accepted coordinate meets, read off the receiver's counters: `Replay` on the current chain only. */
  function RefusalOf(st: RatchetState, custody: set<Token>, header: Header, offered: Option<Token>): ErrorCode {
    if header.dh == st.peerPublic then Replay
    else if header.pn < st.nr || header.pn - st.nr > 256 then StaleRatchet
    else if |st.skipped| + (header.pn - st.nr) > 1024 then SkipBound
    else if offered.None? then InvalidTransition
    else if offered.value !in custody || st.localPrivate !in custody then RecordAuthentication
    else if header.n > 256 || |st.skipped| + (header.pn - st.nr) + header.n > 1024 then SkipBound
    else RecordAuthentication
  }

  /** An accepted coordinate is stored no more, and used up if it is on the current chain. */
  lemma AcceptedLiesBehind(w: World, p: Party, c: Coordinate)
    requires Inv(w) && Accepted(p, c) in w.accepted
    ensures c !in w.State(p).skipped && c.dh.PublicOf? && w.State(p).receiving.Some?
    ensures c.dh == w.State(p).peerPublic ==> c.n < w.State(p).nr
    ensures forall k: nat | w.State(p).nr <= k :: Coordinate(w.State(p).peerPublic, k) !in w.State(p).skipped
  {
    hide Inv, NetworkInv, EpochKeys, ChainAt, ChainTerm, RootTerm, EpochOf;
    InvFor(w, p);
    var e := w.epochs;
    EpochOfKey(e, ReceiveEpoch(e, p));
    assert Below(e, ReceiveEpoch(e, p), w.State(p).nr, c);
  }

  /** In every reachable world an accepted coordinate is reported as a replay exactly while its epoch is the current one. */
  lemma AcceptedPacketsReplayExactly(w: World, p: Party, custody: set<Token>, packet: Packet, offered: Option<Token>)
    requires Reachable(w) && Accepted(p, CoordinateOf(packet)) in w.accepted
    requires PacketLength(packet) <= MAX_PROTECTED_PACKET_BYTES
    ensures Receive(w.State(p), custody, packet, offered) == Err(Invalid(Replay)) <==>
            packet.header.dh == w.State(p).peerPublic
  {
    hide Inv, Reachable;
    ReachableIsSound(w);
    AcceptedLiesBehind(w, p, CoordinateOf(packet));
    ReplayExactly(w.State(p), custody, packet, offered);
  }

  lemma TurningRefuses(st: RatchetState, custody: set<Token>, packet: Packet, offered: Option<Token>)
    requires packet.header.dh.PublicOf? && packet.header.dh != st.peerPublic && st.receiving.Some?
    requires forall k: nat | st.nr <= k :: Coordinate(st.peerPublic, k) !in st.skipped
    ensures var r := ReceiveDhTransition(st, custody, packet.header, offered);
            match r
            case Err(e) => e == Invalid(RefusalOf(st, custody, packet.header, offered))
            case Ok(turned) =>
              var inner := ReceiveInChain(turned, packet);
              inner.Ok? || inner == Err(Invalid(RefusalOf(st, custody, packet.header, offered)))
  {
    hide DhStep, KeysAt, ChainAt;
    var header := packet.header;
    if st.nr <= header.pn {
      SkipAddsTheRange(st.skipped, st.peerPublic, st.receiving.value, st.nr, header.pn);
    }
  }

  /** Which refusal meets an accepted coordinate, over every run and any network: it is never accepted again. */
  lemma AcceptedPacketsMeetTheirRefusal(w: World, p: Party, custody: set<Token>, packet: Packet, offered: Option<Token>)
    requires Reachable(w) && Accepted(p, CoordinateOf(packet)) in w.accepted
    requires Admissible(w, DeliverAction(p, custody, packet, offered))
    requires PacketLength(packet) <= MAX_PROTECTED_PACKET_BYTES
    ensures Receive(w.State(p), custody, packet, offered) ==
            Err(Invalid(RefusalOf(w.State(p), custody, packet.header, offered)))
  {
    hide Inv, Reachable, Admissible, ReceiveInChain, ReceiveDhTransition;
    ReachableIsSound(w);
    AcceptedLiesBehind(w, p, CoordinateOf(packet));
    if packet.header.dh == w.State(p).peerPublic {
      AcceptedPacketsReplayExactly(w, p, custody, packet, offered);
    } else {
      DeliverIsSound(w, p, custody, packet, offered);
      TurningRefuses(w.State(p), custody, packet, offered);
    }
  }

  // ---- A replay that is not reported as one ----

  lemma {:induction false} RunAppends(w: World, actions: seq<Action>, a: Action)
    requires |w.epochs| >= 2 && AdmissibleRun(w, actions) && Admissible(Run(w, actions), a)
    ensures AdmissibleRun(w, actions + [a]) && Run(w, actions + [a]) == Step(Run(w, actions), a)
    decreases |actions|
  {
    hide Step, Admissible;
    if actions != [] {
      AcceptedOnlyGrows(w, actions[0]);
    }
    AcceptedOnlyGrows(Run(w, actions), a);
    if actions == [] {
      assert [a][1..] == [];
      assert Run(w, [a]) == Run(Step(w, a), []);
    } else {
      RunAppends(Step(w, actions[0]), actions[1..], a);
      assert (actions + [a])[1..] == actions[1..] + [a];
    }
  }

  lemma ReachableStep(w: World, a: Action)
    requires Reachable(w) && |w.epochs| >= 2 && Admissible(w, a)
    ensures Reachable(Step(w, a))
  {
    hide Step, Admissible, Run, AdmissibleRun;
    var session, initiatorKey, prekey, actions :| ReachedBy(w, session, initiatorKey, prekey, actions);
    RunAppends(Start(session, initiatorKey, prekey), actions, a);
    assert ReachedBy(Step(w, a), session, initiatorKey, prekey, actions + [a]);
  }

  datatype Stance = Stance(local: Token, peer: Token, pn: nat, ns: nat, nr: nat)

  /** The keys and counters of a state that stores nothing. */
  predicate At(st: RatchetState, s: Stance) {
    && st.localPrivate == s.local && st.localPublic == PublicOf(s.local) && st.peerPublic == PublicOf(s.peer)
    && st.pn == s.pn && st.ns == s.ns && st.nr == s.nr && st.skipped == map[]
  }

  /** Receiving the first packet of the epoch that follows key `from` with previous count `pn` misses nothing before it. */
  predicate Meets(to: Stance, from: Token, pn: nat, custody: set<Token>, offered: Option<Token>) {
    && to.nr <= 1 && to.nr == (if from == to.peer then 0 else pn)
    && (from != to.peer ==> offered.Some? && {offered.value, to.local} <= custody)
  }

  function Moved(to: Stance, from: Token, offered: Option<Token>): Stance
    requires from != to.peer ==> offered.Some?
  {
    if from == to.peer then to.(nr := 1) else Stance(offered.value, from, to.ns, 0, 1)
  }

  lemma FirstPacketMoves(
    st: RatchetState, custody: set<Token>, packet: Packet, offered: Option<Token>, to: Stance, from: Token)
    requires At(st, to) && packet.header.dh == PublicOf(from) && packet.header.n == 0
    requires Meets(to, from, packet.header.pn, custody, offered)
    requires Receive(st, custody, packet, offered).Ok?
    ensures var (next, _) := Receive(st, custody, packet, offered).value;
            && At(next, Moved(to, from, offered))
            && (if from == to.peer then next.sending == st.sending && next.sendDirection == st.sendDirection
                else next.sending.Some?)
  {
    hide DhStep, KeysAt, Following;
  }

  lemma FirstPacketIsReceived(
    w: World, p: Party, packet: Packet, custody: set<Token>, offered: Option<Token>, to: Stance, from: Token)
    requires Reachable(w) && Undelivered(w, p, packet) && (offered.Some? ==> Unused(w.epochs, offered.value))
    requires At(w.State(p), to) && packet.header.dh == PublicOf(from) && packet.header.n == 0
    requires Meets(to, from, packet.header.pn, custody, offered)
    ensures Receive(w.State(p), custody, packet, offered).Ok?
  {
    hide Reachable, Undelivered, Receive, Unused;
    UndeliveredPacketsMeetTheirFate(w, p, custody, packet, offered);
  }

  lemma NextCoordinateIsNew(w: World, p: Party)
    requires Inv(w)
    ensures Accepted(p.Peer(), Coordinate(w.State(p).localPublic, w.State(p).ns)) !in w.accepted
  {
    hide Inv, NetworkInv, EpochKeys, ChainAt, ChainTerm, RootTerm, EpochOf;
    InvFor(w, p);
    var e, k := w.epochs, SendEpoch(w.epochs, p);
    assert w.State(p).ns == |e[k].plaintexts| && w.State(p).localPublic == PublicOf(e[k].key);
    hide FieldsInv, StoreInv;
    AcceptedLiesWithin(w, p.Peer(), Coordinate(w.State(p).localPublic, w.State(p).ns));
    EpochOfKey(e, k);
  }

  lemma AcceptedLiesWithin(w: World, p: Party, c: Coordinate)
    requires Inv(w)
    ensures Accepted(p, c) in w.accepted ==>
              EpochOf(w.epochs, c.dh) >= 1 && c.n < |w.epochs[EpochOf(w.epochs, c.dh)].plaintexts|
  {
    hide Inv, NetworkInv, EpochKeys, ChainAt, ChainTerm, RootTerm, EpochOf;
    InvFor(w, p);
    if Accepted(p, c) in w.accepted {
      assert Below(w.epochs, ReceiveEpoch(w.epochs, p), w.State(p).nr, c);
    }
  }

  /** A reachable world in which `p` is about to open or continue an exchange with its peer. */
  ghost predicate Knows(w: World, p: Party, from: Stance, to: Stance, keys: set<Token>) {
    && Reachable(w) && |w.epochs| >= 2 && At(w.State(p), from) && At(w.State(p.Peer()), to)
    && forall j | 0 <= j < |w.epochs| :: w.epochs[j].key in keys
  }

  function Sending(w: World, p: Party): (r: (World, Packet))
    requires |w.epochs| >= 2 && Send(w.State(p), []).Ok?
    ensures |r.0.epochs| >= 2
  {
    (Step(w, SendAction(p, [])), Send(w.State(p), []).value.1)
  }

  /** The world after `p` sends an empty plaintext and its peer receives the packet. */
  function Exchange(w: World, p: Party, custody: set<Token>, offered: Option<Token>): World
    requires |w.epochs| >= 2 && Send(w.State(p), []).Ok?
  {
    var (sent, packet) := Sending(w, p);
    Step(sent, DeliverAction(p.Peer(), custody, packet, offered))
  }

  lemma FirstPacketIsSent(w: World, p: Party, from: Stance, to: Stance, keys: set<Token>)
    requires Knows(w, p, from, to, keys) && w.State(p).sending.Some? && from.ns == 0
    ensures Send(w.State(p), []).Ok?
    ensures var (sent, packet) := Sending(w, p);
            && Knows(sent, p, from.(ns := 1), to, keys) && sent.State(p).sending.Some?
            && sent.State(p.Peer()) == w.State(p.Peer()) && sent.accepted == w.accepted
            && packet.header == Header(PublicOf(from.local), from.pn, 0) && Undelivered(sent, p.Peer(), packet)
  {
    hide Inv, Reachable, KeysAt, Following;
    ReachableIsSound(w);
    NextCoordinateIsNew(w, p);
    ReachableStep(w, SendAction(p, []));
  }

  /** The first packet of an epoch is exchanged, on the receiver's current chain or by turning to the next. */
  lemma ExchangeSucceeds(
    w: World, p: Party, custody: set<Token>, offered: Option<Token>, from: Stance, to: Stance, keys: set<Token>)
    requires Knows(w, p, from, to, keys) && w.State(p).sending.Some? && from.ns == 0
    requires Meets(to, from.local, from.pn, custody, offered) && (offered.Some? ==> offered.value !in keys)
    ensures Send(w.State(p), []).Ok?
    ensures var after, before := Exchange(w, p, custody, offered), w.State(p.Peer());
            && Knows(after, p, from.(ns := 1), Moved(to, from.local, offered),
                     if offered.Some? then keys + {offered.value} else keys)
            && after.session == w.session && after.State(p).sending.Some?
            && (if from.local == to.peer then
                  after.State(p.Peer()).sending == before.sending && after.State(p.Peer()).sendDirection == before.sendDirection
                else after.State(p.Peer()).sending.Some?)
            && Accepted(p.Peer(), Coordinate(PublicOf(from.local), 0)) in after.accepted && w.accepted <= after.accepted
            && Sent(p, Sending(w, p).1) in after.network && w.network <= after.network
  {
    hide Reachable, Receive;
    FirstPacketIsSent(w, p, from, to, keys);
    var (sent, packet) := Sending(w, p);
    FirstPacketIsReceived(sent, p.Peer(), packet, custody, offered, to, from.local);
    FirstPacketMoves(sent.State(p.Peer()), custody, packet, offered, to, from.local);
    ReachableStep(sent, DeliverAction(p.Peer(), custody, packet, offered));
  }

  /** The responder, which has read one packet, bootstraps its sending chain. */
  lemma BootstrapSucceeds(w: World)
    requires Knows(w, Responder, Stance(2, 1, 0, 0, 1), Stance(1, 2, 0, 1, 0), {1, 2})
    requires w.responder.sending.None? && w.responder.sendDirection.ResponderToInitiator?
    ensures var after := Step(w, BootstrapAction({3}, 3));
            && Knows(after, Responder, Stance(3, 1, 0, 0, 1), Stance(1, 2, 0, 1, 0), {1, 2, 3})
            && after.session == w.session && after.responder.sending.Some?
            && w.network <= after.network && w.accepted <= after.accepted
  {
    hide Reachable, DhStep;
    ReachableStep(w, BootstrapAction({3}, 3));
  }

  /** The packet was sent by the initiator and accepted by the responder. */
  predicate Arrived(w: World, packet: Packet) {
    Sent(Initiator, packet) in w.network && Accepted(Responder, CoordinateOf(packet)) in w.accepted
  }

  lemma InitiatorWrites(session: Session) returns (w: World, packet: Packet)
    ensures Knows(w, Responder, Stance(2, 1, 0, 0, 1), Stance(1, 2, 0, 1, 0), {1, 2}) && w.session == session
    ensures w.responder.sending.None? && w.responder.sendDirection.ResponderToInitiator?
    ensures Arrived(w, packet) && packet.header == Header(PublicOf(1), 0, 0)
    ensures PacketLength(packet) <= MAX_PROTECTED_PACKET_BYTES
  {
    var w0 := Start(session, 1, 2);
    assert ReachedBy(w0, session, 1, 2, []);
    hide Reachable, Step, Receive, Exchange;
    ExchangeSucceeds(w0, Initiator, {}, None, Stance(1, 2, 0, 0, 0), Stance(2, 1, 0, 0, 0), {1, 2});
    w, packet := Exchange(w0, Initiator, {}, None), Sending(w0, Initiator).1;
  }

  lemma BothWriteOn(w: World) returns (later: World)
    requires Knows(w, Responder, Stance(3, 1, 0, 0, 1), Stance(1, 2, 0, 1, 0), {1, 2, 3}) && w.responder.sending.Some?
    ensures Reachable(later) && later.session == w.session && At(later.responder, Stance(5, 4, 1, 0, 1))
    ensures w.network <= later.network && w.accepted <= later.accepted
  {
    hide Reachable, Step, Receive, Exchange, At, Send;
    ExchangeSucceeds(w, Responder, {1, 4}, Some(4), Stance(3, 1, 0, 0, 1), Stance(1, 2, 0, 1, 0), {1, 2, 3});
    var answered := Exchange(w, Responder, {1, 4}, Some(4));
    ExchangeSucceeds(answered, Initiator, {3, 5}, Some(5), Stance(4, 3, 1, 0, 1), Stance(3, 1, 0, 1, 1), {1, 2, 3, 4});
    later := Exchange(answered, Initiator, {3, 5}, Some(5));
  }

  lemma StaleReplay(st: RatchetState, packet: Packet)
    requires At(st, Stance(5, 4, 1, 0, 1)) && packet.header == Header(PublicOf(1), 0, 0)
    requires PacketLength(packet) <= MAX_PROTECTED_PACKET_BYTES
    ensures forall custody, offered :: Receive(st, custody, packet, offered) == Err(Invalid(StaleRatchet))
  {
  }

  /**
   Over any session, the initiator writes, the responder answers, and the initiator writes
   again. The first packet, accepted and delivered once more, is then reported as a stale
   ratchet: `Replay` is not what every accepted packet meets.
   */
  lemma ReplaysMayLookStale(session: Session)
    ensures exists w: World, packet: Packet ::
              && Reachable(w) && w.session == session && Arrived(w, packet)
              && (forall custody, offered ::
                    Receive(w.responder, custody, packet, offered) == Err(Invalid(StaleRatchet)))
  {
    hide Reachable, Step, Receive;
    var w, packet := InitiatorWrites(session);
    BootstrapSucceeds(w);
    var later := BothWriteOn(Step(w, BootstrapAction({3}, 3)));
    StaleReplay(later.responder, packet);
    assert Arrived(later, packet);
  }
}

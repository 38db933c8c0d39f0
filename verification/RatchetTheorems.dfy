/** The invariant holds throughout every admissible run, and what follows from it. */
module RatchetTheorems {
  import opened Errors
  import opened Integers
  import opened Octets
  import opened Symbolic
  import opened Ratchet
  import opened RatchetRuns
  import opened RatchetSafety

  lemma StartIsSound(session: Session, initiatorKey: Token, prekey: Token)
    requires initiatorKey != prekey
    ensures Inv(Start(session, initiatorKey, prekey))
  {
    var w := Start(session, initiatorKey, prekey);
    var e := w.epochs;
    assert EpochOf(e[..1], PublicOf(prekey)) == 0 by {
      EpochOfKey(e[..1], 0);
    }
    forall sent: Sent
      ensures !IsHonest(session, e, sent)
    {
    }
    forall p: Party
      ensures FieldsInv(session, e, p, w.State(p)) && StoreInv(session, e, p, w.State(p), {})
    {
      forall c: Coordinate
        ensures !Below(e, ReceiveEpoch(e, p), 0, c)
      {
      }
    }
  }

  lemma InvFor(w: World, p: Party)
    requires Inv(w)
    ensures EpochsOk(w.epochs) && PlaintextsFit(w.epochs) && NetworkInv(w.session, w.epochs, w.network)
    ensures FieldsInv(w.session, w.epochs, p, w.State(p)) && StoreInv(w.session, w.epochs, p, w.State(p), w.accepted)
  {
  }

  lemma InvFrom(w: World, p: Party)
    requires EpochsOk(w.epochs) && PlaintextsFit(w.epochs) && NetworkInv(w.session, w.epochs, w.network)
    requires FieldsInv(w.session, w.epochs, p, w.State(p)) && StoreInv(w.session, w.epochs, p, w.State(p), w.accepted)
    requires FieldsInv(w.session, w.epochs, p.Peer(), w.State(p.Peer()))
    requires StoreInv(w.session, w.epochs, p.Peer(), w.State(p.Peer()), w.accepted)
    ensures Inv(w)
  {
    hide FieldsInv, StoreInv, NetworkInv, EpochsOk, PlaintextsFit;
    forall q: Party
      ensures FieldsInv(w.session, w.epochs, q, w.State(q)) && StoreInv(w.session, w.epochs, q, w.State(q), w.accepted)
    {
      assert q == p || q == p.Peer();
    }
  }

  lemma HonestIffSent(w: World, sent: Sent)
    requires Inv(w)
    ensures sent in w.network <==> IsHonest(w.session, w.epochs, sent)
  {
  }

  // ---- Sending ----

  lemma HonestPacketsAreStable(s: Session, e: seq<Epoch>, f: seq<Epoch>, j: nat, n: nat)
    requires EpochsOk(e) && EpochsOk(f) && Continues(e, f)
    requires 1 <= j < |e| && n < |e[j].plaintexts| && (j >= 2 ==> |f[j - 2].plaintexts| == |e[j - 2].plaintexts|)
    ensures HonestPacket(s, e, j, n) == HonestPacket(s, f, j, n)
  {
    ContinuesEpochKeys(s, e, f, j, n);
  }

  lemma SendKeepsInv(w: World, party: Party, plaintext: Bytes)
    requires Inv(w)
    ensures Inv(Step(w, SendAction(party, plaintext)))
  {
    hide Inv, EpochsOk, NetworkInv, FieldsInv, StoreInv, Send;
    var e, s, st := w.epochs, w.session, w.State(party);
    var q := party.Peer();
    InvFor(w, party);
    InvFor(w, q);
    if Send(st, plaintext).Ok? {
      SenderMovesOn(s, e, party, st, plaintext, w.accepted);
      var f := AppendPlaintext(e, SendEpoch(e, party), plaintext);
      Undisturbed(s, e, f, q, w.State(q), w.accepted, w.accepted);
      NetworkGrowsByOne(s, e, party, plaintext, w.network);
      SentPlaintextsFit(st, plaintext);
      InvFrom(Step(w, SendAction(party, plaintext)), party);
    }
  }

  lemma SentPlaintextsFit(st: RatchetState, plaintext: Bytes)
    requires Send(st, plaintext).Ok?
    ensures |plaintext| <= MAX_PLAINTEXT_BYTES
  {
  }

  lemma SenderMovesOn(
    s: Session, e: seq<Epoch>, p: Party, st: RatchetState, plaintext: Bytes, x: set<Accepted>)
    requires EpochsOk(e) && FieldsInv(s, e, p, st) && StoreInv(s, e, p, st, x)
    requires Send(st, plaintext).Ok?
    ensures var f := AppendPlaintext(e, SendEpoch(e, p), plaintext);
            var (next, packet) := Send(st, plaintext).value;
            && SendEpoch(e, p) > 0 && EpochsOk(f) && Continues(e, f)
            && FieldsInv(s, f, p, next) && StoreInv(s, f, p, next, x)
            && st.ns == |e[SendEpoch(e, p)].plaintexts|
            && packet == HonestPacket(s, f, SendEpoch(e, p), st.ns)
  {
    hide StoreInv, HonestPacket, FieldsInv, EpochsOk, Continues, Send;
    SenderKeepsStore(s, e, p, st, plaintext, x);
    SenderKeepsFields(s, e, p, st, plaintext);
    SentIsHonest(s, e, p, st, plaintext);
  }

  lemma SenderKeepsFields(s: Session, e: seq<Epoch>, p: Party, st: RatchetState, plaintext: Bytes)
    requires EpochsOk(e) && FieldsInv(s, e, p, st) && Send(st, plaintext).Ok?
    ensures var k := SendEpoch(e, p);
            var f := AppendPlaintext(e, k, plaintext);
            k > 0 && EpochsOk(f) && st.ns == |e[k].plaintexts| && FieldsInv(s, f, p, Send(st, plaintext).value.0)
  {
    hide KeysAt, DhStep, EpochOf, PreviousCount, HonestPacket;
    var k := SendEpoch(e, p);
    SentIsHonest(s, e, p, st, plaintext);
    assert |e[k].plaintexts| < MAX_U32;
    FieldsIgnoreAppending(s, e, p, st, plaintext);
    hide FieldsInv, EpochsOk;
    AppendedFields(s, AppendPlaintext(e, k, plaintext), p, st, Send(st, plaintext).value.0);
  }

  /** What a state must be, but for its sending counter and chain. */
  ghost predicate FieldsBut(s: Session, e: seq<Epoch>, p: Party, st: RatchetState, sent: nat)
    requires EpochsOk(e)
  {
    var k, r := SendEpoch(e, p), ReceiveEpoch(e, p);
    && k > 0 && st.ns == sent
    && st.sending == Some(ChainAt(ChainTerm(s, e, k), 0, sent))
    && st.context == s.context
    && st.sendDirection == (if p.Initiator? then InitiatorToResponder else ResponderToInitiator)
    && st.localPrivate == e[k].key && st.localPublic == PublicOf(e[k].key)
    && st.peerPublic == PublicOf(e[r].key)
    && st.root == RootTerm(s, e, RootEpoch(e, p))
    && st.pn == PreviousCount(e, k) && st.nr <= |e[r].plaintexts|
    && st.receiving == (if r == 0 then None else Some(ChainAt(ChainTerm(s, e, r), 0, st.nr)))
  }

  lemma FieldsIgnoreAppending(s: Session, e: seq<Epoch>, p: Party, st: RatchetState, plaintext: Bytes)
    requires EpochsOk(e) && FieldsInv(s, e, p, st) && st.sending.Some? && |e[SendEpoch(e, p)].plaintexts| < MAX_U32
    ensures var f := AppendPlaintext(e, SendEpoch(e, p), plaintext);
            EpochsOk(f) && FieldsBut(s, f, p, st, |e[SendEpoch(e, p)].plaintexts|)
            && |f[SendEpoch(e, p)].plaintexts| == st.ns + 1
  {
    hide DhStep, ChainAt, RootTerm, ChainTerm, EpochOf;
    var k, r := SendEpoch(e, p), ReceiveEpoch(e, p);
    var f := AppendPlaintext(e, k, plaintext);
    AppendingContinues(e, k, plaintext);
    TermsAreStable(s, e, f, k);
    TermsAreStable(s, e, f, RootEpoch(e, p));
    if r > 0 {
      TermsAreStable(s, e, f, r);
    }
  }

  lemma AppendedFields(s: Session, f: seq<Epoch>, p: Party, st: RatchetState, next: RatchetState)
    requires EpochsOk(f) && FieldsBut(s, f, p, st, st.ns) && |f[SendEpoch(f, p)].plaintexts| == st.ns + 1
    requires next == st.(sending := Some(Following(st.sending.value, st.ns)), ns := st.ns + 1)
    ensures FieldsInv(s, f, p, next)
  {
    hide RootTerm, ChainTerm, PreviousCount;
  }

  lemma SentIsHonest(s: Session, e: seq<Epoch>, p: Party, st: RatchetState, plaintext: Bytes)
    requires EpochsOk(e) && FieldsInv(s, e, p, st) && Send(st, plaintext).Ok?
    ensures var k := SendEpoch(e, p);
            var f := AppendPlaintext(e, k, plaintext);
            EpochsOk(f) && k > 0 && Send(st, plaintext).value.1 == HonestPacket(s, f, k, st.ns)
            && PreviousCount(f, k) == PreviousCount(e, k)
  {
    var k := SendEpoch(e, p);
    hide KeysAt, DhStep, EpochOf, ChainAt;
    AppendingContinues(e, k, plaintext);
    TermsAreStable(s, e, AppendPlaintext(e, k, plaintext), k);
  }

  lemma SenderKeepsStore(
    s: Session, e: seq<Epoch>, p: Party, st: RatchetState, plaintext: Bytes, x: set<Accepted>)
    requires EpochsOk(e) && FieldsInv(s, e, p, st) && StoreInv(s, e, p, st, x)
    requires Send(st, plaintext).Ok?
    ensures var f := AppendPlaintext(e, SendEpoch(e, p), plaintext);
            EpochsOk(f) && Continues(e, f) && StoreInv(s, f, p, Send(st, plaintext).value.0, x)
  {
    hide Exact, KeysAt, EpochOf, RootTerm, ChainTerm, ChainAt, EpochsOk, Continues;
    AppendingContinues(e, SendEpoch(e, p), plaintext);
    ExactIsStable(
      s, e, AppendPlaintext(e, SendEpoch(e, p), plaintext), p, ReceiveEpoch(e, p), st.nr, st.skipped, x, x);
  }

  lemma AppendingContinues(e: seq<Epoch>, k: nat, plaintext: Bytes)
    requires EpochsOk(e) && 0 < k < |e| && |e[k].plaintexts| < MAX_U32
    ensures EpochsOk(AppendPlaintext(e, k, plaintext)) && Continues(e, AppendPlaintext(e, k, plaintext))
    ensures forall j | 0 <= j < |e| && j != k :: AppendPlaintext(e, k, plaintext)[j] == e[j]
  {
  }

  lemma NetworkGrowsByOne(s: Session, e: seq<Epoch>, p: Party, plaintext: Bytes, network: set<Sent>)
    requires EpochsOk(e) && NetworkInv(s, e, network) && SendEpoch(e, p) > 0
    requires EpochsOk(AppendPlaintext(e, SendEpoch(e, p), plaintext))
    ensures var k := SendEpoch(e, p);
            var f := AppendPlaintext(e, k, plaintext);
            NetworkInv(s, f, network + {Sent(p, HonestPacket(s, f, k, |e[k].plaintexts|))})
  {
    var k := SendEpoch(e, p);
    var f := AppendPlaintext(e, k, plaintext);
    hide IsHonest, HonestPacket, EpochsOk;
    forall sent: Sent
      ensures IsHonest(s, f, sent) <==> IsHonest(s, e, sent) || sent == Sent(p, HonestPacket(s, f, k, |e[k].plaintexts|))
    {
      OneMoreIsHonest(s, e, p, plaintext, sent);
    }
  }

  lemma OneMoreIsHonest(s: Session, e: seq<Epoch>, p: Party, plaintext: Bytes, sent: Sent)
    requires EpochsOk(e) && SendEpoch(e, p) > 0
    requires EpochsOk(AppendPlaintext(e, SendEpoch(e, p), plaintext))
    ensures var k := SendEpoch(e, p);
            var f := AppendPlaintext(e, k, plaintext);
            IsHonest(s, f, sent) <==> IsHonest(s, e, sent) || sent == Sent(p, HonestPacket(s, f, k, |e[k].plaintexts|))
  {
    hide EpochOf, EpochKeys;
    var k := SendEpoch(e, p);
    var f := AppendPlaintext(e, k, plaintext);
    EpochOfKey(f, k);
    assert Continues(e, f);
    var j, n := EpochOf(e, sent.packet.header.dh), sent.packet.header.n;
    ContinuesEpochOf(e, f, sent.packet.header.dh);
    if j >= 1 && n < |e[j].plaintexts| {
      HonestPacketsAreStable(s, e, f, j, n);
    }
  }

  lemma NetworkIgnoresNewEpoch(s: Session, e: seq<Epoch>, latest: Epoch, network: set<Sent>)
    requires EpochsOk(e) && EpochsOk(e + [latest]) && latest.plaintexts == [] && NetworkInv(s, e, network)
    ensures NetworkInv(s, e + [latest], network)
  {
    var f := e + [latest];
    assert Continues(e, f);
    forall sent: Sent
      ensures IsHonest(s, f, sent) <==> IsHonest(s, e, sent)
    {
      var j, n := EpochOf(e, sent.packet.header.dh), sent.packet.header.n;
      ContinuesEpochOf(e, f, sent.packet.header.dh);
      if j >= 1 && n < |e[j].plaintexts| {
        HonestPacketsAreStable(s, e, f, j, n);
      }
    }
  }

  // ---- The responder's bootstrap ----

  lemma BootstrapKeepsInv(w: World, custody: set<Token>, staged: Token)
    requires Inv(w) && Unused(w.epochs, staged)
    ensures Inv(Step(w, BootstrapAction(custody, staged)))
  {
    hide Inv, EpochsOk, NetworkInv, FieldsInv, StoreInv, BootstrapResponder;
    InvFor(w, Responder);
    InvFor(w, Initiator);
    if BootstrapResponder(w.responder, custody, staged).Ok? {
      var f := w.epochs + [Epoch(staged, [])];
      BootstrapOpensEpochTwo(w.session, w.epochs, w.responder, w.accepted, custody, staged);
      Undisturbed(w.session, w.epochs, f, Initiator, w.initiator, w.accepted, w.accepted);
      NetworkIgnoresNewEpoch(w.session, w.epochs, Epoch(staged, []), w.network);
      InvFrom(Step(w, BootstrapAction(custody, staged)), Responder);
    }
  }

  lemma BootstrapOpensEpochTwo(
    s: Session, e: seq<Epoch>, st: RatchetState, x: set<Accepted>, custody: set<Token>, staged: Token)
    requires EpochsOk(e) && FieldsInv(s, e, Responder, st) && StoreInv(s, e, Responder, st, x)
    requires BootstrapResponder(st, custody, staged).Ok? && Unused(e, staged)
    ensures var f := e + [Epoch(staged, [])];
            var next := BootstrapResponder(st, custody, staged).value;
            && |e| == 2 && EpochsOk(f) && Continues(e, f)
            && FieldsInv(s, f, Responder, next) && StoreInv(s, f, Responder, next, x)
  {
    var f := e + [Epoch(staged, [])];
    var next := BootstrapResponder(st, custody, staged).value;
    assert SendEpoch(e, Responder) == 0 && |e| == 2;
    assert Continues(e, f);
    TermsAreStable(s, e, f, 1);
    assert next.root == RootTerm(s, f, 2) && next.sending == Some(ChainTerm(s, f, 2));
    hide Exact;
    ExactIsStable(s, e, f, Responder, 1, st.nr, st.skipped, x, x);
  }

  // ---- Delivery ----

  /** `packet` is the peer's and new to `p`, and `next` is right for the history `f` that follows. */
  ghost predicate Lands(w: World, p: Party, packet: Packet, next: RatchetState, f: seq<Epoch>)
    requires EpochsOk(w.epochs)
  {
    var c := Coordinate(packet.header.dh, packet.header.n);
    && IsHonest(w.session, w.epochs, Sent(p.Peer(), packet))
    && Accepted(p, c) !in w.accepted
    && EpochsOk(f) && Continues(w.epochs, f)
    && (f == w.epochs || f == w.epochs + [Epoch(next.localPrivate, [])])
    && SendEpoch(f, p.Peer()) == SendEpoch(w.epochs, p.Peer())
    && FieldsInv(w.session, f, p, next)
    && StoreInv(w.session, f, p, next, w.accepted + {Accepted(p, c)})
  }

  function EpochsAfter(w: World, p: Party, next: RatchetState): seq<Epoch> {
    if next.localPrivate == w.State(p).localPrivate then w.epochs else w.epochs + [Epoch(next.localPrivate, [])]
  }

  lemma ReceivedLands(
    w: World, p: Party, custody: set<Token>, packet: Packet, offered: Option<Token>, next: RatchetState, plaintext: Bytes)
    requires Inv(w) && Admissible(w, DeliverAction(p, custody, packet, offered))
    requires Receive(w.State(p), custody, packet, offered) == Ok((next, plaintext))
    ensures Lands(w, p, packet, next, EpochsAfter(w, p, next))
  {
    var st := w.State(p);
    hide Exact, NetworkInv, FieldsInv, ReceiveInChain, ReceiveDhTransition;
    if Coordinate(packet.header.dh, packet.header.n) in st.skipped {
      AcceptStored(w, p, packet);
      EpochsContinueThemselves(w.epochs);
    } else if packet.header.dh == st.peerPublic {
      AcceptInChain(w, p, packet, next, plaintext);
      AdvancingKeepsKey(st, packet);
      EpochsContinueThemselves(w.epochs);
    } else {
      var turned := ReceiveDhTransition(st, custody, packet.header, offered).value;
      AcceptNextEpoch(w, p, custody, packet, offered, turned, next, plaintext);
    }
  }

  lemma EpochsContinueThemselves(e: seq<Epoch>)
    ensures Continues(e, e)
  {
  }

  lemma AdvancingKeepsKey(st: RatchetState, packet: Packet)
    requires ReceiveInChain(st, packet).Ok?
    ensures ReceiveInChain(st, packet).value.0.localPrivate == st.localPrivate
  {
  }

  /** What acceptance proves, and that it keeps the invariant. */
  lemma DeliverIsSound(w: World, to: Party, custody: set<Token>, packet: Packet, offered: Option<Token>)
    requires Inv(w) && Admissible(w, DeliverAction(to, custody, packet, offered))
    ensures Inv(Step(w, DeliverAction(to, custody, packet, offered)))
    ensures var r := Receive(w.State(to), custody, packet, offered);
            r.Ok? ==>
              && Sent(to.Peer(), packet) in w.network
              && packet.body.Sealed? && r.value.1 == packet.body.plaintext
              && Accepted(to, Coordinate(packet.header.dh, packet.header.n)) !in w.accepted
  {
    hide Inv, EpochsOk, NetworkInv, FieldsInv, StoreInv, IsHonest, Receive;
    InvFor(w, to);
    var r := Receive(w.State(to), custody, packet, offered);
    if r.Ok? {
      var (next, plaintext) := r.value;
      ReceivedLands(w, to, custody, packet, offered, next, plaintext);
      OpenedBodiesAreSealed(w.State(to), custody, packet, offered);
      HonestIffSent(w, Sent(to.Peer(), packet));
      var f := EpochsAfter(w, to, next);
      PeerUndisturbedByDelivery(w, to, packet, next, f);
      InvFrom(Step(w, DeliverAction(to, custody, packet, offered)), to);
    }
  }

  lemma PeerUndisturbedByDelivery(w: World, to: Party, packet: Packet, next: RatchetState, f: seq<Epoch>)
    requires Inv(w) && Lands(w, to, packet, next, f)
    ensures NetworkInv(w.session, f, w.network)
    ensures var more := w.accepted + {Accepted(to, Coordinate(packet.header.dh, packet.header.n))};
            var q := to.Peer();
            FieldsInv(w.session, f, q, w.State(q)) && StoreInv(w.session, f, q, w.State(q), more)
  {
    hide Inv, EpochsOk, NetworkInv, FieldsInv, StoreInv, IsHonest;
    var q := to.Peer();
    InvFor(w, q);
    if f != w.epochs {
      NetworkIgnoresNewEpoch(w.session, w.epochs, Epoch(next.localPrivate, []), w.network);
    }
    var more := w.accepted + {Accepted(to, Coordinate(packet.header.dh, packet.header.n))};
    Undisturbed(w.session, w.epochs, f, q, w.State(q), w.accepted, more);
  }

  lemma OpenedBodiesAreSealed(st: RatchetState, custody: set<Token>, packet: Packet, offered: Option<Token>)
    requires Receive(st, custody, packet, offered).Ok?
    ensures packet.body.Sealed? && Receive(st, custody, packet, offered).value.1 == packet.body.plaintext
  {
  }

  // ---- Every run ----

  lemma StepKeepsInv(w: World, a: Action)
    requires Inv(w) && Admissible(w, a)
    ensures Inv(Step(w, a))
  {
    match a
    case SendAction(party, plaintext) => SendKeepsInv(w, party, plaintext);
    case BootstrapAction(custody, staged) => BootstrapKeepsInv(w, custody, staged);
    case DeliverAction(to, custody, packet, offered) => DeliverIsSound(w, to, custody, packet, offered);
  }

  lemma {:induction false} RunKeepsInv(w: World, actions: seq<Action>)
    requires Inv(w) && AdmissibleRun(w, actions)
    ensures Inv(Run(w, actions))
    decreases |actions|
  {
    if actions != [] {
      StepKeepsInv(w, actions[0]);
      RunKeepsInv(Step(w, actions[0]), actions[1..]);
    }
  }

  /** A world some admissible run of a fresh session leads to. */
  ghost predicate Reachable(w: World) {
    exists session, initiatorKey, prekey, actions :: ReachedBy(w, session, initiatorKey, prekey, actions)
  }

  ghost predicate ReachedBy(w: World, session: Session, initiatorKey: Token, prekey: Token, actions: seq<Action>) {
    && initiatorKey != prekey
    && AdmissibleRun(Start(session, initiatorKey, prekey), actions)
    && w == Run(Start(session, initiatorKey, prekey), actions)
  }

  lemma ReachableIsSound(w: World)
    requires Reachable(w)
    ensures Inv(w)
  {
    var session, initiatorKey, prekey, actions :| ReachedBy(w, session, initiatorKey, prekey, actions);
    StartIsSound(session, initiatorKey, prekey);
    RunKeepsInv(Start(session, initiatorKey, prekey), actions);
  }

  /**
   Integrity: whatever a party accepts is, header and body together, a packet its peer sent;
   the plaintext is the one sealed there, and the coordinate was not accepted before.
   */
  lemma AcceptedPacketsWereSent(w: World, to: Party, custody: set<Token>, packet: Packet, offered: Option<Token>)
    requires Reachable(w) && Admissible(w, DeliverAction(to, custody, packet, offered))
    requires Receive(w.State(to), custody, packet, offered).Ok?
    ensures Sent(to.Peer(), packet) in w.network && packet.body.Sealed?
    ensures Receive(w.State(to), custody, packet, offered).value.1 == packet.body.plaintext
    ensures Accepted(to, Coordinate(packet.header.dh, packet.header.n)) !in w.accepted
  {
    ReachableIsSound(w);
    DeliverIsSound(w, to, custody, packet, offered);
  }

  lemma AcceptedOnlyGrows(w: World, a: Action)
    requires |w.epochs| >= 2
    ensures |Step(w, a).epochs| >= 2 && w.accepted <= Step(w, a).accepted
  {
  }

  lemma {:induction false} RunAcceptedGrows(w: World, actions: seq<Action>)
    requires |w.epochs| >= 2
    ensures |Run(w, actions).epochs| >= 2 && w.accepted <= Run(w, actions).accepted
    decreases |actions|
  {
    if actions != [] {
      AcceptedOnlyGrows(w, actions[0]);
      RunAcceptedGrows(Step(w, actions[0]), actions[1..]);
    }
  }

  ghost predicate Accepts(w: World, a: Action) {
    a.DeliverAction? && Receive(w.State(a.to), a.custody, a.packet, a.offered).Ok?
  }

  /** No coordinate is accepted twice by one party, however often the network repeats its packet. */
  lemma NoCoordinateIsAcceptedTwice(w: World, first: Action, between: seq<Action>, second: Action)
    requires Inv(w) && AdmissibleRun(w, [first] + between)
    requires Accepts(w, first)
    requires second.DeliverAction? && second.to == first.to
    requires second.packet.header.dh == first.packet.header.dh && second.packet.header.n == first.packet.header.n
    requires Admissible(Run(w, [first] + between), second)
    ensures !Accepts(Run(w, [first] + between), second)
  {
    var after := Step(w, first);
    var late := Run(w, [first] + between);
    assert ([first] + between)[1..] == between;
    RunAcceptedGrows(after, between);
    RunKeepsInv(w, [first] + between);
    DeliverIsSound(late, second.to, second.custody, second.packet, second.offered);
  }

  /** The party that opened the latest epoch. */
  function Leader(w: World): Party {
    if |w.epochs| % 2 == 0 then Initiator else Responder
  }

  /** One party's root is the other's, or exactly one DH step ahead of it. */
  lemma RootsStayOneStepApart(w: World)
    requires Reachable(w)
    ensures |w.epochs| == 2 ==> w.initiator.root == w.responder.root
    ensures |w.epochs| > 2 ==>
              var ahead, behind := w.State(Leader(w)), w.State(Leader(w).Peer());
              ahead.root == DhStep(behind.root, Agree(ahead.localPrivate, behind.localPrivate),
                                   ahead.sendDirection, ahead.context).root
  {
    hide Inv, Reachable, FieldsInv, StoreInv, NetworkInv;
    ReachableIsSound(w);
    InvFor(w, Initiator);
    InvFor(w, Responder);
    if |w.epochs| > 2 {
      RootsFollow(w.session, w.epochs, Leader(w), w.State(Leader(w)), w.State(Leader(w).Peer()));
    } else {
      RootsAgreeAtFirst(w.session, w.epochs, w.initiator, w.responder);
    }
  }

  lemma RootsAgreeAtFirst(s: Session, e: seq<Epoch>, i: RatchetState, r: RatchetState)
    requires EpochsOk(e) && |e| == 2 && FieldsInv(s, e, Initiator, i) && FieldsInv(s, e, Responder, r)
    ensures i.root == r.root
  {
  }

  lemma RootsFollow(s: Session, e: seq<Epoch>, p: Party, ahead: RatchetState, behind: RatchetState)
    requires EpochsOk(e) && |e| > 2 && Owns(p, |e| - 1)
    requires FieldsInv(s, e, p, ahead) && FieldsInv(s, e, p.Peer(), behind)
    ensures ahead.root == DhStep(behind.root, Agree(ahead.localPrivate, behind.localPrivate),
                                 ahead.sendDirection, ahead.context).root
  {
    hide ChainTerm, ChainAt;
    var m := |e| - 1;
    assert SendEpoch(e, p) == m && SendEpoch(e, p.Peer()) == m - 1;
  }

  /** A message key seals one packet only, over both parties and the whole run. */
  lemma NoKeySealsTwice(w: World, x: Sent, y: Sent)
    requires Reachable(w) && x in w.network && y in w.network
    requires x.packet.body.Sealed? && y.packet.body.Sealed? && x.packet.body.key == y.packet.body.key
    ensures x == y
  {
    ReachableIsSound(w);
    var e, s := w.epochs, w.session;
    assert IsHonest(s, e, x) && IsHonest(s, e, y);
    var i, j := EpochOf(e, x.packet.header.dh), EpochOf(e, y.packet.header.dh);
    ChainAtIsInjective(ChainTerm(s, e, i), ChainTerm(s, e, j), x.packet.header.n);
    ChainTermsDiffer(s, e, i, j);
  }

  lemma ChainTermsDiffer(s: Session, e: seq<Epoch>, i: nat, j: nat)
    requires 1 <= i < |e| && 1 <= j < |e| && ChainTerm(s, e, i) == ChainTerm(s, e, j)
    ensures i == j
  {
    if i > 1 && j > 1 {
      RootTermDepth(s, e, i - 1);
      RootTermDepth(s, e, j - 1);
    }
  }

  /** Every stored key waits for a packet the peer sent and this party has not accepted. */
  lemma StoredKeysAwaitPackets(w: World, p: Party, c: Coordinate)
    requires Reachable(w) && c in w.State(p).skipped
    ensures Accepted(p, c) !in w.accepted && |w.State(p).skipped| <= 1024
    ensures exists packet :: Sent(p.Peer(), packet) in w.network && Coordinate(packet.header.dh, packet.header.n) == c
                          && Open(w.State(p).skipped[c], RecordAad(w.session.context, packet.header), packet.body).Ok?
  {
    hide Inv, FieldsInv, NetworkInv, EpochKeys;
    ReachableIsSound(w);
    InvFor(w, p);
    StoredKeysOpenHonestPackets(w.session, w.epochs, p, w.State(p), w.accepted, c);
    var packet := HonestPacket(w.session, w.epochs, EpochOf(w.epochs, c.dh), c.n);
    HonestIffSent(w, Sent(p.Peer(), packet));
  }

  /** The peer sealed a packet at the coordinate, in an epoch this party has reached and below its counter there. */
  ghost predicate Passed(w: World, p: Party, c: Coordinate)
    requires |w.epochs| >= 2
  {
    && (exists packet :: Sent(p.Peer(), packet) in w.network && Coordinate(packet.header.dh, packet.header.n) == c)
    && EpochOf(w.epochs, c.dh) <= ReceiveEpoch(w.epochs, p)
    && (c.dh == w.State(p).peerPublic ==> c.n < w.State(p).nr)
  }

  /** The skipped store holds exactly the coordinates this party has passed over and not accepted. */
  lemma StoreHoldsExactlyTheMissed(w: World, p: Party, c: Coordinate)
    requires Reachable(w)
    ensures |w.epochs| >= 2
    ensures c in w.State(p).skipped <==> Passed(w, p, c) && Accepted(p, c) !in w.accepted
  {
    hide Inv, Reachable, FieldsInv, NetworkInv, EpochKeys, HonestPacket;
    ReachableIsSound(w);
    InvFor(w, p);
    BelowIsPassed(w, p, c);
  }

  lemma BelowIsPassed(w: World, p: Party, c: Coordinate)
    requires Inv(w)
    ensures |w.epochs| >= 2
    ensures Below(w.epochs, ReceiveEpoch(w.epochs, p), w.State(p).nr, c) <==> Passed(w, p, c)
  {
    hide Inv, StoreInv, NetworkInv, EpochKeys, ChainAt, ChainTerm, RootTerm, EpochOf, Passed, HonestPacket;
    InvFor(w, p);
    assert w.State(p).nr <= |w.epochs[ReceiveEpoch(w.epochs, p)].plaintexts|;
    assert w.State(p).peerPublic == PublicOf(w.epochs[ReceiveEpoch(w.epochs, p)].key);
    hide FieldsInv;
    if Below(w.epochs, ReceiveEpoch(w.epochs, p), w.State(p).nr, c) {
      BelowWasPassed(w, p, c);
    }
    if Passed(w, p, c) {
      PassedIsBelow(w, p, c);
    }
  }

  lemma BelowWasPassed(w: World, p: Party, c: Coordinate)
    requires Inv(w) && Below(w.epochs, ReceiveEpoch(w.epochs, p), w.State(p).nr, c)
    requires w.State(p).nr <= |w.epochs[ReceiveEpoch(w.epochs, p)].plaintexts|
    requires w.State(p).peerPublic == PublicOf(w.epochs[ReceiveEpoch(w.epochs, p)].key)
    ensures Passed(w, p, c)
  {
    hide Inv, NetworkInv, EpochKeys, EpochOf, FieldsInv, StoreInv;
    InvFor(w, p);
    var e, r, j := w.epochs, ReceiveEpoch(w.epochs, p), EpochOf(w.epochs, c.dh);
    OwnersAlternate(e, p);
    EpochOfKey(e, r);
    EpochOfKey(e, j);
    HonestIffSent(w, Sent(p.Peer(), HonestPacket(w.session, e, j, c.n)));
  }

  lemma PassedIsBelow(w: World, p: Party, c: Coordinate)
    requires Inv(w) && |w.epochs| >= 2 && Passed(w, p, c)
    requires w.State(p).peerPublic == PublicOf(w.epochs[ReceiveEpoch(w.epochs, p)].key)
    ensures Below(w.epochs, ReceiveEpoch(w.epochs, p), w.State(p).nr, c)
  {
    hide Inv, NetworkInv, EpochKeys, EpochOf, FieldsInv, StoreInv, HonestPacket;
    InvFor(w, p);
    OwnersAlternate(w.epochs, p);
    EpochOfKey(w.epochs, ReceiveEpoch(w.epochs, p));
    var packet :| Sent(p.Peer(), packet) in w.network && Coordinate(packet.header.dh, packet.header.n) == c;
    HonestIffSent(w, Sent(p.Peer(), packet));
  }

  lemma StoredKeysOpenHonestPackets(
    s: Session, e: seq<Epoch>, p: Party, st: RatchetState, x: set<Accepted>, c: Coordinate)
    requires EpochsOk(e) && FieldsInv(s, e, p, st) && StoreInv(s, e, p, st, x) && c in st.skipped
    ensures Accepted(p, c) !in x
    ensures var j := EpochOf(e, c.dh);
            && 1 <= j && c.n < |e[j].plaintexts| && IsHonest(s, e, Sent(p.Peer(), HonestPacket(s, e, j, c.n)))
            && Open(st.skipped[c], RecordAad(s.context, HonestPacket(s, e, j, c.n).header),
                    HonestPacket(s, e, j, c.n).body).Ok?
  {
    hide ChainAt, RootTerm, ChainTerm, EpochOf, KeysAt;
    assert Below(e, ReceiveEpoch(e, p), st.nr, c) && st.skipped[c] == EpochKeys(s, e, EpochOf(e, c.dh), c.n);
    assert st.context == s.context;
    hide FieldsInv, StoreInv;
    OwnersAlternate(e, p);
    EpochOfKey(e, EpochOf(e, c.dh));
  }
}

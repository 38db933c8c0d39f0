/** Progress: exactly when an undelivered honest packet is accepted, and which refusals can meet it. */
module RatchetProgress {
  import opened Errors
  import opened Symbolic
  import opened Ratchet
  import opened RatchetRuns
  import opened RatchetSafety
  import opened RatchetTheorems

  datatype Fate = Delivered | Refused(code: ErrorCode)

  /**
   The fate of an undelivered packet of the peer, read off the receiver's counters: a stored
   coordinate is delivered; one on the current chain is, within the skip bounds; one that
   opens the next epoch needs staged and local keys and both gaps within the bounds.
   */
  function FateOf(st: RatchetState, custody: set<Token>, header: Header, offered: Option<Token>): Fate
    requires header.dh == st.peerPublic ==> Coordinate(header.dh, header.n) in st.skipped || st.nr <= header.n
    requires header.dh != st.peerPublic ==> Coordinate(header.dh, header.n) in st.skipped || st.nr <= header.pn
  {
    if Coordinate(header.dh, header.n) in st.skipped then Delivered
    else if header.dh == st.peerPublic then
      var missed := header.n - st.nr;
      if missed > 256 || |st.skipped| + missed > 1024 then Refused(SkipBound) else Delivered
    else
      var missed := header.pn - st.nr;
      if missed > 256 then Refused(StaleRatchet)
      else if |st.skipped| + missed > 1024 then Refused(SkipBound)
      else if offered.None? then Refused(InvalidTransition)
      else if offered.value !in custody || st.localPrivate !in custody then Refused(RecordAuthentication)
      else if header.n > 256 || |st.skipped| + missed + header.n > 1024 then Refused(SkipBound)
      else Delivered
  }

  /** `packet` is the peer's and was never accepted by `p`. */
  ghost predicate Undelivered(w: World, p: Party, packet: Packet) {
    && Sent(p.Peer(), packet) in w.network
    && Accepted(p, Coordinate(packet.header.dh, packet.header.n)) !in w.accepted
  }

  /** Where an undelivered packet can stand relative to its receiver. */
  lemma UndeliveredPosition(w: World, p: Party, packet: Packet)
    requires Inv(w) && Undelivered(w, p, packet)
    ensures var e, st := w.epochs, w.State(p);
            var c := Coordinate(packet.header.dh, packet.header.n);
            var j := EpochOf(e, packet.header.dh);
            && 1 <= j && packet.header.n < |e[j].plaintexts| && packet == HonestPacket(w.session, e, j, packet.header.n)
            && (packet.header.dh == st.peerPublic <==> j == ReceiveEpoch(e, p))
            && (c !in st.skipped && packet.header.dh == st.peerPublic ==> st.nr <= packet.header.n)
            && (c !in st.skipped && packet.header.dh != st.peerPublic ==>
                  && j == |e| - 1 == SendEpoch(e, p) + 1
                  && packet.header.pn == |e[ReceiveEpoch(e, p)].plaintexts| >= st.nr)
  {
    hide Inv, NetworkInv, EpochKeys, ChainAt, ChainTerm, RootTerm;
    InvFor(w, p);
    HonestIffSent(w, Sent(p.Peer(), packet));
    PositionOfHonest(w.session, w.epochs, p, w.State(p), w.accepted, packet);
  }

  lemma PositionOfHonest(s: Session, e: seq<Epoch>, p: Party, st: RatchetState, x: set<Accepted>, packet: Packet)
    requires EpochsOk(e) && FieldsInv(s, e, p, st) && StoreInv(s, e, p, st, x)
    requires IsHonest(s, e, Sent(p.Peer(), packet))
    requires Accepted(p, Coordinate(packet.header.dh, packet.header.n)) !in x
    ensures var c := Coordinate(packet.header.dh, packet.header.n);
            var j := EpochOf(e, packet.header.dh);
            && (packet.header.dh == st.peerPublic <==> j == ReceiveEpoch(e, p))
            && (c !in st.skipped && packet.header.dh == st.peerPublic ==> st.nr <= packet.header.n)
            && (c !in st.skipped && packet.header.dh != st.peerPublic ==>
                  && j == |e| - 1 == SendEpoch(e, p) + 1
                  && packet.header.pn == |e[ReceiveEpoch(e, p)].plaintexts| >= st.nr)
  {
    hide EpochKeys, ChainAt, ChainTerm, RootTerm, EpochOf, KeysAt;
    var c := Coordinate(packet.header.dh, packet.header.n);
    var j, r := EpochOf(e, c.dh), ReceiveEpoch(e, p);
    EpochOfKey(e, r);
    PeerEpochs(e, p, j);
    assert c in st.skipped <==> Below(e, r, st.nr, c);
  }

  /** An epoch of the peer is the one being read, an earlier one, or the one that comes next. */
  lemma PeerEpochs(e: seq<Epoch>, p: Party, j: nat)
    requires |e| >= 2 && 1 <= j < |e| && Owns(p.Peer(), j)
    ensures var r := ReceiveEpoch(e, p);
            || j == r
            || (j < r && (r - j) % 2 == 0)
            || (j == |e| - 1 == SendEpoch(e, p) + 1 && r + 2 == j)
            || (r == 0 && j == |e| - 1 == SendEpoch(e, p) + 1)
  {
  }

  lemma ChainDeliversHonest(
    s: Session, e: seq<Epoch>, p: Party, st: RatchetState, n: nat)
    requires EpochsOk(e) && FieldsInv(s, e, p, st)
    requires ReceiveEpoch(e, p) >= 1 && st.nr <= n < |e[ReceiveEpoch(e, p)].plaintexts|
    ensures var packet := HonestPacket(s, e, ReceiveEpoch(e, p), n);
            var r := ReceiveInChain(st, packet);
            if OverSkipBound(st.skipped, n - st.nr) then r == Err(Invalid(SkipBound))
            else r.Ok? && r.value.1 == e[ReceiveEpoch(e, p)].plaintexts[n]
  {
    ChainYieldsEpochKeys(s, e, p, st, n);
    hide ChainAt, ChainTerm, RootTerm, Skip;
  }

  lemma StoreDeliversHonest(
    s: Session, e: seq<Epoch>, p: Party, st: RatchetState, x: set<Accepted>, j: nat, n: nat)
    requires EpochsOk(e) && FieldsInv(s, e, p, st) && StoreInv(s, e, p, st, x)
    requires 1 <= j < |e| && n < |e[j].plaintexts| && Coordinate(PublicOf(e[j].key), n) in st.skipped
    ensures var packet := HonestPacket(s, e, j, n);
            var keys := st.skipped[Coordinate(packet.header.dh, n)];
            Open(keys, RecordAad(st.context, packet.header), packet.body) == Ok(e[j].plaintexts[n])
  {
    hide ChainAt, ChainTerm, RootTerm;
    EpochOfKey(e, j);
  }

  /** Turning for the next epoch fails only for a gap, a full store, or a missing key. */
  lemma TurnSucceedsWithinBounds(
    s: Session, e: seq<Epoch>, p: Party, st: RatchetState, custody: set<Token>, header: Header, offered: Option<Token>)
    requires EpochsOk(e) && FieldsInv(s, e, p, st)
    requires header.dh.PublicOf? && header.pn == |e[ReceiveEpoch(e, p)].plaintexts|
    ensures st.nr <= header.pn
    ensures var missed := header.pn - st.nr;
            var r := ReceiveDhTransition(st, custody, header, offered);
            if missed > MAX_SKIP_PER_RECORD then r == Err(Invalid(StaleRatchet))
            else if |st.skipped| + missed > MAX_SKIPPED_KEYS then r == Err(Invalid(SkipBound))
            else if offered.None? then r == Err(Invalid(InvalidTransition))
            else if offered.value !in custody || st.localPrivate !in custody then r == Err(Invalid(RecordAuthentication))
            else r.Ok?
  {
    hide ChainAt, ChainTerm, RootTerm, Skip, DhStep;
  }

  lemma TurnedStoreSize(
    s: Session, e: seq<Epoch>, p: Party, st: RatchetState, x: set<Accepted>,
    custody: set<Token>, header: Header, offered: Option<Token>, turned: RatchetState)
    requires EpochsOk(e) && FieldsInv(s, e, p, st) && StoreInv(s, e, p, st, x)
    requires header.pn == |e[ReceiveEpoch(e, p)].plaintexts|
    requires ReceiveDhTransition(st, custody, header, offered) == Ok(turned)
    ensures |turned.skipped| == |st.skipped| + (header.pn - st.nr) && turned.nr == 0
  {
    hide Exact, DhStep;
    var r := ReceiveEpoch(e, p);
    if r > 0 {
      SkipMovesWatermark(s, e, p, r, st.nr, st.skipped, x, header.pn);
    }
  }

  lemma HonestHeader(s: Session, e: seq<Epoch>, j: nat, n: nat)
    requires EpochsOk(e) && 1 <= j < |e| && n < |e[j].plaintexts|
    ensures HonestPacket(s, e, j, n).header == Header(PublicOf(e[j].key), PreviousCount(e, j), n)
  {
  }

  lemma NextEpochDelivers(
    s: Session, e: seq<Epoch>, p: Party, st: RatchetState, x: set<Accepted>,
    custody: set<Token>, offered: Option<Token>, n: nat)
    requires EpochsOk(e) && |e| >= 3 && n < |e[|e| - 1].plaintexts|
    requires ReceiveDhTransition(st, custody, HonestPacket(s, e, |e| - 1, n).header, offered).Ok?
    requires SendEpoch(e, p) == |e| - 2 && (offered.Some? ==> Unused(e, offered.value))
    requires FieldsInv(s, e, p, st) && StoreInv(s, e, p, st, x)
    ensures var packet := HonestPacket(s, e, |e| - 1, n);
            var turned := ReceiveDhTransition(st, custody, packet.header, offered).value;
            var missed := PreviousCount(e, |e| - 1) - st.nr;
            var r := ReceiveInChain(turned, packet);
            if n > MAX_SKIP_PER_RECORD || |st.skipped| + missed + n > MAX_SKIPPED_KEYS then r == Err(Invalid(SkipBound))
            else r.Ok? && r.value.1 == e[|e| - 1].plaintexts[n]
  {
    hide ReceiveInChain, ReceiveDhTransition, DhStep, EpochOf, Skip, HonestPacket, FieldsInv, StoreInv;
    HonestHeader(s, e, |e| - 1, n);
    var packet := HonestPacket(s, e, |e| - 1, n);
    var turned := ReceiveDhTransition(st, custody, packet.header, offered).value;
    assert offered.Some? by {
      TurnResult(st, custody, packet.header, offered, turned);
    }
    TurnKeepsFields(s, e, p, st, custody, packet.header, offered, turned);
    TurnedStoreSize(s, e, p, st, x, custody, packet.header, offered, turned);
    hide EpochsOk, Continues, Unused;
    var f := e + [Epoch(offered.value, [])];
    HonestPacketsAreStable(s, e, f, |e| - 1, n);
    ChainDeliversHonest(s, f, p, turned, n);
  }

  lemma UndeliveredMeetTheirFate(
    w: World, p: Party, custody: set<Token>, packet: Packet, offered: Option<Token>)
    requires Inv(w) && Undelivered(w, p, packet) && (offered.Some? ==> Unused(w.epochs, offered.value))
    ensures var c := Coordinate(packet.header.dh, packet.header.n);
            && (packet.header.dh == w.State(p).peerPublic ==> c in w.State(p).skipped || w.State(p).nr <= packet.header.n)
            && (packet.header.dh != w.State(p).peerPublic ==> c in w.State(p).skipped || w.State(p).nr <= packet.header.pn)
    ensures packet.body.Sealed?
    ensures var r := Receive(w.State(p), custody, packet, offered);
            match FateOf(w.State(p), custody, packet.header, offered)
            case Delivered => r.Ok? && r.value.1 == packet.body.plaintext
            case Refused(code) => r == Err(Invalid(code))
  {
    hide Inv, FieldsInv, StoreInv, NetworkInv, ReceiveInChain, ReceiveDhTransition, EpochKeys;
    InvFor(w, p);
    UndeliveredPosition(w, p, packet);
    var e, s, st, n := w.epochs, w.session, w.State(p), packet.header.n;
    var j := EpochOf(e, packet.header.dh);
    PlaintextBoundImpliesPacketBound(packet.header, packet.body);
    if Coordinate(packet.header.dh, n) in st.skipped {
      StoreDeliversHonest(s, e, p, st, w.accepted, j, n);
    } else if packet.header.dh == st.peerPublic {
      ChainDeliversHonest(s, e, p, st, n);
    } else {
      TurnSucceedsWithinBounds(s, e, p, st, custody, packet.header, offered);
      if ReceiveDhTransition(st, custody, packet.header, offered).Ok? {
        NextEpochDelivers(s, e, p, st, w.accepted, custody, offered, n);
      }
    }
  }

  /**
   In every reachable world, what `Receive` makes of an undelivered packet of the peer is what
   `FateOf` says, and a delivery yields the plaintext that was sealed. In particular such a
   packet is never reported as a replay, as having too low a previous count, as lacking a
   receiving chain, or as overflowing a counter.
   */
  lemma UndeliveredPacketsMeetTheirFate(
    w: World, p: Party, custody: set<Token>, packet: Packet, offered: Option<Token>)
    requires Reachable(w) && Undelivered(w, p, packet) && (offered.Some? ==> Unused(w.epochs, offered.value))
    ensures var c := Coordinate(packet.header.dh, packet.header.n);
            && (packet.header.dh == w.State(p).peerPublic ==> c in w.State(p).skipped || w.State(p).nr <= packet.header.n)
            && (packet.header.dh != w.State(p).peerPublic ==> c in w.State(p).skipped || w.State(p).nr <= packet.header.pn)
    ensures packet.body.Sealed?
    ensures var r := Receive(w.State(p), custody, packet, offered);
            match FateOf(w.State(p), custody, packet.header, offered)
            case Delivered => r.Ok? && r.value.1 == packet.body.plaintext
            case Refused(code) => r == Err(Invalid(code))
  {
    hide Inv, Reachable, FateOf, Receive, Undelivered;
    ReachableIsSound(w);
    UndeliveredMeetTheirFate(w, p, custody, packet, offered);
  }
}

/** Two linked Endpoints make progress: when a committed record that was not received yet is received, exactly. */
module ChannelProgress {
  import opened Errors
  import opened Symbolic
  import opened State
  import opened Ratchet
  import opened Endpoint
  import opened EndpointRuns
  import opened EndpointDecisions
  import opened EndpointProgress
  import opened Channel
  import opened ChannelTheorems
  import R = RatchetRuns
  import T = RatchetTheorems
  import RatchetProgress

  /** The record's counters lie within what one receive may skip, and a turn has a key to turn with. */
  predicate WithinReach(session: RatchetState, header: Header, offered: bool) {
    || Coordinate(header.dh, header.n) in session.skipped
    || (header.dh == session.peerPublic
        && header.n - session.nr <= 256 && |session.skipped| + (header.n - session.nr) <= 1024)
    || (header.dh != session.peerPublic && offered
        && header.pn - session.nr <= 256 && header.n <= 256
        && |session.skipped| + (header.pn - session.nr) + header.n <= 1024)
  }

  /** The peer's Endpoint committed the record, and this one has not received its coordinate. */
  ghost predicate Awaited(s: System, p: R.Party, record: Packet) {
    && Committed(s.Of(p.Peer()).history, record)
    && R.Accepted(p, Coordinate(record.header.dh, record.header.n)) !in s.world.accepted
  }

  /** What the two sides know of an awaited record. */
  lemma AwaitedIsUndelivered(line: LineIds, s: System, p: R.Party, record: Packet)
    requires Linked(line, s) && Awaited(s, p, record)
    ensures Ready(s) && R.Inv(s.world) && Inv(line, s.Of(p)) && RatchetProgress.Undelivered(s.world, p, record)
    ensures Current(s.Of(p)).state.Established? ==> s.world.State(p) == Current(s.Of(p)).state.session
    ensures record.body.Sealed? && |record.body.plaintext| <= 524_224
  {
    hide R.Inv, Inv, Released, Committed;
    assert PartyLinked(line, s, p) && PartyLinked(line, s, p.Peer());
    SentPlaintextsFit(s.world, p.Peer(), record);
  }

  lemma SentPlaintextsFit(w: R.World, p: R.Party, record: Packet)
    requires R.Inv(w) && R.Sent(p, record) in w.network
    ensures record.body.Sealed? && |record.body.plaintext| <= 524_224
  {
    hide R.EpochOf, R.EpochKeys, R.FieldsInv, R.StoreInv, R.NetworkInv, R.Inv;
    T.InvFor(w, p);
    T.HonestIffSent(w, R.Sent(p, record));
  }

  lemma OfferIsUnused(line: LineIds, s: System, p: R.Party, token: Token)
    requires Linked(line, s) && Unadopted(s.Of(p).keys, token, X25519Private)
    ensures R.Unused(s.world.epochs, token)
  {
    hide Linked;
    AdoptedIsUnused(line, s, p, [Adopt(X25519Private, token)], token);
  }

  /** The ratchet opens an awaited record exactly within its bounds, and then on the plaintext that was sealed. */
  lemma AwaitedRecordsOpen(line: LineIds, s: System, p: R.Party, record: Packet, offered: Option<Token>)
    requires Linked(line, s) && Awaited(s, p, record) && Fits(s.Of(p)) && Current(s.Of(p)).state.Established?
    requires offered.Some? ==> Unadopted(s.Of(p).keys, offered.value, X25519Private)
    ensures record.body.Sealed? && |record.body.plaintext| <= 524_224
    ensures var session := Current(s.Of(p)).state.session;
            var outcome := Opening(s.Of(p).keys, session, ReceiveRecord(record, offered));
            && (outcome.Ok? <==> WithinReach(session, record.header, offered.Some?))
            && (outcome.Ok? ==> outcome.value.1 == record.body.plaintext)
  {
    hide R.Inv, Inv, Linked, Awaited, Receive, RatchetProgress.Undelivered, R.Unused;
    var session := Current(s.Of(p)).state.session;
    AwaitedIsUndelivered(line, s, p, record);
    if offered.Some? {
      OfferIsUnused(line, s, p, offered.value);
    }
    LocalKeyIsKept(line, s.Of(p));
    var custody := Answered(s.Of(p).keys, session, offered);
    RatchetProgress.UndeliveredMeetTheirFate(s.world, p, custody, record, offered);
  }

  lemma LocalKeyIsKept(line: LineIds, b: Backend)
    requires Inv(line, b) && Fits(b) && Current(b).state.Established?
    ensures Kept(b.keys, Current(b).state.session.localPrivate, X25519Private)
  {
    hide PhaseInv, HistoryInv, FatesInv, PacketsInv, ReachedInv;
    assert Reaches(Current(b).state, Current(b).state.session.localPrivate, X25519Private);
    assert AdoptedAs(b.keys, Current(b).state.session.localPrivate, X25519Private);
  }

  /**
   In every linked system, a record that the peer's Endpoint committed and this one has not
   received is committed as received exactly when no plaintext waits here, fewer than sixteen
   items wait, and its counters are within reach, whatever else waits; exactly its plaintext
   then joins the queue.
   */
  lemma AwaitedRecordsAreReceived(line: LineIds, s: System, p: R.Party, record: Packet, offered: Option<Token>)
    requires Linked(line, s) && Awaited(s, p, record) && Fits(s.Of(p)) && Current(s.Of(p)).state.Established?
    requires offered.Some? ==> Unadopted(s.Of(p).keys, offered.value, X25519Private)
    ensures record.body.Sealed?
    ensures var b, op := s.Of(p), ReceiveRecord(record, offered);
            && (Effective(line, b, b.keys, op).Some? <==>
                  && (forall item | item in Current(b).pending :: !item.kind.PlaintextOutput?)
                  && |Current(b).pending| < 16 && Current(b).revision < 9_007_199_254_740_991
                  && WithinReach(Current(b).state.session, record.header, offered.Some?))
            && (Effective(line, b, b.keys, op).Some? ==>
                  Effective(line, b, b.keys, op).value.pending ==
                  Current(b).pending + [PendingItem(RecordReceive(record), PlaintextOutput(record.body.plaintext))])
  {
    hide Linked, Awaited, Effective, Opening, WithinReach, Unadopted;
    AwaitedRecordsOpen(line, s, p, record, offered);
    assert Inv(line, s.Of(p)) by {
      AwaitedIsUndelivered(line, s, p, record);
    }
    hide Inv;
    ReceivesGoThrough(line, s.Of(p), ReceiveRecord(record, offered));
  }

  /** After such a receive the plaintext waits, the coordinate is taken, and both are linked still. */
  lemma ReceivedRecordsArrive(
    line: LineIds, s: System, p: R.Party, record: Packet, offered: Option<Token>, author: Author)
    requires Linked(line, s) && Ready(s) && Awaited(s, p, record) && Current(s.Of(p)).state.Established?
    requires offered.Some? ==> Unadopted(s.Of(p).keys, offered.value, X25519Private)
    requires Effective(line, s.Of(p), s.Of(p).keys, ReceiveRecord(record, offered)).Some?
    ensures var after := After(line, s, Act(p, Perform(author, s.Of(p).keys, ReceiveRecord(record, offered))));
            && Linked(line, after) && record.body.Sealed?
            && PendingItem(RecordReceive(record), PlaintextOutput(record.body.plaintext)) in Current(after.Of(p)).pending
            && R.Accepted(p, Coordinate(record.header.dh, record.header.n)) in after.world.accepted
  {
    hide Linked, Effective, WithinReach, Unadopted, Inv, R.Inv, Advanced, Awaited, Committed, Step;
    var move := Perform(author, s.Of(p).keys, ReceiveRecord(record, offered));
    AwaitedRecordsAreReceived(line, s, p, record, offered);
    AwaitedIsUndelivered(line, s, p, record);
    StepKeepsLink(line, s, Act(p, move));
    ReceiveTakesItsCoordinate(line, s, Act(p, move));
    EffectiveStep(line, s.Of(p), move);
  }
}

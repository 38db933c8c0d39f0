/** What links two Endpoints to one ratchet run is kept by every permitted move of either. */
module ChannelTheorems {
  import opened Errors
  import opened Octets
  import opened Symbolic
  import opened State
  import opened Ratchet
  import opened Handshake
  import opened Endpoint
  import opened EndpointRuns
  import opened EndpointSafety
  import opened EndpointTheorems
  import opened Channel
  import EndpointPaths
  import EndpointHandshake
  import R = RatchetRuns
  import T = RatchetTheorems

  // ---- How the world moves ----

  /** One party moved on to `next`: it may have sent a packet, accepted one, or opened an epoch with its new key. */
  ghost predicate Moved(
    w: R.World, v: R.World, p: R.Party, next: RatchetState, sent: Option<Packet>, accepted: set<R.Accepted>)
  {
    && R.Inv(v)
    && v.State(p) == next && v.State(p.Peer()) == w.State(p.Peer())
    && v.network == w.network + (if sent.Some? then {R.Sent(p, sent.value)} else {})
    && v.accepted == w.accepted + accepted
    && |w.epochs| <= |v.epochs| <= |w.epochs| + 1
    && (forall j | 0 <= j < |w.epochs| :: v.epochs[j].key == w.epochs[j].key)
    && (|v.epochs| == |w.epochs| + 1 ==>
          && v.epochs[|w.epochs|].key == next.localPrivate && R.Owns(p, |w.epochs|)
          && next.localPrivate != w.State(p).localPrivate)
  }

  lemma NewEpochIsOwned(v: R.World, p: R.Party, j: nat)
    requires R.Inv(v) && j < |v.epochs| && v.epochs[j].key == v.State(p).localPrivate
    ensures R.Owns(p, j)
  {
    hide R.EpochsOk;
    T.InvFor(v, p);
    assert v.epochs[R.SendEpoch(v.epochs, p)].key == v.epochs[j].key;
    SameKeySameEpoch(v.epochs, R.SendEpoch(v.epochs, p), j);
  }

  lemma SameKeySameEpoch(e: seq<R.Epoch>, i: nat, j: nat)
    requires R.EpochsOk(e) && i < |e| && j < |e| && e[i].key == e[j].key
    ensures i == j
  {
  }

  lemma InvHasEpochs(w: R.World)
    requires R.Inv(w)
    ensures |w.epochs| >= 2
  {
  }

  lemma SendMoves(w: R.World, p: R.Party, plaintext: Bytes)
    requires R.Inv(w) && Send(w.State(p), plaintext).Ok?
    ensures |w.epochs| >= 2
    ensures var (next, packet) := Send(w.State(p), plaintext).value;
            Moved(w, R.Step(w, R.SendAction(p, plaintext)), p, next, Some(packet), {})
  {
    hide R.Inv, Send;
    InvHasEpochs(w);
    T.SendKeepsInv(w, p, plaintext);
  }

  lemma BootstrapMoves(w: R.World, custody: set<Token>, staged: Token)
    requires R.Inv(w) && R.Unused(w.epochs, staged) && BootstrapResponder(w.responder, custody, staged).Ok?
    ensures |w.epochs| >= 2
    ensures Moved(w, R.Step(w, R.BootstrapAction(custody, staged)), R.Responder,
                  BootstrapResponder(w.responder, custody, staged).value, None, {})
    ensures staged == BootstrapResponder(w.responder, custody, staged).value.localPrivate
  {
    hide R.Inv;
    InvHasEpochs(w);
    T.BootstrapKeepsInv(w, custody, staged);
    var v := R.Step(w, R.BootstrapAction(custody, staged));
    NewEpochIsOwned(v, R.Responder, |w.epochs|);
    StateKeyIsInEpochs(w, R.Responder);
  }

  lemma StateKeyIsInEpochs(w: R.World, p: R.Party)
    requires R.Inv(w)
    ensures exists j | 0 <= j < |w.epochs| :: w.epochs[j].key == w.State(p).localPrivate
  {
    T.InvFor(w, p);
    assert w.epochs[R.SendEpoch(w.epochs, p)].key == w.State(p).localPrivate;
  }

  lemma DeliverMoves(w: R.World, p: R.Party, custody: set<Token>, packet: Packet, offered: Option<Token>)
    requires R.Inv(w) && R.Admissible(w, R.DeliverAction(p, custody, packet, offered))
    requires Receive(w.State(p), custody, packet, offered).Ok?
    ensures |w.epochs| >= 2
    ensures var (next, plaintext) := Receive(w.State(p), custody, packet, offered).value;
            var c := R.Accepted(p, Coordinate(packet.header.dh, packet.header.n));
            && Moved(w, R.Step(w, R.DeliverAction(p, custody, packet, offered)), p, next, None, {c})
            && R.Sent(p.Peer(), packet) in w.network && packet.body.Sealed? && packet.body.plaintext == plaintext
            && c !in w.accepted
  {
    hide R.Inv, Receive;
    InvHasEpochs(w);
    T.DeliverIsSound(w, p, custody, packet, offered);
    var v := R.Step(w, R.DeliverAction(p, custody, packet, offered));
    if |v.epochs| == |w.epochs| + 1 {
      NewEpochIsOwned(v, p, |w.epochs|);
    }
  }

  /** A receive that does not rotate does not look at the key it was offered. */
  lemma UnrotatedIgnoresOffer(st: RatchetState, seen: Custody, packet: Packet, offered: Option<Token>)
    requires Receive(st, AnsweringApart(seen, st.localPrivate, offered), packet, offered).Ok?
    requires Receive(st, AnsweringApart(seen, st.localPrivate, offered), packet, offered).value.0.localPrivate == st.localPrivate
    ensures Receive(st, AnsweringApart(seen, st.localPrivate, offered), packet, None)
            == Receive(st, AnsweringApart(seen, st.localPrivate, offered), packet, offered)
  {
  }

  // ---- What the operations do to the session ----

  /** The plaintext that waits after a receive is the one the ratchet opened; nothing else releases any. */
  lemma ReleasesWhatItOpened(line: LineIds, seen: Custody, current: Snapshot, op: Operation, item: PendingItem)
    requires Plan(line, seen, current, op).Ok? && Plan(line, seen, current, op).value.Change?
    requires item in Plan(line, seen, current, op).value.queue && item !in current.pending && item.kind.PlaintextOutput?
    ensures op.ReceiveRecord? && current.state.Established? && item.id == RecordReceive(op.record)
    ensures var session := current.state.session;
            var received := Receive(session, AnsweringApart(seen, session.localPrivate, op.offered), op.record, op.offered);
            received.Ok? && received.value.1 == item.kind.plaintext
  {
    hide Receive, Send, BootstrapResponder, EstablishResponder, VerifiesBundle, VerifiesInitiator;
  }

  predicate IsRecordOp(op: Operation) {
    op.SendRecord? || op.ReceiveRecord? || op.ApplyCapabilityFlow?
  }

  lemma OtherOperationsKeepSession(line: LineIds, seen: Custody, current: Snapshot, op: Operation)
    requires Plan(line, seen, current, op).Ok? && Plan(line, seen, current, op).value.Change?
    requires SessionOf(current.state).Some? && !(current.state.Established? && IsRecordOp(op))
    ensures var change := Plan(line, seen, current, op).value;
            && (SessionOf(change.next) == SessionOf(current.state) || change.next.Closed?)
            && PacketIn(change) == None
            && (forall item | item in change.queue :: item in current.pending)
  {
    hide Receive, Send, BootstrapResponder, EstablishResponder, VerifiesBundle, VerifiesInitiator;
  }

  lemma ClosedForGood(line: LineIds, seen: Custody, current: Snapshot, op: Operation)
    requires current.state.Closed?
    ensures Plan(line, seen, current, op).Err?
  {
  }

  /** A committed record operation moves the world to where the stored session is. */
  lemma RecordOperationsMove(line: LineIds, w: R.World, p: R.Party, seen: Custody, current: Snapshot, op: Operation)
    returns (accepted: set<R.Accepted>)
    requires R.Inv(w) && current.state.Established? && IsRecordOp(op) && w.State(p) == current.state.session
    requires Plan(line, seen, current, op).Ok? && Plan(line, seen, current, op).value.Change?
    requires forall token | token in EndpointPaths.Handles(op) && Adopt(X25519Private, token) in
                    Plan(line, seen, current, op).value.mutations :: R.Unused(w.epochs, token)
    requires op.ReceiveRecord? ==> R.Injectable(w, op.record.body)
    ensures var change := Plan(line, seen, current, op).value;
            var v := R.Run(w, Actions(p, w.State(p).localPrivate, seen, op, change.next));
            && change.next.Established?
            && Moved(w, v, p, change.next.session, PacketIn(change), accepted)
            && (op.ReceiveRecord? ==>
                  && accepted == {R.Accepted(p, Coordinate(op.record.header.dh, op.record.header.n))}
                  && Genuine(w, p, seen, current, op))
  {
    hide R.Inv, R.Step, R.Admissible, Receive, Send, BootstrapResponder, Moved;
    InvHasEpochs(w);
    var change := Plan(line, seen, current, op).value;
    match op
    case ApplyCapabilityFlow(flow) =>
      SendMoves(w, p, flow.before.value);
      RunOne(w, R.SendAction(p, flow.before.value));
      accepted := {};
    case ReceiveRecord(record, offered) =>
      DeliveryMoves(w, p, seen, current, op);
      accepted := {R.Accepted(p, Coordinate(record.header.dh, record.header.n))};
    case SendRecord(plaintext, bootstrap) =>
      accepted := {};
      if bootstrap.None? {
        SendMoves(w, p, plaintext);
        RunOne(w, R.SendAction(p, plaintext));
        assert [] + [R.SendAction(p, plaintext)] == [R.SendAction(p, plaintext)];
      } else {
        BootstrappedSendMoves(w, p, seen, current, op);
      }
  }

  lemma RunOne(w: R.World, a: R.Action)
    requires |w.epochs| >= 2
    ensures R.Run(w, [a]) == R.Step(w, a)
  {
    T.AcceptedOnlyGrows(w, a);
    hide R.Step;
    assert R.Run(R.Step(w, a), []) == R.Step(w, a);
  }

  /** The record an operation opened is one the peer sent, taken at a coordinate never taken before. */
  ghost predicate Genuine(w: R.World, p: R.Party, seen: Custody, current: Snapshot, op: Operation)
    requires op.ReceiveRecord? && current.state.Established?
  {
    var session := current.state.session;
    var received := Receive(session, AnsweringApart(seen, session.localPrivate, op.offered), op.record, op.offered);
    && R.Sent(p.Peer(), op.record) in w.network && op.record.body.Sealed?
    && received.Ok? && received.value.1 == op.record.body.plaintext
    && R.Accepted(p, Coordinate(op.record.header.dh, op.record.header.n)) !in w.accepted
  }

  lemma DeliveryMoves(w: R.World, p: R.Party, seen: Custody, current: Snapshot, op: Operation)
    requires R.Inv(w) && current.state.Established? && op.ReceiveRecord? && w.State(p) == current.state.session
    requires PlanReceiveRecord(seen, current, op).Ok? && R.Injectable(w, op.record.body)
    requires op.offered.Some? ==>
               Adopt(X25519Private, op.offered.value) in PlanReceiveRecord(seen, current, op).value.mutations ==>
                 R.Unused(w.epochs, op.offered.value)
    ensures |w.epochs| >= 2
    ensures var change := PlanReceiveRecord(seen, current, op).value;
            change.Change? && change.next.Established? &&
            Moved(w, R.Run(w, Actions(p, w.State(p).localPrivate, seen, op, change.next)), p, change.next.session, None,
                  {R.Accepted(p, Coordinate(op.record.header.dh, op.record.header.n))})
    ensures Genuine(w, p, seen, current, op)
  {
    hide R.Inv, R.Step, Receive, Moved, R.Injectable, R.Unused, AnsweringApart;
    InvHasEpochs(w);
    var session := current.state.session;
    var change := PlanReceiveRecord(seen, current, op).value;
    var custody := AnsweringApart(seen, session.localPrivate, op.offered);
    var rotated := change.next.session.localPrivate != session.localPrivate;
    var offered := if rotated then op.offered else None;
    if !rotated {
      UnrotatedIgnoresOffer(session, seen, op.record, op.offered);
    } else {
      assert change.mutations[0] == Adopt(X25519Private, op.offered.value);
    }
    assert Receive(session, custody, op.record, offered) == Receive(session, custody, op.record, op.offered);
    DeliverMoves(w, p, custody, op.record, offered);
    RunOne(w, R.DeliverAction(p, custody, op.record, offered));
  }

  lemma BootstrappedSendMoves(w: R.World, p: R.Party, seen: Custody, current: Snapshot, op: Operation)
    requires R.Inv(w) && current.state.Established? && op.SendRecord? && w.State(p) == current.state.session
    requires op.bootstrap.Some? && PlanSendRecord(seen, current, op).Ok?
    requires R.Unused(w.epochs, op.bootstrap.value)
    ensures |w.epochs| >= 2
    ensures var change := PlanSendRecord(seen, current, op).value;
            change.Change? && change.next.Established? &&
            Moved(w, R.Run(w, Actions(p, w.State(p).localPrivate, seen, op, change.next)), p, change.next.session,
                  PacketIn(change), {})
  {
    hide R.Inv, R.Step, Send;
    InvHasEpochs(w);
    var custody, staged := Answering(seen, op.bootstrap), op.bootstrap.value;
    var first, second := R.BootstrapAction(custody, staged), R.SendAction(p, op.plaintext);
    OnlyResponderBootstraps(w, p, custody, staged);
    BootstrapMoves(w, custody, staged);
    var u := R.Step(w, first);
    SendMoves(u, p, op.plaintext);
    EndpointSafety.SendAdvances(u.State(p), op.plaintext);
    assert [first] + [second] == [first, second];
    assert R.Run(w, [first, second]) == R.Run(u, [second]) by {
      assert [first, second][1..] == [second];
    }
    RunOne(u, second);
  }

  lemma OnlyResponderBootstraps(w: R.World, p: R.Party, custody: set<Token>, staged: Token)
    requires R.Inv(w) && BootstrapResponder(w.State(p), custody, staged).Ok?
    ensures p == R.Responder
  {
    T.InvFor(w, p);
  }

  // ---- The link ----

  /** Nothing new waits in a snapshot that only keeps what waited before. */
  lemma KeepsWhatWaited(history: seq<Snapshot>, s: Snapshot)
    requires |history| >= 1 && forall item | item in s.pending :: item in history[|history| - 1].pending
    ensures forall packet :: Committed(history + [s], packet) <==> Committed(history, packet)
    ensures forall record, plaintext :: Released(history + [s], record, plaintext) <==> Released(history, record, plaintext)
  {
    var longer := history + [s];
    forall packet
      ensures Committed(longer, packet) <==> Committed(history, packet)
    {
      CommittedBy(history, s, packet);
    }
    forall record, plaintext
      ensures Released(longer, record, plaintext) <==> Released(history, record, plaintext)
    {
      ReleasedBy(history, s, record, plaintext);
    }
  }

  lemma ReleasedBy(history: seq<Snapshot>, s: Snapshot, record: Packet, plaintext: Bytes)
    ensures Released(history + [s], record, plaintext) <==>
            || Released(history, record, plaintext)
            || PendingItem(RecordReceive(record), PlaintextOutput(plaintext)) in s.pending
  {
    var longer := history + [s];
    assert forall r | 0 <= r < |history| :: longer[r] == history[r];
    assert longer[|history|] == s;
  }

  lemma CommitsItsPacket(history: seq<Snapshot>, s: Snapshot, packet: Option<Packet>)
    requires |history| >= 1 && Extends(history[|history| - 1].pending, s.pending, packet)
    ensures forall x :: Committed(history + [s], x) <==> Committed(history, x) || packet == Some(x)
  {
    var queue := history[|history| - 1].pending;
    forall x
      ensures Committed(history + [s], x) <==> Committed(history, x) || packet == Some(x)
    {
      CommittedBy(history, s, x);
      if packet.Some? {
        assert s.pending[|queue|] in s.pending;
      }
      forall item | item in s.pending && item.kind == PacketOutput(x)
        ensures Committed(history, x) || packet == Some(x)
      {
        if s.pending != [] && item !in queue {
          assert s.pending == queue + s.pending[|queue|..];
        }
      }
    }
  }

  /** A token a commit adopts was never a ratchet key of either party. */
  lemma AdoptedIsUnused(line: LineIds, s: System, p: R.Party, ms: seq<KeyMutation>, token: Token)
    requires Linked(line, s) && MutationsValid(s.Of(p).keys, ms) && Adopt(X25519Private, token) in ms
    ensures R.Unused(s.world.epochs, token)
  {
    hide R.Inv, HistoryInv, PhaseInv, CustodyInv, PacketsInv, ReachedInv, QuietInv;
    assert PartyLinked(line, s, p) && PartyLinked(line, s, p.Peer());
    assert MutationValid(s.Of(p).keys, Adopt(X25519Private, token));
    assert token in s.Of(p).issued && token !in s.Of(p).adopted;
    assert token !in s.Of(p.Peer()).adopted;
  }

  /** The other party is not affected by what one party does. */
  lemma PeerStaysLinked(line: LineIds, s: System, act: Act, v: R.World, sent: Option<Packet>, accepted: set<R.Accepted>)
    requires Ready(s) && |v.epochs| >= 2 && PartyLinked(line, s, act.party.Peer())
    requires v.State(act.party.Peer()) == s.world.State(act.party.Peer())
    requires v.network == s.world.network + (if sent.Some? then {R.Sent(act.party, sent.value)} else {})
    requires v.accepted == s.world.accepted + accepted
    ensures var next := s.With(act.party, Step(line, s.Of(act.party), act.move), v);
            Ready(next) && PartyLinked(line, next, act.party.Peer())
  {
    hide Inv, Step, Committed, Released;
    var q := act.party.Peer();
    var next := s.With(act.party, Step(line, s.Of(act.party), act.move), v);
    assert next.Of(q) == s.Of(q);
  }

  lemma StepKeepsKeys(line: LineIds, b: Backend, move: Move)
    requires Fits(b)
    ensures b.adopted <= Step(line, b, move).adopted
    ensures Step(line, b, move).issued == if move.Issue? then b.issued + {move.token} else b.issued
  {
    hide Plan, Effective;
  }

  /** The move commits a record operation. */
  predicate MovesRatchet(line: LineIds, b: Backend, move: Move)
    requires Fits(b)
  {
    move.Perform? && Current(b).state.Established? && IsRecordOp(move.op) && Effective(line, b, move.seen, move.op).Some?
  }

  lemma WorldStays(line: LineIds, s: System, act: Act)
    requires Ready(s) && !MovesRatchet(line, s.Of(act.party), act.move)
    ensures Advanced(s, line, act) == s.world
  {
    hide Effective;
  }

  lemma PartyKeptInSameWorld(line: LineIds, s: System, act: Act)
    requires Ready(s) && PartyLinked(line, s, act.party) && !MovesRatchet(line, s.Of(act.party), act.move)
    ensures PartyLinked(line, s.With(act.party, Step(line, s.Of(act.party), act.move), s.world), act.party)
  {
    hide Inv, Effective, Plan, Committed, Released;
    var b := s.Of(act.party);
    StepKeepsInv(line, b, act.move);
    match act.move
    case Perform(author, seen, op) =>
      if Effective(line, b, seen, op).Some? {
        var change := EffectiveIsPlanned(line, b, seen, op);
        if Current(b).state.Closed? {
          ClosedForGood(line, seen, Current(b), op);
          assert false;
        } else {
          OtherOperationsKeepSession(line, seen, Current(b), op);
          KeepsWhatWaited(b.history, IntoVersioned(Effective(line, b, seen, op).value, Current(b).revision));
        }
      }
    case Settle(author, id) =>
      WithoutIdKeepsOrder(Current(b).pending, id);
      KeepsWhatWaited(
        b.history, Versioned(Current(b).revision + 1, Current(b).state, WithoutId(Current(b).pending, id)));
    case _ =>
  }

  lemma SessionKeyWasAdopted(line: LineIds, b: Backend)
    requires Inv(line, b) && Fits(b) && Current(b).state.Established?
    ensures Current(b).state.session.localPrivate in b.adopted
  {
    assert Reaches(Current(b).state, Current(b).state.session.localPrivate, X25519Private);
  }

  lemma KeysStayLinked(
    w: R.World, v: R.World, p: R.Party, next: RatchetState, sent: Option<Packet>, accepted: set<R.Accepted>, s: System,
    b: Backend)
    requires Moved(w, v, p, next, sent, accepted) && KeysLinked(w.epochs, s.initiator, s.responder)
    requires s.Of(p).adopted <= b.adopted && next.localPrivate in b.adopted
    ensures KeysLinked(v.epochs, s.With(p, b, v).initiator, s.With(p, b, v).responder)
  {
    hide R.Inv;
    var after := s.With(p, b, v);
    forall j | 0 <= j < |v.epochs|
      ensures v.epochs[j].key in if R.Owns(R.Initiator, j) then after.initiator.adopted else after.responder.adopted
    {
      if j < |w.epochs| {
        assert v.epochs[j].key == w.epochs[j].key;
      }
    }
  }

  /** What waits after a record operation was sent by this party, or opened from what the peer sent. */
  lemma QueueStaysLinked(line: LineIds, s: System, act: Act, change: Planned, v: R.World, accepted: set<R.Accepted>)
    requires Ready(s) && PartyLinked(line, s, act.party) && act.move.Perform? && Current(s.Of(act.party)).state.Established?
    requires Plan(line, act.move.seen, Current(s.Of(act.party)), act.move.op) == Ok(change) && change.Change?
    requires s.world.State(act.party) == Current(s.Of(act.party)).state.session
    requires ChangeInv(line, Current(s.Of(act.party)), change)
    requires Moved(s.world, v, act.party, v.State(act.party), PacketIn(change), accepted)
    requires act.move.op.ReceiveRecord? ==>
               && accepted == {R.Accepted(act.party, Coordinate(act.move.op.record.header.dh, act.move.op.record.header.n))}
               && Genuine(s.world, act.party, act.move.seen, Current(s.Of(act.party)), act.move.op)
    ensures var history := s.Of(act.party).history + [Versioned(Current(s.Of(act.party)).revision + 1, change.next, change.queue)];
            && (forall packet :: Committed(history, packet) <==> R.Sent(act.party, packet) in v.network)
            && (forall record, plaintext | Released(history, record, plaintext) ::
                  && R.Sent(act.party.Peer(), record) in v.network && record.body.Sealed?
                  && record.body.plaintext == plaintext
                  && R.Accepted(act.party, Coordinate(record.header.dh, record.header.n)) in v.accepted)
  {
    hide Plan, R.Inv, Inv, Committed, Released, Extends, Follows, PhaseInv, Accounts, SessionStep;
    var p, b := act.party, s.Of(act.party);
    var snapshot := Versioned(Current(b).revision + 1, change.next, change.queue);
    var history := b.history + [snapshot];
    CommitsItsPacket(b.history, snapshot, PacketIn(change));
    forall record, plaintext | Released(history, record, plaintext)
      ensures R.Sent(p.Peer(), record) in v.network && record.body.Sealed? && record.body.plaintext == plaintext
      ensures R.Accepted(p, Coordinate(record.header.dh, record.header.n)) in v.accepted
    {
      ReleasedBy(b.history, snapshot, record, plaintext);
      if !Released(b.history, record, plaintext) {
        var item := PendingItem(RecordReceive(record), PlaintextOutput(plaintext));
        assert item !in Current(b).pending by {
          NotReleasedNotWaiting(b, record, plaintext);
        }
        ReleasesWhatItOpened(line, act.move.seen, Current(b), act.move.op, item);
      }
    }
  }

  lemma NotReleasedNotWaiting(b: Backend, record: Packet, plaintext: Bytes)
    requires Fits(b) && !Released(b.history, record, plaintext)
    ensures PendingItem(RecordReceive(record), PlaintextOutput(plaintext)) !in Current(b).pending
  {
  }

  /** The world moves with a committed record operation. */
  lemma WorldMovesByRecord(line: LineIds, s: System, act: Act)
    returns (change: Planned, accepted: set<R.Accepted>)
    requires Linked(line, s) && Permitted(s, act) && MovesRatchet(line, s.Of(act.party), act.move)
    ensures var b := s.Of(act.party);
            && Plan(line, act.move.seen, Current(b), act.move.op) == Ok(change) && change.Change? && change.next.Established?
            && Effective(line, b, act.move.seen, act.move.op).value == Commit.Commit(change.next, change.mutations, change.queue)
            && MutationsValid(b.keys, change.mutations)
    ensures |Advanced(s, line, act).epochs| >= 2
    ensures Moved(s.world, Advanced(s, line, act), act.party, change.next.session, PacketIn(change), accepted)
    ensures act.move.op.ReceiveRecord? ==>
              && accepted == {R.Accepted(act.party, Coordinate(act.move.op.record.header.dh, act.move.op.record.header.n))}
              && Genuine(s.world, act.party, act.move.seen, Current(s.Of(act.party)), act.move.op)
  {
    hide Inv, Effective, Plan, R.Inv, Committed, Released, Moved, Genuine, MutationsValid;
    var p, b, seen, op := act.party, s.Of(act.party), act.move.seen, act.move.op;
    assert PartyLinked(line, s, p);
    change := EffectiveIsPlanned(line, b, seen, op);
    forall token | token in EndpointPaths.Handles(op) && Adopt(X25519Private, token) in change.mutations
      ensures R.Unused(s.world.epochs, token)
    {
      AdoptedIsUnused(line, s, p, change.mutations, token);
    }
    accepted := RecordOperationsMove(line, s.world, p, seen, Current(b), op);
    assert |Advanced(s, line, act).epochs| >= 2;
  }

  lemma PartyKeptByRecord(line: LineIds, s: System, act: Act)
    returns (session: RatchetState, sent: Option<Packet>, accepted: set<R.Accepted>)
    requires Linked(line, s) && Permitted(s, act) && MovesRatchet(line, s.Of(act.party), act.move)
    ensures |Advanced(s, line, act).epochs| >= 2
    ensures Moved(s.world, Advanced(s, line, act), act.party, session, sent, accepted)
    ensures PartyLinked(line, After(line, s, act), act.party)
    ensures KeysLinked(Advanced(s, line, act).epochs, After(line, s, act).initiator, After(line, s, act).responder)
  {
    hide Inv, Effective, Plan, R.Inv, PartyLinked, KeysLinked, Genuine, MutationsValid, Permitted, Advanced, Moved, Step;
    var p, b := act.party, s.Of(act.party);
    LinkedParts(line, s, p);
    hide Linked;
    var change;
    change, accepted := WorldMovesByRecord(line, s, act);
    session, sent := change.next.session, PacketIn(change);
    EffectiveStep(line, b, act.move);
    PartyFollows(line, s, act, change, accepted);
    assert KeysLinked(Advanced(s, line, act).epochs, After(line, s, act).initiator, After(line, s, act).responder) by {
      StepKeepsKeys(line, b, act.move);
      assert Inv(line, Step(line, b, act.move)) by {
        PartyIsSound(line, s, p);
        StepKeepsInv(line, b, act.move);
      }
      SessionKeyWasAdopted(line, Step(line, b, act.move));
      KeysStayLinked(s.world, Advanced(s, line, act), p, session, sent, accepted, s, Step(line, b, act.move));
    }
  }

  lemma PartyIsSound(line: LineIds, s: System, p: R.Party)
    requires Ready(s) && PartyLinked(line, s, p)
    ensures Inv(line, s.Of(p))
    ensures Current(s.Of(p)).state.Established? ==> s.world.State(p) == Current(s.Of(p)).state.session
  {
    hide Inv, Committed, Released;
  }

  /** Where the party stands after its committed record operation is linked to where the world has moved. */
  lemma PartyFollows(line: LineIds, s: System, act: Act, change: Planned, accepted: set<R.Accepted>)
    requires Ready(s) && PartyLinked(line, s, act.party) && MovesRatchet(line, s.Of(act.party), act.move)
    requires Plan(line, act.move.seen, Current(s.Of(act.party)), act.move.op) == Ok(change) && change.Change?
    requires change.next.Established? && MutationsValid(s.Of(act.party).keys, change.mutations)
    requires Effective(line, s.Of(act.party), act.move.seen, act.move.op).value
             == Commit.Commit(change.next, change.mutations, change.queue)
    requires Moved(s.world, Advanced(s, line, act), act.party, change.next.session, PacketIn(change), accepted)
    requires act.move.op.ReceiveRecord? ==>
               && accepted == {R.Accepted(act.party, Coordinate(act.move.op.record.header.dh, act.move.op.record.header.n))}
               && Genuine(s.world, act.party, act.move.seen, Current(s.Of(act.party)), act.move.op)
    ensures PartyLinked(line, After(line, s, act), act.party)
  {
    hide Inv, Effective, Plan, R.Inv, Committed, Released, ChangeInv, Genuine, MutationsValid, Advanced, Step;
    var p, b, v := act.party, s.Of(act.party), Advanced(s, line, act);
    assert ChangeInv(line, Current(b), change) && Current(b).revision == |b.history| - 1 by {
      InvParts(line, b);
      PlanKeeps(line, act.move.seen, b.keys, Current(b), act.move.op);
    }
    assert v.State(p) == change.next.session by {
      MovedParts(s.world, v, p, change.next.session, PacketIn(change), accepted);
    }
    QueueStaysLinked(line, s, act, change, v, accepted);
    hide Moved;
    EffectiveStep(line, b, act.move);
    assert Inv(line, Step(line, b, act.move)) by {
      StepKeepsInv(line, b, act.move);
    }
  }

  lemma EffectiveStep(line: LineIds, b: Backend, move: Move)
    requires Fits(b) && move.Perform? && Effective(line, b, move.seen, move.op).Some?
    ensures var commit := Effective(line, b, move.seen, move.op).value;
            && Step(line, b, move).history == b.history + [IntoVersioned(commit, Current(b).revision)]
            && Current(Step(line, b, move)) == IntoVersioned(commit, Current(b).revision)
  {
    hide Effective;
  }

  lemma InvParts(line: LineIds, b: Backend)
    requires Inv(line, b) && Fits(b)
    ensures PhaseInv(line, Current(b).state) && CustodyInv(Current(b).state, b.keys)
    ensures Current(b).revision == |b.history| - 1
  {
  }

  // ---- Main theorems ----

  /** Both parties and their keys are linked to the world. */
  ghost predicate AllLinked(line: LineIds, s: System, p: R.Party)
    requires Ready(s)
  {
    && R.Inv(s.world) && KeysLinked(s.world.epochs, s.initiator, s.responder)
    && PartyLinked(line, s, p) && PartyLinked(line, s, p.Peer())
  }

  lemma LinkedParts(line: LineIds, s: System, p: R.Party)
    requires Linked(line, s)
    ensures Ready(s) && s.initiator.issued !! s.responder.issued && AllLinked(line, s, p)
  {
    hide PartyLinked, R.Inv, KeysLinked;
    assert PartyLinked(line, s, p) && PartyLinked(line, s, p.Peer());
  }

  lemma LinkedFromParts(line: LineIds, s: System, p: R.Party)
    requires Ready(s) && s.initiator.issued !! s.responder.issued && AllLinked(line, s, p)
    ensures Linked(line, s)
  {
    hide PartyLinked, R.Inv, KeysLinked;
    forall q
      ensures PartyLinked(line, s, q)
    {
      assert q == p || q == p.Peer();
    }
  }

  lemma RecordKeepsLink(line: LineIds, s: System, act: Act)
    requires Linked(line, s) && Permitted(s, act) && MovesRatchet(line, s.Of(act.party), act.move)
    ensures AllLinked(line, After(line, s, act), act.party)
  {
    hide Inv, Effective, Plan, R.Inv, PartyLinked, Step, Moved, Permitted, MovesRatchet, KeysLinked;
    var next := After(line, s, act);
    var session, sent, accepted := PartyKeptByRecord(line, s, act);
    LinkedParts(line, s, act.party);
    MovedParts(s.world, next.world, act.party, session, sent, accepted);
    PeerStaysLinked(line, s, act, next.world, sent, accepted);
  }

  lemma OtherMovesKeepLink(line: LineIds, s: System, act: Act)
    requires Linked(line, s) && !MovesRatchet(line, s.Of(act.party), act.move)
    ensures AllLinked(line, After(line, s, act), act.party)
  {
    hide Inv, Effective, Plan, R.Inv, PartyLinked, Step, MovesRatchet, Advanced;
    LinkedParts(line, s, act.party);
    StepKeepsKeys(line, s.Of(act.party), act.move);
    WorldStays(line, s, act);
    PartyKeptInSameWorld(line, s, act);
    PeerStaysLinked(line, s, act, s.world, None, {});
  }

  lemma StepKeepsLink(line: LineIds, s: System, act: Act)
    requires Linked(line, s) && Permitted(s, act)
    ensures Linked(line, After(line, s, act))
  {
    hide AllLinked, Step, R.Injectable, Advanced, MovesRatchet;
    assert AllLinked(line, After(line, s, act), act.party) by {
      hide Linked, Permitted;
      LinkedIsReady(line, s);
      if MovesRatchet(line, s.Of(act.party), act.move) {
        RecordKeepsLink(line, s, act);
      } else {
        OtherMovesKeepLink(line, s, act);
      }
    }
    hide PartyLinked, KeysLinked, R.Inv;
    StepKeepsKeys(line, s.Of(act.party), act.move);
    LinkedFromParts(line, After(line, s, act), act.party);
  }

  lemma MovedParts(
    w: R.World, v: R.World, p: R.Party, next: RatchetState, sent: Option<Packet>, accepted: set<R.Accepted>)
    requires Moved(w, v, p, next, sent, accepted)
    ensures R.Inv(v) && v.State(p) == next && v.State(p.Peer()) == w.State(p.Peer())
    ensures v.network == w.network + (if sent.Some? then {R.Sent(p, sent.value)} else {})
    ensures v.accepted == w.accepted + accepted
  {
  }

  /** Two mirrored parties that have written nothing yet are linked to the start of a ratchet run. */
  lemma MirroredAreLinked(line: LineIds, i: Backend, r: Backend, s: System)
    requires Fits(i) && Fits(r) && i.issued !! r.issued
    requires Current(i).state.InitiatorAwaiting? && Current(r).state.Established?
    requires EndpointHandshake.Mirrored(
               Current(i).state.ratchet, Current(r).state.session, Current(i).state.hybrid, Current(i).state.context)
    requires s == System(i, r, R.Start(R.Session(Current(i).state.hybrid, Current(i).state.context),
                                       Current(i).state.ratchet.localPrivate, Current(r).state.session.localPrivate))
    requires forall packet :: !Committed(i.history, packet) && !Committed(r.history, packet)
    requires forall record, plaintext ::
               !Released(i.history, record, plaintext) && !Released(r.history, record, plaintext)
    requires Inv(line, i) && Inv(line, r)
    ensures Linked(line, s)
  {
    hide R.Inv, Inv, Committed, Released, PartyLinked, Linked;
    assert KeysLinked(s.world.epochs, i, r) && R.Inv(s.world) by {
      SessionKeyWasAdopted(line, r);
      AwaitingKeyWasAdopted(line, i);
      AdoptedWereIssued(line, i);
      AdoptedWereIssued(line, r);
      T.StartIsSound(s.world.session, Current(i).state.ratchet.localPrivate, Current(r).state.session.localPrivate);
    }
    QuietPartyIsLinked(line, s, R.Initiator);
    QuietPartyIsLinked(line, s, R.Responder);
    LinkedFromParts(line, s, R.Initiator);
  }

  /** From the acceptance of its first packet on, the initiator and that responder are linked. */
  lemma BeginIsLinked(line: LineIds, i: Backend, r: Backend, author: Author, seen: Custody, op: Operation)
    requires Inv(line, i) && Inv(line, r) && i.issued !! r.issued
    requires Current(i).state.InitiatorAwaiting? && op.AcceptFirstPacket? && op.packet == Current(i).state.firstPacket
    requires Effective(line, r, seen, op).Some?
    ensures Current(Step(line, r, Perform(author, seen, op))).state.Established?
    ensures Linked(line, Begin(line, i, r, author, seen, op))
  {
    hide R.Inv, Inv, Plan, Effective, Step, Committed, Released, PartyLinked, Linked, EndpointHandshake.Mirrored;
    assert Fits(i) && Fits(r) by {
      InvFits(line, i);
      InvFits(line, r);
    }
    AcceptingStepMirrors(line, i, r, author, seen, op);
    var next := Step(line, r, Perform(author, seen, op));
    StepKeepsKeys(line, r, Perform(author, seen, op));
    NothingWaits(line, i);
    NothingWaitsAtFirst(line, r, author, seen, op);
    StepKeepsInv(line, r, Perform(author, seen, op));
    MirroredAreLinked(line, i, next, Begin(line, i, r, author, seen, op));
  }

  lemma QuietPartyIsLinked(line: LineIds, s: System, p: R.Party)
    requires Ready(s) && Inv(line, s.Of(p)) && SessionOf(Current(s.Of(p)).state) == Some(s.world.State(p))
    requires s.world.network == {} && forall packet :: !Committed(s.Of(p).history, packet)
    requires forall record, plaintext :: !Released(s.Of(p).history, record, plaintext)
    ensures PartyLinked(line, s, p)
  {
    hide Inv, Committed, Released;
  }

  lemma AcceptedPlanMirrors(
    line: LineIds, awaiting: Snapshot, ready: Snapshot, seen: Custody, op: Operation, change: Planned)
    requires PhaseInv(line, awaiting.state) && PhaseInv(line, ready.state) && awaiting.state.InitiatorAwaiting?
    requires op.AcceptFirstPacket? && op.packet == awaiting.state.firstPacket
    requires PlanAcceptFirstPacket(line, seen, ready, op) == Ok(change) && change.Change?
    ensures ready.state.ResponderReady? && change.queue == ready.pending && change.next.Established?
    ensures EndpointHandshake.Mirrored(
              awaiting.state.ratchet, change.next.session, awaiting.state.hybrid, awaiting.state.context)
  {
    hide PhaseInv, PlanAcceptFirstPacket, PlanVerifySessionAccept, EndpointHandshake.Mirrored;
    OnlyReadyAccepts(line, seen, ready, op);
    EndpointHandshake.HonestAcceptVerifies(line, awaiting, seen, ready, op);
    var verify := VerifySessionAccept(change.next.retryAccept.value);
    EndpointHandshake.AcceptBindsBothSessions(line, awaiting, verify, seen, ready, op);
    EndpointHandshake.VerifyingKeepsRatchet(awaiting, verify);
  }

  lemma AcceptingStepMirrors(line: LineIds, i: Backend, r: Backend, author: Author, seen: Custody, op: Operation)
    requires Inv(line, i) && Inv(line, r) && Current(i).state.InitiatorAwaiting?
    requires op.AcceptFirstPacket? && op.packet == Current(i).state.firstPacket && Effective(line, r, seen, op).Some?
    ensures var next := Current(Step(line, r, Perform(author, seen, op))).state;
            next.Established?
            && EndpointHandshake.Mirrored(Current(i).state.ratchet, next.session, Current(i).state.hybrid, Current(i).state.context)
    ensures Current(r).state.ResponderReady?
    ensures Effective(line, r, seen, op).value.pending == Current(r).pending
  {
    hide PhaseInv, Effective, PlanAcceptFirstPacket, EndpointHandshake.Mirrored;
    assert Fits(i) && Fits(r) && PhaseInv(line, Current(i).state) && PhaseInv(line, Current(r).state) by {
      InvFits(line, i);
      InvFits(line, r);
    }
    hide Inv;
    EffectiveStep(line, r, Perform(author, seen, op));
    hide Step;
    var change := EffectiveIsPlanned(line, r, seen, op);
    AcceptedPlanMirrors(line, Current(i), Current(r), seen, op, change);
  }

  lemma OnlyReadyAccepts(line: LineIds, seen: Custody, current: Snapshot, op: Operation)
    requires op.AcceptFirstPacket? && PlanAcceptFirstPacket(line, seen, current, op).Ok?
    requires PlanAcceptFirstPacket(line, seen, current, op).value.Change?
    ensures current.state.ResponderReady? && PlanAcceptFirstPacket(line, seen, current, op).value.queue == current.pending
  {
  }

  lemma AwaitingKeyWasAdopted(line: LineIds, b: Backend)
    requires Inv(line, b) && Fits(b) && Current(b).state.InitiatorAwaiting?
    ensures Current(b).state.ratchet.localPrivate in b.adopted
  {
    assert Reaches(Current(b).state, Current(b).state.ratchet.localPrivate, X25519Private);
  }

  lemma AdoptedWereIssued(line: LineIds, b: Backend)
    requires Inv(line, b)
    ensures b.adopted <= b.issued
  {
  }

  lemma NothingWaits(line: LineIds, b: Backend)
    requires Inv(line, b) && Fits(b) && !Current(b).state.Established? && !Current(b).state.Closed?
    ensures forall packet :: !Committed(b.history, packet)
    ensures forall record, plaintext :: !Released(b.history, record, plaintext)
  {
  }

  lemma NothingWaitsAtFirst(line: LineIds, b: Backend, author: Author, seen: Custody, op: Operation)
    requires Inv(line, b) && Fits(b) && Current(b).state.ResponderReady? && Effective(line, b, seen, op).Some?
    requires Effective(line, b, seen, op).value.pending == Current(b).pending
    ensures var next := Step(line, b, Perform(author, seen, op));
            && (forall packet :: !Committed(next.history, packet))
            && (forall record, plaintext :: !Released(next.history, record, plaintext))
  {
    hide Plan, Effective, Committed, Released;
    NothingWaits(line, b);
    KeepsWhatWaited(b.history, IntoVersioned(Effective(line, b, seen, op).value, Current(b).revision));
  }

  lemma LinkedIsReady(line: LineIds, s: System)
    requires Linked(line, s)
    ensures Ready(s)
  {
  }

  /** Both Endpoints stay linked to one ratchet run, whatever either does and the network injects. */
  lemma {:induction false} RunKeepsLink(line: LineIds, s: System, acts: seq<Act>)
    requires Linked(line, s) && PermittedRun(line, s, acts)
    ensures Linked(line, RunAll(line, s, acts))
    decreases |acts|
  {
    hide Linked, Permitted, After;
    LinkedIsReady(line, s);
    if acts != [] {
      StepKeepsLink(line, s, acts[0]);
      RunKeepsLink(line, After(line, s, acts[0]), acts[1..]);
    }
  }

  /**
   End to end: a plaintext that an Endpoint hands to its caller is the one sealed in a packet
   that the peer's Endpoint committed for sending, whole and unaltered.
   */
  lemma ReleasedPlaintextsWereSent(
    line: LineIds, s: System, acts: seq<Act>, p: R.Party, record: Packet, plaintext: Bytes)
    requires Linked(line, s) && PermittedRun(line, s, acts)
    requires PendingItem(RecordReceive(record), PlaintextOutput(plaintext)) in RunAll(line, s, acts).Of(p).handed
    ensures Committed(RunAll(line, s, acts).Of(p.Peer()).history, record)
    ensures record.body.Sealed? && record.body.plaintext == plaintext
  {
    hide R.Inv, PhaseInv, CustodyInv, FatesInv, PacketsInv, ReachedInv, QuietInv, After, Committed;
    LinkedIsReady(line, s);
    RunKeepsLink(line, s, acts);
    var last := RunAll(line, s, acts);
    assert PartyLinked(line, last, p) && PartyLinked(line, last, p.Peer());
    assert Released(last.Of(p).history, record, plaintext);
    assert R.Sent(p.Peer(), record) in last.world.network;
  }

  lemma AfterKeepsAccepted(line: LineIds, s: System, act: Act)
    requires Ready(s)
    ensures s.world.accepted <= After(line, s, act).world.accepted
  {
    hide Effective, Step, Actions;
    if act.move.Perform? && Effective(line, s.Of(act.party), act.move.seen, act.move.op).Some? {
      T.RunAcceptedGrows(
        s.world,
        Actions(act.party, s.world.State(act.party).localPrivate, act.move.seen, act.move.op,
                Effective(line, s.Of(act.party), act.move.seen, act.move.op).value.nextState));
    }
  }

  lemma {:induction false} RunKeepsAccepted(line: LineIds, s: System, acts: seq<Act>)
    requires Ready(s)
    ensures s.world.accepted <= RunAll(line, s, acts).world.accepted
    decreases |acts|
  {
    hide After;
    if acts != [] {
      AfterKeepsAccepted(line, s, acts[0]);
      RunKeepsAccepted(line, After(line, s, acts[0]), acts[1..]);
    }
  }

  predicate CommitsReceive(line: LineIds, b: Backend, act: Act)
    requires Fits(b)
  {
    && act.move.Perform? && act.move.op.ReceiveRecord? && Current(b).state.Established?
    && Effective(line, b, act.move.seen, act.move.op).Some?
  }

  lemma ReceiveTakesItsCoordinate(line: LineIds, s: System, act: Act)
    requires Linked(line, s) && Permitted(s, act) && CommitsReceive(line, s.Of(act.party), act)
    ensures var header := act.move.op.record.header;
            && R.Accepted(act.party, Coordinate(header.dh, header.n)) !in s.world.accepted
            && R.Accepted(act.party, Coordinate(header.dh, header.n)) in After(line, s, act).world.accepted
  {
    hide Inv, Effective, Plan, R.Inv, Committed, Released, Step;
    var p, b, seen, op := act.party, s.Of(act.party), act.move.seen, act.move.op;
    assert PartyLinked(line, s, p);
    var change := EffectiveIsPlanned(line, b, seen, op);
    forall token | token in EndpointPaths.Handles(op) && Adopt(X25519Private, token) in change.mutations
      ensures R.Unused(s.world.epochs, token)
    {
      AdoptedIsUnused(line, s, p, change.mutations, token);
    }
    var accepted := RecordOperationsMove(line, s.world, p, seen, Current(b), op);
    MovedParts(s.world, After(line, s, act).world, p, change.next.session, PacketIn(change), accepted);
  }

  /** An Endpoint commits at most one receive for a coordinate, however often its packet is replayed. */
  lemma RecordsAreReceivedOnce(line: LineIds, s: System, first: Act, between: seq<Act>, second: Act)
    requires Linked(line, s) && Permitted(s, first) && CommitsReceive(line, s.Of(first.party), first)
    requires PermittedRun(line, After(line, s, first), between)
    requires Permitted(RunAll(line, After(line, s, first), between), second)
    requires second.party == first.party && second.move.Perform? && second.move.op.ReceiveRecord?
    requires SameCoordinate(first.move.op.record, second.move.op.record)
    ensures !CommitsReceive(line, RunAll(line, After(line, s, first), between).Of(second.party), second)
  {
    hide Linked, Permitted, CommitsReceive, After;
    LinkedIsReady(line, s);
    ReceiveTakesItsCoordinate(line, s, first);
    StepKeepsLink(line, s, first);
    RunKeepsLink(line, After(line, s, first), between);
    RunKeepsAccepted(line, After(line, s, first), between);
    var late := RunAll(line, After(line, s, first), between);
    if CommitsReceive(line, late.Of(second.party), second) {
      ReceiveTakesItsCoordinate(line, late, second);
      assert false;
    }
  }
}

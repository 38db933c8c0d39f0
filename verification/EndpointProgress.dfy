/** When an operation that custody answers truthfully is committed, exactly. */
module EndpointProgress {
  import opened Symbolic
  import opened State
  import opened Ratchet
  import opened Endpoint
  import opened EndpointRuns
  import opened EndpointSafety
  import opened EndpointTheorems
  import opened EndpointDecisions

  /** The custody the snapshot belongs to. */
  ghost predicate Matches(line: LineIds, current: Snapshot, keys: Custody) {
    PhaseInv(line, current.state) && CustodyInv(current.state, keys)
  }

  lemma SoundBackendsMatch(line: LineIds, b: Backend)
    requires Inv(line, b)
    ensures Fits(b) && Matches(line, Current(b), b.keys) && QueueInv(Current(b).pending)
  {
    hide PhaseInv, CustodyInv, FatesInv, PacketsInv, ReachedInv, Follows;
  }

  // ---- Custody takes what was planned on its answers ----

  lemma AcceptanceIsHeld(line: LineIds, keys: Custody, current: Snapshot, op: Operation)
    requires op.AcceptFirstPacket? && Matches(line, current, keys)
    requires PlanAcceptFirstPacket(line, keys, current, op).Ok? && PlanAcceptFirstPacket(line, keys, current, op).value.Change?
    ensures MutationsValid(keys, PlanAcceptFirstPacket(line, keys, current, op).value.mutations)
  {
    hide PlanAcceptFirstPacket, PhaseInv, Spent;
    AcceptedShape(line, keys, current, op);
    var active, pair := current.state.active, op.packet.prekey.fields.pairSequence;
    var pairs := Cbor.SortedKeys(active.Keys);
    forall m | m in Spent(active, pairs, pair)
      ensures MutationValid(keys, m)
    {
      SpentSays(active, pairs, pair, m);
      var spent :| spent in pairs && (m == Delete(MlKem768Private, active[spent].mlKemPrivate)
                                      || m == Delete(X25519Private, active[spent].x25519Private));
      assert Reaches(current.state, m.token, m.purpose);
      assert AdoptedAs(keys, m.token, m.purpose);
    }
  }

  lemma DeletionIsHeld(line: LineIds, keys: Custody, current: Snapshot)
    requires Matches(line, current, keys) && PlanDeleteSession(current).Ok?
    ensures MutationsValid(keys, PlanDeleteSession(current).value.mutations)
  {
    hide PhaseInv, AllSpent;
    var ms := PlanDeleteSession(current).value.mutations;
    forall m | m in ms
      ensures MutationValid(keys, m)
    {
      if current.state.ResponderReady? {
        var active := current.state.active;
        AllSpentSays(active, Cbor.SortedKeys(active.Keys), m);
      }
      assert Reaches(current.state, m.token, m.purpose);
      assert AdoptedAs(keys, m.token, m.purpose);
    }
  }

  lemma RecordsAreHeld(line: LineIds, keys: Custody, current: Snapshot, op: Operation)
    requires (op.SendRecord? || op.ReceiveRecord?) && Matches(line, current, keys)
    ensures var planned := if op.SendRecord? then PlanSendRecord(keys, current, op) else PlanReceiveRecord(keys, current, op);
            planned.Ok? && planned.value.Change? ==> MutationsValid(keys, planned.value.mutations)
  {
    hide PhaseInv, Receive, Send;
    if current.state.Established? {
      var session := current.state.session;
      assert Reaches(current.state, session.localPrivate, X25519Private);
      assert AdoptedAs(keys, session.localPrivate, X25519Private);
      if op.ReceiveRecord? {
        var custody := AnsweringApart(keys, session.localPrivate, op.offered);
        if Receive(session, custody, op.record, op.offered).Ok? {
          ReceiveKeepsOrRotates(session, custody, op.record, op.offered);
        }
      }
    }
  }

  lemma KeysAreHeld(line: LineIds, keys: Custody, current: Snapshot, op: Operation)
    requires op.AdmitPrekey? || op.CreateFirstPacket?
    ensures var planned :=
              if op.AdmitPrekey? then PlanAdmitPrekey(line, keys, current, op) else PlanCreateFirstPacket(line, keys, current, op);
            planned.Ok? && planned.value.Change? ==> MutationsValid(keys, planned.value.mutations)
  {
  }

  /** Whatever is planned on custody's own answers, custody can do. */
  lemma PlannedKeysAreHeld(line: LineIds, keys: Custody, current: Snapshot, op: Operation)
    requires Matches(line, current, keys)
    requires Plan(line, keys, current, op).Ok? && Plan(line, keys, current, op).value.Change?
    ensures MutationsValid(keys, Plan(line, keys, current, op).value.mutations)
  {
    hide PlanAdmitPrekey, PlanAcceptFirstPacket, PlanCreateFirstPacket, PlanSendRecord, PlanReceiveRecord, PlanDeleteSession;
    hide Matches;
    match op
    case AdmitPrekey(_, _, _, _, _, _, _) => KeysAreHeld(line, keys, current, op);
    case CreateFirstPacket(_, _, _, _, _, _, _, _, _) => KeysAreHeld(line, keys, current, op);
    case AcceptFirstPacket(_, _, _, _, _) => AcceptanceIsHeld(line, keys, current, op);
    case DeleteSession => DeletionIsHeld(line, keys, current);
    case SendRecord(_, _) => RecordsAreHeld(line, keys, current, op);
    case ReceiveRecord(_, _) => RecordsAreHeld(line, keys, current, op);
    case _ =>
  }

  // ---- Commits ----

  /** On custody's own answers a planned change is committed exactly when its queue is short and distinct, below the last revision. */
  lemma CommitsExactly(line: LineIds, b: Backend, op: Operation)
    requires Inv(line, b)
    ensures Fits(b)
    ensures Effective(line, b, b.keys, op).Some? <==>
              var planned := Plan(line, b.keys, Current(b), op);
              && planned.Ok? && planned.value.Change?
              && |planned.value.queue| <= 16 && DistinctIds(planned.value.queue)
              && Current(b).revision < 9_007_199_254_740_991
  {
    hide Plan, Matches, Inv, DistinctIds;
    SoundBackendsMatch(line, b);
    var planned := Plan(line, b.keys, Current(b), op);
    if planned.Ok? && planned.value.Change? {
      PlannedKeysAreHeld(line, b.keys, Current(b), op);
      OnlyTheQueueIsRefused(line, b, b.keys, op);
    }
  }

  lemma FreshIdExtends(queue: seq<PendingItem>, item: PendingItem)
    requires DistinctIds(queue) && forall other | other in queue :: other.id != item.id
    ensures DistinctIds(queue + [item])
  {
  }

  /**
   A record is sent exactly when no packet waits, fewer than sixteen items wait, and the session
   can seal or, with a staged key, be made to; then exactly its packet joins the queue.
   */
  lemma SendsGoThrough(line: LineIds, b: Backend, op: Operation)
    requires Inv(line, b) && op.SendRecord?
    ensures Fits(b)
    ensures Effective(line, b, b.keys, op).Some? <==>
              && Current(b).state.Established?
              && (forall item | item in Current(b).pending :: !item.kind.PacketOutput?)
              && |Current(b).pending| < 16 && Current(b).revision < 9_007_199_254_740_991
              && match op.bootstrap
                 case None => CanSeal(Current(b).state.session, op.plaintext)
                 case Some(staged) => CanBootstrap(b.keys, Current(b).state.session, staged, op.plaintext)
    ensures Effective(line, b, b.keys, op).Some? ==>
              var queue := Effective(line, b, b.keys, op).value.pending;
              && |queue| == |Current(b).pending| + 1
              && var item := queue[|Current(b).pending|];
                 && queue == Current(b).pending + [item] && item.kind.PacketOutput? && item.id == RecordSend(item.kind.packet)
                 && item.kind.packet.body.Sealed? && item.kind.packet.body.plaintext == op.plaintext
                 && item.kind.packet.header.n == Current(b).state.session.ns
  {
    hide Plan, Effective, Inv, Matches, CanSeal, CanBootstrap, DistinctIds;
    SoundBackendsMatch(line, b);
    CommitsExactly(line, b, op);
    SendExactly(line, b.keys, Current(b), op);
    if Plan(line, b.keys, Current(b), op).Ok? {
      var queue := Current(b).pending;
      var item := Plan(line, b.keys, Current(b), op).value.queue[|queue|];
      NewNamesAreFresh(queue, item);
      FreshIdExtends(queue, item);
    }
    if Effective(line, b, b.keys, op).Some? {
      var change := EffectiveIsPlanned(line, b, b.keys, op);
    }
  }

  /** A packet or plaintext of a record has a new identifier when nothing of its kind waits. */
  lemma NewNamesAreFresh(queue: seq<PendingItem>, item: PendingItem)
    requires QueueInv(queue) && (item.id.RecordSend? || item.id.RecordReceive?)
    requires item.id.RecordSend? ==> forall other | other in queue :: !other.kind.PacketOutput?
    requires item.id.RecordReceive? ==> forall other | other in queue :: !other.kind.PlaintextOutput?
    ensures DistinctIds(queue) && forall other | other in queue :: other.id != item.id
  {
    forall other | other in queue
      ensures other.id != item.id
    {
      assert NamedByKind(other);
    }
  }

  /** A record is received exactly when no plaintext waits, fewer than sixteen items wait, and the ratchet opens it. */
  lemma ReceivesGoThrough(line: LineIds, b: Backend, op: Operation)
    requires Inv(line, b) && op.ReceiveRecord?
    ensures Fits(b)
    ensures Effective(line, b, b.keys, op).Some? <==>
              && Current(b).state.Established?
              && (forall item | item in Current(b).pending :: !item.kind.PlaintextOutput?)
              && |Current(b).pending| < 16 && Current(b).revision < 9_007_199_254_740_991
              && var outcome := Opening(b.keys, Current(b).state.session, op);
                 outcome.Ok? && |outcome.value.1| <= 524_224
    ensures Effective(line, b, b.keys, op).Some? ==>
              var outcome := Opening(b.keys, Current(b).state.session, op).value;
              && Effective(line, b, b.keys, op).value.nextState == Current(b).state.(session := outcome.0)
              && Effective(line, b, b.keys, op).value.pending ==
                 Current(b).pending + [PendingItem(RecordReceive(op.record), PlaintextOutput(outcome.1))]
  {
    hide Plan, Effective, Inv, Matches, Opening, DistinctIds;
    SoundBackendsMatch(line, b);
    CommitsExactly(line, b, op);
    ReceiveExactly(line, b.keys, Current(b), op);
    if Plan(line, b.keys, Current(b), op).Ok? {
      var queue := Current(b).pending;
      var item := PendingItem(RecordReceive(op.record), PlaintextOutput(Opening(b.keys, Current(b).state.session, op).value.1));
      NewNamesAreFresh(queue, item);
      FreshIdExtends(queue, item);
    }
    if Effective(line, b, b.keys, op).Some? {
      var change := EffectiveIsPlanned(line, b, b.keys, op);
    }
  }
}

/** What every single move keeps, operation by operation. */
module EndpointSafety {
  import opened Errors
  import opened Integers
  import opened Octets
  import opened Symbolic
  import opened State
  import opened Handshake
  import opened Ratchet
  import opened Endpoint
  import opened EndpointRuns
  import Cbor

  // ---- What a change has to be ----

  /** The mutations account for every key that the next phase reaches and the current one does not, and back. */
  ghost predicate Accounts(phase: Phase, next: Phase, ms: seq<KeyMutation>) {
    forall token: Token, purpose: Purpose | !purpose.MlKemEntropy? ::
      Reaches(next, token, purpose) <==>
      (Reaches(phase, token, purpose) && Delete(purpose, token) !in ms) || Adopt(purpose, token) in ms
  }

  /** The queue is emptied or extended, by a plaintext, or by a packet and perhaps an effect. */
  predicate Extends(queue: seq<PendingItem>, next: seq<PendingItem>, packet: Option<Packet>) {
    match packet
    case None =>
      || next == [] || next == queue
      || (|next| == |queue| + 1 && next == queue + [next[|queue|]] && next[|queue|].kind.PlaintextOutput?
          && NamedByKind(next[|queue|]) && !HasPlaintext(queue))
    case Some(p) =>
      && |next| > |queue| && next == queue + next[|queue|..] && next[|queue|].kind == PacketOutput(p) && !HasPacket(queue)
      && NamedByKind(next[|queue|])
      && (|next| == |queue| + 1
          || (|next| == |queue| + 2 && next[|queue| + 1].kind.EffectOutput? && NamedByKind(next[|queue| + 1])))
  }

  predicate SessionStep(phase: Phase, next: Phase, ms: seq<KeyMutation>, packet: Option<Packet>) {
    && (packet.Some? ==>
          && phase.Established? && next.Established?
          && packet.value.header.dh == next.session.localPublic && packet.value.header.n + 1 == next.session.ns)
    && (phase.Established? && next.Established? ==>
          || Adopt(X25519Private, next.session.localPrivate) in ms
          || (next.session.localPrivate == phase.session.localPrivate
              && next.session.ns == phase.session.ns + if packet.Some? then 1 else 0))
  }

  function PacketIn(change: Planned): Option<Packet> {
    if !change.Change? then None
    else match change.reply
      case PendingReply(RecordSend(packet)) => Some(packet)
      case ReceiptReply(packet) => Some(packet)
      case _ => None
  }

  ghost predicate ChangeInv(line: LineIds, current: Snapshot, change: Planned)
    requires change.Change?
  {
    && Follows(current.state, change.next)
    && PhaseInv(line, change.next)
    && Accounts(current.state, change.next, change.mutations)
    && Extends(current.pending, change.queue, PacketIn(change))
    && (current.state.Established? || change.queue == [] || change.queue == current.pending)
    && SessionStep(current.state, change.next, change.mutations, PacketIn(change))
  }

  // ---- The ratchet's part ----

  lemma SendAdvances(state: RatchetState, plaintext: Bytes)
    requires Send(state, plaintext).Ok?
    ensures var (next, packet) := Send(state, plaintext).value;
            && next.localPrivate == state.localPrivate && next.localPublic == state.localPublic && next.ns == state.ns + 1
            && packet.header.dh == state.localPublic && packet.header.n == state.ns
  {
  }

  lemma ReceiveKeepsOrRotates(state: RatchetState, custody: set<Token>, packet: Packet, staged: Option<Token>)
    requires Receive(state, custody, packet, staged).Ok?
    ensures var next := Receive(state, custody, packet, staged).value.0;
            || (next.localPrivate == state.localPrivate && next.localPublic == state.localPublic && next.ns == state.ns)
            || (staged == Some(next.localPrivate) && next.localPublic == PublicOf(next.localPrivate)
                && next.localPrivate in custody)
  {
  }

  // ---- Each operation ----

  /** No active pair uses a key that custody still holds as staged. */
  lemma StagedKeysAreNotActive(phase: Phase, keys: Custody, ms: seq<KeyMutation>, x25519: Token, mlKem: Token)
    requires phase.ResponderReady? && CustodyInv(phase, keys) && MutationsValid(keys, ms)
    requires ms == [Adopt(X25519Private, x25519), Adopt(MlKem768Private, mlKem)]
    ensures forall pair | pair in phase.active ::
              phase.active[pair].x25519Private != x25519 && phase.active[pair].mlKemPrivate != mlKem
  {
    assert MutationValid(keys, ms[0]) && MutationValid(keys, ms[1]);
    forall pair | pair in phase.active
      ensures phase.active[pair].x25519Private != x25519 && phase.active[pair].mlKemPrivate != mlKem
    {
      assert Reaches(phase, phase.active[pair].x25519Private, X25519Private);
      assert Reaches(phase, phase.active[pair].mlKemPrivate, MlKem768Private);
    }
  }

  lemma AdmittedPhase(line: LineIds, phase: Phase, pair: nat, prekey: ActivePrekey)
    requires phase.ResponderReady? && PhaseInv(line, phase) && |phase.active| < MAX_ACTIVE_PREKEY_PAIRS
    requires phase.highWater < pair <= MAX_SAFE_INTEGER && PrekeyInv(line, pair, pair, prekey)
    requires forall other | other in phase.active ::
               phase.active[other].x25519Private != prekey.x25519Private
               && phase.active[other].mlKemPrivate != prekey.mlKemPrivate
    ensures pair !in phase.active
    ensures PhaseInv(line, ResponderReady(pair, phase.active[pair := prekey]))
    ensures Follows(phase, ResponderReady(pair, phase.active[pair := prekey]))
  {
    hide PrekeyInv;
    var next := phase.active[pair := prekey];
    assert pair !in phase.active by {
      PairsLieBelow(line, phase, pair);
    }
    assert next.Keys == phase.active.Keys + {pair};
    HigherWaterKeepsPairs(line, phase, pair);
    assert DistinctPrekeys(next);
  }

  lemma PairsLieBelow(line: LineIds, phase: Phase, pair: nat)
    requires phase.ResponderReady? && PhaseInv(line, phase) && phase.highWater < pair
    ensures pair !in phase.active
  {
  }

  lemma HigherWaterKeepsPairs(line: LineIds, phase: Phase, highWater: nat)
    requires phase.ResponderReady? && PhaseInv(line, phase) && phase.highWater <= highWater
    ensures forall pair | pair in phase.active :: PrekeyInv(line, pair, highWater, phase.active[pair])
  {
    hide PrekeyShape;
  }

  lemma AdmitPrekeyKeeps(line: LineIds, seen: Custody, keys: Custody, current: Snapshot, op: Operation)
    requires op.AdmitPrekey? && PhaseInv(line, current.state) && CustodyInv(current.state, keys)
    requires PlanAdmitPrekey(line, seen, current, op).Ok?
    requires MutationsValid(keys, PlanAdmitPrekey(line, seen, current, op).value.mutations)
    ensures ChangeInv(line, current, PlanAdmitPrekey(line, seen, current, op).value)
  {
    hide PhaseInv, CustodyInv, MutationsValid, Follows, Accounts, StagedAs;
    var change := PlanAdmitPrekey(line, seen, current, op).value;
    var prekey := change.next.active[op.pairSequence];
    StagedKeysAreNotActive(current.state, keys, change.mutations, op.x25519, op.mlKem);
    AdmittedPhase(line, current.state, op.pairSequence, prekey);
    AdmittedKeysAccount(current.state, op.pairSequence, prekey);
  }

  lemma AdmittedKeysAccount(phase: Phase, pair: nat, prekey: ActivePrekey)
    requires phase.ResponderReady? && pair !in phase.active
    ensures Accounts(phase, ResponderReady(pair, phase.active[pair := prekey]),
                     [Adopt(X25519Private, prekey.x25519Private), Adopt(MlKem768Private, prekey.mlKemPrivate)])
  {
    hide Reaches;
    forall token: Token, purpose: Purpose | !purpose.MlKemEntropy?
      ensures Reaches(ResponderReady(pair, phase.active[pair := prekey]), token, purpose) <==>
              || Reaches(phase, token, purpose)
              || (purpose.X25519Private? && token == prekey.x25519Private)
              || (purpose.MlKem768Private? && token == prekey.mlKemPrivate)
    {
      AdmittedReach(phase, pair, prekey, token, purpose);
    }
  }

  lemma AdmittedReach(phase: Phase, pair: nat, prekey: ActivePrekey, token: Token, purpose: Purpose)
    requires phase.ResponderReady? && pair !in phase.active
    ensures Reaches(ResponderReady(pair, phase.active[pair := prekey]), token, purpose) <==>
            || Reaches(phase, token, purpose)
            || (purpose.X25519Private? && token == prekey.x25519Private)
            || (purpose.MlKem768Private? && token == prekey.mlKemPrivate)
  {
    var active := phase.active[pair := prekey];
    assert active[pair] == prekey;
    assert forall other | other in phase.active :: other in active && active[other] == phase.active[other];
  }

  lemma {:induction false} SpentSays(active: map<nat, ActivePrekey>, pairs: seq<nat>, spared: nat, m: KeyMutation)
    requires forall pair | pair in pairs :: pair in active
    ensures m in Spent(active, pairs, spared) <==>
            exists pair | pair in pairs ::
              || m == Delete(MlKem768Private, active[pair].mlKemPrivate)
              || (pair != spared && m == Delete(X25519Private, active[pair].x25519Private))
  {
    if pairs != [] {
      SpentSays(active, pairs[1..], spared, m);
      assert pairs == [pairs[0]] + pairs[1..];
    }
  }

  lemma {:induction false} AllSpentSays(active: map<nat, ActivePrekey>, pairs: seq<nat>, m: KeyMutation)
    requires forall pair | pair in pairs :: pair in active
    ensures m in AllSpent(active, pairs) <==>
            exists pair | pair in pairs ::
              m == Delete(MlKem768Private, active[pair].mlKemPrivate) || m == Delete(X25519Private, active[pair].x25519Private)
  {
    if pairs != [] {
      AllSpentSays(active, pairs[1..], m);
      assert pairs == [pairs[0]] + pairs[1..];
    }
  }

  lemma AcceptFirstPacketKeeps(line: LineIds, seen: Custody, current: Snapshot, op: Operation)
    requires op.AcceptFirstPacket? && PhaseInv(line, current.state)
    requires PlanAcceptFirstPacket(line, seen, current, op).Ok?
    requires PlanAcceptFirstPacket(line, seen, current, op).value.Change?
    ensures ChangeInv(line, current, PlanAcceptFirstPacket(line, seen, current, op).value)
  {
    hide PlanAcceptFirstPacket, Accounts, Spent;
    AcceptedShape(line, seen, current, op);
    var pair := op.packet.prekey.fields.pairSequence;
    assert PrekeyInv(line, pair, current.state.highWater, current.state.active[pair]);
    SparedKeyAccounts(current.state, pair, PlanAcceptFirstPacket(line, seen, current, op).value.next);
  }

  lemma AcceptedShape(line: LineIds, seen: Custody, current: Snapshot, op: Operation)
    requires op.AcceptFirstPacket?
    requires PlanAcceptFirstPacket(line, seen, current, op).Ok?
    requires PlanAcceptFirstPacket(line, seen, current, op).value.Change?
    ensures var change, pair := PlanAcceptFirstPacket(line, seen, current, op).value, op.packet.prekey.fields.pairSequence;
            && current.state.ResponderReady? && pair in current.state.active
            && change.mutations == Spent(current.state.active, Cbor.SortedKeys(current.state.active.Keys), pair)
            && change.queue == current.pending && change.reply.AcceptReply?
            && change.next.Established? && change.next.prekeyHighWater == Some(current.state.highWater)
            && change.next.session.localPrivate == current.state.active[pair].x25519Private
            && change.next.session.localPublic == current.state.active[pair].bundle.fields.x25519Public
            && change.next.replayDigest == Some(Transcript(op.packet)) && change.next.retryAccept.Some?
            && change.next.retryAccept.value.fields.transcript == Transcript(op.packet)
  {
    hide VerifiesBundle, VerifiesInitiator, Spent;
  }

  lemma SparedKeyAccounts(phase: Phase, pair: nat, next: Phase)
    requires phase.ResponderReady? && DistinctPrekeys(phase.active) && pair in phase.active
    requires next.Established? && next.session.localPrivate == phase.active[pair].x25519Private
    ensures Accounts(phase, next, Spent(phase.active, Cbor.SortedKeys(phase.active.Keys), pair))
  {
    hide Spent;
    var active, pairs := phase.active, Cbor.SortedKeys(phase.active.Keys);
    forall token: Token, purpose: Purpose | !purpose.MlKemEntropy?
      ensures Reaches(next, token, purpose) <==>
              (Reaches(phase, token, purpose) && Delete(purpose, token) !in Spent(active, pairs, pair))
              || Adopt(purpose, token) in Spent(active, pairs, pair)
    {
      SpentSays(active, pairs, pair, Delete(purpose, token));
      SpentSays(active, pairs, pair, Adopt(purpose, token));
    }
  }

  lemma CreateFirstPacketKeeps(line: LineIds, seen: Custody, current: Snapshot, op: Operation)
    requires op.CreateFirstPacket?
    requires PlanCreateFirstPacket(line, seen, current, op).Ok?
    requires PlanCreateFirstPacket(line, seen, current, op).value.Change?
    ensures ChangeInv(line, current, PlanCreateFirstPacket(line, seen, current, op).value)
  {
  }

  lemma VerifySessionAcceptKeeps(line: LineIds, current: Snapshot, op: Operation)
    requires op.VerifySessionAccept? && PhaseInv(line, current.state)
    requires PlanVerifySessionAccept(current, op).Ok?
    ensures ChangeInv(line, current, PlanVerifySessionAccept(current, op).value)
  {
  }

  lemma SendRecordKeeps(line: LineIds, seen: Custody, current: Snapshot, op: Operation)
    requires op.SendRecord? && PhaseInv(line, current.state)
    requires PlanSendRecord(seen, current, op).Ok?
    ensures ChangeInv(line, current, PlanSendRecord(seen, current, op).value)
  {
    var session := current.state.session;
    var ratchet := if op.bootstrap.None? then session
      else BootstrapResponder(session, Answering(seen, op.bootstrap), op.bootstrap.value).value;
    SendAdvances(ratchet, op.plaintext);
  }

  lemma ReceiveRecordKeeps(line: LineIds, seen: Custody, current: Snapshot, op: Operation)
    requires op.ReceiveRecord? && PhaseInv(line, current.state)
    requires PlanReceiveRecord(seen, current, op).Ok?
    ensures ChangeInv(line, current, PlanReceiveRecord(seen, current, op).value)
  {
    var session := current.state.session;
    ReceiveKeepsOrRotates(session, AnsweringApart(seen, session.localPrivate, op.offered), op.record, op.offered);
  }

  lemma BootstrapCapabilitiesKeeps(line: LineIds, current: Snapshot, op: Operation)
    requires op.BootstrapCapabilities? && PhaseInv(line, current.state)
    requires PlanBootstrapCapabilities(current, op).Ok?
    ensures ChangeInv(line, current, PlanBootstrapCapabilities(current, op).value)
  {
  }

  lemma ApplyCapabilityFlowKeeps(line: LineIds, current: Snapshot, op: Operation)
    requires op.ApplyCapabilityFlow? && PhaseInv(line, current.state)
    requires PlanApplyCapabilityFlow(current, op).Ok?
    ensures ChangeInv(line, current, PlanApplyCapabilityFlow(current, op).value)
  {
    SendAdvances(current.state.session, op.flow.before.value);
  }

  lemma ClosedFollows(line: LineIds, phase: Phase, highWater: Option<nat>)
    ensures PhaseInv(line, Closed(highWater))
    ensures highWater == HighWaterOf(phase) && !phase.Closed? ==> Follows(phase, Closed(highWater))
  {
  }

  lemma DeleteSessionKeeps(line: LineIds, current: Snapshot)
    requires PhaseInv(line, current.state)
    requires PlanDeleteSession(current).Ok?
    ensures ChangeInv(line, current, PlanDeleteSession(current).value)
  {
    hide Accounts, AllSpent, PhaseInv, DistinctPrekeys;
    ClosedFollows(line, current.state, PlanDeleteSession(current).value.next.prekeyHighWater);
    DeletionAccounts(current.state, PlanDeleteSession(current).value.next.prekeyHighWater, PlanDeleteSession(current).value.mutations);
  }

  lemma DeletionAccounts(phase: Phase, highWater: Option<nat>, ms: seq<KeyMutation>)
    requires phase.ResponderReady? ==> ms == AllSpent(phase.active, Cbor.SortedKeys(phase.active.Keys))
    requires phase.Established? ==> ms == [Delete(X25519Private, phase.session.localPrivate)]
    requires phase.InitiatorAwaiting? ==> ms == [Delete(X25519Private, phase.ratchet.localPrivate)]
    requires phase.InitiatorNew? ==> ms == []
    requires !phase.Closed?
    ensures Accounts(phase, Closed(highWater), ms)
  {
    hide AllSpent;
    forall token: Token, purpose: Purpose | !purpose.MlKemEntropy?
      ensures Reaches(phase, token, purpose) ==> Delete(purpose, token) in ms
      ensures Adopt(purpose, token) !in ms
    {
      if phase.ResponderReady? {
        AllSpentSays(phase.active, Cbor.SortedKeys(phase.active.Keys), Delete(purpose, token));
        AllSpentSays(phase.active, Cbor.SortedKeys(phase.active.Keys), Adopt(purpose, token));
      }
    }
  }

  /** What a send leaves waiting, under the identifier it replies with, carries its plaintext under the session's key. */
  lemma SentRecordsWait(line: LineIds, seen: Custody, current: Snapshot, op: Operation)
    requires op.SendRecord? && PhaseInv(line, current.state) && PlanSendRecord(seen, current, op).Ok?
    ensures var change := PlanSendRecord(seen, current, op).value;
            && change.Change? && change.next.Established? && PacketIn(change).Some?
            && change.reply == PendingReply(RecordSend(PacketIn(change).value))
            && PendingItem(RecordSend(PacketIn(change).value), PacketOutput(PacketIn(change).value)) in change.queue
            && PacketIn(change).value.body.Sealed? && PacketIn(change).value.body.plaintext == op.plaintext
            && PacketIn(change).value.header.dh == change.next.session.localPublic
  {
    SendRecordKeeps(line, seen, current, op);
    var change := PlanSendRecord(seen, current, op).value;
    assert change.queue[|current.pending|] in change.queue;
  }

  lemma PlanKeeps(line: LineIds, seen: Custody, keys: Custody, current: Snapshot, op: Operation)
    requires PhaseInv(line, current.state) && CustodyInv(current.state, keys)
    requires Plan(line, seen, current, op).Ok? && Plan(line, seen, current, op).value.Change?
    requires MutationsValid(keys, Plan(line, seen, current, op).value.mutations)
    ensures ChangeInv(line, current, Plan(line, seen, current, op).value)
  {
    hide ChangeInv, PhaseInv, CustodyInv, MutationsValid;
    hide PlanAdmitPrekey, PlanAcceptFirstPacket, PlanCreateFirstPacket, PlanVerifySessionAccept, PlanSendRecord;
    hide PlanReceiveRecord, PlanBootstrapCapabilities, PlanApplyCapabilityFlow, PlanDeleteSession;
    match op
    case AdmitPrekey(_, _, _, _, _, _, _) => AdmitPrekeyKeeps(line, seen, keys, current, op);
    case AcceptFirstPacket(_, _, _, _, _) => AcceptFirstPacketKeeps(line, seen, current, op);
    case CreateFirstPacket(_, _, _, _, _, _, _, _, _) => CreateFirstPacketKeeps(line, seen, current, op);
    case VerifySessionAccept(_) => VerifySessionAcceptKeeps(line, current, op);
    case SendRecord(_, _) => SendRecordKeeps(line, seen, current, op);
    case ReceiveRecord(_, _) => ReceiveRecordKeeps(line, seen, current, op);
    case BootstrapCapabilities(_) => BootstrapCapabilitiesKeeps(line, current, op);
    case ApplyCapabilityFlow(_) => ApplyCapabilityFlowKeeps(line, current, op);
    case DeleteSession => DeleteSessionKeeps(line, current);
  }
}

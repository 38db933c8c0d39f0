/**
 Two Endpoints and the network between them, from the moment the responder accepts the
 initiator's first packet. Every record operation that commits moves one ratchet run on, so
 what holds of ratchets over a tampering network holds of the Endpoints' committed state.
 */
module Channel {
  import opened Errors
  import opened Octets
  import opened Symbolic
  import opened State
  import opened Ratchet
  import opened Endpoint
  import opened EndpointRuns
  import R = RatchetRuns

  datatype System = System(initiator: Backend, responder: Backend, world: R.World) {
    function Of(p: R.Party): Backend {
      if p.Initiator? then initiator else responder
    }

    function With(p: R.Party, b: Backend, w: R.World): System {
      if p.Initiator? then System(b, responder, w) else System(initiator, b, w)
    }
  }

  datatype Act = Act(party: R.Party, move: Move)

  predicate Ready(s: System) {
    Fits(s.initiator) && Fits(s.responder) && |s.world.epochs| >= 2
  }

  /** The ratchet actions that a committed record operation amounts to. */
  function Actions(p: R.Party, local: Token, seen: Custody, op: Operation, next: Phase): seq<R.Action> {
    match op
    case SendRecord(plaintext, bootstrap) =>
      (if bootstrap.Some? then [R.BootstrapAction(Answering(seen, bootstrap), bootstrap.value)] else [])
      + [R.SendAction(p, plaintext)]
    case ApplyCapabilityFlow(flow) => if flow.before.Ok? then [R.SendAction(p, flow.before.value)] else []
    case ReceiveRecord(record, offered) =>
      var rotated := next.Established? && next.session.localPrivate != local;
      [R.DeliverAction(p, AnsweringApart(seen, local, offered), record, if rotated then offered else None)]
    case _ => []
  }

  function Advanced(s: System, line: LineIds, act: Act): (w: R.World)
    requires Ready(s)
    ensures |w.epochs| >= 2
  {
    var b := s.Of(act.party);
    match act.move
    case Perform(_, seen, op) =>
      if Current(b).state.Established? && Effective(line, b, seen, op).Some? then
        R.Run(s.world, Actions(act.party, s.world.State(act.party).localPrivate, seen, op,
                               Effective(line, b, seen, op).value.nextState))
      else s.world
    case _ => s.world
  }

  function After(line: LineIds, s: System, act: Act): (r: System)
    requires Ready(s)
    ensures Ready(r)
  {
    s.With(act.party, Step(line, s.Of(act.party), act.move), Advanced(s, line, act))
  }

  /** Tokens are unique across the two custodies, and the network cannot seal under session keys. */
  ghost predicate Permitted(s: System, act: Act) {
    match act.move
    case Issue(token, _) => token !in s.Of(act.party.Peer()).issued
    case Perform(_, _, ReceiveRecord(record, _)) => R.Injectable(s.world, record.body)
    case _ => true
  }

  function SessionOf(phase: Phase): Option<RatchetState> {
    match phase
    case InitiatorAwaiting(_, _, _, _, ratchet) => Some(ratchet)
    case Established(session, _, _, _, _) => Some(session)
    case _ => None
  }

  /** A plaintext waits, or waited, that was opened from a received record. */
  predicate Released(history: seq<Snapshot>, record: Packet, plaintext: Bytes) {
    exists r | 0 <= r < |history| :: PendingItem(RecordReceive(record), PlaintextOutput(plaintext)) in history[r].pending
  }

  ghost predicate KeysLinked(e: seq<R.Epoch>, i: Backend, r: Backend) {
    forall j | 0 <= j < |e| :: e[j].key in if R.Owns(R.Initiator, j) then i.adopted else r.adopted
  }

  ghost predicate PartyLinked(line: LineIds, s: System, p: R.Party)
    requires Ready(s)
  {
    var b := s.Of(p);
    && Inv(line, b)
    && (SessionOf(Current(b).state) == Some(s.world.State(p)) || Current(b).state.Closed?)
    && (forall packet :: Committed(b.history, packet) <==> R.Sent(p, packet) in s.world.network)
    && (forall record, plaintext | Released(b.history, record, plaintext) ::
          && R.Sent(p.Peer(), record) in s.world.network && record.body.Sealed? && record.body.plaintext == plaintext
          && R.Accepted(p, Coordinate(record.header.dh, record.header.n)) in s.world.accepted)
  }

  ghost predicate Linked(line: LineIds, s: System) {
    && Ready(s)
    && R.Inv(s.world)
    && s.initiator.issued !! s.responder.issued
    && KeysLinked(s.world.epochs, s.initiator, s.responder)
    && forall p :: PartyLinked(line, s, p)
  }

  function RunAll(line: LineIds, s: System, acts: seq<Act>): (r: System)
    requires Ready(s)
    ensures Ready(r)
    decreases |acts|
  {
    if acts == [] then s
    else RunAll(line, After(line, s, acts[0]), acts[1..])
  }

  ghost predicate PermittedRun(line: LineIds, s: System, acts: seq<Act>)
    requires Ready(s)
    decreases |acts|
  {
    acts != [] ==>
      && Permitted(s, acts[0])
      && PermittedRun(line, After(line, s, acts[0]), acts[1..])
  }

  /** The responder has just accepted the first packet the initiator waits with. */
  function Begin(line: LineIds, i: Backend, r: Backend, author: Author, seen: Custody, op: Operation): System
    requires Fits(i) && Fits(r) && Current(i).state.InitiatorAwaiting?
    requires Current(Step(line, r, Perform(author, seen, op))).state.Established?
  {
    var next := Step(line, r, Perform(author, seen, op));
    var awaiting := Current(i).state;
    System(i, next, R.Start(R.Session(awaiting.hybrid, awaiting.context),
                            awaiting.ratchet.localPrivate, Current(next).state.session.localPrivate))
  }
}

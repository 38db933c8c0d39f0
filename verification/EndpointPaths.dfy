/** Runs seen from one call: how they compose, who moved, and which handles they leave alone. */
module EndpointPaths {
  import opened Symbolic
  import opened State
  import opened Handshake
  import opened Ratchet
  import opened Endpoint
  import opened EndpointRuns
  import opened EndpointSafety
  import opened EndpointTheorems
  import Cbor

  lemma {:induction false} RunComposes(line: LineIds, b: Backend, xs: seq<Move>, ys: seq<Move>)
    requires Fits(b)
    ensures Run(line, b, xs + ys) == Run(line, Run(line, b, xs), ys)
    decreases |xs|
  {
    hide Step;
    if xs == [] {
      assert [] + ys == ys;
    } else {
      RunComposes(line, Step(line, b, xs[0]), xs[1..], ys);
      assert (xs + ys)[1..] == xs[1..] + ys;
    }
  }

  // ---- Handles ----

  /** The private handles an operation is given. */
  function Handles(op: Operation): set<Token> {
    match op
    case AdmitPrekey(_, _, _, x25519, mlKem, _, _) => {x25519, mlKem}
    case CreateFirstPacket(_, _, _, _, _, _, _, x25519, entropy) => {x25519, entropy}
    case SendRecord(_, bootstrap) => if bootstrap.Some? then {bootstrap.value} else {}
    case ReceiveRecord(_, offered) => if offered.Some? then {offered.value} else {}
    case _ => {}
  }

  predicate Spares(move: Move, token: Token) {
    match move
    case Abort(other, _) => other != token
    case Perform(_, _, op) => token !in Handles(op)
    case _ => true
  }

  predicate AllSpare(moves: seq<Move>, token: Token) {
    moves != [] ==> Spares(moves[0], token) && AllSpare(moves[1..], token)
  }

  /** Operations adopt only handles they were given. */
  lemma AdoptsOnlyItsHandles(line: LineIds, seen: Custody, current: Snapshot, op: Operation, purpose: Purpose, token: Token)
    requires Plan(line, seen, current, op).Ok? && Plan(line, seen, current, op).value.Change?
    requires Adopt(purpose, token) in Plan(line, seen, current, op).value.mutations
    ensures token in Handles(op)
  {
    hide PlanAdmitPrekey, PlanAcceptFirstPacket, PlanCreateFirstPacket, PlanSendRecord, PlanReceiveRecord;
    hide PlanDeleteSession, PlanApplyCapabilityFlow;
    match op
    case AcceptFirstPacket(_, _, _, _, _) => AcceptanceAdoptsNothing(line, seen, current, op, purpose, token);
    case DeleteSession => DeletionAdoptsNothing(current, purpose, token);
    case ApplyCapabilityFlow(_) => FlowAdoptsNothing(current, op);
    case SendRecord(_, _) => RecordsAdoptTheirHandle(seen, current, op, purpose, token);
    case ReceiveRecord(_, _) => RecordsAdoptTheirHandle(seen, current, op, purpose, token);
    case AdmitPrekey(_, _, _, _, _, _, _) => AdmissionAdoptsItsHandles(line, seen, current, op, purpose, token);
    case CreateFirstPacket(_, _, _, _, _, _, _, _, _) => CreationAdoptsItsHandle(line, seen, current, op, purpose, token);
    case _ =>
  }

  lemma AcceptanceAdoptsNothing(
    line: LineIds, seen: Custody, current: Snapshot, op: Operation, purpose: Purpose, token: Token)
    requires op.AcceptFirstPacket?
    ensures var planned := PlanAcceptFirstPacket(line, seen, current, op);
            planned.Ok? && planned.value.Change? ==> Adopt(purpose, token) !in planned.value.mutations
  {
    hide PlanAcceptFirstPacket;
    var planned := PlanAcceptFirstPacket(line, seen, current, op);
    if planned.Ok? && planned.value.Change? {
      AcceptedShape(line, seen, current, op);
      var active := current.state.active;
      SpentSays(
        active, Cbor.SortedKeys(active.Keys), op.packet.prekey.fields.pairSequence, Adopt(purpose, token));
    }
  }

  lemma FlowAdoptsNothing(current: Snapshot, op: Operation)
    requires op.ApplyCapabilityFlow?
    ensures var planned := PlanApplyCapabilityFlow(current, op);
            planned.Ok? && planned.value.Change? ==> planned.value.mutations == []
  {
    hide Send;
  }

  lemma RecordsAdoptTheirHandle(seen: Custody, current: Snapshot, op: Operation, purpose: Purpose, token: Token)
    requires op.SendRecord? || op.ReceiveRecord?
    ensures var planned := if op.SendRecord? then PlanSendRecord(seen, current, op) else PlanReceiveRecord(seen, current, op);
            planned.Ok? && planned.value.Change? && Adopt(purpose, token) in planned.value.mutations ==> token in Handles(op)
  {
    hide Receive, Send, BootstrapResponder, Answering, AnsweringApart;
  }

  lemma AdmissionAdoptsItsHandles(
    line: LineIds, seen: Custody, current: Snapshot, op: Operation, purpose: Purpose, token: Token)
    requires op.AdmitPrekey?
    ensures var planned := PlanAdmitPrekey(line, seen, current, op);
            planned.Ok? && planned.value.Change? && Adopt(purpose, token) in planned.value.mutations ==> token in Handles(op)
  {
  }

  lemma CreationAdoptsItsHandle(
    line: LineIds, seen: Custody, current: Snapshot, op: Operation, purpose: Purpose, token: Token)
    requires op.CreateFirstPacket?
    ensures var planned := PlanCreateFirstPacket(line, seen, current, op);
            planned.Ok? && planned.value.Change? && Adopt(purpose, token) in planned.value.mutations ==> token in Handles(op)
  {
    hide VerifiesBundle, CoreOf, HybridOf, ContextOf, Confirmation, InitiatorState;
  }

  lemma DeletionAdoptsNothing(current: Snapshot, purpose: Purpose, token: Token)
    requires PlanDeleteSession(current).Ok?
    ensures Adopt(purpose, token) !in PlanDeleteSession(current).value.mutations
  {
    if current.state.ResponderReady? {
      AllSpentSays(current.state.active, Cbor.SortedKeys(current.state.active.Keys), Adopt(purpose, token));
    }
  }

  lemma StepSpares(line: LineIds, b: Backend, move: Move, token: Token, purpose: Purpose)
    requires Inv(line, b) && Spares(move, token) && StagedAs(b.keys, token, purpose)
    ensures StagedAs(Step(line, b, move).keys, token, purpose)
  {
    hide Plan, PhaseInv, CustodyInv, PacketsInv, HistoryInv, MutationsValid, ReachedInv, Effective;
    InvFits(line, b);
    if move.Perform? && Effective(line, b, move.seen, move.op).Some? {
      var change := EffectiveIsPlanned(line, b, move.seen, move.op);
      MutationsTakeEffect(b.keys, change.mutations, token);
      AdoptionsWereStaged(b.keys, change.mutations, token);
      if Adopt(purpose, token) in change.mutations {
        AdoptsOnlyItsHandles(line, move.seen, Current(b), move.op, purpose, token);
      }
    }
  }

  lemma {:induction false} RunSpares(line: LineIds, b: Backend, moves: seq<Move>, token: Token, purpose: Purpose)
    requires Inv(line, b) && AllSpare(moves, token) && StagedAs(b.keys, token, purpose)
    ensures Fits(b) && StagedAs(Run(line, b, moves).keys, token, purpose)
    decreases |moves|
  {
    hide Step, Inv;
    InvFits(line, b);
    if moves != [] {
      StepSpares(line, b, moves[0], token, purpose);
      StepKeepsInv(line, b, moves[0]);
      RunSpares(line, Step(line, b, moves[0]), moves[1..], token, purpose);
    }
  }

  // ---- Authors ----

  predicate ByRivals(moves: seq<Move>) {
    moves != [] ==>
      && (moves[0].Perform? || moves[0].Settle? ==> moves[0].author == Rival)
      && ByRivals(moves[1..])
  }

  /** This Endpoint moved on from revision `r`. */
  predicate Applied(b: Backend, r: nat) {
    r < |b.authors| && b.authors[r] == Own
  }

  lemma {:induction false} RivalsAreNotOwn(line: LineIds, b: Backend, moves: seq<Move>, r: nat)
    requires Fits(b) && ByRivals(moves)
    ensures Applied(Run(line, b, moves), r) <==> Applied(b, r)
    decreases |moves|
  {
    if moves != [] {
      assert Applied(Step(line, b, moves[0]), r) <==> Applied(b, r) by {
        hide Plan, Effective;
      }
      hide Step;
      RivalsAreNotOwn(line, Step(line, b, moves[0]), moves[1..], r);
    }
  }
}

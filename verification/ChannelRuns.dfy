/** Conversations from start to end: two Endpoints out of their initial phases, and what they exchange. */
module ChannelRuns {
  import opened State
  import opened Symbolic
  import opened Endpoint
  import opened EndpointRuns
  import opened EndpointTheorems
  import opened Channel
  import opened ChannelTheorems
  import EndpointConversation
  import R = RatchetRuns

  /** What both parties do up to the acceptance of the initiator's first packet. */
  datatype Opening = Opening(
    initiatorMoves: seq<Move>, responderMoves: seq<Move>, author: Author, seen: Custody, acceptance: Operation)

  function InitiatorOf(line: LineIds, o: Opening): (b: Backend)
    ensures Fits(b)
  {
    Run(line, Start(InitiatorNew), o.initiatorMoves)
  }

  function ResponderOf(line: LineIds, o: Opening): (b: Backend)
    ensures Fits(b)
  {
    Run(line, Start(ResponderReady(0, map[])), o.responderMoves)
  }

  /** The custodies share no token, and the responder commits to the packet that the initiator waits with. */
  predicate Opens(line: LineIds, o: Opening) {
    var i, r := InitiatorOf(line, o), ResponderOf(line, o);
    && i.issued !! r.issued
    && Current(i).state.InitiatorAwaiting? && o.acceptance.AcceptFirstPacket?
    && o.acceptance.packet == Current(i).state.firstPacket
    && Effective(line, r, o.seen, o.acceptance).Some?
  }

  lemma OpeningIsSound(line: LineIds, o: Opening)
    ensures Inv(line, InitiatorOf(line, o)) && Inv(line, ResponderOf(line, o))
  {
    hide Inv, Run, PhaseInv;
    StartIsSound(line, InitiatorNew);
    StartIsSound(line, ResponderReady(0, map[]));
    RunKeepsInv(line, Start(InitiatorNew), o.initiatorMoves);
    RunKeepsInv(line, Start(ResponderReady(0, map[])), o.responderMoves);
  }

  lemma OpeningIsLinked(line: LineIds, o: Opening)
    requires Opens(line, o)
    ensures Current(Step(line, ResponderOf(line, o), Perform(o.author, o.seen, o.acceptance))).state.Established?
    ensures Linked(line, Begin(line, InitiatorOf(line, o), ResponderOf(line, o), o.author, o.seen, o.acceptance))
  {
    hide Inv, Run, Step, Effective, Linked, InitiatorOf, ResponderOf;
    OpeningIsSound(line, o);
    BeginIsLinked(line, InitiatorOf(line, o), ResponderOf(line, o), o.author, o.seen, o.acceptance);
  }

  /** Both parties just after the acceptance. */
  function Opened(line: LineIds, o: Opening): (s: System)
    requires Opens(line, o)
    ensures Ready(s)
  {
    OpeningIsLinked(line, o);
    LinkedIsReady(line, Begin(line, InitiatorOf(line, o), ResponderOf(line, o), o.author, o.seen, o.acceptance));
    Begin(line, InitiatorOf(line, o), ResponderOf(line, o), o.author, o.seen, o.acceptance)
  }

  lemma {:induction false} PermittedRunSplits(line: LineIds, s: System, acts: seq<Act>, k: nat)
    requires Ready(s) && PermittedRun(line, s, acts) && k <= |acts|
    ensures PermittedRun(line, s, acts[..k]) && PermittedRun(line, RunAll(line, s, acts[..k]), acts[k..])
    ensures RunAll(line, s, acts) == RunAll(line, RunAll(line, s, acts[..k]), acts[k..])
    decreases k
  {
    hide Permitted, After;
    if k == 0 {
      assert acts[..0] == [] && acts[0..] == acts;
    } else {
      PermittedRunSplits(line, After(line, s, acts[0]), acts[1..], k - 1);
      assert acts[..k][1..] == acts[1..][..k - 1] && acts[k..] == acts[1..][k - 1..];
    }
  }

  /** The system before act `k`. */
  function At(line: LineIds, s: System, acts: seq<Act>, k: nat): (r: System)
    requires Ready(s) && k <= |acts|
    ensures Ready(r)
  {
    RunAll(line, s, acts[..k])
  }

  /** The act commits a receive for the coordinate. */
  predicate Takes(line: LineIds, s: System, acts: seq<Act>, k: nat, p: R.Party, record: Packet)
    requires Ready(s) && k < |acts|
  {
    && acts[k].party == p && CommitsReceive(line, At(line, s, acts, k).Of(p), acts[k])
    && SameCoordinate(acts[k].move.op.record, record)
  }

  /** Between two acts of a permitted run lies a permitted run. */
  lemma ActsBetween(line: LineIds, s: System, acts: seq<Act>, i: nat, j: nat)
    requires Ready(s) && PermittedRun(line, s, acts) && i < j < |acts|
    ensures var at, between := At(line, s, acts, i), acts[i + 1..j];
            && Permitted(at, acts[i]) && PermittedRun(line, After(line, at, acts[i]), between)
            && At(line, s, acts, j) == RunAll(line, After(line, at, acts[i]), between)
            && Permitted(At(line, s, acts, j), acts[j])
  {
    hide Permitted, After;
    var front := acts[..j];
    PermittedRunSplits(line, s, acts, j);
    PermittedRunSplits(line, s, front, i);
    assert front[..i] == acts[..i] && front[i..][0] == acts[i] && front[i..][1..] == acts[i + 1..j];
    assert acts[j..][0] == acts[j];
  }

  lemma TakenOnce(line: LineIds, s: System, acts: seq<Act>, p: R.Party, record: Packet, i: nat, j: nat)
    requires Linked(line, s) && Ready(s) && PermittedRun(line, s, acts) && i < j < |acts|
    requires Takes(line, s, acts, i, p, record)
    ensures !Takes(line, s, acts, j, p, record)
  {
    hide Linked, Permitted, PermittedRun, RunAll, After, Effective;
    var at := At(line, s, acts, i);
    PermittedRunSplits(line, s, acts, i);
    RunKeepsLink(line, s, acts[..i]);
    ActsBetween(line, s, acts, i, j);
    if Takes(line, s, acts, j, p, record) {
      RecordsAreReceivedOnce(line, at, acts[i], acts[i + 1..j], acts[j]);
    }
  }

  /**
   End to end, from two initial Endpoints on, over every run of both and any network: whatever
   plaintext either hands to its caller is the one sealed in a packet that the other committed,
   and neither commits two receives for one coordinate.
   */
  lemma ConversationsAreGenuine(line: LineIds, o: Opening, acts: seq<Act>, p: R.Party, record: Packet)
    requires Opens(line, o) && PermittedRun(line, Opened(line, o), acts)
    ensures forall plaintext |
              PendingItem(RecordReceive(record), PlaintextOutput(plaintext)) in RunAll(line, Opened(line, o), acts).Of(p).handed ::
              && Committed(RunAll(line, Opened(line, o), acts).Of(p.Peer()).history, record)
              && record.body.Sealed? && record.body.plaintext == plaintext
    ensures forall i: nat, j: nat | i < |acts| && j < |acts| && Takes(line, Opened(line, o), acts, i, p, record)
                                 && Takes(line, Opened(line, o), acts, j, p, record) :: i == j
  {
    hide Linked, Takes, Committed, Opens, Begin, After;
    var s := Opened(line, o);
    assert Linked(line, s) by {
      OpeningIsLinked(line, o);
    }
    forall plaintext |
      PendingItem(RecordReceive(record), PlaintextOutput(plaintext)) in RunAll(line, s, acts).Of(p).handed
      ensures Committed(RunAll(line, s, acts).Of(p.Peer()).history, record)
      ensures record.body.Sealed? && record.body.plaintext == plaintext
    {
      ReleasedPlaintextsWereSent(line, s, acts, p, record, plaintext);
    }
    forall i: nat, j: nat | i < j < |acts| && Takes(line, s, acts, i, p, record)
      ensures !Takes(line, s, acts, j, p, record)
    {
      TakenOnce(line, s, acts, p, record, i, j);
    }
  }

  function HonestOpening(line: LineIds): Opening {
    Opening(
      EndpointConversation.InitiatorMoves(line, Own), EndpointConversation.ResponderMoves(Own), Own,
      EndpointConversation.ResponderKeys(Adopted), EndpointConversation.Acceptance(line))
  }

  /** There are such conversations: two honest parties open one. */
  lemma HonestPartiesOpen(line: LineIds)
    ensures Opens(line, HonestOpening(line))
  {
    hide Run, Effective, EndpointConversation.Acceptance, EndpointConversation.Ready, EndpointConversation.Awaiting;
    EndpointConversation.ResponderIsReady(line, Own);
    EndpointConversation.InitiatorAwaits(line, Own);
    EndpointConversation.AcceptanceSucceeds(line, Own);
    EndpointConversation.AcceptsOwnPacket(line);
  }
}

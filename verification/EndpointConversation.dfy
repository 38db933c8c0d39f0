/** Two honest Endpoints from their start: the handshake succeeds, and a first record waits to be sent. */
module EndpointConversation {
  import opened Errors
  import opened Symbolic
  import opened State
  import opened Handshake
  import opened Endpoint
  import opened EndpointRuns
  import opened EndpointSafety
  import opened EndpointTheorems
  import opened EndpointPaths
  import opened EndpointHandshake
  import Cbor

  // ---- The two parties ----

  function InitiatorIdentity(): IdentityPublic {
    IdentityPublic(Named(1), 1, 1, 2, 2)
  }

  function ResponderIdentity(): IdentityPublic {
    IdentityPublic(Named(2), 3, 3, 4, 4)
  }

  function Admission(): Operation {
    AdmitPrekey(ResponderIdentity(), SigningHandles(3, 4), 1, 11, 12, 0, 1)
  }

  function Bundle(line: LineIds): PrekeyBundle {
    var fields := BundleFields(line, Named(2), 3, 4, 1, PublicOf(11), 12, 0, 1);
    PrekeyBundle(fields, Sign(SigningHandles(3, 4), BundleStatement(fields)))
  }

  /** The responder with that prekey admitted. */
  function Ready(line: LineIds): Phase {
    ResponderReady(1, map[1 := ActivePrekey(Bundle(line), 11, 12)])
  }

  function Creation(line: LineIds): Operation {
    CreateFirstPacket(
      InitiatorIdentity(), TrustedIdentity(ResponderIdentity(), line.protectionProfile), Named(5), Named(6),
      SigningHandles(1, 2), Bundle(line), 0, 1, 2)
  }

  function ResponderKeys(lifecycle: Lifecycle): Custody {
    map[11 := KeyRecord(X25519Private, lifecycle), 12 := KeyRecord(MlKem768Private, lifecycle)]
  }

  function InitiatorKeys(): Custody {
    map[1 := KeyRecord(X25519Private, Staged), 2 := KeyRecord(MlKemEntropy, Adopted)]
  }

  /** The responder stages a key pair and admits it as a prekey. */
  function ResponderMoves(author: Author): seq<Move> {
    [Issue(11, X25519Private), Issue(12, MlKem768Private), Perform(author, ResponderKeys(Staged), Admission())]
  }

  /** The initiator stages its keys and makes its first packet for that prekey. */
  function InitiatorMoves(line: LineIds, author: Author): seq<Move> {
    [Issue(1, X25519Private), Issue(2, MlKemEntropy), Perform(author, InitiatorKeys(), Creation(line))]
  }

  function ResponderBegins(line: LineIds, author: Author): Backend {
    Run(line, Start(ResponderReady(0, map[])), ResponderMoves(author))
  }

  function InitiatorBegins(line: LineIds, author: Author): Backend {
    Run(line, Start(InitiatorNew), InitiatorMoves(line, author))
  }

  // ---- One planned operation is performed ----

  /** What a backend looks like from outside. */
  predicate Looks(b: Backend, revision: nat, phase: Phase, queue: seq<PendingItem>, keys: Custody) {
    Fits(b) && Current(b) == Versioned(revision, phase, queue) && b.keys == keys
  }

  lemma PlannedIsPerformed(line: LineIds, b: Backend, author: Author, seen: Custody, op: Operation, change: Planned)
    requires Fits(b) && Plan(line, seen, Current(b), op) == Ok(change) && change.Change?
    requires |change.mutations| <= 2 && DistinctTokens(change.mutations) && MutationsValid(b.keys, change.mutations)
    requires |change.queue| <= 1 && Current(b).revision < 10
    ensures Effective(line, b, seen, op) == Some(Commit.Commit(change.next, change.mutations, change.queue))
    ensures var y := Step(line, b, Perform(author, seen, op));
            && Looks(y, Current(b).revision + 1, change.next, change.queue, ApplyMutations(b.keys, change.mutations))
            && y.issued == b.issued
  {
    hide Plan, ApplyMutations, MutationsValid;
  }

  lemma TwoMutations(keys: Custody, x: KeyMutation, y: KeyMutation)
    ensures ApplyMutations(keys, [x, y]) == ApplyMutation(ApplyMutation(keys, x), y)
  {
    assert ApplyMutations(keys, [x]) == ApplyMutation(keys, x) by {
      assert ApplyMutations(keys, [x][..0]) == keys;
    }
    assert [x, y][..1] == [x];
  }

  // ---- The responder's and the initiator's first steps ----

  lemma ThreeMoves(line: LineIds, b: Backend, x: Move, y: Move, z: Move)
    requires Fits(b)
    ensures Run(line, b, [x, y, z]) == Step(line, Step(line, Step(line, b, x), y), z)
  {
    hide Step;
    var b1, b2 := Step(line, b, x), Step(line, Step(line, b, x), y);
    assert [x, y, z][1..] == [y, z] && [y, z][1..] == [z];
    assert Run(line, b2, [z]) == Run(line, Step(line, b2, z), []);
    assert Run(line, b1, [y, z]) == Run(line, b2, [z]);
  }

  lemma AdmissionIsPlanned(line: LineIds)
    ensures Plan(line, ResponderKeys(Staged), Versioned(0, ResponderReady(0, map[]), []), Admission()) ==
            Ok(Change(
              Ready(line), [Adopt(X25519Private, 11), Adopt(MlKem768Private, 12)], [], BundleReply(Bundle(line))))
  {
  }

  lemma ResponderIsReady(line: LineIds, author: Author)
    ensures var b := ResponderBegins(line, author);
            && Looks(b, 1, Ready(line), [], ResponderKeys(Adopted))
            && b.issued == {11, 12}
  {
    hide Run, Plan;
    var b0 := Start(ResponderReady(0, map[]));
    var b2 := Step(line, Step(line, b0, Issue(11, X25519Private)), Issue(12, MlKem768Private));
    assert b2.keys == ResponderKeys(Staged);
    ThreeMoves(line, b0, Issue(11, X25519Private), Issue(12, MlKem768Private), ResponderMoves(author)[2]);
    AdmissionIsPlanned(line);
    var change := Plan(line, ResponderKeys(Staged), Current(b2), Admission()).value;
    TwoMutations(b2.keys, Adopt(X25519Private, 11), Adopt(MlKem768Private, 12));
    PlannedIsPerformed(line, b2, author, ResponderKeys(Staged), Admission(), change);
  }

  lemma CreationIsPlanned(line: LineIds)
    ensures var planned := Plan(line, InitiatorKeys(), Versioned(0, InitiatorNew, []), Creation(line));
            && planned.Ok? && planned.value.Change? && planned.value.next.InitiatorAwaiting?
            && planned.value.mutations == [Adopt(X25519Private, 1), Delete(MlKemEntropy, 2)] && planned.value.queue == []
            && planned.value.reply == FirstPacketReply(planned.value.next.firstPacket)
  {
  }

  function Awaiting(line: LineIds): (r: Phase)
    ensures r.InitiatorAwaiting?
  {
    CreationIsPlanned(line);
    Plan(line, InitiatorKeys(), Versioned(0, InitiatorNew, []), Creation(line)).value.next
  }

  function OneKey(): Custody {
    map[1 := KeyRecord(X25519Private, Adopted)]
  }

  lemma InitiatorAwaits(line: LineIds, author: Author)
    ensures Looks(InitiatorBegins(line, author), 1, Awaiting(line), [], OneKey()) && InitiatorBegins(line, author).issued == {1, 2}
  {
    hide Run, Plan;
    var b0 := Start(InitiatorNew);
    var b2 := Step(line, Step(line, b0, Issue(1, X25519Private)), Issue(2, MlKemEntropy));
    assert b2.keys == InitiatorKeys();
    ThreeMoves(line, b0, Issue(1, X25519Private), Issue(2, MlKemEntropy), InitiatorMoves(line, author)[2]);
    CreationIsPlanned(line);
    var change := Plan(line, InitiatorKeys(), Current(b2), Creation(line)).value;
    TwoMutations(b2.keys, Adopt(X25519Private, 1), Delete(MlKemEntropy, 2));
    PlannedIsPerformed(line, b2, author, InitiatorKeys(), Creation(line), change);
  }

  // ---- Acceptance, verification, and a first record ----

  function Acceptance(line: LineIds): Operation {
    AcceptFirstPacket(
      TrustedIdentity(InitiatorIdentity(), line.protectionProfile), ResponderIdentity(), Named(6),
      Awaiting(line).firstPacket, 0)
  }

  lemma PhasesAreSound(line: LineIds)
    ensures PhaseInv(line, Ready(line))
    ensures PhaseInv(line, Awaiting(line))
  {
    hide Run, Plan, PhaseInv, CustodyInv, FatesInv, HistoryInv, PacketsInv, ReachedInv, QuietInv;
    StartIsSound(line, ResponderReady(0, map[]));
    RunKeepsInv(line, Start(ResponderReady(0, map[])), ResponderMoves(Own));
    ResponderIsReady(line, Own);
    StartIsSound(line, InitiatorNew);
    RunKeepsInv(line, Start(InitiatorNew), InitiatorMoves(line, Own));
    InitiatorAwaits(line, Own);
  }

  function Reached(line: LineIds): Snapshot {
    Versioned(1, Ready(line), [])
  }

  /** The responder accepts the initiator's first packet. */
  lemma AcceptanceIsPlanned(line: LineIds)
    ensures Accepts(line, ResponderKeys(Adopted), Reached(line), Acceptance(line))
  {
    hide PhaseInv, PlanAcceptFirstPacket, PlanCreateFirstPacket, Run;
    PhasesAreSound(line);
    CreationIsPlanned(line);
    HonestFirstPacketIsAccepted(
      line, InitiatorKeys(), Versioned(0, InitiatorNew, []), Creation(line), ResponderKeys(Adopted), Reached(line),
      Acceptance(line));
  }

  lemma AcceptsOwnPacket(line: LineIds)
    ensures Acceptance(line).AcceptFirstPacket? && Acceptance(line).packet == Awaiting(line).firstPacket
  {
  }

  /** And its commit goes through. */
  lemma AcceptanceSucceeds(line: LineIds, author: Author)
    ensures Effective(line, ResponderBegins(line, author), ResponderKeys(Adopted), Acceptance(line)).Some?
  {
    hide Run, PlanAcceptFirstPacket, PhaseInv, Effective;
    AcceptanceIsPlanned(line);
    AcceptanceSpendsOneKey(line, Reached(line));
    ResponderIsReady(line, author);
    var change := PlanAcceptFirstPacket(line, ResponderKeys(Adopted), Reached(line), Acceptance(line)).value;
    PlannedIsPerformed(
      line, ResponderBegins(line, author), author, ResponderKeys(Adopted), Acceptance(line), change);
  }

  function Accepted(line: LineIds): SessionAccept {
    AcceptanceIsPlanned(line);
    AcceptedPhase(line, ResponderKeys(Adopted), Reached(line), Acceptance(line)).retryAccept.value
  }

  /** The initiator verifies the accept and sends an empty record. */
  function WritingMoves(line: LineIds, author: Author): seq<Move> {
    [Perform(author, OneKey(), VerifySessionAccept(Accepted(line))), Perform(author, OneKey(), SendRecord([], None))]
  }

  lemma VerificationIsPlanned(line: LineIds)
    ensures PlanVerifySessionAccept(Versioned(1, Awaiting(line), []), VerifySessionAccept(Accepted(line))) ==
            Ok(Change(Established(Awaiting(line).ratchet, None, None, None, None), [], [], NoReply))
  {
    hide PhaseInv, PlanAcceptFirstPacket;
    PhasesAreSound(line);
    AcceptanceIsPlanned(line);
    HonestAcceptVerifies(
      line, Versioned(1, Awaiting(line), []), ResponderKeys(Adopted), Reached(line), Acceptance(line));
    hide Awaiting, Accepted;
  }

  /** The initiator once it has verified the accept. */
  function Verified(line: LineIds): Phase {
    Established(Awaiting(line).ratchet, None, None, None, None)
  }

  lemma RatchetCanSend(line: LineIds)
    ensures Awaiting(line).ratchet.sending.Some? && Awaiting(line).ratchet.ns == 0
  {
  }

  lemma RecordIsPlanned(line: LineIds)
    ensures var planned := PlanSendRecord(OneKey(), Versioned(2, Verified(line), []), SendRecord([], None));
            && planned.Ok? && planned.value.Change? && planned.value.mutations == []
            && |planned.value.queue| == 1 && planned.value.queue[0].kind.PacketOutput?
  {
    RatchetCanSend(line);
    hide Awaiting;
  }

  lemma TwoMoves(line: LineIds, b: Backend, x: Move, y: Move)
    requires Fits(b)
    ensures Run(line, b, [x, y]) == Step(line, Step(line, b, x), y)
  {
    hide Step;
    var b1 := Step(line, b, x);
    assert [x, y][1..] == [y];
    assert Run(line, b1, [y]) == Run(line, Step(line, b1, y), []);
  }

  /** A run out of a new initiator after which a packet waits to be sent. */
  lemma FirstRecordWaits(line: LineIds, author: Author)
    ensures var b := Run(line, InitiatorBegins(line, author), WritingMoves(line, author));
            |Current(b).pending| == 1 && Current(b).pending[0].kind.PacketOutput? && Current(b).revision == 3
  {
    hide Run, Step, PlanVerifySessionAccept, PlanSendRecord, Awaiting, Accepted;
    var b := InitiatorBegins(line, author);
    InitiatorAwaits(line, author);
    VerificationIsPlanned(line);
    var verify, send := VerifySessionAccept(Accepted(line)), SendRecord([], None);
    PlannedIsPerformed(line, b, author, OneKey(), verify, Change(Verified(line), [], [], NoReply));
    RecordIsPlanned(line);
    var verified := Step(line, b, Perform(author, OneKey(), verify));
    PlannedIsPerformed(
      line, verified, author, OneKey(), send, PlanSendRecord(OneKey(), Versioned(2, Verified(line), []), send).value);
    TwoMoves(line, b, WritingMoves(line, author)[0], WritingMoves(line, author)[1]);
  }

  lemma OnlyRivalsWrite(line: LineIds)
    ensures ByRivals(InitiatorMoves(line, Rival)) && ByRivals(WritingMoves(line, Rival))
  {
    hide Accepted, Creation;
    var begin, write := InitiatorMoves(line, Rival), WritingMoves(line, Rival);
    assert ByRivals(begin[3..]) && ByRivals(write[2..]);
    assert begin[2..][1..] == begin[3..] && begin[1..][1..] == begin[2..] && write[1..][1..] == write[2..];
    assert ByRivals(begin[2..]) && ByRivals(begin[1..]) && ByRivals(write[1..]);
  }

  lemma AcceptanceSpendsOneKey(line: LineIds, ready: Snapshot)
    requires ready.state == Ready(line)
    requires PlanAcceptFirstPacket(line, ResponderKeys(Adopted), ready, Acceptance(line)).Ok?
    requires PlanAcceptFirstPacket(line, ResponderKeys(Adopted), ready, Acceptance(line)).value.Change?
    ensures var change := PlanAcceptFirstPacket(line, ResponderKeys(Adopted), ready, Acceptance(line)).value;
            change.mutations == [Delete(MlKem768Private, 12)] && change.queue == ready.pending
  {
    hide Awaiting, PlanAcceptFirstPacket;
    AcceptedShape(line, ResponderKeys(Adopted), ready, Acceptance(line));
    PacketNamesBundle(line);
    var active := ready.state.active;
    assert active.Keys == {1};
    var keys := Cbor.SortedKeys(active.Keys);
    assert keys == [1] by {
      assert keys[0] in keys;
    }
    assert Spent(active, keys[1..], 1) == [];
  }

  lemma PacketNamesBundle(line: LineIds)
    ensures Awaiting(line).firstPacket.prekey == Bundle(line)
  {
  }
}

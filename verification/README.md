# LicoArc-Rust in Dafny

A model of the protocol core of LicoArc-Rust, with proofs of what that core is for: that two
ratchets over a hostile network read exactly what their peer wrote, that an Endpoint's commits,
keys and outgoing packets stay consistent whatever its store and its rivals do, that the
deterministic CBOR codec gives every value one octet string, and that authority chains,
messages, groups and governance bundles keep their invariants over whole runs.

`dafny verify dfyconfig.toml` checks the project.

## How it is built

* **Codec** (`Octets`, `Wire`, `Cbor`, `CborProperties`, `CborSizes`, `CborCodec`). A value expands
  to a wire tree whose map entries stand in label order; `EncodeWire` and `ParseWire` say what the
  octets of a tree are and what a cursor reads from a position. `CborCodec` holds the encoder and
  the cursor decoder as they run, over a growing buffer and a moving offset, each proved to compute
  those functions. `Framing` puts the record header on top.
* **Ratchet** (`Symbolic`, `Ratchet`, `RatchetRuns`, `RatchetSafety`, `RatchetTheorems`,
  `RatchetProgress`, `RatchetReplay`, `RatchetSecrecy`). Cryptography is symbolic: key derivations, digests, signatures and sealed
  boxes are constructors over their inputs, an X25519 secret is an ordered pair of private keys, and
  a private key is named by its custody token. A world is two ratchets, the epochs they opened, every
  packet sent and every coordinate accepted. The network may lose, repeat and reorder packets, put any
  body under any header, and inject boxes under keys that do not descend from the session secret.
* **Endpoint** (`State`, `Handshake`, `Endpoint`, `EndpointDecisions`, `EndpointRuns`, `EndpointSafety`,
  `EndpointTheorems`, `EndpointProgress`, `EndpointHandshake`, `EndpointAuthenticity`, `EndpointPaths`,
  `EndpointConversation`, `EndpointFacade`, `EndpointOperations`).
  `Endpoint.Plan` is what each operation decides from one loaded snapshot and from what custody
  answers, which may be less than custody holds; `EndpointDecisions` says of each operation exactly when it
  goes through and what it then plans, in terms of the fields, signatures and keys involved. `EndpointRuns` keeps the history of a backend under
  moves: issuing and aborting keys, applying a commit, handing an item over, settling it.
  `EndpointFacade.Store` is the old-or-new store that may refuse, apply and lose the reply, or let
  rivals in at any point, and `EndpointOperations.Operator` holds the operations with their commit
  recovery and handle settlement. Everything a method does is proved to be a run of moves.
* **Channel** (`Channel`, `ChannelTheorems`, `ChannelProgress`, `ChannelRuns`). Two Endpoints from the moment a first packet is
  accepted. Every committed record operation moves one ratchet run on, so the ratchet's theorems
  hold end to end of committed snapshots, and they are stated there once more as such, at last of two
  Endpoints out of their initial phases.
* **Identity**, **Messaging**, **ChunkRanges**, **Group**, **Governance**, **Base64**, **JsonBridge**:
  one module a component, with its theorems beside it, and, where it accepts or refuses, a module of
  decisions that spells out exactly what is accepted. `Errors`, `Integers` and `Sets` are shared.

A loop or in-place update of the source is a method proved against a function of the same name
without its `Run` prefix (or, in `CborCodec`, against the wire functions). Sources cite the
repository's files.

## Findings

Where a tempting statement is false of the code, the exact condition is proved instead.

* An accepted packet's replay always fails, but `Replay` is reported exactly while the packet's epoch is
  the one being read (`RatchetReplay.AcceptedPacketsReplayExactly`); which other refusal it meets is
  `RatchetReplay.AcceptedPacketsMeetTheirRefusal`, and `RatchetReplay.ReplaysMayLookStale` is a run in
  which an accepted packet is refused as a stale ratchet.
* A revoked device may return. Its revocation stands exactly as long as it is listed without a gap
  (`IdentityTheorems.RevocationStandsExactlyWhileListed`); `IdentityTheorems.RevocationIsNotForEver` is
  an accepted chain, every statement signed by its own signer, in which it returns.
* Decoding a message accepts octets that encoding never produces. Encoding returns the octets exactly
  when they hold no empty collection under labels 5, 6 and 10 (`MessagingTheorems.EncodesBackExactly`);
  `MessagingTheorems.DecodingHasSecondForms` gives such octets for each of the three, and by
  `MessagingTheorems.EveryMessageHasASecondForm` no message is without them.
* A committed governance candidate with a recovery event does not replay, unless the digest it names as
  its predecessor is its own (`Governance.CommittedCandidatesReplayExactly`); every sound state past
  genesis has such a candidate (`Governance.RecoveriesDoNotReplay`).
* The JSON bridge changes exactly the values with a text that starts with `base64:`
  (`JsonBridge.ReturnsExactlyPlainTexts`).
* A commit reported as successful stands, but need not be our own. Success is reported exactly when the
  planned snapshot is the last one and the reply or the reload showed it, whoever put it there; it is our
  own exactly when the store took the swap (`EndpointOperations.Operator.CommitReplacingPending`), and
  always for an operation that adopts a handle nobody else uses
  (`EndpointOperations.AdoptionProvesOurCommit`). `EndpointOperations.DeleteAfterRival` is a deletion that
  reports success over a rival's.
* A failed dispatch does not always leave its item pending: a settlement that loses its reply has
  removed it (`EndpointOperations.DriveAndLoseReply`). With nobody else around the item still waits
  exactly unless it was settled (`EndpointOperations.Operator.Drive`).

## Model

| member | source | states |
|---|---|---|
| Octets.DecodesBigEndian | src/encoding/mod.rs:181-199 | fixed-width big-endian integers that fit read back |
| Octets.EncodesBigEndian | src/encoding/mod.rs:308-360 | and every fixed-width reading writes back to the same octets |
| Wire.ReadsHead | src/encoding/mod.rs:181-199 | a written head reads back as its major type and argument, whatever follows |
| Wire.HeadsAreShortest | src/encoding/mod.rs:308-338 | an argument is accepted only in the shortest head for its value |
| Wire.LabelOrderIsBytewise | src/encoding/mod.rs:266-287 | numeric order of labels is bytewise order of their encodings, as section 4.2.1 of RFC 8949 asks |
| Wire.ReadsWhatIsWritten | src/encoding/mod.rs:207-297 | the cursor reads any bounded tree back from its octets and stops at their end |
| Wire.WritesWhatIsRead | src/encoding/mod.rs:207-297 | whatever the cursor reads is bounded and is written back to the octets read |
| Cbor.CollapseInvertsExpand | src/encoding/mod.rs:152-179 | writing a value's maps in label order loses nothing |
| Cbor.ExpandInvertsCollapse | src/encoding/mod.rs:254-293 | a tree read with ascending labels is the canonical tree of its value |
| CborProperties.MeasureIsExact | src/encoding/mod.rs:85-140 | the length pre-pass accepts exactly the values within all bounds and returns the exact encoded length |
| CborProperties.EncodedIsReadBack | src/encoding/mod.rs:30-35 | an encoding is read back even in front of other octets |
| CborProperties.DecodeInvertsEncode | src/encoding/mod.rs:30-83 | decoding inverts encoding |
| CborProperties.DecodeAcceptsExactlyEncodings | src/encoding/mod.rs:66-83 | an input decodes to a value exactly when it is the value's encoding |
| CborProperties.EncodingsArePrefixFree | src/encoding/mod.rs:30-35 | no encoding is a prefix of another value's encoding |
| CborProperties.WholeReadsAreCanonicalWhenAscending | src/encoding/mod.rs:66-83 | when the cursor reads everything, re-encoding succeeds with equal length, and is refused as non-canonical exactly when some map's labels do not ascend |
| CborProperties.ReencodingNeverExceedsBounds | src/encoding/mod.rs:74-78 | the bound failure never comes from the re-encoding |
| CborSizes.MapSize | src/encoding/mod.rs:103-120 | a map fits when its entries do, and takes its head and its entries' octets |
| CborSizes.RecordWeight | src/encoding/mod.rs:103-120 | the size of a record may be added up over any listing of its labels |
| CborCodec.EncodeValue | src/encoding/mod.rs:30-35 | pre-pass and writer together compute `Encode` |
| CborCodec.EncodedLength | src/encoding/mod.rs:85-126 | the recursive pre-pass computes `Measure` |
| CborCodec.EncodeInto | src/encoding/mod.rs:152-179 | appends exactly the value's octets to the buffer |
| CborCodec.WriteHead | src/encoding/mod.rs:181-199 | appends exactly the shortest head |
| CborCodec.Decoder.Argument | src/encoding/mod.rs:308-338 | moves the offset over one argument, or reports the same failure as the specification |
| CborCodec.Decoder.ReadValue | src/encoding/mod.rs:207-297 | the recursive cursor reads what `ParseWire` says and leaves the offset at its end |
| CborCodec.Decoder.ReadEntries | src/encoding/mod.rs:254-293 | the map loop rejects repeated labels and builds the map the entries denote |
| CborCodec.DecodeValue | src/encoding/mod.rs:66-83 | the decoder with its trailing-octet check and re-encoding comparison computes `DecodeDetailed` |
| Framing.HeadersEncode | src/protection/mod.rs:251-258 | every header encodes, into 38 octets and its two counters' heads, 40 to 48 in all |
| Framing.DecodesHeader | src/protection/mod.rs:251-272 | header decoding inverts encoding |
| Framing.DecodedHeadersAreEncodings | src/protection/mod.rs:260-272 | only encodings of headers decode as headers |
| Framing.HeaderLengthIn | src/protection/mod.rs:692-699 | the scanning loop computes `Scan` |
| Framing.HeaderLengthIsFound | src/protection/mod.rs:692-699 | whatever body follows, the scan finds exactly the header's own length |
| Framing.FramingIsInjective | src/protection/mod.rs:440-443 | a packet is one header and one body in one way only |
| Framing.RatchetCountsWireLength | src/protection/mod.rs:443-445 | the header length counted in the ratchet model is the length on the wire |
| Ratchet.PlaintextBoundImpliesPacketBound | src/protection/mod.rs:415-445 | a plaintext within its bound never trips the packet bound |
| Ratchet.ReplayExactly | src/protection/mod.rs:484-494 | in any one state, `Replay` is reported exactly for used counters of the peer's current chain |
| Ratchet.OverlongPacketsExactly | src/protection/mod.rs:452-461 | a packet is refused for its length exactly beyond 524288 octets, header and body together, before anything else |
| Ratchet.SkipInto | src/protection/mod.rs:507-520 | the skipping loop stores each counter's keys and advances the chain |
| Ratchet.RunDhTransition | src/protection/mod.rs:540-611 | the DH transition as it updates a cloned state computes `ReceiveDhTransition`; what keys it makes is `RatchetSecrecy` |
| Ratchet.RunReceive | src/protection/mod.rs:452-538 | receiving as it updates a cloned state computes `Receive`, and its second look at the skipped store finds nothing |
| RatchetSafety.SkipAddsTheRange | src/protection/mod.rs:507-520 | skipping adds exactly the missing counters, overwrites nothing, and gives each the keys of its counter |
| RatchetTheorems.StartIsSound | src/protection/mod.rs:322-379 | the two initial ratchets satisfy the run invariant |
| RatchetTheorems.StepKeepsInv | src/protection/mod.rs:381-611 | sending, bootstrapping and delivering keep the epoch, store and network invariant |
| RatchetTheorems.RunKeepsInv | src/protection/mod.rs:381-611 | over every run with fresh staged keys and any admissible network |
| RatchetTheorems.AcceptedPacketsWereSent | src/protection/mod.rs:452-538 | an accepted packet is, header and body, one the peer sent; its plaintext is the one sealed; its coordinate is new |
| RatchetTheorems.NoCoordinateIsAcceptedTwice | src/protection/mod.rs:466-537 | no coordinate is accepted twice in a run |
| RatchetTheorems.RootsStayOneStepApart | src/protection/mod.rs:540-611 | the roots agree or differ by exactly one DH step; what a step is made of is `RatchetSecrecy.RootsHoldEveryAgreement` |
| RatchetTheorems.NoKeySealsTwice | src/protection/mod.rs:410-450 | no message key seals two packets, over both parties |
| RatchetTheorems.StoredKeysAwaitPackets | src/protection/mod.rs:507-520 | every stored key opens a packet the peer sent and this party has not accepted; the store never exceeds 1024 |
| RatchetTheorems.StoreHoldsExactlyTheMissed | src/protection/mod.rs:466-537 | in every reachable world the store holds exactly the sealed coordinates this party has passed over and not accepted |
| RatchetProgress.UndeliveredPacketsMeetTheirFate | src/protection/mod.rs:484-520 | exactly which undelivered packets are accepted, and with which refusal the others meet |
| RatchetReplay.AcceptedPacketsReplayExactly | src/protection/mod.rs:466-494 | in every reachable world an accepted packet is reported as a replay exactly while its key is the peer's current one |
| RatchetReplay.AcceptedPacketsMeetTheirRefusal | src/protection/mod.rs:466-611 | with which refusal any accepted coordinate meets, read off the receiver's counters; it is never accepted again |
| RatchetReplay.ReplaysMayLookStale | src/protection/mod.rs:540-556 | over any session, a run after which an accepted packet's replay is refused as a stale ratchet |
| RatchetSecrecy.SealingKeysHoldEveryAgreement | src/protection/mod.rs:633-675 | in every reachable world the key and nonce that seal a packet are made with the X25519 agreement of every turn up to its epoch |
| RatchetSecrecy.RootsHoldEveryAgreement | src/protection/mod.rs:540-660 | and so is the root that either party holds |
| RatchetSecrecy.SealingKeysAreForTheSession | src/protection/mod.rs:613-690 | every sealing key and nonce descends from the session's hybrid secret and is derived for its context |
| RatchetSecrecy.SealingKeysAreScheduled | src/protection/mod.rs:613-690 | the whole key schedule, written out: every packet is sealed under the key, nonce and associated data of its epoch and counter |
| RatchetSecrecy.StatesAreScheduled | src/protection/mod.rs:540-675 | and each party holds the scheduled root of the last epoch it derived and the scheduled chains of its two directions |
| RatchetSecrecy.FreshTurnsShutOut | src/protection/mod.rs:452-660 | whatever body stands behind whatever header: one sealed under a key without the agreement of a turn already reached opens at most as a packet of an epoch before that turn |
| RatchetSecrecy.PurposesOfState | src/protection/mod.rs:223-241 | roots and first chain keys are derived for the direction of the party that opened their epoch |
| RatchetSecrecy.KeysPlayOnePart | src/protection/mod.rs:613-686 | roots, chain keys, sealing keys and nonces have no member in common |
| State.MutationsTakeEffect | tests/endpoint_flows.rs:436-500 | valid mutations of distinct tokens do just what each says, in any order |
| State.RunBounded | src/state/mod.rs:383-414 | the commit check with its two hash sets computes `BoundedCommit` |
| EndpointFacade.Store.CompareAndSwap | src/state/mod.rs:452-464 | old or new: the swap is applied exactly when nothing refuses it, the revision is the expected one and the key mutations are valid; what the backend and the reply are then, and otherwise, with rivals in between |
| EndpointFacade.Store.SettleItem | src/state/mod.rs:465-468 | exactly when settling takes; then it removes one item, keeps state and the other items and advances once, and otherwise it changes nothing |
| EndpointSafety.PlanKeeps | src/endpoint/mod.rs:434-1236 | every operation's commit accounts for the keys its next phase reaches, follows its predecessor, and extends the queue as allowed |
| EndpointSafety.AdmitPrekeyKeeps | src/endpoint/mod.rs:434-532 | admitting a prekey adopts its two keys and raises the high water |
| EndpointSafety.AcceptFirstPacketKeeps | src/endpoint/mod.rs:534-651 | accepting deletes every active key but the accepted X25519 key; when it accepts is `EndpointDecisions.AcceptanceExactly` |
| EndpointSafety.SpentSays | src/endpoint/mod.rs:635-643 | which deletions the accepting commit carries |
| EndpointSafety.SendRecordKeeps | src/endpoint/mod.rs:888-954 | a bootstrapping send adopts the new key and deletes the old, another send none |
| EndpointSafety.SentRecordsWait | src/endpoint/mod.rs:888-954 | a send's reply names the waiting packet that carries its plaintext under the session's key |
| EndpointSafety.ReceiveRecordKeeps | src/endpoint/mod.rs:972-1051 | a rotating receive adopts the offered key and deletes the old, another receive none; when it receives is `EndpointDecisions.ReceiveExactly` |
| EndpointSafety.DeleteSessionKeeps | src/endpoint/mod.rs:1195-1238 | deletion drops every key the phase reaches |
| EndpointDecisions.AdmissionExactly | src/endpoint/mod.rs:434-532 | a prekey is admitted exactly for a fresh sequence, a bounded window, the identity's own signing keys and two staged handles, and how the bundle is signed |
| EndpointDecisions.AcceptanceExactly | src/endpoint/mod.rs:534-651 | a session is established exactly for the packet of an active, signed, valid bundle that the initiator's identity signed over this bundle and offer, and whose confirmation opens under the derived secret |
| EndpointDecisions.AcceptanceEstablishes | src/endpoint/mod.rs:583-650 | the session and the accept are of that secret, of the packet's transcript and of the context |
| EndpointDecisions.RepetitionsExactly | src/endpoint/mod.rs:547-560 | a packet is answered without a change exactly if the session was established with it, and by the same accept |
| EndpointDecisions.CreationExactly | src/endpoint/mod.rs:677-799 | a first packet is made exactly for a valid bundle that the peer's identity signed, with the own signing keys, and again only as it waits |
| EndpointDecisions.CreationPrepares | src/endpoint/mod.rs:712-790 | it is signed over offer and bundle, confirms the secret, and the session that waits is of the secret that both exchanges give |
| EndpointDecisions.VerificationExactly | src/endpoint/mod.rs:801-834 | an accept, whoever made it, is verified exactly if it names the waiting packet's transcript, context and authorities and carries the tag under the session's accept key over its fields |
| EndpointDecisions.SendExactly | src/endpoint/mod.rs:888-954 | a send plans a change exactly when no packet waits and the session can seal or, with a staged key, be made to; and which packet then joins the queue |
| EndpointDecisions.ReceiveExactly | src/endpoint/mod.rs:972-1051 | a receive plans a change exactly when no plaintext waits and the ratchet opens the record; and what then joins the queue |
| EndpointDecisions.CapabilitiesExactly | src/endpoint/mod.rs:1055-1085 | capabilities are set exactly once, in an established session |
| EndpointDecisions.FlowExactly | src/endpoint/mod.rs:1087-1187 | a capability flow plans a change exactly when no packet waits, its message was not the last one applied, the reducers agree and the session can seal |
| EndpointDecisions.AppliedMessagesAreRefused | src/endpoint/mod.rs:1105-1113 | a message that was applied is refused when it is offered again, whatever waits and whatever the reducers say |
| EndpointDecisions.DeletionExactly | src/endpoint/mod.rs:1195-1238 | a session is deleted exactly once |
| EndpointDecisions.AdmissionRefusals | src/endpoint/mod.rs:434-532 | with which error a prekey is not admitted: arguments first, then phase, freshness and room, then custody |
| EndpointDecisions.AcceptanceRefusals | src/endpoint/mod.rs:534-600 | with which error a first packet is refused: a spent prekey is told from a packet that does not fit |
| EndpointDecisions.InitiatorRefusals | src/endpoint/mod.rs:677-834 | with which error no first packet is made and no accept is verified |
| EndpointDecisions.SendRefusals | src/endpoint/mod.rs:888-930 | with which error nothing is sent: phase and queue, then the bootstrap, then length, chain and counter |
| EndpointDecisions.ReceiveRefusals | src/endpoint/mod.rs:972-1015 | with which error nothing is received: phase and queue, then the ratchet's own, then the bound |
| EndpointDecisions.CapabilityRefusals | src/endpoint/mod.rs:1055-1160 | with which error capabilities are not set and a flow is not applied: the guards first, then the reducers and the seal in their order |
| EndpointTheorems.StepKeepsInv | src/endpoint/mod.rs:434-1336 | every move of a backend keeps the invariant |
| EndpointTheorems.RunKeepsInv | src/endpoint/mod.rs:434-1336 | over every run, with rivals, restarts and lost replies |
| EndpointTheorems.CustodyHoldsWhatStateReaches | src/endpoint/mod.rs:498-531 | in every run custody's adopted X25519 and ML-KEM handles are exactly those the stored state reaches |
| EndpointTheorems.HandlesHaveOneFate | src/endpoint/mod.rs:523-531 | a staged handle is still staged, was adopted, or was aborted: exactly one of them, for ever |
| EndpointTheorems.OnlyTheQueueIsRefused | src/endpoint/mod.rs:1301-1306 | planned mutations are distinct and at most 512, so a commit's bounds can refuse only its queue |
| EndpointTheorems.HandedItemsWereCommitted | src/state/mod.rs:484-541 | a hand-over takes only an item of a committed snapshot, which `Operator.Drive` has to show of the item it hands over, and every later history keeps that snapshot |
| EndpointTheorems.CoordinatesNeverCarryTwoPackets | src/endpoint/mod.rs:907-945 | two packets handed over under one coordinate are the same packet |
| EndpointTheorems.QueuesAreBounded | src/endpoint/mod.rs:1106-1187 | at most one packet, one plaintext and sixteen items wait, under distinct identifiers |
| EndpointTheorems.PhasesOnlyAdvance | src/endpoint/mod.rs:335-355 | revisions count commits, phases never go back, and a session keeps its accept |
| EndpointTheorems.PairSequencesRise | src/endpoint/mod.rs:460-512 | an admitted pair lies above every pair and high water of the past |
| EndpointProgress.PlannedKeysAreHeld | src/endpoint/mod.rs:434-1238 | what is planned on custody's own answers, custody can do |
| EndpointProgress.CommitsExactly | src/endpoint/mod.rs:1256-1336 | and is committed exactly when the queue is short and distinct, below the last revision |
| EndpointProgress.SendsGoThrough | src/endpoint/mod.rs:888-954 | over every run: a record is sent exactly when no packet waits, fewer than sixteen items wait and the session can seal or be made to, and exactly its packet joins the queue |
| EndpointProgress.ReceivesGoThrough | src/endpoint/mod.rs:972-1051 | a record is received exactly when no plaintext waits, fewer than sixteen items wait and the ratchet opens it, and exactly its plaintext joins the queue |
| EndpointHandshake.AcceptsVerifyExactlyForOwnPackets | src/endpoint/mod.rs:801-834 | over any two runs, an accept verifies exactly when it was made for the initiator's own packet, and then both sessions are the ends of one ratchet |
| EndpointHandshake.HonestHandshakesComplete | src/endpoint/mod.rs:434-834 | admission, first packet, acceptance and verification all succeed between honest parties and end mirrored |
| EndpointHandshake.AcceptBindsBothSessions | src/endpoint/mod.rs:801-834 | an accept that an awaiting initiator verifies was made for its own packet, and the two sessions mirror each other |
| EndpointHandshake.HonestAcceptVerifies | src/endpoint/mod.rs:616-627 | a responder's accept of the initiator's packet always verifies |
| EndpointHandshake.HonestFirstPacketIsAccepted | src/endpoint/mod.rs:677-799 | a first packet made for an active, valid bundle is accepted |
| EndpointHandshake.OneFirstPacketForEver | src/endpoint/mod.rs:548-565 | once a first packet is accepted, it is answered by the same accept without a change, and every other is refused |
| EndpointAuthenticity.BundlesWereAdmitted | src/endpoint/mod.rs:677-712 | over every run, with a network that only has signatures that were made: a first packet is made only for a bundle that a holder of the peer's keys admitted |
| EndpointAuthenticity.AcceptedPacketsWereSigned | src/endpoint/mod.rs:534-651 | and a session is established only for the offer and bundle of a packet that a holder of the initiator's keys made, with the secret its maker derived |
| EndpointAuthenticity.VerifiedAcceptsWereMade | src/endpoint/mod.rs:801-834 | with a network that only has tags under the session's key that were made: an accept is verified only if a responder committed it for this very first packet, and the two sessions are the two ends of one ratchet |
| EndpointConversation.FirstRecordWaits | src/endpoint/mod.rs:434-954 | a run of an honest handshake, out of a new initiator, after which its first record waits to be sent |
| EndpointPaths.AdoptsOnlyItsHandles | src/endpoint/mod.rs:513-522 | operations adopt only handles they were given |
| EndpointOperations.AdoptionProvesOurCommit | src/endpoint/mod.rs:1308-1317 | only our own commit can have put a handle nobody else uses into a snapshot |
| EndpointOperations.RivalsMayCommitTheSame | src/endpoint/mod.rs:1308-1317 | a rival's deletion that gets in first leaves the very snapshot that ours planned, so a reload cannot tell them apart |
| EndpointOperations.DeleteAfterRival | src/endpoint/mod.rs:1195-1238 | from a new initiator, a deletion reports success although the commit that stands is the rival's |
| EndpointOperations.Operator.CommitReplacingPending | src/endpoint/mod.rs:1294-1336 | where the backend ends up, exactly; success exactly when the planned snapshot was shown to be the last one; a terminal error or a conflict only when the commit was not applied; our own exactly when the store took the swap; with nobody else around and a working reload no doubt remains, lost replies included; and which error it is otherwise, exactly |
| EndpointOperations.Operator.Recover | src/endpoint/mod.rs:1309-1336 | after a failed swap the reload decides: success exactly when it shows the planned snapshot, a terminal error exactly as the swap failed when nothing has moved, and never a final error or a conflict over an applied commit |
| EndpointOperations.Operator.CommitReceive | src/endpoint/mod.rs:1016-1051 | the key of a rotation that does not happen is aborted before the commit, any other is adopted by it or left staged; the report tells of the commit soundly |
| EndpointOperations.Operator.AdmitPrekey | src/endpoint/mod.rs:434-532 | the reply is what was decided, and success exactly when applied if nobody else moves; both staged handles are adopted on success, aborted on an error, and left staged only behind a retryable error of an attempted commit |
| EndpointOperations.Operator.AcceptFirstPacket | src/endpoint/mod.rs:534-651 | the accept returned is the one decided and stands committed; a conflict, and no other error of the commit, is turned into a terminal refusal, soundly; success exactly when applied if nobody else moves |
| EndpointOperations.Operator.CreateFirstPacket | src/endpoint/mod.rs:677-799 | the staged handle is settled on every path, left staged only behind a retryable error of an attempted commit, and aborted when the waiting packet is returned again |
| EndpointOperations.Operator.SendRecord | src/endpoint/mod.rs:888-954 | the reply names what stands committed, success exactly when applied if nobody else moves, and the bootstrap handle is settled |
| EndpointOperations.Operator.ReceiveRecord | src/endpoint/mod.rs:972-1051 | the offered handle is adopted by a rotation and aborted otherwise, and left staged only behind a retryable error of an attempted commit |
| EndpointOperations.Operator.Conduct | src/endpoint/mod.rs:801-834 | loads, decides and commits: an answer is reported as it is, a change as a success exactly when it was shown, a failure soundly; where the backend ends up; and what has become of every staged handle that nobody else uses; and which error an attempted commit reports, exactly |
| EndpointOperations.Operator.Drive | src/state/mod.rs:484-541 | success means the item was committed at the revision, handed over, and settled alone; a failing boundary leaves the history alone; with nobody else around, when it succeeds and when the item still waits, exactly |
| EndpointOperations.Operator.DispatchPending | src/endpoint/mod.rs:849-886 | success means the named item was handed over and only it left the queue; with nobody else around, what becomes of it on failure, exactly |
| EndpointOperations.DriveAndLoseReply | src/state/mod.rs:484-541 | from a run in which a packet waits, a hand-over that reports an error after its item has left the queue |
| ChannelTheorems.BeginIsLinked | src/endpoint/mod.rs:600-634 | from the acceptance on, the two Endpoints stand where a ratchet run begins |
| ChannelTheorems.StepKeepsLink | src/endpoint/mod.rs:888-1051 | every permitted move of either Endpoint keeps both linked to one ratchet run |
| ChannelTheorems.RunKeepsLink | src/endpoint/mod.rs:888-1051 | over every run of both and any network |
| ChannelTheorems.ReleasedPlaintextsWereSent | src/endpoint/mod.rs:972-1051 | a plaintext an Endpoint hands out is the one sealed in a packet the peer's Endpoint committed |
| ChannelTheorems.RecordsAreReceivedOnce | src/endpoint/mod.rs:972-1051 | an Endpoint commits at most one receive for a coordinate |
| ChannelProgress.AwaitedRecordsOpen | src/protection/mod.rs:452-611 | the ratchet of a linked Endpoint opens a record that the peer committed and it has not received exactly within its bounds, on the plaintext that was sealed |
| ChannelProgress.AwaitedRecordsAreReceived | src/endpoint/mod.rs:972-1051 | in every linked system such a record is committed as received exactly when no plaintext waits, fewer than sixteen items wait and its counters are within reach, whatever else waits; exactly its plaintext then joins the queue |
| ChannelProgress.ReceivedRecordsArrive | src/endpoint/mod.rs:972-1051 | the plaintext then waits, the coordinate is taken, and both Endpoints are linked still |
| ChannelRuns.ConversationsAreGenuine | src/endpoint/mod.rs:434-1051 | from two initial Endpoints on, over every run of both and any network: a plaintext handed out is the one sealed in a packet the other committed, and no coordinate is received twice |
| ChannelRuns.HonestPartiesOpen | src/endpoint/mod.rs:434-834 | two honest parties do get to such a conversation |
| Identity.RunCheckDevices | src/identity.rs:224-279 | the device loop with its running reference computes `CheckDevices`; which devices pass is `IdentityDecisions.DevicesExactly` |
| Identity.RunCatchUp | src/identity.rs:313-349 | the catch-up loop with its fork map computes `CatchUp` |
| IdentityTheorems.LinksAdvanceByOne | src/identity.rs:166-188 | an accepted successor is one epoch on, of the same user and line, and names its predecessor |
| IdentityTheorems.KeyChangesAreAuthorized | src/identity.rs:189-207 | who signs, which keys may change, and that every changed pair proves possession |
| IdentityTheorems.ForkCheckIsRedundant | src/identity.rs:323-339 | the sibling-fork check never refuses a batch that validates link by link |
| IdentityTheorems.CatchUpComposes | src/identity.rs:313-349 | catching up on a batch succeeds exactly when catching up on its parts in turn does, with the same result |
| IdentityTheorems.CatchUpAdvances | src/identity.rs:313-349 | a batch ends one epoch per snapshot later, for the same user and line; from nothing it starts with a genesis state at epoch 0 |
| IdentityTheorems.AdmittedEpochIsProvenance | src/identity.rs:529-579 | an active device's admitted epoch is when its present identity last entered the roster; what it proved then is `IdentityDecisions.ActiveDevicesProvedPossession` |
| IdentityTheorems.ActiveDevicesLeaveThroughRevocation | src/identity.rs:532-537 | an active device never disappears without having been listed as revoked at its epoch |
| IdentityTheorems.RevokedEntriesAreFrozen | src/identity.rs:539-544 | a revoked entry does not change while it is listed |
| IdentityTheorems.RevocationStandsExactlyWhileListed | src/identity.rs:529-579 | at a later epoch a revoked entry is the same exactly if the endpoint was listed at every epoch in between |
| IdentityTheorems.RevokedDevicesReturnOnlyAnew | src/identity.rs:567-577 | a revoked endpoint is active again only after being dropped, with a later admitted epoch |
| IdentityTheorems.RevocationIsNotForEver | src/identity.rs:532-537 | under every scheme that verifies what it signs, an accepted chain of properly signed states in which a revoked device returns |
| IdentityTheorems.AdmittedPayloadsAreVouchedFor | src/identity.rs:351-408 | an admitted payload is the state the session vouches for, with its device active |
| IdentityDecisions.RecordsExactly | src/identity.rs:710-820 | which records can stand on their own: sixteen devices at most in order, keys told apart, epochs and revocations that fit |
| IdentityDecisions.SignaturesExactly | src/identity.rs:890-936 | a signature pair passes exactly if both are for the purpose, name the two keys, and verify under them over the statement |
| IdentityDecisions.RosterTransitionsExactly | src/identity.rs:529-579 | what may become of every device, and which newcomers may join |
| IdentityDecisions.DevicesExactly | src/identity.rs:224-279 | a device passes exactly if it was there before with its identity, or proves possession of the first known keys of its endpoint and identity over line, user, epoch, endpoint and identity |
| IdentityDecisions.KeyChangesExactly | src/identity.rs:281-303 | which replacements of the authority's own keys pass, and which need no proof |
| IdentityDecisions.GenesisExactly | src/identity.rs:129-311 | a first state is accepted exactly if it stands, its user is made of its keys, its management keys signed it and its devices are active and proved |
| IdentityDecisions.SuccessorsExactly | src/identity.rs:129-311 | a next state is accepted exactly if it is one epoch on, linked, of the same user and line, signed by the keys of the state before, with a roster, devices and keys that follow |
| IdentityDecisions.ConflictsExactly | src/identity.rs:166-188 | of two records that stand, the second is a conflict exactly if it is on the line and does not follow the first |
| IdentityDecisions.ActiveDevicesProvedPossession | src/identity.rs:248-271 | over every accepted chain an active device proved, at its admitted epoch, possession of the keys then known of its endpoint and identity, with both signatures; a change of identity is a new admission |
| IdentityDecisions.RevocationKeepsTheDevice | src/identity.rs:546-556 | revoking a device keeps its identity, admission and possession, and names the epoch |
| IdentityDecisions.BatchesExactly | src/identity.rs:313-349 | a batch is caught up with exactly if it holds one to sixty-four snapshots, each acceptable after the one before |
| IdentityDecisions.PayloadsExactly | src/identity.rs:351-406 | a payload is admitted exactly if it is the state the session vouches for, the current or an acceptable next one, on the line and with the session's device active |
| MessagingTheorems.DecodesExactly | src/messaging.rs:136-214 | which octets decode to a message: those of its fields, with or without empty collections |
| MessagingTheorems.DecodeInvertsEncode | src/messaging.rs:131-214 | decoding inverts encoding |
| MessagingTheorems.EncodesBackExactly | src/messaging.rs:131-195 | octets that decode are the message's encoding exactly when they hold no empty collection under labels 5, 6 and 10 |
| MessagingTheorems.DecodingHasSecondForms | src/messaging.rs:157-195 | octets with an empty collection under label 5, 6 or 10 decode to a message whose encoding they are not |
| MessagingTheorems.EveryMessageHasASecondForm | src/messaging.rs:136-195 | every message that encodes also decodes from octets besides its encoding |
| MessagingTheorems.EncodesExactly | src/messaging.rs:131-134 | a valid message encodes exactly when its chunk index is absent or a safe integer |
| MessagingTheorems.AttachmentRead | src/messaging.rs:438-453 | an attachment reads back exactly from its own record |
| MessagingTheorems.ReceiveStatesAdvance | src/messaging.rs:388-414 | over every accepted run of receive states: one attachment, rising update numbers each naming one state, rising recovery rounds, final states that stay, and completion only when verified |
| MessagingTheorems.ReceiveStatesAreFew | src/messaging.rs:388-414 | a run takes at most 65 different states |
| MessagingDecisions.MessagesExactly | src/messaging.rs:67-129 | which messages are valid, by their kinds, types, bounds, chunk fields and attachments |
| MessagingDecisions.RepeatsExactly | src/messaging.rs:117-127 | the first repeated attachment identifier is a repetition if its descriptor is repeated too, and a conflict otherwise |
| MessagingDecisions.ReceiveStatesExactly | src/messaging.rs:356-386 | which receive states are valid |
| MessagingDecisions.StatesDecodeExactly | src/messaging.rs:305-354 | octets decode to a receive state exactly if they are, within the bound, the one encoding of its record |
| MessagingDecisions.SuccessorsExactly | src/messaging.rs:388-414 | which state may follow which, and when the two are in conflict |
| ChunkRanges.RunCheckRanges | src/messaging.rs:364-375 | the range loop computes `CheckRanges` |
| ChunkRanges.CoveredIsCardinality | src/messaging.rs:364-375 | the covered count is the number of chunks asked for |
| ChunkRanges.RangesExactly | src/messaging.rs:364-375 | ranges are accepted exactly if none is empty, each starts beyond the end of the one before, and they ask for no more chunks than the maximum |
| ChunkRanges.RangesAreNormalForm | src/reliable.rs:350-377 | two accepted range lists for the same chunks are equal |
| ChunkRanges.AcceptedChunks | src/messaging.rs:416-436 | each index below the count has one accepted size, and no other index has any |
| ChunkRanges.LongerAttachmentsHaveNoChunks | src/messaging.rs:416-436 | beyond the maximum length no chunk is accepted |
| ChunkRanges.ChunksTileTheAttachment | src/messaging.rs:416-436 | the accepted chunks tile the attachment, and their sizes sum to its length |
| Group.RunEdit | src/group.rs:186-229 | pushing, retaining and editing a member list computes `Edit` |
| Group.RunCheckUnique | src/group.rs:340-351 | the identifier check with its running set computes `CheckUnique` |
| Group.ResultsInjectIntoProjections | src/group.rs:363-379 | accepted results are at most as many as projections, so the subtraction cannot underflow |
| Group.RunAggregate | src/group.rs:353-420 | each count is the number of recipients of whom the results report the outcome, recipients without a result being pending; they add up to the projections; complete means delivered to all, failed to all means neither delivered nor pending for any |
| GroupTheorems.EditedListIsRight | src/group.rs:186-230 | an edited and sorted list is ordered, fits, and has exactly the roles asked for |
| GroupTheorems.TransitionsFailExactly | src/group.rs:171-252 | a permitted edit fails exactly when it takes the role of the only state authority |
| GroupTheorems.TransitionsDoAsAsked | src/group.rs:171-252 | an applied transition changes one role, moves one epoch on and links to the state before |
| GroupTheorems.RunsOnlyMoveOn | src/group.rs:171-252 | over every run the epoch counts the applied transitions, each state names the digest of the one before, and every state is ordered, within 64 members, and has a state authority |
| GroupTheorems.HeadsDetermineTrails | src/group.rs:171-252 | two runs from equal epochs whose last states have one digest went through the same states |
| GroupTheorems.ProjectionsReachEveryoneElse | src/group.rs:254-299 | a message is projected once to every member but its sender, as aggregation demands |
| GroupDecisions.StatesExactly | src/group.rs:147-169 | which group states are valid |
| GroupDecisions.TransitionsExactly | src/group.rs:171-252 | a transition is applied exactly if an authority of a sound state makes an edit that can be made and leaves someone with authority |
| GroupDecisions.TransitionsMake | src/group.rs:171-252 | who is a member after it, with which role, and what the new state names of the old one, the author and the operation |
| GroupDecisions.ProjectionsExactly | src/group.rs:254-299 | when a message is projected, to whom, and what each projection carries |
| GroupDecisions.AggregationsExactly | src/group.rs:353-391 | results are aggregated exactly if projections and results stand in order under distinct identifiers and each result is a sound one of its recipient's projection |
| Governance.ThresholdIsIndependence | src/governance.rs:78-104 | within its bounds the threshold is met exactly by two roots with two keys each |
| Governance.CommitsMoveOn | src/governance.rs:108-227 | a commit leaves a sound state one epoch on and lowers no role's version |
| Governance.RunsOnlyMoveOn | src/governance.rs:108-227 | over every run the epoch counts the commits and no version falls |
| Governance.CommittedCandidatesReplayExactly | src/governance.rs:146-149 | when a committed candidate replays, exactly |
| Governance.RecoveriesDoNotReplay | src/governance.rs:108-227 | every sound state past genesis has a recovery that commits and, offered again at the same time, is refused unless it keeps the digest it replaces |
| GovernanceDecisions.BundlesExactly | src/governance.rs:108-227 | a candidate is committed exactly if it is adoptable at the next epoch, replays exactly if it is adoptable and current, and is in conflict exactly if it is adoptable at the current epoch but another |
| GovernanceDecisions.ObservedExactly | src/governance.rs:184-205 | the observations pass exactly if there are two to sixteen, by different observers, with different statements, all of this very bundle |
| GovernanceDecisions.BundleRefusals | src/governance.rs:113-145 | a candidate beyond its bounds is told from one that is not adoptable |
| Base64.RunEncode | src/conformance/executor.rs:1554-1575 | the encoding loop computes `Encode` |
| Base64.RunDecode | src/conformance/executor.rs:1511-1552 | the decoding loop computes `Decode` |
| Base64.DecodeInvertsEncode | src/conformance/executor.rs:1511-1575 | decoding inverts encoding |
| Base64.EncodeInvertsDecode | src/conformance/executor.rs:1511-1552 | every accepted text is the encoding of what it decodes to |
| JsonBridge.LabelsReadBack | src/conformance/executor.rs:1433-1437 | decimal labels read back |
| JsonBridge.ReturnsExactlyPlainTexts | src/conformance/executor.rs:1418-1458 | a value returns unchanged exactly when none of its texts starts with the base64 prefix |
| JsonDecisions.LabelsExactly | src/conformance/executor.rs:1433-1437 | which names are labels, and of what: digits, leading zeros and one plus sign allowed, within 64 bits |
| JsonDecisions.ReadsExactly | src/conformance/executor.rs:1418-1443 | a JSON value is read exactly if its numbers are 64-bit unsigned integers, its prefixed texts are encodings and its names are labels |
| JsonDecisions.MembersMean | src/conformance/executor.rs:1430-1439 | under each label that is named stands the last member that names it |

## Left out

- Octets of records in the ratchet: a packet is a header and a body here; that its octets say the same is `Framing`.
- Cryptographic strength: derivations, digests, signatures and sealed boxes are constructors, so they never collide and are never forged; ML-KEM rejection is a constructor too.
- UTF-8: well-formedness is a predicate on octets, without normalisation.
- Custody of signing keys: handles stand for the public keys they answer to, and signing does not fail.
- First packets and accepts as octets (src/endpoint/mod.rs:1489-1624): fixed-shape records over the codec; digests are taken of the records themselves.
- Capability reducers inside the Endpoint: `Endpoint.PlanApplyCapabilityFlow` takes their verdicts as inputs and keeps their state opaque; governance, groups and messages are modelled on their own.
- Ratchet.Send: takes no provider failure, so sealing always succeeds; a failed operation changes nothing either way.
- Endpoint.Spent: lists pairs in ascending order where the source iterates a hash map; by `State.MutationsTakeEffect` the order is immaterial.
- EndpointOperations.Operator.Conduct: stands for verifying an accept, bootstrapping capabilities, the capability flow and deletion, which differ only in what they decide; the other operations, which repeat its steps in the source, call it.
- Plain reads of the store (`pending_items`, `retry_record`, `restart`): they return parts of one loaded snapshot.
- Messaging.Read: looks labels up where the source removes them from the map, so its last check for leftovers does not appear; every label it allows is consumed.
- ChunkRanges.CheckRanges: the reliable-delivery copy also asks both ends to be safe integers, which only narrows what is accepted.
- JsonBridge.FromJson: numbers that are not 64-bit unsigned integers are one constructor, since all of them are refused alike.
- Finality, retries and migrations of `src/reliable.rs`: flat decisions over their inputs.
- Closed-record JSON validators of `src/identity.rs` (lines 684-850 and 1028-1920): shape checks; well-typed records are taken as input.
- Provider adapters, artifact admission, security manifest, transport shapes and the conformance runner.
- Overflow checks on 64-bit lengths that the encoded-size bound already excludes.

/** What accepted authority chains keep, and why batches of them compose. */
module IdentityTheorems {
  import opened Errors
  import opened Identity

  // ---- One accepted link ----

  /** A validated successor is one epoch on, of the same user and line, and names its predecessor. */
  lemma LinksAdvanceByOne(
    verify: Verifier, state: AuthorityState, previous: AuthorityState, line: nat, endpoints: seq<EndpointKeys>)
    requires Validate(verify, state, Some(previous), line, endpoints).Ok?
    ensures state.fields.epoch == previous.fields.epoch + 1
    ensures state.fields.user == previous.fields.user && state.fields.line == previous.fields.line == line
    ensures state.fields.previous == Some(Digest(previous))
  {
    hide CheckRecord, CheckDevices, CheckKeyChange, CheckSignatures, CheckRosterTransition;
  }

  /** Who may change what: management keeps the recovery keys, and every changed key pair proves possession. */
  lemma KeyChangesAreAuthorized(
    verify: Verifier, state: AuthorityState, previous: AuthorityState, line: nat, endpoints: seq<EndpointKeys>)
    requires Validate(verify, state, Some(previous), line, endpoints).Ok?
    ensures var f, p := state.fields, previous.fields;
            && !f.kind.Genesis?
            && CheckSignatures(verify, state.signatures, if f.kind.Management? then p.management else p.recovery,
                               PurposeOf(f.kind), AuthorityStatement(Digest(state))).Ok?
            && (f.kind.Management? ==> f.recovery == p.recovery)
            && (f.kind.Recovery? ==> f.management != p.management || f.recovery != p.recovery)
            && (f.kind.Management? ==> (f.possession.Some? <==> f.management != p.management))
            && (f.management != p.management ==>
                  f.possession.Some? && f.possession.value.management.Some?
                  && CheckSignatures(verify, f.possession.value.management.value, f.management, ReplacementManagement,
                                     ReplacementStatement(f.line, f.user, f.epoch, f.management, f.recovery)).Ok?)
            && (f.recovery != p.recovery ==>
                  f.possession.Some? && f.possession.value.recovery.Some?
                  && CheckSignatures(verify, f.possession.value.recovery.value, f.recovery, ReplacementRecovery,
                                     ReplacementStatement(f.line, f.user, f.epoch, f.management, f.recovery)).Ok?)
  {
    hide CheckRecord, CheckDevices, CheckSignatures, CheckRosterTransition;
  }

  // ---- Catching up ----

  /** Validating link by link, without the fork check. */
  function Fold(
    verify: Verifier, current: Option<Accepted>, snapshots: seq<AuthorityState>, line: nat, endpoints: seq<EndpointKeys>)
    : Result<Option<Accepted>>
    decreases |snapshots|
  {
    if snapshots == [] then Ok(current)
    else
      var next :- Validate(verify, snapshots[0], StateOf(current), line, endpoints);
      Fold(verify, Some(next), snapshots[1..], line, endpoints)
  }

  /** Every parent seen in the batch so far is a state of an epoch before the current one. */
  predicate OlderParents(siblings: Siblings, current: Option<Accepted>) {
    forall parent | parent in siblings ::
      && current.Some?
      && (parent.Some? ==>
            parent.value.DigestOf? && parent.value.fields.epoch < current.value.state.fields.epoch)
  }

  /** The fork check never refuses a batch that validates link by link. */
  lemma {:induction false} ForkCheckIsRedundant(
    verify: Verifier, current: Option<Accepted>, snapshots: seq<AuthorityState>, siblings: Siblings, line: nat,
    endpoints: seq<EndpointKeys>)
    requires OlderParents(siblings, current)
    ensures Follow(verify, current, snapshots, siblings, line, endpoints).Ok? <==>
            Fold(verify, current, snapshots, line, endpoints).Ok?
    ensures Fold(verify, current, snapshots, line, endpoints).Ok? ==>
              Follow(verify, current, snapshots, siblings, line, endpoints)
              == Fold(verify, current, snapshots, line, endpoints)
    decreases |snapshots|
  {
    if snapshots != [] {
      var parent, digest := snapshots[0].fields.previous, Digest(snapshots[0]);
      var next := Validate(verify, snapshots[0], StateOf(current), line, endpoints);
      if next.Ok? {
        ValidatedParent(verify, snapshots[0], StateOf(current), line, endpoints);
        assert parent !in siblings;
        ForkCheckIsRedundant(verify, Some(next.value), snapshots[1..], siblings[parent := digest], line, endpoints);
      }
    }
  }

  lemma ValidatedParent(
    verify: Verifier, state: AuthorityState, previous: Option<AuthorityState>, line: nat, endpoints: seq<EndpointKeys>)
    requires Validate(verify, state, previous, line, endpoints).Ok?
    ensures CheckRecord(state).Ok? && Validate(verify, state, previous, line, endpoints).value.state == state
    ensures state.fields.line == line
    ensures previous.None? ==> state.fields.previous.None? && state.fields.epoch == 0
    ensures previous.Some? ==>
              state.fields.previous == Some(Digest(previous.value)) && state.fields.epoch == previous.value.fields.epoch + 1
  {
    hide CheckDevices, CheckKeyChange, CheckSignatures, CheckRosterTransition;
  }

  lemma {:induction false} FoldComposes(
    verify: Verifier, current: Option<Accepted>, a: seq<AuthorityState>, b: seq<AuthorityState>, line: nat,
    endpoints: seq<EndpointKeys>)
    ensures Fold(verify, current, a + b, line, endpoints) ==
            (var first := Fold(verify, current, a, line, endpoints);
             if first.Err? then Err(first.error) else Fold(verify, first.value, b, line, endpoints))
    decreases |a|
  {
    hide Validate;
    if a == [] {
      assert [] + b == b;
    } else {
      assert (a + b)[0] == a[0] && (a + b)[1..] == a[1..] + b;
      var next := Validate(verify, a[0], StateOf(current), line, endpoints);
      if next.Ok? {
        FoldComposes(verify, Some(next.value), a[1..], b, line, endpoints);
      }
    }
  }

  lemma {:induction false} FoldOfSomeIsSome(
    verify: Verifier, current: Option<Accepted>, snapshots: seq<AuthorityState>, line: nat, endpoints: seq<EndpointKeys>)
    requires Fold(verify, current, snapshots, line, endpoints).Ok? && (current.Some? || snapshots != [])
    ensures Fold(verify, current, snapshots, line, endpoints).value.Some?
    decreases |snapshots|
  {
    hide Validate;
    if snapshots != [] {
      var next := Validate(verify, snapshots[0], StateOf(current), line, endpoints);
      FoldOfSomeIsSome(verify, Some(next.value), snapshots[1..], line, endpoints);
    }
  }

  /**
   Catching up on a batch succeeds exactly when catching up on its parts in turn does, and
   ends in the same place.
   */
  lemma CatchUpComposes(
    verify: Verifier, accepted: Option<Accepted>, a: seq<AuthorityState>, b: seq<AuthorityState>, line: nat,
    endpoints: seq<EndpointKeys>)
    requires a != [] && b != [] && |a| + |b| <= MAX_CHAIN_RECORDS
    ensures var whole := CatchUp(verify, accepted, a + b, line, endpoints);
            var first := CatchUp(verify, accepted, a, line, endpoints);
            && (whole.Ok? <==> first.Ok? && CatchUp(verify, Some(first.value), b, line, endpoints).Ok?)
            && (whole.Ok? ==> whole == CatchUp(verify, Some(first.value), b, line, endpoints))
  {
    hide Fold, Follow;
    ForkCheckIsRedundant(verify, accepted, a + b, map[], line, endpoints);
    ForkCheckIsRedundant(verify, accepted, a, map[], line, endpoints);
    FoldComposes(verify, accepted, a, b, line, endpoints);
    var first := Fold(verify, accepted, a, line, endpoints);
    if first.Ok? {
      FoldOfSomeIsSome(verify, accepted, a, line, endpoints);
      ForkCheckIsRedundant(verify, first.value, b, map[], line, endpoints);
      if Fold(verify, first.value, b, line, endpoints).Ok? {
        FoldOfSomeIsSome(verify, first.value, b, line, endpoints);
      }
    }
  }

  /** A batch of n snapshots moves the epoch on by n, and user and line never change. */
  lemma {:induction false} BatchesAdvanceByTheirLength(
    verify: Verifier, current: Accepted, snapshots: seq<AuthorityState>, line: nat, endpoints: seq<EndpointKeys>)
    requires Fold(verify, Some(current), snapshots, line, endpoints).Ok?
    ensures var last := Fold(verify, Some(current), snapshots, line, endpoints).value;
            && last.Some? && last.value.state.fields.epoch == current.state.fields.epoch + |snapshots|
            && last.value.state.fields.user == current.state.fields.user
            && (snapshots != [] ==> last.value.state.fields.line == current.state.fields.line)
    decreases |snapshots|
  {
    if snapshots != [] {
      var next := Validate(verify, snapshots[0], Some(current.state), line, endpoints).value;
      LinksAdvanceByOne(verify, snapshots[0], current.state, line, endpoints);
      ValidatedParent(verify, snapshots[0], Some(current.state), line, endpoints);
      hide Validate;
      BatchesAdvanceByTheirLength(verify, next, snapshots[1..], line, endpoints);
    }
  }

  /**
   A caught-up batch ends one epoch per snapshot later, for the same user and protocol line.
   A batch from nothing starts with a genesis state, at epoch 0.
   */
  lemma CatchUpAdvances(
    verify: Verifier, accepted: Option<Accepted>, snapshots: seq<AuthorityState>, line: nat, endpoints: seq<EndpointKeys>)
    requires CatchUp(verify, accepted, snapshots, line, endpoints).Ok?
    ensures var last := CatchUp(verify, accepted, snapshots, line, endpoints).value;
            && last.state == snapshots[|snapshots| - 1]
            && last.state.fields.epoch + 1 == |snapshots| + (if accepted.Some? then accepted.value.state.fields.epoch + 1 else 0)
            && last.state.fields.user == (if accepted.Some? then accepted.value.state.fields.user else snapshots[0].fields.user)
            && last.state.fields.line == line
            && (if accepted.Some? then accepted.value.state.fields.line == line else snapshots[0].fields.kind.Genesis?)
  {
    ForkCheckIsRedundant(verify, accepted, snapshots, map[], line, endpoints);
    LastIsAccepted(verify, accepted, snapshots, line, endpoints);
    var next := Validate(verify, snapshots[0], StateOf(accepted), line, endpoints).value;
    ValidatedParent(verify, snapshots[0], StateOf(accepted), line, endpoints);
    if accepted.Some? {
      LinksAdvanceByOne(verify, snapshots[0], accepted.value.state, line, endpoints);
    }
    hide Validate, CheckRecord;
    BatchesAdvanceByTheirLength(verify, next, snapshots[1..], line, endpoints);
  }

  lemma {:induction false} LastIsAccepted(
    verify: Verifier, current: Option<Accepted>, snapshots: seq<AuthorityState>, line: nat, endpoints: seq<EndpointKeys>)
    requires Fold(verify, current, snapshots, line, endpoints).Ok? && snapshots != []
    ensures var last := Fold(verify, current, snapshots, line, endpoints).value;
            last.Some? && last.value.state == snapshots[|snapshots| - 1] && last.value.state.fields.line == line
    decreases |snapshots|
  {
    hide Validate;
    var next := Validate(verify, snapshots[0], StateOf(current), line, endpoints).value;
    ValidatedParent(verify, snapshots[0], StateOf(current), line, endpoints);
    if |snapshots| > 1 {
      LastIsAccepted(verify, Some(next), snapshots[1..], line, endpoints);
    }
  }

  // ---- Chains from genesis ----

  function Before(chain: seq<AuthorityState>, i: nat): Option<AuthorityState>
    requires i < |chain|
  {
    if i == 0 then None else Some(chain[i - 1])
  }

  /** A chain whose every state was accepted after the one before it, at some time and with whatever keys were known. */
  predicate Chain(verify: Verifier, chain: seq<AuthorityState>, line: nat, known: seq<seq<EndpointKeys>>) {
    && |known| == |chain|
    && forall i | 0 <= i < |chain| ::
         Validate(verify, chain[i], Before(chain, i), line, known[i]).Ok?
  }

  function Listed(state: AuthorityState, endpoint: nat): Option<Device> {
    Entry(state.fields.devices, endpoint)
  }

  lemma {:induction false} ChainEpochs(
    verify: Verifier, chain: seq<AuthorityState>, line: nat, known: seq<seq<EndpointKeys>>, i: nat)
    requires Chain(verify, chain, line, known) && i < |chain|
    ensures chain[i].fields.epoch == i
  {
    hide Validate;
    ValidatedParent(verify, chain[i], Before(chain, i), line, known[i]);
    if i > 0 {
      ChainEpochs(verify, chain, line, known, i - 1);
    }
  }

  lemma {:induction false} EntryIsListed(devices: seq<Device>, endpoint: nat)
    ensures Entry(devices, endpoint).Some? ==>
              Entry(devices, endpoint).value in devices && Entry(devices, endpoint).value.endpoint == endpoint
    ensures Entry(devices, endpoint).None? ==> forall d | d in devices :: d.endpoint != endpoint
  {
    if devices != [] {
      EntryIsListed(devices[1..], endpoint);
      assert devices == [devices[0]] + devices[1..];
    }
  }

  lemma ValidatedRoster(
    verify: Verifier, state: AuthorityState, previous: Option<AuthorityState>, line: nat, endpoints: seq<EndpointKeys>)
    requires Validate(verify, state, previous, line, endpoints).Ok?
    ensures CheckRoster(state.fields.devices, state.fields.epoch, None).Ok?
    ensures previous.Some? ==>
              CheckRosterTransition(previous.value.fields.devices, state.fields.devices, state.fields.epoch).Ok?
    ensures previous.None? ==> CheckDevices(verify, state.fields, None, endpoints, state.fields.devices, None).Ok?
  {
    hide CheckDevices, CheckKeyChange, CheckSignatures, CheckRosterTransition, CheckRoster;
  }

  lemma {:induction false} RosterEntriesAreSound(devices: seq<Device>, epoch: nat, above: Option<nat>, d: Device)
    requires CheckRoster(devices, epoch, above).Ok? && d in devices
    ensures CheckEntry(d, epoch).Ok?
  {
    if d != devices[0] {
      assert devices == [devices[0]] + devices[1..];
      RosterEntriesAreSound(devices[1..], epoch, Some(devices[0].endpoint), d);
    }
  }

  lemma {:induction false} FoundersAreActive(
    verify: Verifier, f: Fields, endpoints: seq<EndpointKeys>, devices: seq<Device>, above: Option<nat>, d: Device)
    requires CheckDevices(verify, f, None, endpoints, devices, above).Ok? && d in devices
    ensures MayJoin(d, f.epoch)
  {
    if d != devices[0] {
      assert devices == [devices[0]] + devices[1..];
      FoundersAreActive(verify, f, endpoints, devices[1..], Some(devices[0].endpoint), d);
    }
  }

  /** What one step of an accepted chain does to one endpoint. */
  lemma RosterStep(
    verify: Verifier, chain: seq<AuthorityState>, line: nat, known: seq<seq<EndpointKeys>>, i: nat, endpoint: nat)
    requires Chain(verify, chain, line, known) && i < |chain|
    ensures Listed(chain[i], endpoint).Some? ==>
              CheckEntry(Listed(chain[i], endpoint).value, i).Ok? && Listed(chain[i], endpoint).value.endpoint == endpoint
    ensures i == 0 && Listed(chain[0], endpoint).Some? ==> MayJoin(Listed(chain[0], endpoint).value, 0)
    ensures i > 0 && Listed(chain[i - 1], endpoint).Some? ==>
              MaySucceed(Listed(chain[i - 1], endpoint).value, Listed(chain[i], endpoint), i)
    ensures i > 0 && Listed(chain[i - 1], endpoint).None? && Listed(chain[i], endpoint).Some? ==>
              MayJoin(Listed(chain[i], endpoint).value, i)
  {
    hide Validate, CheckEntry, CheckDevices, MaySucceed;
    ChainEpochs(verify, chain, line, known, i);
    ValidatedRoster(verify, chain[i], Before(chain, i), line, known[i]);
    EntryIsListed(chain[i].fields.devices, endpoint);
    if Listed(chain[i], endpoint).Some? {
      RosterEntriesAreSound(chain[i].fields.devices, i, None, Listed(chain[i], endpoint).value);
      if i == 0 {
        FoundersAreActive(
          verify, chain[0].fields, known[0], chain[0].fields.devices, None, Listed(chain[0], endpoint).value);
      }
    }
    if i > 0 {
      EntryIsListed(chain[i - 1].fields.devices, endpoint);
    }
  }

  /** The endpoint is listed as active under this identity since it was admitted at epoch `admitted`. */
  predicate ActiveSince(chain: seq<AuthorityState>, endpoint: nat, identity: nat, admitted: nat, i: nat)
    requires i < |chain|
  {
    && admitted <= i
    && (forall j | admitted <= j <= i ::
          && Listed(chain[j], endpoint).Some?
          && Listed(chain[j], endpoint).value.status.Active?
          && Listed(chain[j], endpoint).value.identity == identity
          && Listed(chain[j], endpoint).value.admitted == admitted)
    && (admitted > 0 && Listed(chain[admitted - 1], endpoint).Some? ==>
          Listed(chain[admitted - 1], endpoint).value.identity != identity)
  }

  /**
   Provenance: an active device's admitted epoch is when its present identity last entered
   the roster. It has been listed as active ever since, and was not listed with it just before.
   */
  lemma {:induction false} AdmittedEpochIsProvenance(
    verify: Verifier, chain: seq<AuthorityState>, line: nat, known: seq<seq<EndpointKeys>>, i: nat, endpoint: nat)
    requires Chain(verify, chain, line, known) && i < |chain|
    requires Listed(chain[i], endpoint).Some? && Listed(chain[i], endpoint).value.status.Active?
    ensures var d := Listed(chain[i], endpoint).value;
            ActiveSince(chain, endpoint, d.identity, d.admitted, i)
  {
    hide Chain, Listed;
    RosterStep(verify, chain, line, known, i, endpoint);
    var d := Listed(chain[i], endpoint).value;
    if i > 0 && d.admitted < i {
      RosterStep(verify, chain, line, known, i - 1, endpoint);
      AdmittedEpochIsProvenance(verify, chain, line, known, i - 1, endpoint);
    } else if i > 0 {
      if Listed(chain[i - 1], endpoint).Some? {
        RosterStep(verify, chain, line, known, i - 1, endpoint);
      }
    }
  }

  /** An active device never disappears: first it is listed as revoked, at the epoch it was revoked. */
  lemma {:induction false} ActiveDevicesLeaveThroughRevocation(
    verify: Verifier, chain: seq<AuthorityState>, line: nat, known: seq<seq<EndpointKeys>>, i: nat, j: nat, endpoint: nat)
    requires Chain(verify, chain, line, known) && i < j < |chain|
    requires Listed(chain[i], endpoint).Some? && Listed(chain[i], endpoint).value.status.Active?
    requires Listed(chain[j], endpoint).None?
    ensures exists k | i < k < j ::
              && Listed(chain[k], endpoint).Some? && Listed(chain[k], endpoint).value.status.Revoked?
              && Listed(chain[k], endpoint).value.revoked == Some(k)
    decreases j - i
  {
    hide Chain, Listed;
    RosterStep(verify, chain, line, known, i + 1, endpoint);
    var next := Listed(chain[i + 1], endpoint);
    assert next.Some?;
    if next.value.status.Active? {
      ActiveDevicesLeaveThroughRevocation(verify, chain, line, known, i + 1, j, endpoint);
    } else {
      assert next.value.revoked == Some(i + 1);
    }
  }

  /** A revoked entry does not change while it stays listed. */
  lemma {:induction false} RevokedEntriesAreFrozen(
    verify: Verifier, chain: seq<AuthorityState>, line: nat, known: seq<seq<EndpointKeys>>, i: nat, j: nat, endpoint: nat)
    requires Chain(verify, chain, line, known) && i <= j < |chain|
    requires Listed(chain[i], endpoint).Some? && Listed(chain[i], endpoint).value.status.Revoked?
    requires forall k | i <= k <= j :: Listed(chain[k], endpoint).Some?
    ensures Listed(chain[j], endpoint) == Listed(chain[i], endpoint)
    decreases j - i
  {
    hide Chain, Listed;
    if i < j {
      RosterStep(verify, chain, line, known, i + 1, endpoint);
      assert Listed(chain[i + 1], endpoint).Some?;
      RevokedEntriesAreFrozen(verify, chain, line, known, i + 1, j, endpoint);
    }
  }

  /** An endpoint that was not listed at epoch `k` has, wherever it is listed later, a later admitted epoch. */
  lemma {:induction false} AdmissionFollowsAbsence(
    verify: Verifier, chain: seq<AuthorityState>, line: nat, known: seq<seq<EndpointKeys>>, k: nat, j: nat, endpoint: nat)
    requires Chain(verify, chain, line, known) && k <= j < |chain|
    requires Listed(chain[k], endpoint).None? && Listed(chain[j], endpoint).Some?
    ensures Listed(chain[j], endpoint).value.admitted > k
    decreases j - k
  {
    hide Chain, Listed;
    RosterStep(verify, chain, line, known, j, endpoint);
    if Listed(chain[j - 1], endpoint).Some? {
      AdmissionFollowsAbsence(verify, chain, line, known, k, j - 1, endpoint);
    }
  }

  /** A revocation stands exactly as long as the endpoint is listed without a gap. */
  lemma RevocationStandsExactlyWhileListed(
    verify: Verifier, chain: seq<AuthorityState>, line: nat, known: seq<seq<EndpointKeys>>, i: nat, j: nat, endpoint: nat)
    requires Chain(verify, chain, line, known) && i <= j < |chain|
    requires Listed(chain[i], endpoint).Some? && Listed(chain[i], endpoint).value.status.Revoked?
    ensures Listed(chain[j], endpoint) == Listed(chain[i], endpoint) <==>
            forall k | i <= k <= j :: Listed(chain[k], endpoint).Some?
  {
    hide Chain, Listed;
    if forall k | i <= k <= j :: Listed(chain[k], endpoint).Some? {
      RevokedEntriesAreFrozen(verify, chain, line, known, i, j, endpoint);
    } else if Listed(chain[j], endpoint).Some? {
      var k :| i <= k <= j && Listed(chain[k], endpoint).None?;
      RosterStep(verify, chain, line, known, i, endpoint);
      AdmissionFollowsAbsence(verify, chain, line, known, k, j, endpoint);
    }
  }

  /** So a revoked endpoint that is active again was dropped from the roster, and admitted after that. */
  lemma RevokedDevicesReturnOnlyAnew(
    verify: Verifier, chain: seq<AuthorityState>, line: nat, known: seq<seq<EndpointKeys>>, i: nat, j: nat, endpoint: nat)
    requires Chain(verify, chain, line, known) && i < j < |chain|
    requires Listed(chain[i], endpoint).Some? && Listed(chain[i], endpoint).value.status.Revoked?
    requires Listed(chain[j], endpoint).Some? && Listed(chain[j], endpoint).value.status.Active?
    ensures exists k | i < k < j :: Listed(chain[k], endpoint).None? && Listed(chain[j], endpoint).value.admitted > k
  {
    hide Chain, Listed;
    RevocationStandsExactlyWhileListed(verify, chain, line, known, i, j, endpoint);
    var k :| i <= k <= j && Listed(chain[k], endpoint).None?;
    AdmissionFollowsAbsence(verify, chain, line, known, k, j, endpoint);
  }

  // ---- Revocation is not for ever ----

  /** How the holder of a key signs. */
  type Signer = (nat, Statement) -> nat

  ghost predicate Verifies(verify: Verifier, sign: Signer) {
    forall key, statement :: verify(key, statement, sign(key, statement))
  }

  function SampleKeys(holder: nat): KeyPair {
    KeyPair(Key(2 * holder, 2 * holder), Key(2 * holder + 1, 2 * holder + 1))
  }

  function SignedBy(sign: Signer, holder: nat, purpose: SignaturePurpose, statement: Statement): SignaturePair {
    SignaturePair(
      Signature(2 * holder, purpose, sign(2 * holder, statement)),
      Signature(2 * holder + 1, purpose, sign(2 * holder + 1, statement)))
  }

  /** The user: holder 0 manages, holder 3 recovers; holders 1 and 2 are its endpoints. */
  function SampleUser(): UserRef {
    DerivedRef(SampleKeys(0), SampleKeys(3))
  }

  function SampleDevice(sign: Signer, endpoint: nat, admitted: nat, revoked: Option<nat>): Device {
    var statement := DeviceStatement(0, SampleUser(), admitted, endpoint, 0);
    Device(endpoint, 0, if revoked.Some? then Revoked else Active, admitted, revoked,
           SignedBy(sign, endpoint, DevicePossession, statement))
  }

  function SampleState(sign: Signer, previous: Option<AuthorityState>, devices: seq<Device>): AuthorityState {
    var kind := if previous.Some? then Management else Genesis;
    var digest := if previous.Some? then Some(Digest(previous.value)) else None;
    var epoch := if previous.Some? then previous.value.fields.epoch + 1 else 0;
    var fields := Fields(0, SampleUser(), epoch, digest, kind, SampleKeys(0), SampleKeys(3), devices, None);
    AuthorityState(fields, SignedBy(sign, 0, PurposeOf(kind), AuthorityStatement(DigestOf(fields))))
  }

  /** Endpoint 2 is admitted, revoked, dropped, and admitted again, beside endpoint 1. */
  function ReturningChain(sign: Signer): seq<AuthorityState> {
    var anchor := SampleDevice(sign, 1, 0, None);
    var s0 := SampleState(sign, None, [anchor, SampleDevice(sign, 2, 0, None)]);
    var s1 := SampleState(sign, Some(s0), [anchor, SampleDevice(sign, 2, 0, Some(1))]);
    var s2 := SampleState(sign, Some(s1), [anchor]);
    var s3 := SampleState(sign, Some(s2), [anchor, SampleDevice(sign, 2, 3, None)]);
    [s0, s1, s2, s3]
  }

  function SampleEndpoints(): seq<EndpointKeys> {
    [EndpointKeys(1, 0, SampleKeys(1)), EndpointKeys(2, 0, SampleKeys(2))]
  }

  lemma OwnSignaturesVerify(verify: Verifier, sign: Signer, holder: nat, purpose: SignaturePurpose, statement: Statement)
    requires Verifies(verify, sign)
    ensures CheckSignatures(verify, SignedBy(sign, holder, purpose, statement), SampleKeys(holder), purpose, statement) == Ok(())
  {
  }

  /** A device is accepted when it is kept, or when it has just been admitted. */
  lemma SampleDeviceIsAccepted(
    verify: Verifier, sign: Signer, f: Fields, prior: Option<seq<Device>>, endpoint: nat, admitted: nat, revoked: Option<nat>)
    requires Verifies(verify, sign) && f.line == 0 && f.user == SampleUser() && 1 <= endpoint <= 2
    requires (prior.Some? && Unchanged(prior.value, SampleDevice(sign, endpoint, admitted, revoked)))
             || (admitted == f.epoch && revoked.None?)
    ensures CheckDevice(verify, f, prior, SampleEndpoints(), SampleDevice(sign, endpoint, admitted, revoked)) == Ok(())
  {
    hide CheckSignatures;
    OwnSignaturesVerify(
      verify, sign, endpoint, DevicePossession, DeviceStatement(0, SampleUser(), admitted, endpoint, 0));
    var e, device := SampleEndpoints(), SampleDevice(sign, endpoint, admitted, revoked);
    assert FindEndpoint(e[1..], device) == if endpoint == 2 then Some(e[1]) else FindEndpoint(e[2..], device);
    assert FindEndpoint(e, device) == Some(e[endpoint - 1]);
  }

  lemma OneDevice(
    verify: Verifier, f: Fields, prior: Option<seq<Device>>, endpoints: seq<EndpointKeys>, a: Device, above: Option<nat>)
    requires above.Some? ==> above.value < a.endpoint
    ensures CheckEntry(a, f.epoch).Ok? ==> CheckRoster([a], f.epoch, above).Ok?
    ensures CheckDevice(verify, f, prior, endpoints, a).Ok? ==> CheckDevices(verify, f, prior, endpoints, [a], above).Ok?
    ensures forall e :: Entry([a], e) == if a.endpoint == e then Some(a) else None
  {
    hide CheckEntry, CheckDevice;
    assert [a][1..] == [];
  }

  lemma TwoDevices(
    verify: Verifier, f: Fields, prior: Option<seq<Device>>, endpoints: seq<EndpointKeys>, a: Device, b: Device)
    requires a.endpoint < b.endpoint
    ensures CheckEntry(a, f.epoch).Ok? && CheckEntry(b, f.epoch).Ok? ==> CheckRoster([a, b], f.epoch, None).Ok?
    ensures CheckDevice(verify, f, prior, endpoints, a).Ok? && CheckDevice(verify, f, prior, endpoints, b).Ok? ==>
              CheckDevices(verify, f, prior, endpoints, [a, b], None).Ok?
    ensures forall e :: Entry([a, b], e) == if a.endpoint == e then Some(a) else if b.endpoint == e then Some(b) else None
  {
    hide CheckEntry, CheckDevice;
    OneDevice(verify, f, prior, endpoints, b, Some(a.endpoint));
    assert [a, b][1..] == [b];
  }

  /** A signed state with a sound roster is accepted after its predecessor. */
  lemma SampleStateIsAccepted(verify: Verifier, sign: Signer, previous: Option<AuthorityState>, devices: seq<Device>)
    requires Verifies(verify, sign) && 1 <= |devices| <= MAX_DEVICES
    requires previous.Some? ==>
               && CheckRecord(previous.value).Ok? && previous.value.fields.line == 0
               && previous.value.fields.user == SampleUser()
               && previous.value.fields.management == SampleKeys(0) && previous.value.fields.recovery == SampleKeys(3)
    requires var f := SampleState(sign, previous, devices).fields;
             && CheckRoster(devices, f.epoch, None).Ok?
             && (previous.Some? ==> CheckRosterTransition(previous.value.fields.devices, devices, f.epoch).Ok?)
             && var prior := if previous.Some? then Some(previous.value.fields.devices) else None;
                CheckDevices(verify, f, prior, SampleEndpoints(), devices, None).Ok?
    ensures CheckRecord(SampleState(sign, previous, devices)).Ok?
    ensures Validate(verify, SampleState(sign, previous, devices), previous, 0, SampleEndpoints()).Ok?
  {
    hide CheckRoster, CheckDevices, CheckRosterTransition, CheckSignatures, SampleEndpoints;
    var state := SampleState(sign, previous, devices);
    OwnSignaturesVerify(verify, sign, 0, PurposeOf(state.fields.kind), AuthorityStatement(Digest(state)));
  }

  /**
   Under every signature scheme that verifies what it signs, the code accepts a chain, each
   statement in it signed by its own signer, in which a revoked device is active again.
   */
  lemma RevocationIsNotForEver(verify: Verifier, sign: Signer)
    requires Verifies(verify, sign)
    ensures var chain, e := ReturningChain(sign), SampleEndpoints();
            && Chain(verify, chain, 0, [e, e, e, e])
            && Listed(chain[1], 2).Some? && Listed(chain[1], 2).value.status.Revoked?
            && Listed(chain[3], 2).Some? && Listed(chain[3], 2).value.status.Active?
  {
    var chain, e := ReturningChain(sign), SampleEndpoints();
    FoundingAndRevocationAreAccepted(verify, sign);
    DroppingAndReturnAreAccepted(verify, sign);
    var anchor := SampleDevice(sign, 1, 0, None);
    TwoDevices(verify, chain[1].fields, None, e, anchor, SampleDevice(sign, 2, 0, Some(1)));
    TwoDevices(verify, chain[3].fields, None, e, anchor, SampleDevice(sign, 2, 3, None));
    hide Validate;
    forall i | 0 <= i < 4
      ensures Validate(verify, chain[i], Before(chain, i), 0, [e, e, e, e][i]).Ok?
    {
      assert i == 0 || i == 1 || i == 2 || i == 3;
    }
  }

  lemma FoundingAndRevocationAreAccepted(verify: Verifier, sign: Signer)
    requires Verifies(verify, sign)
    ensures var chain, e := ReturningChain(sign), SampleEndpoints();
            && Validate(verify, chain[0], None, 0, e).Ok?
            && Validate(verify, chain[1], Some(chain[0]), 0, e).Ok?
            && CheckRecord(chain[1]).Ok?
  {
    var chain, e := ReturningChain(sign), SampleEndpoints();
    hide CheckDevice, CheckDevices, CheckRoster, CheckRecord, Validate, SampleEndpoints, Entry;
    var anchor, first, revoked := SampleDevice(sign, 1, 0, None), SampleDevice(sign, 2, 0, None), SampleDevice(sign, 2, 0, Some(1));
    SampleDeviceIsAccepted(verify, sign, chain[0].fields, None, 1, 0, None);
    SampleDeviceIsAccepted(verify, sign, chain[0].fields, None, 2, 0, None);
    TwoDevices(verify, chain[0].fields, None, e, anchor, first);
    SampleStateIsAccepted(verify, sign, None, [anchor, first]);
    var prior := Some([anchor, first]);
    SampleDeviceIsAccepted(verify, sign, chain[1].fields, prior, 1, 0, None);
    SampleDeviceIsAccepted(verify, sign, chain[1].fields, prior, 2, 0, Some(1));
    TwoDevices(verify, chain[1].fields, prior, e, anchor, revoked);
    SampleStateIsAccepted(verify, sign, Some(chain[0]), [anchor, revoked]);
  }

  lemma DroppingAndReturnAreAccepted(verify: Verifier, sign: Signer)
    requires Verifies(verify, sign)
    ensures var chain, e := ReturningChain(sign), SampleEndpoints();
            && Validate(verify, chain[2], Some(chain[1]), 0, e).Ok?
            && Validate(verify, chain[3], Some(chain[2]), 0, e).Ok?
  {
    var chain, e := ReturningChain(sign), SampleEndpoints();
    FoundingAndRevocationAreAccepted(verify, sign);
    hide CheckDevice, CheckDevices, CheckRoster, CheckRecord, Validate, SampleEndpoints, Entry;
    var anchor, revoked, again := SampleDevice(sign, 1, 0, None), SampleDevice(sign, 2, 0, Some(1)), SampleDevice(sign, 2, 3, None);
    var two, one := Some([anchor, revoked]), Some([anchor]);
    SampleDeviceIsAccepted(verify, sign, chain[2].fields, two, 1, 0, None);
    OneDevice(verify, chain[2].fields, two, e, anchor, None);
    SampleStateIsAccepted(verify, sign, Some(chain[1]), [anchor]);
    SampleDeviceIsAccepted(verify, sign, chain[3].fields, one, 1, 0, None);
    SampleDeviceIsAccepted(verify, sign, chain[3].fields, one, 2, 3, None);
    TwoDevices(verify, chain[3].fields, one, e, anchor, again);
    SampleStateIsAccepted(verify, sign, Some(chain[2]), [anchor, again]);
  }

  // ---- Protected payloads ----

  /** What a session admits is the state it vouches for, with its own device active; the current state is admitted as it is. */
  lemma AdmittedPayloadsAreVouchedFor(
    verify: Verifier, accepted: Option<Accepted>, session: Session, state: AuthorityState, line: nat,
    endpoints: seq<EndpointKeys>)
    requires accepted.Some? ==> accepted.value.digest == Digest(accepted.value.state)
    requires AdmitPayload(verify, accepted, session, state, line, endpoints).Ok?
    ensures var r := AdmitPayload(verify, accepted, session, state, line, endpoints).value;
            && session.authenticated && r.digest == session.digest == Digest(state) && r.state.fields == state.fields
            && HasActive(state.fields.devices, session.endpoint, session.identity)
            && (if accepted.Some? && accepted.value.digest == Digest(state) then Some(r) == accepted
                else Validate(verify, state, StateOf(accepted), line, endpoints) == Ok(r))
  {
    hide CheckRecord, CheckDevices, CheckKeyChange, CheckSignatures, SigningKeys;
  }
}
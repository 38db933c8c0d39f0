/** Exactly which authority states are accepted, spelled out over the record, its predecessor and the known endpoint keys. */
module IdentityDecisions {
  import opened Errors
  import opened Identity
  import opened IdentityTheorems

  // ---- Records ----

  /** One roster entry that can stand at the epoch. */
  predicate EntryStands(d: Device, epoch: nat) {
    && d.admitted <= epoch && (d.status.Active? <==> d.revoked.None?)
    && (d.revoked.Some? ==> d.admitted <= d.revoked.value <= epoch)
    && d.possession.ed25519.keyId != d.possession.mlDsa65.keyId
  }

  /** A record on its own: one to sixteen devices in order of their endpoints, and keys that are told apart. */
  predicate RecordStands(state: AuthorityState) {
    var f := state.fields;
    && (f.epoch == 0 <==> f.kind.Genesis?) && (f.epoch == 0 <==> f.previous.None?)
    && f.management.ed25519.keyId != f.management.mlDsa65.keyId
    && f.recovery.ed25519.keyId != f.recovery.mlDsa65.keyId
    && 1 <= |f.devices| <= 16
    && (forall i, j | 0 <= i < j < |f.devices| :: f.devices[i].endpoint < f.devices[j].endpoint)
    && (forall i | 0 <= i < |f.devices| :: EntryStands(f.devices[i], f.epoch))
    && (f.possession.Some? ==>
          && (f.possession.value.management.Some? || f.possession.value.recovery.Some?)
          && (f.possession.value.management.Some? ==>
                f.possession.value.management.value.ed25519.keyId != f.possession.value.management.value.mlDsa65.keyId)
          && (f.possession.value.recovery.Some? ==>
                f.possession.value.recovery.value.ed25519.keyId != f.possession.value.recovery.value.mlDsa65.keyId))
    && state.signatures.ed25519.keyId != state.signatures.mlDsa65.keyId
  }

  predicate RosterStands(devices: seq<Device>, epoch: nat, above: Option<nat>) {
    && (forall i, j | 0 <= i < j < |devices| :: devices[i].endpoint < devices[j].endpoint)
    && (forall i | 0 <= i < |devices| :: EntryStands(devices[i], epoch))
    && (above.Some? && devices != [] ==> above.value < devices[0].endpoint)
  }

  lemma {:induction false} RostersExactly(devices: seq<Device>, epoch: nat, above: Option<nat>)
    ensures CheckRoster(devices, epoch, above).Ok? <==> RosterStands(devices, epoch, above)
  {
    if devices != [] {
      hide EntryStands, CheckEntry;
      RostersExactly(devices[1..], epoch, Some(devices[0].endpoint));
      EntriesExactly(devices[0], epoch);
      assert devices == [devices[0]] + devices[1..];
    }
  }

  lemma EntriesExactly(d: Device, epoch: nat)
    ensures CheckEntry(d, epoch).Ok? <==> EntryStands(d, epoch)
  {
  }

  lemma RecordsExactly(state: AuthorityState)
    ensures CheckRecord(state).Ok? <==> RecordStands(state)
  {
    hide CheckRoster, EntryStands;
    RostersExactly(state.fields.devices, state.fields.epoch, None);
  }

  // ---- Signatures ----

  /** Both signatures are made for the purpose, name the two keys, and verify under them over the statement. */
  predicate SignedWith(
    verify: Verifier, signatures: SignaturePair, keys: KeyPair, purpose: SignaturePurpose, statement: Statement)
  {
    && signatures.ed25519.purpose == purpose && signatures.mlDsa65.purpose == purpose
    && signatures.ed25519.keyId == keys.ed25519.keyId && signatures.mlDsa65.keyId == keys.mlDsa65.keyId
    && verify(keys.ed25519.publicKey, statement, signatures.ed25519.value)
    && verify(keys.mlDsa65.publicKey, statement, signatures.mlDsa65.value)
  }

  lemma SignaturesExactly(
    verify: Verifier, signatures: SignaturePair, keys: KeyPair, purpose: SignaturePurpose, statement: Statement)
    ensures CheckSignatures(verify, signatures, keys, purpose, statement).Ok? <==>
            SignedWith(verify, signatures, keys, purpose, statement)
  {
  }

  // ---- Rosters from one epoch to the next ----

  /** What may become of a device, seen in the next roster. */
  predicate Continues(prior: Device, next: seq<Device>, epoch: nat) {
    && ((forall n | n in next :: n.endpoint != prior.endpoint) ==> prior.status.Revoked?)
    && (forall n | n in next && n.endpoint == prior.endpoint ::
          && (prior.status.Revoked? ==> n == prior)
          && (prior.status.Active? && n.status.Revoked? ==>
                && n.identity == prior.identity && n.admitted == prior.admitted && n.possession == prior.possession
                && n.revoked == Some(epoch))
          && (prior.status.Active? && n.status.Active? && n.identity == prior.identity ==>
                n.admitted == prior.admitted && n.possession == prior.possession)
          && (prior.status.Active? && n.status.Active? && n.identity != prior.identity ==> n.admitted == epoch))
  }

  predicate RosterFollows(previous: seq<Device>, next: seq<Device>, epoch: nat) {
    && (forall d | d in previous :: Continues(d, next, epoch))
    && (forall n | n in next && (forall d | d in previous :: d.endpoint != n.endpoint) ::
          n.status.Active? && n.admitted == epoch)
  }

  lemma {:induction false} EntryFinds(devices: seq<Device>, endpoint: nat)
    requires forall i, j | 0 <= i < j < |devices| :: devices[i].endpoint < devices[j].endpoint
    ensures Entry(devices, endpoint).None? <==> forall d | d in devices :: d.endpoint != endpoint
    ensures forall d | d in devices && d.endpoint == endpoint :: Entry(devices, endpoint) == Some(d)
  {
    if devices != [] {
      EntryFinds(devices[1..], endpoint);
      assert devices == [devices[0]] + devices[1..];
      assert forall d | d in devices[1..] :: devices[0].endpoint < d.endpoint;
    }
  }

  lemma ContinuationsExactly(prior: Device, next: seq<Device>, epoch: nat)
    requires forall i, j | 0 <= i < j < |next| :: next[i].endpoint < next[j].endpoint
    ensures MaySucceed(prior, Entry(next, prior.endpoint), epoch) <==> Continues(prior, next, epoch)
  {
    hide Entry;
    EntryFinds(next, prior.endpoint);
    EntryIsIn(next, prior.endpoint);
  }

  lemma {:induction false} EntryIsIn(devices: seq<Device>, endpoint: nat)
    ensures Entry(devices, endpoint).Some? ==>
              Entry(devices, endpoint).value in devices && Entry(devices, endpoint).value.endpoint == endpoint
  {
    if devices != [] {
      EntryIsIn(devices[1..], endpoint);
      assert devices == [devices[0]] + devices[1..];
    }
  }

  lemma RosterTransitionsExactly(previous: seq<Device>, next: seq<Device>, epoch: nat)
    requires forall i, j | 0 <= i < j < |previous| :: previous[i].endpoint < previous[j].endpoint
    requires forall i, j | 0 <= i < j < |next| :: next[i].endpoint < next[j].endpoint
    ensures CheckRosterTransition(previous, next, epoch).Ok? <==> RosterFollows(previous, next, epoch)
  {
    hide MaySucceed, Continues, Entry;
    forall d | d in previous
      ensures MaySucceed(d, Entry(next, d.endpoint), epoch) <==> Continues(d, next, epoch)
    {
      ContinuationsExactly(d, next, epoch);
    }
    forall n | n in next
      ensures Entry(previous, n.endpoint).None? <==> forall d | d in previous :: d.endpoint != n.endpoint
    {
      EntryFinds(previous, n.endpoint);
    }
  }

  // ---- Devices ----

  /** Where the keys of a device's endpoint are known first. */
  predicate KnownFirst(known: seq<EndpointKeys>, k: nat, endpoint: nat, identity: nat) {
    && k < |known| && known[k].endpoint == endpoint && known[k].identity == identity
    && forall l | 0 <= l < k :: known[l].endpoint != endpoint || known[l].identity != identity
  }

  /** The device's possession is signed with its endpoint's known keys over line, user, epoch, endpoint and identity. */
  ghost predicate ProvesPossession(
    verify: Verifier, known: seq<EndpointKeys>, line: nat, user: UserRef, epoch: nat, d: Device)
  {
    exists k: nat ::
      && KnownFirst(known, k, d.endpoint, d.identity)
      && SignedWith(verify, d.possession, known[k].keys, DevicePossession,
                    DeviceStatement(line, user, epoch, d.endpoint, d.identity))
  }

  /** The device was there before with its identity; or it proves possession, as an active newcomer at genesis. */
  ghost predicate DeviceStands(
    verify: Verifier, f: Fields, prior: Option<seq<Device>>, known: seq<EndpointKeys>, d: Device)
  {
    || (prior.Some? && exists p | p in prior.value :: p.endpoint == d.endpoint && p.identity == d.identity)
    || ((prior.None? ==> d.status.Active? && d.admitted == f.epoch)
        && ProvesPossession(verify, known, f.line, f.user, f.epoch, d))
  }

  lemma {:induction false} KeysAreFoundFirst(known: seq<EndpointKeys>, d: Device)
    ensures FindEndpoint(known, d).None? <==> forall k: nat :: !KnownFirst(known, k, d.endpoint, d.identity)
    ensures forall k: nat | KnownFirst(known, k, d.endpoint, d.identity) :: FindEndpoint(known, d) == Some(known[k])
  {
    if known != [] {
      if known[0].endpoint == d.endpoint && known[0].identity == d.identity {
        assert KnownFirst(known, 0, d.endpoint, d.identity);
      } else {
        KeysAreFoundFirst(known[1..], d);
        forall k: nat
          ensures KnownFirst(known, k + 1, d.endpoint, d.identity) <==> KnownFirst(known[1..], k, d.endpoint, d.identity)
          ensures !KnownFirst(known, 0, d.endpoint, d.identity)
        {
          FirstAmongRest(known, k, d.endpoint, d.identity);
        }
        assert forall k: nat | KnownFirst(known, k, d.endpoint, d.identity) ::
            k > 0 && KnownFirst(known[1..], k - 1, d.endpoint, d.identity);
      }
    }
  }

  lemma FirstAmongRest(known: seq<EndpointKeys>, k: nat, endpoint: nat, identity: nat)
    requires known != [] && (known[0].endpoint != endpoint || known[0].identity != identity)
    ensures KnownFirst(known, k + 1, endpoint, identity) <==> KnownFirst(known[1..], k, endpoint, identity)
  {
    if KnownFirst(known[1..], k, endpoint, identity) {
      forall l | 0 <= l < k + 1
        ensures known[l].endpoint != endpoint || known[l].identity != identity
      {
        assert l > 0 ==> known[l] == known[1..][l - 1];
      }
    }
    if KnownFirst(known, k + 1, endpoint, identity) {
      forall l | 0 <= l < k
        ensures known[1..][l].endpoint != endpoint || known[1..][l].identity != identity
      {
        assert known[1..][l] == known[l + 1];
      }
    }
  }

  lemma KnownOnes(known: seq<EndpointKeys>, d: Device)
    ensures forall k: nat | KnownFirst(known, k, d.endpoint, d.identity) :: k < |known|
  {
  }

  lemma DevicesExactly(
    verify: Verifier, f: Fields, prior: Option<seq<Device>>, known: seq<EndpointKeys>, d: Device)
    requires EntryStands(d, f.epoch)
    ensures CheckDevice(verify, f, prior, known, d).Ok? <==> DeviceStands(verify, f, prior, known, d)
  {
    hide FindEndpoint, CheckSignatures, SignedWith, KnownFirst;
    KeysAreFoundFirst(known, d);
    KnownOnes(known, d);
    if FindEndpoint(known, d).Some? {
      var k: nat :| k < |known| && KnownFirst(known, k, d.endpoint, d.identity);
      SignaturesExactly(
        verify, d.possession, known[k].keys, DevicePossession,
        DeviceStatement(f.line, f.user, f.epoch, d.endpoint, d.identity));
    }
  }

  lemma {:induction false} AllDevicesExactly(
    verify: Verifier, f: Fields, prior: Option<seq<Device>>, known: seq<EndpointKeys>, devices: seq<Device>,
    above: Option<nat>)
    requires RosterStands(devices, f.epoch, above)
    ensures CheckDevices(verify, f, prior, known, devices, above).Ok? <==>
            forall d | d in devices :: DeviceStands(verify, f, prior, known, d)
  {
    hide CheckDevice, DeviceStands, EntryStands;
    if devices != [] {
      DevicesExactly(verify, f, prior, known, devices[0]);
      AllDevicesExactly(verify, f, prior, known, devices[1..], Some(devices[0].endpoint));
      assert devices == [devices[0]] + devices[1..];
    }
  }

  // ---- The authority's own keys ----

  /** A changed key pair is backed by signatures of the new keys over the change; an unchanged one carries none. */
  predicate ReplacementStands(
    verify: Verifier, f: Fields, changed: bool, signatures: Option<SignaturePair>, keys: KeyPair, purpose: SignaturePurpose)
  {
    && (changed <==> signatures.Some?)
    && (signatures.Some? ==>
          SignedWith(verify, signatures.value, keys, purpose,
                     ReplacementStatement(f.line, f.user, f.epoch, f.management, f.recovery)))
  }

  /** Management keeps the recovery keys and proves a change of its own; recovery changes keys and proves each change. */
  predicate KeyChangeStands(verify: Verifier, f: Fields, p: Fields) {
    if f.kind.Management? && f.management == p.management then f.possession.None?
    else
      && (f.management != p.management || f.recovery != p.recovery) && f.possession.Some?
      && ReplacementStands(
           verify, f, f.management != p.management, f.possession.value.management, f.management, ReplacementManagement)
      && ReplacementStands(
           verify, f, f.recovery != p.recovery, f.possession.value.recovery, f.recovery, ReplacementRecovery)
  }

  lemma KeyChangesExactly(verify: Verifier, f: Fields, p: Fields)
    requires !f.kind.Genesis?
    ensures CheckKeyChange(verify, f, p).Ok? <==> KeyChangeStands(verify, f, p)
  {
    hide CheckSignatures, SignedWith;
    var statement := ReplacementStatement(f.line, f.user, f.epoch, f.management, f.recovery);
    if f.possession.Some? && f.possession.value.management.Some? {
      SignaturesExactly(verify, f.possession.value.management.value, f.management, ReplacementManagement, statement);
    }
    if f.possession.Some? && f.possession.value.recovery.Some? {
      SignaturesExactly(verify, f.possession.value.recovery.value, f.recovery, ReplacementRecovery, statement);
    }
  }

  // ---- Whole states ----

  /** A first state: of the user its keys make, signed by its management keys, its devices active and proved. */
  ghost predicate GenesisStands(verify: Verifier, state: AuthorityState, line: nat, known: seq<EndpointKeys>) {
    var f := state.fields;
    && RecordStands(state) && f.line == line && f.epoch == 0 && f.possession.None?
    && f.user == DerivedRef(f.management, f.recovery)
    && SignedWith(verify, state.signatures, f.management, AuthorityGenesis, AuthorityStatement(DigestOf(f)))
    && forall d | d in f.devices :: DeviceStands(verify, f, None, known, d)
  }

  /** A next state: one epoch on, linked, signed by the keys of the state before, with a roster and keys that follow. */
  ghost predicate SuccessorStands(
    verify: Verifier, state: AuthorityState, previous: AuthorityState, line: nat, known: seq<EndpointKeys>)
  {
    var f, p := state.fields, previous.fields;
    && RecordStands(state) && RecordStands(previous) && f.line == p.line == line && f.user == p.user
    && f.epoch == p.epoch + 1 && f.previous == Some(DigestOf(p))
    && (f.kind.Management? ==> f.recovery == p.recovery)
    && RosterFollows(p.devices, f.devices, f.epoch)
    && SignedWith(verify, state.signatures, if f.kind.Management? then p.management else p.recovery,
                  if f.kind.Management? then AuthorityManagement else AuthorityRecovery, AuthorityStatement(DigestOf(f)))
    && (forall d | d in f.devices :: DeviceStands(verify, f, Some(p.devices), known, d))
    && KeyChangeStands(verify, f, p)
  }

  lemma GenesisExactly(verify: Verifier, state: AuthorityState, line: nat, known: seq<EndpointKeys>)
    ensures Validate(verify, state, None, line, known).Ok? <==> GenesisStands(verify, state, line, known)
    ensures Validate(verify, state, None, line, known).Ok? ==>
              Validate(verify, state, None, line, known) ==
              Ok(Accepted(state, state.fields.user, state.fields.epoch, DigestOf(state.fields)))
  {
    hide CheckRecord, CheckDevices, CheckSignatures, SignedWith, DeviceStands, EntryStands;
    var f := state.fields;
    RecordsExactly(state);
    SignaturesExactly(verify, state.signatures, f.management, AuthorityGenesis, AuthorityStatement(DigestOf(f)));
    if RecordStands(state) {
      AllDevicesExactly(verify, f, None, known, f.devices, None);
    }
  }

  lemma SuccessorsExactly(
    verify: Verifier, state: AuthorityState, previous: AuthorityState, line: nat, known: seq<EndpointKeys>)
    ensures Validate(verify, state, Some(previous), line, known).Ok? <==>
            SuccessorStands(verify, state, previous, line, known)
    ensures Validate(verify, state, Some(previous), line, known).Ok? ==>
              Validate(verify, state, Some(previous), line, known) ==
              Ok(Accepted(state, state.fields.user, state.fields.epoch, DigestOf(state.fields)))
  {
    hide CheckRecord, CheckDevices, CheckSignatures, SignedWith, DeviceStands, EntryStands, CheckKeyChange, KeyChangeStands;
    hide CheckRosterTransition, RosterFollows;
    var f, p := state.fields, previous.fields;
    RecordsExactly(state);
    RecordsExactly(previous);
    var keys := if f.kind.Management? then p.management else p.recovery;
    SignaturesExactly(verify, state.signatures, keys, PurposeOf(f.kind), AuthorityStatement(DigestOf(f)));
    if RecordStands(state) && RecordStands(previous) {
      RosterTransitionsExactly(p.devices, f.devices, f.epoch);
      AllDevicesExactly(verify, f, Some(p.devices), known, f.devices, None);
      if !f.kind.Genesis? {
        KeyChangesExactly(verify, f, p);
      }
    }
  }

  // ---- Conflicts ----

  lemma {:induction false} DevicesDoNotConflict(
    verify: Verifier, f: Fields, prior: Option<seq<Device>>, known: seq<EndpointKeys>, devices: seq<Device>,
    above: Option<nat>)
    ensures CheckDevices(verify, f, prior, known, devices, above) != Err(Invalid(Conflict))
  {
    hide FindEndpoint, Unchanged;
    if devices != [] {
      DevicesDoNotConflict(verify, f, prior, known, devices[1..], Some(devices[0].endpoint));
    }
  }

  lemma SignaturesDoNotConflict(
    verify: Verifier, signatures: SignaturePair, keys: KeyPair, purpose: SignaturePurpose, statement: Statement)
    ensures CheckSignatures(verify, signatures, keys, purpose, statement) != Err(Invalid(Conflict))
  {
  }

  lemma KeyChangesDoNotConflict(verify: Verifier, f: Fields, p: Fields)
    ensures CheckKeyChange(verify, f, p) != Err(Invalid(Conflict))
  {
  }

  /** Of two records that stand, the second conflicts with the first exactly if it is on the line and does not follow it. */
  lemma ConflictsExactly(
    verify: Verifier, state: AuthorityState, previous: AuthorityState, line: nat, known: seq<EndpointKeys>)
    requires RecordStands(state) && RecordStands(previous)
    ensures var f, p := state.fields, previous.fields;
            Validate(verify, state, Some(previous), line, known) == Err(Invalid(Conflict)) <==>
              && f.line == line && !f.kind.Genesis?
              && (f.epoch != p.epoch + 1 || f.previous != Some(DigestOf(p)) || f.user != p.user || f.line != p.line)
  {
    hide CheckRecord, CheckDevices, CheckSignatures, CheckKeyChange, SuccessionOk, AdmissionOk, RecordStands;
    var f, p := state.fields, previous.fields;
    RecordsExactly(state);
    RecordsExactly(previous);
    var keys := if f.kind.Management? then p.management else p.recovery;
    SignaturesDoNotConflict(verify, state.signatures, keys, PurposeOf(f.kind), AuthorityStatement(DigestOf(f)));
    DevicesDoNotConflict(verify, f, Some(p.devices), known, f.devices, None);
    KeyChangesDoNotConflict(verify, f, p);
  }

  // ---- Possession over whole chains ----

  /** In an accepted chain every listed device was there before with its identity, or proves possession at this epoch. */
  lemma ListedDevicesStand(
    verify: Verifier, chain: seq<AuthorityState>, line: nat, known: seq<seq<EndpointKeys>>, i: nat, d: Device)
    requires Chain(verify, chain, line, known) && i < |chain| && d in chain[i].fields.devices
    ensures chain[i].fields.epoch == i && chain[i].fields.line == line
    ensures DeviceStands(verify, chain[i].fields, if i == 0 then None else Some(chain[i - 1].fields.devices), known[i], d)
  {
    hide Validate, DeviceStands, RecordStands, SignedWith, RosterFollows, KeyChangeStands;
    ChainEpochs(verify, chain, line, known, i);
    if i == 0 {
      GenesisExactly(verify, chain[0], line, known[0]);
    } else {
      SuccessorsExactly(verify, chain[i], chain[i - 1], line, known[i]);
    }
  }

  lemma {:induction false} ChainsKeepTheUser(
    verify: Verifier, chain: seq<AuthorityState>, line: nat, known: seq<seq<EndpointKeys>>, i: nat, j: nat)
    requires Chain(verify, chain, line, known) && i <= j < |chain|
    ensures chain[i].fields.user == chain[j].fields.user
    decreases j - i
  {
    hide Validate, SuccessorStands;
    if i < j {
      ChainsKeepTheUser(verify, chain, line, known, i, j - 1);
      LinksAdvanceByOne(verify, chain[j], chain[j - 1], line, known[j]);
    }
  }

  lemma {:induction false} PossessionIsKept(
    verify: Verifier, chain: seq<AuthorityState>, line: nat, known: seq<seq<EndpointKeys>>, i: nat, endpoint: nat)
    requires Chain(verify, chain, line, known) && i < |chain|
    requires Listed(chain[i], endpoint).Some? && Listed(chain[i], endpoint).value.status.Active?
    ensures var d := Listed(chain[i], endpoint).value;
            d.admitted <= i && Listed(chain[d.admitted], endpoint) == Some(d)
  {
    hide Chain, Listed;
    RosterStep(verify, chain, line, known, i, endpoint);
    var d := Listed(chain[i], endpoint).value;
    if d.admitted < i {
      RosterStep(verify, chain, line, known, i - 1, endpoint);
      AdmittedEpochIsProvenance(verify, chain, line, known, i, endpoint);
      PossessionIsKept(verify, chain, line, known, i - 1, endpoint);
    }
  }

  /**
   Over every accepted chain: an active device proved, at the epoch it was admitted, possession of
   the keys then known of its endpoint and identity, with both of its signatures, over this very
   line, user, epoch, endpoint and identity. A change of identity is an admission like any other.
   */
  lemma ActiveDevicesProvedPossession(
    verify: Verifier, chain: seq<AuthorityState>, line: nat, known: seq<seq<EndpointKeys>>, i: nat, endpoint: nat)
    requires Chain(verify, chain, line, known) && i < |chain|
    requires Listed(chain[i], endpoint).Some? && Listed(chain[i], endpoint).value.status.Active?
    ensures var d := Listed(chain[i], endpoint).value;
            && d.admitted <= i && d.endpoint == endpoint
            && ProvesPossession(verify, known[d.admitted], line, chain[i].fields.user, d.admitted, d)
  {
    hide Validate, Chain, ProvesPossession, Listed;
    PossessionIsKept(verify, chain, line, known, i, endpoint);
    AdmittedEpochIsProvenance(verify, chain, line, known, i, endpoint);
    RosterStep(verify, chain, line, known, i, endpoint);
    var d := Listed(chain[i], endpoint).value;
    ListedIsThere(chain[d.admitted], endpoint);
    ListedDevicesStand(verify, chain, line, known, d.admitted, d);
    ChainsKeepTheUser(verify, chain, line, known, d.admitted, i);
    if d.admitted > 0 {
      NewIdentityIsNew(verify, chain, line, known, d.admitted, d);
    }
  }

  lemma ListedIsThere(state: AuthorityState, endpoint: nat)
    ensures Listed(state, endpoint).Some? ==>
              Listed(state, endpoint).value in state.fields.devices && Listed(state, endpoint).value.endpoint == endpoint
  {
    EntryIsIn(state.fields.devices, endpoint);
  }

  /** A device that was not listed with its identity just before does not occur there at all. */
  lemma NewIdentityIsNew(
    verify: Verifier, chain: seq<AuthorityState>, line: nat, known: seq<seq<EndpointKeys>>, i: nat, d: Device)
    requires Chain(verify, chain, line, known) && 0 < i < |chain|
    requires Listed(chain[i - 1], d.endpoint).Some? ==> Listed(chain[i - 1], d.endpoint).value.identity != d.identity
    ensures forall p | p in chain[i - 1].fields.devices :: p.endpoint != d.endpoint || p.identity != d.identity
  {
    hide Validate, DeviceStands, SignedWith, RosterFollows, KeyChangeStands, EntryStands, Entry;
    SuccessorsExactly(verify, chain[i], chain[i - 1], line, known[i]);
    EntryFinds(chain[i - 1].fields.devices, d.endpoint);
  }

  /** Revoking a device keeps its identity, admission and possession, and names the epoch. */
  lemma RevocationKeepsTheDevice(
    verify: Verifier, chain: seq<AuthorityState>, line: nat, known: seq<seq<EndpointKeys>>, i: nat, endpoint: nat)
    requires Chain(verify, chain, line, known) && 0 < i < |chain|
    requires Listed(chain[i - 1], endpoint).Some? && Listed(chain[i - 1], endpoint).value.status.Active?
    requires Listed(chain[i], endpoint).Some? && Listed(chain[i], endpoint).value.status.Revoked?
    ensures Listed(chain[i], endpoint).value ==
            Listed(chain[i - 1], endpoint).value.(status := Revoked, revoked := Some(i))
  {
    hide Chain, Listed;
    RosterStep(verify, chain, line, known, i, endpoint);
    RosterStep(verify, chain, line, known, i - 1, endpoint);
  }

  // ---- Batches ----

  function Preceding(accepted: Option<Accepted>, snapshots: seq<AuthorityState>, i: nat): Option<AuthorityState>
    requires i < |snapshots|
  {
    if i > 0 then Some(snapshots[i - 1]) else if accepted.Some? then Some(accepted.value.state) else None
  }

  lemma {:induction false} FoldsExactly(
    verify: Verifier, accepted: Option<Accepted>, snapshots: seq<AuthorityState>, line: nat, known: seq<EndpointKeys>)
    ensures Fold(verify, accepted, snapshots, line, known).Ok? <==>
            forall i | 0 <= i < |snapshots| ::
              Validate(verify, snapshots[i], Preceding(accepted, snapshots, i), line, known).Ok?
    decreases |snapshots|
  {
    hide Validate;
    if snapshots != [] {
      var rest := snapshots[1..];
      var first := Validate(verify, snapshots[0], StateOf(accepted), line, known);
      assert Preceding(accepted, snapshots, 0) == StateOf(accepted);
      if first.Ok? {
        ValidatedParent(verify, snapshots[0], StateOf(accepted), line, known);
        FoldsExactly(verify, Some(first.value), rest, line, known);
        assert forall i | 0 <= i < |rest| ::
            rest[i] == snapshots[i + 1] && Preceding(Some(first.value), rest, i) == Preceding(accepted, snapshots, i + 1);
        assert forall i | 0 < i < |snapshots| ::
            snapshots[i] == rest[i - 1] && Preceding(Some(first.value), rest, i - 1) == Preceding(accepted, snapshots, i);
      }
    }
  }

  /** A batch is caught up with exactly if it holds one to sixty-four snapshots, each acceptable after the one before. */
  lemma BatchesExactly(
    verify: Verifier, accepted: Option<Accepted>, snapshots: seq<AuthorityState>, line: nat, known: seq<EndpointKeys>)
    ensures CatchUp(verify, accepted, snapshots, line, known).Ok? <==>
              && 1 <= |snapshots| <= 64
              && forall i | 0 <= i < |snapshots| ::
                   Validate(verify, snapshots[i], Preceding(accepted, snapshots, i), line, known).Ok?
  {
    hide Validate, Fold, Follow, Preceding;
    ForkCheckIsRedundant(verify, accepted, snapshots, map[], line, known);
    FoldsExactly(verify, accepted, snapshots, line, known);
    if Fold(verify, accepted, snapshots, line, known).Ok? && snapshots != [] {
      FoldOfSomeIsSome(verify, accepted, snapshots, line, known);
    }
  }

  // ---- Payloads ----

  /** A payload is admitted exactly if it is the state the session vouches for, current or next, with the session's device active. */
  lemma PayloadsExactly(
    verify: Verifier, accepted: Option<Accepted>, session: Session, state: AuthorityState, line: nat,
    known: seq<EndpointKeys>)
    ensures AdmitPayload(verify, accepted, session, state, line, known).Ok? <==>
              && session.authenticated && session.digest == DigestOf(state.fields) && RecordStands(state)
              && (if accepted.Some? && accepted.value.digest == DigestOf(state.fields)
                  then accepted.value.state.fields.line == line
                       && Vouches(accepted.value.state, session)
                  else Validate(verify, state, StateOf(accepted), line, known).Ok? && Vouches(state, session))
  {
    hide CheckRecord, RecordStands, Validate;
    RecordsExactly(state);
    if Validate(verify, state, StateOf(accepted), line, known).Ok? {
      ValidatedParent(verify, state, StateOf(accepted), line, known);
      ValidatedAs(verify, state, StateOf(accepted), line, known);
    }
  }

  predicate Vouches(state: AuthorityState, session: Session) {
    exists d | d in state.fields.devices ::
      d.endpoint == session.endpoint && d.identity == session.identity && d.status.Active?
  }

  lemma ValidatedAs(
    verify: Verifier, state: AuthorityState, previous: Option<AuthorityState>, line: nat, known: seq<EndpointKeys>)
    requires Validate(verify, state, previous, line, known).Ok?
    ensures Validate(verify, state, previous, line, known).value.digest == DigestOf(state.fields)
  {
    hide CheckRecord, CheckDevices, CheckSignatures, SigningKeys, CheckKeyChange;
  }
}

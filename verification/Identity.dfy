/**
 The user authority chain of src/identity.rs: hash-linked states with a device roster,
 validated one by one against their predecessor and caught up with in batches.

 Records are well-typed here: hexadecimal identifiers and keys are values, endpoint
 references are numbers in the order of their octets, and the signature check is a parameter.
 */
module Identity {
  import opened Errors

  const MAX_CHAIN_RECORDS := 64
  const MAX_DEVICES := 16

  datatype SignaturePurpose =
    | AuthorityGenesis | AuthorityManagement | AuthorityRecovery
    | DevicePossession | ReplacementManagement | ReplacementRecovery
    | OtherPurpose

  datatype Signature = Signature(keyId: nat, purpose: SignaturePurpose, value: nat)

  /** Ed25519 first, ML-DSA-65 second, in keys and in signatures alike. */
  datatype SignaturePair = SignaturePair(ed25519: Signature, mlDsa65: Signature)

  datatype Key = Key(keyId: nat, publicKey: nat)

  datatype KeyPair = KeyPair(ed25519: Key, mlDsa65: Key)

  datatype Status = Active | Revoked

  datatype Device = Device(
    endpoint: nat, identity: nat, status: Status, admitted: nat, revoked: Option<nat>, possession: SignaturePair)

  datatype TransitionKind = Genesis | Management | Recovery

  datatype UserRef = DerivedRef(management: KeyPair, recovery: KeyPair) | OtherRef(id: nat)

  datatype ReplacementProof = ReplacementProof(management: Option<SignaturePair>, recovery: Option<SignaturePair>)

  /** What the state digest covers: everything but the authority's signatures. */
  datatype Fields = Fields(
    line: nat,
    user: UserRef,
    epoch: nat,
    previous: Option<StateDigest>,
    kind: TransitionKind,
    management: KeyPair,
    recovery: KeyPair,
    devices: seq<Device>,
    possession: Option<ReplacementProof>)

  datatype StateDigest = DigestOf(fields: Fields) | ForeignDigest(id: nat)

  datatype AuthorityState = AuthorityState(fields: Fields, signatures: SignaturePair)

  datatype Statement =
    | AuthorityStatement(digest: StateDigest)
    | DeviceStatement(line: nat, user: UserRef, epoch: nat, endpoint: nat, identity: nat)
    | ReplacementStatement(line: nat, user: UserRef, epoch: nat, management: KeyPair, recovery: KeyPair)

  /** Whether a public key verifies a signature value over a statement. */
  type Verifier = (nat, Statement, nat) -> bool

  datatype EndpointKeys = EndpointKeys(endpoint: nat, identity: nat, keys: KeyPair)

  datatype Accepted = Accepted(state: AuthorityState, user: UserRef, epoch: nat, digest: StateDigest)

  datatype Session = Session(authenticated: bool, digest: StateDigest, endpoint: nat, identity: nat)

  // ---- Records ----

  predicate KeysOk(keys: KeyPair) {
    keys.ed25519.keyId != keys.mlDsa65.keyId
  }

  predicate SignaturesOk(signatures: SignaturePair) {
    signatures.ed25519.keyId != signatures.mlDsa65.keyId
  }

  function CheckEntry(device: Device, epoch: nat): Result<()> {
    if device.admitted > epoch then Err(Invalid(InvalidTransition))
    else if device.status.Active? && device.revoked.Some? then Err(Invalid(InvalidTransition))
    else if device.status.Revoked?
            && (device.revoked.None? || device.revoked.value < device.admitted || device.revoked.value > epoch)
    then Err(Invalid(InvalidTransition))
    else if !SignaturesOk(device.possession) then Err(Invalid(AuthorizationFailed))
    else Ok(())
  }

  /** Entries stand in strictly ascending order of their endpoints. */
  function CheckRoster(devices: seq<Device>, epoch: nat, above: Option<nat>): Result<()> {
    if devices == [] then Ok(())
    else if above.Some? && above.value >= devices[0].endpoint then Err(Invalid(Conflict))
    else
      var _ :- CheckEntry(devices[0], epoch);
      CheckRoster(devices[1..], epoch, Some(devices[0].endpoint))
  }

  function CheckProof(proof: ReplacementProof): Result<()> {
    if proof.management.None? && proof.recovery.None? then Err(Invalid(InvalidRepresentation))
    else if proof.management.Some? && !SignaturesOk(proof.management.value) then Err(Invalid(AuthorizationFailed))
    else if proof.recovery.Some? && !SignaturesOk(proof.recovery.value) then Err(Invalid(AuthorizationFailed))
    else Ok(())
  }

  function CheckRecord(state: AuthorityState): Result<()> {
    var f := state.fields;
    if (f.epoch == 0) != f.kind.Genesis? || (f.epoch == 0) == f.previous.Some? then Err(Invalid(InvalidTransition))
    else if !KeysOk(f.management) || !KeysOk(f.recovery) then Err(Invalid(Conflict))
    else if f.devices == [] || |f.devices| > MAX_DEVICES then Err(Invalid(BoundExceeded))
    else
      var _ :- CheckRoster(f.devices, f.epoch, None);
      var _ :- if f.possession.Some? then CheckProof(f.possession.value) else Ok(());
      if !SignaturesOk(state.signatures) then Err(Invalid(AuthorizationFailed)) else Ok(())
  }

  // ---- Signatures ----

  function CheckSignature(
    verify: Verifier, signature: Signature, key: Key, purpose: SignaturePurpose, statement: Statement): Result<()>
  {
    if signature.purpose != purpose then Err(Invalid(UnknownField))
    else if signature.keyId != key.keyId then Err(Invalid(AuthorizationFailed))
    else if !verify(key.publicKey, statement, signature.value) then Err(Invalid(AuthenticationFailed))
    else Ok(())
  }

  function CheckSignatures(
    verify: Verifier, signatures: SignaturePair, keys: KeyPair, purpose: SignaturePurpose, statement: Statement): Result<()>
  {
    var _ :- CheckSignature(verify, signatures.ed25519, keys.ed25519, purpose, statement);
    CheckSignature(verify, signatures.mlDsa65, keys.mlDsa65, purpose, statement)
  }

  function Digest(state: AuthorityState): StateDigest {
    DigestOf(state.fields)
  }

  // ---- Roster transitions ----

  function Entry(devices: seq<Device>, endpoint: nat): Option<Device> {
    if devices == [] then None
    else if devices[0].endpoint == endpoint then Some(devices[0])
    else Entry(devices[1..], endpoint)
  }

  /** What may become of one listed device when the authority moves to `epoch`. */
  predicate MaySucceed(prior: Device, next: Option<Device>, epoch: nat) {
    match next
    case None => prior.status.Revoked?
    case Some(current) =>
      if prior.status.Revoked? then current == prior
      else if current.status.Revoked? then
        && current.identity == prior.identity && current.admitted == prior.admitted
        && current.possession == prior.possession && current.revoked == Some(epoch)
      else if current.identity == prior.identity then
        current.admitted == prior.admitted && current.possession == prior.possession
      else current.admitted == epoch
  }

  predicate MayJoin(current: Device, epoch: nat) {
    current.status.Active? && current.admitted == epoch
  }

  predicate SuccessionOk(previous: seq<Device>, next: seq<Device>, epoch: nat) {
    forall d | d in previous :: MaySucceed(d, Entry(next, d.endpoint), epoch)
  }

  predicate AdmissionOk(previous: seq<Device>, next: seq<Device>, epoch: nat) {
    forall d | d in next :: Entry(previous, d.endpoint).None? ==> MayJoin(d, epoch)
  }

  function CheckRosterTransition(previous: seq<Device>, next: seq<Device>, epoch: nat): Result<()> {
    if SuccessionOk(previous, next, epoch) && AdmissionOk(previous, next, epoch) then Ok(())
    else Err(Invalid(AuthorizationFailed))
  }

  // ---- Devices ----

  predicate Unchanged(prior: seq<Device>, device: Device) {
    exists d | d in prior :: d.endpoint == device.endpoint && d.identity == device.identity
  }

  function FindEndpoint(endpoints: seq<EndpointKeys>, device: Device): Option<EndpointKeys> {
    if endpoints == [] then None
    else if endpoints[0].endpoint == device.endpoint && endpoints[0].identity == device.identity then Some(endpoints[0])
    else FindEndpoint(endpoints[1..], device)
  }

  /** A device that enters or changes identity proves possession of its endpoint's keys. */
  function CheckDevice(
    verify: Verifier, f: Fields, prior: Option<seq<Device>>, endpoints: seq<EndpointKeys>, device: Device): Result<()>
  {
    if prior.Some? && Unchanged(prior.value, device) then Ok(())
    else if prior.None? && !(device.status.Active? && device.admitted == f.epoch) then Err(Invalid(AuthorizationFailed))
    else
      var found := FindEndpoint(endpoints, device);
      if found.None? then Err(Invalid(AuthorizationFailed))
      else
        var _ :- CheckSignatures(
          verify, device.possession, found.value.keys, DevicePossession,
          DeviceStatement(f.line, f.user, f.epoch, device.endpoint, device.identity));
        if device.status.Active? && device.admitted <= f.epoch && device.revoked.None? then Ok(())
        else if device.status.Revoked? && device.revoked.Some? && device.admitted <= device.revoked.value <= f.epoch
        then Ok(())
        else Err(Invalid(InvalidTransition))
  }

  function CheckDevices(
    verify: Verifier, f: Fields, prior: Option<seq<Device>>, endpoints: seq<EndpointKeys>, devices: seq<Device>,
    above: Option<nat>): Result<()>
  {
    if devices == [] then Ok(())
    else if above.Some? && above.value >= devices[0].endpoint then Err(Invalid(InvalidRepresentation))
    else
      var _ :- CheckDevice(verify, f, prior, endpoints, devices[0]);
      CheckDevices(verify, f, prior, endpoints, devices[1..], Some(devices[0].endpoint))
  }

  method RunCheckDevices(
    verify: Verifier, f: Fields, prior: Option<seq<Device>>, endpoints: seq<EndpointKeys>)
    returns (r: Result<()>)
    ensures r == CheckDevices(verify, f, prior, endpoints, f.devices, None)
  {
    var previousRef: Option<nat> := None;
    for i := 0 to |f.devices|
      invariant CheckDevices(verify, f, prior, endpoints, f.devices, None)
                == CheckDevices(verify, f, prior, endpoints, f.devices[i..], previousRef)
    {
      var device := f.devices[i];
      assert f.devices[i..][0] == device && f.devices[i..][1..] == f.devices[i + 1..];
      if previousRef.Some? && previousRef.value >= device.endpoint {
        return Err(Invalid(InvalidRepresentation));
      }
      previousRef := Some(device.endpoint);
      var checked := CheckDevice(verify, f, prior, endpoints, device);
      if checked.Err? {
        return checked;
      }
    }
    return Ok(());
  }

  // ---- Replacement of the authority's own keys ----

  function CheckReplacementPart(
    verify: Verifier, changed: bool, signatures: Option<SignaturePair>, keys: KeyPair, purpose: SignaturePurpose,
    statement: Statement): Result<()>
  {
    if !changed then if signatures.Some? then Err(Invalid(InvalidTransition)) else Ok(())
    else if signatures.None? then Err(Invalid(AuthorizationFailed))
    else CheckSignatures(verify, signatures.value, keys, purpose, statement)
  }

  function CheckReplacement(verify: Verifier, f: Fields, managementChanged: bool, recoveryChanged: bool): Result<()> {
    if !managementChanged && !recoveryChanged then Err(Invalid(InvalidTransition))
    else if f.possession.None? then Err(Invalid(AuthorizationFailed))
    else
      var statement := ReplacementStatement(f.line, f.user, f.epoch, f.management, f.recovery);
      var _ :- CheckReplacementPart(
        verify, managementChanged, f.possession.value.management, f.management, ReplacementManagement, statement);
      CheckReplacementPart(
        verify, recoveryChanged, f.possession.value.recovery, f.recovery, ReplacementRecovery, statement)
  }

  function CheckKeyChange(verify: Verifier, f: Fields, p: Fields): Result<()> {
    var managementChanged, recoveryChanged := f.management != p.management, f.recovery != p.recovery;
    if f.kind.Management? && managementChanged then CheckReplacement(verify, f, managementChanged, recoveryChanged)
    else if f.kind.Management? && f.possession.Some? then Err(Invalid(InvalidTransition))
    else if f.kind.Recovery? then CheckReplacement(verify, f, managementChanged, recoveryChanged)
    else Ok(())
  }

  // ---- One state against its predecessor ----

  function PurposeOf(kind: TransitionKind): SignaturePurpose {
    match kind
    case Genesis => AuthorityGenesis
    case Management => AuthorityManagement
    case Recovery => AuthorityRecovery
  }

  /** The keys that must have signed the state. */
  function SigningKeys(state: AuthorityState, predecessor: Option<AuthorityState>): Result<KeyPair> {
    var f := state.fields;
    match predecessor
    case None =>
      if f.kind.Genesis? && f.epoch == 0 && f.previous.None? && f.possession.None?
         && f.user == DerivedRef(f.management, f.recovery)
      then Ok(f.management)
      else Err(Invalid(InvalidTransition))
    case Some(previous) =>
      var p := previous.fields;
      if f.kind.Genesis? then Err(Invalid(InvalidTransition))
      else if f.epoch != p.epoch + 1 || f.previous != Some(Digest(previous)) || f.user != p.user || f.line != p.line
      then Err(Invalid(Conflict))
      else if f.kind.Management? && f.recovery != p.recovery then Err(Invalid(AuthorizationFailed))
      else
        var _ :- CheckRosterTransition(p.devices, f.devices, f.epoch);
        Ok(if f.kind.Management? then p.management else p.recovery)
  }

  function Validate(
    verify: Verifier, state: AuthorityState, predecessor: Option<AuthorityState>, line: nat, endpoints: seq<EndpointKeys>)
    : Result<Accepted>
  {
    var f := state.fields;
    var _ :- CheckRecord(state);
    if f.line != line then Err(Invalid(AuthorizationFailed))
    else
      var _ :- if predecessor.Some? then CheckRecord(predecessor.value) else Ok(());
      var keys :- SigningKeys(state, predecessor);
      var _ :- CheckSignatures(verify, state.signatures, keys, PurposeOf(f.kind), AuthorityStatement(Digest(state)));
      var prior := if predecessor.Some? then Some(predecessor.value.fields.devices) else None;
      var _ :- CheckDevices(verify, f, prior, endpoints, f.devices, None);
      var _ :- if predecessor.Some? then CheckKeyChange(verify, f, predecessor.value.fields) else Ok(());
      Ok(Accepted(state, f.user, f.epoch, Digest(state)))
  }

  // ---- Catching up ----

  type Siblings = map<Option<StateDigest>, StateDigest>

  function StateOf(accepted: Option<Accepted>): Option<AuthorityState> {
    if accepted.Some? then Some(accepted.value.state) else None
  }

  /** The rest of a batch: each snapshot is checked against forks seen in the batch, then against the last accepted. */
  function Follow(
    verify: Verifier, current: Option<Accepted>, snapshots: seq<AuthorityState>, siblings: Siblings, line: nat,
    endpoints: seq<EndpointKeys>): Result<Option<Accepted>>
    decreases |snapshots|
  {
    if snapshots == [] then Ok(current)
    else
      var _ :- CheckRecord(snapshots[0]);
      var parent, digest := snapshots[0].fields.previous, Digest(snapshots[0]);
      if parent in siblings && siblings[parent] != digest then Err(Invalid(Conflict))
      else
        var next :- Validate(verify, snapshots[0], StateOf(current), line, endpoints);
        Follow(verify, Some(next), snapshots[1..], siblings[parent := digest], line, endpoints)
  }

  function CatchUp(
    verify: Verifier, accepted: Option<Accepted>, snapshots: seq<AuthorityState>, line: nat, endpoints: seq<EndpointKeys>)
    : Result<Accepted>
  {
    if snapshots == [] || |snapshots| > MAX_CHAIN_RECORDS then Err(Invalid(BoundExceeded))
    else
      var last :- Follow(verify, accepted, snapshots, map[], line, endpoints);
      if last.None? then Err(Invalid(BoundExceeded)) else Ok(last.value)
  }

  method RunCatchUp(
    verify: Verifier, accepted: Option<Accepted>, snapshots: seq<AuthorityState>, line: nat, endpoints: seq<EndpointKeys>)
    returns (r: Result<Accepted>)
    ensures r == CatchUp(verify, accepted, snapshots, line, endpoints)
  {
    hide Validate, CheckRecord;
    if snapshots == [] || |snapshots| > MAX_CHAIN_RECORDS {
      return Err(Invalid(BoundExceeded));
    }
    var current := accepted;
    var siblings: Siblings := map[];
    for i := 0 to |snapshots|
      invariant Follow(verify, accepted, snapshots, map[], line, endpoints)
                == Follow(verify, current, snapshots[i..], siblings, line, endpoints)
    {
      var snapshot := snapshots[i];
      assert snapshots[i..][0] == snapshot && snapshots[i..][1..] == snapshots[i + 1..];
      var record := CheckRecord(snapshot);
      if record.Err? {
        return Err(record.error);
      }
      var parent, digest := snapshot.fields.previous, Digest(snapshot);
      if parent in siblings && siblings[parent] != digest {
        return Err(Invalid(Conflict));
      }
      siblings := siblings[parent := digest];
      var next :- Validate(verify, snapshot, StateOf(current), line, endpoints);
      current := Some(next);
    }
    if current.None? {
      return Err(Invalid(BoundExceeded));
    }
    return Ok(current.value);
  }

  // ---- A payload that arrived over a protected session ----

  predicate HasActive(devices: seq<Device>, endpoint: nat, identity: nat) {
    exists d | d in devices :: d.endpoint == endpoint && d.identity == identity && d.status.Active?
  }

  function AdmitPayload(
    verify: Verifier, accepted: Option<Accepted>, session: Session, state: AuthorityState, line: nat,
    endpoints: seq<EndpointKeys>): Result<Accepted>
  {
    if !session.authenticated then Err(Invalid(AuthenticationFailed))
    else
      var _ :- CheckRecord(state);
      var result :- if accepted.Some? && accepted.value.digest == Digest(state) then Ok(accepted.value)
        else Validate(verify, state, StateOf(accepted), line, endpoints);
      if Digest(state) != session.digest || result.digest != session.digest then Err(Invalid(AuthenticationFailed))
      else if result.state.fields.line != line then Err(Invalid(AuthorizationFailed))
      else if !HasActive(result.state.fields.devices, session.endpoint, session.identity)
      then Err(Invalid(AuthorizationFailed))
      else Ok(result)
  }
}

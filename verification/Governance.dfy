/**
 The governance reducer (src/governance.rs): role thresholds over independent roots, and
 the adoption of a candidate bundle over the current one.
 */
module Governance {
  import opened Errors
  import opened Integers
  import opened Sets

  const ROLE_COUNT := 7
  const MAX_SIGNATURES_PER_ROLE := 64
  const MAX_OBSERVATIONS := 16

  datatype Role = Membership | Compatibility | Revocation | Distribution | Consistency | Recovery | Abuse

  datatype Authorization = Authorization(root: nat, key: nat, role: Role)

  datatype Observation = Observation(observer: nat, version: nat, digest: nat, statement: nat)

  datatype RecoveryEvent = NoRecovery | RootRotation | CompromiseRecovery

  datatype GovernanceState = GovernanceState(network: nat, epoch: nat, digest: Option<nat>, versions: map<Role, nat>)

  datatype Candidate = Candidate(
    network: nat,
    epoch: nat,
    digest: nat,
    versions: map<Role, nat>,
    expiresAt: nat,
    authorizations: seq<Authorization>,
    activeRootsOnly: bool,
    canonicalDigestValid: bool,
    distributionConsistent: bool,
    signatureScopeValid: bool,
    recovery: RecoveryEvent,
    recoveryPredecessor: Option<nat>,
    observations: seq<Observation>,
    splitView: bool,
    endpointAdmissionLocal: bool,
    abuseAdvisoryOnly: bool)

  datatype Adoption = Commit(state: GovernanceState) | Replay

  // ---- The role threshold ----

  function CountRole(authorizations: seq<Authorization>, role: Role): nat {
    if authorizations == [] then 0
    else CountRole(authorizations[1..], role) + if authorizations[0].role == role then 1 else 0
  }

  predicate WithinSignatureBounds(role: Role, authorizations: seq<Authorization>) {
    |authorizations| <= ROLE_COUNT * MAX_SIGNATURES_PER_ROLE && CountRole(authorizations, role) <= MAX_SIGNATURES_PER_ROLE
  }

  function Matching(role: Role, authorizations: seq<Authorization>): set<Authorization> {
    set a | a in authorizations && a.role == role
  }

  function Roots(matching: set<Authorization>): set<nat> {
    set a | a in matching :: a.root
  }

  function OfRoot(matching: set<Authorization>, root: nat): set<Authorization> {
    set a | a in matching && a.root == root
  }

  /** Roots with at least two distinct entries. */
  function StrongRoots(matching: set<Authorization>): set<nat> {
    set root | root in Roots(matching) && |OfRoot(matching, root)| >= 2
  }

  function CheckRoleThreshold(role: Role, authorizations: seq<Authorization>): Result<()> {
    if !WithinSignatureBounds(role, authorizations) then Err(Invalid(BoundExceeded))
    else
      var matching := Matching(role, authorizations);
      if |matching| < 4 || |Roots(matching)| < 2 || |StrongRoots(matching)| < 2 then Err(Invalid(InvalidTransition))
      else Ok(())
  }

  // ---- The reducer ----

  predicate VersionsOk(versions: map<Role, nat>) {
    forall role | role in versions :: 0 < versions[role] <= MAX_SAFE_INTEGER
  }

  predicate WithinBounds(current: GovernanceState, c: Candidate, now: nat) {
    && current.epoch <= MAX_SAFE_INTEGER && c.epoch <= MAX_SAFE_INTEGER
    && c.expiresAt <= MAX_SAFE_INTEGER && now <= MAX_SAFE_INTEGER
    && |current.versions| <= ROLE_COUNT
    && (current.epoch == 0) == (current.versions == map[])
    && (current.epoch > 0 ==> |current.versions| == ROLE_COUNT)
    && VersionsOk(current.versions)
    && |c.versions| == ROLE_COUNT && VersionsOk(c.versions)
    && |c.authorizations| <= ROLE_COUNT * MAX_SIGNATURES_PER_ROLE
    && |c.observations| <= MAX_OBSERVATIONS
    && |Members(c.authorizations)| == |c.authorizations|
    && forall o | o in c.observations :: o.version <= MAX_SAFE_INTEGER
  }

  predicate Admissible(current: GovernanceState, c: Candidate, now: nat) {
    && c.epoch != 0
    && (current.epoch == 0) == current.digest.None?
    && c.recovery.NoRecovery? == c.recoveryPredecessor.None?
    && (!c.recovery.NoRecovery? ==> c.recoveryPredecessor == current.digest)
    && c.network == current.network
    && c.activeRootsOnly && c.canonicalDigestValid && c.distributionConsistent && c.signatureScopeValid
    && c.endpointAdmissionLocal && c.abuseAdvisoryOnly && !c.splitView
    && now < c.expiresAt
  }

  function AllRoles(): seq<Role> {
    [Membership, Compatibility, Revocation, Distribution, Consistency, Recovery, Abuse]
  }

  function VersionOf(versions: map<Role, nat>, role: Role): nat {
    if role in versions then versions[role] else 0
  }

  function CheckRoles(current: GovernanceState, c: Candidate, roles: seq<Role>): Result<()> {
    if roles == [] then Ok(())
    else
      var _ :- CheckRoleThreshold(roles[0], c.authorizations);
      if roles[0] !in c.versions || c.versions[roles[0]] < VersionOf(current.versions, roles[0])
      then Err(Invalid(InvalidTransition))
      else CheckRoles(current, c, roles[1..])
  }

  function Observers(observations: seq<Observation>): (r: seq<nat>)
    ensures |r| == |observations|
  {
    seq(|observations|, i requires 0 <= i < |observations| => observations[i].observer)
  }

  function Statements(observations: seq<Observation>): (r: seq<nat>)
    ensures |r| == |observations|
  {
    seq(|observations|, i requires 0 <= i < |observations| => observations[i].statement)
  }

  /** At least two observers, each with one statement of its own, all of this very bundle. */
  predicate Observed(c: Candidate) {
    && |c.observations| >= 2
    && |Members(Observers(c.observations))| == |c.observations|
    && |Members(Statements(c.observations))| == |c.observations|
    && forall o | o in c.observations :: o.version == c.epoch && o.digest == c.digest
  }

  function Evaluate(current: GovernanceState, c: Candidate, now: nat): Result<Adoption> {
    if !WithinBounds(current, c, now) then Err(Invalid(BoundExceeded))
    else if !Admissible(current, c, now) then Err(Invalid(InvalidTransition))
    else
      var _ :- CheckRoles(current, c, AllRoles());
      if !Observed(c) || c.epoch < current.epoch then Err(Invalid(InvalidTransition))
      else if c.epoch == current.epoch then
        if current.digest == Some(c.digest) && current.versions == c.versions then Ok(Adoption.Replay) else Err(Invalid(Conflict))
      else if c.epoch != current.epoch + 1 then Err(Invalid(InvalidTransition))
      else Ok(Adoption.Commit(GovernanceState(c.network, c.epoch, Some(c.digest), c.versions)))
  }

  // ---- The threshold is independence ----

  predicate Independent(
    role: Role, authorizations: seq<Authorization>, a: Authorization, b: Authorization, c: Authorization, d: Authorization)
  {
    && a in authorizations && b in authorizations && c in authorizations && d in authorizations
    && a.role == b.role == c.role == d.role == role
    && a.root == b.root && c.root == d.root && a.root != c.root
    && a.key != b.key && c.key != d.key
  }

  /** Two different roots authorized the role, each with two different keys. */
  ghost predicate TwoIndependentRoots(role: Role, authorizations: seq<Authorization>) {
    exists a, b, c, d :: Independent(role, authorizations, a, b, c, d)
  }

  lemma TwoMembers<T>(s: set<T>) returns (x: T, y: T)
    requires |s| >= 2
    ensures x in s && y in s && x != y
  {
    x :| x in s;
    var rest := s - {x};
    assert |rest| == |s| - 1;
    y :| y in rest;
  }

  lemma PairOfRoot(matching: set<Authorization>, role: Role, a: Authorization, b: Authorization)
    requires a in matching && b in matching && a.root == b.root && a != b
    ensures a.root in StrongRoots(matching)
  {
    assert {a, b} <= OfRoot(matching, a.root);
    SubsetSize({a, b}, OfRoot(matching, a.root));
  }

  lemma IndependentPass(
    role: Role, authorizations: seq<Authorization>, a: Authorization, b: Authorization, c: Authorization, d: Authorization)
    requires Independent(role, authorizations, a, b, c, d)
    ensures var matching := Matching(role, authorizations);
            |matching| >= 4 && |Roots(matching)| >= 2 && |StrongRoots(matching)| >= 2
  {
    var matching := Matching(role, authorizations);
    PairOfRoot(matching, role, a, b);
    PairOfRoot(matching, role, c, d);
    hide OfRoot, StrongRoots;
    SubsetSize({a, b, c, d}, matching);
    assert {a.root, c.root} <= Roots(matching);
    SubsetSize({a.root, c.root}, Roots(matching));
    SubsetSize({a.root, c.root}, StrongRoots(matching));
  }

  /** Within its bounds the threshold is met exactly when two independent roots stand behind the role. */
  lemma ThresholdIsIndependence(role: Role, authorizations: seq<Authorization>)
    requires WithinSignatureBounds(role, authorizations)
    ensures CheckRoleThreshold(role, authorizations).Ok? <==> TwoIndependentRoots(role, authorizations)
  {
    hide WithinSignatureBounds, StrongRoots, OfRoot, Roots, Matching, Independent;
    if CheckRoleThreshold(role, authorizations).Ok? {
      var a, b, c, d := PassersAreIndependent(role, authorizations);
    }
    if TwoIndependentRoots(role, authorizations) {
      var a, b, c, d :| Independent(role, authorizations, a, b, c, d);
      IndependentPass(role, authorizations, a, b, c, d);
    }
  }

  lemma PassersAreIndependent(role: Role, authorizations: seq<Authorization>)
    returns (a: Authorization, b: Authorization, c: Authorization, d: Authorization)
    requires |StrongRoots(Matching(role, authorizations))| >= 2
    ensures Independent(role, authorizations, a, b, c, d)
  {
    var matching := Matching(role, authorizations);
    var r, s := TwoMembers(StrongRoots(matching));
    a, b := TwoMembers(OfRoot(matching, r));
    c, d := TwoMembers(OfRoot(matching, s));
  }

  // ---- Runs ----

  /** A governance state as the reducer leaves it. */
  predicate StateOk(s: GovernanceState) {
    && s.epoch <= MAX_SAFE_INTEGER
    && (s.epoch == 0) == (s.versions == map[]) && (s.epoch == 0) == s.digest.None?
    && (s.epoch > 0 ==> |s.versions| == ROLE_COUNT) && VersionsOk(s.versions)
  }

  predicate NotLower(x: map<Role, nat>, y: map<Role, nat>) {
    forall role: Role :: VersionOf(x, role) <= VersionOf(y, role)
  }

  lemma {:induction false} CheckedRoles(current: GovernanceState, c: Candidate, roles: seq<Role>, role: Role)
    requires CheckRoles(current, c, roles).Ok? && role in roles
    ensures VersionOf(current.versions, role) <= VersionOf(c.versions, role)
    ensures CheckRoleThreshold(role, c.authorizations).Ok?
  {
    if role != roles[0] {
      assert roles == [roles[0]] + roles[1..];
      CheckedRoles(current, c, roles[1..], role);
    }
  }

  /** A commit leaves a sound state one epoch on, of the same network, with every role's version kept or raised. */
  lemma CommitsMoveOn(current: GovernanceState, c: Candidate, now: nat)
    requires Evaluate(current, c, now).Ok? && Evaluate(current, c, now).value.Commit?
    ensures var next := Evaluate(current, c, now).value.state;
            && StateOk(next) && next.epoch == current.epoch + 1 && next.network == current.network
            && NotLower(current.versions, next.versions)
    ensures forall role: Role :: TwoIndependentRoots(role, c.authorizations)
  {
    hide CheckRoleThreshold, TwoIndependentRoots;
    forall role: Role
      ensures VersionOf(current.versions, role) <= VersionOf(c.versions, role)
      ensures TwoIndependentRoots(role, c.authorizations)
    {
      RolesAreAll(role);
      CheckedRoles(current, c, AllRoles(), role);
      PassedThreshold(role, c.authorizations);
    }
  }

  lemma PassedThreshold(role: Role, authorizations: seq<Authorization>)
    requires CheckRoleThreshold(role, authorizations).Ok?
    ensures TwoIndependentRoots(role, authorizations)
  {
    ThresholdIsIndependence(role, authorizations);
  }

  lemma RolesAreAll(role: Role)
    ensures role in AllRoles()
  {
    match role
    case Membership => assert AllRoles()[0] == role;
    case Compatibility => assert AllRoles()[1] == role;
    case Revocation => assert AllRoles()[2] == role;
    case Distribution => assert AllRoles()[3] == role;
    case Consistency => assert AllRoles()[4] == role;
    case Recovery => assert AllRoles()[5] == role;
    case Abuse => assert AllRoles()[6] == role;
  }

  datatype Offer = Offer(candidate: Candidate, now: nat)

  function Step(s: GovernanceState, offer: Offer): GovernanceState {
    match Evaluate(s, offer.candidate, offer.now)
    case Ok(Commit(next)) => next
    case _ => s
  }

  function Run(s: GovernanceState, offers: seq<Offer>): GovernanceState
    decreases |offers|
  {
    if offers == [] then s else Run(Step(s, offers[0]), offers[1..])
  }

  function Commits(s: GovernanceState, offers: seq<Offer>): nat
    decreases |offers|
  {
    if offers == [] then 0
    else
      var r := Evaluate(s, offers[0].candidate, offers[0].now);
      Commits(Step(s, offers[0]), offers[1..]) + if r.Ok? && r.value.Commit? then 1 else 0
  }

  /** Over every run the epoch counts the commits, no role's version falls, and the network stays. */
  lemma {:induction false} RunsOnlyMoveOn(s: GovernanceState, offers: seq<Offer>)
    requires StateOk(s)
    ensures var last := Run(s, offers);
            && StateOk(last) && last.network == s.network && last.epoch == s.epoch + Commits(s, offers)
            && NotLower(s.versions, last.versions)
    decreases |offers|
  {
    hide Evaluate, VersionOf;
    if offers != [] {
      var r := Evaluate(s, offers[0].candidate, offers[0].now);
      if r.Ok? && r.value.Commit? {
        CommitsMoveOn(s, offers[0].candidate, offers[0].now);
      }
      RunsOnlyMoveOn(Step(s, offers[0]), offers[1..]);
    }
  }

  // ---- Replay ----

  lemma {:induction false} RolesPassAgain(current: GovernanceState, next: GovernanceState, c: Candidate, roles: seq<Role>)
    requires CheckRoles(current, c, roles).Ok? && next.versions == c.versions
    ensures CheckRoles(next, c, roles).Ok?
  {
    if roles != [] {
      RolesPassAgain(current, next, c, roles[1..]);
    }
  }

  /**
   A committed candidate that is offered again replays exactly while it has not expired, and
   unless it carries a recovery event whose predecessor is not the candidate's own digest:
   a recovery names the digest that its commit has just replaced.
   */
  lemma CommittedCandidatesReplayExactly(current: GovernanceState, c: Candidate, now: nat, later: nat)
    requires Evaluate(current, c, now).Ok? && Evaluate(current, c, now).value.Commit?
    ensures Evaluate(Evaluate(current, c, now).value.state, c, later) == Ok(Adoption.Replay) <==>
            && later < c.expiresAt
            && (c.recovery.NoRecovery? || c.recoveryPredecessor == Some(c.digest))
    ensures Evaluate(Evaluate(current, c, now).value.state, c, later) != Ok(Adoption.Replay) ==>
              Evaluate(Evaluate(current, c, now).value.state, c, later).Err?
  {
    hide CheckRoles, Observed;
    RolesPassAgain(current, Evaluate(current, c, now).value.state, c, AllRoles());
  }

  // ---- A recovery that does not replay ----

  /** Roots 1 and 2 authorize the role, each with two keys. */
  function FourKeys(role: Role): seq<Authorization> {
    [Authorization(1, 1, role), Authorization(1, 2, role), Authorization(2, 3, role), Authorization(2, 4, role)]
  }

  function KeysFor(roles: seq<Role>): seq<Authorization> {
    if roles == [] then [] else FourKeys(roles[0]) + KeysFor(roles[1..])
  }

  /** A root rotation to `digest` that keeps every version, authorized for every role and observed twice. */
  function Rotation(current: GovernanceState, digest: nat): Candidate {
    var epoch := current.epoch + 1;
    Candidate(
      current.network, epoch, digest, current.versions, 1, KeysFor(AllRoles()), true, true, true, true,
      RootRotation, current.digest, [Observation(1, epoch, digest, 1), Observation(2, epoch, digest, 2)],
      false, true, true)
  }

  lemma {:induction false} KeysForAre(roles: seq<Role>)
    requires forall i, j | 0 <= i < j < |roles| :: roles[i] != roles[j]
    ensures |KeysFor(roles)| == 4 * |roles| && |Members(KeysFor(roles))| == 4 * |roles|
    ensures forall a | a in KeysFor(roles) :: a.role in roles
    ensures forall role, a | role in roles && a in FourKeys(role) :: a in KeysFor(roles)
  {
    hide FourKeys;
    if roles == [] {
      assert Members(KeysFor(roles)) == {};
    } else {
      KeysForAre(roles[1..]);
      var first, rest := Members(FourKeys(roles[0])), Members(KeysFor(roles[1..]));
      assert roles == [roles[0]] + roles[1..];
      FourKeysAre(roles[0]);
      assert Members(KeysFor(roles)) == first + rest && first !! rest;
    }
  }

  lemma FourKeysAre(role: Role)
    ensures |FourKeys(role)| == 4 && |Members(FourKeys(role))| == 4 && forall a | a in FourKeys(role) :: a.role == role
  {
    var x, y, z, u :=
      Authorization(1, 1, role), Authorization(1, 2, role), Authorization(2, 3, role), Authorization(2, 4, role);
    assert Members(FourKeys(role)) == {x, y, z, u};
  }

  lemma {:induction false} CountWithinLength(authorizations: seq<Authorization>, role: Role)
    ensures CountRole(authorizations, role) <= |authorizations|
  {
    if authorizations != [] {
      CountWithinLength(authorizations[1..], role);
    }
  }

  lemma FourKeysPass(role: Role)
    ensures CheckRoleThreshold(role, KeysFor(AllRoles())) == Ok(())
  {
    hide KeysFor, CountRole, Matching, Roots, StrongRoots, FourKeys;
    var all := KeysFor(AllRoles());
    KeysForAre(AllRoles());
    CountWithinLength(all, role);
    RolesAreAll(role);
    FourKeysAreIndependent(role, all);
    ThresholdIsIndependence(role, all);
  }

  lemma FourKeysAreIndependent(role: Role, authorizations: seq<Authorization>)
    requires forall a | a in FourKeys(role) :: a in authorizations
    ensures TwoIndependentRoots(role, authorizations)
  {
    var keys := FourKeys(role);
    assert Independent(role, authorizations, keys[0], keys[1], keys[2], keys[3]);
  }

  lemma {:induction false} RotationPassesRoles(current: GovernanceState, digest: nat, roles: seq<Role>)
    requires forall role: Role :: role in current.versions
    ensures CheckRoles(current, Rotation(current, digest), roles) == Ok(())
  {
    hide CheckRoleThreshold, KeysFor, AllRoles;
    if roles != [] {
      FourKeysPass(roles[0]);
      RotationPassesRoles(current, digest, roles[1..]);
    }
  }

  /** Seven versions are versions of all seven roles. */
  lemma SevenVersionsAreAll(versions: map<Role, nat>, role: Role)
    requires |versions| == ROLE_COUNT
    ensures role in versions
  {
    if role !in versions {
      var all := {Membership, Compatibility, Revocation, Distribution, Consistency, Recovery, Abuse};
      forall other | other in versions.Keys
        ensures other in all
      {
        assert other.Membership? || other.Compatibility? || other.Revocation? || other.Distribution?
            || other.Consistency? || other.Recovery? || other.Abuse?;
      }
      SubsetSize(versions.Keys, all - {role});
    }
  }

  /**
   Every sound state past genesis has a recovery that commits and, offered again at the same
   time, is refused: it replays only if it keeps the very digest that it replaces.
   */
  lemma RecoveriesDoNotReplay(current: GovernanceState, digest: nat)
    requires StateOk(current) && 0 < current.epoch < MAX_SAFE_INTEGER
    ensures var c := Rotation(current, digest);
            && Evaluate(current, c, 0) ==
               Ok(Adoption.Commit(GovernanceState(current.network, current.epoch + 1, Some(digest), current.versions)))
            && Evaluate(Evaluate(current, c, 0).value.state, c, 0) ==
               if current.digest == Some(digest) then Ok(Adoption.Replay) else Err(Invalid(InvalidTransition))
  {
    hide CheckRoles, KeysFor;
    var c := Rotation(current, digest);
    forall role: Role
      ensures role in current.versions
    {
      SevenVersionsAreAll(current.versions, role);
    }
    RotationPassesRoles(current, digest, AllRoles());
    KeysForAre(AllRoles());
    RotationIsObserved(current, digest);
    hide Observed;
    var next := GovernanceState(current.network, current.epoch + 1, Some(digest), current.versions);
    assert WithinBounds(current, c, 0) && WithinBounds(next, c, 0);
    RolesPassAgain(current, next, c, AllRoles());
  }

  lemma RotationIsObserved(current: GovernanceState, digest: nat)
    ensures Observed(Rotation(current, digest))
  {
    hide KeysFor, AllRoles;
    var c := Rotation(current, digest);
    assert Members(Observers(c.observations)) == {1, 2} by {
      assert Observers(c.observations) == [1, 2];
    }
    assert Members(Statements(c.observations)) == {1, 2} by {
      assert Statements(c.observations) == [1, 2];
    }
  }
}

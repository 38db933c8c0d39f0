/** Exactly which candidate bundles are committed, replayed, or in conflict with the current one. */
module GovernanceDecisions {
  import opened Errors
  import opened Sets
  import opened Governance

  /** A version for each of the seven roles, and none is zero. */
  predicate VersionsStand(versions: map<Role, nat>) {
    forall role: Role :: role in versions && 1 <= versions[role] <= 9_007_199_254_740_991
  }

  /** The current bundle: at epoch zero there is none, later it has a digest and all versions. */
  predicate CurrentStands(s: GovernanceState) {
    && s.epoch <= 9_007_199_254_740_991
    && (if s.epoch == 0 then s.digest.None? && s.versions == map[] else s.digest.Some? && VersionsStand(s.versions))
  }

  /** Two to sixteen observations by different observers, with different statements, all of this very bundle. */
  predicate ObservationsStand(c: Candidate) {
    && 2 <= |c.observations| <= 16
    && (forall o | o in c.observations :: o.version == c.epoch && o.digest == c.digest)
    && (forall i, j | 0 <= i < j < |c.observations| :: c.observations[i].observer != c.observations[j].observer)
    && (forall i, j | 0 <= i < j < |c.observations| :: c.observations[i].statement != c.observations[j].statement)
  }

  /** At most 64 authorizations of the role, among them two keys of each of two roots. */
  ghost predicate RoleStands(authorizations: seq<Authorization>, role: Role) {
    && |set a | a in authorizations && a.role == role| <= 64
    && TwoIndependentRoots(role, authorizations)
  }

  /** What a candidate needs besides its epoch: the network, the checked facts, time, and every role behind it. */
  ghost predicate Adoptable(current: GovernanceState, c: Candidate, now: nat) {
    && CurrentStands(current) && 1 <= c.epoch <= 9_007_199_254_740_991
    && now < c.expiresAt <= 9_007_199_254_740_991
    && c.network == current.network
    && c.activeRootsOnly && c.canonicalDigestValid && c.distributionConsistent && c.signatureScopeValid
    && c.endpointAdmissionLocal && c.abuseAdvisoryOnly && !c.splitView
    && (if c.recovery.NoRecovery? then c.recoveryPredecessor.None?
        else c.recoveryPredecessor.Some? && c.recoveryPredecessor == current.digest)
    && VersionsStand(c.versions)
    && (forall role | role in current.versions :: current.versions[role] <= c.versions[role])
    && |c.authorizations| <= 448
    && (forall i, j | 0 <= i < j < |c.authorizations| :: c.authorizations[i] != c.authorizations[j])
    && (forall role: Role :: RoleStands(c.authorizations, role))
    && ObservationsStand(c)
  }

  // ---- Distinct entries ----

  lemma ObservedExactly(c: Candidate)
    ensures |c.observations| <= 16 && Observed(c) <==> ObservationsStand(c)
  {
    DistinctEntries(Observers(c.observations));
    DistinctEntries(Statements(c.observations));
    EntriesDiffer(c.observations);
  }

  lemma EntriesDiffer(s: seq<Observation>)
    ensures (forall i, j | 0 <= i < j < |Observers(s)| :: Observers(s)[i] != Observers(s)[j]) <==>
            forall i, j | 0 <= i < j < |s| :: s[i].observer != s[j].observer
    ensures (forall i, j | 0 <= i < j < |Statements(s)| :: Statements(s)[i] != Statements(s)[j]) <==>
            forall i, j | 0 <= i < j < |s| :: s[i].statement != s[j].statement
  {
    forall i, j | 0 <= i < j < |s|
      ensures Observers(s)[i] != Observers(s)[j] <==> s[i].observer != s[j].observer
      ensures Statements(s)[i] != Statements(s)[j] <==> s[i].statement != s[j].statement
    {
    }
  }

  lemma {:induction false} CountIsMatching(authorizations: seq<Authorization>, role: Role)
    requires forall i, j | 0 <= i < j < |authorizations| :: authorizations[i] != authorizations[j]
    ensures CountRole(authorizations, role) == |Matching(role, authorizations)|
  {
    if authorizations == [] {
      assert Matching(role, authorizations) == {};
    } else {
      CountIsMatching(authorizations[1..], role);
      MatchingStep(authorizations, role);
    }
  }

  lemma MatchingStep(authorizations: seq<Authorization>, role: Role)
    requires authorizations != [] && authorizations[0] !in authorizations[1..]
    ensures |Matching(role, authorizations)| ==
            |Matching(role, authorizations[1..])| + if authorizations[0].role == role then 1 else 0
  {
    var first, rest := authorizations[0], authorizations[1..];
    assert authorizations == [first] + rest;
    if first.role == role {
      assert Matching(role, authorizations) == Matching(role, rest) + {first};
    } else {
      assert Matching(role, authorizations) == Matching(role, rest);
    }
  }

  // ---- Roles ----

  lemma RolesExactly(authorizations: seq<Authorization>, role: Role)
    requires |authorizations| <= 448
    requires forall i, j | 0 <= i < j < |authorizations| :: authorizations[i] != authorizations[j]
    ensures CheckRoleThreshold(role, authorizations).Ok? <==> RoleStands(authorizations, role)
  {
    CountIsMatching(authorizations, role);
    hide CountRole;
    assert Matching(role, authorizations) == set a | a in authorizations && a.role == role;
    if WithinSignatureBounds(role, authorizations) {
      ThresholdIsIndependence(role, authorizations);
    }
  }

  lemma {:induction false} CheckedRolesExactly(current: GovernanceState, c: Candidate, roles: seq<Role>)
    ensures CheckRoles(current, c, roles).Ok? <==>
            forall role | role in roles ::
              CheckRoleThreshold(role, c.authorizations).Ok? && role in c.versions
              && VersionOf(current.versions, role) <= c.versions[role]
    ensures CheckRoles(current, c, roles) != Err(Invalid(Conflict))
  {
    hide VersionOf, WithinSignatureBounds, Matching, Roots, StrongRoots;
    if roles != [] {
      CheckedRolesExactly(current, c, roles[1..]);
      assert roles == [roles[0]] + roles[1..];
    }
  }

  lemma VersionsExactly(versions: map<Role, nat>)
    ensures |versions| == 7 && VersionsOk(versions) <==> VersionsStand(versions)
  {
    var all := {Membership, Compatibility, Revocation, Distribution, Consistency, Recovery, Abuse};
    if |versions| == 7 {
      forall role: Role
        ensures role in versions
      {
        SevenVersionsAreAll(versions, role);
      }
    }
    if forall role: Role :: role in versions {
      forall role: Role
        ensures role in all
      {
        RolesAreAll(role);
      }
      assert versions.Keys == all;
    }
  }

  // ---- Bundles ----

  /** What is checked before the epochs are compared. */
  predicate Passes(current: GovernanceState, c: Candidate, now: nat) {
    && WithinBounds(current, c, now) && Admissible(current, c, now)
    && CheckRoles(current, c, AllRoles()).Ok? && Observed(c)
  }

  lemma AllRolesExactly(current: GovernanceState, c: Candidate)
    requires |c.authorizations| <= 448
    requires forall i, j | 0 <= i < j < |c.authorizations| :: c.authorizations[i] != c.authorizations[j]
    ensures CheckRoles(current, c, AllRoles()).Ok? <==>
            forall role: Role ::
              RoleStands(c.authorizations, role) && role in c.versions
              && VersionOf(current.versions, role) <= c.versions[role]
  {
    hide CheckRoleThreshold, RoleStands, VersionOf;
    CheckedRolesExactly(current, c, AllRoles());
    forall role: Role
      ensures role in AllRoles()
      ensures CheckRoleThreshold(role, c.authorizations).Ok? <==> RoleStands(c.authorizations, role)
    {
      RolesAreAll(role);
      RolesExactly(c.authorizations, role);
    }
    hide AllRoles;
  }

  lemma PassesExactly(current: GovernanceState, c: Candidate, now: nat)
    ensures Passes(current, c, now) <==> Adoptable(current, c, now)
    ensures Adoptable(current, c, now) ==> c.network == current.network
  {
    hide CheckRoles, RoleStands, Observed;
    VersionsExactly(current.versions);
    VersionsExactly(c.versions);
    DistinctEntries(c.authorizations);
    ObservedExactly(c);
    if |c.authorizations| <= 448 && forall i, j | 0 <= i < j < |c.authorizations| :: c.authorizations[i] != c.authorizations[j] {
      AllRolesExactly(current, c);
      if Passes(current, c, now) {
        assert CurrentStands(current);
        assert Adoptable(current, c, now);
      }
      if Adoptable(current, c, now) {
        assert WithinBounds(current, c, now);
        assert Admissible(current, c, now);
        assert Passes(current, c, now);
      }
    }
  }

  /**
   A candidate is committed exactly if it is adoptable at the next epoch, and replays exactly if
   it is adoptable at the current one and is the current bundle; another one there is a conflict.
   */
  lemma BundlesExactly(current: GovernanceState, c: Candidate, now: nat)
    ensures var r := Evaluate(current, c, now);
            && (Adoptable(current, c, now) && c.epoch == current.epoch + 1 <==>
                r == Ok(Adoption.Commit(GovernanceState(current.network, current.epoch + 1, Some(c.digest), c.versions))))
            && (Adoptable(current, c, now) && c.epoch == current.epoch
                && current.digest == Some(c.digest) && current.versions == c.versions <==>
                r == Ok(Adoption.Replay))
            && (Adoptable(current, c, now) && c.epoch == current.epoch
                && (current.digest != Some(c.digest) || current.versions != c.versions) <==>
                r == Err(Invalid(Conflict)))
  {
    hide WithinBounds, Admissible, Observed, CheckRoles, Adoptable;
    PassesExactly(current, c, now);
    CheckedRolesExactly(current, c, AllRoles());
  }

  /** What is within its bounds: all numbers, a version for every role, and lists that are neither long nor repetitive. */
  predicate Bounded(current: GovernanceState, c: Candidate, now: nat) {
    && current.epoch <= 9_007_199_254_740_991 && c.epoch <= 9_007_199_254_740_991
    && c.expiresAt <= 9_007_199_254_740_991 && now <= 9_007_199_254_740_991
    && (if current.epoch == 0 then current.versions == map[] else VersionsStand(current.versions))
    && VersionsStand(c.versions)
    && |c.authorizations| <= 448 && |c.observations| <= 16
    && (forall i, j | 0 <= i < j < |c.authorizations| :: c.authorizations[i] != c.authorizations[j])
    && (forall o | o in c.observations :: o.version <= 9_007_199_254_740_991)
  }

  /** A candidate beyond its bounds is told from one that is not adoptable; with every role behind it nothing else is reported. */
  lemma BundleRefusals(current: GovernanceState, c: Candidate, now: nat)
    ensures var r := Evaluate(current, c, now);
            && (!Bounded(current, c, now) ==> r == Err(Invalid(BoundExceeded)))
            && (Bounded(current, c, now) && (forall role: Role :: RoleStands(c.authorizations, role)) ==>
                  r.Ok? || r.error in {Invalid(InvalidTransition), Invalid(Conflict)})
  {
    hide CheckRoles, RoleStands, Observed;
    VersionsExactly(current.versions);
    VersionsExactly(c.versions);
    DistinctEntries(c.authorizations);
    if Bounded(current, c, now) && forall role: Role :: RoleStands(c.authorizations, role) {
      RolesDoNotExceed(current, c, AllRoles());
    }
  }

  lemma {:induction false} RolesDoNotExceed(current: GovernanceState, c: Candidate, roles: seq<Role>)
    requires |c.authorizations| <= 448
    requires forall i, j | 0 <= i < j < |c.authorizations| :: c.authorizations[i] != c.authorizations[j]
    requires forall role: Role :: RoleStands(c.authorizations, role)
    ensures var r := CheckRoles(current, c, roles);
            r.Ok? || r == Err(Invalid(InvalidTransition))
  {
    hide CheckRoleThreshold, RoleStands;
    if roles != [] {
      RolesExactly(c.authorizations, roles[0]);
      RolesDoNotExceed(current, c, roles[1..]);
    }
  }
}

/** Exactly which group states, transitions, projections and results are accepted, and what a transition makes of the members. */
module GroupDecisions {
  import opened Errors
  import opened Group
  import opened GroupTheorems

  // ---- States ----

  /** One to 64 members in order of their endpoints, one of them with authority; a predecessor past the first epoch. */
  predicate StateStands(s: GroupState) {
    && 1 <= |s.members| <= 64 && s.epoch <= 9_007_199_254_740_991 && (s.epoch == 0 <==> s.previous.None?)
    && (forall i, j | 0 <= i < j < |s.members| :: s.members[i].endpoint < s.members[j].endpoint)
    && exists m | m in s.members :: m.role.StateAuthority?
  }

  lemma {:induction false} AscendingExactly(members: seq<Member>)
    ensures Ascending(members) <==> forall i, j | 0 <= i < j < |members| :: members[i].endpoint < members[j].endpoint
  {
    if |members| >= 2 {
      AscendingExactly(members[1..]);
      assert forall i | 0 < i < |members| :: members[i] == members[1..][i - 1];
    }
  }

  lemma StatesExactly(s: GroupState)
    ensures Validate(s).Ok? <==> StateStands(s)
  {
    hide Ascending;
    AscendingExactly(s.members);
  }

  // ---- Transitions ----

  /** Someone else has authority. */
  predicate AuthorityBesides(members: seq<Member>, endpoint: nat) {
    exists m | m in members :: m.role.StateAuthority? && m.endpoint != endpoint
  }

  function OtherRole(role: Role): Role {
    if role.Ordinary? then StateAuthority else Ordinary
  }

  /** A newcomer where there is room, a member that goes, or one that changes to the role it has not. */
  predicate EditStands(members: seq<Member>, op: Operation) {
    match op
    case Add(member) => |members| < 64 && forall m | m in members :: m.endpoint != member.endpoint
    case Remove(endpoint) => exists m | m in members :: m.endpoint == endpoint
    case ChangeRole(endpoint, role) => Member(endpoint, OtherRole(role)) in members
  }

  /** An authority of a sound state may make any such edit that does not take the last authority. */
  predicate Permitted(s: GroupState, author: nat, op: Operation) {
    && StateStands(s) && s.epoch < 9_007_199_254_740_991 && Member(author, StateAuthority) in s.members
    && EditStands(s.members, op)
    && (op.Remove? || (op.ChangeRole? && op.role.Ordinary?) ==> AuthorityBesides(s.members, op.endpoint))
  }

  lemma EditsExactly(members: seq<Member>, op: Operation)
    requires Ascending(members) && |members| <= 64
    ensures Edit(members, op).Ok? <==> EditStands(members, op)
    ensures Edit(members, op) == Err(Invalid(Conflict)) <==> op.ChangeRole? && Member(op.endpoint, op.role) in members
  {
    hide Ascending, RoleOf, Retained, Reassigned;
    match op
    case Add(member) => RoleOfAbsent(members, member.endpoint);
    case Remove(endpoint) =>
      RetainedKeeps(members, endpoint);
      RoleOfAbsent(members, endpoint);
    case ChangeRole(endpoint, role) =>
      RoleOfPresent(members, Member(endpoint, StateAuthority));
      RoleOfPresent(members, Member(endpoint, Ordinary));
  }

  lemma TransitionsExactly(s: GroupState, author: nat, op: Operation)
    ensures Apply(s, author, op).Ok? <==> Permitted(s, author, op)
  {
    StatesExactly(s);
    if Validate(s).Ok? && IsAuthority(s.members, author) && s.epoch < 9_007_199_254_740_991 {
      EditsExactly(s.members, op);
      if Edit(s.members, op).Ok? {
        TransitionsFailExactly(s, author, op);
      }
    }
    hide Edit, Sorted, Ascending;
  }

  /** The members after an applied operation, one by one. */
  predicate MemberAfter(members: seq<Member>, op: Operation, m: Member) {
    match op
    case Add(member) => m in members || m == member
    case Remove(endpoint) => m in members && m.endpoint != endpoint
    case ChangeRole(endpoint, role) => if m.endpoint == endpoint then m.role == role else m in members
  }

  /** Roles after the operation say who is a member after it. */
  lemma MembersByRole(members: seq<Member>, op: Operation, next: seq<Member>, m: Member)
    requires Ascending(members) && Ascending(next) && EditStands(members, op)
    requires forall e :: RoleOf(next, e) == RoleAfter(members, op, e)
    ensures m in next <==> MemberAfter(members, op, m)
  {
    hide Ascending, RoleOf;
    RoleOfPresent(next, m);
    RoleOfPresent(members, m);
    RoleOfAbsent(members, m.endpoint);
  }

  lemma TransitionsMake(s: GroupState, author: nat, op: Operation)
    requires Apply(s, author, op).Ok?
    ensures var next := Apply(s, author, op).value;
            var before := DigestOf(s.group, s.epoch, s.previous, s.members, s.transition);
            && StateStands(next) && next.group == s.group && next.epoch == s.epoch + 1 && next.previous == Some(before)
            && next.transition == TransitionOf(s.group, before, s.epoch + 1, author, op)
            && forall m :: m in next.members <==> MemberAfter(s.members, op, m)
  {
    hide Edit, Sorted, Ascending, RoleOf, EditStands, HasAuthority, MemberAfter, RoleAfter, StateStands;
    var next := Apply(s, author, op).value;
    TransitionsDoAsAsked(s, author, op);
    TransitionsExactly(s, author, op);
    StatesExactly(next);
    forall m: Member
      ensures m in next.members <==> MemberAfter(s.members, op, m)
    {
      MembersByRole(s.members, op, next.members, m);
    }
  }

  // ---- Projections ----

  /** A message is projected for members only; each of the others gets the message and its payload, and no one else does. */
  lemma ProjectionsExactly(s: GroupState, message: nat, sender: nat, payload: seq<int>)
    ensures var r := Projections(s, message, sender, payload);
            var digest := DigestOf(s.group, s.epoch, s.previous, s.members, s.transition);
            && (r.Ok? <==>
                  StateStands(s) && |payload| <= 262_144 && exists m | m in s.members :: m.endpoint == sender)
            && (r.Ok? ==>
                  forall i | 0 <= i < |r.value| ::
                    r.value[i] == Projection(
                      IdOf(digest, message, r.value[i].recipient), message, digest, r.value[i].recipient, payload))
            && (r.Ok? ==>
                  forall e :: e in RecipientsOf(r.value) <==> e != sender && exists m | m in s.members :: m.endpoint == e)
  {
    StatesExactly(s);
    RoleOfAbsent(s.members, sender);
    if Validate(s).Ok? {
      RetainedKeeps(s.members, sender);
    }
    var r := Projections(s, message, sender, payload);
    if r.Ok? {
      ProjectionsReachEveryoneElse(s, message, sender, payload);
      forall e: nat
        ensures e in RecipientsOf(r.value) <==> e != sender && exists m | m in s.members :: m.endpoint == e
      {
        RoleOfAbsent(s.members, e);
      }
    }
  }

  // ---- Results ----

  predicate ResultStands(x: GroupResult) {
    match x.outcome
    case Pending => x.failureCode.None? && x.authority.NoAuthority?
    case Delivered => x.failureCode.None? && x.authority.EndpointConfirmation?
    case Rejected => x.failureCode.Some? && x.failureCode.value <= 12
    case Failed => x.failureCode.Some? && x.failureCode.value <= 12
  }

  /** Projections and results in order of distinct recipients, under distinct identifiers, each result for a projection. */
  predicate AggregationStands(projections: seq<Projection>, results: seq<GroupResult>) {
    && 1 <= |projections| <= 64 && 1 <= |results| <= 64
    && (forall i, j | 0 <= i < j < |projections| ::
          projections[i].recipient < projections[j].recipient && projections[i].id != projections[j].id)
    && (forall i, j | 0 <= i < j < |results| ::
          results[i].recipient < results[j].recipient && results[i].projection != results[j].projection)
    && forall x | x in results ::
         ResultStands(x) && exists p | p in projections :: p.recipient == x.recipient && p.id == x.projection
  }

  lemma {:induction false} IncreasingExactly(recipients: seq<nat>)
    ensures Increasing(recipients) <==> forall i, j | 0 <= i < j < |recipients| :: recipients[i] < recipients[j]
  {
    if |recipients| >= 2 {
      IncreasingExactly(recipients[1..]);
      assert forall i | 0 < i < |recipients| :: recipients[i] == recipients[1..][i - 1];
    }
  }

  predicate AllNew(ids: seq<ProjectionId>, seen: set<ProjectionId>) {
    && (forall i, j | 0 <= i < j < |ids| :: ids[i] != ids[j])
    && forall i | 0 <= i < |ids| :: ids[i] !in seen
  }

  lemma {:induction false} UniqueExactly(ids: seq<ProjectionId>, seen: set<ProjectionId>)
    requires |ids| + |seen| <= 64
    ensures CheckUnique(ids, seen).Ok? <==> AllNew(ids, seen)
  {
    hide AllNew;
    if ids == [] {
      AllNewOfNone(seen);
    } else {
      AllNewStep(ids, seen);
      if ids[0] !in seen {
        UniqueExactly(ids[1..], seen + {ids[0]});
      }
    }
  }

  lemma AllNewOfNone(seen: set<ProjectionId>)
    ensures AllNew([], seen)
  {
  }

  lemma AllNewStep(ids: seq<ProjectionId>, seen: set<ProjectionId>)
    requires ids != []
    ensures AllNew(ids, seen) <==> ids[0] !in seen && AllNew(ids[1..], seen + {ids[0]})
  {
    var rest := ids[1..];
    if AllNew(rest, seen + {ids[0]}) && ids[0] !in seen {
      forall i, j | 0 <= i < j < |ids|
        ensures ids[i] != ids[j]
      {
        assert ids[j] == rest[j - 1];
        assert i > 0 ==> ids[i] == rest[i - 1];
      }
      forall i | 0 <= i < |ids|
        ensures ids[i] !in seen
      {
        assert i > 0 ==> ids[i] == rest[i - 1];
      }
    }
  }

  lemma {:induction false} ExpectedExactly(projections: seq<Projection>, recipient: nat, id: ProjectionId)
    requires forall i, j | 0 <= i < j < |projections| :: projections[i].recipient != projections[j].recipient
    ensures ExpectedFor(projections, recipient) == Some(id) <==>
            exists p | p in projections :: p.recipient == recipient && p.id == id
  {
    if projections != [] {
      var rest := projections[1..];
      ExpectedExactly(rest, recipient, id);
      assert projections == [projections[0]] + rest;
      assert forall p | p in rest :: p.recipient != projections[0].recipient;
    }
  }

  lemma {:induction false} ResultsExactly(projections: seq<Projection>, results: seq<GroupResult>)
    requires forall i, j | 0 <= i < j < |projections| :: projections[i].recipient != projections[j].recipient
    ensures CheckResults(projections, results).Ok? <==>
            forall x | x in results ::
              ResultStands(x) && exists p | p in projections :: p.recipient == x.recipient && p.id == x.projection
  {
    hide ExpectedFor;
    if results != [] {
      ExpectedExactly(projections, results[0].recipient, results[0].projection);
      ResultsExactly(projections, results[1..]);
      assert results == [results[0]] + results[1..];
    }
  }

  lemma ProjectionsOrdered(projections: seq<Projection>)
    requires |projections| <= 64
    ensures Increasing(RecipientsOf(projections)) && CheckUnique(IdsOf(projections), {}).Ok? <==>
            forall i, j | 0 <= i < j < |projections| ::
              projections[i].recipient < projections[j].recipient && projections[i].id != projections[j].id
  {
    hide Increasing, CheckUnique;
    IncreasingExactly(RecipientsOf(projections));
    UniqueExactly(IdsOf(projections), {});
  }

  lemma ResultsOrdered(results: seq<GroupResult>)
    requires |results| <= 64
    ensures Increasing(ResultRecipients(results)) && CheckUnique(ResultIds(results), {}).Ok? <==>
            forall i, j | 0 <= i < j < |results| ::
              results[i].recipient < results[j].recipient && results[i].projection != results[j].projection
  {
    hide Increasing, CheckUnique;
    IncreasingExactly(ResultRecipients(results));
    UniqueExactly(ResultIds(results), {});
  }

  lemma AggregationsExactly(projections: seq<Projection>, results: seq<GroupResult>)
    ensures CheckAggregation(projections, results).Ok? <==> AggregationStands(projections, results)
  {
    hide ResultStands, CheckResults, CheckUnique, Increasing, RecipientsOf, ResultRecipients, IdsOf, ResultIds;
    if |projections| <= 64 && |results| <= 64 {
      ProjectionsOrdered(projections);
      ResultsOrdered(results);
    }
    if forall i, j | 0 <= i < j < |projections| :: projections[i].recipient < projections[j].recipient {
      ResultsExactly(projections, results);
    }
  }
}

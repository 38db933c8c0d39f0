/** What membership transitions keep, when they fail, and whom a message is projected to. */
module GroupTheorems {
  import opened Errors
  import opened Integers
  import opened Group

  // ---- Order ----

  lemma {:induction false} AscendingHead(members: seq<Member>)
    requires Ascending(members)
    ensures forall i | 0 < i < |members| :: members[0].endpoint < members[i].endpoint
  {
    if |members| >= 2 {
      AscendingHead(members[1..]);
      assert forall i | 0 < i < |members| :: members[i] == members[1..][i - 1];
    }
  }

  lemma {:induction false} RoleOfAbsent(members: seq<Member>, endpoint: nat)
    ensures RoleOf(members, endpoint).None? <==> forall m | m in members :: m.endpoint != endpoint
  {
    if members != [] {
      RoleOfAbsent(members[1..], endpoint);
      assert members == [members[0]] + members[1..];
      assert members[0] in members;
    }
  }

  lemma {:induction false} RoleOfPresent(members: seq<Member>, m: Member)
    requires Ascending(members)
    ensures m in members <==> RoleOf(members, m.endpoint) == Some(m.role)
  {
    if members != [] {
      AscendingHead(members);
      RoleOfPresent(members[1..], m);
      RoleOfAbsent(members[1..], m.endpoint);
      assert members == [members[0]] + members[1..];
    }
  }

  lemma {:induction false} InsertKeepsOrder(member: Member, members: seq<Member>)
    requires Ascending(members) && RoleOf(members, member.endpoint).None?
    ensures Ascending(Insert(member, members))
    ensures forall e :: RoleOf(Insert(member, members), e) == if e == member.endpoint then Some(member.role) else RoleOf(members, e)
    ensures Insert(member, members)[0] == member || (members != [] && Insert(member, members)[0] == members[0])
  {
    if members == [] || member.endpoint < members[0].endpoint {
      assert ([member] + members)[1..] == members;
    } else {
      var rest := Insert(member, members[1..]);
      InsertKeepsOrder(member, members[1..]);
      assert ([members[0]] + rest)[1..] == rest;
    }
  }

  /** Appending at the end of an ascending list is inserting, when the new endpoint is the largest. */
  lemma {:induction false} InsertAtEnd(members: seq<Member>, member: Member)
    requires Ascending(members + [member])
    ensures Insert(member, members) == members + [member]
  {
    var all := members + [member];
    AscendingHead(all);
    if members != [] {
      assert all[0] == members[0] && all[|members|] == member;
      assert all[1..] == members[1..] + [member];
      InsertAtEnd(members[1..], member);
    }
  }

  lemma {:induction false} PrefixAscends(members: seq<Member>, last: Member)
    requires Ascending(members + [last])
    ensures Ascending(members)
  {
    if |members| >= 2 {
      assert (members + [last])[1..] == members[1..] + [last];
      PrefixAscends(members[1..], last);
    }
  }

  /** Sorting leaves an ascending list alone. */
  lemma {:induction false} SortedIsIdentity(members: seq<Member>)
    requires Ascending(members)
    ensures Sorted(members) == members
  {
    if members != [] {
      var front, last := members[..|members| - 1], members[|members| - 1];
      assert members == front + [last];
      PrefixAscends(front, last);
      SortedIsIdentity(front);
      InsertAtEnd(front, last);
    }
  }

  lemma {:induction false} RetainedKeeps(members: seq<Member>, endpoint: nat)
    requires Ascending(members)
    ensures Ascending(Retained(members, endpoint))
    ensures forall e :: RoleOf(Retained(members, endpoint), e) == if e == endpoint then None else RoleOf(members, e)
    ensures Retained(members, endpoint) != [] ==> Retained(members, endpoint)[0] in members
    ensures |Retained(members, endpoint)| == |members| - if RoleOf(members, endpoint).Some? then 1 else 0
  {
    if members != [] {
      AscendingHead(members);
      RetainedKeeps(members[1..], endpoint);
      var rest := Retained(members[1..], endpoint);
      assert members == [members[0]] + members[1..];
      if members[0].endpoint == endpoint {
        RoleOfAbsent(members[1..], endpoint);
      } else {
        assert ([members[0]] + rest)[1..] == rest;
        if rest != [] {
          assert rest[0] in members[1..];
        }
      }
    }
  }

  lemma {:induction false} ReassignedKeeps(members: seq<Member>, endpoint: nat, role: Role)
    requires Ascending(members)
    ensures Ascending(Reassigned(members, endpoint, role))
    ensures forall e :: RoleOf(Reassigned(members, endpoint, role), e) ==
              if e == endpoint && RoleOf(members, endpoint).Some? then Some(role) else RoleOf(members, e)
    ensures members != [] ==> Reassigned(members, endpoint, role)[0].endpoint == members[0].endpoint
  {
    if members != [] {
      AscendingHead(members);
      if members[0].endpoint == endpoint {
        assert ([Member(endpoint, role)] + members[1..])[1..] == members[1..];
      } else {
        var rest := Reassigned(members[1..], endpoint, role);
        ReassignedKeeps(members[1..], endpoint, role);
        assert ([members[0]] + rest)[1..] == rest;
      }
    }
  }

  // ---- Transitions ----

  /** The role an endpoint has after an operation. */
  function RoleAfter(members: seq<Member>, op: Operation, endpoint: nat): Option<Role> {
    match op
    case Add(member) => if endpoint == member.endpoint then Some(member.role) else RoleOf(members, endpoint)
    case Remove(gone) => if endpoint == gone then None else RoleOf(members, endpoint)
    case ChangeRole(changed, role) => if endpoint == changed then Some(role) else RoleOf(members, endpoint)
  }

  /** An edited and sorted list is ascending, fits, and has exactly the roles the operation asks for. */
  lemma EditedListIsRight(members: seq<Member>, op: Operation)
    requires Ascending(members) && members != [] && |members| <= MAX_GROUP_MEMBERS && Edit(members, op).Ok?
    ensures var next := Sorted(Edit(members, op).value);
            && Ascending(next) && |next| <= MAX_GROUP_MEMBERS
            && forall e :: RoleOf(next, e) == RoleAfter(members, op, e)
  {
    match op
    case Add(member) =>
      var edited := members + [member];
      assert edited[..|edited| - 1] == members;
      SortedIsIdentity(members);
      InsertKeepsOrder(member, members);
    case Remove(endpoint) =>
      RetainedKeeps(members, endpoint);
      SortedIsIdentity(Retained(members, endpoint));
    case ChangeRole(endpoint, role) =>
      ReassignedKeeps(members, endpoint, role);
      SortedIsIdentity(Reassigned(members, endpoint, role));
  }

  /** The operation takes the authority role from the only member that has it. */
  predicate TakesLastAuthority(members: seq<Member>, op: Operation) {
    && (op.Remove? || (op.ChangeRole? && op.role.Ordinary?))
    && forall m | m in members && m.role.StateAuthority? :: m.endpoint == op.endpoint
  }

  lemma AuthorityByRole(members: seq<Member>)
    requires Ascending(members)
    ensures HasAuthority(members) <==> exists e :: RoleOf(members, e) == Some(StateAuthority)
  {
    if HasAuthority(members) {
      var m :| m in members && m.role.StateAuthority?;
      RoleOfPresent(members, m);
      assert RoleOf(members, m.endpoint) == Some(StateAuthority);
    }
    if e :| RoleOf(members, e) == Some(StateAuthority) {
      RoleOfPresent(members, Member(e, StateAuthority));
    }
  }

  lemma AuthorityIsKept(members: seq<Member>, op: Operation, next: seq<Member>)
    requires Ascending(members) && HasAuthority(members) && Ascending(next)
    requires op.ChangeRole? ==> RoleOf(members, op.endpoint).Some? && RoleOf(members, op.endpoint) != Some(op.role)
    requires op.Add? ==> RoleOf(members, op.member.endpoint).None?
    requires forall e :: RoleOf(next, e) == RoleAfter(members, op, e)
    ensures HasAuthority(next) <==> !TakesLastAuthority(members, op)
  {
    AuthorityByRole(members);
    AuthorityByRole(next);
    forall m | m in members
      ensures RoleOf(members, m.endpoint) == Some(m.role)
    {
      RoleOfPresent(members, m);
    }
    if TakesLastAuthority(members, op) {
      forall e
        ensures RoleOf(next, e) != Some(StateAuthority)
      {
        RoleOfPresent(members, Member(e, StateAuthority));
      }
    } else if op.Remove? || (op.ChangeRole? && op.role.Ordinary?) {
      var m :| m in members && m.role.StateAuthority? && m.endpoint != op.endpoint;
      assert RoleAfter(members, op, m.endpoint) == RoleOf(members, m.endpoint) == Some(StateAuthority);
      RoleOfPresent(next, Member(m.endpoint, StateAuthority));
    } else if op.ChangeRole? {
      RoleOfPresent(next, Member(op.endpoint, StateAuthority));
    } else {
      var m :| m in members && m.role.StateAuthority?;
      RoleOfPresent(next, Member(m.endpoint, StateAuthority));
    }
  }

  lemma EditIsPossible(members: seq<Member>, op: Operation)
    requires Edit(members, op).Ok?
    ensures op.ChangeRole? ==> RoleOf(members, op.endpoint).Some? && RoleOf(members, op.endpoint) != Some(op.role)
    ensures op.Add? ==> RoleOf(members, op.member.endpoint).None?
  {
  }

  /**
   A permitted edit below the last epoch fails exactly when it takes the role of the only
   state authority: size, order and uniqueness cannot be what the final validation refuses.
   */
  lemma TransitionsFailExactly(s: GroupState, author: nat, op: Operation)
    requires Validate(s).Ok? && IsAuthority(s.members, author) && Edit(s.members, op).Ok? && s.epoch < MAX_SAFE_INTEGER
    ensures Apply(s, author, op).Ok? <==> !TakesLastAuthority(s.members, op)
  {
    var next := Sorted(Edit(s.members, op).value);
    EditedListIsRight(s.members, op);
    EditIsPossible(s.members, op);
    hide Sorted, Edit, RoleOf, Ascending, TakesLastAuthority, RoleAfter;
    AuthorityIsKept(s.members, op, next);
    if next == [] {
      assert !HasAuthority(next);
    }
  }

  /** An applied transition changes one role as asked, moves one epoch on, and links to the state before. */
  lemma TransitionsDoAsAsked(s: GroupState, author: nat, op: Operation)
    requires Apply(s, author, op).Ok?
    ensures var next := Apply(s, author, op).value;
            && Validate(next).Ok? && next.group == s.group && next.epoch == s.epoch + 1 && next.previous == Some(Digest(s))
            && (forall e :: RoleOf(next.members, e) == RoleAfter(s.members, op, e))
            && RoleOf(s.members, author) == Some(StateAuthority)
  {
    EditedListIsRight(s.members, op);
    RoleOfPresent(s.members, Member(author, StateAuthority));
  }

  // ---- Runs ----

  datatype Request = Request(author: nat, op: Operation)

  /** The states a group goes through: the first, and one for every request that is applied. */
  function Trail(s: GroupState, requests: seq<Request>): (r: seq<GroupState>)
    ensures |r| >= 1 && r[0] == s
    decreases |requests|
  {
    if requests == [] then [s]
    else match Apply(s, requests[0].author, requests[0].op)
      case Ok(next) => [s] + Trail(next, requests[1..])
      case Err(_) => Trail(s, requests[1..])
  }

  function Head(trail: seq<GroupState>): GroupState
    requires |trail| >= 1
  {
    trail[|trail| - 1]
  }

  /** One state of a group that keeps its bounds, its order and an authority. */
  predicate Sound(s: GroupState) {
    && 1 <= |s.members| <= MAX_GROUP_MEMBERS && s.epoch <= MAX_SAFE_INTEGER
    && Ascending(s.members) && HasAuthority(s.members)
  }

  predicate Requested(s: GroupState, next: GroupState, requests: seq<Request>) {
    exists r | r in requests :: Apply(s, r.author, r.op) == Ok(next)
  }

  /**
   Over every run the epoch counts the applied transitions, each state names the digest of
   the one before and came from it by a request, and every state is bounded, in order, and
   has a state authority.
   */
  lemma {:induction false} RunsOnlyMoveOn(s: GroupState, requests: seq<Request>)
    requires Validate(s).Ok?
    ensures var t := Trail(s, requests);
            && |t| <= |requests| + 1
            && (forall i | 0 <= i < |t| :: Sound(t[i]) && t[i].group == s.group && t[i].epoch == s.epoch + i)
            && (forall i | 0 < i < |t| ::
                  t[i].previous == Some(Digest(t[i - 1])) && Requested(t[i - 1], t[i], requests))
    decreases |requests|
  {
    hide Apply, Digest, Ascending, HasAuthority;
    if requests != [] {
      var first, rest := requests[0], requests[1..];
      var applied := Apply(s, first.author, first.op);
      var start := if applied.Ok? then applied.value else s;
      if applied.Ok? {
        TransitionsDoAsAsked(s, first.author, first.op);
        assert Requested(s, start, requests);
      }
      RunsOnlyMoveOn(start, rest);
      forall x, y | Requested(x, y, rest)
        ensures Requested(x, y, requests)
      {
        var r :| r in rest && Apply(x, r.author, r.op) == Ok(y);
        assert r in requests;
      }
    }
  }

  /** The digest of the last state stands for the whole history: equal heads have equal trails. */
  lemma HeadsDetermineTrails(s: GroupState, xs: seq<Request>, t: GroupState, ys: seq<Request>)
    requires Validate(s).Ok? && Validate(t).Ok? && s.epoch == t.epoch
    requires Digest(Head(Trail(s, xs))) == Digest(Head(Trail(t, ys)))
    ensures Trail(s, xs) == Trail(t, ys)
  {
    hide Apply, Sound, Requested;
    RunsOnlyMoveOn(s, xs);
    RunsOnlyMoveOn(t, ys);
    var x, y := Trail(s, xs), Trail(t, ys);
    SamePast(x, y, |x| - 1);
  }

  lemma {:induction false} SamePast(x: seq<GroupState>, y: seq<GroupState>, i: nat)
    requires i < |x| && i < |y| && Digest(x[i]) == Digest(y[i])
    requires forall k | 0 < k < |x| :: x[k].previous == Some(Digest(x[k - 1]))
    requires forall k | 0 < k < |y| :: y[k].previous == Some(Digest(y[k - 1]))
    ensures forall k | 0 <= k <= i :: x[k] == y[k]
  {
    if i > 0 {
      SamePast(x, y, i - 1);
    }
  }

  // ---- Projections ----

  lemma {:induction false} AscendingRecipients(members: seq<Member>, state: GroupDigest, message: nat, payload: seq<int>)
    requires Ascending(members)
    ensures Increasing(RecipientsOf(ProjectTo(members, state, message, payload)))
  {
    if |members| >= 2 {
      var projections := ProjectTo(members, state, message, payload);
      AscendingRecipients(members[1..], state, message, payload);
      assert projections[1..] == ProjectTo(members[1..], state, message, payload);
      assert RecipientsOf(projections)[1..] == RecipientsOf(projections[1..]);
    }
  }

  lemma {:induction false} DistinctIdsPass(ids: seq<ProjectionId>, seen: set<ProjectionId>)
    requires |ids| + |seen| <= MAX_GROUP_PROJECTIONS
    requires forall i, j | 0 <= i < j < |ids| :: ids[i] != ids[j]
    requires forall i | 0 <= i < |ids| :: ids[i] !in seen
    ensures CheckUnique(ids, seen).Ok?
  {
    if ids != [] {
      forall i | 0 <= i < |ids[1..]|
        ensures ids[1..][i] !in seen + {ids[0]}
      {
        assert ids[1..][i] == ids[i + 1];
      }
      DistinctIdsPass(ids[1..], seen + {ids[0]});
    }
  }

  /**
   A message is projected once to every member but its sender, in ascending order and under
   distinct identifiers: just what the aggregation of its results demands of projections.
   */
  lemma ProjectionsReachEveryoneElse(s: GroupState, message: nat, sender: nat, payload: seq<int>)
    requires Projections(s, message, sender, payload).Ok?
    ensures var projections := Projections(s, message, sender, payload).value;
            && |projections| == |s.members| - 1 <= MAX_GROUP_PROJECTIONS
            && Increasing(RecipientsOf(projections))
            && CheckUnique(IdsOf(projections), {}).Ok?
            && forall e :: e in RecipientsOf(projections) <==> e != sender && RoleOf(s.members, e).Some?
  {
    var others := Others(s.members, sender);
    var projections := Projections(s, message, sender, payload).value;
    RetainedKeeps(s.members, sender);
    AscendingRecipients(others, Digest(s), message, payload);
    forall e
      ensures e in RecipientsOf(projections) <==> e != sender && RoleOf(s.members, e).Some?
    {
      RoleOfAbsent(others, e);
      if m :| m in others && m.endpoint == e {
        var i :| 0 <= i < |others| && others[i] == m;
        assert RecipientsOf(projections)[i] == e;
      }
    }
    forall i, j | 0 <= i < j < |projections|
      ensures IdsOf(projections)[i] != IdsOf(projections)[j]
    {
      IncreasingPair(RecipientsOf(projections), i, j);
    }
    DistinctIdsPass(IdsOf(projections), {});
  }

  lemma {:induction false} IncreasingPair(recipients: seq<nat>, i: nat, j: nat)
    requires Increasing(recipients) && i < j < |recipients|
    ensures recipients[i] < recipients[j]
  {
    if i == 0 {
      IncreasingMembers(recipients);
    } else {
      IncreasingPair(recipients[1..], i - 1, j - 1);
    }
  }
}

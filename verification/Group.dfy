/**
 Bounded pairwise groups (src/group.rs): membership transitions, projections of a message
 to its recipients, and the aggregation of their results. Endpoints are numbers in the
 order of their octets; digests are constructors over what they cover.
 */
module Group {
  import opened Errors
  import opened Integers
  import opened Sets

  const MAX_GROUP_MEMBERS := 64
  const MAX_GROUP_PROJECTIONS := 64
  const MAX_GROUP_PAYLOAD_BYTES := 262_144
  const MAX_FAILURE_CODE := 12

  datatype Role = Ordinary | StateAuthority

  datatype Member = Member(endpoint: nat, role: Role)

  datatype Operation = Add(member: Member) | Remove(endpoint: nat) | ChangeRole(endpoint: nat, role: Role)

  datatype GroupDigest =
    | DigestOf(group: nat, epoch: nat, previous: Option<GroupDigest>, members: seq<Member>, transition: TransitionDigest)
    | ForeignDigest(id: nat)

  datatype TransitionDigest =
    | TransitionOf(group: nat, previous: GroupDigest, epoch: nat, author: nat, operation: Operation)
    | ForeignTransition(id: nat)

  datatype GroupState = GroupState(
    group: nat, epoch: nat, previous: Option<GroupDigest>, members: seq<Member>, transition: TransitionDigest)

  // ---- States ----

  /** Strictly ascending endpoints, neighbour by neighbour. */
  predicate Ascending(members: seq<Member>) {
    |members| >= 2 ==> members[0].endpoint < members[1].endpoint && Ascending(members[1..])
  }

  predicate IsAuthority(members: seq<Member>, endpoint: nat) {
    Member(endpoint, StateAuthority) in members
  }

  predicate HasAuthority(members: seq<Member>) {
    exists m | m in members :: m.role.StateAuthority?
  }

  function Validate(s: GroupState): Result<()> {
    if s.members == [] || |s.members| > MAX_GROUP_MEMBERS || s.epoch > MAX_SAFE_INTEGER then Err(Invalid(BoundExceeded))
    else if (s.epoch == 0) != s.previous.None? then Err(Invalid(InvalidTransition))
    else if !Ascending(s.members) || !HasAuthority(s.members) then Err(Invalid(InvalidTransition))
    else Ok(())
  }

  function Digest(s: GroupState): GroupDigest {
    DigestOf(s.group, s.epoch, s.previous, s.members, s.transition)
  }

  // ---- Transitions ----

  function RoleOf(members: seq<Member>, endpoint: nat): Option<Role> {
    if members == [] then None
    else if members[0].endpoint == endpoint then Some(members[0].role)
    else RoleOf(members[1..], endpoint)
  }

  function Retained(members: seq<Member>, endpoint: nat): (r: seq<Member>)
    ensures |r| <= |members|
  {
    if members == [] then []
    else if members[0].endpoint == endpoint then Retained(members[1..], endpoint)
    else [members[0]] + Retained(members[1..], endpoint)
  }

  function Reassigned(members: seq<Member>, endpoint: nat, role: Role): (r: seq<Member>)
    ensures |r| == |members|
  {
    if members == [] then []
    else if members[0].endpoint == endpoint then [Member(endpoint, role)] + members[1..]
    else [members[0]] + Reassigned(members[1..], endpoint, role)
  }

  /** The member list an operation asks for, before it is put in order again. */
  function Edit(members: seq<Member>, op: Operation): Result<seq<Member>> {
    match op
    case Add(member) =>
      if |members| == MAX_GROUP_MEMBERS || RoleOf(members, member.endpoint).Some? then Err(Invalid(InvalidTransition))
      else Ok(members + [member])
    case Remove(endpoint) =>
      if |Retained(members, endpoint)| == |members| then Err(Invalid(InvalidTransition))
      else Ok(Retained(members, endpoint))
    case ChangeRole(endpoint, role) =>
      var current := RoleOf(members, endpoint);
      if current.None? then Err(Invalid(InvalidTransition))
      else if current.value == role then Err(Invalid(Conflict))
      else Ok(Reassigned(members, endpoint, role))
  }

  /** The first member of an endpoint is the one that is reassigned. */
  lemma {:induction false} ReassignedAt(members: seq<Member>, i: nat, endpoint: nat, role: Role)
    requires i < |members| && members[i].endpoint == endpoint
    requires forall j | 0 <= j < i :: members[j].endpoint != endpoint
    ensures Reassigned(members, endpoint, role) == members[i := Member(endpoint, role)]
    ensures RoleOf(members, endpoint) == Some(members[i].role)
  {
    if i > 0 {
      ReassignedAt(members[1..], i - 1, endpoint, role);
    }
  }

  lemma {:induction false} RoleOfNobody(members: seq<Member>, endpoint: nat)
    requires forall j | 0 <= j < |members| :: members[j].endpoint != endpoint
    ensures RoleOf(members, endpoint) == None
  {
    if members != [] {
      RoleOfNobody(members[1..], endpoint);
    }
  }

  method RunEdit(members: seq<Member>, op: Operation) returns (r: Result<seq<Member>>)
    ensures r == Edit(members, op)
  {
    match op
    case Add(member) =>
      var i := 0;
      while i < |members| && members[i].endpoint != member.endpoint
        invariant i <= |members| && forall j | 0 <= j < i :: members[j].endpoint != member.endpoint
      {
        i := i + 1;
      }
      if i < |members| {
        ReassignedAt(members, i, member.endpoint, member.role);
      } else {
        RoleOfNobody(members, member.endpoint);
      }
      if |members| == MAX_GROUP_MEMBERS || i < |members| {
        return Err(Invalid(InvalidTransition));
      }
      return Ok(members + [member]);
    case Remove(endpoint) =>
      var kept: seq<Member> := [];
      for i := 0 to |members|
        invariant Retained(members, endpoint) == kept + Retained(members[i..], endpoint)
      {
        assert members[i..][1..] == members[i + 1..];
        if members[i].endpoint != endpoint {
          kept := kept + [members[i]];
        }
      }
      assert members[|members|..] == [] && kept + [] == kept;
      if |kept| == |members| {
        return Err(Invalid(InvalidTransition));
      }
      return Ok(kept);
    case ChangeRole(endpoint, role) =>
      var i := 0;
      while i < |members| && members[i].endpoint != endpoint
        invariant i <= |members| && forall j | 0 <= j < i :: members[j].endpoint != endpoint
      {
        i := i + 1;
      }
      if i == |members| {
        RoleOfNobody(members, endpoint);
        return Err(Invalid(InvalidTransition));
      }
      ReassignedAt(members, i, endpoint, role);
      if members[i].role == role {
        return Err(Invalid(Conflict));
      }
      return Ok(members[i := Member(endpoint, role)]);
  }

  function Insert(member: Member, members: seq<Member>): (r: seq<Member>)
    ensures |r| == |members| + 1
  {
    if members == [] || member.endpoint < members[0].endpoint then [member] + members
    else [members[0]] + Insert(member, members[1..])
  }

  /** A stable sort by endpoint. */
  function Sorted(members: seq<Member>): (r: seq<Member>)
    ensures |r| == |members|
  {
    if members == [] then [] else Insert(members[|members| - 1], Sorted(members[..|members| - 1]))
  }

  function Apply(s: GroupState, author: nat, op: Operation): Result<GroupState> {
    var _ :- Validate(s);
    if !IsAuthority(s.members, author) then Err(Invalid(InvalidTransition))
    else
      var edited :- Edit(s.members, op);
      if s.epoch + 1 > MAX_SAFE_INTEGER then Err(Invalid(BoundExceeded))
      else
        var next := GroupState(
          s.group, s.epoch + 1, Some(Digest(s)), Sorted(edited),
          TransitionOf(s.group, Digest(s), s.epoch + 1, author, op));
        var _ :- Validate(next);
        Ok(next)
  }

  // ---- Projections ----

  datatype ProjectionId = IdOf(state: GroupDigest, message: nat, recipient: nat) | OtherId(id: nat)

  datatype Projection = Projection(id: ProjectionId, message: nat, state: GroupDigest, recipient: nat, payload: seq<int>)

  function Others(members: seq<Member>, sender: nat): seq<Member> {
    Retained(members, sender)
  }

  function ProjectTo(members: seq<Member>, state: GroupDigest, message: nat, payload: seq<int>): (r: seq<Projection>)
    ensures |r| == |members|
    ensures forall i | 0 <= i < |r| ::
              r[i] == Projection(
                IdOf(state, message, members[i].endpoint), message, state, members[i].endpoint, payload)
  {
    if members == [] then []
    else
      [Projection(IdOf(state, message, members[0].endpoint), message, state, members[0].endpoint, payload)]
      + ProjectTo(members[1..], state, message, payload)
  }

  function Projections(s: GroupState, message: nat, sender: nat, payload: seq<int>): Result<seq<Projection>> {
    var _ :- Validate(s);
    if |payload| > MAX_GROUP_PAYLOAD_BYTES then Err(Invalid(BoundExceeded))
    else if RoleOf(s.members, sender).None? then Err(Invalid(InvalidTransition))
    else if |Others(s.members, sender)| > MAX_GROUP_PROJECTIONS then Err(Invalid(BoundExceeded))
    else Ok(ProjectTo(Others(s.members, sender), Digest(s), message, payload))
  }

  // ---- Results ----

  datatype Outcome = Pending | Delivered | Rejected | Failed

  datatype Authority = EndpointConfirmation | NoAuthority

  datatype GroupResult = GroupResult(
    projection: ProjectionId, recipient: nat, outcome: Outcome, failureCode: Option<nat>, authority: Authority)

  datatype AggregateOutcome = Complete | Partial | AllFailed

  datatype Aggregate = Aggregate(outcome: AggregateOutcome, pending: nat, delivered: nat, rejected: nat, failed: nat)

  predicate Increasing(recipients: seq<nat>) {
    |recipients| >= 2 ==> recipients[0] < recipients[1] && Increasing(recipients[1..])
  }

  function Each<T, U>(s: seq<T>, f: T -> U): (r: seq<U>)
    ensures |r| == |s| && forall i | 0 <= i < |r| :: r[i] == f(s[i])
  {
    if s == [] then [] else [f(s[0])] + Each(s[1..], f)
  }

  function RecipientsOf(projections: seq<Projection>): seq<nat> {
    Each(projections, (p: Projection) => p.recipient)
  }

  function ResultRecipients(results: seq<GroupResult>): seq<nat> {
    Each(results, (r: GroupResult) => r.recipient)
  }

  function IdsOf(projections: seq<Projection>): seq<ProjectionId> {
    Each(projections, (p: Projection) => p.id)
  }

  function ResultIds(results: seq<GroupResult>): seq<ProjectionId> {
    Each(results, (r: GroupResult) => r.projection)
  }

  function CheckUnique(ids: seq<ProjectionId>, seen: set<ProjectionId>): Result<()> {
    if ids == [] then Ok(())
    else if |seen| == MAX_GROUP_PROJECTIONS then Err(Invalid(BoundExceeded))
    else if ids[0] in seen then Err(Invalid(InvalidRepresentation))
    else CheckUnique(ids[1..], seen + {ids[0]})
  }

  method RunCheckUnique(ids: seq<ProjectionId>) returns (r: Result<()>)
    ensures r == CheckUnique(ids, {})
  {
    var seen: set<ProjectionId> := {};
    for i := 0 to |ids|
      invariant CheckUnique(ids, {}) == CheckUnique(ids[i..], seen)
    {
      assert ids[i..][1..] == ids[i + 1..];
      if |seen| == MAX_GROUP_PROJECTIONS {
        return Err(Invalid(BoundExceeded));
      }
      if ids[i] in seen {
        return Err(Invalid(InvalidRepresentation));
      }
      seen := seen + {ids[i]};
    }
    return Ok(());
  }

  /** The projection expected for a recipient. */
  function ExpectedFor(projections: seq<Projection>, recipient: nat): Option<ProjectionId> {
    if projections == [] then None
    else if projections[0].recipient == recipient then Some(projections[0].id)
    else ExpectedFor(projections[1..], recipient)
  }

  predicate ResultOk(result: GroupResult) {
    && (result.outcome.Rejected? || result.outcome.Failed?) == result.failureCode.Some?
    && (result.failureCode.Some? ==> result.failureCode.value <= MAX_FAILURE_CODE)
    && (result.outcome.Pending? ==> result.authority.NoAuthority?)
    && (result.outcome.Delivered? ==> result.authority.EndpointConfirmation?)
  }

  function CheckResults(projections: seq<Projection>, results: seq<GroupResult>): Result<()> {
    if results == [] then Ok(())
    else if ExpectedFor(projections, results[0].recipient) != Some(results[0].projection)
    then Err(Invalid(InvalidTransition))
    else if !ResultOk(results[0]) then Err(Invalid(InvalidRepresentation))
    else CheckResults(projections, results[1..])
  }

  function CheckAggregation(projections: seq<Projection>, results: seq<GroupResult>): Result<()> {
    if projections == [] || |projections| > MAX_GROUP_PROJECTIONS || results == [] || |results| > MAX_GROUP_PROJECTIONS
    then Err(Invalid(BoundExceeded))
    else if !Increasing(RecipientsOf(projections)) || !Increasing(ResultRecipients(results))
    then Err(Invalid(InvalidRepresentation))
    else
      var _ :- CheckUnique(IdsOf(projections), {});
      var _ :- CheckUnique(ResultIds(results), {});
      CheckResults(projections, results)
  }

  function Count(results: seq<GroupResult>, outcome: Outcome): nat {
    if results == [] then 0 else Count(results[1..], outcome) + if results[0].outcome == outcome then 1 else 0
  }

  /** What the counts of accepted results come to. */
  function Verdict(projections: nat, pending: nat, delivered: nat): AggregateOutcome {
    if delivered == projections then Complete
    else if delivered == 0 && pending == 0 then AllFailed
    else Partial
  }

  // ---- Why the subtraction in the aggregation is safe ----

  lemma {:induction false} IncreasingMembers(recipients: seq<nat>)
    requires Increasing(recipients)
    ensures forall i | 0 < i < |recipients| :: recipients[0] < recipients[i]
  {
    if |recipients| >= 2 {
      IncreasingMembers(recipients[1..]);
      assert forall i | 0 < i < |recipients| :: recipients[i] == recipients[1..][i - 1];
    }
  }

  function Distinct(recipients: seq<nat>): set<nat> {
    if recipients == [] then {} else {recipients[0]} + Distinct(recipients[1..])
  }

  lemma {:induction false} IncreasingCardinality(recipients: seq<nat>)
    requires Increasing(recipients)
    ensures |Distinct(recipients)| == |recipients|
    ensures forall n :: n in Distinct(recipients) <==> n in recipients
  {
    if recipients != [] {
      assert Increasing(recipients[1..]);
      IncreasingMembers(recipients);
      IncreasingCardinality(recipients[1..]);
      assert recipients == [recipients[0]] + recipients[1..];
      assert recipients[0] !in recipients[1..];
    }
  }

  lemma {:induction false} ExpectedIsARecipient(projections: seq<Projection>, recipient: nat)
    ensures ExpectedFor(projections, recipient).Some? ==> recipient in RecipientsOf(projections)
  {
    if projections != [] && projections[0].recipient != recipient {
      ExpectedIsARecipient(projections[1..], recipient);
    }
  }

  lemma {:induction false} CheckedResultsAreExpected(projections: seq<Projection>, results: seq<GroupResult>)
    requires CheckResults(projections, results).Ok?
    ensures forall n | n in ResultRecipients(results) :: n in RecipientsOf(projections)
  {
    if results != [] {
      ExpectedIsARecipient(projections, results[0].recipient);
      CheckedResultsAreExpected(projections, results[1..]);
    }
  }

  /** Accepted results inject into the projections: there are no more of them. */
  lemma ResultsInjectIntoProjections(projections: seq<Projection>, results: seq<GroupResult>)
    requires CheckAggregation(projections, results).Ok?
    ensures |results| <= |projections|
  {
    var x, y := ResultRecipients(results), RecipientsOf(projections);
    IncreasingCardinality(x);
    IncreasingCardinality(y);
    CheckedResultsAreExpected(projections, results);
    SubsetSize(Distinct(x), Distinct(y));
  }

  // ---- What the counts say of the results ----

  /** What the results report of a recipient; one without a result is pending. */
  predicate Reports(results: seq<GroupResult>, recipient: nat, outcome: Outcome) {
    || (exists x | x in results :: x.recipient == recipient && x.outcome == outcome)
    || (outcome.Pending? && forall x | x in results :: x.recipient != recipient)
  }

  function RecipientsWith(projections: seq<Projection>, results: seq<GroupResult>, outcome: Outcome): set<nat> {
    set n | n in RecipientsOf(projections) && Reports(results, n, outcome)
  }

  function Reported(results: seq<GroupResult>, outcome: Outcome): set<nat> {
    if results == [] then {}
    else Reported(results[1..], outcome) + if results[0].outcome == outcome then {results[0].recipient} else {}
  }

  lemma {:induction false} ReportedAre(results: seq<GroupResult>, outcome: Outcome, n: nat)
    ensures n in Reported(results, outcome) <==> exists x | x in results :: x.recipient == n && x.outcome == outcome
  {
    if results != [] {
      ReportedAre(results[1..], outcome, n);
      assert results == [results[0]] + results[1..];
    }
  }

  lemma {:induction false} CountIsReported(results: seq<GroupResult>, outcome: Outcome)
    requires Increasing(ResultRecipients(results))
    ensures |Reported(results, outcome)| == Count(results, outcome)
  {
    hide Increasing, ResultRecipients;
    if results != [] {
      FirstRecipient(results);
      ReportedAreRecipients(results[1..], outcome);
      CountIsReported(results[1..], outcome);
    }
  }

  lemma FirstRecipient(results: seq<GroupResult>)
    requires results != [] && Increasing(ResultRecipients(results))
    ensures Increasing(ResultRecipients(results[1..])) && results[0].recipient !in ResultRecipients(results[1..])
  {
    assert ResultRecipients(results)[1..] == ResultRecipients(results[1..]);
    IncreasingMembers(ResultRecipients(results));
  }

  lemma {:induction false} ReportedAreRecipients(results: seq<GroupResult>, outcome: Outcome)
    ensures forall n | n in Reported(results, outcome) :: n in ResultRecipients(results)
  {
    if results != [] {
      ReportedAreRecipients(results[1..], outcome);
      assert ResultRecipients(results) == [results[0].recipient] + ResultRecipients(results[1..]);
    }
  }

  lemma ResultRecipientsAre(results: seq<GroupResult>, recipient: nat)
    ensures recipient in ResultRecipients(results) <==> exists x | x in results :: x.recipient == recipient
  {
    forall i | 0 <= i < |results|
      ensures results[i].recipient in ResultRecipients(results)
    {
      assert ResultRecipients(results)[i] == results[i].recipient;
    }
  }

  function Missing(projections: seq<Projection>, results: seq<GroupResult>): set<nat> {
    set n | n in RecipientsOf(projections) && n !in ResultRecipients(results)
  }

  /** Which recipients are counted: those with a result of the outcome and, as pending, those without any. */
  lemma RecipientsWithAre(projections: seq<Projection>, results: seq<GroupResult>, outcome: Outcome)
    requires forall n | n in ResultRecipients(results) :: n in RecipientsOf(projections)
    ensures RecipientsWith(projections, results, outcome) ==
            Reported(results, outcome)
            + if outcome.Pending? then Missing(projections, results) else {}
  {
    forall n: nat
      ensures n in Reported(results, outcome) <==> exists x | x in results :: x.recipient == n && x.outcome == outcome
      ensures n in ResultRecipients(results) <==> exists x | x in results :: x.recipient == n
    {
      ReportedAre(results, outcome, n);
      ResultRecipientsAre(results, n);
    }
  }

  lemma MissingCount(projections: seq<Projection>, results: seq<GroupResult>)
    requires Increasing(RecipientsOf(projections)) && Increasing(ResultRecipients(results))
    requires forall n | n in ResultRecipients(results) :: n in RecipientsOf(projections)
    ensures |Missing(projections, results)| == |projections| - |results|
  {
    var x, y := ResultRecipients(results), RecipientsOf(projections);
    IncreasingCardinality(x);
    IncreasingCardinality(y);
    assert Missing(projections, results) == Distinct(y) - Distinct(x) && Distinct(x) <= Distinct(y);
  }

  /** Every count is the number of recipients of whom the results report the outcome. */
  lemma CountsAreRecipients(projections: seq<Projection>, results: seq<GroupResult>, outcome: Outcome)
    requires CheckAggregation(projections, results).Ok?
    ensures |RecipientsWith(projections, results, outcome)| ==
            Count(results, outcome) + if outcome.Pending? then |projections| - |results| else 0
  {
    CheckedResultsAreExpected(projections, results);
    MissingCount(projections, results);
    RecipientsWithAre(projections, results, outcome);
    CountIsReported(results, outcome);
    ReportedAreRecipients(results, outcome);
    assert Missing(projections, results) !! Reported(results, outcome);
  }

  /** A count reaches the number of projections, or zero, exactly if the outcome is reported of all recipients, or of none. */
  lemma CountsReach(projections: seq<Projection>, results: seq<GroupResult>, outcome: Outcome)
    requires Increasing(RecipientsOf(projections))
    ensures |RecipientsWith(projections, results, outcome)| == |projections| <==>
            forall n | n in RecipientsOf(projections) :: Reports(results, n, outcome)
    ensures |RecipientsWith(projections, results, outcome)| == 0 <==>
            forall n | n in RecipientsOf(projections) :: !Reports(results, n, outcome)
  {
    hide Reports;
    var all, counted := Distinct(RecipientsOf(projections)), RecipientsWith(projections, results, outcome);
    IncreasingCardinality(RecipientsOf(projections));
    assert counted <= all;
    if |counted| == |projections| {
      SameSize(counted, all);
    }
    assert (forall n | n in RecipientsOf(projections) :: Reports(results, n, outcome)) ==> counted == all;
  }

  method RunAggregate(projections: seq<Projection>, results: seq<GroupResult>) returns (r: Result<Aggregate>)
    ensures CheckAggregation(projections, results).Err? ==> r == Err(CheckAggregation(projections, results).error)
    ensures CheckAggregation(projections, results).Ok? ==>
              && r.Ok? && |results| <= |projections|
              && r.value.pending + r.value.delivered + r.value.rejected + r.value.failed == |projections|
              && r.value.pending == |RecipientsWith(projections, results, Pending)|
              && r.value.delivered == |RecipientsWith(projections, results, Delivered)|
              && r.value.rejected == |RecipientsWith(projections, results, Rejected)|
              && r.value.failed == |RecipientsWith(projections, results, Failed)|
              && (r.value.outcome.Complete? <==>
                    forall n | n in RecipientsOf(projections) :: Reports(results, n, Delivered))
              && (r.value.outcome.AllFailed? <==>
                    forall n | n in RecipientsOf(projections) ::
                      !Reports(results, n, Delivered) && !Reports(results, n, Pending))
  {
    var checked := CheckAggregation(projections, results);
    if checked.Err? {
      return Err(checked.error);
    }
    ResultsInjectIntoProjections(projections, results);
    var pending: nat := |projections| - |results|;
    var delivered: nat, rejected: nat, failed: nat := 0, 0, 0;
    for i := 0 to |results|
      invariant pending + Count(results[i..], Pending) == |projections| - |results| + Count(results, Pending)
      invariant delivered + Count(results[i..], Delivered) == Count(results, Delivered)
      invariant rejected + Count(results[i..], Rejected) == Count(results, Rejected)
      invariant failed + Count(results[i..], Failed) == Count(results, Failed)
      invariant pending + delivered + rejected + failed == |projections| - |results| + i
    {
      assert results[i..][1..] == results[i + 1..];
      match results[i].outcome
      case Pending => pending := pending + 1;
      case Delivered => delivered := delivered + 1;
      case Rejected => rejected := rejected + 1;
      case Failed => failed := failed + 1;
    }
    CountsAreRecipients(projections, results, Pending);
    CountsAreRecipients(projections, results, Delivered);
    CountsAreRecipients(projections, results, Rejected);
    CountsAreRecipients(projections, results, Failed);
    CountsReach(projections, results, Pending);
    CountsReach(projections, results, Delivered);
    return Ok(Aggregate(Verdict(|projections|, pending, delivered), pending, delivered, rejected, failed));
  }
}

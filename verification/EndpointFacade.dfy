/**
 The Endpoint's methods as they run against a store that may refuse a swap, apply it and
 lose the reply, or let rivals in at every point (src/state/mod.rs:452-468). A method is
 right when whatever it did was a run of moves, and when what it reports is what happened.
 */
module EndpointFacade {
  import opened Errors
  import opened Symbolic
  import opened State
  import opened Endpoint
  import opened EndpointRuns
  import opened EndpointTheorems
  import opened EndpointPaths

  /** What goes wrong, and what others do, around one call. */
  datatype Weather = Weather(
    loadFault: Option<Error>,      // the first load fails
    planning: seq<Move>,           // what happens between the load and the questions to custody
    answering: set<Token>,         // the tokens custody answers for
    before: seq<Move>,             // what happens between planning and the swap
    refusal: Option<Error>,        // the swap fails before applying anything
    after: seq<Move>,              // what happens between applying and the reply
    lostReply: Option<Error>,      // the swap was applied but reports a failure
    meanwhile: seq<Move>,          // what happens between the reply and the reload
    reloadFault: Option<Error>)    // the reload fails

  predicate OnlyRivals(w: Weather) {
    ByRivals(w.planning) && ByRivals(w.before) && ByRivals(w.after) && ByRivals(w.meanwhile)
  }

  /** Nobody else uses the handle during the call. */
  predicate Leaves(w: Weather, token: Token) {
    AllSpare(w.planning, token) && AllSpare(w.before, token) && AllSpare(w.after, token) && AllSpare(w.meanwhile, token)
  }

  function Answers(keys: Custody, answering: set<Token>): Custody {
    map token | token in keys && token in answering :: keys[token]
  }

  /** What is on record of a backend stays on record. */
  predicate Grows(x: Backend, y: Backend) {
    && x.history <= y.history && x.authors <= y.authors
    && x.adopted <= y.adopted && x.aborted <= y.aborted && x.handed <= y.handed
  }

  ghost predicate Evolves(line: LineIds, x: Backend, y: Backend)
    requires Fits(x)
  {
    Grows(x, y) && exists moves :: y == Run(line, x, moves)
  }

  lemma StepGrows(line: LineIds, b: Backend, move: Move)
    requires Fits(b)
    ensures Grows(b, Step(line, b, move))
  {
    hide Plan, Effective, ApplyMutations;
  }

  lemma {:induction false} RunGrows(line: LineIds, b: Backend, moves: seq<Move>)
    requires Fits(b)
    ensures Grows(b, Run(line, b, moves))
    decreases |moves|
  {
    hide Step;
    if moves != [] {
      StepGrows(line, b, moves[0]);
      RunGrows(line, Step(line, b, moves[0]), moves[1..]);
    }
  }

  lemma EvolvesBy(line: LineIds, x: Backend, moves: seq<Move>)
    requires Fits(x)
    ensures Evolves(line, x, Run(line, x, moves))
  {
    hide Run, Grows;
    RunGrows(line, x, moves);
  }

  lemma EvolvesNowhere(line: LineIds, b: Backend)
    requires Fits(b)
    ensures Run(line, b, []) == b && Evolves(line, b, b)
  {
  }

  lemma EvolvesGrows(line: LineIds, x: Backend, y: Backend)
    requires Fits(x) && Evolves(line, x, y)
    ensures Grows(x, y)
  {
  }

  lemma EvolvesInTurn(line: LineIds, x: Backend, y: Backend, z: Backend)
    requires Fits(x) && Fits(y) && Evolves(line, x, y) && Evolves(line, y, z)
    ensures Evolves(line, x, z)
  {
    hide Run;
    var xs :| y == Run(line, x, xs);
    var ys :| z == Run(line, y, ys);
    RunComposes(line, x, xs, ys);
    assert z == Run(line, x, xs + ys);
  }

  lemma EvolvesByOne(line: LineIds, x: Backend, move: Move)
    requires Fits(x)
    ensures Evolves(line, x, Step(line, x, move))
  {
    hide Step;
    EvolvesBy(line, x, [move]);
    assert Run(line, x, [move]) == Step(line, x, move) by {
      assert Run(line, Step(line, x, move), []) == Step(line, x, move);
    }
  }

  /** Revisions number the history, and every revision but the last was moved on from. */
  predicate Numbered(b: Backend) {
    Fits(b) && |b.authors| == |b.history| - 1 == Current(b).revision
  }

  lemma InvNumbers(line: LineIds, b: Backend)
    requires Inv(line, b)
    ensures Numbered(b)
  {
  }

  /** What becomes of a staged handle that nobody else uses, given whether our own commit was applied. */
  ghost predicate HandleFates(x: Backend, y: Backend, w: Weather, applied: bool, ms: seq<KeyMutation>) {
    forall token: Token, purpose: Purpose | Leaves(w, token) && StagedAs(x.keys, token, purpose) ::
      if applied && Adopt(purpose, token) in ms then token in y.adopted else StagedAs(y.keys, token, purpose)
  }

  /** A staged handle that the moves leave alone stays staged. */
  ghost predicate KeepsHandles(x: Backend, y: Backend, moves: seq<Move>) {
    forall token: Token, purpose: Purpose | AllSpare(moves, token) && StagedAs(x.keys, token, purpose) ::
      StagedAs(y.keys, token, purpose)
  }

  lemma FatesStay(x: Backend, y: Backend, z: Backend, w: Weather, applied: bool, ms: seq<KeyMutation>)
    requires HandleFates(x, y, w, applied, ms) && KeepsHandles(y, z, w.meanwhile) && y.adopted <= z.adopted
    ensures HandleFates(x, z, w, applied, ms)
  {
    hide AllSpare, StagedAs;
  }

  /** The backend applies a commit: nothing refuses, nobody moved on, custody holds what it names. */
  predicate SwapTakes(b: Backend, expected: nat, commit: Commit<Phase>, w: Weather)
    requires Fits(b)
  {
    w.refusal.None? && Applicable(Current(b), b.keys, expected, commit)
  }

  function SwapRefusal(b: Backend, expected: nat, commit: Commit<Phase>, w: Weather): Error
    requires Fits(b)
  {
    if w.refusal.Some? then w.refusal.value
    else if Current(b).revision != expected then Terminal(Conflict, Stage.Commit)
    else if !MutationsValid(b.keys, commit.keyMutations) then Terminal(ProviderFailure, Stage.Commit)
    else Terminal(BoundExceeded, Stage.Commit)
  }

  predicate SettleTakes(b: Backend, expected: nat, id: PendingId, w: Weather)
    requires Fits(b)
  {
    w.refusal.None? && Current(b).revision == expected && Find(Current(b).pending, id).Some? && Successor(expected).Ok?
  }

  /** The coupled state and custody backend. */
  class Store {
    const line: LineIds
    var b: Backend

    ghost predicate Valid()
      reads this
    {
      Numbered(b) && Inv(line, b)
    }

    constructor (line: LineIds, phase: Phase)
      requires IsInitial(phase)
      ensures Valid() && this.line == line && b == Start(phase)
    {
      this.line := line;
      b := Start(phase);
      new;
      StartIsSound(line, phase);
    }

    method Load(fault: Option<Error>) returns (r: Result<Snapshot>)
      requires Valid()
      ensures r == if fault.Some? then Err(fault.value) else Ok(Current(b))
    {
      if fault.Some? {
        return Err(fault.value);
      }
      return Ok(Current(b));
    }

    /** Others act. */
    method Elapse(moves: seq<Move>)
      requires Valid() && ByRivals(moves)
      modifies this
      ensures Valid() && b == Run(line, old(b), moves) && Evolves(line, old(b), b)
      ensures forall r: nat :: Applied(b, r) <==> Applied(old(b), r)
      ensures KeepsHandles(old(b), b, moves)
    {
      hide Inv, Run, StagedAs, Applied, ByRivals, AllSpare, Grows;
      RunKeepsInv(line, b, moves);
      InvNumbers(line, Run(line, b, moves));
      EvolvesBy(line, b, moves);
      forall r: nat
        ensures Applied(Run(line, b, moves), r) <==> Applied(b, r)
      {
        RivalsAreNotOwn(line, b, moves, r);
      }
      forall token: Token, purpose: Purpose | AllSpare(moves, token) && StagedAs(b.keys, token, purpose)
        ensures StagedAs(Run(line, b, moves).keys, token, purpose)
      {
        RunSpares(line, b, moves, token, purpose);
      }
      b := Run(line, b, moves);
    }

    method AbortStaged(token: Token, purpose: Purpose)
      requires Valid()
      modifies this
      ensures Valid() && Evolves(line, old(b), b) && b == AfterAborting(old(b), token, purpose)
    {
      hide Inv;
      AbortKeepsInv(line, b, token, purpose);
      InvNumbers(line, AfterAborting(b, token, purpose));
      EvolvesByOne(line, b, Abort(token, purpose));
      b := AfterAborting(b, token, purpose);
    }

    /**
     Old or new: applies the whole commit at the expected revision and advances by one, or
     applies nothing; a failure may come before or after applying. The reply shows the
     revision the backend is at by then.
     */
    method CompareAndSwap(expected: nat, commit: Commit<Phase>, w: Weather, ghost seen: Custody, ghost op: Operation)
      returns (r: Result<nat>)
      requires Valid() && OnlyRivals(w) && expected < |b.history| && !Applied(b, expected)
      requires Plan(line, seen, b.history[expected], op).Ok?
      requires Plan(line, seen, b.history[expected], op).value.Change?
      requires CommitOf(Plan(line, seen, b.history[expected], op).value) == Ok(commit)
      modifies this
      ensures Valid() && Evolves(line, old(b), b)
      ensures Applied(b, expected) <==> SwapTakes(Run(line, old(b), w.before), expected, commit, w)
      ensures Applied(b, expected) ==>
                && b == Run(line, Apply(Run(line, old(b), w.before), Own, commit), w.after)
                && r == (if w.lostReply.Some? then Err(w.lostReply.value) else Ok(Current(b).revision))
                && |b.history| > expected + 1 && b.history[expected + 1] == IntoVersioned(commit, expected)
      ensures !Applied(b, expected) ==>
                && b == Run(line, old(b), w.before)
                && r == Err(SwapRefusal(b, expected, commit, w))
      ensures HandleFates(old(b), b, w, Applied(b, expected), commit.keyMutations)
    {
      hide Plan, Run, Inv, CommitOf, StagedAs, AllSpare, ByRivals, MutationsValid;
      ghost var b0 := b;
      Elapse(w.before);
      ghost var b1 := b;
      if w.refusal.Some? {
        return Err(w.refusal.value);
      }
      if Current(b).revision != expected {
        return Err(Terminal(Conflict, Stage.Commit));
      }
      if !MutationsValid(b.keys, commit.keyMutations) {
        return Err(Terminal(ProviderFailure, Stage.Commit));
      }
      var successor :- Successor(expected);
      SwapIsAMove(line, b1, seen, op, commit);
      b := Apply(b, Own, commit);
      ghost var b2 := b;
      StepKeepsInv(line, b1, Perform(Own, seen, op));
      InvNumbers(line, b2);
      EvolvesByOne(line, b1, Perform(Own, seen, op));
      EvolvesInTurn(line, b0, b1, b2);
      SwapSettlesHandles(b1, b2, commit);
      Elapse(w.after);
      EvolvesInTurn(line, b0, b2, b);
      if w.lostReply.Some? {
        return Err(w.lostReply.value);
      }
      return Ok(Current(b).revision);
    }

    /** The caller's boundary is shown one item of a committed snapshot; it may fail before or after taking it. */
    method HandOverItem(revision: nat, item: PendingItem)
      requires Valid() && revision < |b.history| && item in b.history[revision].pending
      modifies this
      ensures Valid() && Evolves(line, old(b), b) && b == old(b).(handed := old(b).handed + {item})
    {
      hide Inv, Plan, Effective, Run;
      assert Step(line, b, HandOver(revision, item)) == b.(handed := b.handed + {item});
      hide Step;
      HandOverKeepsInv(line, b, revision, item);
      InvNumbers(line, Step(line, b, HandOver(revision, item)));
      EvolvesByOne(line, b, HandOver(revision, item));
      b := b.(handed := b.handed + {item});
    }

    /** Removes one pending item at the expected revision and advances by one, or does nothing. */
    method SettleItem(expected: nat, id: PendingId, w: Weather) returns (r: Result<nat>)
      requires Valid() && OnlyRivals(w)
      modifies this
      ensures Valid() && Evolves(line, old(b), b)
      ensures var reached := Run(line, old(b), w.before);
              if SettleTakes(reached, expected, id, w) then
                && b == Run(line, AfterSettling(reached, Own, id), w.after) && Applied(b, expected)
                && r == (if w.lostReply.Some? then Err(w.lostReply.value) else Ok(Current(b).revision))
                && |b.history| > expected + 1
                && b.history[expected + 1]
                   == Versioned(expected + 1, b.history[expected].state, WithoutId(b.history[expected].pending, id))
              else b == reached && r.Err?
    {
      hide Run, Inv, AllSpare, ByRivals, Plan, Evolves, KeepsHandles, WithoutId;
      ghost var b0 := b;
      Elapse(w.before);
      ghost var b1 := b;
      if w.refusal.Some? {
        return Err(w.refusal.value);
      }
      if Current(b).revision != expected {
        return Err(Terminal(Conflict, Stage.Commit));
      }
      if Find(Current(b).pending, id).None? {
        return Err(Terminal(InvalidTransition, Stage.Commit));
      }
      var successor :- Successor(expected);
      b := AfterSettling(b, Own, id);
      ghost var b2 := b;
      SettlingIsAMove(line, b1, id);
      EvolvesInTurn(line, b0, b1, b2);
      Elapse(w.after);
      EvolvesInTurn(line, b0, b2, b);
      EvolvesGrows(line, b2, b);
      if w.lostReply.Some? {
        return Err(w.lostReply.value);
      }
      return Ok(Current(b).revision);
    }
  }

  lemma SettlingIsAMove(line: LineIds, b: Backend, id: PendingId)
    requires Numbered(b) && Inv(line, b)
    ensures var next := AfterSettling(b, Own, id);
            Numbered(next) && Inv(line, next) && Evolves(line, b, next)
  {
    hide Inv, Run, Plan, Effective, Evolves;
    StepKeepsInv(line, b, Settle(Own, id));
    EvolvesByOne(line, b, Settle(Own, id));
    hide AfterSettling;
    InvNumbers(line, AfterSettling(b, Own, id));
  }

  lemma SwapIsAMove(line: LineIds, b: Backend, seen: Custody, op: Operation, commit: Commit<Phase>)
    requires Fits(b) && Plan(line, seen, Current(b), op).Ok? && Plan(line, seen, Current(b), op).value.Change?
    requires CommitOf(Plan(line, seen, Current(b), op).value) == Ok(commit)
    requires MutationsValid(b.keys, commit.keyMutations) && Successor(Current(b).revision).Ok?
    ensures Step(line, b, Perform(Own, seen, op)) == Apply(b, Own, commit)
    ensures DistinctTokens(commit.keyMutations)
  {
    hide Plan;
  }

  lemma SwapSettlesHandles(b: Backend, next: Backend, commit: Commit<Phase>)
    requires Fits(b) && next == Apply(b, Own, commit)
    requires MutationsValid(b.keys, commit.keyMutations) && DistinctTokens(commit.keyMutations)
    ensures forall token: Token, purpose: Purpose | StagedAs(b.keys, token, purpose) ::
              if Adopt(purpose, token) in commit.keyMutations then token in next.adopted
              else StagedAs(next.keys, token, purpose)
  {
    forall token: Token, purpose: Purpose | StagedAs(b.keys, token, purpose)
      ensures if Adopt(purpose, token) in commit.keyMutations then token in next.adopted
              else StagedAs(next.keys, token, purpose)
    {
      MutationsTakeEffect(b.keys, commit.keyMutations, token);
      AdoptionsWereStaged(b.keys, commit.keyMutations, token);
    }
  }
}

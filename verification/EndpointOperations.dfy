/** The Endpoint's operations: load, decide, commit, recover from doubt, and settle staged handles. */
module EndpointOperations {
  import opened Errors
  import opened Symbolic
  import opened State
  import opened Handshake
  import opened Endpoint
  import opened EndpointRuns
  import opened EndpointSafety
  import opened EndpointPaths
  import opened EndpointFacade
  import EndpointConversation

  /** The revision an operation starts from. */
  function Revision(b: Backend): nat
    requires Fits(b)
  {
    |b.history| - 1
  }

  /** The change is the snapshot at the next revision. */
  predicate Stands(b: Backend, revision: nat, change: Planned)
    requires change.Change?
  {
    |b.history| > revision + 1 && b.history[revision + 1] == Versioned(revision + 1, change.next, change.queue)
  }

  /** What an operation decides: the load may fail, and custody answers what it holds by the time it is asked. */
  function Decision(line: LineIds, x: Backend, op: Operation, w: Weather): Result<Planned>
    requires Fits(x)
  {
    if w.loadFault.Some? then Err(w.loadFault.value)
    else Plan(line, Answers(Run(line, x, w.planning).keys, w.answering), Current(x), op)
  }

  /** The operation gets as far as trying a commit. */
  predicate Attempts(line: LineIds, x: Backend, op: Operation, w: Weather)
    requires Fits(x)
  {
    Decision(line, x, op, w).Ok? && Decision(line, x, op, w).value.Change?
  }

  /**
   A staged handle is adopted, aborted, or left staged, and then only behind the retryable
   error of a commit that was attempted.
   */
  predicate Settled(
    x: Backend, y: Backend, token: Token, purpose: Purpose, adopts: bool, attempted: bool, error: Option<Error>)
  {
    StagedAs(x.keys, token, purpose) ==>
      match error
      case None => if adopts then token in y.adopted else token in y.aborted
      case Some(e) =>
        || token in y.aborted
        || (attempted && e.retryable && (token in y.adopted || StagedAs(y.keys, token, purpose)))
  }

  /** Nobody else moves during the call, and a reload works. */
  predicate Calm(w: Weather) {
    w.planning == [] && w.before == [] && w.after == [] && w.meanwhile == [] && w.reloadFault.None?
  }

  /** The backend applies the change as it stands. */
  predicate ChangeTakes(b: Backend, change: Planned, w: Weather)
    requires Fits(b) && change.Change?
  {
    && CommitOf(change).Ok? && Successor(Current(b).revision).Ok?
    && SwapTakes(b, Current(b).revision, CommitOf(change).value, w)
  }

  /** The backend by the time custody has answered. */
  function Deciding(line: LineIds, x: Backend, w: Weather): (r: Backend)
    requires Fits(x)
    ensures Fits(r)
  {
    if w.loadFault.Some? then x else Run(line, x, w.planning)
  }

  /** The planned snapshot is the last one, and the store's reply or the reload showed it. */
  predicate Shown(b: Backend, revision: nat, change: Planned, w: Weather)
    requires change.Change?
  {
    && CommitOf(change).Ok? && Successor(revision).Ok?
    && |b.history| == revision + 2 && Stands(b, revision, change)
    && (w.reloadFault.None? || (w.lostReply.None? && Applied(b, revision)))
  }

  /** Where a commit leaves the backend, whoever else moves around it. */
  function AfterCommit(line: LineIds, b: Backend, revision: nat, change: Planned, w: Weather): (r: Backend)
    requires Fits(b) && change.Change?
    ensures Fits(r)
  {
    if CommitOf(change).Err? || Successor(revision).Err? then b
    else
      var reached := Run(line, b, w.before);
      if !SwapTakes(reached, revision, CommitOf(change).value, w) then Run(line, reached, w.meanwhile)
      else
        var applied := Run(line, Apply(reached, Own, CommitOf(change).value), w.after);
        if w.lostReply.None? then applied else Run(line, applied, w.meanwhile)
  }

  /** What the reload makes of a failed swap, unless it shows the planned snapshot. */
  function Unrecovered(y: Backend, revision: nat, code: ErrorCode, w: Weather): Error {
    if w.reloadFault.Some? then Retryable(ProviderFailure, Stage.Commit)
    else if |y.history| == revision + 1 then Terminal(code, Stage.Commit)
    else if |y.history| == revision + 2 then Retryable(Conflict, Stage.Commit)
    else Retryable(ProviderFailure, Stage.Commit)
  }

  /** The error of a commit from `x` that ends at `y` and is not shown to stand. */
  function CommitFailure(line: LineIds, x: Backend, y: Backend, revision: nat, change: Planned, w: Weather): Error
    requires Fits(x) && change.Change?
  {
    if Successor(revision).Err? then Successor(revision).error
    else if CommitOf(change).Err? then CommitOf(change).error
    else
      var reached := Run(line, x, w.before);
      if !SwapTakes(reached, revision, CommitOf(change).value, w)
      then Unrecovered(y, revision, SwapRefusal(reached, revision, CommitOf(change).value, w).code, w)
      else if w.lostReply.Some? then Unrecovered(y, revision, w.lostReply.value.code, w)
      else Retryable(ProviderFailure, Stage.Commit)
  }

  /** Where an operation that stages nothing leaves the backend. */
  function Concluded(line: LineIds, x: Backend, op: Operation, w: Weather): Backend
    requires Fits(x)
  {
    var decided := Deciding(line, x, w);
    if Attempts(line, x, op, w) then AfterCommit(line, decided, Revision(x), Decision(line, x, op, w).value, w) else decided
  }

  /** With nobody else around, an error is final and success is the change applied, whether or not its reply was lost. */
  predicate Resolved(x: Backend, y: Backend, change: Planned, w: Weather, error: Option<Error>)
    requires Fits(x) && change.Change?
  {
    && (error.None? <==> ChangeTakes(x, change, w)) && (Applied(y, Revision(x)) <==> ChangeTakes(x, change, w))
    && (error.Some? ==> !error.value.retryable)
    && y.history == x.history + if error.None? then [Versioned(Revision(x) + 1, change.next, change.queue)] else []
  }

  /**
   What a tried commit reports is so: success when the planned snapshot was shown, a final
   error or a conflict only when nothing was applied, a final error when nothing has moved
   and the reload works, and no doubt at all when nobody else is around.
   */
  predicate Told(x: Backend, y: Backend, revision: nat, change: Planned, w: Weather, error: Option<Error>)
    requires Fits(x) && change.Change?
  {
    && (error.None? <==> Shown(y, revision, change, w))
    && (error.Some? && (!error.value.retryable || error.value.code == Conflict) ==> !Applied(y, revision))
    && (w.reloadFault.None? && |y.history| == revision + 1 ==> error.Some? && !error.value.retryable)
    && (Calm(w) && revision == Revision(x) ==> Resolved(x, y, change, w, error))
  }

  /** An operation has decided and, on a change, tried its commit; no staged handle of its own is settled yet. */
  ghost predicate Tried(line: LineIds, x: Backend, y: Backend, op: Operation, w: Weather, error: Option<Error>)
    requires Fits(x)
  {
    match Decision(line, x, op, w)
    case Err(e) => error == Some(e) && !Applied(y, Revision(x)) && HandleFates(x, y, w, false, [])
    case Ok(Answer(_)) => error.None? && !Applied(y, Revision(x)) && HandleFates(x, y, w, false, [])
    case Ok(Change(next, mutations, queue, answer)) =>
      && Told(x, y, Revision(x), Change(next, mutations, queue, answer), w, error)
      && HandleFates(x, y, w, Applied(y, Revision(x)), mutations)
  }

  /** What has become of a staged handle that nobody else uses, before the operation settles it. */
  predicate Held(
    line: LineIds, x: Backend, y: Backend, op: Operation, w: Weather, error: Option<Error>, token: Token, purpose: Purpose)
    requires Fits(x) && (error.None? ==> Decision(line, x, op, w).Ok?)
  {
    Leaves(w, token) && StagedAs(x.keys, token, purpose) ==>
      match error
      case Some(e) =>
        StagedAs(y.keys, token, purpose) || (Attempts(line, x, op, w) && e.retryable && token in y.adopted)
      case None =>
        if Attempts(line, x, op, w)
        then Reaches(Decision(line, x, op, w).value.next, token, purpose) ==> token in y.adopted
        else StagedAs(y.keys, token, purpose)
  }

  /** What an operation reports is what it decided and what became of its commit. */
  predicate Reported(
    line: LineIds, x: Backend, y: Backend, op: Operation, w: Weather, reply: Option<Reply>, error: Option<Error>)
    requires Fits(x)
  {
    && (reply.Some? <==> error.None?)
    && match Decision(line, x, op, w)
       case Err(e) => error == Some(e) && !Applied(y, Revision(x))
       case Ok(Answer(answer)) => reply == Some(answer) && !Applied(y, Revision(x))
       case Ok(Change(next, mutations, queue, answer)) =>
         (reply.Some? ==> reply.value == answer) && Told(x, y, Revision(x), Change(next, mutations, queue, answer), w, error)
  }

  /** Nobody else moves around a hand-over. */
  predicate Undisturbed(w: Weather) {
    w.planning == [] && w.before == [] && w.after == []
  }

  /** The item is handed over: it waits at the current revision and is of the kind the boundary takes. */
  predicate Drivable(b: Backend, revision: nat, item: PendingItem, plaintext: bool, w: Weather)
    requires Fits(b)
  {
    && w.reloadFault.None? && Current(b).revision == revision && item in Current(b).pending
    && item.kind.PlaintextOutput? == plaintext
  }

  /** With nobody else around: when the call succeeds, what it settles, and when the item still waits. */
  predicate Driven(
    x: Backend, y: Backend, revision: nat, item: PendingItem, plaintext: bool, boundaryFault: Option<Error>, w: Weather,
    error: Option<Error>)
    requires Fits(x)
  {
    var s := Current(x);
    var settles := Drivable(x, revision, item, plaintext, w) && boundaryFault.None? && w.refusal.None?
                   && Successor(revision).Ok?;
    && (error.None? <==> settles && w.lostReply.None?)
    && y.history == x.history + (if settles then [Versioned(revision + 1, s.state, WithoutId(s.pending, item.id))] else [])
    && (item in s.pending ==> (item in y.history[|y.history| - 1].pending <==> !settles))
  }

  function ErrorOf<T>(r: Result<T>): Option<Error> {
    match r
    case Ok(_) => None
    case Err(e) => Some(e)
  }

  /** Only our own commit can have put a handle that nobody else uses into a snapshot. */
  lemma AdoptionProvesOurCommit(
    line: LineIds, x: Backend, y: Backend, w: Weather, change: Planned, revision: nat, token: Token, purpose: Purpose)
    requires Inv(line, y) && change.Change? && Stands(y, revision, change) && Reaches(change.next, token, purpose)
    requires HandleFates(x, y, w, Applied(y, revision), change.mutations)
    requires Leaves(w, token) && StagedAs(x.keys, token, purpose)
    ensures Applied(y, revision)
  {
    hide HistoryInv, PhaseInv, CustodyInv, PacketsInv, Leaves, Applied;
    assert token in y.adopted;
  }

  class Operator {
    const store: Store

    constructor (store: Store)
      ensures this.store == store
    {
      this.store := store;
    }

    /** The recovery: what the reload shows decides what a failed swap is reported as. */
    method Recover(current: Snapshot, change: Planned, code: ErrorCode, w: Weather) returns (r: Result<()>)
      requires store.Valid() && OnlyRivals(w) && change.Change?
      requires current.revision < |store.b.history| && store.b.history[current.revision] == current
      requires Applied(store.b, current.revision) ==> Stands(store.b, current.revision, change)
      modifies store
      ensures store.Valid() && Evolves(store.line, old(store.b), store.b)
      ensures store.b == Run(store.line, old(store.b), w.meanwhile)
      ensures Applied(store.b, current.revision) <==> Applied(old(store.b), current.revision)
      ensures KeepsHandles(old(store.b), store.b, w.meanwhile)
      ensures r.Ok? <==>
                && w.reloadFault.None? && |store.b.history| == current.revision + 2
                && Stands(store.b, current.revision, change)
      ensures r.Err? && (!r.error.retryable || r.error.code == Conflict) ==> !Applied(store.b, current.revision)
      ensures w.reloadFault.None? && |store.b.history| == current.revision + 1 ==> r == Err(Terminal(code, Stage.Commit))
      ensures r.Err? ==> r.error == Unrecovered(store.b, current.revision, code, w)
    {
      hide Plan, Run, Inv, StagedAs, AllSpare, ByRivals;
      ghost var b0 := store.b;
      store.Elapse(w.meanwhile);
      var reloaded := store.Load(w.reloadFault);
      if reloaded.Err? {
        return Err(Retryable(ProviderFailure, Stage.Commit));
      }
      var observed := reloaded.value;
      if observed.revision == current.revision + 1 && observed.state == change.next && observed.pending == change.queue {
        return Ok(());
      }
      if observed.revision == current.revision && observed.state == current.state && observed.pending == current.pending {
        return Err(Terminal(code, Stage.Commit));
      }
      if observed.revision == current.revision + 1 {
        return Err(Retryable(Conflict, Stage.Commit));
      }
      return Err(Retryable(ProviderFailure, Stage.Commit));
    }

    /**
     The commit and its recovery. A terminal error, and every reported conflict, means that
     nothing was applied. Success means that the planned snapshot was shown to be the last
     one, whoever put it there: it is our own exactly when the store took the swap. When
     nobody else moves and the reload works, every doubt is resolved, lost replies included.
     */
    method CommitReplacingPending(
      current: Snapshot, change: Planned, w: Weather, ghost seen: Custody, ghost op: Operation)
      returns (r: Result<()>)
      requires store.Valid() && OnlyRivals(w)
      requires current.revision < |store.b.history| && store.b.history[current.revision] == current
      requires !Applied(store.b, current.revision)
      requires Plan(store.line, seen, current, op) == Ok(change) && change.Change?
      modifies store
      ensures store.Valid() && Evolves(store.line, old(store.b), store.b)
      ensures store.b == AfterCommit(store.line, old(store.b), current.revision, change, w)
      ensures Told(old(store.b), store.b, current.revision, change, w, ErrorOf(r))
      ensures Applied(store.b, current.revision) <==>
                && CommitOf(change).Ok? && Successor(current.revision).Ok?
                && SwapTakes(Run(store.line, old(store.b), w.before), current.revision, CommitOf(change).value, w)
      ensures HandleFates(old(store.b), store.b, w, Applied(store.b, current.revision), change.mutations)
      ensures r.Err? ==> r.error == CommitFailure(store.line, old(store.b), store.b, current.revision, change, w)
    {
      hide Plan, Run, Inv, ByRivals, HandleFates, KeepsHandles, SwapTakes, CommitOf, Calm, Resolved, Unrecovered;
      hide AfterCommit, Shown, Stands, Apply, SwapRefusal, MutationsValid, OnlyRivals;
      ghost var b0 := store.b;
      EvolvesNowhere(store.line, b0);
      HandlesStay(b0, w, change.mutations);
      CommitIsChange(change);
      var successor, commit := Successor(current.revision), CommitOf(change);
      if successor.Err? {
        r := Err(successor.error);
        CommitUntried(store.line, b0, current.revision, change, w);
      } else if commit.Err? {
        r := Err(commit.error);
        CommitUntried(store.line, b0, current.revision, change, w);
      } else {
        var swapped := store.CompareAndSwap(current.revision, commit.value, w, seen, op);
        ghost var b1 := store.b;
        assert Applied(b1, current.revision) ==> Stands(b1, current.revision, change) by {
          AppliedStands(b1, current.revision, change, commit.value);
        }
        if swapped.Ok? {
          r := if swapped.value == successor.value then Ok(()) else Err(Retryable(ProviderFailure, Stage.Commit));
        } else {
          r := Recover(current, change, swapped.error.code, w);
          EvolvesInTurn(store.line, b0, b1, store.b);
          FatesStay(b0, b1, store.b, w, Applied(b1, current.revision), change.mutations);
        }
        CommitTried(store.line, b0, b1, store.b, current.revision, change, w);
      }
      if current.revision == Revision(b0) {
        CalmCommit(store.line, b0, store.b, change, w, ErrorOf(r));
      }
    }

    /** What every operation does first: load, ask custody, decide. */
    method Decide(op: Operation, w: Weather)
      returns (r: Result<Planned>, current: Snapshot, ghost seen: Custody)
      requires store.Valid() && OnlyRivals(w)
      modifies store
      ensures store.Valid() && Evolves(store.line, old(store.b), store.b)
      ensures store.b == Deciding(store.line, old(store.b), w)
      ensures HandleFates(old(store.b), store.b, w, false, [])
      ensures !Applied(store.b, Revision(old(store.b)))
      ensures current == old(Current(store.b)) && current.revision == Revision(old(store.b))
      ensures current.revision < |store.b.history| && store.b.history[current.revision] == current
      ensures r == Decision(store.line, old(store.b), op, w)
      ensures r.Ok? ==> r == Plan(store.line, seen, current, op)
    {
      hide Plan, Run, Inv, StagedAs, AllSpare, ByRivals;
      ghost var b0 := store.b;
      EvolvesNowhere(store.line, b0);
      current := Current(store.b);
      seen := map[];
      var loaded := store.Load(w.loadFault);
      if loaded.Err? {
        return Err(loaded.error), current, seen;
      }
      current := loaded.value;
      store.Elapse(w.planning);
      var answers := Answers(store.b.keys, w.answering);
      seen := answers;
      r := Plan(store.line, answers, current, op);
    }

    /** Loads, decides and, on a change, commits: all there is to an operation that stages no handle. */
    method Conduct(op: Operation, w: Weather) returns (r: Result<Reply>, commitAttempted: bool)
      requires store.Valid() && OnlyRivals(w)
      modifies store
      ensures store.Valid() && Evolves(store.line, old(store.b), store.b)
      ensures store.b == Concluded(store.line, old(store.b), op, w)
      ensures commitAttempted == Attempts(store.line, old(store.b), op, w)
      ensures Reported(store.line, old(store.b), store.b, op, w, if r.Ok? then Some(r.value) else None, ErrorOf(r))
      ensures r.Ok? ==>
                Decision(store.line, old(store.b), op, w).Ok? && r.value == Decision(store.line, old(store.b), op, w).value.reply
      ensures forall token: Token, purpose: Purpose ::
                Held(store.line, old(store.b), store.b, op, w, ErrorOf(r), token, purpose)
      ensures commitAttempted && r.Err? ==>
                r.error == CommitFailure(store.line, Deciding(store.line, old(store.b), w), store.b, Revision(old(store.b)),
                                         Decision(store.line, old(store.b), op, w).value, w)
    {
      hide Plan, Run, Inv, HandleFates, ByRivals, Decision, Evolves, AfterCommit, Told, OnlyRivals, Deciding;
      hide Held, Reported, CommitFailure;
      ghost var b0 := store.b;
      var decided, current, seen := Decide(op, w);
      ghost var b1 := store.b;
      commitAttempted := decided.Ok? && decided.value.Change?;
      if decided.Err? {
        r := Err(decided.error);
      } else if decided.value.Answer? {
        r := Ok(decided.value.reply);
      } else {
        var committed := CommitReplacingPending(current, decided.value, w, seen, op);
        EvolvesInTurn(store.line, b0, b1, store.b);
        FatesInTurn(b0, b1, store.b, w, Applied(store.b, current.revision), decided.value.mutations);
        ToldOfDecided(store.line, b0, b1, store.b, current.revision, decided.value, w, ErrorOf(committed));
        r := if committed.Ok? then Ok(decided.value.reply) else Err(committed.error);
      }
      TriedIsReported(store.line, b0, store.b, op, w, r);
      assert forall token: Token, purpose: Purpose :: Held(store.line, b0, store.b, op, w, ErrorOf(r), token, purpose) by {
        SoundHolds(store.line, b0, store.b, op, w, ErrorOf(r));
      }
    }

    // ---- Responder ----

    method AdmitPrekey(op: Operation, w: Weather) returns (r: Result<PrekeyBundle>)
      requires store.Valid() && OnlyRivals(w) && op.AdmitPrekey?
      modifies store
      ensures store.Valid() && Evolves(store.line, old(store.b), store.b)
      ensures Reported(store.line, old(store.b), store.b, op, w, if r.Ok? then Some(BundleReply(r.value)) else None, ErrorOf(r))
      ensures r.Ok? ==>
                var next := Revision(old(store.b)) + 1;
                && |store.b.history| > next && store.b.history[next].state.ResponderReady?
                && op.pairSequence in store.b.history[next].state.active
                && store.b.history[next].state.active[op.pairSequence] == ActivePrekey(r.value, op.x25519, op.mlKem)
      ensures Leaves(w, op.x25519) ==>
                Settled(old(store.b), store.b, op.x25519, X25519Private, true,
                        Attempts(store.line, old(store.b), op, w), ErrorOf(r))
      ensures Leaves(w, op.mlKem) ==>
                Settled(old(store.b), store.b, op.mlKem, MlKem768Private, true,
                        Attempts(store.line, old(store.b), op, w), ErrorOf(r))
    {
      hide Plan, Run, Inv, ByRivals, Decision, Evolves, OnlyRivals, StagedAs, Leaves, Reported, Held, Settled, Reaches;
      hide Concluded, AfterAborting;
      ghost var b0 := store.b;
      var conducted, commitAttempted := Conduct(op, w);
      ghost var b1 := store.b;
      if conducted.Ok? {
        AdmissionShape(store.line, b0, op, w);
        ReportedStands(store.line, b0, b1, op, w, conducted.value);
        r := Ok(conducted.value.bundle);
      } else {
        r := Err(conducted.error);
        if !commitAttempted || !conducted.error.retryable {
          store.AbortStaged(op.x25519, X25519Private);
          ghost var b2 := store.b;
          AbortSettles(b1, b2, op.x25519, X25519Private);
          EvolvesInTurn(store.line, b0, b1, b2);
          store.AbortStaged(op.mlKem, MlKem768Private);
          AbortSettles(b2, store.b, op.mlKem, MlKem768Private);
          EvolvesInTurn(store.line, b0, b2, store.b);
          ReportedOfRecord(store.line, b0, b1, store.b, op, w, None, ErrorOf(r));
        }
      }
      HeldIsSettled(store.line, b0, b1, store.b, op, w, ErrorOf(r), op.x25519, X25519Private, true);
      HeldIsSettled(store.line, b0, b1, store.b, op, w, ErrorOf(r), op.mlKem, MlKem768Private, true);
    }

    /** A conflict is final here: another first packet took the prekey, and ours was not applied. */
    method AcceptFirstPacket(op: Operation, w: Weather) returns (r: Result<SessionAccept>)
      requires store.Valid() && OnlyRivals(w) && op.AcceptFirstPacket?
      modifies store
      ensures store.Valid() && Evolves(store.line, old(store.b), store.b)
      ensures Reported(store.line, old(store.b), store.b, op, w, if r.Ok? then Some(AcceptReply(r.value)) else None, ErrorOf(r))
      ensures Attempts(store.line, old(store.b), op, w) && r.Err? ==>
                var failure := CommitFailure(
                  store.line, Deciding(store.line, old(store.b), w), store.b, Revision(old(store.b)),
                  Decision(store.line, old(store.b), op, w).value, w);
                r.error == if failure.code == Conflict then Terminal(PrekeyConsumed, Stage.Commit) else failure
    {
      hide Plan, Run, Inv, ByRivals, Decision, Evolves, OnlyRivals, Concluded, Reported, Held, CommitFailure;
      ghost var b0 := store.b;
      var conducted, commitAttempted := Conduct(op, w);
      if conducted.Err? {
        if commitAttempted && conducted.error.code == Conflict {
          ConflictIsFinal(store.line, b0, store.b, op, w, conducted.error, Terminal(PrekeyConsumed, Stage.Commit));
          return Err(Terminal(PrekeyConsumed, Stage.Commit));
        }
        return Err(conducted.error);
      }
      AcceptRepliesWithAccept(store.line, b0, op, w);
      return Ok(conducted.value.accept);
    }

    // ---- Initiator ----

    method CreateFirstPacket(op: Operation, w: Weather) returns (r: Result<FirstPacket>)
      requires store.Valid() && OnlyRivals(w) && op.CreateFirstPacket?
      modifies store
      ensures store.Valid() && Evolves(store.line, old(store.b), store.b)
      ensures Reported(store.line, old(store.b), store.b, op, w, if r.Ok? then Some(FirstPacketReply(r.value)) else None, ErrorOf(r))
      ensures Leaves(w, op.x25519) ==>
                Settled(old(store.b), store.b, op.x25519, X25519Private,
                        !old(Current(store.b)).state.InitiatorAwaiting?,
                        Attempts(store.line, old(store.b), op, w), ErrorOf(r))
    {
      hide Plan, Run, Inv, ByRivals, Decision, Evolves, OnlyRivals, StagedAs, Leaves, Reported, Held, Settled, Reaches;
      hide Concluded, AfterAborting;
      ghost var b0 := store.b;
      var conducted, commitAttempted := Conduct(op, w);
      ghost var b1 := store.b;
      if conducted.Ok? {
        CreationShape(store.line, b0, op, w);
        r := Ok(conducted.value.packet);
      } else {
        r := Err(conducted.error);
      }
      if !commitAttempted || (r.Err? && !r.error.retryable) {
        store.AbortStaged(op.x25519, X25519Private);
        AbortSettles(b1, store.b, op.x25519, X25519Private);
        EvolvesInTurn(store.line, b0, b1, store.b);
        ReportedOfRecord(
          store.line, b0, b1, store.b, op, w, if r.Ok? then Some(FirstPacketReply(r.value)) else None, ErrorOf(r));
      }
      HeldIsSettled(
        store.line, b0, b1, store.b, op, w, ErrorOf(r), op.x25519, X25519Private, !Current(b0).state.InitiatorAwaiting?);
    }

    // ---- Records ----

    method SendRecord(op: Operation, w: Weather) returns (r: Result<PendingId>)
      requires store.Valid() && OnlyRivals(w) && op.SendRecord?
      modifies store
      ensures store.Valid() && Evolves(store.line, old(store.b), store.b)
      ensures Reported(store.line, old(store.b), store.b, op, w, if r.Ok? then Some(PendingReply(r.value)) else None, ErrorOf(r))
      ensures op.bootstrap.Some? && Leaves(w, op.bootstrap.value) ==>
                Settled(old(store.b), store.b, op.bootstrap.value, X25519Private, true,
                        Attempts(store.line, old(store.b), op, w), ErrorOf(r))
    {
      hide Plan, Run, Inv, ByRivals, Decision, Evolves, OnlyRivals, StagedAs, Leaves, Reported, Held, Settled, Reaches;
      hide Concluded, AfterAborting;
      ghost var b0 := store.b;
      var conducted, commitAttempted := Conduct(op, w);
      ghost var b1 := store.b;
      if conducted.Ok? {
        SendShape(store.line, b0, op, w);
        r := Ok(conducted.value.id);
      } else {
        r := Err(conducted.error);
      }
      if op.bootstrap.Some? {
        if r.Err? && (!commitAttempted || !r.error.retryable) {
          store.AbortStaged(op.bootstrap.value, X25519Private);
          AbortSettles(b1, store.b, op.bootstrap.value, X25519Private);
          EvolvesInTurn(store.line, b0, b1, store.b);
          ReportedOfRecord(store.line, b0, b1, store.b, op, w, None, ErrorOf(r));
        }
        HeldIsSettled(store.line, b0, b1, store.b, op, w, ErrorOf(r), op.bootstrap.value, X25519Private, true);
      }
    }

    /** A key offered for a rotation that does not happen is aborted before the commit. */
    method ReceiveRecord(op: Operation, w: Weather) returns (r: Result<PendingId>, ghost rotated: bool)
      requires store.Valid() && OnlyRivals(w) && op.ReceiveRecord?
      modifies store
      ensures store.Valid() && Evolves(store.line, old(store.b), store.b)
      ensures Reported(store.line, old(store.b), store.b, op, w, if r.Ok? then Some(PendingReply(r.value)) else None, ErrorOf(r))
      ensures r.Ok? && old(Current(store.b)).state.Established? ==>
                && |store.b.history| > Revision(old(store.b)) + 1
                && store.b.history[Revision(old(store.b)) + 1].state.Established?
                && (rotated <==> store.b.history[Revision(old(store.b)) + 1].state.session.localPrivate
                                 != old(Current(store.b)).state.session.localPrivate)
      ensures op.offered.Some? && Leaves(w, op.offered.value) ==>
                Settled(old(store.b), store.b, op.offered.value, X25519Private, rotated,
                        Attempts(store.line, old(store.b), op, w), ErrorOf(r))
    {
      hide Plan, Run, Inv, ByRivals, Evolves, OnlyRivals, StagedAs, Leaves, HandleFates, Told;
      hide AfterAborting, Deciding, Decision;
      ghost var b0 := store.b;
      var commitAttempted, stagedSettled := false, false;
      rotated := false;
      var decided, current, seen := Decide(op, w);
      ghost var b1 := store.b;
      if op.offered.Some? && Leaves(w, op.offered.value) && StagedAs(b0.keys, op.offered.value, X25519Private) {
        FatesKeep(b0, b1, w, op.offered.value, X25519Private);
      }
      if decided.Err? {
        r := Err(decided.error);
      } else {
        var change := decided.value;
        RotationIsReached(store.line, seen, current, op);
        rotated := change.mutations != [];
        commitAttempted := true;
        var committed;
        committed, stagedSettled := CommitReceive(op, current, change, w, seen);
        ToldOfDecided(store.line, b0, b1, store.b, current.revision, change, w, ErrorOf(committed));
        ToldStands(b0, store.b, current.revision, change, w, ErrorOf(committed));
        r := if committed.Ok? then Ok(change.reply.id) else Err(committed.error);
        EvolvesInTurn(store.line, b0, b1, store.b);
      }
      ghost var b2 := store.b;
      if r.Err? && !stagedSettled && (!commitAttempted || !r.error.retryable) && op.offered.Some? {
        store.AbortStaged(op.offered.value, X25519Private);
        AbortSettles(b2, store.b, op.offered.value, X25519Private);
        EvolvesInTurn(store.line, b0, b2, store.b);
        ReportedOfRecord(store.line, b0, b2, store.b, op, w, None, ErrorOf(r));
      }
    }

    /** The last part of a receive: the unused key is aborted, then the change is committed. */
    method CommitReceive(op: Operation, current: Snapshot, change: Planned, w: Weather, ghost seen: Custody)
      returns (r: Result<()>, stagedSettled: bool)
      requires store.Valid() && OnlyRivals(w) && op.ReceiveRecord?
      requires current.revision < |store.b.history| && store.b.history[current.revision] == current
      requires !Applied(store.b, current.revision)
      requires Plan(store.line, seen, current, op) == Ok(change) && change.Change?
      modifies store
      ensures store.Valid() && Evolves(store.line, old(store.b), store.b)
      ensures Told(old(store.b), store.b, current.revision, change, w, ErrorOf(r))
      ensures stagedSettled <==> change.mutations == [] && op.offered.Some?
      ensures op.offered.Some? && Leaves(w, op.offered.value) && StagedAs(old(store.b).keys, op.offered.value, X25519Private) ==>
                if stagedSettled then op.offered.value in store.b.aborted
                else if r.Ok? then op.offered.value in store.b.adopted
                else StagedAs(store.b.keys, op.offered.value, X25519Private)
                     || (r.error.retryable && op.offered.value in store.b.adopted)
    {
      hide Plan, Run, Inv, ByRivals, OnlyRivals, StagedAs, Leaves, HandleFates, Told, Evolves, SwapTakes, AfterCommit;
      hide AfterAborting, CommitOf;
      ghost var b1 := store.b;
      EvolvesNowhere(store.line, b1);
      stagedSettled := change.mutations == [] && op.offered.Some?;
      if stagedSettled {
        store.AbortStaged(op.offered.value, X25519Private);
        AbortSettles(b1, store.b, op.offered.value, X25519Private);
      }
      ghost var b2 := store.b;
      r := CommitReplacingPending(current, change, w, seen, op);
      ToldAfterAbort(b1, b2, store.b, current.revision, change, w, ErrorOf(r));
      EvolvesInTurn(store.line, b1, b2, store.b);
      if op.offered.Some? && !stagedSettled {
        InvReaches(store.line, store.b);
        OfferedIsHeld(store.line, b1, store.b, current, change, w, seen, op, ErrorOf(r));
      }
      EvolvesGrows(store.line, b2, store.b);
    }

    // ---- Pending output ----

    /**
     `drive_pending` and `release_plaintext`: hand one committed item over, then settle it.
     Failing before the settlement leaves the history alone. When nobody else moves, the item
     still waits after the call exactly unless it was settled, whose reply may be lost.
     */
    method Drive(revision: nat, item: PendingItem, plaintext: bool, boundaryFault: Option<Error>, w: Weather)
      returns (r: Result<()>)
      requires store.Valid() && OnlyRivals(w)
      modifies store
      ensures store.Valid() && Evolves(store.line, old(store.b), store.b)
      ensures r.Ok? ==>
                && item.kind.PlaintextOutput? == plaintext && item in store.b.handed && Applied(store.b, revision)
                && |store.b.history| > revision + 1 && item in store.b.history[revision].pending
                && store.b.history[revision + 1].state == store.b.history[revision].state
                && store.b.history[revision + 1].pending == WithoutId(store.b.history[revision].pending, item.id)
      ensures Drivable(old(store.b), revision, item, plaintext, w) ==> store.b.handed >= old(store.b.handed) + {item}
      ensures !Drivable(old(store.b), revision, item, plaintext, w) ==> r.Err? && store.b == old(store.b)
      ensures boundaryFault.Some? ==> r.Err? && store.b.history == old(store.b.history)
      ensures w.before == [] && w.after == [] ==>
                Driven(old(store.b), store.b, revision, item, plaintext, boundaryFault, w, ErrorOf(r))
    {
      hide Run, Inv, ByRivals, Plan, WithoutId, Find, Applied;
      ghost var b0 := store.b;
      EvolvesNowhere(store.line, b0);
      var current :- store.Load(w.reloadFault);
      if current.revision != revision {
        return Err(Terminal(Conflict, Stage.Commit));
      }
      if item !in current.pending {
        return Err(Terminal(InvalidTransition, Stage.Commit));
      }
      if item.kind.PlaintextOutput? != plaintext {
        return Err(Terminal(InvalidTransition, Stage.Commit));
      }
      store.HandOverItem(revision, item);
      ghost var b1 := store.b;
      if boundaryFault.Some? {
        return Err(boundaryFault.value);
      }
      var settled := store.SettleItem(revision, item.id, w);
      EvolvesInTurn(store.line, b0, b1, store.b);
      NobodyMoves(store.line, b1);
      NobodyMoves(store.line, AfterSettling(b1, Own, item.id));
      SettledItemIsGone(store.line, b0, item);
      if settled.Err? {
        return Err(settled.error);
      }
      return Ok(());
    }

    method DispatchPending(id: PendingId, plaintext: bool, boundaryFault: Option<Error>, w: Weather) returns (r: Result<()>)
      requires store.Valid() && OnlyRivals(w)
      modifies store
      ensures store.Valid() && Evolves(store.line, old(store.b), store.b)
      ensures r.Ok? ==>
                var before := old(Current(store.b));
                && Find(before.pending, id).Some? && Find(before.pending, id).value in store.b.handed
                && Find(before.pending, id).value.kind.PlaintextOutput? == plaintext
                && |store.b.history| > before.revision + 1
                && store.b.history[before.revision + 1].state == before.state
                && store.b.history[before.revision + 1].pending == WithoutId(before.pending, id)
      ensures Undisturbed(w) && boundaryFault.Some? ==> r.Err? && store.b.history == old(store.b.history)
      ensures Undisturbed(w) ==>
                var before := old(Current(store.b));
                var found := Find(before.pending, id);
                if w.loadFault.Some? || before.state.Closed? || found.None? then r.Err? && store.b == old(store.b)
                else Driven(old(store.b), store.b, before.revision, found.value, plaintext, boundaryFault, w, ErrorOf(r))
    {
      hide Run, Inv, AllSpare, ByRivals, Plan;
      ghost var b0 := store.b;
      EvolvesNowhere(store.line, b0);
      NobodyMoves(store.line, b0);
      var current :- store.Load(w.loadFault);
      if current.state.Closed? {
        return Err(Invalid(ErrorCode.Deleted));
      }
      var found := Find(current.pending, id);
      if found.None? {
        return Err(Invalid(InvalidTransition));
      }
      FindFinds(current.pending, id);
      store.Elapse(w.planning);
      ghost var b1 := store.b;
      r := Drive(current.revision, found.value, plaintext, boundaryFault, w);
      EvolvesInTurn(store.line, b0, b1, store.b);
    }
  }

  // ---- A rival's commit reported as success ----

  /** Only the given moves get in between planning and the swap, and nothing fails. */
  function Interrupted(before: seq<Move>): Weather {
    Weather(None, [], {}, before, None, [], None, [], None)
  }

  /** Over a new initiator, a rival's deletion gets in before our own, and leaves the very snapshot ours planned. */
  lemma RivalsMayCommitTheSame(line: LineIds)
    ensures var x, rival := Start(InitiatorNew), Perform(Rival, map[], DeleteSession);
            var planned := Decision(line, x, DeleteSession, Interrupted([rival]));
            var y := Concluded(line, x, DeleteSession, Interrupted([rival]));
            && planned == Ok(Change(Closed(None), [], [], NoReply)) && y == Step(line, x, rival)
            && Shown(y, 0, planned.value, Interrupted([rival])) && !Applied(y, 0)
            && y.authors == [Rival] && Current(y) == Versioned(1, Closed(None), [])
  {
    hide PlanAdmitPrekey, PlanAcceptFirstPacket, PlanCreateFirstPacket, PlanSendRecord, PlanReceiveRecord;
    hide PlanVerifySessionAccept, PlanBootstrapCapabilities, PlanApplyCapabilityFlow, ApplyMutations;
    var x, rival := Start(InitiatorNew), Perform(Rival, map[], DeleteSession);
    var y := Step(line, x, rival);
    assert Run(line, x, [rival]) == Run(line, y, []) == y;
    assert Run(line, x, []) == x;
  }

  lemma OnlyRivalsInterrupt(move: Move)
    requires move.Perform? && move.author == Rival
    ensures OnlyRivals(Interrupted([move]))
  {
  }

  /** The deletion reports success although the commit that stands is the rival's and not its own. */
  method DeleteAfterRival(line: LineIds) returns (r: Result<Reply>, operator: Operator)
    ensures operator.store.Valid() && operator.store.line == line
    ensures r == Ok(NoReply) && !Applied(operator.store.b, 0)
    ensures operator.store.b.authors == [Rival] && Current(operator.store.b) == Versioned(1, Closed(None), [])
  {
    hide Plan, Run, Inv, Decision, Concluded, Step, Resolved, Held, Shown, OnlyRivals, Evolves;
    assert OnlyRivals(Interrupted([Perform(Rival, map[], DeleteSession)])) by {
      OnlyRivalsInterrupt(Perform(Rival, map[], DeleteSession));
    }
    var store := new Store(line, InitiatorNew);
    operator := new Operator(store);
    var commitAttempted;
    r, commitAttempted := operator.Conduct(DeleteSession, Interrupted([Perform(Rival, map[], DeleteSession)]));
    RivalsMayCommitTheSame(line);
  }

  // ---- A failed dispatch that removed its item ----

  /** A packet waits, and its settlement is to lose its reply. */
  method DriveAndLoseReply(line: LineIds) returns (r: Result<()>, operator: Operator, item: PendingItem)
    ensures operator.store.Valid() && operator.store.line == line
    ensures r.Err?
    ensures |operator.store.b.history| == 5 && item in operator.store.b.history[3].pending
    ensures item !in Current(operator.store.b).pending
  {
    hide Plan, Run, Inv, Step, Evolves, Start, KeepsHandles, Applied, WithoutId;
    hide EndpointConversation.WritingMoves, EndpointConversation.InitiatorMoves;
    var store := new Store(line, InitiatorNew);
    EndpointConversation.OnlyRivalsWrite(line);
    var begin, write := EndpointConversation.InitiatorMoves(line, Rival), EndpointConversation.WritingMoves(line, Rival);
    store.Elapse(begin);
    store.Elapse(write);
    EndpointConversation.FirstRecordWaits(line, Rival);
    operator := new Operator(store);
    item := Current(store.b).pending[0];
    r := operator.Drive(
      3, item, false, None, Interrupted([]).(lostReply := Some(Retryable(ProviderFailure, Stage.Commit))));
  }

  /** Settling takes an item out of the queue it waits in, since no other item has its identifier. */
  lemma SettledItemIsGone(line: LineIds, b: Backend, item: PendingItem)
    requires Fits(b) && Inv(line, b) && item in Current(b).pending
    ensures item !in WithoutId(Current(b).pending, item.id) && Find(Current(b).pending, item.id).Some?
  {
    hide PhaseInv, CustodyInv, FatesInv, PacketsInv, ReachedInv, QuietInv, Follows;
    assert QueueInv(Current(b).pending);
    WithoutItsId(Current(b).pending, item);
  }

  lemma {:induction false} WithoutItsId(items: seq<PendingItem>, item: PendingItem)
    requires DistinctIds(items) && item in items
    ensures item !in WithoutId(items, item.id) && Find(items, item.id) == Some(item)
  {
    if items[0].id != item.id {
      assert items[0] != item;
      WithoutItsId(items[1..], item);
    } else {
      var i :| 0 <= i < |items| && items[i] == item;
      assert i == 0;
    }
  }

  lemma CommitIsChange(change: Planned)
    requires change.Change?
    ensures match CommitOf(change)
            case Ok(commit) => commit.keyMutations == change.mutations
            case Err(e) => !e.retryable
  {
  }

  lemma HandlesStay(b: Backend, w: Weather, ms: seq<KeyMutation>)
    ensures HandleFates(b, b, w, false, ms)
  {
  }

  lemma CommitUntried(line: LineIds, b: Backend, revision: nat, change: Planned, w: Weather)
    requires Fits(b) && change.Change? && (CommitOf(change).Err? || Successor(revision).Err?)
    ensures AfterCommit(line, b, revision, change, w) == b && !Shown(b, revision, change, w)
  {
    hide CommitOf;
  }

  lemma AppliedStands(b: Backend, revision: nat, change: Planned, commit: Commit<Phase>)
    requires change.Change? && CommitOf(change) == Ok(commit)
    ensures |b.history| > revision + 1 && b.history[revision + 1] == IntoVersioned(commit, revision) ==>
              Stands(b, revision, change)
  {
  }

  lemma CommitTried(line: LineIds, x: Backend, y: Backend, z: Backend, revision: nat, change: Planned, w: Weather)
    requires Fits(x) && Fits(y) && change.Change? && CommitOf(change).Ok? && Successor(revision).Ok?
    requires var reached := Run(line, x, w.before);
             var taken := SwapTakes(reached, revision, CommitOf(change).value, w);
             && y == (if taken then Run(line, Apply(reached, Own, CommitOf(change).value), w.after) else reached)
             && z == (if taken && w.lostReply.None? then y else Run(line, y, w.meanwhile))
    ensures z == AfterCommit(line, x, revision, change, w)
    ensures Shown(z, revision, change, w) <==>
              && |z.history| == revision + 2 && Stands(z, revision, change)
              && (w.reloadFault.None? || (w.lostReply.None? && Applied(z, revision)))
  {
    hide Run, CommitOf, SwapTakes, Stands;
  }

  /** With nobody else around, what a commit leaves is the old history, or the old history and the change. */
  lemma CalmCommit(line: LineIds, x: Backend, y: Backend, change: Planned, w: Weather, error: Option<Error>)
    requires Numbered(x) && change.Change? && !Applied(x, Revision(x))
    requires y == AfterCommit(line, x, Revision(x), change, w)
    requires error.None? <==> Shown(y, Revision(x), change, w)
    requires w.reloadFault.None? && |y.history| == |x.history| && error.Some? ==> !error.value.retryable
    ensures Calm(w) ==> Resolved(x, y, change, w, error)
  {
    hide Inv, Run, MutationsValid, ApplyMutations;
    if Calm(w) {
      NobodyMoves(line, x);
      if ChangeTakes(x, change, w) {
        NobodyMoves(line, Apply(x, Own, CommitOf(change).value));
      }
    }
  }

  lemma NobodyMoves(line: LineIds, b: Backend)
    requires Fits(b)
    ensures Run(line, b, []) == b
  {
  }

  // ---- From decision to report ----

  lemma InvReaches(line: LineIds, b: Backend)
    requires Inv(line, b)
    ensures ReachedInv(b)
  {
  }

  lemma FatesKeep(x: Backend, y: Backend, w: Weather, token: Token, purpose: Purpose)
    requires HandleFates(x, y, w, false, []) && Leaves(w, token) && StagedAs(x.keys, token, purpose)
    ensures StagedAs(y.keys, token, purpose)
  {
    hide Leaves, StagedAs;
  }

  lemma FatesInTurn(x: Backend, y: Backend, z: Backend, w: Weather, applied: bool, ms: seq<KeyMutation>)
    requires HandleFates(x, y, w, false, []) && HandleFates(y, z, w, applied, ms)
    ensures HandleFates(x, z, w, applied, ms)
  {
    hide Leaves, StagedAs;
  }

  lemma ToldOfDecided(
    line: LineIds, x: Backend, y: Backend, z: Backend, revision: nat, change: Planned, w: Weather, error: Option<Error>)
    requires Fits(x) && Fits(y) && change.Change? && revision == Revision(x)
    requires y == Deciding(line, x, w) && Told(y, z, revision, change, w, error)
    ensures Told(x, z, revision, change, w, error)
  {
    hide Shown, Resolved;
    if Calm(w) {
      EvolvesNowhere(line, x);
    }
  }

  /** Aborting a key that a change does not mention makes no difference to what becomes of the change. */
  lemma ToldAfterAbort(
    x: Backend, a: Backend, y: Backend, revision: nat, change: Planned, w: Weather, error: Option<Error>)
    requires Fits(x) && Fits(a) && a.history == x.history && change.Change? && (change.mutations == [] || a.keys == x.keys)
    requires Told(a, y, revision, change, w, error)
    ensures Told(x, y, revision, change, w, error)
  {
    hide Shown;
  }

  /** What is told of a backend is told of its record. */
  lemma ReportedOfRecord(
    line: LineIds, x: Backend, y: Backend, z: Backend, op: Operation, w: Weather, reply: Option<Reply>,
    error: Option<Error>)
    requires Fits(x) && y.history == z.history && y.authors == z.authors
    requires Reported(line, x, y, op, w, reply, error)
    ensures Reported(line, x, z, op, w, reply, error)
  {
    hide Decision, CommitOf, ChangeTakes;
  }

  lemma AbortSettles(x: Backend, y: Backend, token: Token, purpose: Purpose)
    requires y == AfterAborting(x, token, purpose)
    ensures y.history == x.history && y.authors == x.authors && Grows(x, y)
    ensures StagedAs(x.keys, token, purpose) ==> token in y.aborted
    ensures forall other: Token, q: Purpose | StagedAs(x.keys, other, q) ::
              other in y.aborted || StagedAs(y.keys, other, q)
  {
  }

  lemma TriedIsReported(line: LineIds, x: Backend, y: Backend, op: Operation, w: Weather, r: Result<Reply>)
    requires Fits(x) && Tried(line, x, y, op, w, ErrorOf(r))
    requires r.Ok? ==> Decision(line, x, op, w).Ok? && r.value == Decision(line, x, op, w).value.reply
    ensures Reported(line, x, y, op, w, if r.Ok? then Some(r.value) else None, ErrorOf(r))
  {
    hide Decision, Told;
  }

  lemma TriedHolds(line: LineIds, x: Backend, y: Backend, op: Operation, w: Weather, error: Option<Error>)
    requires Fits(x) && Tried(line, x, y, op, w, error) && ReachedInv(y)
    ensures error.None? ==> Decision(line, x, op, w).Ok?
    ensures forall token: Token, purpose: Purpose :: Held(line, x, y, op, w, error, token, purpose)
  {
    hide Decision, Leaves, Reaches, Resolved, CommitOf;
  }

  lemma SoundHolds(line: LineIds, x: Backend, y: Backend, op: Operation, w: Weather, error: Option<Error>)
    requires Fits(x) && Tried(line, x, y, op, w, error) && Inv(line, y)
    ensures error.None? ==> Decision(line, x, op, w).Ok?
    ensures forall token: Token, purpose: Purpose :: Held(line, x, y, op, w, error, token, purpose)
  {
    hide Inv, Tried, Held, Decision;
    assert ReachedInv(y) by {
      InvReaches(line, y);
    }
    hide ReachedInv;
    TriedHolds(line, x, y, op, w, error);
  }

  /** A handle that is adopted, or else aborted unless a tried commit failed retryably, is settled. */
  lemma HeldIsSettled(
    line: LineIds, x: Backend, y: Backend, z: Backend, op: Operation, w: Weather, error: Option<Error>, token: Token,
    purpose: Purpose, adopts: bool)
    requires Fits(x) && Grows(y, z) && (error.None? ==> Decision(line, x, op, w).Ok?)
    requires Held(line, x, y, op, w, error, token, purpose)
    requires StagedAs(y.keys, token, purpose) ==> token in z.aborted || StagedAs(z.keys, token, purpose)
    requires !Attempts(line, x, op, w) || (error.Some? && !error.value.retryable) ==>
               StagedAs(y.keys, token, purpose) ==> token in z.aborted
    requires error.None? ==> adopts == Attempts(line, x, op, w)
    requires adopts && error.None? ==> Reaches(Decision(line, x, op, w).value.next, token, purpose)
    ensures Leaves(w, token) ==> Settled(x, z, token, purpose, adopts, Attempts(line, x, op, w), error)
  {
    hide Decision, Attempts, Leaves, StagedAs, Reaches;
  }

  lemma ToldStands(x: Backend, y: Backend, revision: nat, change: Planned, w: Weather, error: Option<Error>)
    requires Fits(x) && change.Change? && Told(x, y, revision, change, w, error)
    ensures error.None? ==> Stands(y, revision, change)
  {
    hide CommitOf, Resolved;
  }

  lemma ReportedStands(line: LineIds, x: Backend, y: Backend, op: Operation, w: Weather, reply: Reply)
    requires Fits(x) && Attempts(line, x, op, w) && Reported(line, x, y, op, w, Some(reply), None)
    ensures reply == Decision(line, x, op, w).value.reply && Stands(y, Revision(x), Decision(line, x, op, w).value)
  {
    hide Decision, CommitOf;
  }

  /** A conflict over an untouched commit may be reported as any final error. */
  lemma ConflictIsFinal(
    line: LineIds, x: Backend, y: Backend, op: Operation, w: Weather, reported: Error, final: Error)
    requires Fits(x) && Attempts(line, x, op, w) && reported.code == Conflict && !final.retryable
    requires Reported(line, x, y, op, w, None, Some(reported))
    ensures Reported(line, x, y, op, w, None, Some(final))
  {
    hide Decision, Shown;
  }

  // ---- What each operation decides ----

  lemma AdmissionShape(line: LineIds, x: Backend, op: Operation, w: Weather)
    requires Fits(x) && op.AdmitPrekey? && Decision(line, x, op, w).Ok?
    ensures var change := Decision(line, x, op, w).value;
            && change.Change? && change.reply.BundleReply? && change.next.ResponderReady?
            && op.pairSequence in change.next.active
            && change.next.active[op.pairSequence] == ActivePrekey(change.reply.bundle, op.x25519, op.mlKem)
            && Reaches(change.next, op.x25519, X25519Private) && Reaches(change.next, op.mlKem, MlKem768Private)
  {
    hide Run;
    var next := Decision(line, x, op, w).value.next;
    assert next.active[op.pairSequence].x25519Private == op.x25519;
  }

  lemma AcceptRepliesWithAccept(line: LineIds, x: Backend, op: Operation, w: Weather)
    requires Fits(x) && op.AcceptFirstPacket? && Decision(line, x, op, w).Ok?
    ensures Decision(line, x, op, w).value.reply.AcceptReply?
  {
    hide Run;
  }

  lemma CreationShape(line: LineIds, x: Backend, op: Operation, w: Weather)
    requires Fits(x) && op.CreateFirstPacket? && Decision(line, x, op, w).Ok?
    ensures var decided := Decision(line, x, op, w).value;
            && decided.reply.FirstPacketReply? && (decided.Change? <==> !Current(x).state.InitiatorAwaiting?)
            && (decided.Change? ==> Reaches(decided.next, op.x25519, X25519Private))
  {
    hide Run;
  }

  lemma SendShape(line: LineIds, x: Backend, op: Operation, w: Weather)
    requires Fits(x) && op.SendRecord? && Decision(line, x, op, w).Ok?
    ensures var change := Decision(line, x, op, w).value;
            && change.Change? && change.reply.PendingReply?
            && (op.bootstrap.Some? ==> Reaches(change.next, op.bootstrap.value, X25519Private))
  {
    hide Run;
  }

  lemma RotationIsReached(line: LineIds, seen: Custody, current: Snapshot, op: Operation)
    requires op.ReceiveRecord? && Plan(line, seen, current, op).Ok?
    ensures var change := Plan(line, seen, current, op).value;
            && current.state.Established? && change.Change? && change.next.Established? && change.reply.PendingReply?
            && (change.mutations != [] <==> change.next.session.localPrivate != current.state.session.localPrivate)
            && (change.mutations != [] ==>
                  op.offered.Some? && Reaches(change.next, op.offered.value, X25519Private))
  {
    var session := current.state.session;
    ReceiveKeepsOrRotates(session, AnsweringApart(seen, session.localPrivate, op.offered), op.record, op.offered);
  }

  lemma OfferedIsHeld(
    line: LineIds, x: Backend, y: Backend, current: Snapshot, change: Planned, w: Weather, seen: Custody, op: Operation,
    error: Option<Error>)
    requires Fits(x) && ReachedInv(y) && op.ReceiveRecord? && op.offered.Some? && change.Change? && change.mutations != []
    requires Plan(line, seen, current, op) == Ok(change)
    requires HandleFates(x, y, w, Applied(y, current.revision), change.mutations)
    requires Told(x, y, current.revision, change, w, error)
    ensures Leaves(w, op.offered.value) && StagedAs(x.keys, op.offered.value, X25519Private) ==>
              if error.None? then op.offered.value in y.adopted
              else StagedAs(y.keys, op.offered.value, X25519Private)
                   || (error.value.retryable && op.offered.value in y.adopted)
  {
    hide Plan, Leaves, Resolved, CommitOf;
    RotationIsReached(line, seen, current, op);
    hide Reaches;
  }

  lemma FindFinds(items: seq<PendingItem>, id: PendingId)
    ensures Find(items, id).Some? ==> Find(items, id).value in items && Find(items, id).value.id == id
  {
  }
}

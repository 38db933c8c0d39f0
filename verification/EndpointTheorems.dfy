/** The invariant over every run of moves, and what it says about the Endpoint. */
module EndpointTheorems {
  import opened Errors
  import opened Symbolic
  import opened State
  import opened Handshake
  import opened Ratchet
  import opened Endpoint
  import opened EndpointRuns
  import opened EndpointSafety
  import Cbor

  // ---- Applying a commit ----

  lemma EffectiveIsPlanned(line: LineIds, b: Backend, seen: Custody, op: Operation) returns (change: Planned)
    requires Fits(b) && Effective(line, b, seen, op).Some?
    ensures Plan(line, seen, Current(b), op) == Ok(change) && change.Change?
    ensures CommitOf(change) == Ok(Effective(line, b, seen, op).value)
    ensures Effective(line, b, seen, op).value == Commit.Commit(change.next, change.mutations, change.queue)
    ensures |change.mutations| <= MAX_ENDPOINT_KEY_MUTATIONS && DistinctTokens(change.mutations)
    ensures |change.queue| <= MAX_ENDPOINT_PENDING && DistinctIds(change.queue)
    ensures MutationsValid(b.keys, change.mutations) && Successor(Current(b).revision).Ok?
  {
    hide Plan;
    change := Plan(line, seen, Current(b), op).value;
  }

  lemma CustodyKept(phase: Phase, next: Phase, keys: Custody, ms: seq<KeyMutation>)
    requires CustodyInv(phase, keys) && Accounts(phase, next, ms)
    requires DistinctTokens(ms) && MutationsValid(keys, ms)
    ensures CustodyInv(next, ApplyMutations(keys, ms))
  {
    forall token: Token, purpose: Purpose | !purpose.MlKemEntropy?
      ensures AdoptedAs(ApplyMutations(keys, ms), token, purpose) <==> Reaches(next, token, purpose)
    {
      MutationsTakeEffect(keys, ms, token);
      assert Reaches(next, token, purpose) <==>
             (Reaches(phase, token, purpose) && Delete(purpose, token) !in ms) || Adopt(purpose, token) in ms;
      assert AdoptedAs(keys, token, purpose) <==> Reaches(phase, token, purpose);
      if Adopt(purpose, token) in ms {
        assert MutationValid(keys, Adopt(purpose, token));
        NotBoth(ms, token);
      }
    }
  }

  lemma NotBoth(ms: seq<KeyMutation>, token: Token)
    requires DistinctTokens(ms)
    ensures forall p, q :: Adopt(p, token) in ms ==> Delete(q, token) !in ms
  {
  }

  lemma FatesKept(b: Backend, ms: seq<KeyMutation>)
    requires FatesInv(b) && DistinctTokens(ms) && MutationsValid(b.keys, ms)
    ensures FatesInv(b.(keys := ApplyMutations(b.keys, ms), adopted := b.adopted + AdoptedBy(ms)))
  {
    var keys := ApplyMutations(b.keys, ms);
    forall token | token in AdoptedBy(ms)
      ensures token in b.keys && b.keys[token].lifecycle.Staged? && Adopt(b.keys[token].purpose, token) in ms
    {
      var m :| m in ms && m.Adopt? && m.token == token;
      assert MutationValid(b.keys, m);
      assert m == Adopt(b.keys[token].purpose, token);
    }
    forall token
      ensures Lookup(keys, token) == Fate(b.keys, ms, token)
    {
      MutationsTakeEffect(b.keys, ms, token);
    }
    forall token | token in keys
      ensures token in b.keys && token !in b.aborted
      ensures keys[token].lifecycle.Staged? ==> token !in b.adopted + AdoptedBy(ms)
      ensures keys[token].lifecycle.Adopted? && !keys[token].purpose.MlKemEntropy? ==> token in b.adopted + AdoptedBy(ms)
    {
      assert Lookup(keys, token) == Fate(b.keys, ms, token);
      if Adopt(b.keys[token].purpose, token) in ms {
        assert token in AdoptedBy(ms);
      }
    }
  }

  lemma QueueKept(queue: seq<PendingItem>, next: seq<PendingItem>, packet: Option<Packet>)
    requires QueueInv(queue) && Extends(queue, next, packet)
    requires |next| <= MAX_ENDPOINT_PENDING && DistinctIds(next)
    ensures QueueInv(next)
    ensures forall item | item in next && item.kind.PacketOutput? ::
              item in queue || packet == Some(item.kind.packet)
  {
    if next != [] && next != queue {
      assert next == queue + next[|queue|..];
      assert next[|queue|..] == [next[|queue|]] || next[|queue|..] == [next[|queue|], next[|queue| + 1]];
      assert forall item :: item in next <==>
                            || item in queue || item == next[|queue|]
                            || (|next| == |queue| + 2 && item == next[|queue| + 1]);
    }
  }

  /** Everything committed after one more snapshot was committed before, or waits in it. */
  lemma CommittedBy(history: seq<Snapshot>, s: Snapshot, packet: Packet)
    ensures Committed(history + [s], packet) <==>
            Committed(history, packet) || exists item | item in s.pending :: item.kind == PacketOutput(packet)
  {
    var longer := history + [s];
    assert forall r | 0 <= r < |history| :: longer[r] == history[r];
    assert longer[|history|] == s;
  }

  /** A commit brings at most its own packet into the history. */
  lemma NewlyCommitted(b: Backend, s: Snapshot, packet: Option<Packet>)
    requires HistoryInv(b) && Extends(Current(b).pending, s.pending, packet)
    requires |s.pending| <= MAX_ENDPOINT_PENDING && DistinctIds(s.pending)
    ensures forall p :: Committed(b.history + [s], p) ==> Committed(b.history, p) || packet == Some(p)
  {
    QueueKept(Current(b).pending, s.pending, packet);
    forall p | Committed(b.history + [s], p)
      ensures Committed(b.history, p) || packet == Some(p)
    {
      CommittedBy(b.history, s, p);
    }
  }

  lemma PacketsKept(line: LineIds, b: Backend, author: Author, commit: Commit<Phase>, packet: Option<Packet>)
    requires HistoryInv(b) && PhaseInv(line, Current(b).state) && CustodyInv(Current(b).state, b.keys)
    requires FatesInv(b) && PacketsInv(b)
    requires MutationsValid(b.keys, commit.keyMutations) && |commit.pending| <= MAX_ENDPOINT_PENDING
    requires DistinctIds(commit.pending) && PhaseInv(line, commit.nextState) && Follows(Current(b).state, commit.nextState)
    requires Extends(Current(b).pending, commit.pending, packet)
    requires SessionStep(Current(b).state, commit.nextState, commit.keyMutations, packet)
    ensures PacketsInv(Apply(b, author, commit))
  {
    hide HistoryInv, CustodyInv, FatesInv, Extends;
    CurrentQueue(b);
    var next := Apply(b, author, commit);
    var phase, ms := Current(b).state, commit.keyMutations;
    NewlyCommitted(b, IntoVersioned(commit, Current(b).revision), packet);
    assert Current(next).state == commit.nextState;
    if phase.Established? && commit.nextState.Established? {
      KeyIsOldOrNew(b, phase.session.localPrivate, ms, commit.nextState.session.localPrivate);
    }
  }

  /** A key the next session uses was either adopted before or is adopted now, and then never before. */
  lemma KeyIsOldOrNew(b: Backend, local: Token, ms: seq<KeyMutation>, nextLocal: Token)
    requires Fits(b) && FatesInv(b) && CustodyInv(Current(b).state, b.keys) && MutationsValid(b.keys, ms)
    requires Reaches(Current(b).state, local, X25519Private)
    ensures local in b.adopted
    ensures Adopt(X25519Private, nextLocal) in ms ==> nextLocal !in b.adopted && nextLocal in AdoptedBy(ms)
  {
    assert AdoptedAs(b.keys, local, X25519Private);
    if Adopt(X25519Private, nextLocal) in ms {
      assert MutationValid(b.keys, Adopt(X25519Private, nextLocal));
    }
  }

  lemma FollowsIsTransitive(x: Phase, y: Phase, z: Phase)
    requires Follows(x, y) && Follows(y, z)
    ensures Follows(x, z)
  {
  }

  lemma HistoryExtends(b: Backend, author: Author, s: Snapshot, keys: Custody, adopted: set<Token>)
    requires HistoryInv(b) && Follows(Current(b).state, s.state) && QueueInv(s.pending)
    requires s.revision == Current(b).revision + 1 && Successor(Current(b).revision).Ok?
    ensures HistoryInv(b.(history := b.history + [s], authors := b.authors + [author], keys := keys, adopted := adopted))
  {
    var longer := b.history + [s];
    assert forall r | 0 <= r < |b.history| :: longer[r] == b.history[r];
    forall r, t | 0 <= r <= t < |longer|
      ensures Follows(longer[r].state, longer[t].state)
    {
      if t == |b.history| && r < t {
        assert Follows(b.history[r].state, Current(b).state);
        FollowsIsTransitive(b.history[r].state, Current(b).state, s.state);
      } else if r == t == |b.history| {
        assert Follows(s.state, s.state);
      }
    }
  }

  lemma ApplyKeepsInv(line: LineIds, b: Backend, author: Author, seen: Custody, op: Operation)
    requires Inv(line, b) && Effective(line, b, seen, op).Some?
    ensures Inv(line, Apply(b, author, Effective(line, b, seen, op).value))
  {
    hide Plan, PhaseInv, CustodyInv, FatesInv, PacketsInv, HistoryInv, QueueInv, ReachedInv, Committed;
    hide Follows, Accounts, Extends, SessionStep, MutationsValid;
    CurrentQueue(b);
    var change := EffectiveIsPlanned(line, b, seen, op);
    var commit := Effective(line, b, seen, op).value;
    var next := Apply(b, author, commit);
    PlanKeeps(line, seen, b.keys, Current(b), op);
    CustodyKept(Current(b).state, change.next, b.keys, change.mutations);
    FatesKept(b, change.mutations);
    FatesIgnoreHistory(b.(keys := next.keys, adopted := next.adopted), next);
    QueueKept(Current(b).pending, change.queue, PacketIn(change));
    HistoryExtends(b, author, IntoVersioned(commit, Current(b).revision), next.keys, next.adopted);
    ReachedKept(b, next, IntoVersioned(commit, Current(b).revision));
    QuietKept(b, IntoVersioned(commit, Current(b).revision));
    PacketsKept(line, b, author, commit, PacketIn(change));
  }

  lemma ReachedKept(b: Backend, next: Backend, s: Snapshot)
    requires ReachedInv(b) && next.history == b.history + [s] && b.adopted <= next.adopted
    requires CustodyInv(s.state, next.keys) && FatesInv(next)
    ensures ReachedInv(next)
  {
    forall token, purpose | Reaches(s.state, token, purpose)
      ensures token in next.adopted
    {
      assert AdoptedAs(next.keys, token, purpose);
    }
  }

  lemma QuietKept(b: Backend, s: Snapshot)
    requires HistoryInv(b) && QuietInv(b) && Follows(Current(b).state, s.state)
    requires Current(b).state.Established? || s.pending == [] || s.pending == Current(b).pending
    ensures s.state.Established? || s.state.Closed? || forall r | 0 <= r <= |b.history| :: (b.history + [s])[r].pending == []
  {
  }

  lemma FatesIgnoreHistory(x: Backend, y: Backend)
    requires FatesInv(x)
    requires y.keys == x.keys && y.issued == x.issued && y.adopted == x.adopted && y.aborted == x.aborted
    ensures FatesInv(y)
  {
  }

  lemma CurrentQueue(b: Backend)
    requires HistoryInv(b)
    ensures Fits(b) && QueueInv(Current(b).pending) && Current(b).revision == |b.history| - 1
  {
  }

  // ---- The other moves ----

  lemma SettleKeepsInv(line: LineIds, b: Backend, author: Author, id: PendingId)
    requires Inv(line, b)
    ensures Inv(line, AfterSettling(b, author, id))
  {
    hide PhaseInv, CustodyInv, FatesInv, HistoryInv;
    CurrentQueue(b);
    var s := Current(b);
    if Find(s.pending, id).Some? && Successor(s.revision).Ok? {
      var next := Versioned(s.revision + 1, s.state, WithoutId(s.pending, id));
      WithoutIdKeepsOrder(s.pending, id);
      assert QueueInv(next.pending);
      assert Follows(s.state, s.state);
      HistoryExtends(b, author, next, b.keys, b.adopted);
      FatesIgnoreHistory(b, AfterSettling(b, author, id));
      ReachedKept(b, AfterSettling(b, author, id), next);
      forall packet | Committed(b.history + [next], packet)
        ensures Committed(b.history, packet)
      {
        SettlingCommitsNothing(b.history, next, packet);
      }
    }
  }

  lemma SettlingCommitsNothing(history: seq<Snapshot>, next: Snapshot, packet: Packet)
    requires history != [] && Committed(history + [next], packet)
    requires forall item | item in next.pending :: item in history[|history| - 1].pending
    ensures Committed(history, packet)
  {
    CommittedBy(history, next, packet);
  }

  lemma AbortKeepsInv(line: LineIds, b: Backend, token: Token, purpose: Purpose)
    requires Inv(line, b)
    ensures Inv(line, AfterAborting(b, token, purpose))
  {
    hide PhaseInv, HistoryInv, PacketsInv, Reaches;
    CurrentQueue(b);
    var next := AfterAborting(b, token, purpose);
    assert HistoryInv(next) && PacketsInv(next) by { SameHistory(b, next); }
    if StagedAs(b.keys, token, purpose) {
      forall t: Token, p: Purpose | !p.MlKemEntropy?
        ensures AdoptedAs(next.keys, t, p) <==> AdoptedAs(b.keys, t, p)
      {
      }
    }
  }

  lemma IssueKeepsInv(line: LineIds, b: Backend, token: Token, purpose: Purpose)
    requires Inv(line, b)
    ensures Inv(line, Step(line, b, Issue(token, purpose)))
  {
    hide PhaseInv, HistoryInv, PacketsInv, Reaches;
    CurrentQueue(b);
    var next := Step(line, b, Issue(token, purpose));
    assert HistoryInv(next) && PacketsInv(next) by { SameHistory(b, next); }
    if token !in b.issued {
      IssueKeepsKeys(Current(b).state, b, next, token, purpose);
    }
    hide CustodyInv, FatesInv;
  }

  lemma IssueKeepsKeys(phase: Phase, b: Backend, next: Backend, token: Token, purpose: Purpose)
    requires FatesInv(b) && CustodyInv(phase, b.keys) && token !in b.issued
    requires next.keys == b.keys[token := KeyRecord(purpose, if purpose.MlKemEntropy? then Adopted else Staged)]
    requires next.issued == b.issued + {token} && next.adopted == b.adopted && next.aborted == b.aborted
    ensures FatesInv(next) && CustodyInv(phase, next.keys)
  {
    hide Reaches;
    forall t: Token, p: Purpose | !p.MlKemEntropy?
      ensures AdoptedAs(next.keys, t, p) <==> AdoptedAs(b.keys, t, p)
    {
    }
  }

  lemma SameHistory(b: Backend, next: Backend)
    requires HistoryInv(b) && PacketsInv(b)
    requires next.history == b.history && next.authors == b.authors && next.handed == b.handed && next.adopted == b.adopted
    ensures HistoryInv(next) && PacketsInv(next)
  {
  }

  lemma HandOverKeepsInv(line: LineIds, b: Backend, revision: nat, item: PendingItem)
    requires Inv(line, b)
    ensures Inv(line, Step(line, b, HandOver(revision, item)))
  {
    hide PhaseInv, CustodyInv, FatesInv, HistoryInv, PacketsInv, Reaches, Plan, Effective;
    InvFits(line, b);
    var next := Step(line, b, HandOver(revision, item));
    assert SameButHanded(b, next, item);
    hide Step;
    HandingKeepsHistory(b, next, item);
    FatesIgnoreHistory(b, next);
  }

  /** Nothing changes but that an item of some snapshot may have been handed over. */
  predicate SameButHanded(b: Backend, next: Backend, item: PendingItem) {
    next == b
    || (next == b.(handed := b.handed + {item}) && exists r | 0 <= r < |b.history| :: item in b.history[r].pending)
  }

  lemma HandingKeepsHistory(b: Backend, next: Backend, item: PendingItem)
    requires HistoryInv(b) && PacketsInv(b) && SameButHanded(b, next, item)
    ensures HistoryInv(next) && PacketsInv(next)
  {
    hide QueueInv, Follows;
  }

  // ---- Main theorems ----

  lemma StartIsSound(line: LineIds, phase: Phase)
    requires IsInitial(phase)
    ensures Inv(line, Start(phase))
  {
    StartHistory(phase);
    StartKeys(line, phase);
    hide HistoryInv, ReachedInv, QuietInv, PhaseInv, CustodyInv, FatesInv, PacketsInv;
  }

  lemma StartHistory(phase: Phase)
    requires IsInitial(phase)
    ensures HistoryInv(Start(phase)) && QuietInv(Start(phase)) && PacketsInv(Start(phase))
  {
    var b := Start(phase);
    assert forall r | 0 <= r < |b.history| :: b.history[r] == Versioned(0, phase, []);
  }

  lemma StartKeys(line: LineIds, phase: Phase)
    requires IsInitial(phase)
    ensures ReachedInv(Start(phase)) && FatesInv(Start(phase))
    ensures PhaseInv(line, phase) && CustodyInv(phase, Start(phase).keys)
  {
    var b := Start(phase);
    assert forall r | 0 <= r < |b.history| :: b.history[r].state == phase;
  }

  lemma StepKeepsInv(line: LineIds, b: Backend, move: Move)
    requires Inv(line, b)
    ensures Inv(line, Step(line, b, move))
  {
    hide Inv, Effective, Apply, AfterSettling, AfterAborting;
    InvFits(line, b);
    match move
    case Issue(token, purpose) => IssueKeepsInv(line, b, token, purpose);
    case Abort(token, purpose) => AbortKeepsInv(line, b, token, purpose);
    case Perform(author, seen, op) =>
      if Effective(line, b, seen, op).Some? {
        ApplyKeepsInv(line, b, author, seen, op);
      }
    case Settle(author, id) => SettleKeepsInv(line, b, author, id);
    case HandOver(revision, item) => HandOverKeepsInv(line, b, revision, item);
  }

  lemma InvFits(line: LineIds, b: Backend)
    requires Inv(line, b)
    ensures Fits(b)
  {
  }

  /** Over every run: own work, rivals, lost replies, restarts and hand-overs in any order. */
  lemma {:induction false} RunKeepsInv(line: LineIds, b: Backend, moves: seq<Move>)
    requires Inv(line, b)
    ensures Inv(line, Run(line, b, moves))
    decreases |moves|
  {
    hide Inv, Step;
    InvFits(line, b);
    if moves != [] {
      StepKeepsInv(line, b, moves[0]);
      RunKeepsInv(line, Step(line, b, moves[0]), moves[1..]);
    }
  }

  /** A run only ever adds to the history. */
  lemma {:induction false} RunExtendsHistory(line: LineIds, b: Backend, moves: seq<Move>)
    requires Fits(b)
    ensures b.history <= Run(line, b, moves).history
    ensures |Run(line, b, moves).history| - |b.history| == |Run(line, b, moves).authors| - |b.authors|
    ensures b.authors <= Run(line, b, moves).authors
    decreases |moves|
  {
    if moves != [] {
      StepExtendsHistory(line, b, moves[0]);
      RunExtendsHistory(line, Step(line, b, moves[0]), moves[1..]);
    }
  }

  lemma StepExtendsHistory(line: LineIds, b: Backend, move: Move)
    requires Fits(b)
    ensures b.history <= Step(line, b, move).history
    ensures |Step(line, b, move).history| - |b.history| == |Step(line, b, move).authors| - |b.authors|
    ensures b.authors <= Step(line, b, move).authors
  {
    hide Plan, Effective;
  }

  // ---- Custody ----

  predicate Exactly1(x: bool, y: bool, z: bool) {
    (x && !y && !z) || (!x && y && !z) || (!x && !y && z)
  }

  /** A staged handle has exactly one fate: it is still staged, it was adopted, or it was aborted. */
  predicate OneFate(b: Backend, token: Token) {
    Exactly1(token in b.keys && b.keys[token].lifecycle.Staged?, token in b.adopted, token in b.aborted)
  }

  lemma StepKeepsOneFate(line: LineIds, b: Backend, move: Move, token: Token)
    requires Inv(line, b) && OneFate(b, token)
    ensures OneFate(Step(line, b, move), token)
  {
    hide Plan, PhaseInv, CustodyInv, PacketsInv, HistoryInv, MutationsValid, Effective;
    InvFits(line, b);
    if move.Perform? && Effective(line, b, move.seen, move.op).Some? {
      var change := EffectiveIsPlanned(line, b, move.seen, move.op);
      MutationsTakeEffect(b.keys, change.mutations, token);
      AdoptionsWereStaged(b.keys, change.mutations, token);
    }
  }

  lemma AdoptionsWereStaged(keys: Custody, ms: seq<KeyMutation>, token: Token)
    requires MutationsValid(keys, ms)
    ensures token in AdoptedBy(ms) <==>
            token in keys && keys[token].lifecycle.Staged? && Adopt(keys[token].purpose, token) in ms
    ensures token in keys && Delete(keys[token].purpose, token) in ms ==> keys[token].lifecycle.Adopted?
  {
    if token in AdoptedBy(ms) {
      var m :| m in ms && m.Adopt? && m.token == token;
      assert MutationValid(keys, m);
    }
    if token in keys && Delete(keys[token].purpose, token) in ms {
      assert MutationValid(keys, Delete(keys[token].purpose, token));
    }
  }

  lemma {:induction false} HandlesHaveOneFate(line: LineIds, b: Backend, moves: seq<Move>, token: Token, purpose: Purpose)
    requires Inv(line, b) && (StagedAs(b.keys, token, purpose) || OneFate(b, token))
    ensures OneFate(Run(line, b, moves), token)
    decreases |moves|
  {
    hide Step, PhaseInv, CustodyInv, PacketsInv, HistoryInv;
    assert OneFate(b, token);
    InvFits(line, b);
    if moves != [] {
      StepKeepsOneFate(line, b, moves[0], token);
      StepKeepsInv(line, b, moves[0]);
      HandlesHaveOneFate(line, Step(line, b, moves[0]), moves[1..], token, purpose);
    }
  }

  /** In every run, custody's adopted X25519 and ML-KEM handles are exactly those the stored state reaches. */
  lemma CustodyHoldsWhatStateReaches(line: LineIds, phase: Phase, moves: seq<Move>, token: Token, purpose: Purpose)
    requires IsInitial(phase) && !purpose.MlKemEntropy?
    ensures var b := Run(line, Start(phase), moves);
            AdoptedAs(b.keys, token, purpose) <==> Reaches(Current(b).state, token, purpose)
  {
    hide Step, PhaseInv, FatesInv, PacketsInv, HistoryInv;
    StartIsSound(line, phase);
    RunKeepsInv(line, Start(phase), moves);
  }

  // ---- The mutation bound ----

  /** No valid mutations of one token differ, so mutations are of distinct tokens when none is repeated. */
  lemma DistinctWhenUnrepeated(keys: Custody, ms: seq<KeyMutation>)
    requires MutationsValid(keys, ms) && forall i, j | 0 <= i < j < |ms| :: ms[i] != ms[j]
    ensures DistinctTokens(ms)
  {
    forall i, j | 0 <= i < j < |ms|
      ensures ms[i].token != ms[j].token
    {
      assert MutationValid(keys, ms[i]) && MutationValid(keys, ms[j]);
    }
  }

  lemma {:induction false} SpentIsUnrepeated(active: map<nat, ActivePrekey>, pairs: seq<nat>, spared: nat)
    requires (forall pair | pair in pairs :: pair in active) && Cbor.NoRepeats(pairs) && DistinctPrekeys(active)
    ensures var ms := Spent(active, pairs, spared);
            |ms| <= 2 * |pairs| && forall i, j | 0 <= i < j < |ms| :: ms[i] != ms[j]
  {
    if pairs != [] {
      var rest := Spent(active, pairs[1..], spared);
      SpentIsUnrepeated(active, pairs[1..], spared);
      var kem, x := Delete(MlKem768Private, active[pairs[0]].mlKemPrivate),
                    Delete(X25519Private, active[pairs[0]].x25519Private);
      SpentSays(active, pairs[1..], spared, kem);
      SpentSays(active, pairs[1..], spared, x);
      assert kem !in rest && x !in rest;
    }
  }

  lemma {:induction false} AllSpentIsUnrepeated(active: map<nat, ActivePrekey>, pairs: seq<nat>)
    requires (forall pair | pair in pairs :: pair in active) && Cbor.NoRepeats(pairs) && DistinctPrekeys(active)
    ensures var ms := AllSpent(active, pairs);
            |ms| <= 2 * |pairs| && forall i, j | 0 <= i < j < |ms| :: ms[i] != ms[j]
  {
    if pairs != [] {
      var rest := AllSpent(active, pairs[1..]);
      AllSpentIsUnrepeated(active, pairs[1..]);
      var kem, x := Delete(MlKem768Private, active[pairs[0]].mlKemPrivate),
                    Delete(X25519Private, active[pairs[0]].x25519Private);
      AllSpentSays(active, pairs[1..], kem);
      AllSpentSays(active, pairs[1..], x);
      assert kem !in rest && x !in rest;
    }
  }

  /** Of the commit bounds only those on the pending queue can refuse a change whose keys custody would take. */
  lemma OnlyTheQueueIsRefused(line: LineIds, b: Backend, seen: Custody, op: Operation)
    requires Inv(line, b) && Plan(line, seen, Current(b), op).Ok? && Plan(line, seen, Current(b), op).value.Change?
    requires MutationsValid(b.keys, Plan(line, seen, Current(b), op).value.mutations)
    ensures var change := Plan(line, seen, Current(b), op).value;
            && |change.mutations| <= MAX_ENDPOINT_KEY_MUTATIONS && DistinctTokens(change.mutations)
            && (CommitOf(change).Err? <==> |change.queue| > MAX_ENDPOINT_PENDING || !DistinctIds(change.queue))
  {
    InvFits(line, b);
    hide HistoryInv, QuietInv, ReachedInv, PhaseInv, CustodyInv, FatesInv, PacketsInv;
    var change := Plan(line, seen, Current(b), op).value;
    MutationsAreUnrepeated(line, seen, Current(b), op);
    hide Plan;
    DistinctWhenUnrepeated(b.keys, change.mutations);
  }

  lemma MutationsAreUnrepeated(line: LineIds, seen: Custody, current: Snapshot, op: Operation)
    requires PhaseInv(line, current.state)
    requires Plan(line, seen, current, op).Ok? && Plan(line, seen, current, op).value.Change?
    ensures var ms := Plan(line, seen, current, op).value.mutations;
            |ms| <= MAX_ENDPOINT_KEY_MUTATIONS && forall i, j | 0 <= i < j < |ms| :: ms[i] != ms[j]
  {
    hide PlanAdmitPrekey, PlanAcceptFirstPacket, PlanCreateFirstPacket, PlanSendRecord, PlanReceiveRecord;
    hide PlanDeleteSession, PhaseInv;
    match op
    case AcceptFirstPacket(_, _, _, _, _) => AcceptanceIsUnrepeated(line, seen, current, op);
    case DeleteSession => DeletionIsUnrepeated(line, current);
    case SendRecord(_, _) => RecordsAreUnrepeated(seen, current, op);
    case ReceiveRecord(_, _) => RecordsAreUnrepeated(seen, current, op);
    case AdmitPrekey(_, _, _, _, _, _, _) => KeysAreUnrepeated(line, seen, current, op);
    case CreateFirstPacket(_, _, _, _, _, _, _, _, _) => KeysAreUnrepeated(line, seen, current, op);
    case _ =>
  }

  lemma RecordsAreUnrepeated(seen: Custody, current: Snapshot, op: Operation)
    requires op.SendRecord? || op.ReceiveRecord?
    ensures var planned := if op.SendRecord? then PlanSendRecord(seen, current, op) else PlanReceiveRecord(seen, current, op);
            planned.Ok? && planned.value.Change? ==>
              var ms := planned.value.mutations;
              |ms| <= 2 && forall i, j | 0 <= i < j < |ms| :: ms[i] != ms[j]
  {
    hide Receive, Send, BootstrapResponder, Answering, AnsweringApart;
  }

  lemma KeysAreUnrepeated(line: LineIds, seen: Custody, current: Snapshot, op: Operation)
    requires op.AdmitPrekey? || op.CreateFirstPacket?
    ensures var planned :=
              if op.AdmitPrekey? then PlanAdmitPrekey(line, seen, current, op) else PlanCreateFirstPacket(line, seen, current, op);
            planned.Ok? && planned.value.Change? ==>
              var ms := planned.value.mutations;
              |ms| <= 2 && forall i, j | 0 <= i < j < |ms| :: ms[i] != ms[j]
  {
    hide VerifiesBundle, CoreOf, HybridOf, ContextOf, Confirmation, InitiatorState, Sign;
  }

  lemma AcceptanceIsUnrepeated(line: LineIds, seen: Custody, current: Snapshot, op: Operation)
    requires PhaseInv(line, current.state) && op.AcceptFirstPacket?
    requires PlanAcceptFirstPacket(line, seen, current, op).Ok? && PlanAcceptFirstPacket(line, seen, current, op).value.Change?
    ensures var ms := PlanAcceptFirstPacket(line, seen, current, op).value.mutations;
            |ms| <= MAX_ENDPOINT_KEY_MUTATIONS && forall i, j | 0 <= i < j < |ms| :: ms[i] != ms[j]
  {
    AcceptedShape(line, seen, current, op);
    hide PlanAcceptFirstPacket;
    var active := current.state.active;
    Cbor.SortedKeysDoNotRepeat(active.Keys);
    SpentIsUnrepeated(active, Cbor.SortedKeys(active.Keys), op.packet.prekey.fields.pairSequence);
  }

  lemma DeletionIsUnrepeated(line: LineIds, current: Snapshot)
    requires PhaseInv(line, current.state) && PlanDeleteSession(current).Ok?
    ensures var ms := PlanDeleteSession(current).value.mutations;
            |ms| <= MAX_ENDPOINT_KEY_MUTATIONS && forall i, j | 0 <= i < j < |ms| :: ms[i] != ms[j]
  {
    if current.state.ResponderReady? {
      var active := current.state.active;
      Cbor.SortedKeysDoNotRepeat(active.Keys);
      AllSpentIsUnrepeated(active, Cbor.SortedKeys(active.Keys));
    }
  }

  // ---- What leaves the Endpoint ----

  /**
   Whatever was handed to the caller's boundary stood in a committed snapshot: `Store.HandOverItem`
   asks its caller for that, and no later move takes a snapshot out of the history.
   */
  lemma HandedItemsWereCommitted(line: LineIds, phase: Phase, moves: seq<Move>, item: PendingItem)
    requires IsInitial(phase) && item in Run(line, Start(phase), moves).handed
    ensures exists r | 0 <= r < |Run(line, Start(phase), moves).history| ::
              item in Run(line, Start(phase), moves).history[r].pending
  {
    hide Step, PhaseInv, FatesInv, PacketsInv, CustodyInv;
    StartIsSound(line, phase);
    RunKeepsInv(line, Start(phase), moves);
  }

  /** Two packets handed to the carrier under one ratchet coordinate are the same packet. */
  lemma CoordinatesNeverCarryTwoPackets(line: LineIds, phase: Phase, moves: seq<Move>, x: PendingItem, y: PendingItem)
    requires IsInitial(phase)
    requires x in Run(line, Start(phase), moves).handed && y in Run(line, Start(phase), moves).handed
    requires x.kind.PacketOutput? && y.kind.PacketOutput? && SameCoordinate(x.kind.packet, y.kind.packet)
    ensures x.kind == y.kind
  {
    hide Step, PhaseInv, FatesInv, CustodyInv;
    StartIsSound(line, phase);
    RunKeepsInv(line, Start(phase), moves);
    HandedItemsWereCommitted(line, phase, moves, x);
    HandedItemsWereCommitted(line, phase, moves, y);
    var b := Run(line, Start(phase), moves);
    assert Committed(b.history, x.kind.packet) && Committed(b.history, y.kind.packet);
  }

  /** In every snapshot of every run the queue is bounded as `QueueInv` says. */
  lemma QueuesAreBounded(line: LineIds, phase: Phase, moves: seq<Move>, r: nat)
    requires IsInitial(phase) && r < |Run(line, Start(phase), moves).history|
    ensures QueueInv(Run(line, Start(phase), moves).history[r].pending)
  {
    hide Step, PhaseInv, FatesInv, CustodyInv, PacketsInv, QueueInv;
    StartIsSound(line, phase);
    RunKeepsInv(line, Start(phase), moves);
  }

  // ---- Phases and prekeys ----

  /** Later snapshots follow earlier ones: phases never go back and established sessions keep what they answered. */
  lemma PhasesOnlyAdvance(line: LineIds, phase: Phase, moves: seq<Move>, r: nat, s: nat)
    requires IsInitial(phase) && r <= s < |Run(line, Start(phase), moves).history|
    ensures var history := Run(line, Start(phase), moves).history;
            && history[r].revision == r
            && Follows(history[r].state, history[s].state)
            && (history[r].state.Established? && history[s].state.Established? ==>
                  history[r].state.retryAccept == history[s].state.retryAccept)
  {
    hide Step, PhaseInv, FatesInv, CustodyInv, PacketsInv, QueueInv;
    StartIsSound(line, phase);
    RunKeepsInv(line, Start(phase), moves);
  }

  /** An admitted pair lies above every pair and every high water of the past. */
  lemma PairSequencesRise(line: LineIds, b: Backend, seen: Custody, op: Operation, r: nat, pair: nat)
    requires Inv(line, b) && op.AdmitPrekey? && Plan(line, seen, Current(b), op).Ok?
    requires r < |b.history| && b.history[r].state.ResponderReady? && pair in b.history[r].state.active
    ensures b.history[r].state.highWater <= Current(b).state.highWater < op.pairSequence
    ensures pair <= Current(b).state.highWater
  {
    hide FatesInv, CustodyInv, PacketsInv, QueueInv, ReachedInv, QuietInv, Inv, Plan, PhaseInv, PrekeyInv;
    InvFits(line, b);
    var now := Current(b).state;
    assert Follows(b.history[r].state, now) && PhaseInv(line, now) by {
      LaterFollows(line, b, r);
    }
    AdmissionIsAbove(line, seen, Current(b), op);
    assert pair in now.active;
    ActivePairsLieWithin(line, now, pair);
  }

  lemma LaterFollows(line: LineIds, b: Backend, r: nat)
    requires Inv(line, b) && r < |b.history|
    ensures Fits(b) && Follows(b.history[r].state, Current(b).state) && PhaseInv(line, Current(b).state)
  {
    hide FatesInv, CustodyInv, PacketsInv, QueueInv, ReachedInv, QuietInv, PhaseInv, Follows;
  }

  lemma AdmissionIsAbove(line: LineIds, seen: Custody, current: Snapshot, op: Operation)
    requires op.AdmitPrekey? && Plan(line, seen, current, op).Ok?
    ensures current.state.ResponderReady? && current.state.highWater < op.pairSequence
  {
  }

  lemma ActivePairsLieWithin(line: LineIds, phase: Phase, pair: nat)
    requires phase.ResponderReady? && PhaseInv(line, phase) && pair in phase.active
    ensures pair <= phase.highWater
  {
    assert PrekeyInv(line, pair, phase.highWater, phase.active[pair]);
  }
}

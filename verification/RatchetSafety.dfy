/** Safety over every run of two ratchets: what is accepted, what is stored, and that no key is used twice. */
module RatchetSafety {
  import opened Errors
  import opened Octets
  import opened Symbolic
  import opened Ratchet
  import opened RatchetRuns

  // ---- Symbolic terms ----

  function Depth(secret: Secret): nat {
    match secret
    case Extracted(salt, _, _, _) => 1 + Depth(salt)
    case _ => 0
  }

  lemma {:induction false} RootTermDepth(s: Session, e: seq<Epoch>, j: nat)
    requires 1 <= j < |e|
    ensures Depth(RootTerm(s, e, j)) == j - 1
  {
    if j > 1 {
      RootTermDepth(s, e, j - 1);
    }
  }

  lemma {:induction false} TermsDescend(s: Session, e: seq<Epoch>, j: nat)
    requires 1 <= j < |e|
    ensures Descends(RootTerm(s, e, j), s.hybrid) && Descends(ChainTerm(s, e, j), s.hybrid)
  {
    if j > 1 {
      TermsDescend(s, e, j - 1);
    }
  }

  lemma {:induction false} ChainAtDescends(chain: Secret, start: nat, to: nat, hybrid: HybridInputs)
    requires start <= to && Descends(chain, hybrid)
    ensures Descends(ChainAt(chain, start, to), hybrid)
  {
    if start < to {
      ChainAtDescends(chain, start, to - 1, hybrid);
    }
  }

  lemma {:induction false} ChainAtIsInjective(x: Secret, y: Secret, to: nat)
    requires ChainAt(x, 0, to) == ChainAt(y, 0, to)
    ensures x == y
  {
    if to > 0 {
      ChainAtIsInjective(x, y, to - 1);
    }
  }

  lemma {:induction false} ChainAtComposes(chain: Secret, middle: nat, to: nat)
    requires middle <= to
    ensures ChainAt(ChainAt(chain, 0, middle), middle, to) == ChainAt(chain, 0, to)
  {
    if middle < to {
      ChainAtComposes(chain, middle, to - 1);
    }
  }

  predicate InRange(c: Coordinate, dh: PublicKey, start: nat, to: nat) {
    c.dh == dh && start <= c.n < to
  }

  lemma {:induction false} SkipSets(
    skipped: map<Coordinate, MessageKeys>, dh: PublicKey, chain: Secret, start: nat, to: nat, c: Coordinate)
    requires start <= to && (c in skipped ==> !InRange(c, dh, start, to))
    ensures var store := Skip(skipped, dh, chain, start, to);
            && (c in store <==> c in skipped || InRange(c, dh, start, to))
            && (c in skipped ==> store[c] == skipped[c])
            && (InRange(c, dh, start, to) ==> store[c] == KeysAt(ChainAt(chain, start, c.n), c.n))
  {
    hide KeysAt, ChainAt;
    if start < to {
      SkipSets(skipped, dh, chain, start, to - 1, c);
    }
  }

  lemma NewEntry<K, V>(m: map<K, V>, k: K, v: V)
    requires k !in m
    ensures |m[k := v]| == |m| + 1
  {
    assert m[k := v].Keys == m.Keys + {k};
  }

  lemma {:induction false} SkipSize(
    skipped: map<Coordinate, MessageKeys>, dh: PublicKey, chain: Secret, start: nat, to: nat)
    requires start <= to && forall c | c in skipped :: !InRange(c, dh, start, to)
    ensures |Skip(skipped, dh, chain, start, to)| == |skipped| + (to - start)
  {
    hide KeysAt, ChainAt;
    if start < to {
      var last := Coordinate(dh, to - 1);
      SkipSize(skipped, dh, chain, start, to - 1);
      SkipSets(skipped, dh, chain, start, to - 1, last);
      NewEntry(Skip(skipped, dh, chain, start, to - 1), last, KeysAt(ChainAt(chain, start, to - 1), to - 1));
    }
  }

  /** Skipping adds one entry per counter and disturbs no other entry. */
  lemma SkipAddsTheRange(
    skipped: map<Coordinate, MessageKeys>, dh: PublicKey, chain: Secret, start: nat, to: nat)
    requires start <= to && forall c | c in skipped :: !InRange(c, dh, start, to)
    ensures var store := Skip(skipped, dh, chain, start, to);
            && |store| == |skipped| + (to - start)
            && (forall c :: c in store <==> c in skipped || InRange(c, dh, start, to))
            && (forall c | c in skipped :: store[c] == skipped[c])
            && (forall c | InRange(c, dh, start, to) :: store[c] == KeysAt(ChainAt(chain, start, c.n), c.n))
  {
    hide Skip, KeysAt, ChainAt;
    SkipSize(skipped, dh, chain, start, to);
    forall c
      ensures c in Skip(skipped, dh, chain, start, to) <==> c in skipped || InRange(c, dh, start, to)
      ensures c in skipped ==> Skip(skipped, dh, chain, start, to)[c] == skipped[c]
      ensures InRange(c, dh, start, to) ==>
                Skip(skipped, dh, chain, start, to)[c] == KeysAt(ChainAt(chain, start, c.n), c.n)
    {
      SkipSets(skipped, dh, chain, start, to, c);
    }
  }

  // ---- Epoch histories ----

  predicate SameKeys(e: seq<Epoch>, f: seq<Epoch>) {
    |e| <= |f| && forall j | 0 <= j < |e| :: e[j].key == f[j].key
  }

  lemma {:induction false} TermsAreStable(s: Session, e: seq<Epoch>, f: seq<Epoch>, j: nat)
    requires SameKeys(e, f) && 1 <= j < |e|
    ensures RootTerm(s, e, j) == RootTerm(s, f, j) && ChainTerm(s, e, j) == ChainTerm(s, f, j)
  {
    if j > 1 {
      TermsAreStable(s, e, f, j - 1);
    }
  }

  lemma {:induction false} EpochOfKey(e: seq<Epoch>, j: nat)
    requires j < |e| && forall i, k | 0 <= i < k < |e| :: e[i].key != e[k].key
    ensures EpochOf(e, PublicOf(e[j].key)) == j
  {
    if j < |e| - 1 {
      EpochOfKey(e[..|e| - 1], j);
    }
  }

  lemma {:induction false} EpochOfSameKeys(e: seq<Epoch>, f: seq<Epoch>, dh: PublicKey)
    requires SameKeys(e, f) && |e| == |f|
    ensures EpochOf(e, dh) == EpochOf(f, dh)
  {
    if e != [] {
      EpochOfSameKeys(e[..|e| - 1], f[..|f| - 1], dh);
    }
  }

  lemma EpochOfAppended(e: seq<Epoch>, x: Epoch, dh: PublicKey)
    ensures EpochOf(e + [x], dh) == if dh == PublicOf(x.key) then |e| else EpochOf(e, dh)
  {
    assert (e + [x])[..|e + [x]| - 1] == e;
  }

  /** `f` continues `e`: the same epochs, perhaps one more, and no record forgotten. */
  predicate Continues(e: seq<Epoch>, f: seq<Epoch>) {
    && SameKeys(e, f) && |f| <= |e| + 1
    && forall j | 0 <= j < |e| :: e[j].plaintexts <= f[j].plaintexts
  }

  lemma ContinuesEpochOf(e: seq<Epoch>, f: seq<Epoch>, dh: PublicKey)
    requires Continues(e, f)
    ensures EpochOf(f, dh) == EpochOf(e, dh) || (|f| == |e| + 1 && EpochOf(f, dh) == |e|)
    ensures |f| == |e| ==> EpochOf(f, dh) == EpochOf(e, dh)
  {
    if |f| == |e| {
      EpochOfSameKeys(e, f, dh);
    } else {
      var g := f[..|e|];
      assert f == g + [f[|e|]];
      EpochOfAppended(g, f[|e|], dh);
      EpochOfSameKeys(e, g, dh);
    }
  }

  lemma ContinuesEpochKeys(s: Session, e: seq<Epoch>, f: seq<Epoch>, j: nat, n: nat)
    requires Continues(e, f) && 1 <= j < |e|
    ensures EpochKeys(s, e, j, n) == EpochKeys(s, f, j, n)
  {
    TermsAreStable(s, e, f, j);
  }

  /** The store stays exact while the epochs already read do not grow. */
  lemma ExactIsStable(
    s: Session, e: seq<Epoch>, f: seq<Epoch>, p: Party, r: nat, nr: nat,
    skipped: map<Coordinate, MessageKeys>, x: set<Accepted>, y: set<Accepted>)
    requires EpochsOk(f) && Continues(e, f) && r < |e|
    requires forall j | 0 <= j < r && (r - j) % 2 == 0 :: |e[j].plaintexts| == |f[j].plaintexts|
    requires forall c :: Accepted(p, c) in x <==> Accepted(p, c) in y
    requires Exact(s, e, p, r, nr, skipped, x)
    ensures Exact(s, f, p, r, nr, skipped, y)
  {
    forall c: Coordinate
      ensures Below(e, r, nr, c) == Below(f, r, nr, c)
    {
      ContinuesEpochOf(e, f, c.dh);
    }
    forall c: Coordinate | c in skipped
      ensures skipped[c] == EpochKeys(s, f, EpochOf(f, c.dh), c.n)
    {
      ContinuesEpochOf(e, f, c.dh);
      assert Below(e, r, nr, c);
      ContinuesEpochKeys(s, e, f, EpochOf(e, c.dh), c.n);
    }
  }

  /**
   A party keeps its invariant when history goes on without it: its own epochs and those it
   has finished reading have not grown, and nothing new is recorded as accepted by it.
   */
  lemma Undisturbed(
    s: Session, e: seq<Epoch>, f: seq<Epoch>, p: Party, st: RatchetState, x: set<Accepted>, y: set<Accepted>)
    requires EpochsOk(e) && EpochsOk(f) && Continues(e, f)
    requires SendEpoch(e, p) == SendEpoch(f, p)
    requires forall j | 0 <= j < |e| && j != ReceiveEpoch(e, p) && (j <= ReceiveEpoch(e, p) || Owns(p, j)) :: e[j] == f[j]
    requires forall c :: Accepted(p, c) in x <==> Accepted(p, c) in y
    requires FieldsInv(s, e, p, st) && StoreInv(s, e, p, st, x)
    ensures FieldsInv(s, f, p, st) && StoreInv(s, f, p, st, y)
  {
    hide Exact;
    var k, r := SendEpoch(e, p), ReceiveEpoch(e, p);
    TermsAreStable(s, e, f, RootEpoch(e, p));
    if k > 0 {
      TermsAreStable(s, e, f, k);
    }
    if r > 0 {
      TermsAreStable(s, e, f, r);
    }
    assert e[k] == f[k];
    ExactIsStable(s, e, f, p, r, st.nr, st.skipped, x, y);
  }

  // ---- Opening proves origin ----

  /** A body that opens under keys of this session, for this header, is a packet of the epoch the header names. */
  lemma OpenedIsHonest(w: World, packet: Packet, keys: MessageKeys)
    requires Inv(w) && Injectable(w, packet.body) && Descends(keys.key, w.session.hybrid)
    requires Open(keys, RecordAad(w.session.context, packet.header), packet.body).Ok?
    ensures var j := EpochOf(w.epochs, packet.header.dh);
            && j >= 1 && packet.header.n < |w.epochs[j].plaintexts|
            && packet == HonestPacket(w.session, w.epochs, j, packet.header.n)
            && keys == EpochKeys(w.session, w.epochs, j, packet.header.n)
  {
    var sent :| sent in w.network && sent.packet.body == packet.body;
    assert IsHonest(w.session, w.epochs, sent);
    assert sent.packet == packet;
  }

  lemma OwnersAlternate(e: seq<Epoch>, p: Party)
    requires |e| >= 2
    ensures ReceiveEpoch(e, p) > 0 ==> Owns(p.Peer(), ReceiveEpoch(e, p))
    ensures forall j | 0 <= j <= ReceiveEpoch(e, p) && (ReceiveEpoch(e, p) - j) % 2 == 0 && j > 0 :: Owns(p.Peer(), j)
  {
  }

  // ---- The three ways a packet is accepted ----

  /** The packet was skipped earlier: its stored keys open it and leave the store. */
  lemma AcceptStored(w: World, p: Party, packet: Packet)
    requires Inv(w) && Injectable(w, packet.body)
    requires Coordinate(packet.header.dh, packet.header.n) in w.State(p).skipped
    requires Open(w.State(p).skipped[Coordinate(packet.header.dh, packet.header.n)],
                  RecordAad(w.State(p).context, packet.header), packet.body).Ok?
    ensures var j := EpochOf(w.epochs, packet.header.dh);
            && j >= 1 && Owns(p.Peer(), j) && packet.header.n < |w.epochs[j].plaintexts|
            && packet == HonestPacket(w.session, w.epochs, j, packet.header.n)
    ensures var c := Coordinate(packet.header.dh, packet.header.n);
            var next := w.State(p).(skipped := w.State(p).skipped - {c});
            && Accepted(p, c) !in w.accepted
            && FieldsInv(w.session, w.epochs, p, next)
            && StoreInv(w.session, w.epochs, p, next, w.accepted + {Accepted(p, c)})
  {
    var c := Coordinate(packet.header.dh, packet.header.n);
    var st, e, s := w.State(p), w.epochs, w.session;
    var j := EpochOf(e, c.dh);
    assert FieldsInv(s, e, p, st) && StoreInv(s, e, p, st, w.accepted);
    hide Inv, FieldsInv;
    assert 1 <= j && st.skipped[c] == EpochKeys(s, e, j, c.n) && st.context == s.context by {
      assert Below(e, ReceiveEpoch(e, p), st.nr, c);
      FieldsGiveContext(s, e, p, st);
    }
    TermsDescend(s, e, j);
    ChainAtDescends(ChainTerm(s, e, j), 0, c.n, s.hybrid);
    OpenedIsHonest(w, packet, st.skipped[c]);
    OwnersAlternate(e, p);
    StoredKeysLeave(s, e, p, st, w.accepted, c);
  }

  lemma FieldsGiveContext(s: Session, e: seq<Epoch>, p: Party, st: RatchetState)
    requires EpochsOk(e) && FieldsInv(s, e, p, st)
    ensures st.context == s.context
  {
  }

  lemma StoredKeysLeave(s: Session, e: seq<Epoch>, p: Party, st: RatchetState, x: set<Accepted>, c: Coordinate)
    requires EpochsOk(e) && FieldsInv(s, e, p, st) && StoreInv(s, e, p, st, x) && c in st.skipped
    ensures var next := st.(skipped := st.skipped - {c});
            && Accepted(p, c) !in x && FieldsInv(s, e, p, next) && StoreInv(s, e, p, next, x + {Accepted(p, c)})
  {
    hide Below, EpochKeys, ChainAt, ChainTerm, RootTerm;
  }

  /** Skipping to a counter moves the watermark there, one entry per counter passed. */
  lemma SkipMovesWatermark(
    s: Session, e: seq<Epoch>, p: Party, r: nat, nr: nat, skipped: map<Coordinate, MessageKeys>, x: set<Accepted>, to: nat)
    requires EpochsOk(e) && 1 <= r < |e| && nr <= to
    requires Exact(s, e, p, r, nr, skipped, x)
    ensures var store := Skip(skipped, PublicOf(e[r].key), ChainAt(ChainTerm(s, e, r), 0, nr), nr, to);
            Exact(s, e, p, r, to, store, x) && |store| == |skipped| + (to - nr)
  {
    var dh, chain := PublicOf(e[r].key), ChainTerm(s, e, r);
    var store := Skip(skipped, dh, ChainAt(chain, 0, nr), nr, to);
    EpochOfKey(e, r);
    forall c: Coordinate
      ensures Below(e, r, to, c) <==> Below(e, r, nr, c) || InRange(c, dh, nr, to)
      ensures InRange(c, dh, nr, to) ==> !Below(e, r, nr, c)
    {
    }
    SkipAddsTheRange(skipped, dh, ChainAt(chain, 0, nr), nr, to);
    forall c: Coordinate | c in store
      ensures store[c] == EpochKeys(s, e, EpochOf(e, c.dh), c.n)
    {
      if InRange(c, dh, nr, to) {
        ChainAtComposes(chain, nr, c.n);
      }
    }
  }

  /** Accepting the counter at the watermark moves the watermark past it. */
  lemma AcceptAtWatermark(
    s: Session, e: seq<Epoch>, p: Party, r: nat, n: nat, store: map<Coordinate, MessageKeys>, x: set<Accepted>)
    requires EpochsOk(e) && 1 <= r < |e| && Exact(s, e, p, r, n, store, x)
    ensures var c := Coordinate(PublicOf(e[r].key), n);
            Accepted(p, c) !in x && Exact(s, e, p, r, n + 1, store, x + {Accepted(p, c)})
  {
    var here := Coordinate(PublicOf(e[r].key), n);
    EpochOfKey(e, r);
    forall c: Coordinate
      ensures Below(e, r, n + 1, c) <==> Below(e, r, n, c) || c == here
      ensures !Below(e, r, n, here)
    {
    }
  }

  /** On the receiving chain: counters up to this one are stored, and the watermark moves past it. */
  lemma AdvanceChain(
    s: Session, e: seq<Epoch>, p: Party, st: RatchetState, x: set<Accepted>, packet: Packet, next: RatchetState, plaintext: Bytes)
    requires EpochsOk(e) && FieldsInv(s, e, p, st) && StoreInv(s, e, p, st, x)
    requires ReceiveEpoch(e, p) >= 1 && packet.header.dh == PublicOf(e[ReceiveEpoch(e, p)].key)
    requires packet.header.n < |e[ReceiveEpoch(e, p)].plaintexts|
    requires ReceiveInChain(st, packet) == Ok((next, plaintext))
    ensures var c := Coordinate(packet.header.dh, packet.header.n);
            && Accepted(p, c) !in x
            && FieldsInv(s, e, p, next)
            && StoreInv(s, e, p, next, x + {Accepted(p, c)})
  {
    hide Exact;
    var r, n := ReceiveEpoch(e, p), packet.header.n;
    ChainAtComposes(ChainTerm(s, e, r), st.nr, n);
    SkipMovesWatermark(s, e, p, r, st.nr, st.skipped, x, n);
    AcceptAtWatermark(s, e, p, r, n, next.skipped, x);
    assert next.receiving == Some(ChainAt(ChainTerm(s, e, r), 0, n + 1));
  }

  /** The keys the receiving chain yields for its own epoch are the sender's. */
  lemma ChainYieldsEpochKeys(s: Session, e: seq<Epoch>, p: Party, st: RatchetState, n: nat)
    requires EpochsOk(e) && FieldsInv(s, e, p, st)
    requires ReceiveEpoch(e, p) >= 1 && st.nr <= n
    ensures KeysAt(ChainAt(st.receiving.value, st.nr, n), n) == EpochKeys(s, e, ReceiveEpoch(e, p), n)
  {
    ChainAtComposes(ChainTerm(s, e, ReceiveEpoch(e, p)), st.nr, n);
  }

  lemma AcceptInChain(w: World, p: Party, packet: Packet, next: RatchetState, plaintext: Bytes)
    requires Inv(w) && Injectable(w, packet.body)
    requires packet.header.dh == w.State(p).peerPublic
    requires ReceiveInChain(w.State(p), packet) == Ok((next, plaintext))
    ensures var j := EpochOf(w.epochs, packet.header.dh);
            && j >= 1 && Owns(p.Peer(), j) && packet.header.n < |w.epochs[j].plaintexts|
            && packet == HonestPacket(w.session, w.epochs, j, packet.header.n)
    ensures var c := Coordinate(packet.header.dh, packet.header.n);
            && Accepted(p, c) !in w.accepted
            && FieldsInv(w.session, w.epochs, p, next)
            && StoreInv(w.session, w.epochs, p, next, w.accepted + {Accepted(p, c)})
  {
    var st, e, s := w.State(p), w.epochs, w.session;
    assert FieldsInv(s, e, p, st) && StoreInv(s, e, p, st, w.accepted);
    var r := ReceiveEpoch(e, p);
    ChainYieldsEpochKeys(s, e, p, st, packet.header.n);
    TermsDescend(s, e, r);
    ChainAtDescends(ChainTerm(s, e, r), 0, packet.header.n, s.hybrid);
    OpenedIsHonest(w, packet, EpochKeys(s, e, r, packet.header.n));
    EpochOfKey(e, r);
    OwnersAlternate(e, p);
    AdvanceChain(s, e, p, st, w.accepted, packet, next, plaintext);
  }

  /** A turn of the DH ratchet that opens a packet was made for the epoch after the party's own. */
  lemma TurnOpensOnlyNextEpoch(
    w: World, p: Party, custody: set<Token>, packet: Packet, offered: Option<Token>, turned: RatchetState)
    requires Inv(w) && Injectable(w, packet.body)
    requires packet.header.dh != w.State(p).peerPublic
    requires ReceiveDhTransition(w.State(p), custody, packet.header, offered) == Ok(turned)
    requires ReceiveInChain(turned, packet).Ok?
    ensures var j := EpochOf(w.epochs, packet.header.dh);
            && j == SendEpoch(w.epochs, p) + 1 == |w.epochs| - 1 && j >= 2
            && packet.header.n < |w.epochs[j].plaintexts|
            && packet == HonestPacket(w.session, w.epochs, j, packet.header.n)
  {
    hide StoreInv, NetworkInv, PlaintextsFit, ChainAt, EpochOf, HonestPacket;
    var st, e, s, n := w.State(p), w.epochs, w.session, packet.header.n;
    assert FieldsInv(s, e, p, st);
    var root := RootEpoch(e, p);
    var chain := turned.receiving.value;
    RootTermDepth(s, e, root);
    TermsDescend(s, e, root);
    assert Descends(chain, s.hybrid);
    ChainAtDescends(chain, 0, n, s.hybrid);
    OpenedIsHonest(w, packet, KeysAt(ChainAt(chain, 0, n), n));
    var j := EpochOf(e, packet.header.dh);
    ChainAtIsInjective(chain, ChainTerm(s, e, j), n);
    if j > 1 {
      RootTermDepth(s, e, j - 1);
    }
  }

  lemma TurnResult(st: RatchetState, custody: set<Token>, header: Header, offered: Option<Token>, turned: RatchetState)
    requires ReceiveDhTransition(st, custody, header, offered) == Ok(turned)
    ensures offered.Some? && header.dh.PublicOf?
    ensures var received := DhStep(st.root, Agree(st.localPrivate, header.dh.token), st.sendDirection.Opposite(), st.context);
            var sent := DhStep(received.root, Agree(offered.value, header.dh.token), st.sendDirection, st.context);
            turned == st.(
              root := sent.root, peerPublic := header.dh,
              localPrivate := offered.value, localPublic := PublicOf(offered.value),
              receiving := Some(received.chain), sending := Some(sent.chain),
              pn := st.ns, ns := 0, nr := 0, skipped := turned.skipped)
  {
    hide Skip, DhStep;
  }

  lemma NewEpochContinues(e: seq<Epoch>, key: Token)
    requires EpochsOk(e) && Unused(e, key)
    ensures EpochsOk(e + [Epoch(key, [])]) && Continues(e, e + [Epoch(key, [])])
    ensures forall j: nat | j < |e| :: PreviousCount(e + [Epoch(key, [])], j) == PreviousCount(e, j)
  {
  }

  /** The turned chains and root are the terms of the epoch being read and of the new one. */
  lemma TurnReachesTerms(
    s: Session, e: seq<Epoch>, p: Party, st: RatchetState,
    custody: set<Token>, header: Header, offered: Option<Token>, turned: RatchetState)
    requires EpochsOk(e) && FieldsInv(s, e, p, st)
    requires SendEpoch(e, p) == |e| - 2 && |e| >= 3 && header.dh == PublicOf(e[|e| - 1].key)
    requires ReceiveDhTransition(st, custody, header, offered) == Ok(turned)
    ensures offered.Some?
    ensures var f := e + [Epoch(offered.value, [])];
            && turned.receiving == Some(ChainTerm(s, f, |e| - 1)) && turned.sending == Some(ChainTerm(s, f, |e|))
            && turned.root == RootTerm(s, f, |e|)
  {
    var m := |e| - 1;
    TurnResult(st, custody, header, offered, turned);
    hide ReceiveDhTransition, EpochsOk, EpochOf, ChainAt, PreviousCount;
    var f := e + [Epoch(offered.value, [])];
    TermsAreStable(s, e, f, m - 1);
    assert st.root == RootTerm(s, f, m - 1) && st.context == s.context;
    assert EpochDirection(m + 1) == st.sendDirection && EpochDirection(m) == st.sendDirection.Opposite();
    assert st.localPrivate == f[m - 1].key && header.dh.token == f[m].key && offered.value == f[m + 1].key;
    hide FieldsInv, DhStep, RootTerm, ChainTerm;
    DhStepsFollowEpochs(s, f, m);
    DhStepsFollowEpochs(s, f, m + 1);
  }

  /** Turning for the peer's latest epoch: both chains and the root become those of the next two epochs. */
  lemma TurnKeepsFields(
    s: Session, e: seq<Epoch>, p: Party, st: RatchetState,
    custody: set<Token>, header: Header, offered: Option<Token>, turned: RatchetState)
    requires EpochsOk(e) && FieldsInv(s, e, p, st)
    requires SendEpoch(e, p) == |e| - 2 && |e| >= 3
    requires header.dh == PublicOf(e[|e| - 1].key) && header.pn == PreviousCount(e, |e| - 1)
    requires ReceiveDhTransition(st, custody, header, offered) == Ok(turned)
    requires Unused(e, offered.value)
    ensures var f := e + [Epoch(offered.value, [])];
            && EpochsOk(f) && Continues(e, f)
            && SendEpoch(f, p) == |e| && ReceiveEpoch(f, p) == |e| - 1
            && turned.localPrivate == offered.value != st.localPrivate
            && FieldsInv(s, f, p, turned)
  {
    var m := |e| - 1;
    var f := e + [Epoch(offered.value, [])];
    NewEpochContinues(e, offered.value);
    TurnReachesTerms(s, e, p, st, custody, header, offered, turned);
    TurnResult(st, custody, header, offered, turned);
    hide ReceiveDhTransition, DhStep, RootTerm, ChainTerm, EpochsOk, Continues, EpochOf, Agree;
    assert st.ns == |e[m - 1].plaintexts| && st.localPrivate == e[m - 1].key && st.context == s.context;
    assert st.sendDirection == if p.Initiator? then InitiatorToResponder else ResponderToInitiator;
    hide FieldsInv;
    TurnedFields(s, f, p, turned);
  }

  lemma TurnedFields(s: Session, f: seq<Epoch>, p: Party, turned: RatchetState)
    requires EpochsOk(f) && |f| >= 3 && SendEpoch(f, p) == |f| - 1
    requires turned.context == s.context
    requires turned.sendDirection == if p.Initiator? then InitiatorToResponder else ResponderToInitiator
    requires var m := |f| - 2;
             && turned.localPrivate == f[m + 1].key && turned.localPublic == PublicOf(f[m + 1].key)
             && turned.peerPublic == PublicOf(f[m].key) && f[m + 1].plaintexts == []
             && turned.root == RootTerm(s, f, m + 1) && turned.pn == |f[m - 1].plaintexts|
             && turned.ns == 0 && turned.nr == 0
             && turned.sending == Some(ChainTerm(s, f, m + 1)) && turned.receiving == Some(ChainTerm(s, f, m))
    ensures FieldsInv(s, f, p, turned) && ReceiveEpoch(f, p) == |f| - 2
  {
    hide RootTerm, ChainTerm, EpochsOk, EpochOf;
  }

  lemma DhStepsFollowEpochs(s: Session, e: seq<Epoch>, j: nat)
    requires 2 <= j < |e|
    ensures DhStep(RootTerm(s, e, j - 1), Agree(e[j].key, e[j - 1].key), EpochDirection(j), s.context)
         == DhKeys(RootTerm(s, e, j), ChainTerm(s, e, j))
    ensures Agree(e[j].key, e[j - 1].key) == Agree(e[j - 1].key, e[j].key)
  {
  }

  lemma TurnKeepsStore(
    s: Session, e: seq<Epoch>, p: Party, st: RatchetState, x: set<Accepted>,
    custody: set<Token>, header: Header, offered: Option<Token>, turned: RatchetState)
    requires EpochsOk(e) && FieldsInv(s, e, p, st) && StoreInv(s, e, p, st, x)
    requires SendEpoch(e, p) == |e| - 2 && |e| >= 3
    requires header.dh == PublicOf(e[|e| - 1].key) && header.pn == PreviousCount(e, |e| - 1)
    requires ReceiveDhTransition(st, custody, header, offered) == Ok(turned)
    requires Unused(e, offered.value)
    ensures var f := e + [Epoch(offered.value, [])];
            EpochsOk(f) && StoreInv(s, f, p, turned, x)
  {
    hide Exact;
    var r := ReceiveEpoch(e, p);
    TurnKeepsFields(s, e, p, st, custody, header, offered, turned);
    assert header.pn == |e[r].plaintexts|;
    if r == 0 {
      NothingReadYet(s, e, p, st.skipped, x);
    } else {
      SkipMovesWatermark(s, e, p, r, st.nr, st.skipped, x, header.pn);
    }
    FinishedEpochStaysExact(s, e, Epoch(offered.value, []), p, r, turned.skipped, x);
  }

  /** With the previous epoch read to its end, a new receiving chain starts with its watermark at 0. */
  lemma FinishedEpochStaysBelow(s: Session, e: seq<Epoch>, latest: Epoch, r: nat, c: Coordinate)
    requires EpochsOk(e) && EpochsOk(e + [latest]) && r + 2 < |e| + 1
    ensures Below(e + [latest], r + 2, 0, c) <==> Below(e, r, |e[r].plaintexts|, c)
    ensures Below(e, r, |e[r].plaintexts|, c) ==>
              && EpochOf(e + [latest], c.dh) == EpochOf(e, c.dh) >= 1
              && EpochKeys(s, e + [latest], EpochOf(e, c.dh), c.n) == EpochKeys(s, e, EpochOf(e, c.dh), c.n)
  {
    hide EpochKeys, EpochOf;
    var f := e + [latest];
    ContinuesEpochOf(e, f, c.dh);
    if Below(e, r, |e[r].plaintexts|, c) {
      ContinuesEpochKeys(s, e, f, EpochOf(e, c.dh), c.n);
    }
  }

  lemma FinishedEpochStaysExact(
    s: Session, e: seq<Epoch>, latest: Epoch, p: Party, r: nat, store: map<Coordinate, MessageKeys>, x: set<Accepted>)
    requires EpochsOk(e) && EpochsOk(e + [latest]) && r + 2 < |e| + 1
    requires Exact(s, e, p, r, |e[r].plaintexts|, store, x)
    ensures Exact(s, e + [latest], p, r + 2, 0, store, x)
  {
    hide Below, EpochOf, EpochKeys, EpochsOk;
    forall c: Coordinate
      ensures Below(e + [latest], r + 2, 0, c) <==> Below(e, r, |e[r].plaintexts|, c)
      ensures c in store ==> EpochOf(e + [latest], c.dh) >= 1
    {
      FinishedEpochStaysBelow(s, e, latest, r, c);
    }
    forall c: Coordinate | c in store
      ensures store[c] == EpochKeys(s, e + [latest], EpochOf(e + [latest], c.dh), c.n)
    {
      FinishedEpochStaysBelow(s, e, latest, r, c);
    }
  }

  lemma NothingReadYet(s: Session, e: seq<Epoch>, p: Party, store: map<Coordinate, MessageKeys>, x: set<Accepted>)
    requires |e| > 0 && Exact(s, e, p, 0, 0, store, x)
    ensures forall nr: nat :: Exact(s, e, p, 0, nr, store, x)
  {
    forall nr: nat, c: Coordinate
      ensures !Below(e, 0, nr, c)
    {
    }
  }

  lemma AcceptNextEpoch(
    w: World, p: Party, custody: set<Token>, packet: Packet, offered: Option<Token>,
    turned: RatchetState, next: RatchetState, plaintext: Bytes)
    requires Inv(w) && Injectable(w, packet.body)
    requires offered.Some? ==> Unused(w.epochs, offered.value)
    requires packet.header.dh != w.State(p).peerPublic
    requires ReceiveDhTransition(w.State(p), custody, packet.header, offered) == Ok(turned)
    requires ReceiveInChain(turned, packet) == Ok((next, plaintext))
    ensures var j := EpochOf(w.epochs, packet.header.dh);
            && j >= 1 && Owns(p.Peer(), j) && packet.header.n < |w.epochs[j].plaintexts|
            && packet == HonestPacket(w.session, w.epochs, j, packet.header.n)
    ensures var c := Coordinate(packet.header.dh, packet.header.n);
            var f := w.epochs + [Epoch(next.localPrivate, [])];
            && next.localPrivate != w.State(p).localPrivate
            && Accepted(p, c) !in w.accepted
            && EpochsOk(f) && Continues(w.epochs, f) && SendEpoch(f, p.Peer()) == SendEpoch(w.epochs, p.Peer())
            && FieldsInv(w.session, f, p, next)
            && StoreInv(w.session, f, p, next, w.accepted + {Accepted(p, c)})
  {
    hide EpochKeys, ChainTerm, RootTerm, Skip, ChainAt, KeysAt, DhStep, Exact, NetworkInv;
    var st, e, s := w.State(p), w.epochs, w.session;
    assert FieldsInv(s, e, p, st) && StoreInv(s, e, p, st, w.accepted);
    hide Injectable;
    TurnOpensOnlyNextEpoch(w, p, custody, packet, offered, turned);
    TurnKeepsFields(s, e, p, st, custody, packet.header, offered, turned);
    TurnKeepsStore(s, e, p, st, w.accepted, custody, packet.header, offered, turned);
    var f := e + [Epoch(offered.value, [])];
    assert next.localPrivate == offered.value;
    AdvanceChain(s, f, p, turned, w.accepted, packet, next, plaintext);
  }
}

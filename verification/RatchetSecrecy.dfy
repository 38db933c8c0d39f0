/** What the ratchet's keys are made of: every agreement up to their epoch, and that no key plays two parts. */
module RatchetSecrecy {
  import opened Errors
  import opened Symbolic
  import opened Ratchet
  import opened RatchetRuns
  import opened RatchetSafety
  import opened RatchetTheorems

  // ---- Secrets as terms ----

  /** The X25519 secret that two private keys share went into the derivation of the key. */
  predicate MadeWith(secret: Secret, x: Token, y: Token) {
    match secret
    case HybridKey(_, _) => false
    case Expanded(key, _, _) => MadeWith(key, x, y)
    case Extracted(salt, shared, _, _) => {shared.low, shared.high} == {x, y} || MadeWith(salt, x, y)
  }

  /** The derivation holds the agreement of epoch `i`: of its own key with the key of the epoch before. */
  predicate Holds(secret: Secret, e: seq<Epoch>, i: nat)
    requires 1 <= i < |e|
  {
    MadeWith(secret, e[i].key, e[i - 1].key)
  }

  /** The session context went into the derivation of the key. */
  predicate MadeFor(secret: Secret, context: Digest) {
    match secret
    case HybridKey(_, _) => false
    case Expanded(key, _, info) => info == OfContext(context) || MadeFor(key, context)
    case Extracted(salt, _, _, info) => info == OfContext(context) || MadeFor(salt, context)
  }

  /** What the last derivation was for. */
  function Purpose(secret: Secret): Domain {
    match secret
    case HybridKey(domain, _) => domain
    case Expanded(_, domain, _) => domain
    case Extracted(_, _, domain, _) => domain
  }

  lemma {:induction false} TermsHoldAgreements(s: Session, e: seq<Epoch>, j: nat, i: nat)
    requires 2 <= i <= j < |e|
    ensures Holds(RootTerm(s, e, j), e, i) && Holds(ChainTerm(s, e, j), e, i)
  {
    if i < j {
      TermsHoldAgreements(s, e, j - 1, i);
    }
  }

  lemma {:induction false} ChainsKeepIngredients(chain: Secret, to: nat, x: Token, y: Token, context: Digest)
    ensures MadeWith(chain, x, y) ==> MadeWith(ChainAt(chain, 0, to), x, y)
    ensures MadeFor(chain, context) ==> MadeFor(ChainAt(chain, 0, to), context)
  {
    if to > 0 {
      ChainsKeepIngredients(chain, to - 1, x, y, context);
    }
  }

  lemma {:induction false} TermsAreForTheSession(s: Session, e: seq<Epoch>, j: nat)
    requires 1 <= j < |e|
    ensures MadeFor(RootTerm(s, e, j), s.context) && MadeFor(ChainTerm(s, e, j), s.context)
  {
    if j > 1 {
      TermsAreForTheSession(s, e, j - 1);
    }
  }

  lemma EpochKeysHoldAgreements(s: Session, e: seq<Epoch>, j: nat, n: nat, i: nat)
    requires 2 <= i <= j < |e|
    ensures Holds(EpochKeys(s, e, j, n).key, e, i) && Holds(EpochKeys(s, e, j, n).nonce, e, i)
  {
    hide ChainTerm, ChainAt;
    TermsHoldAgreements(s, e, j, i);
    ChainsKeepIngredients(ChainTerm(s, e, j), n, e[i].key, e[i - 1].key, s.context);
  }

  // ---- Sealing keys and roots ----

  /** The key and nonce that seal a packet are made with the agreement of every turn up to its epoch. */
  lemma SealingKeysHoldEveryAgreement(w: World, sent: Sent, i: nat)
    requires Reachable(w) && sent in w.network && 2 <= i <= EpochOf(w.epochs, sent.packet.header.dh)
    ensures sent.packet.body.Sealed?
    ensures Holds(sent.packet.body.key, w.epochs, i)
    ensures Holds(sent.packet.body.nonce, w.epochs, i)
  {
    hide Reachable, EpochKeys, EpochOf;
    ReachableIsSound(w);
    HonestIffSent(w, sent);
    EpochKeysHoldAgreements(w.session, w.epochs, EpochOf(w.epochs, sent.packet.header.dh), sent.packet.header.n, i);
  }

  /** And so is the root either party holds. */
  lemma RootsHoldEveryAgreement(w: World, p: Party, i: nat)
    requires Reachable(w) && |w.epochs| >= 2 && 2 <= i <= RootEpoch(w.epochs, p)
    ensures Holds(w.State(p).root, w.epochs, i)
  {
    hide Reachable, RootTerm, ChainTerm, ChainAt, StoreInv, NetworkInv;
    ReachableIsSound(w);
    InvFor(w, p);
    TermsHoldAgreements(w.session, w.epochs, RootEpoch(w.epochs, p), i);
  }

  /** Every sealing key is derived from this session's hybrid secret and for its context. */
  lemma SealingKeysAreForTheSession(w: World, sent: Sent)
    requires Reachable(w) && sent in w.network
    ensures sent.packet.body.Sealed?
    ensures Descends(sent.packet.body.key, w.session.hybrid) && MadeFor(sent.packet.body.key, w.session.context)
    ensures Descends(sent.packet.body.nonce, w.session.hybrid) && MadeFor(sent.packet.body.nonce, w.session.context)
  {
    hide Reachable, EpochOf, RootTerm, ChainTerm, ChainAt;
    ReachableIsSound(w);
    HonestIffSent(w, sent);
    var s, e, j, n := w.session, w.epochs, EpochOf(w.epochs, sent.packet.header.dh), sent.packet.header.n;
    TermsDescend(s, e, j);
    TermsAreForTheSession(s, e, j);
    ChainAtDescends(ChainTerm(s, e, j), 0, n, s.hybrid);
    ChainsKeepIngredients(ChainTerm(s, e, j), n, e[j].key, e[j - 1].key, s.context);
  }

  // ---- The key schedule, written out ----

  /** The agreement of the keys of epochs `j` and `j - 1`. */
  function Turning(e: seq<Epoch>, j: nat): Shared
    requires 1 <= j < |e|
  {
    var x, y := e[j].key, e[j - 1].key;
    if x <= y then Shared(x, y) else Shared(y, x)
  }

  /** Odd epochs are the initiator's. */
  function RootOf(s: Session, e: seq<Epoch>, j: nat): Secret
    requires 1 <= j < |e|
  {
    if j == 1 then Expanded(HybridKey(HybridRoot, s.hybrid), InitialRoot, OfContext(s.context))
    else
      Extracted(RootOf(s, e, j - 1), Turning(e, j), if j % 2 == 1 then RootI2R else RootR2I, OfContext(s.context))
  }

  function FirstChainOf(s: Session, e: seq<Epoch>, j: nat): Secret
    requires 1 <= j < |e|
  {
    if j == 1 then Expanded(HybridKey(HybridRoot, s.hybrid), ChainI2R, OfContext(s.context))
    else
      Extracted(RootOf(s, e, j - 1), Turning(e, j), if j % 2 == 1 then ChainI2R else ChainR2I, OfContext(s.context))
  }

  function ChainOf(s: Session, e: seq<Epoch>, j: nat, n: nat): Secret
    requires 1 <= j < |e|
  {
    if n == 0 then FirstChainOf(s, e, j) else Expanded(ChainOf(s, e, j, n - 1), NextChain, OfCounter(n - 1))
  }

  lemma {:induction false} TermsAreScheduled(s: Session, e: seq<Epoch>, j: nat)
    requires 1 <= j < |e|
    ensures RootTerm(s, e, j) == RootOf(s, e, j) && ChainTerm(s, e, j) == FirstChainOf(s, e, j)
  {
    if j > 1 {
      TermsAreScheduled(s, e, j - 1);
    }
  }

  lemma {:induction false} ChainsAreScheduled(s: Session, e: seq<Epoch>, j: nat, n: nat)
    requires 1 <= j < |e|
    ensures ChainAt(ChainTerm(s, e, j), 0, n) == ChainOf(s, e, j, n)
  {
    hide ChainTerm, FirstChainOf;
    if n == 0 {
      TermsAreScheduled(s, e, j);
    } else {
      ChainsAreScheduled(s, e, j, n - 1);
    }
  }

  /** In every reachable world each packet is sealed under the scheduled key and nonce of its epoch and counter. */
  lemma SealingKeysAreScheduled(w: World, sent: Sent)
    requires Reachable(w) && sent in w.network
    ensures var j, n := EpochOf(w.epochs, sent.packet.header.dh), sent.packet.header.n;
            && 1 <= j < |w.epochs| && sent.packet.body.Sealed?
            && sent.packet.body.key == Expanded(ChainOf(w.session, w.epochs, j, n), MessageKey, OfCounter(n))
            && sent.packet.body.nonce == Expanded(ChainOf(w.session, w.epochs, j, n), Nonce, OfCounter(n))
            && sent.packet.body.aad == RecordAad(w.session.context, sent.packet.header)
  {
    hide Reachable, EpochOf, ChainTerm, ChainAt, ChainOf;
    ReachableIsSound(w);
    HonestIffSent(w, sent);
    ChainsAreScheduled(w.session, w.epochs, EpochOf(w.epochs, sent.packet.header.dh), sent.packet.header.n);
  }

  /** And each party holds the scheduled root of the last epoch it derived, and the scheduled chains of its two directions. */
  lemma StatesAreScheduled(w: World, p: Party)
    requires Reachable(w)
    ensures var e, st := w.epochs, w.State(p);
            && 1 <= RootEpoch(e, p) < |e| && st.root == RootOf(w.session, e, RootEpoch(e, p))
            && (st.sending.Some? ==>
                  && 1 <= SendEpoch(e, p) < |e|
                  && st.sending.value == ChainOf(w.session, e, SendEpoch(e, p), st.ns))
            && (st.receiving.Some? ==>
                  && 1 <= ReceiveEpoch(e, p) < |e|
                  && st.receiving.value == ChainOf(w.session, e, ReceiveEpoch(e, p), st.nr))
  {
    hide Reachable, RootTerm, ChainTerm, ChainAt, StoreInv, NetworkInv, ChainOf, RootOf;
    ReachableIsSound(w);
    InvFor(w, p);
    var e, s, k, r := w.epochs, w.session, SendEpoch(w.epochs, p), ReceiveEpoch(w.epochs, p);
    TermsAreScheduled(s, e, RootEpoch(e, p));
    if k > 0 {
      ChainsAreScheduled(s, e, k, w.State(p).ns);
    }
    if r > 0 {
      ChainsAreScheduled(s, e, r, w.State(p).nr);
    }
  }

  // ---- A fresh turn shuts out whoever knew the keys before it ----

  /** A body that opens under the keys of epoch `j` is sealed under a key that holds every agreement up to it. */
  lemma OpenedHoldsAgreements(s: Session, e: seq<Epoch>, j: nat, n: nat, aad: AssociatedData, body: Body, i: nat)
    requires 2 <= i <= j < |e| && Open(EpochKeys(s, e, j, n), aad, body).Ok?
    ensures body.Sealed? && Holds(body.key, e, i)
  {
    hide EpochKeys;
    EpochKeysHoldAgreements(s, e, j, n, i);
  }

  /** A turn's receiving chain still holds every agreement of the root it starts from. */
  lemma TurnedHoldsAgreements(
    s: Session, e: seq<Epoch>, p: Party, st: RatchetState, custody: set<Token>, packet: Packet, offered: Option<Token>,
    turned: RatchetState, i: nat)
    requires EpochsOk(e) && FieldsInv(s, e, p, st) && 2 <= i <= RootEpoch(e, p)
    requires ReceiveDhTransition(st, custody, packet.header, offered) == Ok(turned) && ReceiveInChain(turned, packet).Ok?
    ensures packet.body.Sealed? && Holds(packet.body.key, e, i)
  {
    TermsHoldAgreements(s, e, RootEpoch(e, p), i);
    TurnResult(st, custody, packet.header, offered, turned);
    hide RootTerm, ChainTerm, ReceiveDhTransition, Skip;
    ChainsKeepIngredients(turned.receiving.value, packet.header.n, e[i].key, e[i - 1].key, s.context);
  }

  /**
   Whatever body the network puts behind whatever header, and whatever keys it knows: if the
   body's key lacks the agreement of some turn that `p` has reached, then `p` opens it at most
   as a packet of an epoch before that turn. A fresh turn shuts out all who knew the keys before it.
   */
  lemma FreshTurnsShutOut(w: World, p: Party, custody: set<Token>, packet: Packet, offered: Option<Token>, i: nat)
    requires Reachable(w) && |w.epochs| >= 2 && 2 <= i <= RootEpoch(w.epochs, p)
    requires packet.body.Sealed? ==> !Holds(packet.body.key, w.epochs, i)
    requires Receive(w.State(p), custody, packet, offered).Ok?
    ensures 1 <= EpochOf(w.epochs, packet.header.dh) < i
  {
    hide Reachable, EpochKeys, EpochOf, ChainAt, RootTerm, ChainTerm, ReceiveDhTransition, ReceiveInChain, NetworkInv, Holds;
    ReachableIsSound(w);
    InvFor(w, p);
    var s, e, st, c := w.session, w.epochs, w.State(p), Coordinate(packet.header.dh, packet.header.n);
    var j, aad := EpochOf(e, c.dh), RecordAad(st.context, packet.header);
    if c in st.skipped {
      assert st.skipped[c] == EpochKeys(s, e, j, c.n) && 1 <= j;
      if i <= j {
        OpenedHoldsAgreements(s, e, j, c.n, aad, packet.body, i);
      }
    } else if packet.header.dh == st.peerPublic {
      EpochOfKey(e, ReceiveEpoch(e, p));
      OpenedOnCurrentChain(s, e, p, st, packet);
      if i <= j {
        OpenedHoldsAgreements(s, e, j, c.n, aad, packet.body, i);
      }
    } else {
      var turned := ReceiveDhTransition(st, custody, packet.header, offered).value;
      TurnedHoldsAgreements(s, e, p, st, custody, packet, offered, turned, i);
    }
  }

  lemma OpenedOnCurrentChain(s: Session, e: seq<Epoch>, p: Party, st: RatchetState, packet: Packet)
    requires EpochsOk(e) && FieldsInv(s, e, p, st) && ReceiveInChain(st, packet).Ok?
    ensures ReceiveEpoch(e, p) >= 1
    ensures Open(EpochKeys(s, e, ReceiveEpoch(e, p), packet.header.n), RecordAad(st.context, packet.header), packet.body).Ok?
  {
    ChainYieldsEpochKeys(s, e, p, st, packet.header.n);
    hide EpochKeys, ChainAt, RootTerm, ChainTerm;
  }

  // ---- No key plays two parts ----

  lemma {:induction false} ChainsAreChains(chain: Secret, to: nat)
    requires Purpose(chain) in {ChainI2R, ChainR2I}
    ensures Purpose(ChainAt(chain, 0, to)) in {ChainI2R, ChainR2I, NextChain}
    ensures to == 0 ==> ChainAt(chain, 0, to) == chain
  {
  }

  lemma PurposesOfTerms(s: Session, e: seq<Epoch>, j: nat)
    requires 1 <= j < |e|
    ensures Purpose(RootTerm(s, e, j)) == if j == 1 then InitialRoot else if j % 2 == 1 then RootI2R else RootR2I
    ensures Purpose(ChainTerm(s, e, j)) == if j % 2 == 1 then ChainI2R else ChainR2I
  {
  }

  /** Roots and first chain keys are derived for the direction of the party that opened their epoch. */
  lemma PurposesOfState(w: World, p: Party)
    requires Reachable(w)
    ensures |w.epochs| >= 2
    ensures var k := RootEpoch(w.epochs, p);
            Purpose(w.State(p).root) == if k == 1 then InitialRoot else if Owns(Initiator, k) then RootI2R else RootR2I
    ensures w.State(p).sending.Some? && w.State(p).ns == 0 ==>
              Purpose(w.State(p).sending.value) == if p.Initiator? then ChainI2R else ChainR2I
    ensures w.State(p).sending.Some? ==> Purpose(w.State(p).sending.value) in {ChainI2R, ChainR2I, NextChain}
    ensures w.State(p).receiving.Some? ==> Purpose(w.State(p).receiving.value) in {ChainI2R, ChainR2I, NextChain}
  {
    hide Reachable, RootTerm, ChainTerm, ChainAt, StoreInv, NetworkInv, Purpose;
    ReachableIsSound(w);
    InvFor(w, p);
    var e, s, k, r := w.epochs, w.session, SendEpoch(w.epochs, p), ReceiveEpoch(w.epochs, p);
    PurposesOfTerms(s, e, RootEpoch(e, p));
    if k > 0 {
      PurposesOfTerms(s, e, k);
      ChainsAreChains(ChainTerm(s, e, k), w.State(p).ns);
    }
    if r > 0 {
      PurposesOfTerms(s, e, r);
      ChainsAreChains(ChainTerm(s, e, r), w.State(p).nr);
    }
  }

  /** Roots, chain keys, sealing keys and nonces are four kinds of secrets without a member in common. */
  lemma KeysPlayOnePart(w: World, p: Party, q: Party, x: Sent, y: Sent)
    requires Reachable(w) && x in w.network && y in w.network
    ensures x.packet.body.Sealed? && y.packet.body.Sealed?
    ensures x.packet.body.key != y.packet.body.nonce
    ensures w.State(p).root !in {x.packet.body.key, x.packet.body.nonce}
    ensures forall chain | Some(chain) == w.State(q).sending || Some(chain) == w.State(q).receiving ::
              chain !in {x.packet.body.key, x.packet.body.nonce, w.State(p).root}
  {
    hide Reachable, EpochOf, ChainTerm, ChainAt, FieldsInv;
    PurposesOfState(w, p);
    PurposesOfState(w, q);
    ReachableIsSound(w);
    HonestIffSent(w, x);
    HonestIffSent(w, y);
  }
}

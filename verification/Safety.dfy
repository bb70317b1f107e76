/** What holds in every world that a run can reach. */
module Safety {
  import opened Backing
  import opened Base
  import opened Batches
  import opened EthereumClient
  import opened Gossip
  import opened Ledger
  import opened Protocol
  import opened Soundness
  import opened Topology
  import opened Traces
  import opened World
  import ToElrond
  import ToElrondRuns
  import ToEth
  import ToEthRuns

  // ---------------------------------------------------------------- what relayers rely on

  ghost predicate RelayerSound(s: Setting, h: History, r: Relayer) {
    ToElrondSound(s, h, r.toElrond.step, r.toElrond.exec) && ToEthSound(h, r.toEth.step, r.toEth.exec)
  }

  ghost predicate RelayersSound(s: Setting, w: World) {
    w.relayers.Keys == s.honest && forall i :: i in w.relayers ==> RelayerSound(s, w.history, w.relayers[i])
  }

  lemma RelayerSoundKept(s: Setting, h: History, c: Chain, r: Relayer)
    requires RelayerSound(s, h, r)
    ensures RelayerSound(s, h + [c], r)
  {
    ToElrondSoundKept(s, h, c, r.toElrond.step, r.toElrond.exec);
    ToEthSoundKept(h, c, r.toEth.step, r.toEth.exec);
  }

  /** One relayer is replaced by a sound one; nothing on record changes. */
  lemma RelayerReplaced(s: Setting, w: World, w': World, i: Bytes, r: Relayer)
    requires RelayersSound(s, w) && i in w.relayers && RelayerSound(s, w.history, r)
    requires w'.history == w.history && w'.relayers == w.relayers[i := r]
    ensures RelayersSound(s, w')
  {
  }

  lemma RelayersExtended(s: Setting, w: World, c: Chain)
    requires RelayersSound(s, w)
    ensures RelayersSound(s, Extended(w, c))
  {
    forall i | i in w.relayers ensures RelayerSound(s, w.history + [c], w.relayers[i]) {
      RelayerSoundKept(s, w.history, c, w.relayers[i]);
    }
  }

  lemma ToEthStepKeepsRelayer(s: Setting, h: History, i: Bytes, r: Relayer, a: Answers, views: seq<nat>,
      events: seq<NodeEvent>)
    requires RelayerSound(s, h, r)
    requires TrulyAnswered(s, h, i, ToEth.Execute(s.cfg, r.toEth.step, r.toEth.exec, a).calls, views)
    ensures RelayerSound(s, h, r.(toEth := ToEthRuns.Advance(s.cfg, r.toEth, a), events := events))
  {
    ToEthStepSound(s, h, i, r.toEth, a, views);
  }

  lemma ToElrondStepKeepsRelayer(s: Setting, h: History, i: Bytes, r: Relayer, a: Answers, views: seq<nat>)
    requires RelayerSound(s, h, r)
    requires TrulyAnswered(s, h, i, ToElrond.Execute(s.cfg, r.toElrond.step, r.toElrond.exec, a).calls, views)
    ensures RelayerSound(s, h, r.(toElrond := ToElrondRuns.Advance(s.cfg, r.toElrond, a)))
  {
    ToElrondStepSound(s, h, i, r.toElrond, a, views);
  }

  lemma RelayersSoundKept(s: Setting, w: World, e: Event)
    requires Sane(s) && w.history != [] && RelayersSound(s, w) && Enabled(s, w, e)
    ensures RelayersSound(s, After(s, w, e))
  {
    var w' := After(s, w, e);
    match e
    case StepToEth(i, a, views) =>
      ToEthStepKeepsRelayer(s, w.history, i, w.relayers[i], a, views, w'.relayers[i].events);
      RelayerReplaced(s, w, w', i, w'.relayers[i]);
    case StepToElrond(i, a, views) =>
      ToElrondStepKeepsRelayer(s, w.history, i, w.relayers[i], a, views);
      RelayerReplaced(s, w, w', i, w'.relayers[i]);
    case Gossiped(i, ne) => RelayerReplaced(s, w, w', i, w'.relayers[i]);
    case Restarted(i) => RelayerReplaced(s, w, w', i, NEW_RELAYER);
    case _ => RelayersExtended(s, w, Moved(Now(w), e));
  }

  // ---------------------------------------------------------------- what relayers send

  ghost predicate MessagesSound(s: Setting, w: World) {
    && (forall tx :: tx in w.sent ==> SupportedTx(s, w.history, tx))
    && (forall x :: x in w.broadcast ==> PendingHash(s, w.history, x.1))
  }

  lemma MessagesExtended(s: Setting, w: World, c: Chain)
    requires MessagesSound(s, w)
    ensures MessagesSound(s, Extended(w, c))
  {
    forall tx | tx in w.sent ensures SupportedTx(s, w.history + [c], tx) {
      SupportedTxKept(s, w.history, c, tx);
    }
    forall x | x in w.broadcast ensures PendingHash(s, w.history + [c], x.1) {
      PendingHashKept(s, w.history, c, x.1);
    }
  }

  /** What a step adds to the messages. */
  ghost predicate CallsSound(s: Setting, h: History, i: Bytes, calls: seq<Call>) {
    && (forall tx :: tx in TxsOf(i, calls) ==> SupportedTx(s, h, tx))
    && (forall x :: x in BroadcastsOf(i, calls) ==> PendingHash(s, h, x.1))
  }

  lemma ToEthCallsSound(s: Setting, h: History, i: Bytes, m: ToEthRuns.Machine, a: Answers, views: seq<nat>)
    requires i in s.honest && ToEthSound(h, m.step, m.exec)
    requires TrulyAnswered(s, h, i, ToEth.Execute(s.cfg, m.step, m.exec, a).calls, views)
    ensures CallsSound(s, h, i, ToEth.Execute(s.cfg, m.step, m.exec, a).calls)
  {
    var calls := ToEth.Execute(s.cfg, m.step, m.exec, a).calls;
    forall tx | tx in TxsOf(i, calls) ensures SupportedTx(s, h, tx) {
      ToEthTxSupported(s, h, i, m, a, views, tx);
    }
    forall x | x in BroadcastsOf(i, calls) ensures PendingHash(s, h, x.1) {
      ToEthBroadcastSound(s, h, i, m, a, x.1);
    }
  }

  lemma ToElrondCallsSound(s: Setting, h: History, i: Bytes, m: ToElrondRuns.Machine, a: Answers, views: seq<nat>)
    requires i in s.honest && ToElrondSound(s, h, m.step, m.exec)
    requires TrulyAnswered(s, h, i, ToElrond.Execute(s.cfg, m.step, m.exec, a).calls, views)
    ensures CallsSound(s, h, i, ToElrond.Execute(s.cfg, m.step, m.exec, a).calls)
  {
    var calls := ToElrond.Execute(s.cfg, m.step, m.exec, a).calls;
    forall tx | tx in TxsOf(i, calls) ensures SupportedTx(s, h, tx) {
      ToElrondTxSupported(s, h, i, m, a, views, tx);
    }
    forall k | 0 <= k < |calls| ensures !calls[k].SignatureBroadcast? {
      ToElrondRuns.CallsByStep(s.cfg, m.step, m.exec, a, calls[k]);
    }
  }

  lemma MessagesAdded(s: Setting, w: World, w': World, i: Bytes, calls: seq<Call>)
    requires MessagesSound(s, w) && CallsSound(s, w.history, i, calls)
    requires w'.history == w.history && w'.sent == w.sent + TxsOf(i, calls)
    requires w'.broadcast == w.broadcast + BroadcastsOf(i, calls)
    ensures MessagesSound(s, w')
  {
  }

  lemma MessagesSoundKept(s: Setting, w: World, e: Event)
    requires Sane(s) && w.history != [] && RelayersSound(s, w) && MessagesSound(s, w) && Enabled(s, w, e)
    ensures MessagesSound(s, After(s, w, e))
  {
    match e
    case StepToEth(i, a, views) =>
      assert RelayerSound(s, w.history, w.relayers[i]);
      ToEthCallsSound(s, w.history, i, w.relayers[i].toEth, a, views);
      MessagesAdded(s, w, After(s, w, e), i, ToEthStep(s, w, i, a).calls);
    case StepToElrond(i, a, views) =>
      assert RelayerSound(s, w.history, w.relayers[i]);
      ToElrondCallsSound(s, w.history, i, w.relayers[i].toElrond, a, views);
      MessagesAdded(s, w, After(s, w, e), i, ToElrondStep(s, w, i, a).calls);
    case Gossiped(_, _) =>
    case Restarted(_) =>
    case _ => MessagesExtended(s, w, Moved(Now(w), e));
  }

  // ---------------------------------------------------------------- what the chains record

  /** What Ethereum executed hashes like a batch that was pending on Elrond. */
  ghost predicate ReleasesPending(s: Setting, h: History, x: Executed) {
    exists b :: WasPending(h, b) && SignedAs(s, b, x)
  }

  ghost predicate SignedAs(s: Setting, b: Batch, x: Executed) {
    MessageHash(s.cfg.hashing, b).Ok? && HashOf(s.cfg.hashing, x.lists, x.id) == MessageHash(s.cfg.hashing, b)
  }

  ghost predicate EthSound(s: Setting, h: History, e: Ethereum) {
    forall k :: 0 <= k < |e.executed| ==> ReleasesPending(s, h, e.executed[k])
  }

  ghost predicate TiledFromContent(s: Setting, c: Elrond) {
    Tiled(s.start, c) && FromContent(s, c)
  }

  ghost predicate StateSound(s: Setting, h: History, c: Chain) {
    ElrondSound(s, h, c.elrond) && TiledFromContent(s, c.elrond) && EthSound(s, h, c.ethereum)
  }

  ghost predicate AllTiled(s: Setting, h: History) {
    forall j :: 0 <= j < |h| ==> TiledFromContent(s, h[j].elrond)
  }

  ghost predicate ChainsSound(s: Setting, h: History) {
    h != [] && HistoryGrows(h) && AllTiled(s, h) && StateSound(s, h, h[|h| - 1])
  }

  lemma StateSoundKept(s: Setting, h: History, x: Chain, c: Chain)
    requires StateSound(s, h, c)
    ensures StateSound(s, h + [x], c)
  {
    ElrondSoundKept(s, h, x, c.elrond);
    forall k | 0 <= k < |c.ethereum.executed| ensures ReleasesPending(s, h + [x], c.ethereum.executed[k]) {
      assert ReleasesPending(s, h, c.ethereum.executed[k]);
      var b :| WasPending(h, b) && SignedAs(s, b, c.ethereum.executed[k]);
      WasPendingKept(h, x, b);
    }
  }

  /** A new state of the chains that is sound by itself keeps the history sound. */
  lemma ChainsExtended(s: Setting, h: History, c: Chain)
    requires ChainsSound(s, h) && Grows(h[|h| - 1], c) && StateSound(s, h, c)
    ensures ChainsSound(s, h + [c])
  {
    HistoryGrowsOn(h, c);
    StateSoundKept(s, h, c, c);
  }

  /** An action named by the contract once keeps its identifier. */
  lemma NameIsStable(s: Setting, h: History, id: nat, a: Action)
    requires h != [] && HistoryGrows(h) && KnownAs(h, id, a)
    ensures ActionIs(h[|h| - 1].elrond, id, a)
  {
    var j :| 0 <= j < |h| && ActionIs(h[j].elrond, id, a);
    assert Grows(h[j], h[|h| - 1]);
  }

  lemma SignerIsSupported(s: Setting, h: History, sender: Bytes, id: nat)
    requires h != [] && HistoryGrows(h) && SupportedTx(s, h, SignTx(sender, id))
    ensures 1 <= id <= |h[|h| - 1].elrond.actions| && Supported(s, h, h[|h| - 1].elrond.actions[id - 1])
  {
    var a :| KnownAs(h, id, a) && Supported(s, h, a);
    NameIsStable(s, h, id, a);
  }

  lemma UntouchedTransfers(s: Setting, c: Elrond, d: Elrond)
    requires TiledFromContent(s, c)
    requires d.transfers == c.transfers && d.lastBatchID == c.lastBatchID && d.lastNonce == c.lastNonce
    ensures TiledFromContent(s, d)
  {
  }

  lemma PerformedTiled(s: Setting, h: History, id: nat, quorum: nat)
    requires Sane(s) && ChainsSound(s, h) && quorum > |s.arbitrary|
    ensures TiledFromContent(s, Performed(h[|h| - 1].elrond, id, quorum))
  {
    var c := h[|h| - 1].elrond;
    if CanPerform(c, id, quorum) && c.actions[id - 1].Transfer? {
      var b := PerformableIsDue(s, h, id, quorum);
      TiledExtends(s, c, b, id, quorum);
    } else {
      UntouchedTransfers(s, c, Performed(c, id, quorum));
    }
  }

  lemma IncludedTiled(s: Setting, h: History, tx: Tx, signs: bool, quorum: nat)
    requires Sane(s) && ChainsSound(s, h) && quorum > |s.arbitrary|
    ensures TiledFromContent(s, Included(h[|h| - 1].elrond, tx, signs, quorum))
  {
    match tx
    case PerformTx(_, id) => PerformedTiled(s, h, id, quorum);
    case _ => UntouchedTransfers(s, h[|h| - 1].elrond, Included(h[|h| - 1].elrond, tx, signs, quorum));
  }

  lemma IncludedRecord(s: Setting, h: History, tx: Tx, signs: bool, quorum: nat)
    requires h != [] && HistoryGrows(h) && ElrondSound(s, h, h[|h| - 1].elrond) && quorum > |s.arbitrary|
    requires SupportedTx(s, h, tx) || tx.sender in s.arbitrary - s.honest
    ensures ElrondSound(s, h, Included(h[|h| - 1].elrond, tx, signs, quorum))
  {
    var c := h[|h| - 1].elrond;
    match tx
    case ProposeTx(sender, a) => ProposedSound(s, h, c, sender, a, signs);
    case SignTx(sender, id) =>
      if sender in s.honest {
        SignerIsSupported(s, h, sender, id);
      }
      SignedSound(s, h, c, sender, id);
    case PerformTx(_, id) => PerformedSound(s, h, c, id, quorum);
  }

  /** Ethereum's next execution is one that relayers signed, so it hashes like a pending batch. */
  lemma ExecutionReleasesPending(s: Setting, w: World, x: Executed, signers: set<Bytes>)
    requires Sane(s) && MessagesSound(s, w)
    requires Enabled(s, w, EthereumExecutes(x, signers))
    ensures ReleasesPending(s, w.history, x)
  {
    var i := HonestSigner(s.honest, s.arbitrary, signers);
    var hash := HashOf(s.cfg.hashing, x.lists, x.id).value;
    assert (i, hash) in w.broadcast;
    var b :| WasPending(w.history, b) && MessageHash(s.cfg.hashing, b) == Ok(hash);
    assert SignedAs(s, b, x);
  }

  /** A new contract state that is sound by itself leaves Ethereum's side as it was. */
  lemma ElrondReplaced(s: Setting, h: History, c: Chain, e: Elrond)
    requires EthSound(s, h, c.ethereum) && ElrondSound(s, h, e) && TiledFromContent(s, e)
    ensures StateSound(s, h, c.(elrond := e))
  {
  }

  lemma IncludesMoves(s: Setting, h: History, tx: Tx, signs: bool, quorum: nat)
    requires Sane(s) && ChainsSound(s, h) && quorum > |s.arbitrary|
    requires SupportedTx(s, h, tx) || tx.sender in s.arbitrary - s.honest
    ensures StateSound(s, h, Moved(h[|h| - 1], ElrondIncludes(tx, signs, quorum)))
  {
    IncludedRecord(s, h, tx, signs, quorum);
    IncludedTiled(s, h, tx, signs, quorum);
    ElrondReplaced(s, h, h[|h| - 1], Included(h[|h| - 1].elrond, tx, signs, quorum));
  }

  lemma EthereumMoves(s: Setting, h: History, c: Chain, x: Executed)
    requires StateSound(s, h, c) && ReleasesPending(s, h, x)
    ensures StateSound(s, h, c.(ethereum := c.ethereum.(executed := c.ethereum.executed + [x])))
  {
    assert EthSound(s, h, c.ethereum.(executed := c.ethereum.executed + [x]));
  }

  /** Statuses and the clock play no part in what is sound. */
  lemma OthersMove(s: Setting, h: History, c: Chain, d: Chain)
    requires StateSound(s, h, c) && d.elrond == c.elrond && d.ethereum.executed == c.ethereum.executed
    ensures StateSound(s, h, d)
  {
    assert EthSound(s, h, d.ethereum);
  }

  lemma PendingMoves(s: Setting, h: History, c: Chain, p: Option<Batch>)
    requires StateSound(s, h, c)
    ensures StateSound(s, h, c.(elrond := c.elrond.(pending := p)))
  {
    var c0, d := c.elrond, c.elrond.(pending := p);
    UntouchedTransfers(s, c0, d);
    forall id, i | i in SignersOf(d, id) ensures Endorsed(s, h, d, id, i) {
      assert i in SignersOf(c0, id);
      assert Endorsed(s, h, c0, id, i);
    }
    forall a | PerformedAs(c0, a) ensures PerformedAs(d, a) {
      var id :| id in c0.performed && ActionIs(c0, id, a);
      assert id in d.performed && ActionIs(d, id, a);
    }
  }

  lemma ExecutesMoves(s: Setting, w: World, x: Executed, signers: set<Bytes>)
    requires Sane(s) && MessagesSound(s, w)
    requires w.history != [] && StateSound(s, w.history, Now(w)) && Enabled(s, w, EthereumExecutes(x, signers))
    ensures StateSound(s, w.history, Moved(Now(w), EthereumExecutes(x, signers)))
  {
    ExecutionReleasesPending(s, w, x, signers);
    EthereumMoves(s, w.history, Now(w), x);
  }

  lemma MovedSound(s: Setting, w: World, e: Event)
    requires Sane(s) && MessagesSound(s, w) && ChainsSound(s, w.history)
    requires Enabled(s, w, e) && IsChainEvent(e)
    ensures StateSound(s, w.history, Moved(Now(w), e))
  {
    match e
    case ElrondIncludes(tx, signs, quorum) => IncludesMoves(s, w.history, tx, signs, quorum);
    case EthereumExecutes(x, signers) => ExecutesMoves(s, w, x, signers);
    case PendingChanges(p) => PendingMoves(s, w.history, Now(w), p);
    case EthereumSettles(_) => OthersMove(s, w.history, Now(w), Moved(Now(w), e));
    case TimePasses(_) => OthersMove(s, w.history, Now(w), Moved(Now(w), e));
  }

  lemma MovedGrows(c: Chain, e: Event)
    ensures Grows(c, Moved(c, e))
  {
    match e
    case ElrondIncludes(tx, signs, quorum) => IncludedGrows(c, tx, signs, quorum);
    case _ =>
  }

  lemma ChainsSoundKept(s: Setting, w: World, e: Event)
    requires Sane(s) && MessagesSound(s, w) && ChainsSound(s, w.history)
    requires Enabled(s, w, e)
    ensures ChainsSound(s, After(s, w, e).history)
  {
    if IsChainEvent(e) {
      MovedSound(s, w, e);
      MovedGrows(Now(w), e);
      ChainsExtended(s, w.history, Moved(Now(w), e));
    }
  }

  // ---------------------------------------------------------------- every reachable world

  ghost predicate Sound(s: Setting, w: World)
    requires LongEnough(s.sha) && s.interval > 0
  {
    && AllBacked(s, w) && TraceSound(s, w)
    && RelayersSound(s, w) && MessagesSound(s, w) && ChainsSound(s, w.history)
  }

  lemma InitialChains(s: Setting, h: History)
    requires Sane(s) && |h| == 1 && h[0].elrond == s.start && h[0].ethereum.executed == []
    ensures ChainsSound(s, h)
  {
  }

  lemma InitialSound(s: Setting, w: World)
    requires Sane(s) && Initial(s, w)
    ensures Sound(s, w)
  {
    NewRelayerBacked(s);
    InitialChains(s, w.history);
  }

  /** Every event keeps a world sound. */
  lemma SoundKept(s: Setting, w: World, e: Event, w': World)
    requires Sane(s) && Sound(s, w) && Becomes(s, w, e, w')
    ensures Sound(s, w')
  {
    AllBackedKept(s, w, e);
    TraceSoundKept(s, w, e);
    RelayersSoundKept(s, w, e);
    MessagesSoundKept(s, w, e);
    ChainsSoundKept(s, w, e);
  }

  lemma LastStepSound(s: Setting, worlds: seq<World>, events: seq<Event>)
    requires Sane(s) && IsRun(s, worlds, events) && events != [] && Sound(s, worlds[|events| - 1])
    ensures Sound(s, worlds[|events|])
  {
    var n := |events| - 1;
    assert Becomes(s, worlds[n], events[n], worlds[n + 1]);
    SoundKept(s, worlds[n], events[n], worlds[n + 1]);
  }

  lemma RunFront(s: Setting, worlds: seq<World>, events: seq<Event>)
    requires Sane(s) && IsRun(s, worlds, events) && events != []
    ensures IsRun(s, worlds[..|events|], events[..|events| - 1])
  {
    var n := |events| - 1;
    forall k | 0 <= k < n
      ensures Becomes(s, worlds[..n + 1][k], events[..n][k], worlds[..n + 1][k + 1])
    {
      assert Becomes(s, worlds[k], events[k], worlds[k + 1]);
    }
  }

  /** In every run, whatever the interleaving, the world that it ends in is sound. */
  lemma {:induction false} RunSound(s: Setting, worlds: seq<World>, events: seq<Event>)
    requires Sane(s) && IsRun(s, worlds, events)
    ensures Sound(s, worlds[|events|])
    decreases |events|
  {
    if events == [] {
      InitialSound(s, worlds[0]);
    } else {
      RunFront(s, worlds, events);
      RunSound(s, worlds[..|events|], events[..|events| - 1]);
      LastStepSound(s, worlds, events);
    }
  }

  lemma ReachableSound(s: Setting, w: World)
    requires Sane(s) && Reachable(s, w)
    ensures Sound(s, w)
  {
    var worlds, events :| IsRun(s, worlds, events) && worlds[|worlds| - 1] == w;
    RunSound(s, worlds, events);
  }
}

/**
 * The other half-bridge at work: a single relayer, whose own signature reaches it as gossip, submits a
 * pending batch to Ethereum. Ethereum executes it and gives its statuses, which the relayer then
 * proposes, signs and gets performed on Elrond. As in the other direction, this shows that the
 * assumptions on the world do not rule out the events that the theorems speak about.
 */
module WitnessToEth {
  import opened Base
  import opened Batches
  import opened ElrondCodec
  import opened EthereumClient
  import opened Gossip
  import opened Messages
  import opened Protocol
  import opened SignatureStore
  import opened ToEthProgress
  import opened Topology
  import opened Witness
  import opened World
  import ToEth
  import ToEthRuns

  /** The relayer, the batch, the packet that brings the signature, and the answers along the way. */
  datatype Story = Story(
    i: Bytes, b: Batch, hash: Bytes, addresses: set<EthAddress>, packet: Packet, delivery: Delivery,
    statuses: Bytes, a: Answers)

  const LISTENING: Node := Node(map[], {}, {}, EMPTY)

  /** The node before the signature arrives. */
  function Whitelisted(k: Story): Node {
    LISTENING.(elrondWhitelist := {k.i}, ethWhitelist := k.addresses)
  }

  /** No call fails, one signature is enough, and Ethereum gives final statuses. */
  ghost predicate Smooth(s: Setting, k: Story) {
    && SmoothStatus(s, k) && MessageHash(s.cfg.hashing, k.b) == Ok(k.hash) && k.a.ethExecuted == Ok(false)
    && k.a.quorum.Ok? && IsQuorumReached(|k.a.signatures|, k.a.quorum) == Ok(true)
    && TransferOf(s.cfg, k.b, k.a).Sent? && TransferOf(s.cfg, k.b, k.a).reported.Ok?
  }

  ghost predicate SmoothStatus(s: Setting, k: Story) {
    && Cooperative(s.cfg, k.a) && k.a.pending == Ok(k.b) && AsParsed(k.b) && k.a.actionID == Ok(1)
    && k.a.confirmations == [] && k.statuses != [] && k.a.statuses == [Poll(true, Ok(k.statuses))]
  }

  function OnceExecuted(a: Answers): Answers { a.(ethExecuted := Ok(true)) }

  /** The packet delivers the signature that is counted. */
  ghost predicate Arrives(s: Setting, k: Story) {
    && Delivered(s.net, Whitelisted(k), k.packet) == Some(k.delivery)
    && k.delivery.eth.messageHash == k.hash && k.a.signatures == [k.delivery.eth.signature]
  }

  /** The node that heard the packet holds just this signature. */
  ghost predicate Holds(k: Story, n: Node) {
    n.elrondWhitelist == {k.i} && Enumerates(k.a.signatures, SignaturesFor(n.store.ethMessages, k.hash))
  }

  /** The relayer is at this step, the chains are in this state, and the node too. */
  ghost predicate At(s: Setting, w: World, i: Bytes, step: ToEth.Id, x: ExecState, c: Chain, n: Node)
    requires Sane(s)
  {
    && Reachable(s, w) && w.history != [] && i in w.relayers
    && w.relayers[i].toEth.step == step && w.relayers[i].toEth.exec == x
    && Now(w) == c && NodeAfter(s.net, w.relayers[i].events) == n
  }

  // ---------------------------------------------------------------- events of this world

  lemma NodeHears(net: Network, events: seq<NodeEvent>, e: NodeEvent)
    ensures NodeAfter(net, events + [e]) == Happened(net, NodeAfter(net, events), e)
  {
    assert (events + [e])[..|events|] == events;
  }

  lemma Hears(s: Setting, w: World, i: Bytes, step: ToEth.Id, x: ExecState, c: Chain, n: Node, e: NodeEvent)
    returns (w': World)
    requires Sane(s) && At(s, w, i, step, x, c, n) && !e.Cleared?
    ensures At(s, w', i, step, x, c, Happened(s.net, n, e)) && w'.sent == w.sent && w'.broadcast == w.broadcast
  {
    NodeHears(s.net, w.relayers[i].events, e);
    ReachableExtends(s, w, Gossiped(i, e));
    w' := After(s, w, Gossiped(i, e));
  }

  lemma ChainsMove(s: Setting, w: World, i: Bytes, step: ToEth.Id, x: ExecState, c: Chain, n: Node, e: Event)
    returns (w': World)
    requires Sane(s) && At(s, w, i, step, x, c, n) && IsChainEvent(e) && Enabled(s, w, e)
    ensures At(s, w', i, step, x, Moved(c, e), n) && w'.sent == w.sent && w'.broadcast == w.broadcast
  {
    ReachableExtends(s, w, e);
    w' := After(s, w, e);
  }

  /** Every call is answered truly by the chains as they are now, and by the node. */
  ghost predicate TrueNow(s: Setting, i: Bytes, c: Chain, n: Node, calls: seq<Call>)
    requires LongEnough(s.sha) && s.interval > 0
  {
    forall k :: 0 <= k < |calls| ==>
      calls[k] != TransferPanicked && True(s, i, c, calls[k]) && OwnTrue(s, i, n, c.now, calls[k])
  }

  lemma StepEnabled(s: Setting, w: World, i: Bytes, a: Answers, c: Chain, n: Node) returns (views: seq<nat>)
    requires Sane(s) && i in w.relayers && w.history != [] && Now(w) == c
    requires NodeAfter(s.net, w.relayers[i].events) == n && TrueNow(s, i, c, n, ToEthStep(s, w, i, a).calls)
    ensures Enabled(s, w, StepToEth(i, a, views))
  {
    views := seq(|ToEthStep(s, w, i, a).calls|, _ => |w.history| - 1);
  }

  /** What a step with result `r` makes of the relayer's machine and node. */
  lemma RelayerStepped(net: Network, was: Relayer, r: ToEth.Step)
    ensures var now := SteppedToEth(was, r);
            && now.toEth.step == r.next && now.toEth.exec == r.state
            && NodeAfter(net, now.events) ==
                 var n := NodeAfter(net, was.events);
                 if StoreCleared in r.calls then n.(store := EMPTY) else n
  {
    NodeHears(net, was.events, Cleared);
  }

  lemma Steps(s: Setting, w: World, i: Bytes, a: Answers, step: ToEth.Id, x: ExecState, c: Chain, n: Node,
      r: ToEth.Step)
    returns (w': World)
    requires Sane(s) && At(s, w, i, step, x, c, n)
    requires r == ToEth.Execute(s.cfg, step, x, a) && TrueNow(s, i, c, n, r.calls)
    ensures At(s, w', i, r.next, r.state, c, if StoreCleared in r.calls then n.(store := EMPTY) else n)
    ensures w'.sent == w.sent + TxsOf(i, r.calls) && w'.broadcast == w.broadcast + BroadcastsOf(i, r.calls)
  {
    var views := StepEnabled(s, w, i, a, c, n);
    ReachableExtends(s, w, StepToEth(i, a, views));
    w' := After(s, w, StepToEth(i, a, views));
    assert w' == Stepped(s, w, i, ElrondToEth, SteppedToEth(w.relayers[i], r), r.calls, views);
    RelayerStepped(s.net, w.relayers[i], r);
  }

  lemma AloneLeads(s: Setting, k: Story, c: Chain, n: Node)
    requires LongEnough(s.sha) && s.interval > 0 && n.elrondWhitelist == {k.i}
    ensures OwnTrue(s, k.i, n, c.now, LeaderAsked(true))
  {
    OnlyKeyLeads(s, k.i, Slot(c.now, s.interval));
  }

  // ---------------------------------------------------------------- until the transfer is submitted

  function Stored(k: Story): ExecState { INITIAL.(batch := Some(k.b)) }
  function Hashed(k: Story): ExecState { Stored(k).(msgHash := k.hash) }
  function Counted(k: Story): ExecState { Hashed(k).(ethRetries := 1) }

  /** The node once the signature arrived. */
  function Holding(s: Setting, k: Story): Node {
    Received(s.net, Whitelisted(k), k.packet)
  }

  lemma HoldsTheSignature(s: Setting, k: Story)
    requires Arrives(s, k)
    ensures Holds(k, Holding(s, k))
  {
    SignaturesForAppend([], k.delivery.eth, k.hash);
    assert [] + [k.delivery.eth] == [k.delivery.eth];
  }

  /** Step one: the batch is fetched, validated and not executed. */
  function FetchStep(k: Story): ToEth.Step {
    StepResult(ToEth.SigningProposedTransfer, Stored(k),
               [PendingFetched(Ok(k.b)), Validated(k.b, Ok(true)), EthExecutedAsked(k.b.id, Ok(false))])
  }

  /** Step two: its hash is signed. */
  function SignStep(k: Story): ToEth.Step {
    StepResult(ToEth.WaitingForQuorumOnTransfer, Hashed(k), [SignatureBroadcast(k.hash)])
  }

  /** Step three: the signature is counted. */
  function CountStep(k: Story): ToEth.Step {
    StepResult(ToEth.PerformingTransfer, Counted(k), [SignaturesRead(k.hash, k.a.signatures), QuorumRead(k.a.quorum)])
  }

  /** Step four: the transfer is submitted. */
  ghost function SubmitStep(s: Setting, k: Story): ToEth.Step
    requires Smooth(s, k)
  {
    StepResult(ToEth.WaitingTransferConfirmation, Counted(k),
               [EthExecutedAsked(k.b.id, Ok(false)), LeaderAsked(true), QuorumRead(k.a.quorum),
                SignaturesRead(k.hash, k.a.signatures),
                TransferSent(TransferOf(s.cfg, k.b, k.a).submission, TransferOf(s.cfg, k.b, k.a).reported)])
  }

  lemma TransferSteps(s: Setting, k: Story)
    requires Smooth(s, k)
    ensures ToEth.GetPending(INITIAL, k.a) == FetchStep(k)
    ensures ToEth.SignTransfer(s.cfg, Stored(k)) == SignStep(k)
    ensures ToEth.WaitForQuorum(s.cfg, Hashed(k), k.a) == CountStep(k)
    ensures ToEth.PerformTransfer(s.cfg, Counted(k), k.a) == SubmitStep(s, k)
  {
  }

  lemma FetchIsTrue(s: Setting, k: Story, c: Chain, n: Node)
    requires LongEnough(s.sha) && s.interval > 0 && Smooth(s, k)
    requires c.elrond.pending == Some(k.b) && c.ethereum.executed == []
    ensures TrueNow(s, k.i, c, n, FetchStep(k).calls)
  {
  }

  lemma CountIsTrue(s: Setting, k: Story, c: Chain, n: Node)
    requires LongEnough(s.sha) && s.interval > 0 && Holds(k, n)
    ensures TrueNow(s, k.i, c, n, CountStep(k).calls)
  {
  }

  lemma SubmissionIsTrue(s: Setting, k: Story, c: Chain, n: Node)
    requires LongEnough(s.sha) && s.interval > 0 && Smooth(s, k) && Holds(k, n) && c.ethereum.executed == []
    ensures TrueNow(s, k.i, c, n, SubmitStep(s, k).calls)
  {
    AloneLeads(s, k, c, n);
  }

  /** The chains with the batch pending. */
  function Pending(k: Story, c: Chain): Chain {
    Moved(c, PendingChanges(Some(k.b)))
  }

  lemma Listens(s: Setting, k: Story, w: World) returns (w': World)
    requires Sane(s) && Smooth(s, k) && Initial(s, w) && w.history != [] && k.i in s.honest
    ensures At(s, w', k.i, ToEth.GettingPendingBatch, INITIAL, Pending(k, Now(w)), Whitelisted(k))
    ensures w'.sent == {} && w'.broadcast == {}
  {
    assert IsRun(s, [w], []);
    assert At(s, w, k.i, ToEth.GettingPendingBatch, INITIAL, Now(w), LISTENING);
    var w1 := Hears(s, w, k.i, ToEth.GettingPendingBatch, INITIAL, Now(w), LISTENING, RefreshElrond({k.i}));
    var w2 := Hears(s, w1, k.i, ToEth.GettingPendingBatch, INITIAL, Now(w),
                    LISTENING.(elrondWhitelist := {k.i}), RefreshEth(k.addresses));
    w' := ChainsMove(s, w2, k.i, ToEth.GettingPendingBatch, INITIAL, Now(w), Whitelisted(k), PendingChanges(Some(k.b)));
  }

  lemma FetchesAndSigns(s: Setting, k: Story, w: World, c: Chain) returns (w': World)
    requires Sane(s) && Smooth(s, k) && c.elrond.pending == Some(k.b) && c.ethereum.executed == []
    requires At(s, w, k.i, ToEth.GettingPendingBatch, INITIAL, c, Whitelisted(k)) && w.sent == {}
    ensures At(s, w', k.i, ToEth.WaitingForQuorumOnTransfer, Hashed(k), c, Whitelisted(k))
    ensures (k.i, k.hash) in w'.broadcast
  {
    TransferSteps(s, k);
    FetchIsTrue(s, k, c, Whitelisted(k));
    var w1 := Steps(s, w, k.i, k.a, ToEth.GettingPendingBatch, INITIAL, c, Whitelisted(k), FetchStep(k));
    assert SignStep(k).calls[0] == SignatureBroadcast(k.hash);
    w' := Steps(s, w1, k.i, k.a, ToEth.SigningProposedTransfer, Stored(k), c, Whitelisted(k), SignStep(k));
  }

  lemma Counts(s: Setting, k: Story, w: World, c: Chain, n: Node) returns (w': World)
    requires Sane(s) && Smooth(s, k) && Holds(k, n)
    requires At(s, w, k.i, ToEth.WaitingForQuorumOnTransfer, Hashed(k), c, n)
    ensures At(s, w', k.i, ToEth.PerformingTransfer, Counted(k), c, n) && w.broadcast <= w'.broadcast
  {
    CountIsTrue(s, k, c, n);
    TransferSteps(s, k);
    w' := Steps(s, w, k.i, k.a, ToEth.WaitingForQuorumOnTransfer, Hashed(k), c, n, CountStep(k));
  }

  lemma ReadyToSubmit(s: Setting, k: Story, w: World) returns (w': World)
    requires Sane(s) && Smooth(s, k) && Arrives(s, k) && Initial(s, w) && w.history != [] && k.i in s.honest
    ensures At(s, w', k.i, ToEth.PerformingTransfer, Counted(k), Pending(k, Now(w)), Holding(s, k))
    ensures (k.i, k.hash) in w'.broadcast
  {
    var c := Pending(k, Now(w));
    var w1 := Listens(s, k, w);
    var w2 := FetchesAndSigns(s, k, w1, c);
    var w3 := Hears(s, w2, k.i, ToEth.WaitingForQuorumOnTransfer, Hashed(k), c, Whitelisted(k), Arrive(k.packet));
    HoldsTheSignature(s, k);
    w' := Counts(s, k, w3, c, Holding(s, k));
  }

  /** What step four sends. */
  ghost function SubmitCall(s: Setting, k: Story): Call
    requires Smooth(s, k)
  {
    TransferSent(TransferOf(s.cfg, k.b, k.a).submission, TransferOf(s.cfg, k.b, k.a).reported)
  }

  lemma SubmitStepSends(s: Setting, k: Story)
    requires Smooth(s, k)
    ensures SubmitCall(s, k) in ToEth.PerformTransfer(s.cfg, Counted(k), k.a).calls
  {
    TransferSteps(s, k);
    assert SubmitStep(s, k).calls[4] == SubmitCall(s, k);
  }

  /** A reachable world in which the relayer submits the pending batch. */
  lemma TransferCanBeSubmitted(s: Setting, k: Story, w: World) returns (w': World, views: seq<nat>)
    requires Sane(s) && Smooth(s, k) && Arrives(s, k) && Initial(s, w) && w.history != [] && k.i in s.honest
    ensures Reachable(s, w') && Enabled(s, w', StepToEth(k.i, k.a, views))
    ensures SubmitCall(s, k) in ToEthStep(s, w', k.i, k.a).calls
  {
    w' := ReadyToSubmit(s, k, w);
    HoldsTheSignature(s, k);
    SubmissionIsTrue(s, k, Pending(k, Now(w)), Holding(s, k));
    TransferSteps(s, k);
    SubmitStepSends(s, k);
    views := StepEnabled(s, w', k.i, k.a, Pending(k, Now(w)), Holding(s, k));
  }

  // ---------------------------------------------------------------- until the statuses are performed

  function Final(k: Story): Batch
    requires k.a.pending.Ok?
  {
    FinalBatch(k.b, k.a)
  }

  function Resolving(k: Story): ExecState
    requires k.a.pending.Ok?
  {
    Counted(k).(batch := Some(Final(k)))
  }

  function Proposing(k: Story): ExecState
    requires k.a.pending.Ok?
  {
    Resolving(k).(proposedRetries := 1)
  }

  function Named(k: Story): ExecState
    requires k.a.pending.Ok?
  {
    Proposing(k).(actionID := 1)
  }

  function Agreed(k: Story): ExecState
    requires k.a.pending.Ok?
  {
    Named(k).(elrondRetries := 1)
  }

  /** The chains once Ethereum executed the batch and knows its statuses. */
  function Released(k: Story, c: Chain): Chain {
    Moved(Moved(c, EthereumExecutes(Executed(Lists(k.b.deposits), k.b.id), {k.i})),
          EthereumSettles(map[k.b.id := k.statuses]))
  }

  /** The batch is pending on Elrond and settled on Ethereum. */
  ghost predicate Settled(k: Story, c: Chain) {
    && c.elrond.pending == Some(k.b) && EthExecuted(c.ethereum, k.b.id)
    && k.b.id in c.ethereum.statuses && c.ethereum.statuses[k.b.id] == k.statuses
  }

  lemma ReleasedIsSettled(k: Story, c: Chain)
    requires c.elrond.pending == Some(k.b)
    ensures Settled(k, Released(k, c)) && Released(k, c).elrond == c.elrond
  {
    var done := Released(k, c).ethereum.executed;
    assert done[|done| - 1].id == k.b.id;
  }

  lemma EthereumExecutesIt(s: Setting, k: Story, w: World, c: Chain, n: Node) returns (w': World)
    requires Sane(s) && Smooth(s, k) && k.i in s.honest && s.arbitrary == {} && (k.i, k.hash) in w.broadcast
    requires At(s, w, k.i, ToEth.WaitingTransferConfirmation, Counted(k), c, n)
    ensures At(s, w', k.i, ToEth.WaitingTransferConfirmation, Counted(k), Released(k, c), n) && w'.sent == w.sent
  {
    var x := Executed(Lists(k.b.deposits), k.b.id);
    assert |{k.i}| == 1;
    assert HashOf(s.cfg.hashing, x.lists, x.id) == Ok(k.hash);
    var w1 := ChainsMove(s, w, k.i, ToEth.WaitingTransferConfirmation, Counted(k), c, n, EthereumExecutes(x, {k.i}));
    w' := ChainsMove(s, w1, k.i, ToEth.WaitingTransferConfirmation, Counted(k), Moved(c, EthereumExecutes(x, {k.i})), n,
                     EthereumSettles(map[k.b.id := k.statuses]));
  }

  lemma Submits(s: Setting, k: Story, w: World, c: Chain, n: Node) returns (w': World)
    requires Sane(s) && Smooth(s, k) && Holds(k, n) && c.ethereum.executed == []
    requires At(s, w, k.i, ToEth.PerformingTransfer, Counted(k), c, n)
    ensures At(s, w', k.i, ToEth.WaitingTransferConfirmation, Counted(k), c, n) && w.broadcast <= w'.broadcast
  {
    SubmissionIsTrue(s, k, c, n);
    TransferSteps(s, k);
    w' := Steps(s, w, k.i, k.a, ToEth.PerformingTransfer, Counted(k), c, n, SubmitStep(s, k));
  }

  /** Step five asks nothing here; step four then learns of the execution, step six of the statuses. */
  function ConfirmStep(k: Story): ToEth.Step {
    StepResult(ToEth.PerformingTransfer, Counted(k), [])
  }

  function ExecutedStep(k: Story): ToEth.Step {
    StepResult(ToEth.ResolvingSetStatus, Counted(k), [EthExecutedAsked(k.b.id, Ok(true))])
  }

  function ResolveStep(k: Story): ToEth.Step
    requires k.a.pending.Ok?
  {
    StepResult(ToEth.ProposingSetStatus, Resolving(k),
               [StoreCleared, PendingFetched(Ok(k.b)), StatusesRead(k.b.id, Ok(k.statuses))])
  }

  /** Steps seven to ten: proposed, signed, agreed and performed. */
  function ProposeStep(k: Story): ToEth.Step
    requires k.a.pending.Ok?
  {
    var action := SetStatusAction(Final(k));
    StepResult(ToEth.SigningProposedSetStatus, Proposing(k),
               [ProposedAsked(action, Ok(false)), LeaderAsked(true), ProposalSent(action, k.a.sent)])
  }

  function NameStep(k: Story): ToEth.Step
    requires k.a.pending.Ok?
  {
    StepResult(ToEth.WaitingForQuorumOnSetStatus, Named(k),
               [ActionIDRead(SetStatusAction(Final(k)), Ok(1)), SignedAsked(1, Ok(false)), SignatureSent(1, k.a.sent)])
  }

  function AgreeStep(k: Story): ToEth.Step
    requires k.a.pending.Ok?
  {
    StepResult(ToEth.PerformingSetStatus, Agreed(k), [ElrondQuorumAsked(1, Ok(true))])
  }

  function PerformStep(k: Story): ToEth.Step
    requires k.a.pending.Ok?
  {
    StepResult(ToEth.PerformingSetStatus, Agreed(k),
               [PerformedAsked(1, Ok(false)), LeaderAsked(true), PerformSent(1, k.a.sent)])
  }

  lemma ResolvingSteps(s: Setting, k: Story)
    requires SmoothStatus(s, k)
    ensures ToEth.WaitConfirmation(Counted(k), OnceExecuted(k.a)) == ConfirmStep(k)
    ensures ToEth.PerformTransfer(s.cfg, Counted(k), OnceExecuted(k.a)) == ExecutedStep(k)
    ensures ToEth.ResolveStatus(Counted(k), OnceExecuted(k.a)) == ResolveStep(k)
  {
    assert Polls(k.a.statuses) == [Poll(true, Ok(k.statuses))];
    assert StatusCalls(Polls(k.a.statuses), k.b.id) == [StatusesRead(k.b.id, Ok(k.statuses))];
  }

  lemma ProposeStepRuns(s: Setting, k: Story)
    requires SmoothStatus(s, k)
    ensures ToEth.ProposeStatus(s.cfg, Resolving(k), OnceExecuted(k.a)) == ProposeStep(k)
    ensures ProposeTx(k.i, SetStatusAction(Final(k))) in TxsOf(k.i, ProposeStep(k).calls)
  {
    assert ProposeStep(k).calls[2] == ProposalSent(SetStatusAction(Final(k)), k.a.sent);
  }

  lemma NameStepRuns(s: Setting, k: Story)
    requires SmoothStatus(s, k)
    ensures ToEth.SignStatus(Proposing(k), OnceExecuted(k.a)) == NameStep(k)
    ensures SignTx(k.i, 1) in TxsOf(k.i, NameStep(k).calls)
  {
    assert NameStep(k).calls[2] == SignatureSent(1, k.a.sent);
  }

  lemma AgreeStepRuns(s: Setting, k: Story)
    requires SmoothStatus(s, k)
    ensures ToEth.WaitForStatusQuorum(s.cfg, Named(k), OnceExecuted(k.a)) == AgreeStep(k)
  {
  }

  lemma PerformStepRuns(s: Setting, k: Story)
    requires SmoothStatus(s, k)
    ensures ToEth.PerformStatus(Agreed(k), OnceExecuted(k.a)) == PerformStep(k)
    ensures PerformTx(k.i, 1) in TxsOf(k.i, PerformStep(k).calls)
  {
    assert PerformStep(k).calls[2] == PerformSent(1, k.a.sent);
  }

  lemma ResolvingIsTrue(s: Setting, k: Story, c: Chain, n: Node)
    requires LongEnough(s.sha) && s.interval > 0 && SmoothStatus(s, k) && Settled(k, c)
    ensures TrueNow(s, k.i, c, n, ExecutedStep(k).calls) && TrueNow(s, k.i, c, n, ResolveStep(k).calls)
  {
  }

  lemma ProposalIsTrue(s: Setting, k: Story, c: Chain, n: Node)
    requires LongEnough(s.sha) && s.interval > 0 && SmoothStatus(s, k) && n.elrondWhitelist == {k.i}
    requires c.elrond.actions == []
    ensures TrueNow(s, k.i, c, n, ProposeStep(k).calls)
  {
    AloneLeads(s, k, c, n);
  }

  lemma NamingIsTrue(s: Setting, k: Story, c: Chain, n: Node)
    requires LongEnough(s.sha) && s.interval > 0 && SmoothStatus(s, k)
    requires ActionIs(c.elrond, 1, SetStatusAction(Final(k))) && SignersOf(c.elrond, 1) == {}
    ensures TrueNow(s, k.i, c, n, NameStep(k).calls)
  {
  }

  lemma PerformIsTrue(s: Setting, k: Story, c: Chain, n: Node)
    requires LongEnough(s.sha) && s.interval > 0 && SmoothStatus(s, k) && n.elrondWhitelist == {k.i}
    requires c.elrond.performed == []
    ensures TrueNow(s, k.i, c, n, PerformStep(k).calls)
  {
    AloneLeads(s, k, c, n);
  }

  lemma Resolves(s: Setting, k: Story, w: World, c: Chain, n: Node) returns (w': World)
    requires Sane(s) && SmoothStatus(s, k) && Settled(k, c)
    requires At(s, w, k.i, ToEth.WaitingTransferConfirmation, Counted(k), c, n)
    ensures At(s, w', k.i, ToEth.ProposingSetStatus, Resolving(k), c, n.(store := EMPTY))
  {
    var e := OnceExecuted(k.a);
    ResolvingSteps(s, k);
    ResolvingIsTrue(s, k, c, n);
    var w1 := Steps(s, w, k.i, e, ToEth.WaitingTransferConfirmation, Counted(k), c, n, ConfirmStep(k));
    var w2 := Steps(s, w1, k.i, e, ToEth.PerformingTransfer, Counted(k), c, n, ExecutedStep(k));
    assert ResolveStep(k).calls[0] == StoreCleared;
    w' := Steps(s, w2, k.i, e, ToEth.ResolvingSetStatus, Counted(k), c, n, ResolveStep(k));
  }

  function AfterTx(c: Chain, tx: Tx): Chain {
    Moved(c, ElrondIncludes(tx, false, 1))
  }

  /** What the contract records once the statuses are proposed, signed and performed. */
  lemma ContractSettles(s: Setting, k: Story, c: Chain)
    requires Sane(s) && k.a.pending.Ok? && c.elrond == s.start.(pending := c.elrond.pending)
    ensures var c1 := AfterTx(c, ProposeTx(k.i, SetStatusAction(Final(k))));
            var c2 := AfterTx(c1, SignTx(k.i, 1));
            && ActionIs(c1.elrond, 1, SetStatusAction(Final(k))) && SignersOf(c1.elrond, 1) == {}
            && c2.elrond.performed == []
            && AfterTx(c2, PerformTx(k.i, 1)).elrond.settled == [SetStatusArgs(Final(k))]
  {
    var c1 := AfterTx(c, ProposeTx(k.i, SetStatusAction(Final(k))));
    var c2 := AfterTx(c1, SignTx(k.i, 1));
    assert SignersOf(c2.elrond, 1) == {k.i};
    assert CanPerform(c2.elrond, 1, 1);
  }

  lemma Includes(s: Setting, w: World, i: Bytes, step: ToEth.Id, x: ExecState, c: Chain, n: Node, tx: Tx)
    returns (w': World)
    requires Sane(s) && s.arbitrary == {} && At(s, w, i, step, x, c, n) && tx in w.sent
    ensures At(s, w', i, step, x, AfterTx(c, tx), n)
  {
    w' := ChainsMove(s, w, i, step, x, c, n, ElrondIncludes(tx, false, 1));
  }

  lemma Proposes(s: Setting, k: Story, w: World, c: Chain, n: Node) returns (w': World)
    requires Sane(s) && SmoothStatus(s, k) && n.elrondWhitelist == {k.i} && c.elrond.actions == []
    requires At(s, w, k.i, ToEth.ProposingSetStatus, Resolving(k), c, n)
    ensures At(s, w', k.i, ToEth.SigningProposedSetStatus, Proposing(k), c, n)
    ensures ProposeTx(k.i, SetStatusAction(Final(k))) in w'.sent
  {
    ProposeStepRuns(s, k);
    ProposalIsTrue(s, k, c, n);
    w' := Steps(s, w, k.i, OnceExecuted(k.a), ToEth.ProposingSetStatus, Resolving(k), c, n, ProposeStep(k));
  }

  lemma Signs(s: Setting, k: Story, w: World, c: Chain, n: Node) returns (w': World)
    requires Sane(s) && SmoothStatus(s, k)
    requires ActionIs(c.elrond, 1, SetStatusAction(Final(k))) && SignersOf(c.elrond, 1) == {}
    requires At(s, w, k.i, ToEth.SigningProposedSetStatus, Proposing(k), c, n)
    ensures At(s, w', k.i, ToEth.WaitingForQuorumOnSetStatus, Named(k), c, n) && SignTx(k.i, 1) in w'.sent
  {
    NameStepRuns(s, k);
    NamingIsTrue(s, k, c, n);
    w' := Steps(s, w, k.i, OnceExecuted(k.a), ToEth.SigningProposedSetStatus, Proposing(k), c, n, NameStep(k));
  }

  lemma SeesQuorum(s: Setting, k: Story, w: World, c: Chain, n: Node) returns (w': World)
    requires Sane(s) && SmoothStatus(s, k) && At(s, w, k.i, ToEth.WaitingForQuorumOnSetStatus, Named(k), c, n)
    ensures At(s, w', k.i, ToEth.PerformingSetStatus, Agreed(k), c, n)
  {
    AgreeStepRuns(s, k);
    w' := Steps(s, w, k.i, OnceExecuted(k.a), ToEth.WaitingForQuorumOnSetStatus, Named(k), c, n, AgreeStep(k));
  }

  lemma Performs(s: Setting, k: Story, w: World, c: Chain, n: Node) returns (w': World)
    requires Sane(s) && SmoothStatus(s, k) && n.elrondWhitelist == {k.i} && c.elrond.performed == []
    requires At(s, w, k.i, ToEth.PerformingSetStatus, Agreed(k), c, n)
    ensures At(s, w', k.i, ToEth.PerformingSetStatus, Agreed(k), c, n) && PerformTx(k.i, 1) in w'.sent
  {
    PerformStepRuns(s, k);
    PerformIsTrue(s, k, c, n);
    w' := Steps(s, w, k.i, OnceExecuted(k.a), ToEth.PerformingSetStatus, Agreed(k), c, n, PerformStep(k));
  }

  /** From resolved statuses on: proposed, signed and performed on the contract. */
  lemma StatusGoesThrough(s: Setting, k: Story, w: World, c: Chain, n: Node) returns (w': World)
    requires Sane(s) && SmoothStatus(s, k) && s.arbitrary == {} && n.elrondWhitelist == {k.i}
    requires c.elrond == s.start.(pending := c.elrond.pending)
    requires At(s, w, k.i, ToEth.ProposingSetStatus, Resolving(k), c, n)
    ensures Reachable(s, w') && w'.history != [] && Now(w').elrond.settled == [SetStatusArgs(Final(k))]
  {
    var propose := ProposeTx(k.i, SetStatusAction(Final(k)));
    var c1 := AfterTx(c, propose);
    var c2 := AfterTx(c1, SignTx(k.i, 1));
    ContractSettles(s, k, c);
    var w1 := Proposes(s, k, w, c, n);
    var w2 := Includes(s, w1, k.i, ToEth.SigningProposedSetStatus, Proposing(k), c, n, propose);
    var w3 := Signs(s, k, w2, c1, n);
    var w4 := Includes(s, w3, k.i, ToEth.WaitingForQuorumOnSetStatus, Named(k), c1, n, SignTx(k.i, 1));
    var w5 := SeesQuorum(s, k, w4, c2, n);
    var w6 := Performs(s, k, w5, c2, n);
    w' := Includes(s, w6, k.i, ToEth.PerformingSetStatus, Agreed(k), c2, n, PerformTx(k.i, 1));
  }

  /** A reachable world in which the statuses of the batch are performed. */
  lemma StatusCanBePerformed(s: Setting, k: Story, w: World) returns (w': World)
    requires Sane(s) && Smooth(s, k) && Arrives(s, k) && Initial(s, w) && w.history != []
    requires s.honest == {k.i} && s.arbitrary == {}
    ensures Reachable(s, w') && w'.history != [] && Now(w').elrond.settled == [SetStatusArgs(FinalBatch(k.b, k.a))]
  {
    var c := Pending(k, Now(w));
    var done, n := Released(k, c), Holding(s, k);
    HoldsTheSignature(s, k);
    ReleasedIsSettled(k, c);
    var w1 := ReadyToSubmit(s, k, w);
    var w2 := Submits(s, k, w1, c, n);
    var w3 := EthereumExecutesIt(s, k, w2, c, n);
    var w4 := Resolves(s, k, w3, done, n);
    w' := StatusGoesThrough(s, k, w4, done, n.(store := EMPTY));
  }
}

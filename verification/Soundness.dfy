/** What the chains' record says about a batch or an action, and how each step of a relayer relies on it. */
module Soundness {
  import opened Base
  import opened Batches
  import opened ElrondCodec
  import opened EthereumClient
  import opened Protocol
  import opened World
  import ToElrond
  import ToElrondRuns
  import ToEth
  import ToEthRuns

  type History = seq<Chain>

  // ---------------------------------------------------------------- facts on record

  /** `b` is the Ethereum batch that followed the last executed one, its nonces the last executed nonce. */
  ghost predicate NextAt(s: Setting, h: History, b: Batch, j: nat, k: nat) {
    && j <= k < |h|
    && b == s.content(b.id) && b.deposits != []
    && b.id == ToElrond.NextBatchID(h[j].elrond.lastBatchID)
    && NoncesFollow(b.deposits, h[k].elrond.lastNonce)
  }

  ghost predicate WasNext(s: Setting, h: History, b: Batch) {
    exists j, k :: NextAt(s, h, b, j, k)
  }

  /** `b` was pending on Elrond, as the client hands it out. */
  ghost predicate WasPending(h: History, b: Batch) {
    AsParsed(b) && exists j :: 0 <= j < |h| && h[j].elrond.pending == Some(b)
  }

  ghost predicate WasExecuted(h: History, id: nat) {
    exists j :: 0 <= j < |h| && EthExecuted(h[j].ethereum, id)
  }

  /** Ethereum gave the statuses `st` for the batch. */
  ghost predicate GaveStatuses(h: History, id: nat, st: Bytes) {
    exists j :: 0 <= j < |h| && id in h[j].ethereum.statuses && h[j].ethereum.statuses[id] == st
  }

  /**
   * `b` is the pending batch `origin` with the answer `st` that Ethereum gave for it, resolved against the
   * deposits of the batch `later`, which was pending too.
   */
  ghost predicate SettledBy(h: History, b: Batch, st: Bytes, origin: Batch, later: Batch) {
    && st != [] && GaveStatuses(h, b.id, st)
    && WasPending(h, origin) && WasPending(h, later)
    && b == origin.(statuses := Resolved(st, |later.deposits|))
  }

  ghost predicate WasSettled(h: History, b: Batch) {
    WasExecuted(h, b.id) && exists st, origin, later :: SettledBy(h, b, st, origin, later)
  }

  /** The contract gave the action this identifier. */
  ghost predicate KnownAs(h: History, id: nat, a: Action) {
    exists j :: 0 <= j < |h| && ActionIs(h[j].elrond, id, a)
  }

  /** An action that a relayer following the protocol may support. */
  ghost predicate Supported(s: Setting, h: History, a: Action) {
    match a
    case Transfer(args) => exists b :: WasNext(s, h, b) && args == TransferArgs(b)
    case SetStatus(args) => exists b :: WasSettled(h, b) && args == SetStatusArgs(b)
  }

  ghost predicate SupportedTx(s: Setting, h: History, tx: Tx) {
    && tx.sender in s.honest
    && (tx.ProposeTx? ==> Supported(s, h, tx.action))
    && (tx.SignTx? ==> exists a :: KnownAs(h, tx.id, a) && Supported(s, h, a))
  }

  /** A hash over a batch that was once pending on Elrond. */
  ghost predicate PendingHash(s: Setting, h: History, hash: Bytes) {
    exists b :: WasPending(h, b) && MessageHash(s.cfg.hashing, b) == Ok(hash)
  }

  // ---------------------------------------------------------------- nothing on record is lost

  lemma WasNextKept(s: Setting, h: History, c: Chain, b: Batch)
    requires WasNext(s, h, b)
    ensures WasNext(s, h + [c], b)
  {
    var j: nat, k: nat :| NextAt(s, h, b, j, k);
    assert NextAt(s, h + [c], b, j, k);
  }

  lemma WasExecutedKept(h: History, c: Chain, id: nat)
    requires WasExecuted(h, id)
    ensures WasExecuted(h + [c], id)
  {
    var j :| 0 <= j < |h| && EthExecuted(h[j].ethereum, id);
    assert (h + [c])[j] == h[j];
  }

  lemma WasSettledKept(h: History, c: Chain, b: Batch)
    requires WasSettled(h, b)
    ensures WasSettled(h + [c], b)
  {
    WasExecutedKept(h, c, b.id);
    var st, origin, later :| SettledBy(h, b, st, origin, later);
    var j :| 0 <= j < |h| && b.id in h[j].ethereum.statuses && h[j].ethereum.statuses[b.id] == st;
    assert (h + [c])[j] == h[j];
    WasPendingKept(h, c, origin);
    WasPendingKept(h, c, later);
    assert SettledBy(h + [c], b, st, origin, later);
  }

  lemma WasPendingKept(h: History, c: Chain, b: Batch)
    requires WasPending(h, b)
    ensures WasPending(h + [c], b)
  {
    var j :| 0 <= j < |h| && h[j].elrond.pending == Some(b);
    assert (h + [c])[j] == h[j];
  }

  lemma KnownAsKept(h: History, c: Chain, id: nat, a: Action)
    requires KnownAs(h, id, a)
    ensures KnownAs(h + [c], id, a)
  {
    var j :| 0 <= j < |h| && ActionIs(h[j].elrond, id, a);
    assert (h + [c])[j] == h[j];
  }

  lemma SupportedKept(s: Setting, h: History, c: Chain, a: Action)
    requires Supported(s, h, a)
    ensures Supported(s, h + [c], a)
  {
    match a
    case Transfer(args) =>
      var b :| WasNext(s, h, b) && args == TransferArgs(b);
      WasNextKept(s, h, c, b);
    case SetStatus(args) =>
      var b :| WasSettled(h, b) && args == SetStatusArgs(b);
      WasSettledKept(h, c, b);
  }

  lemma SupportedTxKept(s: Setting, h: History, c: Chain, tx: Tx)
    requires SupportedTx(s, h, tx)
    ensures SupportedTx(s, h + [c], tx)
  {
    match tx
    case ProposeTx(_, a) => SupportedKept(s, h, c, a);
    case SignTx(_, id) =>
      var a :| KnownAs(h, id, a) && Supported(s, h, a);
      KnownAsKept(h, c, id, a);
      SupportedKept(s, h, c, a);
    case PerformTx(_, _) =>
  }

  lemma PendingHashKept(s: Setting, h: History, c: Chain, hash: Bytes)
    requires PendingHash(s, h, hash)
    ensures PendingHash(s, h + [c], hash)
  {
    var b :| WasPending(h, b) && MessageHash(s.cfg.hashing, b) == Ok(hash);
    WasPendingKept(h, c, b);
  }

  // ---------------------------------------------------------------- what the machines rely on

  ghost predicate ToElrondSound(s: Setting, h: History, step: ToElrond.Id, x: ExecState) {
    && (!step.GettingPendingBatch? ==> x.batch.Some? && WasNext(s, h, x.batch.value))
    && (step.WaitingForQuorum? || step.PerformingActionID? ==> KnownAs(h, x.actionID, TransferAction(x.batch.value)))
  }

  /** The stages at which the transfer is not known to be executed. */
  predicate BeforeExecution(step: ToEth.Id) {
    step.SigningProposedTransfer? || step.WaitingForQuorumOnTransfer? || step.PerformingTransfer?
    || step.WaitingTransferConfirmation?
  }

  /** The stages after the transfer is known to be executed, and those with resolved statuses. */
  predicate AfterExecution(step: ToEth.Id) {
    step.ResolvingSetStatus? || WithStatuses(step)
  }

  predicate WithStatuses(step: ToEth.Id) {
    step.ProposingSetStatus? || step.SigningProposedSetStatus? || WithAction(step)
  }

  predicate WithAction(step: ToEth.Id) {
    step.WaitingForQuorumOnSetStatus? || step.PerformingSetStatus?
  }

  ghost predicate ToEthSound(h: History, step: ToEth.Id, x: ExecState) {
    && (!step.GettingPendingBatch? ==> x.batch.Some?)
    && (BeforeExecution(step) || step.ResolvingSetStatus? ==> WasPending(h, x.batch.value))
    && (AfterExecution(step) ==> WasExecuted(h, x.batch.value.id))
    && (WithStatuses(step) ==> WasSettled(h, x.batch.value))
    && (WithAction(step) ==> KnownAs(h, x.actionID, SetStatusAction(x.batch.value)))
  }

  lemma ToElrondSoundKept(s: Setting, h: History, c: Chain, step: ToElrond.Id, x: ExecState)
    requires ToElrondSound(s, h, step, x)
    ensures ToElrondSound(s, h + [c], step, x)
  {
    if !step.GettingPendingBatch? {
      WasNextKept(s, h, c, x.batch.value);
    }
    if step.WaitingForQuorum? || step.PerformingActionID? {
      KnownAsKept(h, c, x.actionID, TransferAction(x.batch.value));
    }
  }

  lemma ToEthSoundKept(h: History, c: Chain, step: ToEth.Id, x: ExecState)
    requires ToEthSound(h, step, x)
    ensures ToEthSound(h + [c], step, x)
  {
    if BeforeExecution(step) || step.ResolvingSetStatus? {
      WasPendingKept(h, c, x.batch.value);
    }
    if AfterExecution(step) {
      WasExecutedKept(h, c, x.batch.value.id);
    }
    if WithStatuses(step) {
      WasSettledKept(h, c, x.batch.value);
    }
    if WithAction(step) {
      KnownAsKept(h, c, x.actionID, SetStatusAction(x.batch.value));
    }
  }

  // ---------------------------------------------------------------- answers put facts on record

  /** Call `k` of a step is answered truly from the state `views[k]`, and views do not go back. */
  ghost predicate TrulyAnswered(s: Setting, h: History, i: Bytes, calls: seq<Call>, views: seq<nat>) {
    && |views| == |calls|
    && (forall k :: 0 <= k < |views| ==> views[k] < |h|)
    && (forall j, k :: 0 <= j < k < |views| ==> views[j] <= views[k])
    && (forall k :: 0 <= k < |calls| ==> True(s, i, h[views[k]], calls[k]))
  }

  /** What the answered call `call` puts on record. */
  ghost predicate OnRecord(h: History, call: Call) {
    match call
    case PendingFetched(Ok(b)) => WasPending(h, b)
    case EthExecutedAsked(id, Ok(true)) => WasExecuted(h, id)
    case StatusesRead(id, Ok(st)) => GaveStatuses(h, id, st)
    case ActionIDRead(a, Ok(id)) => id == INVALID_ACTION_ID || KnownAs(h, id, a)
    case _ => true
  }

  lemma AnswersOnRecord(s: Setting, h: History, i: Bytes, calls: seq<Call>, views: seq<nat>, call: Call)
    requires TrulyAnswered(s, h, i, calls, views) && call in calls
    ensures OnRecord(h, call)
  {
    var k :| 0 <= k < |calls| && calls[k] == call;
    assert True(s, i, h[views[k]], call);
  }

  /** The calls behind a relayer's transaction. */
  lemma TxOrigin(i: Bytes, calls: seq<Call>, tx: Tx)
    requires tx in TxsOf(i, calls)
    ensures tx.sender == i
    ensures tx.ProposeTx? ==> exists report :: ProposalSent(tx.action, report) in calls
    ensures tx.SignTx? ==> tx.id < TWO_64 && exists report :: SignatureSent(tx.id, report) in calls
  {
    match tx
    case ProposeTx(_, action) =>
      var k :| 0 <= k < |calls| && calls[k].ProposalSent? && calls[k].proposal == action;
      assert ProposalSent(action, calls[k].proposalReport) in calls;
    case SignTx(_, id) =>
      var k :| 0 <= k < |calls| && calls[k].SignatureSent? && calls[k].signID == id;
      assert SignatureSent(id, calls[k].signReport) in calls;
    case PerformTx(_, _) =>
  }

  // ---------------------------------------------------------------- the Ethereum to Elrond machine

  lemma ToElrondFetch(s: Setting, h: History, i: Bytes, x: ExecState, a: Answers, views: seq<nat>)
    requires TrulyAnswered(s, h, i, ToElrond.GetPending(x, a).calls, views)
    ensures var r := ToElrond.GetPending(x, a); ToElrondSound(s, h, r.next, r.state)
  {
    var r := ToElrond.GetPending(x, a);
    if r.next.ProposingTransfer? {
      var b := a.ethBatch.value;
      assert r.calls[0] == LastBatchIDRead(a.lastBatchID);
      assert r.calls[1] == EthBatchRead(ToElrond.NextBatchID(a.lastBatchID.value), a.ethBatch);
      assert r.calls[3] == LastNonceRead(a.lastNonce);
      assert True(s, i, h[views[1]], r.calls[1]);
      assert NextAt(s, h, b, views[0], views[3]);
    }
  }

  /** A non-zero identifier that this step reads names the action of the stored batch. */
  lemma ToElrondSignReads(s: Setting, h: History, i: Bytes, x: ExecState, a: Answers, views: seq<nat>)
    requires TrulyAnswered(s, h, i, ToElrond.SignTransfer(x, a).calls, views) && x.batch.Some?
    requires a.actionID.Ok? && a.actionID.value != INVALID_ACTION_ID
    ensures KnownAs(h, a.actionID.value, TransferAction(x.batch.value))
  {
    var calls := ToElrond.SignTransfer(x, a).calls;
    assert calls[0] == ActionIDRead(TransferAction(x.batch.value), a.actionID);
    AnswersOnRecord(s, h, i, calls, views, calls[0]);
  }

  lemma ToElrondSign(s: Setting, h: History, i: Bytes, x: ExecState, a: Answers, views: seq<nat>)
    requires TrulyAnswered(s, h, i, ToElrond.SignTransfer(x, a).calls, views)
    requires ToElrondSound(s, h, ToElrond.SigningProposedTransfer, x)
    ensures var r := ToElrond.SignTransfer(x, a);
            && ToElrondSound(s, h, r.next, r.state)
            && forall id: uint64, report ::
                 SignatureSent(id, report) in r.calls ==> KnownAs(h, id, TransferAction(x.batch.value))
  {
    if a.actionID.Ok? && a.actionID.value != INVALID_ACTION_ID {
      ToElrondSignReads(s, h, i, x, a, views);
    }
  }

  lemma ToElrondOthers(s: Setting, h: History, x: ExecState, a: Answers)
    ensures ToElrondSound(s, h, ToElrond.ProposingTransfer, x) ==>
              var r := ToElrond.ProposeTransfer(x, a); ToElrondSound(s, h, r.next, r.state)
    ensures ToElrondSound(s, h, ToElrond.WaitingForQuorum, x) ==>
              var r := ToElrond.WaitForQuorum(s.cfg, x, a); ToElrondSound(s, h, r.next, r.state)
    ensures ToElrondSound(s, h, ToElrond.PerformingActionID, x) ==>
              var r := ToElrond.PerformAction(x, a); ToElrondSound(s, h, r.next, r.state)
  {
  }

  /** Every step of this machine keeps it sound. */
  lemma ToElrondStepSound(s: Setting, h: History, i: Bytes, m: ToElrondRuns.Machine, a: Answers, views: seq<nat>)
    requires ToElrondSound(s, h, m.step, m.exec)
    requires TrulyAnswered(s, h, i, ToElrond.Execute(s.cfg, m.step, m.exec, a).calls, views)
    ensures var r := ToElrond.Execute(s.cfg, m.step, m.exec, a); ToElrondSound(s, h, r.next, r.state)
  {
    match m.step
    case GettingPendingBatch => ToElrondFetch(s, h, i, m.exec, a, views);
    case SigningProposedTransfer => ToElrondSign(s, h, i, m.exec, a, views);
    case _ => ToElrondOthers(s, h, m.exec, a);
  }

  lemma ToElrondProposalSupported(s: Setting, h: History, m: ToElrondRuns.Machine, a: Answers, action: Action,
      report: Result<()>)
    requires ToElrondSound(s, h, m.step, m.exec) &&
              ProposalSent(action, report) in ToElrond.Execute(s.cfg, m.step, m.exec, a).calls
    ensures Supported(s, h, action)
  {
    ToElrondRuns.CallsByStep(s.cfg, m.step, m.exec, a, ProposalSent(action, report));
    assert action == TransferAction(m.exec.batch.value);
  }

  lemma ToElrondSigningSupported(s: Setting, h: History, i: Bytes, m: ToElrondRuns.Machine, a: Answers,
      views: seq<nat>, id: uint64, report: Result<()>)
    requires ToElrondSound(s, h, m.step, m.exec) &&
              SignatureSent(id, report) in ToElrond.Execute(s.cfg, m.step, m.exec, a).calls
    requires TrulyAnswered(s, h, i, ToElrond.Execute(s.cfg, m.step, m.exec, a).calls, views)
    ensures KnownAs(h, id, TransferAction(m.exec.batch.value)) && Supported(s, h, TransferAction(m.exec.batch.value))
  {
    ToElrondRuns.CallsByStep(s.cfg, m.step, m.exec, a, SignatureSent(id, report));
    ToElrondSign(s, h, i, m.exec, a, views);
  }

  /** Every transaction this machine sends is supported. */
  lemma ToElrondTxSupported(s: Setting, h: History, i: Bytes, m: ToElrondRuns.Machine, a: Answers, views: seq<nat>,
      tx: Tx)
    requires i in s.honest
    requires ToElrondSound(s, h, m.step, m.exec)
    requires TrulyAnswered(s, h, i, ToElrond.Execute(s.cfg, m.step, m.exec, a).calls, views)
    requires tx in TxsOf(i, ToElrond.Execute(s.cfg, m.step, m.exec, a).calls)
    ensures SupportedTx(s, h, tx)
  {
    var calls := ToElrond.Execute(s.cfg, m.step, m.exec, a).calls;
    TxOrigin(i, calls, tx);
    match tx
    case ProposeTx(_, action) =>
      var report :| ProposalSent(action, report) in calls;
      ToElrondProposalSupported(s, h, m, a, action, report);
    case SignTx(_, id) =>
      var report :| SignatureSent(id, report) in calls;
      ToElrondSigningSupported(s, h, i, m, a, views, id, report);
    case PerformTx(_, _) =>
  }

  // ---------------------------------------------------------------- the Elrond to Ethereum machine

  lemma ToEthFetch(s: Setting, h: History, i: Bytes, x: ExecState, a: Answers, views: seq<nat>)
    requires TrulyAnswered(s, h, i, ToEth.GetPending(x, a).calls, views)
    ensures var r := ToEth.GetPending(x, a); ToEthSound(h, r.next, r.state)
  {
    var r := ToEth.GetPending(x, a);
    if !r.next.GettingPendingBatch? {
      var asked := EthExecutedAsked(a.pending.value.id, a.ethExecuted);
      assert r.calls[0] == PendingFetched(a.pending) && r.calls[2] == asked;
      AnswersOnRecord(s, h, i, r.calls, views, PendingFetched(a.pending));
      AnswersOnRecord(s, h, i, r.calls, views, asked);
    }
  }

  lemma ToEthPerform(s: Setting, h: History, i: Bytes, x: ExecState, a: Answers, views: seq<nat>)
    requires TrulyAnswered(s, h, i, ToEth.PerformTransfer(s.cfg, x, a).calls, views)
    requires ToEthSound(h, ToEth.PerformingTransfer, x)
    ensures var r := ToEth.PerformTransfer(s.cfg, x, a); ToEthSound(h, r.next, r.state)
  {
    var asked := EthExecutedAsked(x.batch.value.id, a.ethExecuted);
    var calls := ToEth.PerformTransfer(s.cfg, x, a).calls;
    assert calls[0] == asked;
    AnswersOnRecord(s, h, i, calls, views, asked);
  }

  /** What step six reads on its way to new statuses. */
  lemma ToEthResolveReads(s: Setting, h: History, i: Bytes, x: ExecState, a: Answers, views: seq<nat>)
    requires TrulyAnswered(s, h, i, ToEth.ResolveStatus(x, a).calls, views)
    requires x.batch.Some? && ToEth.ResolveStatus(x, a).next.ProposingSetStatus?
    ensures WasPending(h, a.pending.value)
    ensures GaveStatuses(h, x.batch.value.id, FinalStatuses(Polls(a.statuses)))
  {
    var calls := ToEth.ResolveStatus(x, a).calls;
    var polled := StatusCalls(Polls(a.statuses), x.batch.value.id);
    FinalStatusesWereRead(Polls(a.statuses), x.batch.value.id);
    var read := StatusesRead(x.batch.value.id, Ok(FinalStatuses(Polls(a.statuses))));
    assert read in polled;
    assert calls == [StoreCleared, PendingFetched(a.pending)] + polled;
    AnswersOnRecord(s, h, i, calls, views, read);
    assert calls[1] == PendingFetched(a.pending);
    AnswersOnRecord(s, h, i, calls, views, calls[1]);
  }

  lemma ToEthResolve(s: Setting, h: History, i: Bytes, x: ExecState, a: Answers, views: seq<nat>)
    requires TrulyAnswered(s, h, i, ToEth.ResolveStatus(x, a).calls, views)
    requires ToEthSound(h, ToEth.ResolvingSetStatus, x)
    ensures var r := ToEth.ResolveStatus(x, a); ToEthSound(h, r.next, r.state)
  {
    var r := ToEth.ResolveStatus(x, a);
    if r.next.ProposingSetStatus? {
      ToEthResolveReads(s, h, i, x, a, views);
      assert SettledBy(h, r.state.batch.value, FinalStatuses(Polls(a.statuses)), x.batch.value, a.pending.value);
    }
  }

  /** A non-zero identifier that this step reads names the action of the stored batch. */
  lemma ToEthSignStatusReads(s: Setting, h: History, i: Bytes, x: ExecState, a: Answers, views: seq<nat>)
    requires TrulyAnswered(s, h, i, ToEth.SignStatus(x, a).calls, views) && x.batch.Some?
    requires a.actionID.Ok? && a.actionID.value != INVALID_ACTION_ID
    ensures KnownAs(h, a.actionID.value, SetStatusAction(x.batch.value))
  {
    var calls := ToEth.SignStatus(x, a).calls;
    assert calls[0] == ActionIDRead(SetStatusAction(x.batch.value), a.actionID);
    AnswersOnRecord(s, h, i, calls, views, calls[0]);
  }

  lemma ToEthSignStatus(s: Setting, h: History, i: Bytes, x: ExecState, a: Answers, views: seq<nat>)
    requires TrulyAnswered(s, h, i, ToEth.SignStatus(x, a).calls, views)
    requires ToEthSound(h, ToEth.SigningProposedSetStatus, x)
    ensures var r := ToEth.SignStatus(x, a);
            && ToEthSound(h, r.next, r.state)
            && forall id: uint64, report ::
                 SignatureSent(id, report) in r.calls ==> KnownAs(h, id, SetStatusAction(x.batch.value))
  {
    if a.actionID.Ok? && a.actionID.value != INVALID_ACTION_ID {
      ToEthSignStatusReads(s, h, i, x, a, views);
    }
  }

  lemma ToEthTransferSteps(s: Setting, h: History, x: ExecState, a: Answers)
    ensures ToEthSound(h, ToEth.SigningProposedTransfer, x) ==>
              var r := ToEth.SignTransfer(s.cfg, x); ToEthSound(h, r.next, r.state)
    ensures ToEthSound(h, ToEth.WaitingForQuorumOnTransfer, x) ==>
              var r := ToEth.WaitForQuorum(s.cfg, x, a); ToEthSound(h, r.next, r.state)
    ensures ToEthSound(h, ToEth.WaitingTransferConfirmation, x) ==>
              var r := ToEth.WaitConfirmation(x, a); ToEthSound(h, r.next, r.state)
  {
  }

  lemma ToEthPropose(s: Setting, h: History, x: ExecState, a: Answers)
    requires ToEthSound(h, ToEth.ProposingSetStatus, x)
    ensures var r := ToEth.ProposeStatus(s.cfg, x, a); ToEthSound(h, r.next, r.state)
  {
  }

  lemma ToEthPerformSteps(s: Setting, h: History, x: ExecState, a: Answers)
    ensures ToEthSound(h, ToEth.WaitingForQuorumOnSetStatus, x) ==>
              var r := ToEth.WaitForStatusQuorum(s.cfg, x, a); ToEthSound(h, r.next, r.state)
    ensures ToEthSound(h, ToEth.PerformingSetStatus, x) ==>
              var r := ToEth.PerformStatus(x, a); ToEthSound(h, r.next, r.state)
  {
  }

  /** Every step of this machine keeps it sound. */
  lemma ToEthStepSound(s: Setting, h: History, i: Bytes, m: ToEthRuns.Machine, a: Answers, views: seq<nat>)
    requires ToEthSound(h, m.step, m.exec)
    requires TrulyAnswered(s, h, i, ToEth.Execute(s.cfg, m.step, m.exec, a).calls, views)
    ensures var r := ToEth.Execute(s.cfg, m.step, m.exec, a); ToEthSound(h, r.next, r.state)
  {
    match m.step
    case GettingPendingBatch => ToEthFetch(s, h, i, m.exec, a, views);
    case PerformingTransfer => ToEthPerform(s, h, i, m.exec, a, views);
    case ResolvingSetStatus => ToEthResolve(s, h, i, m.exec, a, views);
    case SigningProposedSetStatus => ToEthSignStatus(s, h, i, m.exec, a, views);
    case ProposingSetStatus => ToEthPropose(s, h, m.exec, a);
    case _ =>
      ToEthTransferSteps(s, h, m.exec, a);
      ToEthPerformSteps(s, h, m.exec, a);
  }

  lemma ToEthProposalSupported(s: Setting, h: History, m: ToEthRuns.Machine, a: Answers, action: Action,
      report: Result<()>)
    requires ToEthSound(h, m.step, m.exec) &&
              ProposalSent(action, report) in ToEth.Execute(s.cfg, m.step, m.exec, a).calls
    ensures Supported(s, h, action)
  {
    ToEthRuns.CallsByStep(s.cfg, m.step, m.exec, a, ProposalSent(action, report));
    assert action == SetStatusAction(m.exec.batch.value);
  }

  lemma ToEthSigningSupported(s: Setting, h: History, i: Bytes, m: ToEthRuns.Machine, a: Answers, views: seq<nat>,
      id: uint64, report: Result<()>)
    requires ToEthSound(h, m.step, m.exec) && SignatureSent(id, report) in ToEth.Execute(s.cfg, m.step, m.exec, a).calls
    requires TrulyAnswered(s, h, i, ToEth.Execute(s.cfg, m.step, m.exec, a).calls, views)
    ensures KnownAs(h, id, SetStatusAction(m.exec.batch.value)) && Supported(s, h, SetStatusAction(m.exec.batch.value))
  {
    ToEthRuns.CallsByStep(s.cfg, m.step, m.exec, a, SignatureSent(id, report));
    ToEthSignStatus(s, h, i, m.exec, a, views);
  }

  /** Every transaction this machine sends to Elrond is supported. */
  lemma ToEthTxSupported(s: Setting, h: History, i: Bytes, m: ToEthRuns.Machine, a: Answers, views: seq<nat>, tx: Tx)
    requires i in s.honest
    requires ToEthSound(h, m.step, m.exec)
    requires TrulyAnswered(s, h, i, ToEth.Execute(s.cfg, m.step, m.exec, a).calls, views)
    requires tx in TxsOf(i, ToEth.Execute(s.cfg, m.step, m.exec, a).calls)
    ensures SupportedTx(s, h, tx)
  {
    var calls := ToEth.Execute(s.cfg, m.step, m.exec, a).calls;
    TxOrigin(i, calls, tx);
    match tx
    case ProposeTx(_, action) =>
      var report :| ProposalSent(action, report) in calls;
      ToEthProposalSupported(s, h, m, a, action, report);
    case SignTx(_, id) =>
      var report :| SignatureSent(id, report) in calls;
      ToEthSigningSupported(s, h, i, m, a, views, id, report);
    case PerformTx(_, _) =>
  }

  /** Every hash this machine broadcasts a signature for is of a batch that was pending. */
  lemma ToEthBroadcastSound(s: Setting, h: History, i: Bytes, m: ToEthRuns.Machine, a: Answers, hash: Bytes)
    requires ToEthSound(h, m.step, m.exec)
    requires (i, hash) in BroadcastsOf(i, ToEth.Execute(s.cfg, m.step, m.exec, a).calls)
    ensures PendingHash(s, h, hash)
  {
    var calls := ToEth.Execute(s.cfg, m.step, m.exec, a).calls;
    var k :| 0 <= k < |calls| && calls[k].SignatureBroadcast? && calls[k].hash == hash;
    ToEthRuns.CallsByStep(s.cfg, m.step, m.exec, a, calls[k]);
    assert WasPending(h, m.exec.batch.value);
  }
}

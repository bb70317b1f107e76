/**
 * The steps of the Ethereum to Elrond half-bridge in their own, imperative form
 * (bridges/ethElrond/steps/ethToElrond), each proved to do what the step function says.
 */
module ToElrondSteps {
  import opened Executor
  import opened Protocol
  import opened ToElrond

  ghost predicate Done(bridge: BridgeExecutor, next: Id, before: seq<Call>, r: Step)
    reads bridge, bridge.batch
  {
    next == r.next && bridge.View() == r.state && bridge.calls == before + r.calls
  }

  method ExecuteGetPending(bridge: BridgeExecutor, a: Answers) returns (next: Id)
    modifies bridge
    ensures Done(bridge, next, old(bridge.calls), GetPending(old(bridge.View()), a))
  {
    bridge.ResetRetriesCountOnElrond();
    var lastEthBatchExecuted := bridge.GetLastExecutedEthBatchIDFromElrond(a);
    if lastEthBatchExecuted.Err? {
      return GettingPendingBatch;
    }
    var fetched := bridge.GetAndStoreBatchFromEthereum(NextBatchID(lastEthBatchExecuted.value), a);
    if fetched.Err? {
      return GettingPendingBatch;
    }
    var batch := bridge.batch;
    var isValid := bridge.ValidateBatch(batch, a);
    if isValid.Err? {
      return GettingPendingBatch;
    }
    if !isValid.value {
      return GettingPendingBatch;
    }
    var verified := bridge.VerifyLastDepositNonceExecutedOnEthereumBatch(a);
    if verified.Err? {
      return GettingPendingBatch;
    }
    return ProposingTransfer;
  }

  method ExecuteProposeTransfer(bridge: BridgeExecutor, a: Answers) returns (next: Id)
    modifies bridge
    ensures Done(bridge, next, old(bridge.calls), ProposeTransfer(old(bridge.View()), a))
  {
    if bridge.batch == null {
      return GettingPendingBatch;
    }
    var wasTransferProposed := bridge.WasTransferProposedOnElrond(a);
    if wasTransferProposed.Err? {
      return GettingPendingBatch;
    }
    if wasTransferProposed.value {
      return SigningProposedTransfer;
    }
    var leader := bridge.MyTurnAsLeader(a);
    if !leader {
      return ProposingTransfer;
    }
    var proposed := bridge.ProposeTransferOnElrond(a);
    if proposed.Err? {
      return GettingPendingBatch;
    }
    return SigningProposedTransfer;
  }

  method ExecuteSignTransfer(bridge: BridgeExecutor, a: Answers) returns (next: Id)
    modifies bridge
    ensures Done(bridge, next, old(bridge.calls), SignTransfer(old(bridge.View()), a))
  {
    if bridge.batch == null {
      return GettingPendingBatch;
    }
    var actionID := bridge.GetAndStoreActionIDForProposeTransferOnElrond(a);
    if actionID.Err? {
      return GettingPendingBatch;
    }
    if actionID.value == INVALID_ACTION_ID {
      return GettingPendingBatch;
    }
    var wasSigned := bridge.WasActionSignedOnElrond(a);
    if wasSigned.Err? {
      return GettingPendingBatch;
    }
    if wasSigned.value {
      return WaitingForQuorum;
    }
    var signed := bridge.SignActionOnElrond(a);
    if signed.Err? {
      return GettingPendingBatch;
    }
    return WaitingForQuorum;
  }

  method ExecuteWaitForQuorum(bridge: BridgeExecutor, a: Answers) returns (next: Id)
    modifies bridge
    ensures Done(bridge, next, old(bridge.calls), WaitForQuorum(bridge.cfg, old(bridge.View()), a))
  {
    var exhausted := bridge.ProcessMaxQuorumRetriesOnElrond();
    if exhausted {
      return GettingPendingBatch;
    }
    var isQuorumReached := bridge.ProcessQuorumReachedOnElrond(a);
    if isQuorumReached.Err? {
      return GettingPendingBatch;
    }
    if !isQuorumReached.value {
      return WaitingForQuorum;
    }
    return PerformingActionID;
  }

  method ExecutePerformAction(bridge: BridgeExecutor, a: Answers) returns (next: Id)
    modifies bridge
    ensures Done(bridge, next, old(bridge.calls), PerformAction(old(bridge.View()), a))
  {
    var wasPerformed := bridge.WasActionPerformedOnElrond(a);
    if wasPerformed.Err? {
      return GettingPendingBatch;
    }
    if wasPerformed.value {
      return GettingPendingBatch;
    }
    var leader := bridge.MyTurnAsLeader(a);
    if !leader {
      return PerformingActionID;
    }
    var performed := bridge.PerformActionOnElrond(a);
    if performed.Err? {
      return GettingPendingBatch;
    }
    return PerformingActionID;
  }

  /** Whichever step is executed, it does what its step function says; the signature store is untouched. */
  method ExecuteStep(id: Id, bridge: BridgeExecutor, a: Answers) returns (next: Id)
    modifies bridge
    ensures Done(bridge, next, old(bridge.calls), Execute(bridge.cfg, id, old(bridge.View()), a))
  {
    match id {
      case GettingPendingBatch => next := ExecuteGetPending(bridge, a);
      case ProposingTransfer => next := ExecuteProposeTransfer(bridge, a);
      case SigningProposedTransfer => next := ExecuteSignTransfer(bridge, a);
      case WaitingForQuorum => next := ExecuteWaitForQuorum(bridge, a);
      case PerformingActionID => next := ExecutePerformAction(bridge, a);
    }
  }
}

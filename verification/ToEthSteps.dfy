/**
 * The steps of the Elrond to Ethereum half-bridge in their own, imperative form
 * (bridges/ethElrond/steps/elrondToEth), each proved to do what the step function says.
 */
module ToEthSteps {
  import opened Base
  import opened Batches
  import opened Executor
  import Messages
  import opened Protocol
  import opened SignatureStore
  import opened ToEth
  import ToEthRuns

  /** The method returned, left and recorded what the step function `r` says. */
  ghost predicate Done(bridge: BridgeExecutor, next: Id, before: seq<Call>, r: Step)
    reads bridge, bridge.batch
  {
    next == r.next && bridge.View() == r.state && bridge.calls == before + r.calls
  }

  /** The answers as they turned out, with what was read from the store and the token check. */
  function Heard(a: Answers, listed: seq<Bytes>, shortage: Error): Answers {
    a.(signatures := listed, transfer := a.transfer.(shortage := shortage))
  }

  /** Every reading of the store lists what it holds for the hash. */
  ghost predicate ReadsTruly(calls: seq<Call>, ethMessages: seq<Messages.EthereumSignature>) {
    forall h, listed :: SignaturesRead(h, listed) in calls ==> Enumerates(listed, SignaturesFor(ethMessages, h))
  }

  method ExecuteGetPending(bridge: BridgeExecutor, a: Answers) returns (next: Id)
    modifies bridge
    ensures bridge.batch == old(bridge.batch) || fresh(bridge.batch)
    ensures Done(bridge, next, old(bridge.calls), GetPending(old(bridge.View()), a))
  {
    bridge.ResetRetriesCountOnEthereum();
    bridge.ResetRetriesCountOnElrond();
    bridge.ResetRetriesOnWasTransferProposedOnElrond();
    var batch := bridge.GetBatchFromElrond(a);
    if batch.Err? {
      return GettingPendingBatch;
    }
    var stored := bridge.StoreBatchFromElrond(batch.value);
    if stored.Err? {
      return GettingPendingBatch;
    }
    var isValid := bridge.ValidateBatch(batch.value, a);
    if isValid.Err? {
      return GettingPendingBatch;
    }
    if !isValid.value {
      return GettingPendingBatch;
    }
    var wasPerformed := bridge.WasTransferPerformedOnEthereum(a.ethExecuted);
    if wasPerformed.Err? {
      return GettingPendingBatch;
    }
    if wasPerformed.value {
      return ResolvingSetStatus;
    }
    return SigningProposedTransfer;
  }

  method ExecuteSignTransfer(bridge: BridgeExecutor, a: Answers) returns (next: Id)
    modifies bridge
    ensures bridge.batch == old(bridge.batch) || fresh(bridge.batch)
    ensures Done(bridge, next, old(bridge.calls), SignTransfer(bridge.cfg, old(bridge.View())))
  {
    if bridge.batch == null {
      return GettingPendingBatch;
    }
    var signed := bridge.SignTransferOnEthereum();
    if signed.Err? {
      return GettingPendingBatch;
    }
    return WaitingForQuorumOnTransfer;
  }

  method ExecuteWaitForQuorum(bridge: BridgeExecutor, a: Answers) returns (next: Id, ghost heard: Answers)
    modifies bridge
    ensures bridge.batch == old(bridge.batch) || fresh(bridge.batch)
    ensures heard == Heard(a, heard.signatures, heard.transfer.shortage)
    ensures var r := WaitForQuorum(bridge.cfg, old(bridge.View()), heard);
            Done(bridge, next, old(bridge.calls), r) && ReadsTruly(r.calls, old(bridge.signaturesHolder.ethMessages))
  {
    heard := a;
    var exhausted := bridge.ProcessMaxQuorumRetriesOnEthereum();
    if exhausted {
      return GettingPendingBatch, heard;
    }
    ghost var listed;
    var isQuorumReached;
    isQuorumReached, listed := bridge.ProcessQuorumReachedOnEthereum(a);
    heard := Heard(a, listed, a.transfer.shortage);
    if isQuorumReached.Err? {
      return GettingPendingBatch, heard;
    }
    if !isQuorumReached.value {
      return WaitingForQuorumOnTransfer, heard;
    }
    return PerformingTransfer, heard;
  }

  method ExecutePerformTransfer(bridge: BridgeExecutor, a: Answers) returns (next: Id, ghost heard: Answers)
    modifies bridge
    ensures bridge.batch == old(bridge.batch) || fresh(bridge.batch)
    ensures heard == Heard(a, heard.signatures, heard.transfer.shortage)
    ensures var r := PerformTransfer(bridge.cfg, old(bridge.View()), heard);
            Done(bridge, next, old(bridge.calls), r) && ReadsTruly(r.calls, old(bridge.signaturesHolder.ethMessages))
  {
    heard := a;
    var wasPerformed := bridge.WasTransferPerformedOnEthereum(a.ethExecuted);
    if wasPerformed.Err? {
      return GettingPendingBatch, heard;
    }
    if wasPerformed.value {
      return ResolvingSetStatus, heard;
    }
    var leader := bridge.MyTurnAsLeader(a);
    if leader {
      ghost var listed, shortage;
      var performed;
      performed, listed, shortage := bridge.PerformTransferOnEthereum(a);
      heard := Heard(a, listed, shortage);
      if performed.Err? {
        return GettingPendingBatch, heard;
      }
    }
    return WaitingTransferConfirmation, heard;
  }

  method ExecuteWaitConfirmation(bridge: BridgeExecutor, a: Answers) returns (next: Id)
    modifies bridge
    ensures bridge.batch == old(bridge.batch) || fresh(bridge.batch)
    ensures Done(bridge, next, old(bridge.calls), WaitConfirmation(old(bridge.View()), a))
  {
    bridge.WaitForTransferConfirmation(a);
    return PerformingTransfer;
  }

  /** The statuses are written into the stored batch object itself. */
  method ExecuteResolveStatus(bridge: BridgeExecutor, a: Answers) returns (next: Id)
    modifies bridge, bridge.batch, bridge.signaturesHolder
    ensures bridge.batch == old(bridge.batch) || fresh(bridge.batch)
    ensures Done(bridge, next, old(bridge.calls), ResolveStatus(old(bridge.View()), a))
    ensures bridge.signaturesHolder.Contents() == if bridge.holderEnabled then EMPTY else old(bridge.signaturesHolder.Contents())
  {
    bridge.ClearStoredP2PSignaturesForEthereum();
    ghost var r := ResolveStored(bridge.View(), a);
    ConcatAssociative(old(bridge.calls), [StoreCleared], r.calls);
    next := ExecuteResolveStored(bridge, a);
  }

  method ExecuteResolveStored(bridge: BridgeExecutor, a: Answers) returns (next: Id)
    modifies bridge, bridge.batch
    ensures bridge.batch == old(bridge.batch)
    ensures Done(bridge, next, old(bridge.calls), ResolveStored(old(bridge.View()), a))
  {
    if bridge.batch == null {
      return GettingPendingBatch;
    }
    var batch := bridge.GetBatchFromElrond(a);
    if batch.Err? {
      return GettingPendingBatch;
    }
    ConcatAssociative(old(bridge.calls), [PendingFetched(a.pending)], StatusCalls(Polls(a.statuses), bridge.batch.id));
    var statuses := bridge.WaitAndReturnFinalBatchStatuses(a);
    if |statuses| == 0 {
      return GettingPendingBatch;
    }
    StoreStatuses(bridge, statuses, |batch.value.statuses|);
    return ProposingSetStatus;
  }

  method StoreStatuses(bridge: BridgeExecutor, statuses: Bytes, numDeposits: nat)
    requires bridge.batch != null
    modifies bridge.batch
    ensures bridge.View() == old(bridge.View()).(
              batch := Some(old(bridge.batch.Value()).(statuses := Resolved(statuses, numDeposits))))
  {
    bridge.batch.statuses := statuses;
    bridge.ResolveNewDepositsStatuses(numDeposits);
  }

  method ExecuteProposeStatus(bridge: BridgeExecutor, a: Answers) returns (next: Id)
    modifies bridge
    ensures bridge.batch == old(bridge.batch) || fresh(bridge.batch)
    ensures Done(bridge, next, old(bridge.calls), ProposeStatus(bridge.cfg, old(bridge.View()), a))
  {
    if bridge.batch == null {
      return GettingPendingBatch;
    }
    var exhausted := bridge.ProcessMaxRetriesOnWasTransferProposedOnElrond();
    if exhausted {
      return GettingPendingBatch;
    }
    var wasSetStatusProposed := bridge.WasSetStatusProposedOnElrond(a);
    if wasSetStatusProposed.Err? {
      return GettingPendingBatch;
    }
    if wasSetStatusProposed.value {
      return SigningProposedSetStatus;
    }
    var leader := bridge.MyTurnAsLeader(a);
    if !leader {
      return ProposingSetStatus;
    }
    var proposed := bridge.ProposeSetStatusOnElrond(a);
    if proposed.Err? {
      return GettingPendingBatch;
    }
    return SigningProposedSetStatus;
  }

  method ExecuteSignStatus(bridge: BridgeExecutor, a: Answers) returns (next: Id)
    modifies bridge
    ensures bridge.batch == old(bridge.batch) || fresh(bridge.batch)
    ensures Done(bridge, next, old(bridge.calls), SignStatus(old(bridge.View()), a))
  {
    if bridge.batch == null {
      return GettingPendingBatch;
    }
    var actionID := bridge.GetAndStoreActionIDForProposeSetStatusFromElrond(a);
    if actionID.Err? {
      return GettingPendingBatch;
    }
    if actionID.value == INVALID_ACTION_ID {
      return GettingPendingBatch;
    }
    var wasSigned := bridge.WasActionSignedOnElrond(a);
    if wasSigned.Err? {
      return GettingPendingBatch;
    }
    if wasSigned.value {
      return WaitingForQuorumOnSetStatus;
    }
    var signed := bridge.SignActionOnElrond(a);
    if signed.Err? {
      return GettingPendingBatch;
    }
    return WaitingForQuorumOnSetStatus;
  }

  method ExecuteWaitForStatusQuorum(bridge: BridgeExecutor, a: Answers) returns (next: Id)
    modifies bridge
    ensures bridge.batch == old(bridge.batch) || fresh(bridge.batch)
    ensures Done(bridge, next, old(bridge.calls), WaitForStatusQuorum(bridge.cfg, old(bridge.View()), a))
  {
    var exhausted := bridge.ProcessMaxQuorumRetriesOnElrond();
    if exhausted {
      return GettingPendingBatch;
    }
    var isQuorumReached := bridge.ProcessQuorumReachedOnElrond(a);
    if isQuorumReached.Err? {
      return GettingPendingBatch;
    }
    if !isQuorumReached.value {
      return WaitingForQuorumOnSetStatus;
    }
    return PerformingSetStatus;
  }

  method ExecutePerformStatus(bridge: BridgeExecutor, a: Answers) returns (next: Id)
    modifies bridge
    ensures bridge.batch == old(bridge.batch) || fresh(bridge.batch)
    ensures Done(bridge, next, old(bridge.calls), PerformStatus(old(bridge.View()), a))
  {
    var wasPerformed := bridge.WasActionPerformedOnElrond(a);
    if wasPerformed.Err? {
      return GettingPendingBatch;
    }
    if wasPerformed.value {
      return GettingPendingBatch;
    }
    var leader := bridge.MyTurnAsLeader(a);
    if !leader {
      return PerformingSetStatus;
    }
    var performed := bridge.PerformActionOnElrond(a);
    if performed.Err? {
      return GettingPendingBatch;
    }
    return PerformingSetStatus;
  }

  /** Only steps three and four read the store. */
  lemma OnlyTheseRead(cfg: Config, id: Id, s: ExecState, a: Answers)
    ensures !id.WaitingForQuorumOnTransfer? && !id.PerformingTransfer? ==>
              forall h, listed :: SignaturesRead(h, listed) !in Execute(cfg, id, s, a).calls
  {
    if !id.WaitingForQuorumOnTransfer? && !id.PerformingTransfer? {
      forall h, listed ensures SignaturesRead(h, listed) !in Execute(cfg, id, s, a).calls {
        if SignaturesRead(h, listed) in Execute(cfg, id, s, a).calls {
          ToEthRuns.CallsByStep(cfg, id, s, a, SignaturesRead(h, listed));
        }
      }
    }
  }

  /** Whichever step is executed, it does what its step function says, and only step six clears the store. */
  method ExecuteStep(id: Id, bridge: BridgeExecutor, a: Answers) returns (next: Id, ghost heard: Answers)
    modifies bridge, bridge.batch, bridge.signaturesHolder
    ensures bridge.batch == old(bridge.batch) || fresh(bridge.batch)
    ensures heard == Heard(a, heard.signatures, heard.transfer.shortage)
    ensures var r := Execute(bridge.cfg, id, old(bridge.View()), heard);
            Done(bridge, next, old(bridge.calls), r) && ReadsTruly(r.calls, old(bridge.signaturesHolder.ethMessages))
    ensures bridge.signaturesHolder.Contents() ==
            if id.ResolvingSetStatus? && bridge.holderEnabled then EMPTY else old(bridge.signaturesHolder.Contents())
  {
    heard := a;
    match id {
      case GettingPendingBatch => next := ExecuteGetPending(bridge, a);
      case SigningProposedTransfer => next := ExecuteSignTransfer(bridge, a);
      case WaitingForQuorumOnTransfer => next, heard := ExecuteWaitForQuorum(bridge, a);
      case PerformingTransfer => next, heard := ExecutePerformTransfer(bridge, a);
      case WaitingTransferConfirmation => next := ExecuteWaitConfirmation(bridge, a);
      case ResolvingSetStatus => next := ExecuteResolveStatus(bridge, a);
      case ProposingSetStatus => next := ExecuteProposeStatus(bridge, a);
      case SigningProposedSetStatus => next := ExecuteSignStatus(bridge, a);
      case WaitingForQuorumOnSetStatus => next := ExecuteWaitForStatusQuorum(bridge, a);
      case PerformingSetStatus => next := ExecutePerformStatus(bridge, a);
    }
    OnlyTheseRead(bridge.cfg, id, old(bridge.View()), heard);
  }
}

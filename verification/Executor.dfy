/**
 * The bridge executor (bridges/ethElrond/bridgeExecutor.go): the stateful object behind all steps. The
 * answers of the clients are parameters; every client call and its answer is appended to `calls`.
 */
module Executor {
  import opened Base
  import opened Batches
  import opened ElrondCodec
  import opened EthereumClient
  import opened Protocol
  import opened SignatureStore

  class BridgeExecutor {
    const cfg: Config
    /** The store the Ethereum client reads; shared with the Elrond to Ethereum half-bridge only. */
    const signaturesHolder: SignaturesHolder
    /** The Ethereum to Elrond half-bridge has a disabled holder, whose clear does nothing. */
    const holderEnabled: bool

    var batch: TransferBatch?
    var actionID: uint64
    var msgHash: Bytes
    var quorumRetriesOnEthereum: nat
    var quorumRetriesOnElrond: nat
    var retriesOnWasProposed: nat

    ghost var calls: seq<Call>

    constructor (cfg: Config, holder: SignaturesHolder, holderEnabled: bool)
      ensures View() == INITIAL && calls == [] && batch == null
      ensures actionID == 0 && |msgHash| == 32 && msgHash == Zeros(32)
      ensures quorumRetriesOnEthereum == 0 && quorumRetriesOnElrond == 0 && retriesOnWasProposed == 0
      ensures this.cfg == cfg && signaturesHolder == holder && this.holderEnabled == holderEnabled
    {
      this.cfg, this.signaturesHolder, this.holderEnabled := cfg, holder, holderEnabled;
      batch, actionID, msgHash := null, 0, Zeros(HASH_LENGTH);
      quorumRetriesOnEthereum, quorumRetriesOnElrond, retriesOnWasProposed := 0, 0, 0;
      calls := [];
    }

    ghost function View(): ExecState
      reads this, batch
    {
      ExecState(if batch == null then None else Some(batch.Value()), actionID, msgHash,
                quorumRetriesOnEthereum, quorumRetriesOnElrond, retriesOnWasProposed)
    }

    // ---------------------------------------------------------------- batches

    method GetBatchFromElrond(a: Answers) returns (r: Result<TransferBatch>)
      modifies this
      ensures View() == old(View()) && batch == old(batch)
      ensures calls == old(calls) + [PendingFetched(a.pending)]
      ensures r.Ok? <==> a.pending.Ok?
      ensures r.Ok? ==> fresh(r.value) && r.value.Value() == a.pending.value
    {
      calls := calls + [PendingFetched(a.pending)];
      if a.pending.Err? {
        return Err(a.pending.error);
      }
      var b := new TransferBatch(a.pending.value);
      r := Ok(b);
    }

    method StoreBatchFromElrond(b: TransferBatch?) returns (r: Result<()>)
      modifies this
      ensures calls == old(calls)
      ensures b == null ==> r == Err(NilBatch) && View() == old(View()) && batch == old(batch)
      ensures b != null ==> r.Ok? && View() == old(View()).(batch := Some(b.Value())) && batch == b
    {
      if b == null {
        return Err(NilBatch);
      }
      batch := b;
      r := Ok(());
    }

    method ValidateBatch(b: TransferBatch, a: Answers) returns (r: Result<bool>)
      modifies this
      ensures View() == old(View()) && batch == old(batch)
      ensures calls == old(calls) + [Validated(b.Value(), a.valid)] && r == a.valid
    {
      calls := calls + [Validated(b.Value(), a.valid)];
      r := a.valid;
    }

    method GetLastExecutedEthBatchIDFromElrond(a: Answers) returns (r: Result<uint64>)
      modifies this
      ensures View() == old(View()) && batch == old(batch)
      ensures calls == old(calls) + [LastBatchIDRead(a.lastBatchID)] && r == a.lastBatchID
    {
      calls := calls + [LastBatchIDRead(a.lastBatchID)];
      r := a.lastBatchID;
    }

    /** Only a batch with the requested identifier and at least one deposit is stored. */
    method GetAndStoreBatchFromEthereum(nonce: uint64, a: Answers) returns (r: Result<()>)
      modifies this
      ensures calls == old(calls) + [EthBatchRead(nonce, a.ethBatch)]
      ensures r.Ok? <==> a.ethBatch.Ok? && a.ethBatch.value.id == nonce && a.ethBatch.value.deposits != []
      ensures r.Ok? ==> View() == old(View()).(batch := Some(a.ethBatch.value)) && batch != null && fresh(batch)
      ensures r.Err? ==> View() == old(View()) && batch == old(batch)
    {
      calls := calls + [EthBatchRead(nonce, a.ethBatch)];
      if a.ethBatch.Err? {
        return Err(a.ethBatch.error);
      }
      var isBatchInvalid := a.ethBatch.value.id != nonce || |a.ethBatch.value.deposits| == 0;
      if isBatchInvalid {
        return Err(BatchNotFound);
      }
      batch := new TransferBatch(a.ethBatch.value);
      r := Ok(());
    }

    method VerifyLastDepositNonceExecutedOnEthereumBatch(a: Answers) returns (r: Result<()>)
      modifies this
      ensures View() == old(View()) && batch == old(batch)
      ensures batch == null ==> r == Err(NilBatch) && calls == old(calls)
      ensures batch != null ==> calls == old(calls) + [LastNonceRead(a.lastNonce)]
      ensures batch != null ==> (r.Ok? <==> a.lastNonce.Ok? && NoncesFollow(batch.deposits, a.lastNonce.value))
    {
      if batch == null {
        return Err(NilBatch);
      }
      calls := calls + [LastNonceRead(a.lastNonce)];
      if a.lastNonce.Err? {
        return Err(a.lastNonce.error);
      }
      r := VerifyDepositNonces(a.lastNonce.value);
    }

    method VerifyDepositNonces(lastNonce: uint64) returns (r: Result<()>)
      requires batch != null
      ensures r.Ok? <==> NoncesFollow(batch.deposits, lastNonce)
    {
      var startNonce: uint64 := (lastNonce + 1) % TWO_64;
      for k := 0 to |batch.deposits|
        invariant startNonce == (lastNonce + 1 + k) % TWO_64
        invariant forall j :: 0 <= j < k ==> batch.deposits[j].nonce == (lastNonce + 1 + j) % TWO_64
      {
        if batch.deposits[k].nonce != startNonce {
          return Err(InvalidDepositNonce);
        }
        startNonce := (startNonce + 1) % TWO_64;
      }
      r := Ok(());
    }

    // ---------------------------------------------------------------- actions on Elrond

    /** Transactions go out only behind a pause check. */
    method SendTransaction(a: Answers, ghost call: Call) returns (r: Result<()>)
      modifies this
      ensures View() == old(View()) && batch == old(batch)
      ensures calls == old(calls) + Submitted(a, call)
      ensures r.Ok? <==> SubmissionOk(a)
    {
      if a.paused.Err? {
        return Err(a.paused.error);
      }
      if a.paused.value {
        return Err(ContractPaused);
      }
      calls := calls + [call];
      r := a.sent;
    }

    method WasTransferProposedOnElrond(a: Answers) returns (r: Result<bool>)
      modifies this
      ensures View() == old(View()) && batch == old(batch)
      ensures batch == null ==> r == Err(NilBatch) && calls == old(calls)
      ensures batch != null ==>
                r == a.proposed && calls == old(calls) + [ProposedAsked(TransferAction(batch.Value()), a.proposed)]
    {
      if batch == null {
        return Err(NilBatch);
      }
      var args := QueryTransferArgs(Batch(batch.id, batch.deposits, batch.statuses));
      calls := calls + [ProposedAsked(Transfer(args), a.proposed)];
      r := a.proposed;
    }

    method ProposeTransferOnElrond(a: Answers) returns (r: Result<()>)
      modifies this
      ensures View() == old(View()) && batch == old(batch)
      ensures batch == null ==> r == Err(NilBatch) && calls == old(calls)
      ensures batch != null ==>
                && calls == old(calls) + Submitted(a, ProposalSent(TransferAction(batch.Value()), a.sent))
                && (r.Ok? <==> SubmissionOk(a))
    {
      if batch == null {
        return Err(NilBatch);
      }
      var args := ProposeTransferArgs(Batch(batch.id, batch.deposits, batch.statuses));
      r := SendTransaction(a, ProposalSent(Transfer(args), a.sent));
    }

    method WasSetStatusProposedOnElrond(a: Answers) returns (r: Result<bool>)
      modifies this
      ensures View() == old(View()) && batch == old(batch)
      ensures batch == null ==> r == Err(NilBatch) && calls == old(calls)
      ensures batch != null ==>
                r == a.proposed && calls == old(calls) + [ProposedAsked(SetStatusAction(batch.Value()), a.proposed)]
    {
      if batch == null {
        return Err(NilBatch);
      }
      var args := ProposeSetStatusArgs(Batch(batch.id, batch.deposits, batch.statuses));
      calls := calls + [ProposedAsked(SetStatus(args), a.proposed)];
      r := a.proposed;
    }

    method ProposeSetStatusOnElrond(a: Answers) returns (r: Result<()>)
      modifies this
      ensures View() == old(View()) && batch == old(batch)
      ensures batch == null ==> r == Err(NilBatch) && calls == old(calls)
      ensures batch != null ==>
                && calls == old(calls) + Submitted(a, ProposalSent(SetStatusAction(batch.Value()), a.sent))
                && (r.Ok? <==> SubmissionOk(a))
    {
      if batch == null {
        return Err(NilBatch);
      }
      var args := ProposeSetStatusArgs(Batch(batch.id, batch.deposits, batch.statuses));
      r := SendTransaction(a, ProposalSent(SetStatus(args), a.sent));
    }

    method GetAndStoreActionIDForProposeTransferOnElrond(a: Answers) returns (r: Result<uint64>)
      modifies this
      ensures batch == old(batch)
      ensures batch == null ==> r == Err(NilBatch) && calls == old(calls) && View() == old(View())
      ensures batch != null ==>
                r == a.actionID && calls == old(calls) + [ActionIDRead(TransferAction(batch.Value()), a.actionID)]
      ensures batch != null ==> View() == if r.Ok? then old(View()).(actionID := r.value) else old(View())
    {
      if batch == null {
        return Err(NilBatch);
      }
      var args := QueryTransferArgs(Batch(batch.id, batch.deposits, batch.statuses));
      calls := calls + [ActionIDRead(Transfer(args), a.actionID)];
      if a.actionID.Ok? {
        actionID := a.actionID.value;
      }
      r := a.actionID;
    }

    method GetAndStoreActionIDForProposeSetStatusFromElrond(a: Answers) returns (r: Result<uint64>)
      modifies this
      ensures batch == old(batch)
      ensures batch == null ==> r == Err(NilBatch) && calls == old(calls) && View() == old(View())
      ensures batch != null ==>
                r == a.actionID && calls == old(calls) + [ActionIDRead(SetStatusAction(batch.Value()), a.actionID)]
      ensures batch != null ==> View() == if r.Ok? then old(View()).(actionID := r.value) else old(View())
    {
      if batch == null {
        return Err(NilBatch);
      }
      var args := ProposeSetStatusArgs(Batch(batch.id, batch.deposits, batch.statuses));
      calls := calls + [ActionIDRead(SetStatus(args), a.actionID)];
      if a.actionID.Ok? {
        actionID := a.actionID.value;
      }
      r := a.actionID;
    }

    method WasActionSignedOnElrond(a: Answers) returns (r: Result<bool>)
      modifies this
      ensures View() == old(View()) && batch == old(batch)
      ensures calls == old(calls) + [SignedAsked(actionID, a.signed)] && r == a.signed
    {
      calls := calls + [SignedAsked(actionID, a.signed)];
      r := a.signed;
    }

    method SignActionOnElrond(a: Answers) returns (r: Result<()>)
      modifies this
      ensures View() == old(View()) && batch == old(batch)
      ensures calls == old(calls) + Submitted(a, SignatureSent(actionID, a.sent))
      ensures r.Ok? <==> SubmissionOk(a)
    {
      r := SendTransaction(a, SignatureSent(actionID, a.sent));
    }

    method ProcessQuorumReachedOnElrond(a: Answers) returns (r: Result<bool>)
      modifies this
      ensures View() == old(View()) && batch == old(batch)
      ensures calls == old(calls) + [ElrondQuorumAsked(actionID, a.elrondQuorum)] && r == a.elrondQuorum
    {
      calls := calls + [ElrondQuorumAsked(actionID, a.elrondQuorum)];
      r := a.elrondQuorum;
    }

    method WasActionPerformedOnElrond(a: Answers) returns (r: Result<bool>)
      modifies this
      ensures View() == old(View()) && batch == old(batch)
      ensures calls == old(calls) + [PerformedAsked(actionID, a.performed)] && r == a.performed
    {
      calls := calls + [PerformedAsked(actionID, a.performed)];
      r := a.performed;
    }

    method PerformActionOnElrond(a: Answers) returns (r: Result<()>)
      modifies this
      ensures View() == old(View()) && batch == old(batch)
      ensures batch == null ==> r == Err(NilBatch) && calls == old(calls)
      ensures batch != null ==>
                && calls == old(calls) + Submitted(a, PerformSent(actionID, a.sent))
                && (r.Ok? <==> SubmissionOk(a))
    {
      if batch == null {
        return Err(NilBatch);
      }
      r := SendTransaction(a, PerformSent(actionID, a.sent));
    }

    // ---------------------------------------------------------------- leader and retries

    method MyTurnAsLeader(a: Answers) returns (mine: bool)
      modifies this
      ensures View() == old(View()) && batch == old(batch)
      ensures calls == old(calls) + [LeaderAsked(a.leader)] && mine == a.leader
    {
      calls := calls + [LeaderAsked(a.leader)];
      mine := a.leader;
    }

    method ProcessMaxRetriesOnWasTransferProposedOnElrond() returns (exhausted: bool)
      modifies this`retriesOnWasProposed
      ensures exhausted <==> old(retriesOnWasProposed) >= cfg.maxProposed
      ensures retriesOnWasProposed == old(retriesOnWasProposed) + if exhausted then 0 else 1
    {
      if retriesOnWasProposed < cfg.maxProposed {
        retriesOnWasProposed := retriesOnWasProposed + 1;
        return false;
      }
      return true;
    }

    method ProcessMaxQuorumRetriesOnElrond() returns (exhausted: bool)
      modifies this`quorumRetriesOnElrond
      ensures exhausted <==> old(quorumRetriesOnElrond) >= cfg.maxElrond
      ensures quorumRetriesOnElrond == old(quorumRetriesOnElrond) + if exhausted then 0 else 1
    {
      if quorumRetriesOnElrond < cfg.maxElrond {
        quorumRetriesOnElrond := quorumRetriesOnElrond + 1;
        return false;
      }
      return true;
    }

    method ProcessMaxQuorumRetriesOnEthereum() returns (exhausted: bool)
      modifies this`quorumRetriesOnEthereum
      ensures exhausted <==> old(quorumRetriesOnEthereum) >= cfg.maxEth
      ensures quorumRetriesOnEthereum == old(quorumRetriesOnEthereum) + if exhausted then 0 else 1
    {
      if quorumRetriesOnEthereum < cfg.maxEth {
        quorumRetriesOnEthereum := quorumRetriesOnEthereum + 1;
        return false;
      }
      return true;
    }

    method ResetRetriesCountOnEthereum()
      modifies this`quorumRetriesOnEthereum
      ensures quorumRetriesOnEthereum == 0
    {
      quorumRetriesOnEthereum := 0;
    }

    method ResetRetriesCountOnElrond()
      modifies this`quorumRetriesOnElrond
      ensures quorumRetriesOnElrond == 0
    {
      quorumRetriesOnElrond := 0;
    }

    method ResetRetriesOnWasTransferProposedOnElrond()
      modifies this`retriesOnWasProposed
      ensures retriesOnWasProposed == 0
    {
      retriesOnWasProposed := 0;
    }

    // ---------------------------------------------------------------- transfers on Ethereum

    method WasTransferPerformedOnEthereum(answer: Result<bool>) returns (r: Result<bool>)
      modifies this
      ensures View() == old(View()) && batch == old(batch)
      ensures batch == null ==> r == Err(NilBatch) && calls == old(calls)
      ensures batch != null ==> r == answer && calls == old(calls) + [EthExecutedAsked(batch.id, answer)]
    {
      if batch == null {
        return Err(NilBatch);
      }
      calls := calls + [EthExecutedAsked(batch.id, answer)];
      r := answer;
    }

    method SignTransferOnEthereum() returns (r: Result<()>)
      modifies this
      ensures batch == old(batch)
      ensures r.Ok? <==> batch != null && MessageHash(cfg.hashing, batch.Value()).Ok?
      ensures r.Ok? ==>
                var h := MessageHash(cfg.hashing, batch.Value()).value;
                View() == old(View()).(msgHash := h) && calls == old(calls) + [SignatureBroadcast(h)]
      ensures r.Err? ==> View() == old(View()) && calls == old(calls)
    {
      if batch == null {
        return Err(NilBatch);
      }
      var hash := GenerateMessageHash(cfg.hashing, Some(Batch(batch.id, batch.deposits, batch.statuses)));
      if hash.Err? {
        return Err(hash.error);
      }
      msgHash := hash.value;
      calls := calls + [SignatureBroadcast(hash.value)];
      r := Ok(());
    }

    method ProcessQuorumReachedOnEthereum(a: Answers) returns (r: Result<bool>, ghost listed: seq<Bytes>)
      modifies this
      ensures View() == old(View()) && batch == old(batch)
      ensures Enumerates(listed, SignaturesFor(signaturesHolder.ethMessages, msgHash))
      ensures calls == old(calls) + [SignaturesRead(msgHash, listed), QuorumRead(a.quorum)]
      ensures r == IsQuorumReached(|listed|, a.quorum)
    {
      var signatures := signaturesHolder.Signatures(msgHash);
      listed := signatures;
      calls := calls + [SignaturesRead(msgHash, listed), QuorumRead(a.quorum)];
      r := IsQuorumReached(|signatures|, a.quorum);
    }

    /** `listed` are the signatures the store gave, `shortage` what the token check would report. */
    method PerformTransferOnEthereum(a: Answers)
      returns (r: Result<()>, ghost listed: seq<Bytes>, ghost shortage: Error)
      modifies this
      ensures View() == old(View()) && batch == old(batch)
      ensures batch == null ==> r == Err(NilBatch) && calls == old(calls)
      ensures batch != null && a.quorum.Err? ==> r.Err? && calls == old(calls) + [QuorumRead(a.quorum)]
      ensures batch != null && a.quorum.Ok? ==>
                && (ReadsSignatures(a.transfer) ==> Enumerates(listed, SignaturesFor(signaturesHolder.ethMessages, msgHash)))
                && var t := a.transfer.(shortage := shortage);
                   var e := Execution(cfg.gas, batch.Value(), listed, LowInt64(a.quorum.value), t);
                   && calls == old(calls) + [QuorumRead(a.quorum)] + StoreReading(a.transfer, msgHash, listed) + Reported(e)
                   && (r.Ok? <==> e.Sent? && e.reported.Ok?)
    {
      listed, shortage := [], Remote;
      if batch == null {
        return Err(NilBatch), listed, shortage;
      }
      if a.quorum.Err? {
        calls := calls + [QuorumRead(a.quorum)];
        return Err(a.quorum.error), listed, shortage;
      }
      var b := Batch(batch.id, batch.deposits, batch.statuses);
      var quorumSize := LowInt64(a.quorum.value);
      var outcome, signatures, report :=
        ExecuteTransfer(cfg.gas, signaturesHolder, msgHash, Some(b), quorumSize, a.transfer);
      listed, shortage := signatures, report;
      calls := calls + [QuorumRead(a.quorum)] + StoreReading(a.transfer, msgHash, listed) + Reported(outcome);
      match outcome {
        case Sent(_, sent) => r := sent;
        case Refused(error) => r := Err(error);
        case Panicked => r := Err(InvalidValue);
      }
    }

    /** How a transfer ends on record. */
    static function Reported(e: Outcome): seq<Call> {
      match e
      case Sent(sub, report) => [TransferSent(sub, report)]
      case Refused(error) => [TransferRefused(error)]
      case Panicked => [TransferPanicked]
    }

    method WaitForTransferConfirmation(a: Answers)
      modifies this
      ensures View() == old(View()) && batch == old(batch)
      ensures calls == old(calls) + if batch == null then [] else ConfirmationCalls(Polls(a.confirmations), batch.id)
    {
      var wasPerformed := false;
      var i := 0;
      ghost var polls := Polls(a.confirmations);
      while i < SPLITS && !wasPerformed
        invariant 0 <= i <= SPLITS
        invariant View() == old(View()) && batch == old(batch)
        invariant batch == null ==> calls == old(calls) && !wasPerformed
        invariant batch != null ==>
                    old(calls) + ConfirmationCalls(polls, batch.id) ==
                    calls + if wasPerformed || i >= |polls| then [] else ConfirmationCalls(polls[i..], batch.id)
      {
        if batch != null && i < |polls| {
          ConfirmationPoll(polls, batch.id, i);
          ConcatAssociative(calls, [EthExecutedAsked(batch.id, polls[i].answer)],
                            if polls[i].answer == Ok(true) then [] else ConfirmationCalls(polls[i + 1..], batch.id));
        }
        if i < |a.confirmations| && a.confirmations[i].waited {
          var answer := WasTransferPerformedOnEthereum(a.confirmations[i].answer);
          wasPerformed := answer.Ok? && answer.value;
        }
        i := i + 1;
      }
    }

    method GetBatchStatusesFromEthereum(answer: Result<Bytes>) returns (r: Result<Bytes>)
      modifies this`calls
      ensures View() == old(View()) && batch == old(batch)
      ensures batch == null ==> r == Err(NilBatch) && calls == old(calls)
      ensures batch != null ==> r == answer && calls == old(calls) + [StatusesRead(batch.id, answer)]
    {
      if batch == null {
        return Err(NilBatch);
      }
      calls := calls + [StatusesRead(batch.id, answer)];
      r := answer;
    }

    /** Without a stored batch every poll fails, and there are no statuses. */
    method WaitAndReturnFinalBatchStatuses(a: Answers) returns (statuses: Bytes)
      modifies this
      ensures View() == old(View()) && batch == old(batch)
      ensures batch == null ==> statuses == [] && calls == old(calls)
      ensures batch != null ==> calls == old(calls) + StatusCalls(Polls(a.statuses), batch.id)
      ensures batch != null ==> statuses == FinalStatuses(Polls(a.statuses))
    {
      var i := 0;
      ghost var polls := Polls(a.statuses);
      while i < SPLITS
        invariant 0 <= i <= SPLITS
        invariant i <= |polls|
        invariant View() == old(View()) && batch == old(batch)
        invariant batch == null ==> calls == old(calls)
        invariant batch != null ==>
                    old(calls) + StatusCalls(polls, batch.id) == calls + StatusCalls(polls[i..], batch.id)
        invariant batch != null ==> FinalStatuses(polls[i..]) == FinalStatuses(polls)
      {
        if !(i < |a.statuses| && a.statuses[i].waited) {
          return [];
        }
        if batch != null {
          StatusPoll(polls, batch.id, i);
          ConcatAssociative(calls, [StatusesRead(batch.id, polls[i].answer)], StatusCalls(polls[i + 1..], batch.id));
        }
        var answer := GetBatchStatusesFromEthereum(a.statuses[i].answer);
        if answer.Ok? && |answer.value| != 0 {
          return answer.value;
        }
        i := i + 1;
      }
      return [];
    }

    method ResolveNewDepositsStatuses(numDeposits: nat)
      requires batch != null
      modifies batch
      ensures View() == old(View()).(batch := Some(old(batch.Value()).(statuses := Resolved(old(batch.statuses), numDeposits))))
    {
      batch.ResolveNewDeposits(numDeposits);
    }

    method ClearStoredP2PSignaturesForEthereum()
      modifies this, signaturesHolder
      ensures View() == old(View()) && batch == old(batch)
      ensures calls == old(calls) + [StoreCleared]
      ensures signaturesHolder.Contents() ==
              if holderEnabled then Apply(old(signaturesHolder.Contents()), Clear) else old(signaturesHolder.Contents())
    {
      calls := calls + [StoreCleared];
      if holderEnabled {
        signaturesHolder.ClearStoredSignatures();
      }
    }
  }
}

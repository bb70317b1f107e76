/** The ten steps of the Elrond to Ethereum half-bridge, as functions of state and answers. */
module ToEth {
  import opened Base
  import opened Batches
  import opened EthereumClient
  import opened Protocol

  datatype Id =
    | GettingPendingBatch
    | SigningProposedTransfer
    | WaitingForQuorumOnTransfer
    | PerformingTransfer
    | WaitingTransferConfirmation
    | ResolvingSetStatus
    | ProposingSetStatus
    | SigningProposedSetStatus
    | WaitingForQuorumOnSetStatus
    | PerformingSetStatus

  type Step = StepResult<Id>

  function BackToStart(s: ExecState, calls: seq<Call>): Step {
    StepResult(GettingPendingBatch, s, calls)
  }

  function GetPending(s: ExecState, a: Answers): Step {
    var s0 := s.(ethRetries := 0, elrondRetries := 0, proposedRetries := 0);
    var c0 := [PendingFetched(a.pending)];
    if a.pending.Err? then BackToStart(s0, c0)
    else
      var b := a.pending.value;
      var s1 := s0.(batch := Some(b));
      var c1 := c0 + [Validated(b, a.valid)];
      if a.valid != Ok(true) then BackToStart(s1, c1)
      else
        var c2 := c1 + [EthExecutedAsked(b.id, a.ethExecuted)];
        match a.ethExecuted
        case Err(_) => BackToStart(s1, c2)
        case Ok(true) => StepResult(ResolvingSetStatus, s1, c2)
        case Ok(false) => StepResult(SigningProposedTransfer, s1, c2)
  }

  function SignTransfer(cfg: Config, s: ExecState): Step {
    if s.batch.None? then BackToStart(s, [])
    else
      match MessageHash(cfg.hashing, s.batch.value)
      case Err(_) => BackToStart(s, [])
      case Ok(h) => StepResult(WaitingForQuorumOnTransfer, s.(msgHash := h), [SignatureBroadcast(h)])
  }

  function WaitForQuorum(cfg: Config, s: ExecState, a: Answers): Step {
    if s.ethRetries >= cfg.maxEth then BackToStart(s, [])
    else
      var s1 := s.(ethRetries := s.ethRetries + 1);
      var calls := [SignaturesRead(s.msgHash, a.signatures), QuorumRead(a.quorum)];
      match IsQuorumReached(|a.signatures|, a.quorum)
      case Err(_) => BackToStart(s1, calls)
      case Ok(false) => StepResult(WaitingForQuorumOnTransfer, s1, calls)
      case Ok(true) => StepResult(PerformingTransfer, s1, calls)
  }

  /** A panic ends the process; it is on record as the last call, and what a restart finds is not this state. */
  ghost function PerformTransfer(cfg: Config, s: ExecState, a: Answers): Step {
    if s.batch.None? then BackToStart(s, [])
    else
      var b := s.batch.value;
      var c0 := [EthExecutedAsked(b.id, a.ethExecuted)];
      match a.ethExecuted
      case Err(_) => BackToStart(s, c0)
      case Ok(true) => StepResult(ResolvingSetStatus, s, c0)
      case Ok(false) =>
        var c1 := c0 + [LeaderAsked(a.leader)];
        if !a.leader then StepResult(WaitingTransferConfirmation, s, c1)
        else
          var c2 := c1 + [QuorumRead(a.quorum)];
          if a.quorum.Err? then BackToStart(s, c2)
          else
            var c3 := c2 + StoreReading(a.transfer, s.msgHash, a.signatures);
            match Execution(cfg.gas, b, a.signatures, LowInt64(a.quorum.value), a.transfer)
            case Refused(e) => BackToStart(s, c3 + [TransferRefused(e)])
            case Panicked => BackToStart(s, c3 + [TransferPanicked])
            case Sent(sub, report) =>
              StepResult(if report.Ok? then WaitingTransferConfirmation else GettingPendingBatch, s,
                         c3 + [TransferSent(sub, report)])
  }

  function WaitConfirmation(s: ExecState, a: Answers): Step {
    StepResult(PerformingTransfer, s,
               if s.batch.None? then [] else ConfirmationCalls(Polls(a.confirmations), s.batch.value.id))
  }

  /** Step six first clears the stored signatures, whatever follows. */
  function ResolveStatus(s: ExecState, a: Answers): Step {
    var r := ResolveStored(s, a);
    r.(calls := [StoreCleared] + r.calls)
  }

  function ResolveStored(s: ExecState, a: Answers): Step {
    if s.batch.None? then BackToStart(s, [])
    else
      var b := s.batch.value;
      var c0 := [PendingFetched(a.pending)];
      if a.pending.Err? then BackToStart(s, c0)
      else
        var statuses := FinalStatuses(Polls(a.statuses));
        var c1 := c0 + StatusCalls(Polls(a.statuses), b.id);
        if statuses == [] then BackToStart(s, c1)
        else
          var resolved := Resolved(statuses, |a.pending.value.statuses|);
          StepResult(ProposingSetStatus, s.(batch := Some(b.(statuses := resolved))), c1)
  }

  function ProposeStatus(cfg: Config, s: ExecState, a: Answers): Step {
    if s.batch.None? then BackToStart(s, [])
    else if s.proposedRetries >= cfg.maxProposed then BackToStart(s, [])
    else
      var s1 := s.(proposedRetries := s.proposedRetries + 1);
      var action := SetStatusAction(s.batch.value);
      var c0 := [ProposedAsked(action, a.proposed)];
      match a.proposed
      case Err(_) => BackToStart(s1, c0)
      case Ok(true) => StepResult(SigningProposedSetStatus, s1, c0)
      case Ok(false) =>
        var c1 := c0 + [LeaderAsked(a.leader)];
        if !a.leader then StepResult(ProposingSetStatus, s1, c1)
        else StepResult(if SubmissionOk(a) then SigningProposedSetStatus else GettingPendingBatch, s1,
                        c1 + Submitted(a, ProposalSent(action, a.sent)))
  }

  function SignStatus(s: ExecState, a: Answers): Step {
    if s.batch.None? then BackToStart(s, [])
    else
      var c0 := [ActionIDRead(SetStatusAction(s.batch.value), a.actionID)];
      if a.actionID.Err? then BackToStart(s, c0)
      else
        var id := a.actionID.value;
        var s1 := s.(actionID := id);
        if id == INVALID_ACTION_ID then BackToStart(s1, c0)
        else
          var c1 := c0 + [SignedAsked(id, a.signed)];
          match a.signed
          case Err(_) => BackToStart(s1, c1)
          case Ok(true) => StepResult(WaitingForQuorumOnSetStatus, s1, c1)
          case Ok(false) =>
            StepResult(if SubmissionOk(a) then WaitingForQuorumOnSetStatus else GettingPendingBatch, s1,
                       c1 + Submitted(a, SignatureSent(id, a.sent)))
  }

  function WaitForStatusQuorum(cfg: Config, s: ExecState, a: Answers): Step {
    if s.elrondRetries >= cfg.maxElrond then BackToStart(s, [])
    else
      var s1 := s.(elrondRetries := s.elrondRetries + 1);
      var calls := [ElrondQuorumAsked(s.actionID, a.elrondQuorum)];
      match a.elrondQuorum
      case Err(_) => BackToStart(s1, calls)
      case Ok(false) => StepResult(WaitingForQuorumOnSetStatus, s1, calls)
      case Ok(true) => StepResult(PerformingSetStatus, s1, calls)
  }

  function PerformStatus(s: ExecState, a: Answers): Step {
    var c0 := [PerformedAsked(s.actionID, a.performed)];
    if a.performed != Ok(false) then BackToStart(s, c0)
    else
      var c1 := c0 + [LeaderAsked(a.leader)];
      if !a.leader then StepResult(PerformingSetStatus, s, c1)
      else if s.batch.None? then BackToStart(s, c1)
      else StepResult(if SubmissionOk(a) then PerformingSetStatus else GettingPendingBatch, s,
                      c1 + Submitted(a, PerformSent(s.actionID, a.sent)))
  }

  ghost function Execute(cfg: Config, id: Id, s: ExecState, a: Answers): Step {
    match id
    case GettingPendingBatch => GetPending(s, a)
    case SigningProposedTransfer => SignTransfer(cfg, s)
    case WaitingForQuorumOnTransfer => WaitForQuorum(cfg, s, a)
    case PerformingTransfer => PerformTransfer(cfg, s, a)
    case WaitingTransferConfirmation => WaitConfirmation(s, a)
    case ResolvingSetStatus => ResolveStatus(s, a)
    case ProposingSetStatus => ProposeStatus(cfg, s, a)
    case SigningProposedSetStatus => SignStatus(s, a)
    case WaitingForQuorumOnSetStatus => WaitForStatusQuorum(cfg, s, a)
    case PerformingSetStatus => PerformStatus(s, a)
  }
}

/** The five steps of the Ethereum to Elrond half-bridge, as functions of state and answers. */
module ToElrond {
  import opened Base
  import opened Protocol

  datatype Id =
    | GettingPendingBatch
    | ProposingTransfer
    | SigningProposedTransfer
    | WaitingForQuorum
    | PerformingActionID

  type Step = StepResult<Id>

  function BackToStart(s: ExecState, calls: seq<Call>): Step {
    StepResult(GettingPendingBatch, s, calls)
  }

  /** `lastExecuted + 1` on `uint64`. */
  function NextBatchID(last: uint64): uint64 {
    (last + 1) % TWO_64
  }

  function GetPending(s: ExecState, a: Answers): Step {
    var s0 := s.(elrondRetries := 0);
    var c0 := [LastBatchIDRead(a.lastBatchID)];
    if a.lastBatchID.Err? then BackToStart(s0, c0)
    else
      var wanted := NextBatchID(a.lastBatchID.value);
      var c1 := c0 + [EthBatchRead(wanted, a.ethBatch)];
      if a.ethBatch.Err? || a.ethBatch.value.id != wanted || a.ethBatch.value.deposits == [] then BackToStart(s0, c1)
      else
        var b := a.ethBatch.value;
        var s1 := s0.(batch := Some(b));
        var c2 := c1 + [Validated(b, a.valid)];
        if a.valid != Ok(true) then BackToStart(s1, c2)
        else
          var c3 := c2 + [LastNonceRead(a.lastNonce)];
          if a.lastNonce.Ok? && NoncesFollow(b.deposits, a.lastNonce.value)
          then StepResult(ProposingTransfer, s1, c3)
          else BackToStart(s1, c3)
  }

  function ProposeTransfer(s: ExecState, a: Answers): Step {
    if s.batch.None? then BackToStart(s, [])
    else
      var action := TransferAction(s.batch.value);
      var c0 := [ProposedAsked(action, a.proposed)];
      match a.proposed
      case Err(_) => BackToStart(s, c0)
      case Ok(true) => StepResult(SigningProposedTransfer, s, c0)
      case Ok(false) =>
        var c1 := c0 + [LeaderAsked(a.leader)];
        if !a.leader then StepResult(ProposingTransfer, s, c1)
        else StepResult(if SubmissionOk(a) then SigningProposedTransfer else GettingPendingBatch, s,
                        c1 + Submitted(a, ProposalSent(action, a.sent)))
  }

  function SignTransfer(s: ExecState, a: Answers): Step {
    if s.batch.None? then BackToStart(s, [])
    else
      var c0 := [ActionIDRead(TransferAction(s.batch.value), a.actionID)];
      if a.actionID.Err? then BackToStart(s, c0)
      else
        var id := a.actionID.value;
        var s1 := s.(actionID := id);
        if id == INVALID_ACTION_ID then BackToStart(s1, c0)
        else
          var c1 := c0 + [SignedAsked(id, a.signed)];
          match a.signed
          case Err(_) => BackToStart(s1, c1)
          case Ok(true) => StepResult(WaitingForQuorum, s1, c1)
          case Ok(false) =>
            StepResult(if SubmissionOk(a) then WaitingForQuorum else GettingPendingBatch, s1,
                       c1 + Submitted(a, SignatureSent(id, a.sent)))
  }

  function WaitForQuorum(cfg: Config, s: ExecState, a: Answers): Step {
    if s.elrondRetries >= cfg.maxElrond then BackToStart(s, [])
    else
      var s1 := s.(elrondRetries := s.elrondRetries + 1);
      var calls := [ElrondQuorumAsked(s.actionID, a.elrondQuorum)];
      match a.elrondQuorum
      case Err(_) => BackToStart(s1, calls)
      case Ok(false) => StepResult(WaitingForQuorum, s1, calls)
      case Ok(true) => StepResult(PerformingActionID, s1, calls)
  }

  function PerformAction(s: ExecState, a: Answers): Step {
    var c0 := [PerformedAsked(s.actionID, a.performed)];
    if a.performed != Ok(false) then BackToStart(s, c0)
    else
      var c1 := c0 + [LeaderAsked(a.leader)];
      if !a.leader then StepResult(PerformingActionID, s, c1)
      else if s.batch.None? then BackToStart(s, c1)
      else StepResult(if SubmissionOk(a) then PerformingActionID else GettingPendingBatch, s,
                      c1 + Submitted(a, PerformSent(s.actionID, a.sent)))
  }

  function Execute(cfg: Config, id: Id, s: ExecState, a: Answers): Step {
    match id
    case GettingPendingBatch => GetPending(s, a)
    case ProposingTransfer => ProposeTransfer(s, a)
    case SigningProposedTransfer => SignTransfer(s, a)
    case WaitingForQuorum => WaitForQuorum(cfg, s, a)
    case PerformingActionID => PerformAction(s, a)
  }
}

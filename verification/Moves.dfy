/**
 * Where a machine goes next, told by the record alone: the last thing a step heard decides whether it goes
 * ahead, tries again or gives up, in every run; and an attempt owes nothing to the attempts before it.
 */
module Moves {
  import opened Base
  import opened Batches
  import opened EthereumClient
  import opened Protocol
  import ToElrond
  import ToElrondRuns
  import ToEth
  import ToEthRuns

  datatype Verdict = Ahead | Again | Back

  /** A quorum `q` read after `listed` signatures: a multiple of 2^64 is no quorum, from 2^63 on it is negative. */
  function QuorumVerdict(listed: nat, q: nat): Verdict {
    var low := q % 0x1_0000_0000_0000_0000;
    if low == 0 then Back else if low <= listed || low >= 0x8000_0000_0000_0000 then Ahead else Again
  }

  /** What the last call of a step means; anything that failed, or is not the step's last question, is a way back. */
  function JudgedBy(calls: seq<Call>): Verdict {
    if calls == [] then Back
    else
      var n := |calls| - 1;
      match calls[n]
      case EthExecutedAsked(_, Ok(_)) => Ahead
      case SignatureBroadcast(_) => Ahead
      case QuorumRead(Ok(q)) => if n > 0 && calls[n - 1].SignaturesRead? then QuorumVerdict(|calls[n - 1].listed|, q) else Back
      case LeaderAsked(false) => Again
      case TransferSent(_, Ok(_)) => Again
      case StatusesRead(_, Ok(st)) => if st != [] then Ahead else Back
      case ProposedAsked(_, Ok(true)) => Ahead
      case ProposalSent(_, Ok(_)) => Ahead
      case SignedAsked(_, Ok(true)) => Ahead
      case SignatureSent(_, Ok(_)) => Ahead
      case ElrondQuorumAsked(_, Ok(yes)) => if yes then Ahead else Again
      case PerformSent(_, Ok(_)) => Again
      case LastNonceRead(Ok(last)) =>
        if n > 0 && calls[n - 1].Validated? && NoncesFollow(calls[n - 1].checked.deposits, last) then Ahead else Back
      case _ => Back
  }

  // ---------------------------------------------------------------- Elrond to Ethereum

  /** The order of the protocol. */
  function ToEthSuccessor(id: ToEth.Id): ToEth.Id {
    match id
    case GettingPendingBatch => ToEth.SigningProposedTransfer
    case SigningProposedTransfer => ToEth.WaitingForQuorumOnTransfer
    case WaitingForQuorumOnTransfer => ToEth.PerformingTransfer
    case PerformingTransfer => ToEth.ResolvingSetStatus
    case WaitingTransferConfirmation => ToEth.PerformingTransfer
    case ResolvingSetStatus => ToEth.ProposingSetStatus
    case ProposingSetStatus => ToEth.SigningProposedSetStatus
    case SigningProposedSetStatus => ToEth.WaitingForQuorumOnSetStatus
    case WaitingForQuorumOnSetStatus => ToEth.PerformingSetStatus
    case PerformingSetStatus => ToEth.GettingPendingBatch
  }

  /**
   * Ahead is the next step of the protocol, except that an executed batch needs no signatures; again is the
   * same step, except that step four waits for the confirmation first; and step five always goes ahead.
   */
  function ToEthNext(id: ToEth.Id, calls: seq<Call>): ToEth.Id {
    if id.WaitingTransferConfirmation? then ToEth.PerformingTransfer
    else match JudgedBy(calls)
      case Back => ToEth.GettingPendingBatch
      case Again => if id.PerformingTransfer? then ToEth.WaitingTransferConfirmation else id
      case Ahead =>
        var last := calls[|calls| - 1];
        if last.EthExecutedAsked? && last.executed == Ok(true) then ToEth.ResolvingSetStatus else ToEthSuccessor(id)
  }

  lemma TransferMoves(cfg: Config, id: ToEth.Id, s: ExecState, a: Answers)
    requires id.GettingPendingBatch? || id.SigningProposedTransfer? || id.WaitingForQuorumOnTransfer?
             || id.PerformingTransfer? || id.WaitingTransferConfirmation?
    ensures var r := ToEth.Execute(cfg, id, s, a); r.next == ToEthNext(id, r.calls)
  {
  }

  lemma ResolvingMoves(s: ExecState, a: Answers)
    ensures var r := ToEth.ResolveStatus(s, a); r.next == ToEthNext(ToEth.ResolvingSetStatus, r.calls)
  {
    if s.batch.Some? && a.pending.Ok? {
      var polled := StatusCalls(Polls(a.statuses), s.batch.value.id);
      if FinalStatuses(Polls(a.statuses)) != [] {
        FinalStatusesWereRead(Polls(a.statuses), s.batch.value.id);
      } else {
        NoStatusesRead(Polls(a.statuses), s.batch.value.id);
        assert polled != [] ==> polled[|polled| - 1] in polled;
      }
    }
  }

  /** Without final statuses none were read. */
  lemma {:induction false} NoStatusesRead(polls: seq<Poll<Bytes>>, id: uint64)
    requires FinalStatuses(polls) == []
    ensures forall c :: c in StatusCalls(polls, id) ==> c.StatusesRead? && (c.statuses.Ok? ==> c.statuses.value == [])
  {
    if polls != [] && polls[0].waited {
      NoStatusesRead(polls[1..], id);
    }
  }

  lemma ProposingMoves(cfg: Config, s: ExecState, a: Answers)
    ensures var r := ToEth.ProposeStatus(cfg, s, a); r.next == ToEthNext(ToEth.ProposingSetStatus, r.calls)
  {
  }

  lemma SigningMoves(s: ExecState, a: Answers)
    ensures var r := ToEth.SignStatus(s, a); r.next == ToEthNext(ToEth.SigningProposedSetStatus, r.calls)
  {
  }

  lemma PerformingMoves(cfg: Config, s: ExecState, a: Answers)
    ensures var r := ToEth.WaitForStatusQuorum(cfg, s, a); r.next == ToEthNext(ToEth.WaitingForQuorumOnSetStatus, r.calls)
    ensures var r := ToEth.PerformStatus(s, a); r.next == ToEthNext(ToEth.PerformingSetStatus, r.calls)
  {
  }

  /** In every run, the next step is the one the last call of this step tells. */
  lemma ToEthMovesByRecord(cfg: Config, answers: seq<Answers>, a: Answers)
    ensures |ToEthRuns.CallsOf(cfg, answers + [a])| >= |ToEthRuns.CallsOf(cfg, answers)|
    ensures var calls := ToEthRuns.CallsOf(cfg, answers + [a])[|ToEthRuns.CallsOf(cfg, answers)|..];
            ToEthRuns.Run(cfg, answers + [a]).step == ToEthNext(ToEthRuns.Run(cfg, answers).step, calls)
  {
    var m := ToEthRuns.Run(cfg, answers);
    var r := ToEth.Execute(cfg, m.step, m.exec, a);
    ToEthRuns.RunAppend(cfg, answers, a);
    assert ToEthRuns.CallsOf(cfg, answers + [a])[|ToEthRuns.CallsOf(cfg, answers)|..] == r.calls;
    match m.step
    case ResolvingSetStatus => ResolvingMoves(m.exec, a);
    case ProposingSetStatus => ProposingMoves(cfg, m.exec, a);
    case SigningProposedSetStatus => SigningMoves(m.exec, a);
    case WaitingForQuorumOnSetStatus => PerformingMoves(cfg, m.exec, a);
    case PerformingSetStatus => PerformingMoves(cfg, m.exec, a);
    case _ => TransferMoves(cfg, m.step, m.exec, a);
  }

  // ---------------------------------------------------------------- Ethereum to Elrond

  function ToElrondSuccessor(id: ToElrond.Id): ToElrond.Id {
    match id
    case GettingPendingBatch => ToElrond.ProposingTransfer
    case ProposingTransfer => ToElrond.SigningProposedTransfer
    case SigningProposedTransfer => ToElrond.WaitingForQuorum
    case WaitingForQuorum => ToElrond.PerformingActionID
    case PerformingActionID => ToElrond.GettingPendingBatch
  }

  function ToElrondNext(id: ToElrond.Id, calls: seq<Call>): ToElrond.Id {
    match JudgedBy(calls)
    case Back => ToElrond.GettingPendingBatch
    case Again => id
    case Ahead => ToElrondSuccessor(id)
  }

  /** In every run, the next step is the one the last call of this step tells. */
  lemma ToElrondMovesByRecord(cfg: Config, answers: seq<Answers>, a: Answers)
    ensures |ToElrondRuns.CallsOf(cfg, answers + [a])| >= |ToElrondRuns.CallsOf(cfg, answers)|
    ensures var calls := ToElrondRuns.CallsOf(cfg, answers + [a])[|ToElrondRuns.CallsOf(cfg, answers)|..];
            ToElrondRuns.Run(cfg, answers + [a]).step == ToElrondNext(ToElrondRuns.Run(cfg, answers).step, calls)
  {
    var m := ToElrondRuns.Run(cfg, answers);
    var r := ToElrond.Execute(cfg, m.step, m.exec, a);
    ToElrondRuns.RunAppend(cfg, answers, a);
    assert ToElrondRuns.CallsOf(cfg, answers + [a])[|ToElrondRuns.CallsOf(cfg, answers)|..] == r.calls;
    ToElrondStepMoves(cfg, m.step, m.exec, a);
  }

  lemma ToElrondStepMoves(cfg: Config, id: ToElrond.Id, s: ExecState, a: Answers)
    ensures var r := ToElrond.Execute(cfg, id, s, a); r.next == ToElrondNext(id, r.calls)
  {
    if id.GettingPendingBatch? {
      ToElrondFetchMoves(s, a);
    }
  }

  lemma ToElrondFetchMoves(s: ExecState, a: Answers)
    ensures var r := ToElrond.GetPending(s, a); r.next == ToElrondNext(ToElrond.GettingPendingBatch, r.calls)
  {
  }

  // ---------------------------------------------------------------- nothing goes out while paused

  predicate IsElrondTransaction(c: Call) {
    c.ProposalSent? || c.SignatureSent? || c.PerformSent?
  }

  /** A transaction to Elrond goes out only if the contract said in the same step that it is not paused. */
  lemma NothingSentWhilePaused(cfg: Config, m: ToEthRuns.Machine, n: ToElrondRuns.Machine, a: Answers, c: Call)
    requires IsElrondTransaction(c)
    requires c in ToEth.Execute(cfg, m.step, m.exec, a).calls || c in ToElrond.Execute(cfg, n.step, n.exec, a).calls
    ensures a.paused == Ok(false)
  {
    if c in ToEth.Execute(cfg, m.step, m.exec, a).calls {
      ToEthRuns.CallsByStep(cfg, m.step, m.exec, a, c);
    }
  }

  /** Without a stored batch nothing is sent anywhere. */
  lemma NothingSentWithoutBatch(cfg: Config, m: ToEthRuns.Machine, n: ToElrondRuns.Machine, a: Answers, c: Call)
    requires m.exec.batch.None? && n.exec.batch.None?
    requires c in ToEth.Execute(cfg, m.step, m.exec, a).calls || c in ToElrond.Execute(cfg, n.step, n.exec, a).calls
    ensures !IsElrondTransaction(c) && !c.TransferSent? && !c.SignatureBroadcast?
  {
    if c in ToEth.Execute(cfg, m.step, m.exec, a).calls {
      ToEthRuns.CallsByStep(cfg, m.step, m.exec, a, c);
    }
  }

  /** Step four reads the stored signatures exactly if it leads, the contract runs and the fee is known. */
  lemma StoreReadExactly(cfg: Config, s: ExecState, a: Answers)
    ensures (exists c :: c in ToEth.PerformTransfer(cfg, s, a).calls && c.SignaturesRead?) <==>
            && s.batch.Some? && a.ethExecuted == Ok(false) && a.leader && a.quorum.Ok?
            && a.transfer.paused == Ok(false) && a.transfer.gasPrice.Ok?
  {
    var calls := ToEth.PerformTransfer(cfg, s, a).calls;
    if |calls| > 3 && calls[3].SignaturesRead? {
      assert calls[3] in calls;
    }
  }

  // ---------------------------------------------------------------- what steps five and six hear

  function FirstTen<T>(s: seq<T>): seq<T> {
    if |s| <= 10 then s else s[..10]
  }

  /** Step five asks about the stored batch at most ten times, up to the first answer that confirms. */
  lemma ConfirmationIsPolled(s: ExecState, a: Answers)
    requires s.batch.Some?
    ensures AsksUntilConfirmed(ToEth.WaitConfirmation(s, a).calls, s.batch.value.id, PolledAnswers(FirstTen(a.confirmations)))
  {
    PollsAreTen(a.confirmations);
    ConfirmationsAsked(Polls(a.confirmations), s.batch.value.id);
  }

  /** Step six goes on exactly if a batch is pending and one of ten polls brings statuses, before any wait is cut short. */
  lemma StatusesAreAwaited(s: ExecState, a: Answers)
    requires s.batch.Some?
    ensures ToEth.ResolveStatus(s, a).next.ProposingSetStatus? <==> a.pending.Ok? && exists st :: Brings(a, st)
    ensures forall st :: Brings(a, st) && a.pending.Ok? ==>
              ToEth.ResolveStatus(s, a).state.batch ==
              Some(s.batch.value.(statuses := Resolved(st, |a.pending.value.statuses|)))
  {
    PollsAreTen(a.statuses);
    assert Polls(a.statuses) == FirstTen(a.statuses);
    var st := FinalStatuses(Polls(a.statuses));
    if st != [] {
      FinalStatusesExact(FirstTen(a.statuses), st);
      assert Brings(a, st);
    }
    forall x | Brings(a, x) ensures x == st {
      FinalStatusesExact(Polls(a.statuses), x);
    }
  }

  /** One of the first ten polls is the first to bring statuses, and it brings these. */
  ghost predicate Brings(a: Answers, st: Bytes) {
    st != [] && exists i :: FirstAnswer(FirstTen(a.statuses), i, st)
  }

  // ---------------------------------------------------------------- what a failed step leaves behind

  /** A batch is stored before it is validated, and an identifier before it is found to be zero. */
  lemma StoredBeforeChecked(cfg: Config, s: ExecState, a: Answers)
    ensures a.pending.Ok? ==> ToEth.GetPending(s, a).state.batch == Some(a.pending.value)
    ensures a.lastBatchID.Ok? && a.ethBatch.Ok? &&
            a.ethBatch.value.id == (a.lastBatchID.value + 1) % TWO_64 && a.ethBatch.value.deposits != [] ==>
              ToElrond.GetPending(s, a).state.batch == Some(a.ethBatch.value)
    ensures s.batch.Some? && a.actionID.Ok? ==>
              ToEth.SignStatus(s, a).state.actionID == ToElrond.SignTransfer(s, a).state.actionID == a.actionID.value
  {
  }

  // ---------------------------------------------------------------- attempts are independent

  /** From here on the rest of an attempt cannot tell the two states apart. */
  ghost predicate ToEthAlike(id: ToEth.Id, s: ExecState, t: ExecState) {
    id.GettingPendingBatch? ||
      (&& s.batch == t.batch && s.batch.Some?
       && s.ethRetries == t.ethRetries && s.elrondRetries == t.elrondRetries && s.proposedRetries == t.proposedRetries
       && (id.WaitingForQuorumOnTransfer? || id.PerformingTransfer? || id.WaitingTransferConfirmation? ==>
             s.msgHash == t.msgHash)
       && (id.WaitingForQuorumOnSetStatus? || id.PerformingSetStatus? ==> s.actionID == t.actionID))
  }

  ghost predicate ToEthSame(x: ToEth.Step, y: ToEth.Step) {
    x.next == y.next && x.calls == y.calls && ToEthAlike(x.next, x.state, y.state)
  }

  lemma ToEthTransferAlike(cfg: Config, id: ToEth.Id, s: ExecState, t: ExecState, a: Answers)
    requires ToEthAlike(id, s, t)
    requires id.GettingPendingBatch? || id.SigningProposedTransfer? || id.WaitingForQuorumOnTransfer?
             || id.PerformingTransfer? || id.WaitingTransferConfirmation?
    ensures ToEthSame(ToEth.Execute(cfg, id, s, a), ToEth.Execute(cfg, id, t, a))
  {
  }

  lemma ToEthStatusAlike(cfg: Config, id: ToEth.Id, s: ExecState, t: ExecState, a: Answers)
    requires ToEthAlike(id, s, t)
    requires id.ResolvingSetStatus? || id.ProposingSetStatus? || id.SigningProposedSetStatus?
             || id.WaitingForQuorumOnSetStatus? || id.PerformingSetStatus?
    ensures ToEthSame(ToEth.Execute(cfg, id, s, a), ToEth.Execute(cfg, id, t, a))
  {
  }

  /** Two machines that go on alike. */
  ghost predicate ToEthTwins(m: ToEthRuns.Machine, n: ToEthRuns.Machine) {
    m.step == n.step && ToEthAlike(m.step, m.exec, n.exec) && m.attempt == n.attempt && m.path == n.path
  }

  lemma ToEthAdvanceAlike(cfg: Config, m: ToEthRuns.Machine, n: ToEthRuns.Machine, a: Answers)
    requires ToEthTwins(m, n) || (m.step.GettingPendingBatch? && n.step.GettingPendingBatch?)
    ensures ToEthTwins(ToEthRuns.Advance(cfg, m, a), ToEthRuns.Advance(cfg, n, a))
  {
    match m.step
    case ResolvingSetStatus => ToEthStatusAlike(cfg, m.step, m.exec, n.exec, a);
    case ProposingSetStatus => ToEthStatusAlike(cfg, m.step, m.exec, n.exec, a);
    case SigningProposedSetStatus => ToEthStatusAlike(cfg, m.step, m.exec, n.exec, a);
    case WaitingForQuorumOnSetStatus => ToEthStatusAlike(cfg, m.step, m.exec, n.exec, a);
    case PerformingSetStatus => ToEthStatusAlike(cfg, m.step, m.exec, n.exec, a);
    case _ => ToEthTransferAlike(cfg, m.step, m.exec, n.exec, a);
  }

  /**
   * What an attempt does and where it goes does not depend on what earlier attempts left behind: after any
   * two runs that are at the first step, the same answers lead to the same calls and the same steps.
   */
  lemma {:induction false} ToEthAttemptsAreIndependent(cfg: Config, x: seq<Answers>, y: seq<Answers>, script: seq<Answers>)
    requires ToEthRuns.Run(cfg, x).step.GettingPendingBatch? && ToEthRuns.Run(cfg, y).step.GettingPendingBatch?
    requires script != []
    ensures ToEthTwins(ToEthRuns.Run(cfg, x + script), ToEthRuns.Run(cfg, y + script))
  {
    var front, a := script[..|script| - 1], script[|script| - 1];
    if front == [] {
      assert x + front == x && y + front == y;
    } else {
      ToEthAttemptsAreIndependent(cfg, x, y, front);
    }
    assert x + script == x + front + [a] && y + script == y + front + [a];
    ToEthRuns.RunAppend(cfg, x + front, a);
    ToEthRuns.RunAppend(cfg, y + front, a);
    ToEthAdvanceAlike(cfg, ToEthRuns.Run(cfg, x + front), ToEthRuns.Run(cfg, y + front), a);
  }

  ghost predicate ToElrondAlike(id: ToElrond.Id, s: ExecState, t: ExecState) {
    id.GettingPendingBatch? ||
      (&& s.batch == t.batch && s.batch.Some? && s.elrondRetries == t.elrondRetries
       && (id.WaitingForQuorum? || id.PerformingActionID? ==> s.actionID == t.actionID))
  }

  lemma ToElrondStepAlike(cfg: Config, id: ToElrond.Id, s: ExecState, t: ExecState, a: Answers)
    requires ToElrondAlike(id, s, t)
    ensures var x, y := ToElrond.Execute(cfg, id, s, a), ToElrond.Execute(cfg, id, t, a);
            x.next == y.next && x.calls == y.calls && ToElrondAlike(x.next, x.state, y.state)
  {
  }

  ghost predicate ToElrondTwins(m: ToElrondRuns.Machine, n: ToElrondRuns.Machine) {
    m.step == n.step && ToElrondAlike(m.step, m.exec, n.exec) && m.attempt == n.attempt && m.path == n.path
  }

  lemma ToElrondAdvanceAlike(cfg: Config, m: ToElrondRuns.Machine, n: ToElrondRuns.Machine, a: Answers)
    requires ToElrondTwins(m, n) || (m.step.GettingPendingBatch? && n.step.GettingPendingBatch?)
    ensures ToElrondTwins(ToElrondRuns.Advance(cfg, m, a), ToElrondRuns.Advance(cfg, n, a))
  {
    ToElrondStepAlike(cfg, m.step, m.exec, n.exec, a);
  }

  /** The same for the other half. */
  lemma {:induction false} ToElrondAttemptsAreIndependent(cfg: Config, x: seq<Answers>, y: seq<Answers>,
      script: seq<Answers>)
    requires ToElrondRuns.Run(cfg, x).step.GettingPendingBatch? && ToElrondRuns.Run(cfg, y).step.GettingPendingBatch?
    requires script != []
    ensures ToElrondTwins(ToElrondRuns.Run(cfg, x + script), ToElrondRuns.Run(cfg, y + script))
  {
    var front, a := script[..|script| - 1], script[|script| - 1];
    if front == [] {
      assert x + front == x && y + front == y;
    } else {
      ToElrondAttemptsAreIndependent(cfg, x, y, front);
    }
    assert x + script == x + front + [a] && y + script == y + front + [a];
    ToElrondRuns.RunAppend(cfg, x + front, a);
    ToElrondRuns.RunAppend(cfg, y + front, a);
    ToElrondAdvanceAlike(cfg, ToElrondRuns.Run(cfg, x + front), ToElrondRuns.Run(cfg, y + front), a);
  }
}

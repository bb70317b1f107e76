/**
 * Runs of the Elrond to Ethereum machine against arbitrary answers: what must have happened, in which
 * order and in the current attempt, before each step and before each transaction.
 */
module ToEthRuns {
  import opened Base
  import opened Batches
  import opened ElrondCodec
  import opened EthereumClient
  import opened Protocol
  import opened ToEth

  /** A machine; `attempt` and `path` record the calls and steps since it last executed step one. */
  datatype Machine = Machine(step: Id, exec: ExecState, attempt: seq<Call>, path: seq<Id>)

  const START: Machine := Machine(GettingPendingBatch, INITIAL, [], [])

  /** The machine once its step returned `r`. */
  function After(m: Machine, r: Step): Machine {
    var first := m.step.GettingPendingBatch?;
    Machine(r.next, r.state, (if first then [] else m.attempt) + r.calls, (if first then [] else m.path) + [m.step])
  }

  ghost function Advance(cfg: Config, m: Machine, a: Answers): Machine {
    After(m, Execute(cfg, m.step, m.exec, a))
  }

  /** The machine after a sequence of steps with the given answers. */
  ghost function Run(cfg: Config, answers: seq<Answers>): Machine {
    if answers == [] then START else Advance(cfg, Run(cfg, answers[..|answers| - 1]), answers[|answers| - 1])
  }

  /** All calls of a run, step after step. */
  ghost function CallsOf(cfg: Config, answers: seq<Answers>): seq<Call> {
    if answers == [] then []
    else
      var front := answers[..|answers| - 1];
      CallsOf(cfg, front) + Execute(cfg, Run(cfg, front).step, Run(cfg, front).exec, answers[|answers| - 1]).calls
  }

  lemma RunAppend(cfg: Config, answers: seq<Answers>, a: Answers)
    ensures Run(cfg, answers + [a]) == Advance(cfg, Run(cfg, answers), a)
    ensures CallsOf(cfg, answers + [a]) ==
            CallsOf(cfg, answers) + Execute(cfg, Run(cfg, answers).step, Run(cfg, answers).exec, a).calls
  {
    assert (answers + [a])[..|answers|] == answers;
  }

  // ---------------------------------------------------------------- the evidence behind each step

  /** What an attempt has established so far. */
  datatype Dossier = Dossier(
    batch: Batch,
    hash: Bytes,
    listed: seq<Bytes>,
    quorum: nat,
    pending: Batch,
    statuses: Bytes,
    actionID: uint64,
    signing: Call)

  /** The batch whose statuses are proposed: Ethereum's answer resolved against the pending deposits. */
  function Final(d: Dossier): Batch {
    d.batch.(statuses := Resolved(d.statuses, |d.pending.statuses|))
  }

  function FetchPattern(b: Batch, executed: bool): seq<Call> {
    [PendingFetched(Ok(b)), Validated(b, Ok(true)), EthExecutedAsked(b.id, Ok(executed))]
  }

  function SignedPattern(d: Dossier): seq<Call> {
    FetchPattern(d.batch, false) + [SignatureBroadcast(d.hash)]
  }

  function QuorumPattern(d: Dossier): seq<Call> {
    SignedPattern(d) + [SignaturesRead(d.hash, d.listed), QuorumRead(Ok(d.quorum))]
  }

  function ResolvedPattern(d: Dossier): seq<Call> {
    FetchPattern(d.batch, true)
      + [StoreCleared, PendingFetched(Ok(d.pending)), StatusesRead(d.batch.id, Ok(d.statuses))]
  }

  function ActionPattern(d: Dossier): seq<Call> {
    ResolvedPattern(d) + [ActionIDRead(SetStatusAction(Final(d)), Ok(d.actionID)), d.signing]
  }

  function StatusQuorumPattern(d: Dossier): seq<Call> {
    ActionPattern(d) + [ElrondQuorumAsked(d.actionID, Ok(true))]
  }

  /** The calls that must have been made, in this order, when the machine is at a step. */
  function Pattern(id: Id, d: Dossier): seq<Call> {
    match id
    case GettingPendingBatch => []
    case SigningProposedTransfer => FetchPattern(d.batch, false)
    case WaitingForQuorumOnTransfer => SignedPattern(d)
    case PerformingTransfer => QuorumPattern(d)
    case WaitingTransferConfirmation => QuorumPattern(d)
    case ResolvingSetStatus => FetchPattern(d.batch, true)
    case ProposingSetStatus => ResolvedPattern(d)
    case SigningProposedSetStatus => ResolvedPattern(d)
    case WaitingForQuorumOnSetStatus => ActionPattern(d)
    case PerformingSetStatus => StatusQuorumPattern(d)
  }

  /** How the executor's fields agree with the dossier when the machine is at a step. */
  ghost predicate Agrees(cfg: Config, id: Id, s: ExecState, d: Dossier) {
    match id
    case GettingPendingBatch => true
    case SigningProposedTransfer => s.batch == Some(d.batch)
    case WaitingForQuorumOnTransfer => Hashed(cfg, s, d)
    case PerformingTransfer => Hashed(cfg, s, d) && IsQuorumReached(|d.listed|, Ok(d.quorum)) == Ok(true)
    case WaitingTransferConfirmation => Hashed(cfg, s, d) && IsQuorumReached(|d.listed|, Ok(d.quorum)) == Ok(true)
    case ResolvingSetStatus => s.batch == Some(d.batch)
    case ProposingSetStatus => s.batch == Some(Final(d)) && d.statuses != []
    case SigningProposedSetStatus => s.batch == Some(Final(d)) && d.statuses != []
    case WaitingForQuorumOnSetStatus => Named(s, d)
    case PerformingSetStatus => Named(s, d)
  }

  ghost predicate Hashed(cfg: Config, s: ExecState, d: Dossier) {
    s.batch == Some(d.batch) && s.msgHash == d.hash && MessageHash(cfg.hashing, d.batch) == Ok(d.hash)
  }

  ghost predicate Named(s: ExecState, d: Dossier) {
    && s.batch == Some(Final(d)) && d.statuses != []
    && s.actionID == d.actionID && d.actionID != INVALID_ACTION_ID && IsSigning(d.signing, d.actionID)
  }

  ghost predicate Evidence(cfg: Config, m: Machine, d: Dossier) {
    Subseq(Pattern(m.step, d), m.attempt) && Agrees(cfg, m.step, m.exec, d)
  }

  // ---------------------------------------------------------------- one lemma per step

  lemma FromGetPending(cfg: Config, m: Machine, a: Answers, d: Dossier) returns (d': Dossier)
    requires m.step.GettingPendingBatch?
    ensures Evidence(cfg, After(m, GetPending(m.exec, a)), d')
  {
    d' := d;
    if a.pending.Ok? && a.valid == Ok(true) && a.ethExecuted.Ok? {
      var b := a.pending.value;
      d' := d.(batch := b);
      SubseqSelf(FetchPattern(b, a.ethExecuted.value));
      assert After(m, GetPending(m.exec, a)).attempt == FetchPattern(b, a.ethExecuted.value);
    }
  }

  lemma FromSignTransfer(cfg: Config, m: Machine, a: Answers, d: Dossier) returns (d': Dossier)
    requires m.step.SigningProposedTransfer? && Evidence(cfg, m, d)
    ensures Evidence(cfg, After(m, SignTransfer(cfg, m.exec)), d')
  {
    d' := d;
    var h := MessageHash(cfg.hashing, d.batch);
    if h.Ok? {
      d' := d.(hash := h.value);
      SubseqThen(FetchPattern(d.batch, false), m.attempt, [SignatureBroadcast(h.value)]);
    }
  }

  lemma FromWaitForQuorum(cfg: Config, m: Machine, a: Answers, d: Dossier) returns (d': Dossier)
    requires m.step.WaitingForQuorumOnTransfer? && Evidence(cfg, m, d)
    ensures Evidence(cfg, After(m, WaitForQuorum(cfg, m.exec, a)), d') && d'.hash == d.hash
    ensures WaitForQuorum(cfg, m.exec, a).next.PerformingTransfer? ==>
              d'.listed == a.signatures && Ok(d'.quorum) == a.quorum
  {
    d' := d;
    var next := After(m, WaitForQuorum(cfg, m.exec, a));
    if next.step.PerformingTransfer? {
      var calls := [SignaturesRead(d.hash, a.signatures), QuorumRead(a.quorum)];
      d' := d.(listed := a.signatures, quorum := a.quorum.value);
      SubseqThen(SignedPattern(d), m.attempt, calls);
      assert next.attempt == m.attempt + calls;
    } else {
      SubseqExtend(SignedPattern(d), m.attempt, WaitForQuorum(cfg, m.exec, a).calls);
    }
  }

  lemma FromPerformTransfer(cfg: Config, m: Machine, a: Answers, d: Dossier) returns (d': Dossier)
    requires m.step.PerformingTransfer? && Evidence(cfg, m, d)
    ensures Evidence(cfg, After(m, PerformTransfer(cfg, m.exec, a)), d') && d' == d
  {
    d' := d;
    var calls := PerformTransfer(cfg, m.exec, a).calls;
    if a.ethExecuted == Ok(true) {
      SubseqPrefix(QuorumPattern(d), m.attempt, 2);
      SubseqThen(QuorumPattern(d)[..2], m.attempt, [EthExecutedAsked(d.batch.id, Ok(true))]);
      assert QuorumPattern(d)[..2] + [EthExecutedAsked(d.batch.id, Ok(true))] == FetchPattern(d.batch, true);
    } else {
      SubseqExtend(QuorumPattern(d), m.attempt, calls);
    }
  }

  lemma FromWaitConfirmation(cfg: Config, m: Machine, a: Answers, d: Dossier) returns (d': Dossier)
    requires m.step.WaitingTransferConfirmation? && Evidence(cfg, m, d)
    ensures Evidence(cfg, After(m, WaitConfirmation(m.exec, a)), d') && d' == d
  {
    d' := d;
    SubseqExtend(QuorumPattern(d), m.attempt, WaitConfirmation(m.exec, a).calls);
  }

  lemma FromResolveStatus(cfg: Config, m: Machine, a: Answers, d: Dossier) returns (d': Dossier)
    requires m.step.ResolvingSetStatus? && Evidence(cfg, m, d)
    ensures Evidence(cfg, After(m, ResolveStatus(m.exec, a)), d')
  {
    d' := d;
    var statuses := FinalStatuses(Polls(a.statuses));
    if a.pending.Ok? && statuses != [] {
      d' := d.(pending := a.pending.value, statuses := statuses);
      var polled := StatusCalls(Polls(a.statuses), d.batch.id);
      FinalStatusesWereRead(Polls(a.statuses), d.batch.id);
      var c := [StoreCleared, PendingFetched(a.pending)];
      SubseqThenLast(FetchPattern(d.batch, true), m.attempt, c, polled);
      assert FetchPattern(d.batch, true) + (c + [polled[|polled| - 1]]) == ResolvedPattern(d');
      assert After(m, ResolveStatus(m.exec, a)).attempt == m.attempt + (c + polled);
    }
  }

  lemma FromProposeStatus(cfg: Config, m: Machine, a: Answers, d: Dossier) returns (d': Dossier)
    requires m.step.ProposingSetStatus? && Evidence(cfg, m, d)
    ensures Evidence(cfg, After(m, ProposeStatus(cfg, m.exec, a)), d')
  {
    d' := d;
    SubseqExtend(ResolvedPattern(d), m.attempt, ProposeStatus(cfg, m.exec, a).calls);
  }

  lemma FromSignStatus(cfg: Config, m: Machine, a: Answers, d: Dossier) returns (d': Dossier)
    requires m.step.SigningProposedSetStatus? && Evidence(cfg, m, d)
    ensures Evidence(cfg, After(m, SignStatus(m.exec, a)), d')
  {
    d' := d;
    var next := After(m, SignStatus(m.exec, a));
    if next.step.WaitingForQuorumOnSetStatus? {
      var id := a.actionID.value;
      var read := ActionIDRead(SetStatusAction(Final(d)), Ok(id));
      var accepted := a.signed == Ok(true);
      var asked := if accepted then [] else [SignedAsked(id, a.signed)];
      var signing := if accepted then SignedAsked(id, Ok(true)) else SignatureSent(id, a.sent);
      d' := d.(actionID := id, signing := signing);
      SubseqAround(ResolvedPattern(d), m.attempt, read, asked, signing);
      assert SignStatus(m.exec, a).calls == [read] + asked + [signing];
    }
  }

  lemma FromWaitForStatusQuorum(cfg: Config, m: Machine, a: Answers, d: Dossier) returns (d': Dossier)
    requires m.step.WaitingForQuorumOnSetStatus? && Evidence(cfg, m, d)
    ensures Evidence(cfg, After(m, WaitForStatusQuorum(cfg, m.exec, a)), d')
  {
    d' := d;
    var next := After(m, WaitForStatusQuorum(cfg, m.exec, a));
    if next.step.PerformingSetStatus? {
      SubseqThen(ActionPattern(d), m.attempt, [ElrondQuorumAsked(d.actionID, Ok(true))]);
    } else {
      SubseqExtend(ActionPattern(d), m.attempt, WaitForStatusQuorum(cfg, m.exec, a).calls);
    }
  }

  lemma FromPerformStatus(cfg: Config, m: Machine, a: Answers, d: Dossier) returns (d': Dossier)
    requires m.step.PerformingSetStatus? && Evidence(cfg, m, d)
    ensures Evidence(cfg, After(m, PerformStatus(m.exec, a)), d')
  {
    d' := d;
    SubseqExtend(StatusQuorumPattern(d), m.attempt, PerformStatus(m.exec, a).calls);
  }

  /** Every step keeps the evidence, whatever it is answered. */
  lemma AdvanceKeepsEvidence(cfg: Config, m: Machine, a: Answers, d: Dossier) returns (d': Dossier)
    requires Evidence(cfg, m, d)
    ensures Evidence(cfg, Advance(cfg, m, a), d')
  {
    match m.step
    case GettingPendingBatch => d' := FromGetPending(cfg, m, a, d);
    case SigningProposedTransfer => d' := FromSignTransfer(cfg, m, a, d);
    case WaitingForQuorumOnTransfer => d' := FromWaitForQuorum(cfg, m, a, d);
    case PerformingTransfer => d' := FromPerformTransfer(cfg, m, a, d);
    case WaitingTransferConfirmation => d' := FromWaitConfirmation(cfg, m, a, d);
    case ResolvingSetStatus => d' := FromResolveStatus(cfg, m, a, d);
    case ProposingSetStatus => d' := FromProposeStatus(cfg, m, a, d);
    case SigningProposedSetStatus => d' := FromSignStatus(cfg, m, a, d);
    case WaitingForQuorumOnSetStatus => d' := FromWaitForStatusQuorum(cfg, m, a, d);
    case PerformingSetStatus => d' := FromPerformStatus(cfg, m, a, d);
  }

  /** In every run the machine has the evidence for the step it is at. */
  lemma {:induction false} RunHasEvidence(cfg: Config, answers: seq<Answers>) returns (d: Dossier)
    ensures Evidence(cfg, Run(cfg, answers), d)
  {
    if answers == [] {
      var b := Batch(0, [], []);
      d := Dossier(b, [], [], 0, b, [], 0, StoreCleared);
    } else {
      var before := RunHasEvidence(cfg, answers[..|answers| - 1]);
      d := AdvanceKeepsEvidence(cfg, Run(cfg, answers[..|answers| - 1]), answers[|answers| - 1], before);
    }
  }

  // ---------------------------------------------------------------- what stands behind each transaction

  /** Which calls a step may make. */
  predicate Makes(id: Id, c: Call) {
    match id
    case GettingPendingBatch => c.PendingFetched? || c.Validated? || c.EthExecutedAsked?
    case SigningProposedTransfer => c.SignatureBroadcast?
    case WaitingForQuorumOnTransfer => c.SignaturesRead? || c.QuorumRead?
    case PerformingTransfer =>
      c.EthExecutedAsked? || c.LeaderAsked? || c.QuorumRead? || c.SignaturesRead? || c.TransferRefused?
      || c.TransferPanicked? || c.TransferSent?
    case WaitingTransferConfirmation => c.EthExecutedAsked?
    case ResolvingSetStatus => c.StoreCleared? || c.PendingFetched? || c.StatusesRead?
    case ProposingSetStatus => c.ProposedAsked? || c.LeaderAsked? || c.ProposalSent?
    case SigningProposedSetStatus => c.ActionIDRead? || c.SignedAsked? || c.SignatureSent?
    case WaitingForQuorumOnSetStatus => c.ElrondQuorumAsked?
    case PerformingSetStatus => c.PerformedAsked? || c.LeaderAsked? || c.PerformSent?
  }

  lemma PollingCalls(s: ExecState, a: Answers, c: Call)
    ensures c in WaitConfirmation(s, a).calls ==> Makes(WaitingTransferConfirmation, c)
    ensures c in ResolveStatus(s, a).calls ==> Makes(ResolvingSetStatus, c)
  {
    if s.batch.Some? {
      ConfirmationCallsOnlyAsk(Polls(a.confirmations), s.batch.value.id);
      StatusCallsOnlyAsk(Polls(a.statuses), s.batch.value.id);
    }
  }

  lemma TransferCalls(cfg: Config, s: ExecState, a: Answers, c: Call)
    ensures c in PerformTransfer(cfg, s, a).calls ==> Makes(PerformingTransfer, c)
    ensures c in WaitForQuorum(cfg, s, a).calls ==> Makes(WaitingForQuorumOnTransfer, c)
  {
  }

  lemma StatusCallsOfStep(cfg: Config, s: ExecState, a: Answers, c: Call)
    ensures c in ProposeStatus(cfg, s, a).calls ==> Makes(ProposingSetStatus, c)
    ensures c in SignStatus(s, a).calls ==> Makes(SigningProposedSetStatus, c)
    ensures c in PerformStatus(s, a).calls ==> Makes(PerformingSetStatus, c)
  {
  }

  lemma CallsByStep(cfg: Config, id: Id, s: ExecState, a: Answers, c: Call)
    requires c in Execute(cfg, id, s, a).calls
    ensures Makes(id, c)
  {
    PollingCalls(s, a, c);
    TransferCalls(cfg, s, a, c);
    StatusCallsOfStep(cfg, s, a, c);
  }

  /** What a submitted transfer rests on, in the order in which it happened. */
  ghost predicate TransferBacked(cfg: Config, attempt: seq<Call>, d: Dossier, sub: Submission, report: Result<()>,
      listed: seq<Bytes>, q: nat) {
    && Subseq(QuorumPattern(d) + [EthExecutedAsked(d.batch.id, Ok(false)), LeaderAsked(true), QuorumRead(Ok(q)),
                                  SignaturesRead(d.hash, listed), TransferSent(sub, report)], attempt)
    && sub.lists == Lists(d.batch.deposits) && sub.id == d.batch.id
    && HashOf(cfg.hashing, sub.lists, sub.id) == Ok(d.hash)
    && 0 <= LowInt64(q) <= |listed| && sub.signatures == listed[..LowInt64(q)]
  }

  lemma TransferIsBacked(cfg: Config, m: Machine, a: Answers, d: Dossier, sub: Submission, report: Result<()>)
    requires Evidence(cfg, m, d)
    requires TransferSent(sub, report) in Execute(cfg, m.step, m.exec, a).calls
    ensures a.quorum.Ok? &&
              TransferBacked(cfg, Advance(cfg, m, a).attempt, d, sub, report, a.signatures, a.quorum.value)
    ensures m.step.PerformingTransfer? && m.exec.msgHash == d.hash && m.exec.batch == Some(d.batch)
    ensures Execution(cfg.gas, d.batch, a.signatures, LowInt64(a.quorum.value), a.transfer) == Sent(sub, report)
  {
    CallsByStep(cfg, m.step, m.exec, a, TransferSent(sub, report));
    var more := [EthExecutedAsked(sub.id, Ok(false)), LeaderAsked(true), QuorumRead(a.quorum),
                 SignaturesRead(d.hash, a.signatures), TransferSent(sub, report)];
    SubseqThen(QuorumPattern(d), m.attempt, more);
    assert Advance(cfg, m, a).attempt == m.attempt + more;
  }

  /** In every run, what is submitted to Ethereum is exactly what was hashed in the same attempt. */
  lemma SubmittedIsWhatWasSigned(cfg: Config, answers: seq<Answers>, a: Answers, sub: Submission, report: Result<()>)
    returns (d: Dossier)
    requires TransferSent(sub, report) in Execute(cfg, Run(cfg, answers).step, Run(cfg, answers).exec, a).calls
    ensures a.quorum.Ok?
    ensures TransferBacked(cfg, Advance(cfg, Run(cfg, answers), a).attempt, d, sub, report, a.signatures, a.quorum.value)
    ensures Run(cfg, answers).exec.batch == Some(d.batch) && Run(cfg, answers).exec.msgHash == d.hash
    ensures Carries(sub.lists, d.batch.deposits)
  {
    d := RunHasEvidence(cfg, answers);
    TransferIsBacked(cfg, Run(cfg, answers), a, d, sub, report);
    ListsAt(d.batch.deposits);
  }

  /** A broadcast signature is for the hash of the batch fetched and validated in the same attempt. */
  lemma BroadcastIsBacked(cfg: Config, m: Machine, a: Answers, d: Dossier, h: Bytes)
    requires Evidence(cfg, m, d)
    requires SignatureBroadcast(h) in Execute(cfg, m.step, m.exec, a).calls
    ensures Subseq(FetchPattern(d.batch, false) + [SignatureBroadcast(h)], Advance(cfg, m, a).attempt)
    ensures MessageHash(cfg.hashing, d.batch) == Ok(h)
  {
    CallsByStep(cfg, m.step, m.exec, a, SignatureBroadcast(h));
    SubseqThen(FetchPattern(d.batch, false), m.attempt, [SignatureBroadcast(h)]);
  }

  /** A proposed set-status action is the resolved answer of Ethereum for the executed batch. */
  lemma ProposalIsBacked(cfg: Config, m: Machine, a: Answers, d: Dossier, action: Action, report: Result<()>)
    requires Evidence(cfg, m, d)
    requires ProposalSent(action, report) in Execute(cfg, m.step, m.exec, a).calls
    ensures action == SetStatusAction(Final(d)) && d.statuses != []
    ensures Subseq(ResolvedPattern(d) + [ProposedAsked(action, Ok(false)), LeaderAsked(true), ProposalSent(action, report)],
                   Advance(cfg, m, a).attempt)
  {
    CallsByStep(cfg, m.step, m.exec, a, ProposalSent(action, report));
    var more := [ProposedAsked(action, Ok(false)), LeaderAsked(true), ProposalSent(action, report)];
    SubseqThen(ResolvedPattern(d), m.attempt, more);
    assert Advance(cfg, m, a).attempt == m.attempt + more;
  }

  /** A signed action is the one the contract named for exactly that identifier and those statuses. */
  lemma SigningIsBacked(cfg: Config, m: Machine, a: Answers, d: Dossier, id: uint64, report: Result<()>)
    requires Evidence(cfg, m, d)
    requires SignatureSent(id, report) in Execute(cfg, m.step, m.exec, a).calls
    ensures id != INVALID_ACTION_ID && d.statuses != []
    ensures Subseq(ResolvedPattern(d) + [ActionIDRead(SetStatusAction(Final(d)), Ok(id)), SignedAsked(id, Ok(false)),
                                         SignatureSent(id, report)], Advance(cfg, m, a).attempt)
  {
    CallsByStep(cfg, m.step, m.exec, a, SignatureSent(id, report));
    var more := [ActionIDRead(SetStatusAction(Final(d)), Ok(id)), SignedAsked(id, Ok(false)), SignatureSent(id, report)];
    SubseqThen(ResolvedPattern(d), m.attempt, more);
    assert Advance(cfg, m, a).attempt == m.attempt + more;
  }

  /** What a perform transaction of this half-bridge rests on, in the order in which it happened. */
  lemma PerformIsBacked(cfg: Config, m: Machine, a: Answers, d: Dossier, id: uint64, report: Result<()>)
    requires Evidence(cfg, m, d)
    requires PerformSent(id, report) in Execute(cfg, m.step, m.exec, a).calls
    ensures id == d.actionID && id != INVALID_ACTION_ID && IsSigning(d.signing, id) && d.statuses != []
    ensures Subseq(StatusQuorumPattern(d) + [PerformedAsked(id, Ok(false)), LeaderAsked(true), PerformSent(id, report)],
                   Advance(cfg, m, a).attempt)
  {
    CallsByStep(cfg, m.step, m.exec, a, PerformSent(id, report));
    var more := [PerformedAsked(id, Ok(false)), LeaderAsked(true), PerformSent(id, report)];
    SubseqThen(StatusQuorumPattern(d), m.attempt, more);
    assert Advance(cfg, m, a).attempt == m.attempt + more;
  }

  /** In every run, statuses are performed only behind the whole chain of evidence of one attempt. */
  lemma StatusOnlyAfterExecution(cfg: Config, answers: seq<Answers>, a: Answers, id: uint64, report: Result<()>)
    returns (d: Dossier)
    requires PerformSent(id, report) in Execute(cfg, Run(cfg, answers).step, Run(cfg, answers).exec, a).calls
    ensures id == d.actionID && id != INVALID_ACTION_ID && IsSigning(d.signing, id) && d.statuses != []
    ensures Subseq(StatusQuorumPattern(d) + [PerformedAsked(id, Ok(false)), LeaderAsked(true), PerformSent(id, report)],
                   Advance(cfg, Run(cfg, answers), a).attempt)
  {
    d := RunHasEvidence(cfg, answers);
    PerformIsBacked(cfg, Run(cfg, answers), a, d, id, report);
  }

  /**
   * In every run: a proposal holds the larger of the number of answers and the number of statuses fetched.
   * For a batch as the client parses it, this is one status per deposit fetched exactly if there are no more
   * answers than deposits; and then it is one per deposit of the stored batch exactly if both batches have
   * equally many.
   */
  lemma OneStatusPerDeposit(cfg: Config, answers: seq<Answers>, a: Answers, action: Action, report: Result<()>)
    returns (d: Dossier)
    requires ProposalSent(action, report) in Execute(cfg, Run(cfg, answers).step, Run(cfg, answers).exec, a).calls
    ensures action == SetStatusAction(Final(d)) && Run(cfg, answers).exec.batch == Some(Final(d))
    ensures Subseq(ResolvedPattern(d), Advance(cfg, Run(cfg, answers), a).attempt)
    ensures |action.args| == 1 + Max(|d.statuses|, |d.pending.statuses|)
    ensures AsParsed(d.pending) ==>
              (|action.args| == 1 + |d.pending.deposits| <==> |d.statuses| <= |d.pending.deposits|)
    ensures AsParsed(d.pending) && |d.statuses| <= |d.pending.deposits| ==>
              (|action.args| == 1 + |d.batch.deposits| <==> |d.pending.deposits| == |d.batch.deposits|)
  {
    d := RunHasEvidence(cfg, answers);
    var m := Run(cfg, answers);
    CallsByStep(cfg, m.step, m.exec, a, ProposalSent(action, report));
    SubseqExtend(ResolvedPattern(d), m.attempt, Execute(cfg, m.step, m.exec, a).calls);
    assert action == SetStatusAction(Final(d));
    ResolvedShape(d.statuses, |d.pending.statuses|);
  }

  /** Step six does not compare identifiers: another batch's deposits can be counted for the stored one. */
  lemma StepSixMixesBatches() returns (s: ExecState, a: Answers)
    ensures s.batch.Some? && a.pending.Ok? && AsParsed(s.batch.value) && AsParsed(a.pending.value)
    ensures a.pending.value.id != s.batch.value.id
    ensures var r := ResolveStatus(s, a);
            r.next.ProposingSetStatus? && |r.state.batch.value.statuses| != |s.batch.value.deposits|
  {
    var dt := Deposit(1, [], [], [], [], 1);
    var mine, other := Batch(1, [dt], Zeros(1)), Batch(2, [dt, dt], Zeros(2));
    s := INITIAL.(batch := Some(mine));
    a := ALL_FAIL.(pending := Ok(other), statuses := [Poll(true, Ok([EXECUTED]))]);
    assert Polls(a.statuses) == [Poll(true, Ok([EXECUTED]))];
    assert FinalStatuses(Polls(a.statuses)) == [EXECUTED];
    ResolvedShape([EXECUTED], 2);
  }

  /** Step three refuses a zero quorum, but step four reads the quorum again and submits without a signature. */
  lemma StepFourAcceptsZero(cfg: Config) returns (s: ExecState, a: Answers, sub: Submission)
    ensures a.quorum == Ok(0) && IsQuorumReached(|a.signatures|, a.quorum) == Err(InvalidValue)
    ensures TransferSent(sub, Ok(())) in PerformTransfer(cfg, s, a).calls && sub.signatures == []
  {
    var t := TransferAnswers(Ok(false), Ok(0), map[], Remote, Ok(0), Ok(()));
    s := INITIAL.(batch := Some(Batch(1, [], [])));
    a := ALL_FAIL.(ethExecuted := Ok(false), leader := true, quorum := Ok(0), transfer := t);
    sub := Submission(Lists([]), 1, []);
    assert Execution(cfg.gas, s.batch.value, [], 0, t) == Sent(sub, Ok(()));
    assert PerformTransfer(cfg, s, a).calls[4] == TransferSent(sub, Ok(()));
  }
}

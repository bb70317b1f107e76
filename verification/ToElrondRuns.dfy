/**
 * Runs of the Ethereum to Elrond machine against arbitrary answers: what must have happened, in which
 * order and in the current attempt, before each step and before each transaction.
 */
module ToElrondRuns {
  import opened Base
  import opened Batches
  import opened Protocol
  import opened ToElrond

  /** A machine; `attempt` and `path` record the calls and steps since it last executed step one. */
  datatype Machine = Machine(step: Id, exec: ExecState, attempt: seq<Call>, path: seq<Id>)

  const START: Machine := Machine(GettingPendingBatch, INITIAL, [], [])

  function After(m: Machine, r: Step): Machine {
    var first := m.step.GettingPendingBatch?;
    Machine(r.next, r.state, (if first then [] else m.attempt) + r.calls, (if first then [] else m.path) + [m.step])
  }

  function Advance(cfg: Config, m: Machine, a: Answers): Machine {
    After(m, Execute(cfg, m.step, m.exec, a))
  }

  function Run(cfg: Config, answers: seq<Answers>): Machine {
    if answers == [] then START else Advance(cfg, Run(cfg, answers[..|answers| - 1]), answers[|answers| - 1])
  }

  /** All calls of a run, step after step. */
  function CallsOf(cfg: Config, answers: seq<Answers>): seq<Call> {
    if answers == [] then []
    else
      var front := answers[..|answers| - 1];
      CallsOf(cfg, front) + Execute(cfg, Run(cfg, front).step, Run(cfg, front).exec, answers[|answers| - 1]).calls
  }

  lemma RunAppend(cfg: Config, answers: seq<Answers>, a: Answers)
    ensures Run(cfg, answers + [a]) == Advance(cfg, Run(cfg, answers), a)
    ensures CallsOf(cfg, answers + [a]) ==
            CallsOf(cfg, answers) + Execute(cfg, Run(cfg, answers).step, Run(cfg, answers).exec, a).calls
  {
    assert (answers + [a])[..|answers|] == answers;
  }

  // ---------------------------------------------------------------- the evidence behind each step

  /** What an attempt has established so far. */
  datatype Dossier = Dossier(last: uint64, batch: Batch, lastNonce: uint64, actionID: uint64, signing: Call)

  function FetchPattern(d: Dossier): seq<Call> {
    [LastBatchIDRead(Ok(d.last)), EthBatchRead(NextBatchID(d.last), Ok(d.batch)), Validated(d.batch, Ok(true)),
     LastNonceRead(Ok(d.lastNonce))]
  }

  function ActionPattern(d: Dossier): seq<Call> {
    FetchPattern(d) + [ActionIDRead(TransferAction(d.batch), Ok(d.actionID)), d.signing]
  }

  function QuorumPattern(d: Dossier): seq<Call> {
    ActionPattern(d) + [ElrondQuorumAsked(d.actionID, Ok(true))]
  }

  function Pattern(id: Id, d: Dossier): seq<Call> {
    match id
    case GettingPendingBatch => []
    case ProposingTransfer => FetchPattern(d)
    case SigningProposedTransfer => FetchPattern(d)
    case WaitingForQuorum => ActionPattern(d)
    case PerformingActionID => QuorumPattern(d)
  }

  /** The stored batch is the next one, has deposits, and they continue the executed ones. */
  ghost predicate Next(s: ExecState, d: Dossier) {
    && s.batch == Some(d.batch) && d.batch.id == NextBatchID(d.last) && d.batch.deposits != []
    && NoncesFollow(d.batch.deposits, d.lastNonce)
  }

  ghost predicate Agrees(id: Id, s: ExecState, d: Dossier) {
    && (!id.GettingPendingBatch? ==> Next(s, d))
    && (id.WaitingForQuorum? || id.PerformingActionID? ==>
          s.actionID == d.actionID && d.actionID != INVALID_ACTION_ID && IsSigning(d.signing, d.actionID))
  }

  ghost predicate Evidence(m: Machine, d: Dossier) {
    Subseq(Pattern(m.step, d), m.attempt) && Agrees(m.step, m.exec, d)
  }

  lemma FromGetPending(cfg: Config, m: Machine, a: Answers, d: Dossier) returns (d': Dossier)
    requires m.step.GettingPendingBatch?
    ensures Evidence(After(m, GetPending(m.exec, a)), d')
  {
    d' := d;
    if After(m, GetPending(m.exec, a)).step.ProposingTransfer? {
      d' := d.(last := a.lastBatchID.value, batch := a.ethBatch.value, lastNonce := a.lastNonce.value);
      SubseqSelf(FetchPattern(d'));
      assert After(m, GetPending(m.exec, a)).attempt == FetchPattern(d');
    }
  }

  lemma FromProposeTransfer(cfg: Config, m: Machine, a: Answers, d: Dossier) returns (d': Dossier)
    requires m.step.ProposingTransfer? && Evidence(m, d)
    ensures Evidence(After(m, ProposeTransfer(m.exec, a)), d')
  {
    d' := d;
    SubseqExtend(FetchPattern(d), m.attempt, ProposeTransfer(m.exec, a).calls);
  }

  lemma FromSignTransfer(cfg: Config, m: Machine, a: Answers, d: Dossier) returns (d': Dossier)
    requires m.step.SigningProposedTransfer? && Evidence(m, d)
    ensures Evidence(After(m, SignTransfer(m.exec, a)), d')
  {
    d' := d;
    var next := After(m, SignTransfer(m.exec, a));
    if next.step.WaitingForQuorum? {
      var id := a.actionID.value;
      var read := ActionIDRead(TransferAction(d.batch), Ok(id));
      var accepted := a.signed == Ok(true);
      var asked := if accepted then [] else [SignedAsked(id, a.signed)];
      var signing := if accepted then SignedAsked(id, Ok(true)) else SignatureSent(id, a.sent);
      d' := d.(actionID := id, signing := signing);
      SubseqAround(FetchPattern(d), m.attempt, read, asked, signing);
      assert SignTransfer(m.exec, a).calls == [read] + asked + [signing];
    }
  }

  lemma FromWaitForQuorum(cfg: Config, m: Machine, a: Answers, d: Dossier) returns (d': Dossier)
    requires m.step.WaitingForQuorum? && Evidence(m, d)
    ensures Evidence(After(m, WaitForQuorum(cfg, m.exec, a)), d')
  {
    d' := d;
    if After(m, WaitForQuorum(cfg, m.exec, a)).step.PerformingActionID? {
      SubseqThen(ActionPattern(d), m.attempt, [ElrondQuorumAsked(d.actionID, Ok(true))]);
    } else {
      SubseqExtend(ActionPattern(d), m.attempt, WaitForQuorum(cfg, m.exec, a).calls);
    }
  }

  lemma FromPerformAction(cfg: Config, m: Machine, a: Answers, d: Dossier) returns (d': Dossier)
    requires m.step.PerformingActionID? && Evidence(m, d)
    ensures Evidence(After(m, PerformAction(m.exec, a)), d')
  {
    d' := d;
    SubseqExtend(QuorumPattern(d), m.attempt, PerformAction(m.exec, a).calls);
  }

  /** Every step keeps the evidence, whatever it is answered. */
  lemma AdvanceKeepsEvidence(cfg: Config, m: Machine, a: Answers, d: Dossier) returns (d': Dossier)
    requires Evidence(m, d)
    ensures Evidence(Advance(cfg, m, a), d')
  {
    match m.step
    case GettingPendingBatch => d' := FromGetPending(cfg, m, a, d);
    case ProposingTransfer => d' := FromProposeTransfer(cfg, m, a, d);
    case SigningProposedTransfer => d' := FromSignTransfer(cfg, m, a, d);
    case WaitingForQuorum => d' := FromWaitForQuorum(cfg, m, a, d);
    case PerformingActionID => d' := FromPerformAction(cfg, m, a, d);
  }

  /** In every run the machine has the evidence for the step it is at. */
  lemma {:induction false} RunHasEvidence(cfg: Config, answers: seq<Answers>) returns (d: Dossier)
    ensures Evidence(Run(cfg, answers), d)
  {
    if answers == [] {
      d := Dossier(0, Batch(0, [], []), 0, 0, StoreCleared);
    } else {
      var before := RunHasEvidence(cfg, answers[..|answers| - 1]);
      d := AdvanceKeepsEvidence(cfg, Run(cfg, answers[..|answers| - 1]), answers[|answers| - 1], before);
    }
  }

  // ---------------------------------------------------------------- what stands behind each transaction

  /** Which calls a step may make. */
  predicate Makes(id: Id, c: Call) {
    match id
    case GettingPendingBatch => c.LastBatchIDRead? || c.EthBatchRead? || c.Validated? || c.LastNonceRead?
    case ProposingTransfer => c.ProposedAsked? || c.LeaderAsked? || c.ProposalSent?
    case SigningProposedTransfer => c.ActionIDRead? || c.SignedAsked? || c.SignatureSent?
    case WaitingForQuorum => c.ElrondQuorumAsked?
    case PerformingActionID => c.PerformedAsked? || c.LeaderAsked? || c.PerformSent?
  }

  lemma CallsByStep(cfg: Config, id: Id, s: ExecState, a: Answers, c: Call)
    requires c in Execute(cfg, id, s, a).calls
    ensures Makes(id, c)
  {
  }

  lemma ProposalIsBacked(cfg: Config, m: Machine, a: Answers, d: Dossier, action: Action, report: Result<()>)
    requires Evidence(m, d)
    requires ProposalSent(action, report) in Execute(cfg, m.step, m.exec, a).calls
    ensures action == TransferAction(d.batch) && Next(m.exec, d)
    ensures Subseq(FetchPattern(d) + [ProposedAsked(action, Ok(false)), LeaderAsked(true), ProposalSent(action, report)],
                   Advance(cfg, m, a).attempt)
  {
    CallsByStep(cfg, m.step, m.exec, a, ProposalSent(action, report));
    var more := [ProposedAsked(action, Ok(false)), LeaderAsked(true), ProposalSent(action, report)];
    SubseqThen(FetchPattern(d), m.attempt, more);
    assert Advance(cfg, m, a).attempt == m.attempt + more;
  }

  lemma SigningIsBacked(cfg: Config, m: Machine, a: Answers, d: Dossier, id: uint64, report: Result<()>)
    requires Evidence(m, d)
    requires SignatureSent(id, report) in Execute(cfg, m.step, m.exec, a).calls
    ensures id != INVALID_ACTION_ID && Next(m.exec, d)
    ensures Subseq(FetchPattern(d) + [ActionIDRead(TransferAction(d.batch), Ok(id)), SignedAsked(id, Ok(false)),
                                      SignatureSent(id, report)], Advance(cfg, m, a).attempt)
  {
    CallsByStep(cfg, m.step, m.exec, a, SignatureSent(id, report));
    var more := [ActionIDRead(TransferAction(d.batch), Ok(id)), SignedAsked(id, Ok(false)), SignatureSent(id, report)];
    SubseqThen(FetchPattern(d), m.attempt, more);
    assert Advance(cfg, m, a).attempt == m.attempt + more;
  }

  lemma PerformIsBacked(cfg: Config, m: Machine, a: Answers, d: Dossier, id: uint64, report: Result<()>)
    requires Evidence(m, d)
    requires PerformSent(id, report) in Execute(cfg, m.step, m.exec, a).calls
    ensures id == d.actionID && id != INVALID_ACTION_ID && IsSigning(d.signing, id) && Next(m.exec, d)
    ensures Subseq(QuorumPattern(d) + [PerformedAsked(id, Ok(false)), LeaderAsked(true), PerformSent(id, report)],
                   Advance(cfg, m, a).attempt)
  {
    CallsByStep(cfg, m.step, m.exec, a, PerformSent(id, report));
    var more := [PerformedAsked(id, Ok(false)), LeaderAsked(true), PerformSent(id, report)];
    SubseqThen(QuorumPattern(d), m.attempt, more);
    assert Advance(cfg, m, a).attempt == m.attempt + more;
  }

  /**
   * In every run, an action is performed only behind the whole chain of evidence of one attempt: the
   * next batch was fetched and validated, continues the executed deposits, got this identifier from
   * the contract, was signed, and had its quorum reported.
   */
  lemma PerformedActionIsSafe(cfg: Config, answers: seq<Answers>, a: Answers, id: uint64, report: Result<()>)
    returns (d: Dossier)
    requires PerformSent(id, report) in Execute(cfg, Run(cfg, answers).step, Run(cfg, answers).exec, a).calls
    ensures id == d.actionID && id != INVALID_ACTION_ID && IsSigning(d.signing, id)
    ensures Next(Run(cfg, answers).exec, d)
    ensures Subseq(QuorumPattern(d) + [PerformedAsked(id, Ok(false)), LeaderAsked(true), PerformSent(id, report)],
                   Advance(cfg, Run(cfg, answers), a).attempt)
  {
    d := RunHasEvidence(cfg, answers);
    PerformIsBacked(cfg, Run(cfg, answers), a, d, id, report);
  }
}

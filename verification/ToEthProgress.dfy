/**
 * With answers that let it, an attempt of the Elrond to Ethereum machine completes: however often a wait
 * step is told to wait, up to its maximum, and whoever leads.
 */
module ToEthProgress {
  import opened Base
  import opened Batches
  import opened EthereumClient
  import opened Protocol
  import opened ToEth
  import opened ToEthRuns

  /** The machine after a script of answers. */
  ghost function Play(cfg: Config, m: Machine, script: seq<Answers>): Machine {
    if script == [] then m else Advance(cfg, Play(cfg, m, script[..|script| - 1]), script[|script| - 1])
  }

  lemma {:induction false} PlayConcat(cfg: Config, m: Machine, s: seq<Answers>, t: seq<Answers>)
    ensures Play(cfg, m, s + t) == Play(cfg, Play(cfg, m, s), t)
    decreases |t|
  {
    if t == [] {
      assert s + t == s;
    } else {
      PlayConcat(cfg, m, s, t[..|t| - 1]);
      assert (s + t)[..|s + t| - 1] == s + t[..|t| - 1];
    }
  }

  lemma PlayOne(cfg: Config, m: Machine, a: Answers)
    ensures Play(cfg, m, [a]) == Advance(cfg, m, a)
  {
    assert [a][..0] == [];
  }

  lemma {:induction false} RunIsPlayed(cfg: Config, answers: seq<Answers>)
    ensures Run(cfg, answers) == Play(cfg, START, answers)
  {
    if answers != [] {
      RunIsPlayed(cfg, answers[..|answers| - 1]);
    }
  }

  /** From `was` to `now` the machine went through these steps, and nothing was lost from its record. */
  ghost predicate Went(was: Machine, now: Machine, path: seq<Id>) {
    now.path == was.path + path && Keeps(was.attempt, now.attempt)
  }

  lemma WentOn(a: Machine, b: Machine, c: Machine, p: seq<Id>, q: seq<Id>)
    requires Went(a, b, p) && Went(b, c, q)
    ensures Went(a, c, p + q)
  {
  }

  // ---------------------------------------------------------------- answers of the Ethereum side

  /** A quorum that can be read, is not zero, and is not reached by the listed signatures. */
  predicate QuorumAwaited(a: Answers) {
    a.quorum.Ok? && |a.signatures| < a.quorum.value < TWO_63
  }

  predicate QuorumThere(a: Answers) {
    a.quorum.Ok? && 0 < a.quorum.value < TWO_63 && a.quorum.value <= |a.signatures|
  }

  /** What comes of preparing the transfer of `b`. */
  ghost function TransferOf(cfg: Config, b: Batch, a: Answers): Outcome
    requires a.quorum.Ok?
  {
    Execution(cfg.gas, b, a.signatures, LowInt64(a.quorum.value), a.transfer)
  }

  /** Not executed yet, and this relayer does not lead, or its transfer is on its way. */
  ghost predicate ExecutionAwaited(cfg: Config, b: Batch, a: Answers) {
    && a.ethExecuted == Ok(false)
    && (a.leader ==> a.quorum.Ok? && TransferOf(cfg, b, a).Sent? && TransferOf(cfg, b, a).reported.Ok?)
  }

  /** One turn of the loop between performing and waiting for the confirmation. */
  datatype Round = Round(perform: Answers, confirm: Answers)

  function RoundsScript(rounds: seq<Round>): seq<Answers> {
    if rounds == [] then []
    else RoundsScript(rounds[..|rounds| - 1]) + [rounds[|rounds| - 1].perform, rounds[|rounds| - 1].confirm]
  }

  function RoundsPath(n: nat): (path: seq<Id>)
    ensures |path| == 2 * n
    ensures forall k :: 0 <= k < n ==> path[2 * k] == PerformingTransfer && path[2 * k + 1] == WaitingTransferConfirmation
  {
    if n == 0 then [] else RoundsPath(n - 1) + [PerformingTransfer, WaitingTransferConfirmation]
  }

  // ---------------------------------------------------------------- the transfer

  lemma Fetches(cfg: Config, m: Machine, a: Answers) returns (m': Machine)
    requires m.step.GettingPendingBatch? && a.pending.Ok? && a.valid == Ok(true) && a.ethExecuted.Ok?
    ensures m' == Play(cfg, m, [a]) && m'.path == [GettingPendingBatch]
    ensures m'.step == if a.ethExecuted.value then ResolvingSetStatus else SigningProposedTransfer
    ensures m'.exec == m.exec.(batch := Some(a.pending.value), ethRetries := 0, elrondRetries := 0, proposedRetries := 0)
  {
    PlayOne(cfg, m, a);
    m' := After(m, GetPending(m.exec, a));
  }

  lemma Signs(cfg: Config, m: Machine, a: Answers, h: Bytes) returns (m': Machine)
    requires m.step.SigningProposedTransfer? && m.exec.batch.Some?
    requires MessageHash(cfg.hashing, m.exec.batch.value) == Ok(h)
    ensures m' == Play(cfg, m, [a]) && m'.step.WaitingForQuorumOnTransfer? && Went(m, m', [SigningProposedTransfer])
    ensures m'.exec == m.exec.(msgHash := h) && SignatureBroadcast(h) in m'.attempt
  {
    PlayOne(cfg, m, a);
    m' := After(m, SignTransfer(cfg, m.exec));
    assert SignTransfer(cfg, m.exec).calls[0] == SignatureBroadcast(h);
  }

  lemma AwaitsQuorumOnce(cfg: Config, m: Machine, a: Answers) returns (m': Machine)
    requires m.step.WaitingForQuorumOnTransfer? && m.exec.ethRetries < cfg.maxEth && QuorumAwaited(a)
    ensures m' == Advance(cfg, m, a) && m'.step == m.step && Went(m, m', [m.step])
    ensures m'.exec == m.exec.(ethRetries := m.exec.ethRetries + 1)
  {
    m' := After(m, WaitForQuorum(cfg, m.exec, a));
  }

  /** Step three waits as long as its counter allows. */
  lemma {:induction false} AwaitsQuorum(cfg: Config, m: Machine, waits: seq<Answers>) returns (m': Machine)
    requires m.step.WaitingForQuorumOnTransfer? && m.exec.ethRetries + |waits| <= cfg.maxEth
    requires forall k :: 0 <= k < |waits| ==> QuorumAwaited(waits[k])
    ensures m' == Play(cfg, m, waits) && m'.step.WaitingForQuorumOnTransfer?
    ensures Went(m, m', Repeated(WaitingForQuorumOnTransfer, |waits|))
    ensures m'.exec == m.exec.(ethRetries := m.exec.ethRetries + |waits|)
  {
    m' := m;
    if waits != [] {
      var n := |waits| - 1;
      var was := AwaitsQuorum(cfg, m, waits[..n]);
      RepeatedAppend(WaitingForQuorumOnTransfer, n);
      m' := AwaitsQuorumOnce(cfg, was, waits[n]);
      WentOn(m, was, m', Repeated(WaitingForQuorumOnTransfer, n), [WaitingForQuorumOnTransfer]);
    }
  }

  lemma SeesQuorum(cfg: Config, m: Machine, a: Answers) returns (m': Machine)
    requires m.step.WaitingForQuorumOnTransfer? && m.exec.ethRetries < cfg.maxEth && QuorumThere(a)
    ensures m' == Play(cfg, m, [a]) && m'.step.PerformingTransfer? && Went(m, m', [WaitingForQuorumOnTransfer])
    ensures m'.exec == m.exec.(ethRetries := m.exec.ethRetries + 1)
  {
    PlayOne(cfg, m, a);
    m' := After(m, WaitForQuorum(cfg, m.exec, a));
  }

  /** The leaders among these rounds submitted the transfer of `b`. */
  ghost predicate Submitting(cfg: Config, b: Batch, rounds: seq<Round>, attempt: seq<Call>) {
    forall k :: 0 <= k < |rounds| && rounds[k].perform.leader && rounds[k].perform.quorum.Ok? ==>
      var o := TransferOf(cfg, b, rounds[k].perform);
      o.Sent? && TransferSent(o.submission, o.reported) in attempt
  }

  lemma OneRound(cfg: Config, m: Machine, b: Batch, r: Round) returns (m': Machine)
    requires m.step.PerformingTransfer? && m.exec.batch == Some(b) && ExecutionAwaited(cfg, b, r.perform)
    ensures m' == Play(cfg, m, [r.perform, r.confirm]) && m'.step.PerformingTransfer? && m'.exec == m.exec
    ensures Went(m, m', [PerformingTransfer, WaitingTransferConfirmation]) && Submitting(cfg, b, [r], m'.attempt)
  {
    PlayConcat(cfg, m, [r.perform], [r.confirm]);
    PlayOne(cfg, m, r.perform);
    assert [r.perform] + [r.confirm] == [r.perform, r.confirm];
    var step := PerformTransfer(cfg, m.exec, r.perform);
    var m1 := After(m, step);
    PlayOne(cfg, m1, r.confirm);
    m' := After(m1, WaitConfirmation(m1.exec, r.confirm));
    if r.perform.leader {
      var o := TransferOf(cfg, b, r.perform);
      assert step.calls[|step.calls| - 1] == TransferSent(o.submission, o.reported);
    }
  }

  lemma SubmittingMore(cfg: Config, b: Batch, rounds: seq<Round>, r: Round, was: seq<Call>, now: seq<Call>)
    requires Submitting(cfg, b, rounds, was) && Keeps(was, now) && Submitting(cfg, b, [r], now)
    ensures Submitting(cfg, b, rounds + [r], now)
  {
    assert [r][0] == r;
  }

  /** The loop of steps four and five is not counted. */
  lemma {:induction false} AwaitsExecution(cfg: Config, m: Machine, b: Batch, rounds: seq<Round>) returns (m': Machine)
    requires m.step.PerformingTransfer? && m.exec.batch == Some(b)
    requires forall k :: 0 <= k < |rounds| ==> ExecutionAwaited(cfg, b, rounds[k].perform)
    ensures m' == Play(cfg, m, RoundsScript(rounds)) && m'.step.PerformingTransfer? && m'.exec == m.exec
    ensures Went(m, m', RoundsPath(|rounds|)) && Submitting(cfg, b, rounds, m'.attempt)
  {
    m' := m;
    if rounds != [] {
      var n := |rounds| - 1;
      var was := AwaitsExecution(cfg, m, b, rounds[..n]);
      PlayConcat(cfg, m, RoundsScript(rounds[..n]), [rounds[n].perform, rounds[n].confirm]);
      m' := OneRound(cfg, was, b, rounds[n]);
      WentOn(m, was, m', RoundsPath(n), [PerformingTransfer, WaitingTransferConfirmation]);
      SubmittingMore(cfg, b, rounds[..n], rounds[n], was.attempt, m'.attempt);
      TakeOneMore(rounds, n);
      assert rounds[..|rounds|] == rounds;
    }
  }

  lemma SeesExecution(cfg: Config, m: Machine, a: Answers) returns (m': Machine)
    requires m.step.PerformingTransfer? && m.exec.batch.Some? && a.ethExecuted == Ok(true)
    ensures m' == Play(cfg, m, [a]) && m'.step.ResolvingSetStatus? && Went(m, m', [PerformingTransfer])
    ensures m'.exec == m.exec
  {
    PlayOne(cfg, m, a);
    m' := After(m, PerformTransfer(cfg, m.exec, a));
  }

  // ---------------------------------------------------------------- the statuses

  /** The stored batch with the first statuses answered, resolved against the batch that is pending then. */
  function FinalBatch(b: Batch, a: Answers): Batch
    requires a.pending.Ok?
  {
    b.(statuses := Resolved(FinalStatuses(Polls(a.statuses)), |a.pending.value.statuses|))
  }

  predicate Resolves(a: Answers) {
    a.pending.Ok? && FinalStatuses(Polls(a.statuses)) != []
  }

  lemma ResolvesStatus(cfg: Config, m: Machine, b: Batch, a: Answers) returns (m': Machine)
    requires m.step.ResolvingSetStatus? && m.exec.batch == Some(b) && Resolves(a)
    ensures m' == Play(cfg, m, [a]) && m'.step.ProposingSetStatus? && Went(m, m', [ResolvingSetStatus])
    ensures m'.exec == m.exec.(batch := Some(FinalBatch(b, a)))
  {
    PlayOne(cfg, m, a);
    m' := After(m, ResolveStatus(m.exec, a));
  }

  lemma AwaitsProposalOnce(cfg: Config, m: Machine, a: Answers) returns (m': Machine)
    requires m.step.ProposingSetStatus? && m.exec.batch.Some? && m.exec.proposedRetries < cfg.maxProposed
    requires ProposalAwaited(a)
    ensures m' == Advance(cfg, m, a) && m'.step == m.step && Went(m, m', [m.step])
    ensures m'.exec == m.exec.(proposedRetries := m.exec.proposedRetries + 1)
  {
    m' := After(m, ProposeStatus(cfg, m.exec, a));
  }

  lemma {:induction false} AwaitsProposal(cfg: Config, m: Machine, waits: seq<Answers>) returns (m': Machine)
    requires m.step.ProposingSetStatus? && m.exec.batch.Some? && m.exec.proposedRetries + |waits| <= cfg.maxProposed
    requires forall k :: 0 <= k < |waits| ==> ProposalAwaited(waits[k])
    ensures m' == Play(cfg, m, waits) && m'.step.ProposingSetStatus?
    ensures Went(m, m', Repeated(ProposingSetStatus, |waits|))
    ensures m'.exec == m.exec.(proposedRetries := m.exec.proposedRetries + |waits|)
  {
    m' := m;
    if waits != [] {
      var n := |waits| - 1;
      var was := AwaitsProposal(cfg, m, waits[..n]);
      RepeatedAppend(ProposingSetStatus, n);
      m' := AwaitsProposalOnce(cfg, was, waits[n]);
      WentOn(m, was, m', Repeated(ProposingSetStatus, n), [ProposingSetStatus]);
    }
  }

  lemma SeesProposal(cfg: Config, m: Machine, b: Batch, a: Answers) returns (m': Machine)
    requires m.step.ProposingSetStatus? && m.exec.batch == Some(b) && m.exec.proposedRetries < cfg.maxProposed
    requires ProposalThere(a)
    ensures m' == Play(cfg, m, [a]) && m'.step.SigningProposedSetStatus? && Went(m, m', [ProposingSetStatus])
    ensures m'.exec == m.exec.(proposedRetries := m.exec.proposedRetries + 1)
    ensures a.proposed == Ok(false) ==> ProposalSent(SetStatusAction(b), a.sent) in m'.attempt
  {
    PlayOne(cfg, m, a);
    var r := ProposeStatus(cfg, m.exec, a);
    m' := After(m, r);
    if a.proposed == Ok(false) {
      assert r.calls[2] == ProposalSent(SetStatusAction(b), a.sent);
    }
  }

  lemma SignsAction(cfg: Config, m: Machine, a: Answers) returns (m': Machine)
    requires m.step.SigningProposedSetStatus? && m.exec.batch.Some? && NamedAndSigned(a)
    ensures m' == Play(cfg, m, [a]) && m'.step.WaitingForQuorumOnSetStatus? && Went(m, m', [SigningProposedSetStatus])
    ensures m'.exec == m.exec.(actionID := a.actionID.value)
    ensures a.signed == Ok(false) ==> SignatureSent(a.actionID.value, a.sent) in m'.attempt
  {
    PlayOne(cfg, m, a);
    var r := SignStatus(m.exec, a);
    m' := After(m, r);
    if a.signed == Ok(false) {
      assert r.calls[2] == SignatureSent(a.actionID.value, a.sent);
    }
  }

  lemma AwaitsStatusQuorumOnce(cfg: Config, m: Machine, a: Answers) returns (m': Machine)
    requires m.step.WaitingForQuorumOnSetStatus? && m.exec.elrondRetries < cfg.maxElrond && a.elrondQuorum == Ok(false)
    ensures m' == Advance(cfg, m, a) && m'.step == m.step && Went(m, m', [m.step])
    ensures m'.exec == m.exec.(elrondRetries := m.exec.elrondRetries + 1)
  {
    m' := After(m, WaitForStatusQuorum(cfg, m.exec, a));
  }

  lemma {:induction false} AwaitsStatusQuorum(cfg: Config, m: Machine, waits: seq<Answers>) returns (m': Machine)
    requires m.step.WaitingForQuorumOnSetStatus? && m.exec.elrondRetries + |waits| <= cfg.maxElrond
    requires forall k :: 0 <= k < |waits| ==> waits[k].elrondQuorum == Ok(false)
    ensures m' == Play(cfg, m, waits) && m'.step.WaitingForQuorumOnSetStatus?
    ensures Went(m, m', Repeated(WaitingForQuorumOnSetStatus, |waits|))
    ensures m'.exec == m.exec.(elrondRetries := m.exec.elrondRetries + |waits|)
  {
    m' := m;
    if waits != [] {
      var n := |waits| - 1;
      var was := AwaitsStatusQuorum(cfg, m, waits[..n]);
      RepeatedAppend(WaitingForQuorumOnSetStatus, n);
      m' := AwaitsStatusQuorumOnce(cfg, was, waits[n]);
      WentOn(m, was, m', Repeated(WaitingForQuorumOnSetStatus, n), [WaitingForQuorumOnSetStatus]);
    }
  }

  lemma SeesStatusQuorum(cfg: Config, m: Machine, a: Answers) returns (m': Machine)
    requires m.step.WaitingForQuorumOnSetStatus? && m.exec.elrondRetries < cfg.maxElrond && a.elrondQuorum == Ok(true)
    ensures m' == Play(cfg, m, [a]) && m'.step.PerformingSetStatus? && Went(m, m', [WaitingForQuorumOnSetStatus])
    ensures m'.exec == m.exec.(elrondRetries := m.exec.elrondRetries + 1)
  {
    PlayOne(cfg, m, a);
    m' := After(m, WaitForStatusQuorum(cfg, m.exec, a));
  }

  lemma AwaitsPerformOnce(cfg: Config, m: Machine, a: Answers) returns (m': Machine)
    requires m.step.PerformingSetStatus? && m.exec.batch.Some? && PerformAwaited(a)
    ensures m' == Advance(cfg, m, a) && m'.step == m.step && Went(m, m', [m.step]) && m'.exec == m.exec
    ensures a.leader ==> PerformSent(m.exec.actionID, a.sent) in m'.attempt
  {
    var r := PerformStatus(m.exec, a);
    m' := After(m, r);
    if a.leader {
      assert r.calls[2] == PerformSent(m.exec.actionID, a.sent);
    }
  }

  /** Step ten is not counted. */
  lemma {:induction false} AwaitsPerform(cfg: Config, m: Machine, waits: seq<Answers>) returns (m': Machine)
    requires m.step.PerformingSetStatus? && m.exec.batch.Some?
    requires forall k :: 0 <= k < |waits| ==> PerformAwaited(waits[k])
    ensures m' == Play(cfg, m, waits) && m'.step.PerformingSetStatus? && m'.exec == m.exec
    ensures Went(m, m', Repeated(PerformingSetStatus, |waits|)) && Performing(m.exec.actionID, waits, m'.attempt)
  {
    m' := m;
    if waits != [] {
      var n := |waits| - 1;
      var was := AwaitsPerform(cfg, m, waits[..n]);
      RepeatedAppend(PerformingSetStatus, n);
      m' := AwaitsPerformOnce(cfg, was, waits[n]);
      WentOn(m, was, m', Repeated(PerformingSetStatus, n), [PerformingSetStatus]);
      PerformingMore(m.exec.actionID, waits[..n], waits[n], was.attempt, m'.attempt);
      TakeOneMore(waits, n);
      assert waits[..|waits|] == waits;
    }
  }

  lemma SeesPerformed(cfg: Config, m: Machine, a: Answers) returns (m': Machine)
    requires m.step.PerformingSetStatus? && a.performed == Ok(true)
    ensures m' == Play(cfg, m, [a]) && m'.step.GettingPendingBatch? && Went(m, m', [PerformingSetStatus])
  {
    PlayOne(cfg, m, a);
    m' := After(m, PerformStatus(m.exec, a));
  }

  // ---------------------------------------------------------------- the whole attempt

  /** The answers until the transfer is seen executed; if it is at once, the rest is skipped. */
  datatype TransferScript =
    | AlreadyExecuted(fetch: Answers)
    | Transferred(fetch: Answers, sign: Answers, waits: seq<Answers>, quorum: Answers, rounds: seq<Round>, executed: Answers)

  /** The answers from there on. */
  datatype StatusScript = StatusScript(
    resolve: Answers, proposing: seq<Answers>, proposed: Answers, named: Answers,
    waits: seq<Answers>, quorum: Answers, performing: seq<Answers>, performed: Answers)

  function TransferAnswersOf(s: TransferScript): seq<Answers> {
    match s
    case AlreadyExecuted(fetch) => [fetch]
    case Transferred(fetch, sign, waits, quorum, rounds, executed) =>
      [fetch] + [sign] + waits + [quorum] + RoundsScript(rounds) + [executed]
  }

  function TransferPath(s: TransferScript): seq<Id> {
    match s
    case AlreadyExecuted(_) => [GettingPendingBatch]
    case Transferred(_, _, waits, _, rounds, _) =>
      [GettingPendingBatch] + [SigningProposedTransfer] + Repeated(WaitingForQuorumOnTransfer, |waits|)
      + [WaitingForQuorumOnTransfer] + RoundsPath(|rounds|) + [PerformingTransfer]
  }

  /** A valid pending batch; if it is not executed, a hash, a quorum in time, and in the end its execution. */
  ghost predicate LetsTransfer(cfg: Config, s: TransferScript) {
    && s.fetch.pending.Ok? && s.fetch.valid == Ok(true) && s.fetch.ethExecuted == Ok(s.AlreadyExecuted?)
    && (s.Transferred? ==>
          && MessageHash(cfg.hashing, s.fetch.pending.value).Ok?
          && |s.waits| < cfg.maxEth && (forall k :: 0 <= k < |s.waits| ==> QuorumAwaited(s.waits[k])) && QuorumThere(s.quorum)
          && (forall k :: 0 <= k < |s.rounds| ==> ExecutionAwaited(cfg, s.fetch.pending.value, s.rounds[k].perform))
          && s.executed.ethExecuted == Ok(true))
  }

  function NamingAnswers(s: StatusScript): seq<Answers> {
    [s.resolve] + s.proposing + [s.proposed] + [s.named]
  }

  function PerformingAnswers(s: StatusScript): seq<Answers> {
    s.waits + [s.quorum] + s.performing + [s.performed]
  }

  function StatusAnswersOf(s: StatusScript): seq<Answers> {
    NamingAnswers(s) + PerformingAnswers(s)
  }

  function NamingPath(s: StatusScript): seq<Id> {
    [ResolvingSetStatus] + Repeated(ProposingSetStatus, |s.proposing|) + [ProposingSetStatus] + [SigningProposedSetStatus]
  }

  function PerformingPath(s: StatusScript): seq<Id> {
    Repeated(WaitingForQuorumOnSetStatus, |s.waits|) + [WaitingForQuorumOnSetStatus]
    + Repeated(PerformingSetStatus, |s.performing|) + [PerformingSetStatus]
  }

  function StatusPath(s: StatusScript): seq<Id> {
    NamingPath(s) + PerformingPath(s)
  }

  /** Final statuses, a proposal and a quorum in time, and in the end the action performed. */
  ghost predicate LetsSettle(cfg: Config, s: StatusScript) {
    && Resolves(s.resolve)
    && |s.proposing| < cfg.maxProposed && (forall k :: 0 <= k < |s.proposing| ==> ProposalAwaited(s.proposing[k]))
    && ProposalThere(s.proposed) && NamedAndSigned(s.named)
    && |s.waits| < cfg.maxElrond && (forall k :: 0 <= k < |s.waits| ==> s.waits[k].elrondQuorum == Ok(false))
    && s.quorum.elrondQuorum == Ok(true)
    && (forall k :: 0 <= k < |s.performing| ==> PerformAwaited(s.performing[k])) && s.performed.performed == Ok(true)
  }

  /** What is sent on the way: the signature on the transfer by everyone, the transfer by a leader. */
  ghost predicate TransferOnRecord(cfg: Config, s: TransferScript, attempt: seq<Call>)
    requires LetsTransfer(cfg, s)
  {
    s.Transferred? ==>
      && SignatureBroadcast(MessageHash(cfg.hashing, s.fetch.pending.value).value) in attempt
      && Submitting(cfg, s.fetch.pending.value, s.rounds, attempt)
  }

  /** The proposal by a leader, unless it is there; the signature, unless it is there; the perform by a leader. */
  ghost predicate StatusOnRecord(b: Batch, s: StatusScript, attempt: seq<Call>)
    requires Resolves(s.resolve) && s.named.actionID.Ok?
  {
    && (s.proposed.proposed == Ok(false) ==>
          ProposalSent(SetStatusAction(FinalBatch(b, s.resolve)), s.proposed.sent) in attempt)
    && (s.named.signed == Ok(false) ==> SignatureSent(s.named.actionID.value, s.named.sent) in attempt)
    && Performing(s.named.actionID.value, s.performing, attempt)
  }

  lemma TransferCompletes(cfg: Config, m: Machine, s: TransferScript) returns (m': Machine)
    requires m.step.GettingPendingBatch? && LetsTransfer(cfg, s)
    ensures m' == Play(cfg, m, TransferAnswersOf(s)) && m'.step.ResolvingSetStatus? && m'.path == TransferPath(s)
    ensures m'.exec.batch == Some(s.fetch.pending.value) && m'.exec.elrondRetries == 0 && m'.exec.proposedRetries == 0
    ensures TransferOnRecord(cfg, s, m'.attempt)
  {
    var b := s.fetch.pending.value;
    var m1 := Fetches(cfg, m, s.fetch);
    if s.AlreadyExecuted? {
      m' := m1;
    } else {
      var m2 := Signs(cfg, m1, s.sign, MessageHash(cfg.hashing, b).value);
      PlayConcat(cfg, m, [s.fetch], [s.sign]);
      var m3 := AwaitsQuorum(cfg, m2, s.waits);
      PlayConcat(cfg, m, [s.fetch] + [s.sign], s.waits);
      var m4 := SeesQuorum(cfg, m3, s.quorum);
      PlayConcat(cfg, m, [s.fetch] + [s.sign] + s.waits, [s.quorum]);
      var m5 := AwaitsExecution(cfg, m4, b, s.rounds);
      PlayConcat(cfg, m, [s.fetch] + [s.sign] + s.waits + [s.quorum], RoundsScript(s.rounds));
      m' := SeesExecution(cfg, m5, s.executed);
      PlayConcat(cfg, m, [s.fetch] + [s.sign] + s.waits + [s.quorum] + RoundsScript(s.rounds), [s.executed]);
    }
  }

  lemma StatusNamed(cfg: Config, m: Machine, b: Batch, s: StatusScript) returns (m': Machine)
    requires m.step.ResolvingSetStatus? && m.exec.batch == Some(b) && LetsSettle(cfg, s)
    requires m.exec.elrondRetries == 0 && m.exec.proposedRetries == 0
    ensures m' == Play(cfg, m, NamingAnswers(s)) && Went(m, m', NamingPath(s))
    ensures m'.step.WaitingForQuorumOnSetStatus? && m'.exec.batch.Some?
    ensures m'.exec.actionID == s.named.actionID.value && m'.exec.elrondRetries == 0
    ensures StatusOnRecord(b, s.(performing := []), m'.attempt)
  {
    var m1 := ResolvesStatus(cfg, m, b, s.resolve);
    var m2 := AwaitsProposal(cfg, m1, s.proposing);
    PlayConcat(cfg, m, [s.resolve], s.proposing);
    var m3 := SeesProposal(cfg, m2, FinalBatch(b, s.resolve), s.proposed);
    PlayConcat(cfg, m, [s.resolve] + s.proposing, [s.proposed]);
    m' := SignsAction(cfg, m3, s.named);
    PlayConcat(cfg, m, [s.resolve] + s.proposing + [s.proposed], [s.named]);
  }

  lemma StatusPerformed(cfg: Config, m: Machine, s: StatusScript) returns (m': Machine)
    requires m.step.WaitingForQuorumOnSetStatus? && m.exec.batch.Some? && m.exec.elrondRetries == 0 && LetsSettle(cfg, s)
    ensures m' == Play(cfg, m, PerformingAnswers(s)) && m'.step.GettingPendingBatch? && Went(m, m', PerformingPath(s))
    ensures Performing(m.exec.actionID, s.performing, m'.attempt)
  {
    var m5 := AwaitsStatusQuorum(cfg, m, s.waits);
    var m6 := SeesStatusQuorum(cfg, m5, s.quorum);
    PlayConcat(cfg, m, s.waits, [s.quorum]);
    var m7 := AwaitsPerform(cfg, m6, s.performing);
    PlayConcat(cfg, m, s.waits + [s.quorum], s.performing);
    m' := SeesPerformed(cfg, m7, s.performed);
    PlayConcat(cfg, m, s.waits + [s.quorum] + s.performing, [s.performed]);
  }

  lemma StatusCompletes(cfg: Config, m: Machine, b: Batch, s: StatusScript) returns (m': Machine)
    requires m.step.ResolvingSetStatus? && m.exec.batch == Some(b) && LetsSettle(cfg, s)
    requires m.exec.elrondRetries == 0 && m.exec.proposedRetries == 0
    ensures m' == Play(cfg, m, StatusAnswersOf(s)) && m'.step.GettingPendingBatch? && Went(m, m', StatusPath(s))
    ensures StatusOnRecord(b, s, m'.attempt)
  {
    var m4 := StatusNamed(cfg, m, b, s);
    m' := StatusPerformed(cfg, m4, s);
    PlayConcat(cfg, m, NamingAnswers(s), PerformingAnswers(s));
    WentOn(m, m4, m', NamingPath(s), PerformingPath(s));
  }

  /**
   * Any run at the first step completes a whole attempt, through every step and with every transaction that
   * is its own to send: after up to `maxEth - 1` unreached quorums, up to `maxProposed - 1` missing proposals
   * and up to `maxElrond - 1` unreached status quorums, any number of rounds until the transfer is executed
   * and until the statuses are performed, leading or not; each wait is one visit more.
   */
  lemma ToEthAttemptCompletes(cfg: Config, before: seq<Answers>, t: TransferScript, s: StatusScript)
    requires Run(cfg, before).step.GettingPendingBatch? && LetsTransfer(cfg, t) && LetsSettle(cfg, s)
    ensures var m := Run(cfg, before + TransferAnswersOf(t) + StatusAnswersOf(s));
            && m.step.GettingPendingBatch? && m.path == TransferPath(t) + StatusPath(s)
            && TransferOnRecord(cfg, t, m.attempt) && StatusOnRecord(t.fetch.pending.value, s, m.attempt)
  {
    RunIsPlayed(cfg, before);
    RunIsPlayed(cfg, before + TransferAnswersOf(t) + StatusAnswersOf(s));
    PlayConcat(cfg, START, before, TransferAnswersOf(t));
    PlayConcat(cfg, START, before + TransferAnswersOf(t), StatusAnswersOf(s));
    var m1 := TransferCompletes(cfg, Run(cfg, before), t);
    var m2 := StatusCompletes(cfg, m1, t.fetch.pending.value, s);
  }
}

/**
 * With answers that let it, an attempt of the Ethereum to Elrond machine completes: however often its
 * steps are told to wait, up to the maximum where it is counted, and whoever leads.
 */
module ToElrondProgress {
  import opened Base
  import opened Batches
  import opened Protocol
  import opened ToElrond
  import opened ToElrondRuns

  /** The machine after a script of answers. */
  function Play(cfg: Config, m: Machine, script: seq<Answers>): Machine {
    if script == [] then m else Advance(cfg, Play(cfg, m, script[..|script| - 1]), script[|script| - 1])
  }

  lemma {:induction false} PlayConcat(cfg: Config, m: Machine, s: seq<Answers>, t: seq<Answers>)
    ensures Play(cfg, m, s + t) == Play(cfg, Play(cfg, m, s), t)
    decreases |t|
  {
    if t == [] {
      assert s + t == s;
    } else {
      PlayConcat(cfg, m, s, t[..|t| - 1]);
      assert (s + t)[..|s + t| - 1] == s + t[..|t| - 1];
    }
  }

  lemma PlayOne(cfg: Config, m: Machine, a: Answers)
    ensures Play(cfg, m, [a]) == Advance(cfg, m, a)
  {
    assert [a][..0] == [];
  }

  lemma {:induction false} RunIsPlayed(cfg: Config, answers: seq<Answers>)
    ensures Run(cfg, answers) == Play(cfg, START, answers)
  {
    if answers != [] {
      RunIsPlayed(cfg, answers[..|answers| - 1]);
    }
  }

  /** From `was` to `now` the machine went through these steps, and nothing was lost from its record. */
  ghost predicate Went(was: Machine, now: Machine, path: seq<Id>) {
    now.path == was.path + path && Keeps(was.attempt, now.attempt)
  }

  lemma WentOn(a: Machine, b: Machine, c: Machine, p: seq<Id>, q: seq<Id>)
    requires Went(a, b, p) && Went(b, c, q)
    ensures Went(a, c, p + q)
  {
  }

  // ---------------------------------------------------------------- step by step

  /** The batch that follows the last executed one, valid, with the nonces that follow. */
  predicate NextBatchThere(a: Answers) {
    && a.lastBatchID.Ok? && a.lastNonce.Ok? && a.ethBatch.Ok? && a.valid == Ok(true)
    && a.ethBatch.value.id == NextBatchID(a.lastBatchID.value) && a.ethBatch.value.deposits != []
    && NoncesFollow(a.ethBatch.value.deposits, a.lastNonce.value)
  }

  lemma Fetches(cfg: Config, m: Machine, a: Answers) returns (m': Machine)
    requires m.step.GettingPendingBatch? && NextBatchThere(a)
    ensures m' == Play(cfg, m, [a]) && m'.step.ProposingTransfer? && m'.path == [GettingPendingBatch]
    ensures m'.exec == m.exec.(batch := Some(a.ethBatch.value), elrondRetries := 0)
  {
    PlayOne(cfg, m, a);
    m' := After(m, GetPending(m.exec, a));
  }

  lemma AwaitsProposalOnce(cfg: Config, m: Machine, a: Answers) returns (m': Machine)
    requires m.step.ProposingTransfer? && m.exec.batch.Some? && ProposalAwaited(a)
    ensures m' == Advance(cfg, m, a) && m'.step == m.step && Went(m, m', [m.step]) && m'.exec == m.exec
  {
    m' := After(m, ProposeTransfer(m.exec, a));
  }

  /** This half does not count how often it waits for a proposal. */
  lemma {:induction false} AwaitsProposal(cfg: Config, m: Machine, waits: seq<Answers>) returns (m': Machine)
    requires m.step.ProposingTransfer? && m.exec.batch.Some?
    requires forall k :: 0 <= k < |waits| ==> ProposalAwaited(waits[k])
    ensures m' == Play(cfg, m, waits) && m'.step.ProposingTransfer? && m'.exec == m.exec
    ensures Went(m, m', Repeated(ProposingTransfer, |waits|))
  {
    m' := m;
    if waits != [] {
      var n := |waits| - 1;
      var was := AwaitsProposal(cfg, m, waits[..n]);
      RepeatedAppend(ProposingTransfer, n);
      m' := AwaitsProposalOnce(cfg, was, waits[n]);
      WentOn(m, was, m', Repeated(ProposingTransfer, n), [ProposingTransfer]);
    }
  }

  lemma SeesProposal(cfg: Config, m: Machine, b: Batch, a: Answers) returns (m': Machine)
    requires m.step.ProposingTransfer? && m.exec.batch == Some(b) && ProposalThere(a)
    ensures m' == Play(cfg, m, [a]) && m'.step.SigningProposedTransfer? && Went(m, m', [ProposingTransfer])
    ensures m'.exec == m.exec
    ensures a.proposed == Ok(false) ==> ProposalSent(TransferAction(b), a.sent) in m'.attempt
  {
    PlayOne(cfg, m, a);
    var r := ProposeTransfer(m.exec, a);
    m' := After(m, r);
    if a.proposed == Ok(false) {
      assert r.calls[2] == ProposalSent(TransferAction(b), a.sent);
    }
  }

  lemma SignsAction(cfg: Config, m: Machine, a: Answers) returns (m': Machine)
    requires m.step.SigningProposedTransfer? && m.exec.batch.Some? && NamedAndSigned(a)
    ensures m' == Play(cfg, m, [a]) && m'.step.WaitingForQuorum? && Went(m, m', [SigningProposedTransfer])
    ensures m'.exec == m.exec.(actionID := a.actionID.value)
    ensures a.signed == Ok(false) ==> SignatureSent(a.actionID.value, a.sent) in m'.attempt
  {
    PlayOne(cfg, m, a);
    var r := SignTransfer(m.exec, a);
    m' := After(m, r);
    if a.signed == Ok(false) {
      assert r.calls[2] == SignatureSent(a.actionID.value, a.sent);
    }
  }

  lemma AwaitsQuorumOnce(cfg: Config, m: Machine, a: Answers) returns (m': Machine)
    requires m.step.WaitingForQuorum? && m.exec.elrondRetries < cfg.maxElrond && a.elrondQuorum == Ok(false)
    ensures m' == Advance(cfg, m, a) && m'.step == m.step && Went(m, m', [m.step])
    ensures m'.exec == m.exec.(elrondRetries := m.exec.elrondRetries + 1)
  {
    m' := After(m, WaitForQuorum(cfg, m.exec, a));
  }

  lemma {:induction false} AwaitsQuorum(cfg: Config, m: Machine, waits: seq<Answers>) returns (m': Machine)
    requires m.step.WaitingForQuorum? && m.exec.elrondRetries + |waits| <= cfg.maxElrond
    requires forall k :: 0 <= k < |waits| ==> waits[k].elrondQuorum == Ok(false)
    ensures m' == Play(cfg, m, waits) && m'.step.WaitingForQuorum?
    ensures Went(m, m', Repeated(WaitingForQuorum, |waits|))
    ensures m'.exec == m.exec.(elrondRetries := m.exec.elrondRetries + |waits|)
  {
    m' := m;
    if waits != [] {
      var n := |waits| - 1;
      var was := AwaitsQuorum(cfg, m, waits[..n]);
      RepeatedAppend(WaitingForQuorum, n);
      m' := AwaitsQuorumOnce(cfg, was, waits[n]);
      WentOn(m, was, m', Repeated(WaitingForQuorum, n), [WaitingForQuorum]);
    }
  }

  lemma SeesQuorum(cfg: Config, m: Machine, a: Answers) returns (m': Machine)
    requires m.step.WaitingForQuorum? && m.exec.elrondRetries < cfg.maxElrond && a.elrondQuorum == Ok(true)
    ensures m' == Play(cfg, m, [a]) && m'.step.PerformingActionID? && Went(m, m', [WaitingForQuorum])
    ensures m'.exec == m.exec.(elrondRetries := m.exec.elrondRetries + 1)
  {
    PlayOne(cfg, m, a);
    m' := After(m, WaitForQuorum(cfg, m.exec, a));
  }

  lemma AwaitsPerformOnce(cfg: Config, m: Machine, a: Answers) returns (m': Machine)
    requires m.step.PerformingActionID? && m.exec.batch.Some? && PerformAwaited(a)
    ensures m' == Advance(cfg, m, a) && m'.step == m.step && Went(m, m', [m.step]) && m'.exec == m.exec
    ensures a.leader ==> PerformSent(m.exec.actionID, a.sent) in m'.attempt
  {
    var r := PerformAction(m.exec, a);
    m' := After(m, r);
    if a.leader {
      assert r.calls[2] == PerformSent(m.exec.actionID, a.sent);
    }
  }

  /** Nor how often it waits for the perform. */
  lemma {:induction false} AwaitsPerform(cfg: Config, m: Machine, waits: seq<Answers>) returns (m': Machine)
    requires m.step.PerformingActionID? && m.exec.batch.Some?
    requires forall k :: 0 <= k < |waits| ==> PerformAwaited(waits[k])
    ensures m' == Play(cfg, m, waits) && m'.step.PerformingActionID? && m'.exec == m.exec
    ensures Went(m, m', Repeated(PerformingActionID, |waits|)) && Performing(m.exec.actionID, waits, m'.attempt)
  {
    m' := m;
    if waits != [] {
      var n := |waits| - 1;
      var was := AwaitsPerform(cfg, m, waits[..n]);
      RepeatedAppend(PerformingActionID, n);
      m' := AwaitsPerformOnce(cfg, was, waits[n]);
      WentOn(m, was, m', Repeated(PerformingActionID, n), [PerformingActionID]);
      PerformingMore(m.exec.actionID, waits[..n], waits[n], was.attempt, m'.attempt);
      TakeOneMore(waits, n);
      assert waits[..|waits|] == waits;
    }
  }

  lemma SeesPerformed(cfg: Config, m: Machine, a: Answers) returns (m': Machine)
    requires m.step.PerformingActionID? && a.performed == Ok(true)
    ensures m' == Play(cfg, m, [a]) && m'.step.GettingPendingBatch? && Went(m, m', [PerformingActionID])
  {
    PlayOne(cfg, m, a);
    m' := After(m, PerformAction(m.exec, a));
  }

  // ---------------------------------------------------------------- the whole attempt

  /** The answers of one attempt. */
  datatype Script = Script(
    fetch: Answers, proposing: seq<Answers>, proposed: Answers, named: Answers,
    waits: seq<Answers>, quorum: Answers, performing: seq<Answers>, performed: Answers)

  function NamingAnswers(s: Script): seq<Answers> {
    [s.fetch] + s.proposing + [s.proposed] + [s.named]
  }

  function PerformingAnswers(s: Script): seq<Answers> {
    s.waits + [s.quorum] + s.performing + [s.performed]
  }

  function AnswersOf(s: Script): seq<Answers> {
    NamingAnswers(s) + PerformingAnswers(s)
  }

  function NamingPath(s: Script): seq<Id> {
    [GettingPendingBatch] + Repeated(ProposingTransfer, |s.proposing|) + [ProposingTransfer] + [SigningProposedTransfer]
  }

  function PerformingPath(s: Script): seq<Id> {
    Repeated(WaitingForQuorum, |s.waits|) + [WaitingForQuorum] + Repeated(PerformingActionID, |s.performing|)
    + [PerformingActionID]
  }

  /** The next batch, a proposal, a quorum in time, and in the end the action performed. */
  ghost predicate LetsPerform(cfg: Config, s: Script) {
    && NextBatchThere(s.fetch)
    && (forall k :: 0 <= k < |s.proposing| ==> ProposalAwaited(s.proposing[k]))
    && ProposalThere(s.proposed) && NamedAndSigned(s.named)
    && |s.waits| < cfg.maxElrond && (forall k :: 0 <= k < |s.waits| ==> s.waits[k].elrondQuorum == Ok(false))
    && s.quorum.elrondQuorum == Ok(true)
    && (forall k :: 0 <= k < |s.performing| ==> PerformAwaited(s.performing[k])) && s.performed.performed == Ok(true)
  }

  /** The proposal by a leader, unless it is there; the signature, unless it is there; the perform by a leader. */
  ghost predicate OnRecord(s: Script, attempt: seq<Call>)
    requires s.fetch.ethBatch.Ok? && s.named.actionID.Ok?
  {
    && (s.proposed.proposed == Ok(false) ==>
          ProposalSent(TransferAction(s.fetch.ethBatch.value), s.proposed.sent) in attempt)
    && (s.named.signed == Ok(false) ==> SignatureSent(s.named.actionID.value, s.named.sent) in attempt)
    && Performing(s.named.actionID.value, s.performing, attempt)
  }

  lemma TransferNamed(cfg: Config, m: Machine, s: Script) returns (m': Machine)
    requires m.step.GettingPendingBatch? && LetsPerform(cfg, s)
    ensures m' == Play(cfg, m, NamingAnswers(s)) && m'.path == NamingPath(s)
    ensures m'.step.WaitingForQuorum? && m'.exec.batch.Some?
    ensures m'.exec.actionID == s.named.actionID.value && m'.exec.elrondRetries == 0
    ensures OnRecord(s.(performing := []), m'.attempt)
  {
    var m1 := Fetches(cfg, m, s.fetch);
    var m2 := AwaitsProposal(cfg, m1, s.proposing);
    PlayConcat(cfg, m, [s.fetch], s.proposing);
    var m3 := SeesProposal(cfg, m2, s.fetch.ethBatch.value, s.proposed);
    PlayConcat(cfg, m, [s.fetch] + s.proposing, [s.proposed]);
    m' := SignsAction(cfg, m3, s.named);
    PlayConcat(cfg, m, [s.fetch] + s.proposing + [s.proposed], [s.named]);
  }

  lemma TransferPerformed(cfg: Config, m: Machine, s: Script) returns (m': Machine)
    requires m.step.WaitingForQuorum? && m.exec.batch.Some? && m.exec.elrondRetries == 0 && LetsPerform(cfg, s)
    ensures m' == Play(cfg, m, PerformingAnswers(s)) && m'.step.GettingPendingBatch? && Went(m, m', PerformingPath(s))
    ensures Performing(m.exec.actionID, s.performing, m'.attempt)
  {
    var m5 := AwaitsQuorum(cfg, m, s.waits);
    var m6 := SeesQuorum(cfg, m5, s.quorum);
    PlayConcat(cfg, m, s.waits, [s.quorum]);
    var m7 := AwaitsPerform(cfg, m6, s.performing);
    PlayConcat(cfg, m, s.waits + [s.quorum], s.performing);
    m' := SeesPerformed(cfg, m7, s.performed);
    PlayConcat(cfg, m, s.waits + [s.quorum] + s.performing, [s.performed]);
  }

  /**
   * Any run at the first step completes a whole attempt, through every step and with every transaction that
   * is its own to send: after any number of missing proposals and up to `maxElrond - 1` unreached quorums,
   * and any number of looks until the action is performed, leading or not; each wait is one visit more.
   */
  lemma ToElrondAttemptCompletes(cfg: Config, before: seq<Answers>, s: Script)
    requires Run(cfg, before).step.GettingPendingBatch? && LetsPerform(cfg, s)
    ensures var m := Run(cfg, before + AnswersOf(s));
            && m.step.GettingPendingBatch? && m.path == NamingPath(s) + PerformingPath(s) && OnRecord(s, m.attempt)
  {
    RunIsPlayed(cfg, before);
    RunIsPlayed(cfg, before + AnswersOf(s));
    PlayConcat(cfg, START, before, AnswersOf(s));
    var m0 := Run(cfg, before);
    PlayConcat(cfg, m0, NamingAnswers(s), PerformingAnswers(s));
    var m1 := TransferNamed(cfg, m0, s);
    var m2 := TransferPerformed(cfg, m1, s);
  }
}

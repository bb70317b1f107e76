/** How long an attempt of the Ethereum to Elrond machine can take. */
module ToElrondBounds {
  import opened Base
  import opened Protocol
  import opened ToElrond
  import opened ToElrondRuns

  /** Visits of the steps and questions asked in an attempt so far; giving up takes one visit more. */
  ghost predicate WithinBudget(cfg: Config, m: Machine) {
    var gaveUp := if m.step.GettingPendingBatch? then 1 else 0;
    && m.exec.elrondRetries <= cfg.maxElrond
    && Asked(m.attempt, IsElrondQuorumAsked) <= m.exec.elrondRetries
    && Count(m.path, GettingPendingBatch) <= 1
    && Count(m.path, WaitingForQuorum) <= m.exec.elrondRetries + gaveUp
    && Count(m.path, SigningProposedTransfer) <=
         (if m.step.GettingPendingBatch? || m.step.WaitingForQuorum? || m.step.PerformingActionID? then 1 else 0)
  }

  /** How one execution of a step counts: what `r` may be when step `id` is executed in state `x`. */
  ghost predicate Counts(cfg: Config, id: Id, x: ExecState, r: Step) {
    && (r.next.SigningProposedTransfer? ==> id.ProposingTransfer?)
    && (r.next.ProposingTransfer? ==> id.GettingPendingBatch? || id.ProposingTransfer?)
    && (id.WaitingForQuorum? && x.elrondRetries >= cfg.maxElrond ==> r.next.GettingPendingBatch?)
    && r.state.elrondRetries == if id.GettingPendingBatch? then 0
                                else if id.WaitingForQuorum? && x.elrondRetries < cfg.maxElrond then x.elrondRetries + 1
                                else x.elrondRetries
  }

  lemma ExecuteCounts(cfg: Config, id: Id, x: ExecState, a: Answers)
    ensures Counts(cfg, id, x, Execute(cfg, id, x, a))
  {
  }

  lemma ElrondQuorumAskedByStep(cfg: Config, id: Id, x: ExecState, a: Answers)
    ensures Asked(Execute(cfg, id, x, a).calls, IsElrondQuorumAsked) <=
            if id.WaitingForQuorum? && x.elrondRetries < cfg.maxElrond then 1 else 0
  {
    var calls := Execute(cfg, id, x, a).calls;
    if id.WaitingForQuorum? {
      AtMostOne(calls, IsElrondQuorumAsked);
    } else {
      forall c | c in calls ensures !IsElrondQuorumAsked(c) {
        CallsByStep(cfg, id, x, a, c);
      }
      AskedNone(calls, IsElrondQuorumAsked);
    }
  }

  lemma BudgetKept(cfg: Config, m: Machine, r: Step)
    requires WithinBudget(cfg, m) && Counts(cfg, m.step, m.exec, r)
    requires Asked(r.calls, IsElrondQuorumAsked) <=
             if m.step.WaitingForQuorum? && m.exec.elrondRetries < cfg.maxElrond then 1 else 0
    ensures WithinBudget(cfg, After(m, r))
  {
    AskedConcat(if m.step.GettingPendingBatch? then [] else m.attempt, r.calls, IsElrondQuorumAsked);
    var path := if m.step.GettingPendingBatch? then [] else m.path;
    CountAppend(path, m.step, GettingPendingBatch);
    CountAppend(path, m.step, WaitingForQuorum);
    CountAppend(path, m.step, SigningProposedTransfer);
  }

  lemma AdvanceWithinBudget(cfg: Config, m: Machine, a: Answers)
    requires WithinBudget(cfg, m)
    ensures WithinBudget(cfg, Advance(cfg, m, a))
  {
    ExecuteCounts(cfg, m.step, m.exec, a);
    ElrondQuorumAskedByStep(cfg, m.step, m.exec, a);
    BudgetKept(cfg, m, Execute(cfg, m.step, m.exec, a));
  }

  lemma {:induction false} RunWithinBudget(cfg: Config, answers: seq<Answers>)
    ensures WithinBudget(cfg, Run(cfg, answers))
  {
    if answers != [] {
      RunWithinBudget(cfg, answers[..|answers| - 1]);
      AdvanceWithinBudget(cfg, Run(cfg, answers[..|answers| - 1]), answers[|answers| - 1]);
    }
  }

  lemma {:induction false} LengthIsSumOfVisits(path: seq<Id>)
    ensures |path| == Count(path, GettingPendingBatch) + Count(path, ProposingTransfer)
                    + Count(path, SigningProposedTransfer) + Count(path, WaitingForQuorum) + Count(path, PerformingActionID)
  {
    if path != [] {
      LengthIsSumOfVisits(path[..|path| - 1]);
      var last := path[|path| - 1];
      assert last.GettingPendingBatch? || last.ProposingTransfer? || last.SigningProposedTransfer? ||
          last.WaitingForQuorum? || last.PerformingActionID?;
    }
  }

  /**
   * In every run: the quorum wait is executed at most max + 1 times per attempt and asks at most max
   * times; only waiting for a proposal and for the perform is not counted.
   */
  lemma AttemptIsBounded(cfg: Config, answers: seq<Answers>)
    ensures var m := Run(cfg, answers);
            && Count(m.path, WaitingForQuorum) <= cfg.maxElrond + 1
            && Asked(m.attempt, IsElrondQuorumAsked) <= cfg.maxElrond
            && |m.path| <= cfg.maxElrond + 3 + Count(m.path, ProposingTransfer) + Count(m.path, PerformingActionID)
  {
    RunWithinBudget(cfg, answers);
    LengthIsSumOfVisits(Run(cfg, answers).path);
  }
}

/** How long an attempt of the Elrond to Ethereum machine can take. */
module ToEthBounds {
  import opened Base
  import opened Protocol
  import opened ToEth
  import opened ToEthRuns

  /** The order in which an attempt passes through the steps; perform and confirm share a stage. */
  function Stage(id: Id): nat {
    match id
    case GettingPendingBatch => 0
    case SigningProposedTransfer => 1
    case WaitingForQuorumOnTransfer => 2
    case PerformingTransfer => 3
    case WaitingTransferConfirmation => 3
    case ResolvingSetStatus => 4
    case ProposingSetStatus => 5
    case SigningProposedSetStatus => 6
    case WaitingForQuorumOnSetStatus => 7
    case PerformingSetStatus => 8
  }

  /** The waiting and performing steps. */
  predicate Repeats(id: Id) {
    id.WaitingForQuorumOnTransfer? || id.PerformingTransfer? || id.WaitingTransferConfirmation?
    || id.ProposingSetStatus? || id.WaitingForQuorumOnSetStatus? || id.PerformingSetStatus?
  }

  predicate GoesOn(id: Id, next: Id) {
    || next.GettingPendingBatch?
    || Stage(id) < Stage(next)
    || (Stage(id) == Stage(next) && Repeats(id))
  }

  /** A step repeats itself, goes on, or gives up; only the waiting and performing stages repeat. */
  lemma StagesAdvance(cfg: Config, id: Id, s: ExecState, a: Answers)
    ensures GoesOn(id, Execute(cfg, id, s, a).next)
  {
  }

  /** Visits of the counted wait steps in an attempt so far; giving up takes one visit more. */
  ghost predicate CountedVisits(m: Machine) {
    var gaveUp := if m.step.GettingPendingBatch? then 1 else 0;
    && Count(m.path, WaitingForQuorumOnTransfer) <= m.exec.ethRetries + gaveUp
    && Count(m.path, ProposingSetStatus) <= m.exec.proposedRetries + gaveUp
    && Count(m.path, WaitingForQuorumOnSetStatus) <= m.exec.elrondRetries + gaveUp
  }

  /** Visits of the steps that are passed through once. */
  ghost predicate SingleVisits(m: Machine) {
    && Count(m.path, GettingPendingBatch) <= 1
    && Once(m, SigningProposedTransfer) && Once(m, ResolvingSetStatus) && Once(m, SigningProposedSetStatus)
  }

  ghost predicate Once(m: Machine, x: Id) {
    Count(m.path, x) <= if Passed(m.step, Stage(x)) then 1 else 0
  }

  ghost predicate WithinVisits(cfg: Config, m: Machine) {
    && m.exec.ethRetries <= cfg.maxEth && m.exec.elrondRetries <= cfg.maxElrond
    && m.exec.proposedRetries <= cfg.maxProposed
    && CountedVisits(m) && SingleVisits(m)
  }

  /** Questions asked in an attempt so far. */
  ghost predicate WithinQuestions(m: Machine) {
    && Asked(m.attempt, IsProposedAsked) <= m.exec.proposedRetries
    && Asked(m.attempt, IsElrondQuorumAsked) <= m.exec.elrondRetries
    && QuorumQuestions(m.attempt) <= m.exec.ethRetries
    && Asked(m.attempt, IsQuorumRead) <= m.exec.ethRetries + Count(m.path, PerformingTransfer)
  }

  /** How often the quorum was read right after a listing of signatures: the order that only step three has. */
  function QuorumQuestions(calls: seq<Call>): nat {
    if |calls| < 2 then 0
    else
      var n := |calls| - 1;
      QuorumQuestions(calls[..n]) + if calls[n - 1].SignaturesRead? && calls[n].QuorumRead? then 1 else 0
  }

  lemma {:induction false} QuorumQuestionsConcat(x: seq<Call>, y: seq<Call>)
    requires y != [] ==> !y[0].QuorumRead?
    ensures QuorumQuestions(x + y) == QuorumQuestions(x) + QuorumQuestions(y)
    decreases |y|
  {
    if y == [] {
      assert x + y == x;
    } else {
      var n := |y| - 1;
      QuorumQuestionsConcat(x, y[..n]);
      assert (x + y)[..|x + y| - 1] == x + y[..n];
      if n > 0 {
        assert (x + y)[|x + y| - 2] == y[n - 1];
      }
    }
  }

  lemma {:induction false} QuorumQuestionsNone(calls: seq<Call>)
    requires forall i :: 0 < i < |calls| ==> !(calls[i - 1].SignaturesRead? && calls[i].QuorumRead?)
    ensures QuorumQuestions(calls) == 0
  {
    if |calls| >= 2 {
      QuorumQuestionsNone(calls[..|calls| - 1]);
    }
  }

  ghost predicate WithinBudget(cfg: Config, m: Machine) {
    WithinVisits(cfg, m) && WithinQuestions(m)
  }

  ghost predicate Passed(id: Id, stage: nat) {
    id.GettingPendingBatch? || Stage(id) > stage
  }

  lemma ProposedAskedByStep(cfg: Config, id: Id, s: ExecState, a: Answers)
    ensures Asked(Execute(cfg, id, s, a).calls, IsProposedAsked) <=
            if id.ProposingSetStatus? && s.proposedRetries < cfg.maxProposed then 1 else 0
  {
    var calls := Execute(cfg, id, s, a).calls;
    if id.ProposingSetStatus? {
      AtMostOne(ProposeStatus(cfg, s, a).calls, IsProposedAsked);
    } else {
      forall c | c in calls ensures !IsProposedAsked(c) {
        CallsByStep(cfg, id, s, a, c);
      }
      AskedNone(calls, IsProposedAsked);
    }
  }

  lemma ElrondQuorumAskedByStep(cfg: Config, id: Id, s: ExecState, a: Answers)
    ensures Asked(Execute(cfg, id, s, a).calls, IsElrondQuorumAsked) <=
            if id.WaitingForQuorumOnSetStatus? && s.elrondRetries < cfg.maxElrond then 1 else 0
  {
    var calls := Execute(cfg, id, s, a).calls;
    if id.WaitingForQuorumOnSetStatus? {
      AtMostOne(WaitForStatusQuorum(cfg, s, a).calls, IsElrondQuorumAsked);
    } else {
      forall c | c in calls ensures !IsElrondQuorumAsked(c) {
        CallsByStep(cfg, id, s, a, c);
      }
      AskedNone(calls, IsElrondQuorumAsked);
    }
  }

  lemma QuorumReadByStep(cfg: Config, id: Id, s: ExecState, a: Answers)
    ensures Asked(Execute(cfg, id, s, a).calls, IsQuorumRead) <=
            if id.PerformingTransfer? || (id.WaitingForQuorumOnTransfer? && s.ethRetries < cfg.maxEth) then 1 else 0
  {
    var calls := Execute(cfg, id, s, a).calls;
    if id.PerformingTransfer? {
      AtMostOne(PerformTransfer(cfg, s, a).calls, IsQuorumRead);
    } else if id.WaitingForQuorumOnTransfer? {
      AtMostOne(WaitForQuorum(cfg, s, a).calls, IsQuorumRead);
    } else {
      forall c | c in calls ensures !IsQuorumRead(c) {
        CallsByStep(cfg, id, s, a, c);
      }
      AskedNone(calls, IsQuorumRead);
    }
  }

  lemma TransferAsksElsewhere(cfg: Config, s: ExecState, a: Answers)
    ensures var calls := PerformTransfer(cfg, s, a).calls;
            QuorumQuestions(calls) == 0 && (calls != [] ==> !calls[0].QuorumRead?)
  {
    QuorumQuestionsNone(PerformTransfer(cfg, s, a).calls);
  }

  lemma WaitingAsksOnce(cfg: Config, s: ExecState, a: Answers)
    ensures var calls := WaitForQuorum(cfg, s, a).calls;
            QuorumQuestions(calls) == (if s.ethRetries < cfg.maxEth then 1 else 0) &&
            (calls != [] ==> !calls[0].QuorumRead?)
  {
    var calls := WaitForQuorum(cfg, s, a).calls;
    if s.ethRetries < cfg.maxEth {
      assert calls == [SignaturesRead(s.msgHash, a.signatures), QuorumRead(a.quorum)];
    }
  }

  /** Step three asks once unless it gives up, and no other step asks in its order. */
  lemma QuorumQuestionsByStep(cfg: Config, id: Id, s: ExecState, a: Answers)
    ensures var calls := Execute(cfg, id, s, a).calls;
            && QuorumQuestions(calls) == (if id.WaitingForQuorumOnTransfer? && s.ethRetries < cfg.maxEth then 1 else 0)
            && (calls != [] ==> !calls[0].QuorumRead?)
  {
    match id
    case WaitingForQuorumOnTransfer => WaitingAsksOnce(cfg, s, a);
    case PerformingTransfer => TransferAsksElsewhere(cfg, s, a);
    case _ =>
      var calls := Execute(cfg, id, s, a).calls;
      forall k | 0 <= k < |calls| ensures !calls[k].QuorumRead? {
        CallsByStep(cfg, id, s, a, calls[k]);
      }
      QuorumQuestionsNone(calls);
  }

  /** How one execution of a step counts: what `r` may be when step `id` is executed in state `s`. */
  ghost predicate Counts(cfg: Config, id: Id, s: ExecState, r: Step) {
    && GoesOn(id, r.next)
    && r.state.ethRetries == Counted(id, WaitingForQuorumOnTransfer, s.ethRetries, cfg.maxEth)
    && r.state.proposedRetries == Counted(id, ProposingSetStatus, s.proposedRetries, cfg.maxProposed)
    && r.state.elrondRetries == Counted(id, WaitingForQuorumOnSetStatus, s.elrondRetries, cfg.maxElrond)
    && (id.WaitingForQuorumOnTransfer? && s.ethRetries >= cfg.maxEth ==> r.next.GettingPendingBatch?)
    && (id.ProposingSetStatus? && s.proposedRetries >= cfg.maxProposed ==> r.next.GettingPendingBatch?)
    && (id.WaitingForQuorumOnSetStatus? && s.elrondRetries >= cfg.maxElrond ==> r.next.GettingPendingBatch?)
  }

  /** A retry counter after step `id`: reset by step one, incremented by its own step up to its maximum. */
  function Counted(id: Id, own: Id, retries: nat, max: nat): nat {
    if id.GettingPendingBatch? then 0 else if id == own && retries < max then retries + 1 else retries
  }

  lemma ExecuteCounts(cfg: Config, id: Id, s: ExecState, a: Answers)
    requires s.batch.Some? || !id.ProposingSetStatus?
    ensures Counts(cfg, id, s, Execute(cfg, id, s, a))
  {
    StagesAdvance(cfg, id, s, a);
  }

  ghost predicate AskedWithin(cfg: Config, id: Id, s: ExecState, calls: seq<Call>) {
    && Asked(calls, IsProposedAsked) <= (if id.ProposingSetStatus? && s.proposedRetries < cfg.maxProposed then 1 else 0)
    && Asked(calls, IsElrondQuorumAsked) <= (if id.WaitingForQuorumOnSetStatus? && s.elrondRetries < cfg.maxElrond then 1 else 0)
    && Asked(calls, IsQuorumRead) <=
         (if id.PerformingTransfer? || (id.WaitingForQuorumOnTransfer? && s.ethRetries < cfg.maxEth) then 1 else 0)
    && QuorumQuestions(calls) <= (if id.WaitingForQuorumOnTransfer? && s.ethRetries < cfg.maxEth then 1 else 0)
    && (calls != [] ==> !calls[0].QuorumRead?)
  }

  lemma CountedVisitsKept(cfg: Config, m: Machine, r: Step)
    requires WithinVisits(cfg, m) && Counts(cfg, m.step, m.exec, r)
    ensures CountedVisits(After(m, r))
  {
    var path := if m.step.GettingPendingBatch? then [] else m.path;
    CountAppend(path, m.step, WaitingForQuorumOnTransfer);
    CountAppend(path, m.step, ProposingSetStatus);
    CountAppend(path, m.step, WaitingForQuorumOnSetStatus);
  }

  /** A step that does not repeat is behind the machine once it was executed. */
  lemma OnceKept(m: Machine, r: Step, x: Id)
    requires Once(m, x) && !Repeats(x) && !x.GettingPendingBatch?
    requires GoesOn(m.step, r.next)
    ensures Once(After(m, r), x)
  {
    var path := if m.step.GettingPendingBatch? then [] else m.path;
    CountAppend(path, m.step, x);
  }

  lemma StartedOnce(m: Machine, r: Step)
    requires Count(m.path, GettingPendingBatch) <= 1
    ensures Count(After(m, r).path, GettingPendingBatch) <= 1
  {
    if m.step.GettingPendingBatch? {
      CountAppend([], m.step, GettingPendingBatch);
    } else {
      CountAppend(m.path, m.step, GettingPendingBatch);
    }
  }

  lemma SingleVisitsKept(m: Machine, r: Step)
    requires SingleVisits(m) && GoesOn(m.step, r.next)
    ensures SingleVisits(After(m, r))
  {
    StartedOnce(m, r);
    OnceKept(m, r, SigningProposedTransfer);
    OnceKept(m, r, ResolvingSetStatus);
    OnceKept(m, r, SigningProposedSetStatus);
  }

  lemma VisitsKept(cfg: Config, m: Machine, r: Step)
    requires WithinVisits(cfg, m) && Counts(cfg, m.step, m.exec, r)
    ensures WithinVisits(cfg, After(m, r))
  {
    CountedVisitsKept(cfg, m, r);
    SingleVisitsKept(m, r);
  }

  lemma QuestionsKept(cfg: Config, m: Machine, r: Step)
    requires WithinQuestions(m) && Counts(cfg, m.step, m.exec, r) && AskedWithin(cfg, m.step, m.exec, r.calls)
    ensures WithinQuestions(After(m, r))
  {
    var first := m.step.GettingPendingBatch?;
    var attempt := if first then [] else m.attempt;
    CountAppend(if first then [] else m.path, m.step, PerformingTransfer);
    AskedConcat(attempt, r.calls, IsProposedAsked);
    AskedConcat(attempt, r.calls, IsElrondQuorumAsked);
    AskedConcat(attempt, r.calls, IsQuorumRead);
    QuorumQuestionsConcat(attempt, r.calls);
  }

  lemma AdvanceWithinBudget(cfg: Config, m: Machine, a: Answers, d: Dossier)
    requires WithinBudget(cfg, m) && Evidence(cfg, m, d)
    ensures WithinBudget(cfg, Advance(cfg, m, a))
  {
    var r := Execute(cfg, m.step, m.exec, a);
    ExecuteCounts(cfg, m.step, m.exec, a);
    ProposedAskedByStep(cfg, m.step, m.exec, a);
    ElrondQuorumAskedByStep(cfg, m.step, m.exec, a);
    QuorumReadByStep(cfg, m.step, m.exec, a);
    QuorumQuestionsByStep(cfg, m.step, m.exec, a);
    VisitsKept(cfg, m, r);
    QuestionsKept(cfg, m, r);
  }

  lemma {:induction false} RunWithinBudget(cfg: Config, answers: seq<Answers>)
    ensures WithinBudget(cfg, Run(cfg, answers))
  {
    if answers != [] {
      RunWithinBudget(cfg, answers[..|answers| - 1]);
      var d := RunHasEvidence(cfg, answers[..|answers| - 1]);
      AdvanceWithinBudget(cfg, Run(cfg, answers[..|answers| - 1]), answers[|answers| - 1], d);
    }
  }

  /** An attempt's length is the sum of the visits to the ten steps. */
  lemma {:induction false} LengthIsSumOfVisits(path: seq<Id>)
    ensures |path| == Count(path, GettingPendingBatch) + Count(path, SigningProposedTransfer)
                    + Count(path, WaitingForQuorumOnTransfer) + Count(path, PerformingTransfer)
                    + Count(path, WaitingTransferConfirmation) + Count(path, ResolvingSetStatus)
                    + Count(path, ProposingSetStatus) + Count(path, SigningProposedSetStatus)
                    + Count(path, WaitingForQuorumOnSetStatus) + Count(path, PerformingSetStatus)
  {
    if path != [] {
      LengthIsSumOfVisits(path[..|path| - 1]);
      var last := path[|path| - 1];
      assert last.GettingPendingBatch? || last.SigningProposedTransfer? || last.WaitingForQuorumOnTransfer? ||
          last.PerformingTransfer? || last.WaitingTransferConfirmation? || last.ResolvingSetStatus? ||
          last.ProposingSetStatus? || last.SigningProposedSetStatus? || last.WaitingForQuorumOnSetStatus? ||
          last.PerformingSetStatus?;
    }
  }

  /**
   * In every run: a counted wait step is executed at most max + 1 times per attempt and asks at most max
   * times, and the attempt is no longer than the maxima, a constant, and the visits to the uncounted loops.
   */
  lemma AttemptIsBounded(cfg: Config, answers: seq<Answers>)
    ensures var m := Run(cfg, answers);
            && Count(m.path, WaitingForQuorumOnTransfer) <= cfg.maxEth + 1
            && Count(m.path, ProposingSetStatus) <= cfg.maxProposed + 1
            && Count(m.path, WaitingForQuorumOnSetStatus) <= cfg.maxElrond + 1
            && QuorumQuestions(m.attempt) <= cfg.maxEth
            && Asked(m.attempt, IsQuorumRead) <= cfg.maxEth + Count(m.path, PerformingTransfer)
            && Asked(m.attempt, IsProposedAsked) <= cfg.maxProposed
            && Asked(m.attempt, IsElrondQuorumAsked) <= cfg.maxElrond
            && |m.path| <= cfg.maxEth + cfg.maxProposed + cfg.maxElrond + 7 + Count(m.path, PerformingTransfer)
                         + Count(m.path, WaitingTransferConfirmation) + Count(m.path, PerformingSetStatus)
  {
    RunWithinBudget(cfg, answers);
    LengthIsSumOfVisits(Run(cfg, answers).path);
  }
}

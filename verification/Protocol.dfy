/**
 * What a bridge executor holds, what it asks the chains, and what it is answered. Every call to a
 * client is recorded together with its answer, so that a run can be judged by its record.
 */
module Protocol {
  import opened Base
  import opened Batches
  import opened ElrondCodec
  import opened EthereumClient

  /** An action of the Elrond contract is named by its argument list. */
  datatype Action = Transfer(args: seq<Bytes>) | SetStatus(args: seq<Bytes>)

  function TransferAction(b: Batch): Action {
    Transfer(TransferArgs(b))
  }

  function SetStatusAction(b: Batch): Action {
    SetStatus(SetStatusArgs(b))
  }

  const INVALID_ACTION_ID: uint64 := 0

  /** How often a waiting period is split into polls. */
  const SPLITS: nat := 10

  /** One poll: the wait may be cut short, and then nothing is asked. */
  datatype Poll<T> = Poll(waited: bool, answer: Result<T>)

  /** The answers to the client calls of one step; no step makes the same call twice except in a poll. */
  datatype Answers = Answers(
    pending: Result<Batch>,
    valid: Result<bool>,
    ethExecuted: Result<bool>,
    leader: bool,
    signatures: seq<Bytes>,
    quorum: Result<nat>,
    transfer: TransferAnswers,
    confirmations: seq<Poll<bool>>,
    statuses: seq<Poll<Bytes>>,
    proposed: Result<bool>,
    paused: Result<bool>,
    sent: Result<()>,
    actionID: Result<uint64>,
    signed: Result<bool>,
    elrondQuorum: Result<bool>,
    performed: Result<bool>,
    lastBatchID: Result<uint64>,
    ethBatch: Result<Batch>,
    lastNonce: Result<uint64>)

  datatype Call =
    | PendingFetched(batch: Result<Batch>)
    | Validated(checked: Batch, valid: Result<bool>)
    | EthExecutedAsked(batchID: uint64, executed: Result<bool>)
    | SignatureBroadcast(hash: Bytes)
    | SignaturesRead(ofHash: Bytes, listed: seq<Bytes>)
    | QuorumRead(quorum: Result<nat>)
    | LeaderAsked(mine: bool)
    | TransferRefused(error: Error)
    | TransferPanicked
    | TransferSent(submission: Submission, transferReport: Result<()>)
    | StoreCleared
    | StatusesRead(ofBatch: uint64, statuses: Result<Bytes>)
    | ProposedAsked(about: Action, proposed: Result<bool>)
    | ProposalSent(proposal: Action, proposalReport: Result<()>)
    | ActionIDRead(named: Action, actionID: Result<uint64>)
    | SignedAsked(signedID: uint64, signed: Result<bool>)
    | SignatureSent(signID: uint64, signReport: Result<()>)
    | ElrondQuorumAsked(quorumID: uint64, reached: Result<bool>)
    | PerformedAsked(performedID: uint64, performed: Result<bool>)
    | PerformSent(performID: uint64, performReport: Result<()>)
    | LastBatchIDRead(lastBatchID: Result<uint64>)
    | EthBatchRead(wanted: uint64, fetched: Result<Batch>)
    | LastNonceRead(lastNonce: Result<uint64>)

  /** Every call fails. */
  const ALL_FAIL: Answers := Answers(
    Err(Remote), Err(Remote), Err(Remote), false, [], Err(Remote),
    TransferAnswers(Err(Remote), Err(Remote), map[], Remote, Err(Remote), Err(Remote)), [], [],
    Err(Remote), Err(Remote), Err(Remote), Err(Remote), Err(Remote),
    Err(Remote), Err(Remote), Err(Remote), Err(Remote), Err(Remote))

  /** The fields of a bridge executor that change. */
  datatype ExecState = ExecState(
    batch: Option<Batch>,
    actionID: uint64,
    msgHash: Bytes,
    ethRetries: nat,
    elrondRetries: nat,
    proposedRetries: nat)

  const HASH_LENGTH: nat := 32
  const INITIAL: ExecState := ExecState(None, 0, Zeros(HASH_LENGTH), 0, 0, 0)

  /** The fields of a bridge executor that do not change. */
  datatype Config = Config(hashing: Hashing, gas: GasLimits, maxEth: nat, maxElrond: nat, maxProposed: nat)

  datatype StepResult<Id> = StepResult(next: Id, state: ExecState, calls: seq<Call>)

  /** A transaction to the Elrond contract goes out only if the contract says that it is not paused. */
  function Submitted(a: Answers, call: Call): seq<Call> {
    if a.paused == Ok(false) then [call] else []
  }

  predicate SubmissionOk(a: Answers) {
    a.paused == Ok(false) && a.sent.Ok?
  }

  /** The relayer's signature on an action is on chain, or its transaction was accepted. */
  predicate IsSigning(c: Call, id: uint64) {
    c == SignedAsked(id, Ok(true)) || (c.SignatureSent? && c.signID == id && c.signReport.Ok?)
  }

  /** The reading of the store while a transfer is prepared; an earlier refusal reads nothing. */
  function StoreReading(t: TransferAnswers, hash: Bytes, listed: seq<Bytes>): seq<Call> {
    if ReadsSignatures(t) then [SignaturesRead(hash, listed)] else []
  }

  /** The polls that take place: no more than the splits; what is missing counts as a wait cut short. */
  function Polls<T>(polls: seq<Poll<T>>): seq<Poll<T>> {
    polls[..Min(|polls|, SPLITS)]
  }

  /** The questions of `WaitForTransferConfirmation`; it goes on after a wait that is cut short. */
  function ConfirmationCalls(polls: seq<Poll<bool>>, id: uint64): seq<Call> {
    if polls == [] then []
    else if !polls[0].waited then ConfirmationCalls(polls[1..], id)
    else [EthExecutedAsked(id, polls[0].answer)] +
         (if polls[0].answer == Ok(true) then [] else ConfirmationCalls(polls[1..], id))
  }

  /** The first non-empty statuses, or nothing; a wait that is cut short ends the polling. */
  function FinalStatuses(polls: seq<Poll<Bytes>>): Bytes {
    if polls == [] || !polls[0].waited then []
    else if polls[0].answer.Ok? && polls[0].answer.value != [] then polls[0].answer.value
    else FinalStatuses(polls[1..])
  }

  /** The questions asked on the way to `FinalStatuses`. */
  function StatusCalls(polls: seq<Poll<Bytes>>, id: uint64): seq<Call> {
    if polls == [] || !polls[0].waited then []
    else [StatusesRead(id, polls[0].answer)] +
         (if polls[0].answer.Ok? && polls[0].answer.value != [] then [] else StatusCalls(polls[1..], id))
  }

  lemma StatusPoll(polls: seq<Poll<Bytes>>, id: uint64, i: nat)
    requires i < |polls| && polls[i].waited
    ensures var done := polls[i].answer.Ok? && polls[i].answer.value != [];
            && StatusCalls(polls[i..], id) ==
                 [StatusesRead(id, polls[i].answer)] + (if done then [] else StatusCalls(polls[i + 1..], id))
            && FinalStatuses(polls[i..]) == if done then polls[i].answer.value else FinalStatuses(polls[i + 1..])
  {
    assert polls[i..][1..] == polls[i + 1..];
  }

  lemma ConfirmationPoll(polls: seq<Poll<bool>>, id: uint64, i: nat)
    requires i < |polls|
    ensures ConfirmationCalls(polls[i..], id) ==
            if !polls[i].waited then ConfirmationCalls(polls[i + 1..], id)
            else [EthExecutedAsked(id, polls[i].answer)] +
                 (if polls[i].answer == Ok(true) then [] else ConfirmationCalls(polls[i + 1..], id))
  {
    assert polls[i..][1..] == polls[i + 1..];
  }

  /** Non-empty final statuses are what Ethereum answered last for the batch. */
  lemma {:induction false} FinalStatusesWereRead(polls: seq<Poll<Bytes>>, id: uint64)
    requires FinalStatuses(polls) != []
    ensures var calls := StatusCalls(polls, id);
            calls != [] && calls[|calls| - 1] == StatusesRead(id, Ok(FinalStatuses(polls)))
  {
    if !(polls[0].answer.Ok? && polls[0].answer.value != []) {
      FinalStatusesWereRead(polls[1..], id);
    }
  }

  /** All polls take place if there are at most ten, and otherwise the first ten do. */
  lemma PollsAreTen<T>(polls: seq<Poll<T>>)
    ensures |polls| <= 10 ==> Polls(polls) == polls
    ensures |polls| > 10 ==> Polls(polls) == polls[..10]
  {
  }

  /** Poll `i` is the first to answer, with `st`, and no wait was cut short until then. */
  ghost predicate FirstAnswer(polls: seq<Poll<Bytes>>, i: nat, st: Bytes) {
    && i < |polls| && (forall j :: 0 <= j <= i ==> polls[j].waited) && polls[i].answer == Ok(st)
    && forall j :: 0 <= j < i ==> polls[j].answer.Err? || polls[j].answer.value == []
  }

  lemma FirstAnswerLater(polls: seq<Poll<Bytes>>, i: nat, st: Bytes)
    requires polls != [] && polls[0].waited && (polls[0].answer.Err? || polls[0].answer.value == [])
    ensures FirstAnswer(polls[1..], i, st) <==> FirstAnswer(polls, i + 1, st)
  {
    var rest := polls[1..];
    assert forall j :: 0 <= j < |rest| ==> rest[j] == polls[j + 1];
    if FirstAnswer(polls, i + 1, st) {
      assert rest[i] == polls[i + 1];
      forall j | 0 <= j <= i ensures rest[j].waited && (j < i ==> rest[j].answer.Err? || rest[j].answer.value == []) {
        assert rest[j] == polls[j + 1];
      }
    }
    if FirstAnswer(rest, i, st) {
      forall j | 0 <= j <= i + 1 ensures polls[j].waited && (j <= i ==> polls[j].answer.Err? || polls[j].answer.value == []) {
        assert j > 0 ==> polls[j] == rest[j - 1];
      }
    }
  }

  /** Final statuses are exactly the first answer that is not empty. */
  lemma {:induction false} FinalStatusesExact(polls: seq<Poll<Bytes>>, st: Bytes)
    requires st != []
    ensures FinalStatuses(polls) == st <==> exists i :: FirstAnswer(polls, i, st)
  {
    if polls != [] && polls[0].waited {
      if polls[0].answer.Ok? && polls[0].answer.value != [] {
        assert polls[0].answer == Ok(st) ==> FirstAnswer(polls, 0, st);
        assert forall i: nat :: FirstAnswer(polls, i, st) ==> i == 0;
      } else {
        FinalStatusesExact(polls[1..], st);
        forall i: nat ensures FirstAnswer(polls[1..], i, st) <==> FirstAnswer(polls, i + 1, st) {
          FirstAnswerLater(polls, i, st);
        }
        if i: nat :| FirstAnswer(polls, i, st) {
          assert i > 0;
          assert FirstAnswer(polls[1..], i - 1, st);
        }
      }
    }
  }

  /** The answers to the polls that were waited for. */
  function PolledAnswers<T>(polls: seq<Poll<T>>): seq<Result<T>> {
    if polls == [] then []
    else if polls[0].waited then [polls[0].answer] + PolledAnswers(polls[1..])
    else PolledAnswers(polls[1..])
  }

  /** These are questions about `id` with the first of these answers, up to the first that confirms. */
  ghost predicate AsksUntilConfirmed(calls: seq<Call>, id: uint64, answers: seq<Result<bool>>) {
    && |calls| <= |answers|
    && (forall k :: 0 <= k < |calls| ==> calls[k] == EthExecutedAsked(id, answers[k]))
    && (forall k :: 0 <= k < |calls| - 1 ==> answers[k] != Ok(true))
    && (|calls| < |answers| ==> calls != [] && answers[|calls| - 1] == Ok(true))
  }

  lemma OneQuestionMore(calls: seq<Call>, id: uint64, answers: seq<Result<bool>>, first: Result<bool>)
    requires AsksUntilConfirmed(calls, id, answers) && first != Ok(true)
    ensures AsksUntilConfirmed([EthExecutedAsked(id, first)] + calls, id, [first] + answers)
  {
  }

  /** Confirmations are asked for poll by poll, past waits that are cut short, up to the first that confirms. */
  lemma {:induction false} ConfirmationsAsked(polls: seq<Poll<bool>>, id: uint64)
    ensures AsksUntilConfirmed(ConfirmationCalls(polls, id), id, PolledAnswers(polls))
  {
    if polls != [] {
      ConfirmationsAsked(polls[1..], id);
      if polls[0].waited && polls[0].answer != Ok(true) {
        OneQuestionMore(ConfirmationCalls(polls[1..], id), id, PolledAnswers(polls[1..]), polls[0].answer);
      }
    }
  }

  lemma {:induction false} ConfirmationCallsOnlyAsk(polls: seq<Poll<bool>>, id: uint64)
    ensures forall c :: c in ConfirmationCalls(polls, id) ==> c.EthExecutedAsked? && c.batchID == id
  {
    if polls != [] {
      ConfirmationCallsOnlyAsk(polls[1..], id);
    }
  }

  lemma {:induction false} StatusCallsOnlyAsk(polls: seq<Poll<Bytes>>, id: uint64)
    ensures forall c :: c in StatusCalls(polls, id) ==> c.StatusesRead? && c.ofBatch == id
  {
    if polls != [] {
      StatusCallsOnlyAsk(polls[1..], id);
    }
  }

  /** The deposit nonces follow `last` one by one, with 64-bit wrap-around. */
  predicate NoncesFollow(ds: seq<Deposit>, last: uint64) {
    forall k :: 0 <= k < |ds| ==> ds[k].nonce == (last + 1 + k) % TWO_64
  }

  // ---------------------------------------------------------------- counting calls

  predicate IsProposedAsked(c: Call) { c.ProposedAsked? }
  predicate IsElrondQuorumAsked(c: Call) { c.ElrondQuorumAsked? }
  predicate IsQuorumRead(c: Call) { c.QuorumRead? }

  /** How many calls of a kind were made. */
  function Asked(calls: seq<Call>, kind: Call -> bool): nat {
    if calls == [] then 0
    else Asked(calls[..|calls| - 1], kind) + if kind(calls[|calls| - 1]) then 1 else 0
  }

  lemma {:induction false} AskedConcat(x: seq<Call>, y: seq<Call>, kind: Call -> bool)
    ensures Asked(x + y, kind) == Asked(x, kind) + Asked(y, kind)
    decreases |y|
  {
    if y == [] {
      assert x + y == x;
    } else {
      AskedConcat(x, y[..|y| - 1], kind);
      assert (x + y)[..|x + y| - 1] == x + y[..|y| - 1];
    }
  }

  lemma {:induction false} AskedNone(x: seq<Call>, kind: Call -> bool)
    requires forall c :: c in x ==> !kind(c)
    ensures Asked(x, kind) == 0
  {
    if x != [] {
      AskedNone(x[..|x| - 1], kind);
    }
  }

  lemma {:induction false} AtMostOne(calls: seq<Call>, kind: Call -> bool)
    requires forall i, j :: 0 <= i < j < |calls| ==> !(kind(calls[i]) && kind(calls[j]))
    ensures Asked(calls, kind) <= 1
  {
    if calls != [] {
      var n := |calls| - 1;
      if kind(calls[n]) {
        AskedNone(calls[..n], kind);
      } else {
        AtMostOne(calls[..n], kind);
      }
    }
  }

  // ---------------------------------------------------------------- answers that make a step wait or let it go on

  /** Nobody proposed yet, and this relayer does not lead. */
  predicate ProposalAwaited(a: Answers) {
    a.proposed == Ok(false) && !a.leader
  }

  /** It is proposed, by others or by this relayer. */
  predicate ProposalThere(a: Answers) {
    a.proposed == Ok(true) || (a.proposed == Ok(false) && a.leader && SubmissionOk(a))
  }

  /** The contract names the action, and this relayer's signature is there or goes out. */
  predicate NamedAndSigned(a: Answers) {
    && a.actionID.Ok? && a.actionID.value != 0
    && (a.signed == Ok(true) || (a.signed == Ok(false) && SubmissionOk(a)))
  }

  /** Not performed yet, and this relayer does not lead, or its transaction is on its way. */
  predicate PerformAwaited(a: Answers) {
    a.performed == Ok(false) && (a.leader ==> SubmissionOk(a))
  }

  /** `n` times the same step. */
  function Repeated<T>(x: T, n: nat): (r: seq<T>)
    ensures |r| == n && forall k :: 0 <= k < n ==> r[k] == x
  {
    seq(n, _ => x)
  }

  lemma RepeatedAppend<T>(x: T, n: nat)
    ensures Repeated(x, n) + [x] == Repeated(x, n + 1)
  {
  }

  ghost predicate Keeps(was: seq<Call>, now: seq<Call>) {
    forall c :: c in was ==> c in now
  }

  /** The leaders among these answers had the action performed. */
  ghost predicate Performing(id: uint64, waits: seq<Answers>, attempt: seq<Call>) {
    forall k :: 0 <= k < |waits| && waits[k].leader ==> PerformSent(id, waits[k].sent) in attempt
  }

  lemma PerformingMore(id: uint64, waits: seq<Answers>, a: Answers, was: seq<Call>, now: seq<Call>)
    requires Performing(id, waits, was) && Keeps(was, now) && (a.leader ==> PerformSent(id, a.sent) in now)
    ensures Performing(id, waits + [a], now)
  {
  }
}

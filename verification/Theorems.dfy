/** What every reachable world satisfies. */
module Theorems {
  import opened Backing
  import opened Base
  import opened Batches
  import opened ElrondCodec
  import opened EthereumClient
  import opened Gossip
  import opened Ledger
  import opened Protocol
  import opened Safety
  import opened Soundness
  import opened Topology
  import opened Traces
  import opened World
  import ToEth
  import ToEthRuns

  // In every reachable world: for any number of relayers, any interleaving of their steps, gossip and
  // restarts, chains that move between two reads of one step, and arbitrary behaviour of some relayers,
  // fewer than either chain's quorum.

  // ---------------------------------------------------------------- parts of a sound world

  lemma RelayerOf(s: Setting, w: World, i: Bytes)
    requires Sane(s) && Reachable(s, w) && i in w.relayers
    ensures w.history != [] && RelayerSound(s, w.history, w.relayers[i]) && Backed(s, w.relayers[i])
  {
    ReachableSound(s, w);
  }

  lemma RecordOf(s: Setting, w: World)
    requires Sane(s) && Reachable(s, w)
    ensures w.history != [] && TiledFromContent(s, Now(w).elrond) && EthSound(s, w.history, Now(w).ethereum)
  {
    ReachableSound(s, w);
  }

  lemma NameIsCurrent(s: Setting, w: World, id: nat, a: Action)
    requires Sane(s) && Reachable(s, w) && KnownAs(w.history, id, a)
    ensures w.history != [] && ActionIs(Now(w).elrond, id, a)
  {
    ReachableSound(s, w);
    NameIsStable(s, w.history, id, a);
  }

  lemma ExecutedStays(s: Setting, w: World, id: nat)
    requires Sane(s) && Reachable(s, w) && WasExecuted(w.history, id)
    ensures w.history != [] && EthExecuted(Now(w).ethereum, id)
  {
    ReachableSound(s, w);
    ExecutedForGood(w.history, id);
  }

  lemma ElrondRecordOf(s: Setting, w: World)
    requires Sane(s) && Reachable(s, w)
    ensures w.history != [] && ElrondSound(s, w.history, Now(w).elrond)
  {
    ReachableSound(s, w);
  }

  lemma EntryOf(s: Setting, w: World, m: nat)
    requires Sane(s) && Reachable(s, w) && m < |w.trace|
    ensures EntrySound(s, w.trace[m])
  {
    ReachableSound(s, w);
  }

  // ---------------------------------------------------------------- Ethereum to Elrond

  /**
   * Deposits tile: the batches performed on Elrond are Ethereum's batches with consecutive identifiers,
   * each performed once and with its fixed content: everyone is paid what was deposited for them, in the
   * converted token. The deposit nonces, concatenated in the order of performing, form one sequence without
   * gap or repeat.
   */
  lemma DepositsTile(s: Setting, w: World)
    requires Sane(s) && Reachable(s, w)
    ensures w.history != []
    ensures var c := Now(w).elrond;
            && (forall j :: 0 <= j < |c.transfers| ==>
                  var id := s.start.lastBatchID + 1 + j;
                  id < TWO_63 && c.transfers[j] == TransferArgs(s.content(id)) && DecodedId(c.transfers[j]) == id)
            && PaysContent(s, c)
            && (forall k :: 0 <= k < |FlatNonces(c.transfers)| ==> FlatNonces(c.transfers)[k] == s.start.lastNonce + 1 + k)
            && c.lastBatchID == s.start.lastBatchID + |c.transfers|
            && c.lastNonce == s.start.lastNonce + |FlatNonces(c.transfers)|
  {
    RecordOf(s, w);
    ContentIsPaid(s, Now(w).elrond);
  }

  /** What an honest relayer is about to have performed is the batch it stored, under its current name. */
  lemma NamedActionIsCurrent(s: Setting, w: World, i: Bytes)
    requires Sane(s) && Reachable(s, w) && i in w.relayers
    requires var step := w.relayers[i].toElrond.step; step.WaitingForQuorum? || step.PerformingActionID?
    ensures w.history != []
    ensures var x := w.relayers[i].toElrond.exec;
            && x.batch.Some? && x.actionID != INVALID_ACTION_ID
            && ActionIs(Now(w).elrond, x.actionID, TransferAction(x.batch.value))
            && x.batch.value == s.content(x.batch.value.id)
  {
    RelayerOf(s, w, i);
    var x := w.relayers[i].toElrond.exec;
    NameIsCurrent(s, w, x.actionID, TransferAction(x.batch.value));
  }

  // ---------------------------------------------------------------- Elrond to Ethereum

  /**
   * Ethereum only ever executes what hashes like a batch that was pending on Elrond: exactly that batch's
   * lists and identifier, unless the hash has a collision.
   */
  lemma EthereumReleasesOnlyPending(s: Setting, w: World, k: nat) returns (b: Batch)
    requires Sane(s) && Reachable(s, w)
    requires w.history != [] && k < |Now(w).ethereum.executed|
    ensures WasPending(w.history, b) && SignedAs(s, b, Now(w).ethereum.executed[k])
    ensures CollisionFree(s.cfg.hashing) ==>
              var x := Now(w).ethereum.executed[k]; Carries(x.lists, b.deposits) && x.id == b.id
  {
    RecordOf(s, w);
    var x := Now(w).ethereum.executed[k];
    assert ReleasesPending(s, w.history, x);
    b :| WasPending(w.history, b) && SignedAs(s, b, x);
    assert HashOf(s.cfg.hashing, x.lists, x.id) == HashOf(s.cfg.hashing, Lists(b.deposits), b.id);
    ListsAt(b.deposits);
  }

  /**
   * The statuses of `b` are the answer `st` that Ethereum gave for this very batch, told for each deposit of
   * the batch `later` that was fetched from Elrond as pending: kept where there is an answer and a deposit,
   * rejected where only one of them is there.
   */
  ghost predicate TellsAnswer(h: History, b: Batch, st: Bytes, later: Batch) {
    && st != [] && GaveStatuses(h, b.id, st) && WasPending(h, later)
    && (exists origin :: WasPending(h, origin) && origin.id == b.id && origin.deposits == b.deposits)
    && |b.statuses| == Max(|st|, |later.deposits|)
    && forall k :: 0 <= k < |b.statuses| ==>
         b.statuses[k] == if k < |st| && k < |later.deposits| then st[k] else REJECTED
  }

  /** The batch is executed on Ethereum, and its statuses tell what Ethereum answered for it. */
  ghost predicate TrulySettled(w: World, b: Batch)
    requires w.history != []
  {
    EthExecuted(Now(w).ethereum, b.id) && exists st, later :: TellsAnswer(w.history, b, st, later)
  }

  lemma SettledTells(h: History, b: Batch) returns (st: Bytes, later: Batch)
    requires WasSettled(h, b)
    ensures TellsAnswer(h, b, st, later)
  {
    var origin;
    st, origin, later :| SettledBy(h, b, st, origin, later);
    forall k: nat | k < |b.statuses|
      ensures b.statuses[k] == if k < |st| && k < |later.deposits| then st[k] else REJECTED
    {
      ResolvedAt(st, |later.deposits|, k);
    }
  }

  /** Batches that were pending under one identifier had the same deposits. */
  ghost predicate OnePendingPerId(h: History) {
    forall x, y :: WasPending(h, x) && WasPending(h, y) && x.id == y.id ==> x.deposits == y.deposits
  }

  /**
   * Every set-status that the contract performed tells the truth about an executed batch: it holds one by
   * one what Ethereum answered for this very batch, for as many deposits as the batch had that step six
   * fetched. If that was the same batch, and its deposits did not change, these are the batch's own.
   */
  lemma PerformedStatusesAreTrue(s: Setting, w: World, j: nat) returns (b: Batch, st: Bytes, later: Batch)
    requires Sane(s) && Reachable(s, w)
    requires w.history != [] && j < |Now(w).elrond.settled|
    ensures EthExecuted(Now(w).ethereum, b.id) && TellsAnswer(w.history, b, st, later)
    ensures var args := Now(w).elrond.settled[j];
            && args == SetStatusArgs(b) && |args| == 1 + Max(|st|, |later.deposits|)
            && forall k :: 0 <= k < |args| - 1 ==>
                 args[1 + k] == [if k < |st| && k < |later.deposits| then st[k] else REJECTED]
    ensures later.id == b.id && OnePendingPerId(w.history) ==> later.deposits == b.deposits
  {
    ElrondRecordOf(s, w);
    SettledSupported(s, w.history, Now(w).elrond, j);
    b :| WasSettled(w.history, b) && Now(w).elrond.settled[j] == SetStatusArgs(b);
    ExecutedStays(s, w, b.id);
    st, later := SettledTells(w.history, b);
    SetStatusArgsSpell(b);
  }

  /**
   * Status only after execution: from step six on a relayer holds a batch that is executed on Ethereum;
   * from step seven on its statuses are Ethereum's resolved answer; from step nine on its action is the
   * one the contract has under that name, for exactly this identifier and these statuses.
   */
  lemma StatusOnlyAfterExecutionInWorld(s: Setting, w: World, i: Bytes)
    requires Sane(s) && Reachable(s, w) && i in w.relayers
    ensures w.history != []
    ensures var m := w.relayers[i].toEth;
            && (!m.step.GettingPendingBatch? ==> m.exec.batch.Some?)
            && (AfterExecution(m.step) ==> EthExecuted(Now(w).ethereum, m.exec.batch.value.id))
            && (WithStatuses(m.step) ==> TrulySettled(w, m.exec.batch.value))
            && (WithAction(m.step) ==>
                  && m.exec.actionID != INVALID_ACTION_ID
                  && ActionIs(Now(w).elrond, m.exec.actionID, SetStatusAction(m.exec.batch.value)))
  {
    RelayerOf(s, w, i);
    var m := w.relayers[i].toEth;
    if AfterExecution(m.step) {
      ExecutedStays(s, w, m.exec.batch.value.id);
    }
    if WithStatuses(m.step) {
      var st, later := SettledTells(w.history, m.exec.batch.value);
    }
    if WithAction(m.step) {
      NameIsCurrent(s, w, m.exec.actionID, SetStatusAction(m.exec.batch.value));
    }
  }

  // ---------------------------------------------------------------- submitting a transfer

  /** At position `k` of the attempt step three counted signatures, read the quorum `q` and saw it reached. */
  ghost predicate ReachedAt(attempt: seq<Call>, k: nat, q: nat) {
    && k + 1 < |attempt| && attempt[k].SignaturesRead? && attempt[k + 1] == QuorumRead(Ok(q))
    && IsQuorumReached(|attempt[k].listed|, Ok(q)) == Ok(true)
  }

  /** The quorum is now at most what it was when it was seen reached. */
  ghost predicate NotRaised(attempt: seq<Call>, q: nat) {
    forall k, reached :: ReachedAt(attempt, k, reached) ==> LowInt64(q) <= LowInt64(reached)
  }

  /** What the chain and the node report is never the relayer's own "quorum not reached". */
  predicate RemoteErrorsOnly(a: TransferAnswers) {
    && a.paused != Err(QuorumNotReached) && a.gasPrice != Err(QuorumNotReached)
    && a.shortage != QuorumNotReached && a.funds != Err(QuorumNotReached)
  }

  lemma CountedStillListed(s: Setting, events: seq<NodeEvent>, d: ToEthRuns.Dossier, listed: seq<Bytes>)
    requires HoldsCounted(s, events, d) && Enumerates(listed, Held(s, events, d.hash))
    ensures |listed| >= |d.listed|
  {
    var counted := set x | x in d.listed;
    EnumerationLength(d.listed, counted);
    EnumerationLength(listed, Held(s, events, d.hash));
    SubsetCardinality(counted, Held(s, events, d.hash));
  }

  lemma EnoughSignatures(s: Setting, r: Relayer, a: Answers, d: ToEthRuns.Dossier)
    requires ToEthBacked(s, r.toEth, r.events, d) && r.toEth.step.PerformingTransfer?
    requires ListingsTrue(s, r.events, ToEth.PerformTransfer(s.cfg, r.toEth.exec, a).calls)
    requires a.quorum.Ok? && LowInt64(a.quorum.value) <= LowInt64(d.quorum) && RemoteErrorsOnly(a.transfer)
    ensures TransferRefused(QuorumNotReached) !in ToEth.PerformTransfer(s.cfg, r.toEth.exec, a).calls
  {
    var calls := ToEth.PerformTransfer(s.cfg, r.toEth.exec, a).calls;
    if TransferRefused(QuorumNotReached) in calls {
      assert calls[3] == SignaturesRead(d.hash, a.signatures);
      CountedStillListed(s, r.events, d, a.signatures);
    }
  }

  lemma QuorumFound(s: Setting, r: Relayer, a: Answers)
    requires Backed(s, r) && r.toEth.step.PerformingTransfer?
    requires ListingsTrue(s, r.events, ToEth.PerformTransfer(s.cfg, r.toEth.exec, a).calls)
    requires a.quorum.Ok? && NotRaised(r.toEth.attempt, a.quorum.value) && RemoteErrorsOnly(a.transfer)
    ensures TransferRefused(QuorumNotReached) !in ToEth.PerformTransfer(s.cfg, r.toEth.exec, a).calls
  {
    var d :| ToEthBacked(s, r.toEth, r.events, d);
    var k: nat :| CountedAt(r.toEth.attempt, k, d);
    assert ReachedAt(r.toEth.attempt, k, d.quorum);
    EnoughSignatures(s, r, a, d);
  }

  /** Without a quorum nothing is prepared, so nothing is refused. */
  lemma NoQuorumNoRefusal(cfg: Config, x: ExecState, a: Answers, e: Error)
    requires a.quorum.Err?
    ensures TransferRefused(e) !in ToEth.PerformTransfer(cfg, x, a).calls
  {
  }

  /**
   * Quorum stability: if the quorum was not raised since step three saw it reached, step four finds enough
   * signatures, whatever was gossiped and whatever the other machine did in between.
   */
  lemma QuorumIsStable(s: Setting, w: World, i: Bytes, a: Answers, views: seq<nat>)
    requires Sane(s) && Reachable(s, w)
    requires Enabled(s, w, StepToEth(i, a, views)) && w.relayers[i].toEth.step.PerformingTransfer?
    requires a.quorum.Ok? ==> NotRaised(w.relayers[i].toEth.attempt, a.quorum.value)
    requires RemoteErrorsOnly(a.transfer)
    ensures TransferRefused(QuorumNotReached) !in ToEthStep(s, w, i, a).calls
  {
    RelayerOf(s, w, i);
    ListingsHeld(s, w, i, ToEthStep(s, w, i, a).calls, views);
    if a.quorum.Ok? {
      QuorumFound(s, w.relayers[i], a);
    } else {
      NoQuorumNoRefusal(s.cfg, w.relayers[i].toEth.exec, a, QuorumNotReached);
    }
  }

  /** What a submission to Ethereum carries. */
  ghost predicate Justified(s: Setting, w: World, r: Relayer, a: Answers, sub: Submission, b: Batch) {
    && WasPending(w.history, b) && r.toEth.exec.batch == Some(b)
    && sub.lists == Lists(b.deposits) && sub.id == b.id
    && HashOf(s.cfg.hashing, sub.lists, sub.id) == Ok(r.toEth.exec.msgHash)
    && |sub.lists.tokens| == |sub.lists.amounts| && Affordable(sub.lists.tokens, sub.lists.amounts, a.transfer.balances)
    && a.quorum.Ok? && SignedBy(s, r.events, r.toEth.exec.msgHash, sub.signatures, a.quorum.value)
  }

  /** Distinct signatures of known origin, as many as the low 64 bits of the quorum say. */
  ghost predicate SignedBy(s: Setting, events: seq<NodeEvent>, hash: Bytes, signatures: seq<Bytes>, quorum: nat) {
    && |signatures| == LowInt64(quorum) && (|signatures| == quorum <==> quorum < TWO_63)
    && Distinct(signatures) && forall x :: x in signatures ==> HasProvenance(s, events, x, hash)
  }

  ghost predicate HasProvenance(s: Setting, events: seq<NodeEvent>, sig: Bytes, hash: Bytes) {
    exists k :: Provenance(s.net, events, k, sig, hash)
  }

  lemma HeldHaveProvenance(s: Setting, events: seq<NodeEvent>, hash: Bytes)
    ensures forall x :: x in Held(s, events, hash) ==> HasProvenance(s, events, x, hash)
  {
    forall x | x in Held(s, events, hash) ensures HasProvenance(s, events, x, hash) {
      var k := HeldSignatureProvenance(s.net, events, x, hash);
    }
  }

  /** Step four reads the stored signatures for its hash before it submits. */
  lemma ReadsBeforeSending(cfg: Config, x: ExecState, a: Answers, sub: Submission, report: Result<()>)
    requires TransferSent(sub, report) in ToEth.PerformTransfer(cfg, x, a).calls
    ensures SignaturesRead(x.msgHash, a.signatures) in ToEth.PerformTransfer(cfg, x, a).calls
  {
    assert ToEth.PerformTransfer(cfg, x, a).calls[3] == SignaturesRead(x.msgHash, a.signatures);
  }

  lemma SubmissionOf(s: Setting, r: Relayer, a: Answers, d: ToEthRuns.Dossier, sub: Submission, report: Result<()>)
    requires ToEthBacked(s, r.toEth, r.events, d)
    requires ListingsTrue(s, r.events, ToEth.Execute(s.cfg, r.toEth.step, r.toEth.exec, a).calls)
    requires TransferSent(sub, report) in ToEth.Execute(s.cfg, r.toEth.step, r.toEth.exec, a).calls
    ensures r.toEth.step.PerformingTransfer? && r.toEth.exec.msgHash == d.hash && a.quorum.Ok?
    ensures Enumerates(a.signatures, Held(s, r.events, d.hash))
    ensures Execution(s.cfg.gas, d.batch, a.signatures, LowInt64(a.quorum.value), a.transfer) == Sent(sub, report)
    ensures r.toEth.exec.batch == Some(d.batch) && HashOf(s.cfg.hashing, sub.lists, sub.id) == Ok(d.hash)
  {
    ToEthRuns.TransferIsBacked(s.cfg, r.toEth, a, d, sub, report);
    ReadsBeforeSending(s.cfg, r.toEth.exec, a, sub, report);
  }

  lemma SignaturesOf(s: Setting, events: seq<NodeEvent>, hash: Bytes, signatures: seq<Bytes>, quorum: nat)
    requires |signatures| == LowInt64(quorum) && Distinct(signatures)
    requires forall x :: x in signatures ==> x in Held(s, events, hash)
    ensures SignedBy(s, events, hash, signatures, quorum)
  {
    HeldHaveProvenance(s, events, hash);
  }

  /**
   * Signature provenance, end to end: a submitted transfer is a batch that was pending on Elrond, and it
   * carries exactly as many distinct signatures as the quorum read (whose low 64 bits are what is
   * counted: the quorum itself exactly when it is below 2^63); each arrived since the last clear in
   * an authentic message of a whitelisted key with a fresh nonce, and verified against the hash of just
   * these lists under a whitelisted Ethereum address; and the safe can pay it.
   */
  lemma SubmissionIsJustified(s: Setting, w: World, i: Bytes, a: Answers, views: seq<nat>, sub: Submission,
      report: Result<()>)
    returns (b: Batch)
    requires Sane(s) && Reachable(s, w)
    requires Enabled(s, w, StepToEth(i, a, views)) && TransferSent(sub, report) in ToEthStep(s, w, i, a).calls
    ensures Justified(s, w, w.relayers[i], a, sub, b) && Carries(sub.lists, b.deposits)
  {
    RelayerOf(s, w, i);
    var r := w.relayers[i];
    var d :| ToEthBacked(s, r.toEth, r.events, d);
    ListingsHeld(s, w, i, ToEthStep(s, w, i, a).calls, views);
    SubmissionOf(s, r, a, d, sub, report);
    b := d.batch;
    SubmissionCarries(s.cfg.gas, b, Held(s, r.events, d.hash), a.signatures, LowInt64(a.quorum.value), a.transfer);
    SignaturesOf(s, r.events, d.hash, sub.signatures, a.quorum.value);
  }

  // ---------------------------------------------------------------- leaders

  /** The entry holds a leader-only transaction and a positive answer of the election in this slot. */
  ghost predicate LedIn(s: Setting, x: Entry, slot: uint64)
    requires s.interval > 0
  {
    && (exists c :: c in x.calls && LeaderOnly(c))
    && exists k :: 0 <= k < |x.calls| && k < |x.times| && x.calls[k] == LeaderAsked(true) && Slot(x.times[k], s.interval) == slot
  }

  /** In one slot, no two relayers with the same whitelist send leader-only transactions. */
  lemma OneLeaderPerSlot(s: Setting, w: World, m: nat, n: nat, slot: uint64)
    requires Sane(s) && Reachable(s, w)
    requires m < |w.trace| && n < |w.trace| && w.trace[m].whitelist == w.trace[n].whitelist
    requires LedIn(s, w.trace[m], slot) && LedIn(s, w.trace[n], slot)
    ensures w.trace[m].relayer == w.trace[n].relayer && w.trace[m].relayer in w.trace[m].whitelist
  {
    EntryOf(s, w, m);
    EntryOf(s, w, n);
    UniqueLeader(s.sha, w.trace[m].whitelist, slot);
  }

  /** Every leader-only transaction of a run was sent in some slot by the leader of that slot. */
  lemma SendersLead(s: Setting, w: World, m: nat, c: Call) returns (slot: uint64)
    requires Sane(s) && Reachable(s, w)
    requires m < |w.trace| && c in w.trace[m].calls && LeaderOnly(c)
    ensures LedIn(s, w.trace[m], slot) && Leads(s.sha, w.trace[m].whitelist, slot, w.trace[m].relayer)
  {
    EntryOf(s, w, m);
    var x := w.trace[m];
    var k :| 0 <= k < |x.calls| && x.calls[k] == LeaderAsked(true);
    slot := Slot(x.times[k], s.interval);
  }
}

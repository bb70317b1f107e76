/**
 * The assumptions on the world leave room for it to work: from any initial world, a single relayer that
 * whitelists itself fetches the next Ethereum batch, proposes it, signs it, sees the quorum and gets it
 * performed on Elrond, with the contract including each of its transactions in turn.
 */
module Witness {
  import opened Base
  import opened Batches
  import opened ElrondCodec
  import opened Gossip
  import opened Protocol
  import opened Topology
  import opened World
  import ToElrond
  import ToElrondProgress
  import ToElrondRuns

  /** A reachable world whose relayers all whitelist just relayer `i`. */
  ghost predicate Led(s: Setting, w: World, i: Bytes)
    requires Sane(s)
  {
    && Reachable(s, w) && w.history != [] && i in w.relayers
    && NodeAfter(s.net, w.relayers[i].events).elrondWhitelist == {i}
  }

  lemma RunExtends(s: Setting, worlds: seq<World>, events: seq<Event>, e: Event, w': World)
    requires Sane(s) && IsRun(s, worlds, events) && Becomes(s, worlds[|events|], e, w')
    ensures IsRun(s, worlds + [w'], events + [e])
  {
    var ws, es := worlds + [w'], events + [e];
    forall k | 0 <= k < |es| ensures Becomes(s, ws[k], es[k], ws[k + 1]) {
      if k < |events| {
        assert Becomes(s, worlds[k], events[k], worlds[k + 1]);
      }
    }
  }

  lemma ReachableExtends(s: Setting, w: World, e: Event)
    requires Sane(s) && Reachable(s, w) && w.history != [] && Enabled(s, w, e) && After(s, w, e).history != []
    ensures Reachable(s, After(s, w, e))
  {
    var worlds, events :| IsRun(s, worlds, events) && worlds[|worlds| - 1] == w;
    var w' := After(s, w, e);
    RunExtends(s, worlds, events, e, w');
    assert (worlds + [w'])[|worlds|] == w';
  }

  lemma OnlyKeyLeads(s: Setting, i: Bytes, slot: uint64)
    requires LongEnough(s.sha)
    ensures Leads(s.sha, {i}, slot, i)
  {
    UniqueLeader(s.sha, {i}, slot);
    assert i in {i};
  }

  /** The whitelist arrives. */
  lemma Started(s: Setting, i: Bytes, w: World) returns (w': World)
    requires Sane(s) && Initial(s, w) && w.history != [] && i in s.honest
    ensures Led(s, w', i) && w'.history == w.history && w'.sent == {}
    ensures w'.relayers[i].toElrond == ToElrondRuns.START
  {
    var e := Gossiped(i, RefreshElrond({i}));
    assert IsRun(s, [w], []);
    ReachableExtends(s, w, e);
    w' := After(s, w, e);
    assert NEW_RELAYER.events + [RefreshElrond({i})] == [RefreshElrond({i})];
    assert [RefreshElrond({i})][..0] == [];
  }

  /** The calls of a step are answered from the present state of the chains. */
  ghost predicate AnsweredNow(s: Setting, w: World, i: Bytes, calls: seq<Call>)
    requires w.history != []
  {
    forall k :: 0 <= k < |calls| ==>
      True(s, i, Now(w), calls[k]) && !calls[k].SignaturesRead? && (calls[k].LeaderAsked? ==> calls[k].mine)
  }

  lemma StepEnabled(s: Setting, w: World, i: Bytes, a: Answers) returns (views: seq<nat>)
    requires Sane(s) && Led(s, w, i) && AnsweredNow(s, w, i, ToElrondStep(s, w, i, a).calls)
    ensures Enabled(s, w, StepToElrond(i, a, views))
  {
    var calls := ToElrondStep(s, w, i, a).calls;
    views := seq(|calls|, _ => |w.history| - 1);
    forall k | 0 <= k < |calls|
      ensures OwnTrue(s, i, NodeAfter(s.net, w.relayers[i].events), Now(w).now, calls[k])
    {
      OnlyKeyLeads(s, i, Slot(Now(w).now, s.interval));
    }
  }

  lemma Steps(s: Setting, w: World, i: Bytes, a: Answers) returns (w': World)
    requires Sane(s) && Led(s, w, i) && AnsweredNow(s, w, i, ToElrondStep(s, w, i, a).calls)
    ensures Led(s, w', i) && w'.history == w.history
    ensures w'.relayers[i].toElrond == ToElrondRuns.Advance(s.cfg, w.relayers[i].toElrond, a)
    ensures w'.sent == w.sent + TxsOf(i, ToElrondStep(s, w, i, a).calls)
  {
    var views := StepEnabled(s, w, i, a);
    ReachableExtends(s, w, StepToElrond(i, a, views));
    w' := After(s, w, StepToElrond(i, a, views));
  }

  lemma Includes(s: Setting, w: World, i: Bytes, tx: Tx) returns (w': World)
    requires Sane(s) && Led(s, w, i) && s.arbitrary == {} && tx in w.sent
    ensures Led(s, w', i) && w'.relayers == w.relayers && w'.sent == w.sent
    ensures Now(w').elrond == Included(Now(w).elrond, tx, false, 1)
  {
    var e := ElrondIncludes(tx, false, 1);
    ReachableExtends(s, w, e);
    w' := After(s, w, e);
  }

  /** Every component does its part: nothing fails, quorums are there, the relayer leads, nothing was done before. */
  ghost predicate Cooperative(cfg: Config, a: Answers) {
    && a.leader && SubmissionOk(a) && a.valid == Ok(true)
    && a.proposed == Ok(false) && a.signed == Ok(false) && a.elrondQuorum == Ok(true) && a.performed == Ok(false)
    && a.actionID.Ok? && a.actionID.value != INVALID_ACTION_ID
    && cfg.maxEth > 0 && cfg.maxElrond > 0 && cfg.maxProposed > 0
  }

  /** The answers a relayer gets on the way: those of the contract, and no failure. */
  ghost predicate Smooth(s: Setting, b: Batch, a: Answers) {
    && ToElrondProgress.NextBatchThere(a) && Cooperative(s.cfg, a) && a.ethBatch == Ok(b)
    && a.lastBatchID == Ok(s.start.lastBatchID) && a.lastNonce == Ok(s.start.lastNonce)
    && a.actionID == Ok(1) && b == s.content(b.id)
  }

  /** The relayer is at a step with these fields, and the contract is in this state. */
  ghost predicate At(s: Setting, w: World, i: Bytes, step: ToElrond.Id, x: ExecState, c: Elrond)
    requires Sane(s)
  {
    Led(s, w, i) && w.relayers[i].toElrond.step == step && w.relayers[i].toElrond.exec == x && Now(w).elrond == c
  }

  lemma StepsFrom(s: Setting, w: World, i: Bytes, a: Answers, step: ToElrond.Id, x: ExecState, c: Elrond)
    returns (w': World)
    requires Sane(s) && At(s, w, i, step, x, c) && AnsweredNow(s, w, i, ToElrond.Execute(s.cfg, step, x, a).calls)
    ensures var r := ToElrond.Execute(s.cfg, step, x, a);
            At(s, w', i, r.next, r.state, c) && w'.sent == w.sent + TxsOf(i, r.calls)
  {
    w' := Steps(s, w, i, a);
  }

  lemma FetchAnswered(s: Setting, w: World, i: Bytes, b: Batch, a: Answers, x: ExecState)
    requires Sane(s) && Smooth(s, b, a) && w.history != [] && Now(w).elrond == s.start
    ensures AnsweredNow(s, w, i, ToElrond.GetPending(x, a).calls)
  {
    assert ToElrond.GetPending(x, a).calls ==
      [LastBatchIDRead(a.lastBatchID), EthBatchRead(b.id, Ok(b)), Validated(b, a.valid), LastNonceRead(a.lastNonce)];
  }

  lemma ProposalAnswered(s: Setting, w: World, i: Bytes, b: Batch, a: Answers, x: ExecState)
    requires Smooth(s, b, a) && w.history != [] && Now(w).elrond.actions == [] && x.batch == Some(b)
    ensures AnsweredNow(s, w, i, ToElrond.ProposeTransfer(x, a).calls)
    ensures ToElrond.ProposeTransfer(x, a).calls[2] == ProposalSent(TransferAction(b), a.sent)
  {
    assert ToElrond.ProposeTransfer(x, a).calls ==
      [ProposedAsked(TransferAction(b), Ok(false)), LeaderAsked(true), ProposalSent(TransferAction(b), a.sent)];
  }

  lemma SigningAnswered(s: Setting, w: World, i: Bytes, b: Batch, a: Answers, x: ExecState)
    requires Smooth(s, b, a) && w.history != [] && x.batch == Some(b)
    requires ActionIs(Now(w).elrond, 1, TransferAction(b)) && i !in SignersOf(Now(w).elrond, 1)
    ensures AnsweredNow(s, w, i, ToElrond.SignTransfer(x, a).calls)
    ensures ToElrond.SignTransfer(x, a).calls[2] == SignatureSent(1, a.sent)
  {
    assert ToElrond.SignTransfer(x, a).calls ==
      [ActionIDRead(TransferAction(b), Ok(1)), SignedAsked(1, Ok(false)), SignatureSent(1, a.sent)];
  }

  lemma PerformAnswered(s: Setting, w: World, i: Bytes, b: Batch, a: Answers, x: ExecState)
    requires Smooth(s, b, a) && w.history != [] && 1 !in Now(w).elrond.performed && x.batch.Some? && x.actionID == 1
    ensures AnsweredNow(s, w, i, ToElrond.PerformAction(x, a).calls)
    ensures ToElrond.PerformAction(x, a).calls[2] == PerformSent(1, a.sent)
  {
    assert ToElrond.PerformAction(x, a).calls == [PerformedAsked(1, Ok(false)), LeaderAsked(true), PerformSent(1, a.sent)];
  }

  lemma Fetches(s: Setting, w: World, i: Bytes, b: Batch, a: Answers) returns (w': World)
    requires Sane(s) && Smooth(s, b, a) && At(s, w, i, ToElrond.GettingPendingBatch, INITIAL, s.start)
    ensures At(s, w', i, ToElrond.ProposingTransfer, INITIAL.(batch := Some(b)), s.start)
  {
    FetchAnswered(s, w, i, b, a, INITIAL);
    w' := StepsFrom(s, w, i, a, ToElrond.GettingPendingBatch, INITIAL, s.start);
  }

  lemma Proposes(s: Setting, w: World, i: Bytes, b: Batch, a: Answers) returns (w': World)
    requires Sane(s) && Smooth(s, b, a)
    requires At(s, w, i, ToElrond.ProposingTransfer, INITIAL.(batch := Some(b)), s.start)
    ensures At(s, w', i, ToElrond.SigningProposedTransfer, INITIAL.(batch := Some(b)), s.start)
    ensures ProposeTx(i, TransferAction(b)) in w'.sent
  {
    ProposalAnswered(s, w, i, b, a, INITIAL.(batch := Some(b)));
    w' := StepsFrom(s, w, i, a, ToElrond.ProposingTransfer, INITIAL.(batch := Some(b)), s.start);
  }

  lemma Signs(s: Setting, w: World, i: Bytes, b: Batch, a: Answers, c: Elrond) returns (w': World)
    requires Sane(s) && Smooth(s, b, a) && ActionIs(c, 1, TransferAction(b)) && i !in SignersOf(c, 1)
    requires At(s, w, i, ToElrond.SigningProposedTransfer, INITIAL.(batch := Some(b)), c)
    ensures At(s, w', i, ToElrond.WaitingForQuorum, INITIAL.(batch := Some(b), actionID := 1), c)
    ensures SignTx(i, 1) in w'.sent
  {
    SigningAnswered(s, w, i, b, a, INITIAL.(batch := Some(b)));
    w' := StepsFrom(s, w, i, a, ToElrond.SigningProposedTransfer, INITIAL.(batch := Some(b)), c);
  }

  lemma SeesQuorum(s: Setting, w: World, i: Bytes, b: Batch, a: Answers, c: Elrond) returns (w': World)
    requires Sane(s) && Smooth(s, b, a)
    requires At(s, w, i, ToElrond.WaitingForQuorum, INITIAL.(batch := Some(b), actionID := 1), c)
    ensures At(s, w', i, ToElrond.PerformingActionID, INITIAL.(batch := Some(b), actionID := 1, elrondRetries := 1), c)
  {
    w' := StepsFrom(s, w, i, a, ToElrond.WaitingForQuorum, INITIAL.(batch := Some(b), actionID := 1), c);
  }

  lemma Performs(s: Setting, w: World, i: Bytes, b: Batch, a: Answers, c: Elrond) returns (w': World)
    requires Sane(s) && Smooth(s, b, a) && 1 !in c.performed
    requires At(s, w, i, ToElrond.PerformingActionID, INITIAL.(batch := Some(b), actionID := 1, elrondRetries := 1), c)
    ensures At(s, w', i, ToElrond.PerformingActionID, INITIAL.(batch := Some(b), actionID := 1, elrondRetries := 1), c)
    ensures PerformTx(i, 1) in w'.sent
  {
    PerformAnswered(s, w, i, b, a, INITIAL.(batch := Some(b), actionID := 1, elrondRetries := 1));
    w' := StepsFrom(s, w, i, a, ToElrond.PerformingActionID, INITIAL.(batch := Some(b), actionID := 1, elrondRetries := 1), c);
  }

  lemma IncludesAt(s: Setting, w: World, i: Bytes, step: ToElrond.Id, x: ExecState, c: Elrond, tx: Tx)
    returns (w': World)
    requires Sane(s) && s.arbitrary == {} && At(s, w, i, step, x, c) && tx in w.sent
    ensures At(s, w', i, step, x, Included(c, tx, false, 1))
  {
    w' := Includes(s, w, i, tx);
  }

  /** The contract once the batch is proposed, signed and performed. */
  lemma ContractPerforms(s: Setting, i: Bytes, b: Batch)
    requires Sane(s)
    ensures var c1 := Included(s.start, ProposeTx(i, TransferAction(b)), false, 1);
            var c2 := Included(c1, SignTx(i, 1), false, 1);
            && ActionIs(c1, 1, TransferAction(b)) && SignersOf(c1, 1) == {} && c2.performed == []
            && Included(c2, PerformTx(i, 1), false, 1).transfers == [TransferArgs(b)]
  {
    var c1 := Included(s.start, ProposeTx(i, TransferAction(b)), false, 1);
    var c2 := Included(c1, SignTx(i, 1), false, 1);
    assert SignersOf(c2, 1) == {i};
    assert CanPerform(c2, 1, 1);
  }

  /** A single relayer, answered truly and without failures, gets the next batch performed. */
  lemma NextBatchCanBePerformed(s: Setting, i: Bytes, w: World, b: Batch, a: Answers) returns (w': World)
    requires Sane(s) && s.honest == {i} && s.arbitrary == {} && Initial(s, w) && Smooth(s, b, a)
    ensures Reachable(s, w') && w'.history != [] && Now(w').elrond.transfers == [TransferArgs(b)]
  {
    var c1 := Included(s.start, ProposeTx(i, TransferAction(b)), false, 1);
    var c2 := Included(c1, SignTx(i, 1), false, 1);
    ContractPerforms(s, i, b);
    var w0 := Started(s, i, w);
    var w1 := Fetches(s, w0, i, b, a);
    var w2 := Proposes(s, w1, i, b, a);
    var w3 := IncludesAt(s, w2, i, ToElrond.SigningProposedTransfer, INITIAL.(batch := Some(b)), s.start,
                         ProposeTx(i, TransferAction(b)));
    var w4 := Signs(s, w3, i, b, a, c1);
    var signed := INITIAL.(batch := Some(b), actionID := 1);
    var w5 := IncludesAt(s, w4, i, ToElrond.WaitingForQuorum, signed, c1, SignTx(i, 1));
    var w6 := SeesQuorum(s, w5, i, b, a, c2);
    var w7 := Performs(s, w6, i, b, a, c2);
    w' := IncludesAt(s, w7, i, ToElrond.PerformingActionID, signed.(elrondRetries := 1), c2, PerformTx(i, 1));
  }
}

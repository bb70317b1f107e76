/** Every relayer of a reachable world has the evidence for its steps, and the signatures it counted. */
module Backing {
  import opened Base
  import opened Gossip
  import opened Protocol
  import opened SignatureStore
  import opened World
  import ToElrondRuns
  import ToEth
  import ToEthRuns

  function Held(s: Setting, events: seq<NodeEvent>, hash: Bytes): set<Bytes> {
    SignaturesFor(NodeAfter(s.net, events).store.ethMessages, hash)
  }

  predicate BetweenQuorumAndConfirmation(step: ToEth.Id) {
    step.PerformingTransfer? || step.WaitingTransferConfirmation?
  }

  /** The relayer holds every signature it counted. */
  ghost predicate HoldsCounted(s: Setting, events: seq<NodeEvent>, d: ToEthRuns.Dossier) {
    Distinct(d.listed) && forall x :: x in d.listed ==> x in Held(s, events, d.hash)
  }

  /** At position `k` of the attempt step three counted these signatures and then read this quorum. */
  ghost predicate CountedAt(attempt: seq<Call>, k: nat, d: ToEthRuns.Dossier) {
    && k + 1 < |attempt|
    && attempt[k] == SignaturesRead(d.hash, d.listed) && attempt[k + 1] == QuorumRead(Ok(d.quorum))
  }

  /** Between quorum and confirmation the relayer still holds all signatures it counted. */
  ghost predicate StillHolds(s: Setting, m: ToEthRuns.Machine, events: seq<NodeEvent>, d: ToEthRuns.Dossier) {
    BetweenQuorumAndConfirmation(m.step) ==> HoldsCounted(s, events, d) && exists k :: CountedAt(m.attempt, k, d)
  }

  lemma CountedKept(attempt: seq<Call>, more: seq<Call>, d: ToEthRuns.Dossier)
    requires exists k :: CountedAt(attempt, k, d)
    ensures exists k :: CountedAt(attempt + more, k, d)
  {
    var k: nat :| CountedAt(attempt, k, d);
    assert CountedAt(attempt + more, k, d);
  }

  ghost predicate ToEthBacked(s: Setting, m: ToEthRuns.Machine, events: seq<NodeEvent>, d: ToEthRuns.Dossier) {
    ToEthRuns.Evidence(s.cfg, m, d) && StillHolds(s, m, events, d)
  }

  ghost predicate Backed(s: Setting, r: Relayer) {
    && (exists d :: ToEthBacked(s, r.toEth, r.events, d))
    && (exists d :: ToElrondRuns.Evidence(r.toElrond, d))
  }

  ghost predicate AllBacked(s: Setting, w: World) {
    forall i :: i in w.relayers ==> Backed(s, w.relayers[i])
  }

  lemma NewRelayerBacked(s: Setting)
    ensures Backed(s, NEW_RELAYER)
  {
    var d := ToEthRuns.RunHasEvidence(s.cfg, []);
    assert ToEthBacked(s, NEW_RELAYER.toEth, NEW_RELAYER.events, d);
    var e := ToElrondRuns.RunHasEvidence(s.cfg, []);
    assert ToElrondRuns.Evidence(NEW_RELAYER.toElrond, e);
  }

  // ---------------------------------------------------------------- the Elrond to Ethereum machine

  /** Every listing of signatures among the calls is what the relayer holds. */
  ghost predicate ListingsTrue(s: Setting, events: seq<NodeEvent>, calls: seq<Call>) {
    forall c :: c in calls && c.SignaturesRead? ==> Enumerates(c.listed, Held(s, events, c.ofHash))
  }

  lemma FromQuorum(s: Setting, m: ToEthRuns.Machine, events: seq<NodeEvent>, a: Answers, d: ToEthRuns.Dossier)
    returns (d': ToEthRuns.Dossier)
    requires ToEthBacked(s, m, events, d) && m.step.WaitingForQuorumOnTransfer?
    requires ListingsTrue(s, events, ToEth.WaitForQuorum(s.cfg, m.exec, a).calls)
    ensures ToEthBacked(s, ToEthRuns.After(m, ToEth.WaitForQuorum(s.cfg, m.exec, a)), events, d')
  {
    d' := ToEthRuns.FromWaitForQuorum(s.cfg, m, a, d);
    var r := ToEth.WaitForQuorum(s.cfg, m.exec, a);
    if r.next.PerformingTransfer? {
      assert r.calls[0] == SignaturesRead(d.hash, a.signatures);
      assert HoldsCounted(s, events, d');
      assert CountedAt(m.attempt + r.calls, |m.attempt|, d');
    }
  }

  lemma FromPerforming(s: Setting, m: ToEthRuns.Machine, events: seq<NodeEvent>, a: Answers, d: ToEthRuns.Dossier)
    requires ToEthBacked(s, m, events, d) && m.step.PerformingTransfer?
    ensures ToEthBacked(s, ToEthRuns.After(m, ToEth.PerformTransfer(s.cfg, m.exec, a)), events, d)
  {
    var _ := ToEthRuns.FromPerformTransfer(s.cfg, m, a, d);
    CountedKept(m.attempt, ToEth.PerformTransfer(s.cfg, m.exec, a).calls, d);
  }

  lemma FromConfirming(s: Setting, m: ToEthRuns.Machine, events: seq<NodeEvent>, a: Answers, d: ToEthRuns.Dossier)
    requires ToEthBacked(s, m, events, d) && m.step.WaitingTransferConfirmation?
    ensures ToEthBacked(s, ToEthRuns.After(m, ToEth.WaitConfirmation(m.exec, a)), events, d)
  {
    var _ := ToEthRuns.FromWaitConfirmation(s.cfg, m, a, d);
    CountedKept(m.attempt, ToEth.WaitConfirmation(m.exec, a).calls, d);
  }

  /** Only these three steps lead to where counted signatures matter. */
  lemma ReachedOnlyThere(cfg: Config, id: ToEth.Id, x: ExecState, a: Answers)
    requires !id.WaitingForQuorumOnTransfer? && !BetweenQuorumAndConfirmation(id)
    ensures !BetweenQuorumAndConfirmation(ToEth.Execute(cfg, id, x, a).next)
  {
  }

  /** Only step six records a clear. */
  lemma ClearOnlyWhenResolving(cfg: Config, id: ToEth.Id, x: ExecState, a: Answers)
    requires StoreCleared in ToEth.Execute(cfg, id, x, a).calls
    ensures id.ResolvingSetStatus?
  {
    ToEthRuns.CallsByStep(cfg, id, x, a, StoreCleared);
  }

  lemma ToEthStepBacked(s: Setting, m: ToEthRuns.Machine, a: Answers, events: seq<NodeEvent>,
      events': seq<NodeEvent>, d: ToEthRuns.Dossier)
    returns (d': ToEthRuns.Dossier)
    requires ToEthBacked(s, m, events, d)
    requires ListingsTrue(s, events, ToEth.Execute(s.cfg, m.step, m.exec, a).calls)
    requires events' == events || StoreCleared in ToEth.Execute(s.cfg, m.step, m.exec, a).calls
    ensures ToEthBacked(s, ToEthRuns.Advance(s.cfg, m, a), events', d')
  {
    if StoreCleared in ToEth.Execute(s.cfg, m.step, m.exec, a).calls {
      ClearOnlyWhenResolving(s.cfg, m.step, m.exec, a);
    }
    match m.step
    case WaitingForQuorumOnTransfer => d' := FromQuorum(s, m, events, a, d);
    case PerformingTransfer =>
      FromPerforming(s, m, events, a, d);
      d' := d;
    case WaitingTransferConfirmation =>
      FromConfirming(s, m, events, a, d);
      d' := d;
    case _ =>
      d' := ToEthRuns.AdvanceKeepsEvidence(s.cfg, m, a, d);
      ReachedOnlyThere(s.cfg, m.step, m.exec, a);
  }

  // ---------------------------------------------------------------- every event

  lemma ToElrondStepBacked(s: Setting, r: Relayer, a: Answers)
    requires Backed(s, r)
    ensures Backed(s, r.(toElrond := ToElrondRuns.Advance(s.cfg, r.toElrond, a)))
  {
    var e :| ToElrondRuns.Evidence(r.toElrond, e);
    var e' := ToElrondRuns.AdvanceKeepsEvidence(s.cfg, r.toElrond, a, e);
    assert ToElrondRuns.Evidence(ToElrondRuns.Advance(s.cfg, r.toElrond, a), e');
  }

  lemma GossipBacked(s: Setting, r: Relayer, ne: NodeEvent)
    requires Backed(s, r) && !ne.Cleared?
    ensures Backed(s, r.(events := r.events + [ne]))
  {
    var d :| ToEthBacked(s, r.toEth, r.events, d);
    HeldSignaturesGrow(s.net, r.events, ne, d.hash);
    assert ToEthBacked(s, r.toEth, r.events + [ne], d);
  }

  lemma ListingsHeld(s: Setting, w: World, i: Bytes, calls: seq<Call>, views: seq<nat>)
    requires Sane(s) && i in w.relayers && Answered(s, w, i, calls, views)
    ensures ListingsTrue(s, w.relayers[i].events, calls)
  {
    forall c | c in calls && c.SignaturesRead? ensures Enumerates(c.listed, Held(s, w.relayers[i].events, c.ofHash)) {
      var k :| 0 <= k < |calls| && calls[k] == c;
      assert OwnTrue(s, i, NodeAfter(s.net, w.relayers[i].events), w.history[views[k]].now, c);
    }
  }

  lemma ToEthEventBacked(s: Setting, w: World, i: Bytes, a: Answers, views: seq<nat>)
    requires Sane(s) && w.history != [] && Enabled(s, w, StepToEth(i, a, views)) && AllBacked(s, w)
    ensures AllBacked(s, After(s, w, StepToEth(i, a, views)))
  {
    var r := w.relayers[i];
    var r' := After(s, w, StepToEth(i, a, views)).relayers[i];
    ListingsHeld(s, w, i, ToEthStep(s, w, i, a).calls, views);
    assert Backed(s, r);
    var d :| ToEthBacked(s, r.toEth, r.events, d);
    var d' := ToEthStepBacked(s, r.toEth, a, r.events, r'.events, d);
    assert ToEthBacked(s, r'.toEth, r'.events, d');
  }

  lemma AllBackedKept(s: Setting, w: World, e: Event)
    requires Sane(s) && w.history != [] && Enabled(s, w, e) && AllBacked(s, w)
    ensures AllBacked(s, After(s, w, e))
  {
    match e
    case StepToEth(i, a, views) => ToEthEventBacked(s, w, i, a, views);
    case StepToElrond(i, a, views) => ToElrondStepBacked(s, w.relayers[i], a);
    case Gossiped(i, ne) => GossipBacked(s, w.relayers[i], ne);
    case Restarted(i) => NewRelayerBacked(s);
    case _ =>
  }
}

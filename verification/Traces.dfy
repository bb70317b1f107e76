/** Every leader-only transaction on the trace was sent by the leader of the slot it asked about. */
module Traces {
  import opened Base
  import opened Gossip
  import opened Protocol
  import opened Topology
  import opened World
  import ToElrond
  import ToElrondRuns
  import ToEth
  import ToEthRuns

  /** The transactions that only a leader sends. */
  predicate LeaderOnly(c: Call) {
    c.ProposalSent? || c.PerformSent? || c.TransferSent?
  }

  ghost predicate EntrySound(s: Setting, x: Entry)
    requires LongEnough(s.sha) && s.interval > 0
  {
    && x.relayer in s.honest && |x.times| == |x.calls|
    && (forall k :: 0 <= k < |x.calls| && x.calls[k] == LeaderAsked(true) ==>
          Leads(s.sha, x.whitelist, Slot(x.times[k], s.interval), x.relayer))
    && (forall c :: c in x.calls && LeaderOnly(c) ==> LeaderAsked(true) in x.calls)
  }

  ghost predicate TraceSound(s: Setting, w: World)
    requires LongEnough(s.sha) && s.interval > 0
  {
    && w.relayers.Keys == s.honest
    && forall k :: 0 <= k < |w.trace| ==> EntrySound(s, w.trace[k])
  }

  lemma ToEthLeaderFirst(cfg: Config, id: ToEth.Id, x: ExecState, a: Answers, c: Call)
    requires c in ToEth.Execute(cfg, id, x, a).calls && LeaderOnly(c)
    ensures LeaderAsked(true) in ToEth.Execute(cfg, id, x, a).calls
  {
    ToEthRuns.CallsByStep(cfg, id, x, a, c);
    var calls := ToEth.Execute(cfg, id, x, a).calls;
    assert calls[1] == LeaderAsked(true);
  }

  lemma ToElrondLeaderFirst(cfg: Config, id: ToElrond.Id, x: ExecState, a: Answers, c: Call)
    requires c in ToElrond.Execute(cfg, id, x, a).calls && LeaderOnly(c)
    ensures LeaderAsked(true) in ToElrond.Execute(cfg, id, x, a).calls
  {
    ToElrondRuns.CallsByStep(cfg, id, x, a, c);
    var calls := ToElrond.Execute(cfg, id, x, a).calls;
    assert calls[1] == LeaderAsked(true);
  }

  lemma NewEntrySound(s: Setting, w: World, i: Bytes, half: Half, calls: seq<Call>, views: seq<nat>)
    requires Sane(s) && w.relayers.Keys == s.honest && i in w.relayers && Answered(s, w, i, calls, views)
    requires forall c :: c in calls && LeaderOnly(c) ==> LeaderAsked(true) in calls
    ensures EntrySound(s, Entry(i, half, calls, Times(w, views), NodeAfter(s.net, w.relayers[i].events).elrondWhitelist))
  {
    var n := NodeAfter(s.net, w.relayers[i].events);
    forall k | 0 <= k < |calls| && calls[k] == LeaderAsked(true)
      ensures Leads(s.sha, n.elrondWhitelist, Slot(Times(w, views)[k], s.interval), i)
    {
      assert OwnTrue(s, i, n, w.history[views[k]].now, calls[k]);
    }
  }

  lemma TraceSoundKept(s: Setting, w: World, e: Event)
    requires Sane(s) && w.history != [] && Enabled(s, w, e) && TraceSound(s, w)
    ensures TraceSound(s, After(s, w, e))
  {
    match e
    case StepToEth(i, a, views) =>
      var calls := ToEthStep(s, w, i, a).calls;
      forall c | c in calls && LeaderOnly(c) ensures LeaderAsked(true) in calls {
        ToEthLeaderFirst(s.cfg, w.relayers[i].toEth.step, w.relayers[i].toEth.exec, a, c);
      }
      NewEntrySound(s, w, i, ElrondToEth, calls, views);
    case StepToElrond(i, a, views) =>
      var calls := ToElrondStep(s, w, i, a).calls;
      forall c | c in calls && LeaderOnly(c) ensures LeaderAsked(true) in calls {
        ToElrondLeaderFirst(s.cfg, w.relayers[i].toElrond.step, w.relayers[i].toElrond.exec, a, c);
      }
      NewEntrySound(s, w, i, EthToElrond, calls, views);
    case _ =>
  }
}

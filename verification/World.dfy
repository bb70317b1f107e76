/**
 * The whole system: any number of relayers that run both machines and gossip, two chains, relayers that
 * behave arbitrarily, and every interleaving of them.
 *
 * Assumptions, all of them here: the Elrond contract keeps one action per argument list and performs it
 * at most once, behind signatures of more relayers than there are arbitrary ones; performing a transfer
 * moves its last batch identifier and deposit nonce to those it reads off the arguments; an Ethereum
 * batch with a given identifier has fixed content; executed flags are stable; Ethereum executes only
 * behind as many signatures over the hash of what it executes. A step of a relayer happens at one
 * moment, but each of its reads may show an earlier state of the chains, as long as the reads follow
 * the order of the program: so the chains may move between two reads of one step.
 */
module World {
  import opened Base
  import opened Batches
  import opened ElrondCodec
  import opened EthereumClient
  import opened Gossip
  import opened Protocol
  import opened SignatureStore
  import opened Topology
  import ToElrond
  import ToElrondRuns
  import ToEth
  import ToEthRuns

  // ---------------------------------------------------------------- the chains

  /** The bridge contracts on Elrond. Action identifiers count from one; zero names no action. */
  datatype Elrond = Elrond(
    actions: seq<Action>,
    signers: map<nat, set<Bytes>>,
    performed: seq<nat>,
    transfers: seq<seq<Bytes>>,
    settled: seq<seq<Bytes>>,
    lastBatchID: uint64,
    lastNonce: uint64,
    pending: Option<Batch>)

  datatype Executed = Executed(lists: ArgLists, id: nat)

  datatype Ethereum = Ethereum(executed: seq<Executed>, statuses: map<nat, Bytes>)

  datatype Chain = Chain(elrond: Elrond, ethereum: Ethereum, now: int)

  predicate ActionIs(c: Elrond, id: nat, a: Action) {
    1 <= id <= |c.actions| && c.actions[id - 1] == a
  }

  function SignersOf(c: Elrond, id: nat): set<Bytes> {
    if id in c.signers then c.signers[id] else {}
  }

  predicate EthExecuted(e: Ethereum, id: nat) {
    exists k :: 0 <= k < |e.executed| && e.executed[k].id == id
  }

  datatype Tx =
    | ProposeTx(sender: Bytes, action: Action)
    | SignTx(sender: Bytes, id: nat)
    | PerformTx(sender: Bytes, id: nat)

  /** A proposal of a known argument list changes nothing; the contract may count it as a signature too. */
  function Proposed(c: Elrond, sender: Bytes, a: Action, signs: bool): Elrond {
    if a in c.actions then c
    else
      var id := |c.actions| + 1;
      c.(actions := c.actions + [a], signers := if signs then c.signers[id := {sender}] else c.signers - {id})
  }

  function Signed(c: Elrond, sender: Bytes, id: nat): Elrond {
    if 1 <= id <= |c.actions| then c.(signers := c.signers[id := SignersOf(c, id) + {sender}]) else c
  }

  predicate CanPerform(c: Elrond, id: nat, quorum: nat) {
    1 <= id <= |c.actions| && id !in c.performed && |SignersOf(c, id)| >= quorum
  }

  function Performed(c: Elrond, id: nat, quorum: nat): Elrond {
    if !CanPerform(c, id, quorum) then c
    else
      var done := c.(performed := c.performed + [id]);
      match c.actions[id - 1]
      case SetStatus(args) => done.(settled := c.settled + [args])
      case Transfer(args) =>
        var nonces := DecodedNonces(args);
        done.(transfers := c.transfers + [args],
              lastBatchID := LowUint64(DecodedId(args)),
              lastNonce := if nonces == [] then c.lastNonce else LowUint64(nonces[|nonces| - 1]))
  }

  /** The contract after a transaction; `signs` and `quorum` are the contract's own settings at that moment. */
  function Included(c: Elrond, tx: Tx, signs: bool, quorum: nat): Elrond {
    match tx
    case ProposeTx(sender, a) => Proposed(c, sender, a, signs)
    case SignTx(sender, id) => Signed(c, sender, id)
    case PerformTx(_, id) => Performed(c, id, quorum)
  }

  // ---------------------------------------------------------------- the system

  datatype Half = ElrondToEth | EthToElrond

  datatype Relayer = Relayer(toEth: ToEthRuns.Machine, toElrond: ToElrondRuns.Machine, events: seq<NodeEvent>)

  const NEW_RELAYER: Relayer := Relayer(ToEthRuns.START, ToElrondRuns.START, [])

  /** One executed step: who, which half-bridge, its calls, when each was answered, and the whitelist used. */
  datatype Entry = Entry(relayer: Bytes, half: Half, calls: seq<Call>, times: seq<int>, whitelist: set<Bytes>)

  datatype World = World(
    relayers: map<Bytes, Relayer>,
    history: seq<Chain>,
    sent: set<Tx>,
    broadcast: set<(Bytes, Bytes)>,
    trace: seq<Entry>)

  /** What does not change: code parameters, the network, batch contents, and who follows the protocol. */
  datatype Setting = Setting(
    cfg: Config,
    net: Network,
    content: uint64 -> Batch,
    honest: set<Bytes>,
    arbitrary: set<Bytes>,
    sha: Hasher,
    interval: int,
    start: Elrond)

  /** Batches that exist carry their identifier, and identifiers and nonces fit the contract's encoding. */
  ghost predicate Sane(s: Setting) {
    && s.honest !! s.arbitrary
    && (forall id :: s.content(id).deposits != [] ==> s.content(id).id == id && InInt64Range(s.content(id)))
    && LongEnough(s.sha) && s.interval > 0
    && s.start.actions == [] && s.start.signers == map[] && s.start.performed == []
    && s.start.transfers == [] && s.start.settled == []
    && s.start.lastBatchID < TWO_63 && s.start.lastNonce < TWO_63
  }

  ghost predicate Initial(s: Setting, w: World) {
    && w.relayers.Keys == s.honest
    && (forall i :: i in w.relayers ==> w.relayers[i] == NEW_RELAYER)
    && |w.history| == 1 && w.history[0].elrond == s.start && w.history[0].ethereum.executed == []
    && w.sent == {} && w.broadcast == {} && w.trace == []
  }

  function Now(w: World): Chain
    requires w.history != []
  {
    w.history[|w.history| - 1]
  }

  /** An answer of the chains that is true of the state `c`, for relayer `i`; errors are always possible. */
  predicate True(s: Setting, i: Bytes, c: Chain, call: Call) {
    match call
    case PendingFetched(Ok(b)) => c.elrond.pending == Some(b) && AsParsed(b)
    case EthExecutedAsked(id, Ok(yes)) => yes == EthExecuted(c.ethereum, id)
    case StatusesRead(id, Ok(st)) => id in c.ethereum.statuses && c.ethereum.statuses[id] == st
    case ProposedAsked(a, Ok(yes)) => yes == (a in c.elrond.actions)
    case ActionIDRead(a, Ok(id)) => id == INVALID_ACTION_ID || ActionIs(c.elrond, id, a)
    case SignedAsked(id, Ok(yes)) => yes == (i in SignersOf(c.elrond, id))
    case PerformedAsked(id, Ok(yes)) => yes == (id in c.elrond.performed)
    case LastBatchIDRead(Ok(id)) => id == c.elrond.lastBatchID
    case LastNonceRead(Ok(n)) => n == c.elrond.lastNonce
    case EthBatchRead(id, Ok(b)) => b.id == id && b.deposits != [] ==> b == s.content(id)
    case _ => true
  }

  /** What the relayer's own components answer: its signature store and its leader election. */
  ghost predicate OwnTrue(s: Setting, i: Bytes, n: Node, now: int, call: Call)
    requires LongEnough(s.sha) && s.interval > 0
  {
    match call
    case SignaturesRead(h, listed) => Enumerates(listed, SignaturesFor(n.store.ethMessages, h))
    case LeaderAsked(mine) => mine == Leads(s.sha, n.elrondWhitelist, Slot(now, s.interval), i)
    case _ => true
  }

  /** Each call `k` is answered from the state `history[views[k]]`, in program order. */
  ghost predicate Answered(s: Setting, w: World, i: Bytes, calls: seq<Call>, views: seq<nat>)
    requires Sane(s) && i in w.relayers
  {
    && |views| == |calls|
    && (forall k :: 0 <= k < |views| ==> views[k] < |w.history|)
    && (forall j, k :: 0 <= j < k < |views| ==> views[j] <= views[k])
    && (forall k :: 0 <= k < |calls| ==> True(s, i, w.history[views[k]], calls[k]))
    && (forall k :: 0 <= k < |calls| ==>
          OwnTrue(s, i, NodeAfter(s.net, w.relayers[i].events), w.history[views[k]].now, calls[k]))
  }

  datatype Event =
    | StepToEth(i: Bytes, a: Answers, views: seq<nat>)
    | StepToElrond(i: Bytes, a: Answers, views: seq<nat>)
    | Gossiped(i: Bytes, e: NodeEvent)
    | Restarted(i: Bytes)
    | ElrondIncludes(tx: Tx, signs: bool, quorum: nat)
    | EthereumExecutes(executed: Executed, signers: set<Bytes>)
    | EthereumSettles(statuses: map<nat, Bytes>)
    | PendingChanges(pending: Option<Batch>)
    | TimePasses(now: int)

  ghost function ToEthStep(s: Setting, w: World, i: Bytes, a: Answers): ToEth.Step
    requires i in w.relayers
  {
    ToEth.Execute(s.cfg, w.relayers[i].toEth.step, w.relayers[i].toEth.exec, a)
  }

  function ToElrondStep(s: Setting, w: World, i: Bytes, a: Answers): ToElrond.Step
    requires i in w.relayers
  {
    ToElrond.Execute(s.cfg, w.relayers[i].toElrond.step, w.relayers[i].toElrond.exec, a)
  }

  ghost predicate Enabled(s: Setting, w: World, e: Event)
    requires Sane(s)
  {
    match e
    case StepToEth(i, a, views) =>
      && i in w.relayers && TransferPanicked !in ToEthStep(s, w, i, a).calls
      && Answered(s, w, i, ToEthStep(s, w, i, a).calls, views)
    case StepToElrond(i, a, views) => i in w.relayers && Answered(s, w, i, ToElrondStep(s, w, i, a).calls, views)
    case Gossiped(i, ne) => i in w.relayers && !ne.Cleared?
    case Restarted(i) => i in w.relayers
    case ElrondIncludes(tx, _, quorum) => (tx in w.sent || tx.sender in s.arbitrary) && quorum > |s.arbitrary|
    case EthereumExecutes(x, signers) =>
      && signers <= s.honest + s.arbitrary && |signers| > |s.arbitrary|
      && HashOf(s.cfg.hashing, x.lists, x.id).Ok?
      && forall i :: i in signers && i in s.honest ==> (i, HashOf(s.cfg.hashing, x.lists, x.id).value) in w.broadcast
    case EthereumSettles(_) => true
    case PendingChanges(_) => true
    case TimePasses(_) => true
  }

  function TxsOf(i: Bytes, calls: seq<Call>): set<Tx> {
    (set k | 0 <= k < |calls| && calls[k].ProposalSent? :: ProposeTx(i, calls[k].proposal))
    + (set k | 0 <= k < |calls| && calls[k].SignatureSent? :: SignTx(i, calls[k].signID))
    + (set k | 0 <= k < |calls| && calls[k].PerformSent? :: PerformTx(i, calls[k].performID))
  }

  function BroadcastsOf(i: Bytes, calls: seq<Call>): set<(Bytes, Bytes)> {
    set k | 0 <= k < |calls| && calls[k].SignatureBroadcast? :: (i, calls[k].hash)
  }

  function Times(w: World, views: seq<nat>): seq<int>
    requires forall k :: 0 <= k < |views| ==> views[k] < |w.history|
  {
    seq(|views|, k requires 0 <= k < |views| => w.history[views[k]].now)
  }

  /** The relayer once its Elrond to Ethereum machine made a step; a clear reaches its store at once. */
  function SteppedToEth(was: Relayer, r: ToEth.Step): Relayer {
    Relayer(ToEthRuns.After(was.toEth, r), was.toElrond,
            if StoreCleared in r.calls then was.events + [Cleared] else was.events)
  }

  /** The world once relayer `i` has become `r` by a step with these calls. */
  ghost function Stepped(s: Setting, w: World, i: Bytes, half: Half, r: Relayer, calls: seq<Call>,
      views: seq<nat>): World
    requires i in w.relayers && forall k :: 0 <= k < |views| ==> views[k] < |w.history|
  {
    World(w.relayers[i := r], w.history, w.sent + TxsOf(i, calls), w.broadcast + BroadcastsOf(i, calls),
          w.trace + [Entry(i, half, calls, Times(w, views), NodeAfter(s.net, w.relayers[i].events).elrondWhitelist)])
  }

  function Extended(w: World, c: Chain): World {
    w.(history := w.history + [c])
  }

  /** The chains after one of their own events. */
  function Moved(c: Chain, e: Event): Chain {
    match e
    case ElrondIncludes(tx, signs, quorum) => c.(elrond := Included(c.elrond, tx, signs, quorum))
    case EthereumExecutes(x, _) => c.(ethereum := c.ethereum.(executed := c.ethereum.executed + [x]))
    case EthereumSettles(st) => c.(ethereum := c.ethereum.(statuses := st))
    case PendingChanges(p) => c.(elrond := c.elrond.(pending := p))
    case TimePasses(t) => c.(now := t)
    case _ => c
  }

  predicate IsChainEvent(e: Event) {
    e.ElrondIncludes? || e.EthereumExecutes? || e.EthereumSettles? || e.PendingChanges? || e.TimePasses?
  }

  /** The world after an event. */
  ghost function After(s: Setting, w: World, e: Event): World
    requires Sane(s) && w.history != [] && Enabled(s, w, e)
  {
    match e
    case StepToEth(i, a, views) =>
      var r := ToEthStep(s, w, i, a);
      Stepped(s, w, i, ElrondToEth, SteppedToEth(w.relayers[i], r), r.calls, views)
    case StepToElrond(i, a, views) =>
      var old', r := w.relayers[i], ToElrondStep(s, w, i, a);
      Stepped(s, w, i, EthToElrond, old'.(toElrond := ToElrondRuns.After(old'.toElrond, r)), r.calls, views)
    case Gossiped(i, ne) => w.(relayers := w.relayers[i := w.relayers[i].(events := w.relayers[i].events + [ne])])
    case Restarted(i) => w.(relayers := w.relayers[i := NEW_RELAYER])
    case _ => Extended(w, Moved(Now(w), e))
  }

  /** One world becomes another by an event. */
  ghost predicate Becomes(s: Setting, w: World, e: Event, w': World)
    requires Sane(s)
  {
    w.history != [] && Enabled(s, w, e) && w' == After(s, w, e)
  }

  /** A run: worlds joined by enabled events, from an initial one. */
  ghost predicate IsRun(s: Setting, worlds: seq<World>, events: seq<Event>)
    requires Sane(s)
  {
    && |worlds| == |events| + 1 && Initial(s, worlds[0])
    && forall k {:trigger events[k]} :: 0 <= k < |events| ==> Becomes(s, worlds[k], events[k], worlds[k + 1])
  }

  /** Worlds that some run visits. */
  ghost predicate Reachable(s: Setting, w: World)
    requires Sane(s)
  {
    exists worlds, events :: IsRun(s, worlds, events) && worlds[|worlds| - 1] == w
  }
}

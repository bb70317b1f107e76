/**
 * The store of gossiped signatures (bridges/ethElrond/signaturesHolder.go), as a map and a list, and
 * its meaning as a log of deliveries and clears.
 */
module SignatureStore {
  import opened Base
  import opened Messages

  datatype Delivery = Delivery(msg: SignedMessage, eth: EthereumSignature)
  datatype Op = Deliver(delivery: Delivery) | Clear

  /** The contents of the store. */
  datatype Store = Store(signedMessages: map<Bytes, SignedMessage>, ethMessages: seq<EthereumSignature>)

  const EMPTY: Store := Store(map[], [])

  function Apply(s: Store, op: Op): Store {
    match op
    case Deliver(d) => Store(s.signedMessages[d.msg.UniqueID() := d.msg], s.ethMessages + [d.eth])
    case Clear => EMPTY
  }

  /** The store after a history of operations, oldest first. */
  function Replay(ops: seq<Op>): Store {
    if ops == [] then EMPTY else Apply(Replay(ops[..|ops| - 1]), ops[|ops| - 1])
  }

  /** The signature bytes held for a message hash. */
  function SignaturesFor(ethMessages: seq<EthereumSignature>, hash: Bytes): set<Bytes> {
    set i | 0 <= i < |ethMessages| && ethMessages[i].messageHash == hash :: ethMessages[i].signature
  }

  class SignaturesHolder {
    var signedMessages: map<Bytes, SignedMessage>
    var ethMessages: seq<EthereumSignature>

    constructor ()
      ensures Valid() && Contents() == EMPTY
    {
      signedMessages, ethMessages := map[], [];
    }

    ghost function Contents(): Store
      reads this
    {
      Store(signedMessages, ethMessages)
    }

    /** Every message is stored under its own identifier. */
    ghost predicate Valid()
      reads this
    {
      KeyedById(signedMessages)
    }

    /** A missing message or signature is ignored. */
    method ProcessNewMessage(msg: Option<SignedMessage>, eth: Option<EthereumSignature>)
      requires Valid()
      modifies this
      ensures Valid()
      ensures Contents() ==
              if msg.None? || eth.None? then old(Contents())
              else Apply(old(Contents()), Deliver(Delivery(msg.value, eth.value)))
    {
      if msg.None? || eth.None? {
        return;
      }
      signedMessages := signedMessages[msg.value.UniqueID() := msg.value];
      ethMessages := ethMessages + [eth.value];
    }

    /** The stored messages, each once, in the arbitrary order of a map. */
    method AllStoredSignatures() returns (result: seq<SignedMessage>)
      requires Valid()
      ensures Enumerates(result, signedMessages.Values)
    {
      result := [];
      var rest := signedMessages.Keys;
      while rest != {}
        invariant rest <= signedMessages.Keys
        invariant forall m :: m in result ==> m.UniqueID() in signedMessages.Keys - rest
        invariant forall k :: k in signedMessages.Keys - rest ==> signedMessages[k] in result
        invariant forall m :: m in result ==> m in signedMessages.Values
        invariant Distinct(result)
        decreases |rest|
      {
        var k :| k in rest;
        assert signedMessages[k] !in result;
        result := result + [signedMessages[k]];
        rest := rest - {k};
      }
    }

    /** The signatures for a hash: each once, in arbitrary order. */
    method Signatures(msgHash: Bytes) returns (result: seq<Bytes>)
      ensures Enumerates(result, SignaturesFor(ethMessages, msgHash))
    {
      var uniqueEthSigs: set<Bytes> := {};
      for i := 0 to |ethMessages|
        invariant uniqueEthSigs == SignaturesFor(ethMessages[..i], msgHash)
      {
        SignaturesForAppend(ethMessages[..i], ethMessages[i], msgHash);
        assert ethMessages[..i + 1] == ethMessages[..i] + [ethMessages[i]];
        if ethMessages[i].messageHash == msgHash {
          uniqueEthSigs := uniqueEthSigs + {ethMessages[i].signature};
        }
      }
      assert ethMessages[..|ethMessages|] == ethMessages;
      result := [];
      var rest := uniqueEthSigs;
      while rest != {}
        invariant rest <= uniqueEthSigs
        invariant Enumerates(result, uniqueEthSigs - rest)
        decreases |rest|
      {
        var sig :| sig in rest;
        result := result + [sig];
        rest := rest - {sig};
      }
      assert uniqueEthSigs - rest == uniqueEthSigs;
    }

    method ClearStoredSignatures()
      modifies this
      ensures Valid() && Contents() == Apply(old(Contents()), Clear)
    {
      signedMessages := map[];
      ethMessages := [];
    }
  }

  lemma SignaturesForAppend(es: seq<EthereumSignature>, e: EthereumSignature, hash: Bytes)
    ensures SignaturesFor(es + [e], hash) ==
            SignaturesFor(es, hash) + (if e.messageHash == hash then {e.signature} else {})
  {
    var now := es + [e];
    forall s | s in SignaturesFor(es, hash) ensures s in SignaturesFor(now, hash) {
      var i :| 0 <= i < |es| && es[i].messageHash == hash && es[i].signature == s;
      assert now[i] == es[i];
    }
    if e.messageHash == hash {
      assert now[|es|] == e;
    }
  }

  /** The deliveries after the last clear. */
  function SinceClear(ops: seq<Op>): seq<Delivery> {
    if ops == [] then []
    else match ops[|ops| - 1]
      case Clear => []
      case Deliver(d) => SinceClear(ops[..|ops| - 1]) + [d]
  }

  /** `d` was delivered at position `i`, and nothing was cleared from there on. */
  ghost predicate DeliveredSinceClear(ops: seq<Op>, i: nat, d: Delivery) {
    i < |ops| && ops[i] == Deliver(d) && forall j :: i <= j < |ops| ==> ops[j].Deliver?
  }

  lemma {:induction false} SinceClearMembers(ops: seq<Op>, d: Delivery)
    ensures d in SinceClear(ops) <==> exists i :: DeliveredSinceClear(ops, i, d)
  {
    if ops != [] {
      var front := ops[..|ops| - 1];
      SinceClearMembers(front, d);
      match ops[|ops| - 1]
      case Clear =>
      case Deliver(x) =>
        if exists i :: DeliveredSinceClear(front, i, d) {
          var i: nat :| DeliveredSinceClear(front, i, d);
          assert DeliveredSinceClear(ops, i, d);
        }
        if x == d {
          assert DeliveredSinceClear(ops, |ops| - 1, d);
        }
        if exists i :: DeliveredSinceClear(ops, i, d) {
          var i: nat :| DeliveredSinceClear(ops, i, d);
          assert i == |ops| - 1 || DeliveredSinceClear(front, i, d);
        }
    }
  }

  lemma {:induction false} EthMessagesAreDeliveries(ops: seq<Op>)
    ensures |Replay(ops).ethMessages| == |SinceClear(ops)|
    ensures forall i :: 0 <= i < |SinceClear(ops)| ==> Replay(ops).ethMessages[i] == SinceClear(ops)[i].eth
  {
    if ops != [] {
      EthMessagesAreDeliveries(ops[..|ops| - 1]);
    }
  }

  /** The signatures for a hash are exactly those delivered for it since the last clear. */
  lemma SignaturesAreDelivered(ops: seq<Op>, hash: Bytes, sig: Bytes)
    ensures sig in SignaturesFor(Replay(ops).ethMessages, hash) <==>
            exists i, d :: DeliveredSinceClear(ops, i, d) && d.eth == EthereumSignature(sig, hash)
  {
    EthMessagesAreDeliveries(ops);
    var es, ds := Replay(ops).ethMessages, SinceClear(ops);
    if sig in SignaturesFor(es, hash) {
      var k :| 0 <= k < |es| && es[k].messageHash == hash && es[k].signature == sig;
      SinceClearMembers(ops, ds[k]);
      assert ds[k].eth == EthereumSignature(sig, hash);
    }
    if exists i, d :: DeliveredSinceClear(ops, i, d) && d.eth == EthereumSignature(sig, hash) {
      var i: nat, d :| DeliveredSinceClear(ops, i, d) && d.eth == EthereumSignature(sig, hash);
      SinceClearMembers(ops, d);
      var k :| 0 <= k < |ds| && ds[k] == d;
      assert es[k] == EthereumSignature(sig, hash);
    }
  }

  /** Until the next clear the signatures for a hash only grow. */
  lemma {:induction false} SignaturesGrow(ops: seq<Op>, more: seq<Op>, hash: Bytes)
    requires forall i :: 0 <= i < |more| ==> more[i].Deliver?
    ensures SignaturesFor(Replay(ops).ethMessages, hash) <= SignaturesFor(Replay(ops + more).ethMessages, hash)
  {
    if more == [] {
      assert ops + more == ops;
    } else {
      var front := more[..|more| - 1];
      var last := more[|more| - 1];
      SignaturesGrow(ops, front, hash);
      assert (ops + more)[..|ops + more| - 1] == ops + front;
      assert (ops + more)[|ops + more| - 1] == last;
      SignaturesForAppend(Replay(ops + front).ethMessages, last.delivery.eth, hash);
    }
  }

  /** `m` is the newest message of its sender and payload among the deliveries. */
  ghost predicate Latest(ds: seq<Delivery>, m: SignedMessage) {
    exists i :: LatestAt(ds, i, m)
  }

  ghost predicate LatestAt(ds: seq<Delivery>, i: nat, m: SignedMessage) {
    i < |ds| && ds[i].msg == m && forall j :: i < j < |ds| ==> !SameSource(ds[j].msg, m)
  }

  ghost predicate KeysOfLength(ds: seq<Delivery>, n: nat) {
    forall i :: 0 <= i < |ds| ==> |ds[i].msg.publicKey| == n
  }

  /** Identifiers tell the sources of the deliveries apart. */
  ghost predicate IdsDetermine(ds: seq<Delivery>) {
    forall i, j :: 0 <= i < |ds| && 0 <= j < |ds| && ds[i].msg.UniqueID() == ds[j].msg.UniqueID() ==>
      SameSource(ds[i].msg, ds[j].msg)
  }

  /** `m` is the newest message under its identifier. */
  ghost predicate Newest(ds: seq<Delivery>, m: SignedMessage) {
    exists i :: NewestAt(ds, i, m)
  }

  ghost predicate NewestAt(ds: seq<Delivery>, i: nat, m: SignedMessage) {
    i < |ds| && ds[i].msg == m && forall j :: i < j < |ds| ==> ds[j].msg.UniqueID() != m.UniqueID()
  }

  lemma NewestAppend(ds: seq<Delivery>, d: Delivery, m: SignedMessage)
    ensures Newest(ds + [d], m) <==> d.msg == m || (Newest(ds, m) && d.msg.UniqueID() != m.UniqueID())
  {
    var now := ds + [d];
    if d.msg == m {
      assert NewestAt(now, |ds|, m);
    } else if Newest(ds, m) && d.msg.UniqueID() != m.UniqueID() {
      var i: nat :| NewestAt(ds, i, m);
      assert NewestAt(now, i, m);
    }
    if Newest(now, m) && d.msg != m {
      var i: nat :| NewestAt(now, i, m);
      assert now[|ds|] == d && i < |ds|;
      assert forall j :: i < j < |ds| ==> now[j] == ds[j];
      assert NewestAt(ds, i, m);
    }
  }

  /** A stored entry sits under its own identifier. */
  ghost predicate KeyedById(s: map<Bytes, SignedMessage>) {
    forall k :: k in s ==> s[k].UniqueID() == k
  }

  lemma {:induction false} StoredKeyedById(ops: seq<Op>)
    ensures KeyedById(Replay(ops).signedMessages)
  {
    if ops != [] {
      StoredKeyedById(ops[..|ops| - 1]);
    }
  }

  /** The stored messages are the newest per identifier since the last clear. */
  lemma {:induction false} StoredAreNewest(ops: seq<Op>, m: SignedMessage)
    ensures m in Replay(ops).signedMessages.Values <==> Newest(SinceClear(ops), m)
  {
    if ops != [] {
      var front := ops[..|ops| - 1];
      match ops[|ops| - 1]
      case Clear =>
      case Deliver(d) =>
        StoredAreNewest(front, m);
        NewestAppend(SinceClear(front), d, m);
        StoredKeyedById(front);
        var old', now := Replay(front).signedMessages, Replay(ops).signedMessages;
        if d.msg == m {
          assert now[d.msg.UniqueID()] == m;
        } else if m in old'.Values {
          var k :| k in old' && old'[k] == m;
          assert d.msg.UniqueID() == m.UniqueID() || now[k] == m;
        }
        if m in now.Values && d.msg != m {
          var k :| k in now && now[k] == m;
          assert k in old' && old'[k] == m;
        }
    }
  }

  /** Every source that delivered has a latest message. */
  lemma {:induction false} LatestExists(ds: seq<Delivery>, i: nat) returns (m: SignedMessage)
    requires i < |ds|
    ensures Latest(ds, m) && SameSource(m, ds[i].msg)
    decreases |ds| - i
  {
    if j: nat :| i < j < |ds| && SameSource(ds[j].msg, ds[i].msg) {
      m := LatestExists(ds, j);
    } else {
      m := ds[i].msg;
      assert LatestAt(ds, i, m);
    }
  }

  lemma NewestSharesNoId(ds: seq<Delivery>, x: SignedMessage, y: SignedMessage)
    requires Newest(ds, x) && Newest(ds, y) && x.UniqueID() == y.UniqueID()
    ensures x == y
  {
    var i: nat :| NewestAt(ds, i, x);
    var j: nat :| NewestAt(ds, j, y);
    assert i <= j && j <= i;
  }

  lemma NewestIsLatest(ds: seq<Delivery>, m: SignedMessage)
    requires IdsDetermine(ds)
    ensures Newest(ds, m) <==> Latest(ds, m)
  {
    if Newest(ds, m) {
      var i: nat :| NewestAt(ds, i, m);
      assert LatestAt(ds, i, m);
    }
    if Latest(ds, m) {
      var i: nat :| LatestAt(ds, i, m);
      assert NewestAt(ds, i, m);
    }
  }

  /**
   * The stored messages are exactly the latest per sender and payload if and only if identifiers tell the
   * sources of the deliveries apart.
   */
  lemma StoredAreLatestExactly(ops: seq<Op>)
    ensures (forall m :: m in Replay(ops).signedMessages.Values <==> Latest(SinceClear(ops), m)) <==>
            IdsDetermine(SinceClear(ops))
  {
    var ds, stored := SinceClear(ops), Replay(ops).signedMessages.Values;
    forall m ensures m in stored <==> Newest(ds, m) {
      StoredAreNewest(ops, m);
    }
    if IdsDetermine(ds) {
      forall m ensures m in stored <==> Latest(ds, m) {
        NewestIsLatest(ds, m);
      }
    }
    if forall m :: m in stored <==> Latest(ds, m) {
      forall i, j | 0 <= i < |ds| && 0 <= j < |ds| && ds[i].msg.UniqueID() == ds[j].msg.UniqueID()
        ensures SameSource(ds[i].msg, ds[j].msg)
      {
        var x := LatestExists(ds, i);
        var y := LatestExists(ds, j);
        assert x in stored && y in stored;
        NewestSharesNoId(ds, x, y);
      }
    }
  }

  /** Public keys of one length are enough. */
  lemma StoredAreLatest(ops: seq<Op>, n: nat, m: SignedMessage)
    requires KeysOfLength(SinceClear(ops), n)
    ensures m in Replay(ops).signedMessages.Values <==> Latest(SinceClear(ops), m)
  {
    var ds := SinceClear(ops);
    forall i, j | 0 <= i < |ds| && 0 <= j < |ds| && ds[i].msg.UniqueID() == ds[j].msg.UniqueID()
      ensures SameSource(ds[i].msg, ds[j].msg)
    {
      UniqueIDExact(ds[i].msg, ds[j].msg);
    }
    StoredAreLatestExactly(ops);
  }

  /**
   * Without that, a delivery can displace the latest message of another source: in the store taken alone.
   * Behind a broadcaster all keys have one length, and this does not happen.
   */
  lemma DisplacedByCollision() returns (ops: seq<Op>, m: SignedMessage)
    ensures Latest(SinceClear(ops), m) && m !in Replay(ops).signedMessages.Values
  {
    var x, y := UniqueIDCollision();
    var none := EthereumSignature([], []);
    var first, second := Deliver(Delivery(x, none)), Deliver(Delivery(y, none));
    ops, m := [first, second], x;
    assert ops[..1] == [first] && [first][..0] == [];
    assert SinceClear([first]) == [Delivery(x, none)];
    var ds := SinceClear(ops);
    assert ds == [Delivery(x, none), Delivery(y, none)];
    assert LatestAt(ds, 0, x);
    StoredAreNewest(ops, x);
    forall i ensures !NewestAt(ds, i, x) {
      assert ds[1].msg.UniqueID() == x.UniqueID();
    }
  }

  // ---------------------------------------------------------------- merging over several clients

  /** The messages of one client, written into a map in the order given. */
  function Merged(all: map<Bytes, SignedMessage>, msgs: seq<SignedMessage>): map<Bytes, SignedMessage> {
    if msgs == [] then all
    else
      var m := msgs[|msgs| - 1];
      Merged(all, msgs[..|msgs| - 1])[m.UniqueID() := m]
  }

  function MergedClients(clients: seq<seq<SignedMessage>>): map<Bytes, SignedMessage> {
    if clients == [] then map[]
    else Merged(MergedClients(clients[..|clients| - 1]), clients[|clients| - 1])
  }

  /** `retrieveUniqueMessages` of the broadcaster over the stored messages of its clients. */
  method RetrieveUniqueMessages(clients: seq<seq<SignedMessage>>) returns (all: map<Bytes, SignedMessage>)
    ensures all == MergedClients(clients)
  {
    all := map[];
    for c := 0 to |clients|
      invariant all == MergedClients(clients[..c])
    {
      var messages := clients[c];
      ghost var before := all;
      for i := 0 to |messages|
        invariant all == Merged(before, messages[..i])
      {
        assert messages[..i + 1][..i] == messages[..i];
        all := all[messages[i].UniqueID() := messages[i]];
      }
      assert messages[..|messages|] == messages;
      assert clients[..c + 1][..c] == clients[..c];
    }
    assert clients[..|clients|] == clients;
  }

  /** The stores of all clients over each other: what a later client holds under an identifier counts. */
  function Overlay(stores: seq<map<Bytes, SignedMessage>>): map<Bytes, SignedMessage> {
    if stores == [] then map[] else Overlay(stores[..|stores| - 1]) + stores[|stores| - 1]
  }

  /** Whatever the order of the messages, merging writes each under its identifier and leaves the rest. */
  lemma {:induction false} MergedAt(all: map<Bytes, SignedMessage>, msgs: seq<SignedMessage>, id: Bytes)
    requires forall i, j :: 0 <= i < j < |msgs| ==> msgs[i].UniqueID() != msgs[j].UniqueID()
    ensures id in Merged(all, msgs) <==> id in all || exists i :: 0 <= i < |msgs| && msgs[i].UniqueID() == id
    ensures forall i :: 0 <= i < |msgs| && msgs[i].UniqueID() == id ==> Merged(all, msgs)[id] == msgs[i]
    ensures (forall i :: 0 <= i < |msgs| ==> msgs[i].UniqueID() != id) && id in all ==> Merged(all, msgs)[id] == all[id]
  {
    if msgs != [] {
      var front := msgs[..|msgs| - 1];
      MergedAt(all, front, id);
      assert forall i :: 0 <= i < |front| ==> front[i] == msgs[i];
    }
  }

  lemma MergedIsUnion(all: map<Bytes, SignedMessage>, msgs: seq<SignedMessage>, store: map<Bytes, SignedMessage>)
    requires KeyedById(store) && Enumerates(msgs, store.Values)
    ensures Merged(all, msgs) == all + store
  {
    forall i | 0 <= i < |msgs| ensures msgs[i].UniqueID() in store && store[msgs[i].UniqueID()] == msgs[i] {
      assert msgs[i] in msgs;
      var k :| k in store && store[k] == msgs[i];
    }
    forall id | id in store ensures exists i :: 0 <= i < |msgs| && msgs[i] == store[id] {
      assert store[id] in msgs;
    }
    forall id
      ensures id in Merged(all, msgs) <==> id in all + store
      ensures id in all + store ==> Merged(all, msgs)[id] == (all + store)[id]
    {
      MergedAt(all, msgs, id);
    }
  }

  /** Merging the listings of the clients overlays their stores. */
  lemma {:induction false} MergedClientsExact(clients: seq<seq<SignedMessage>>, stores: seq<map<Bytes, SignedMessage>>)
    requires |clients| == |stores|
    requires forall c :: 0 <= c < |stores| ==> KeyedById(stores[c]) && Enumerates(clients[c], stores[c].Values)
    ensures MergedClients(clients) == Overlay(stores)
  {
    if clients != [] {
      var n := |clients| - 1;
      MergedClientsExact(clients[..n], stores[..n]);
      MergedIsUnion(MergedClients(clients[..n]), clients[n], stores[n]);
    }
  }

  /** The stores of clients with these logs. */
  function StoresOf(logs: seq<seq<Op>>): (stores: seq<map<Bytes, SignedMessage>>)
    ensures |stores| == |logs|
  {
    if logs == [] then [] else StoresOf(logs[..|logs| - 1]) + [Replay(logs[|logs| - 1]).signedMessages]
  }

  /** The clients all got the deliveries `ds`; each may have been cleared at some time of its own. */
  ghost predicate ShareDeliveries(logs: seq<seq<Op>>, ds: seq<Delivery>) {
    forall c :: 0 <= c < |logs| ==> IsSuffix(SinceClear(logs[c]), ds)
  }

  ghost predicate IsSuffix(xs: seq<Delivery>, ds: seq<Delivery>) {
    |xs| <= |ds| && xs == ds[|ds| - |xs|..]
  }

  lemma SuffixNewest(xs: seq<Delivery>, ds: seq<Delivery>, m: SignedMessage)
    requires IsSuffix(xs, ds) && Newest(xs, m)
    ensures Newest(ds, m)
  {
    var i: nat :| NewestAt(xs, i, m);
    var n := |ds| - |xs|;
    assert forall j :: n + i < j < |ds| ==> ds[j] == xs[j - n];
    assert NewestAt(ds, n + i, m);
  }

  /** Newest messages of suffixes of one sequence of deliveries agree under each identifier. */
  lemma SuffixesAgree(xs: seq<Delivery>, ys: seq<Delivery>, ds: seq<Delivery>, x: SignedMessage, y: SignedMessage)
    requires IsSuffix(xs, ds) && IsSuffix(ys, ds) && Newest(xs, x) && Newest(ys, y) && x.UniqueID() == y.UniqueID()
    ensures x == y
  {
    SuffixNewest(xs, ds, x);
    SuffixNewest(ys, ds, y);
    NewestSharesNoId(ds, x, y);
  }

  /** Stores that agree where they overlap lose nothing by being laid over each other. */
  lemma AgreeingOverlay(was: map<Bytes, SignedMessage>, last: map<Bytes, SignedMessage>, m: SignedMessage)
    requires KeyedById(was) && KeyedById(last)
    requires forall id :: id in was && id in last ==> was[id] == last[id]
    ensures KeyedById(was + last)
    ensures m in (was + last).Values <==> m in was.Values || m in last.Values
  {
    var now := was + last;
    if m in was.Values || m in last.Values {
      assert now[m.UniqueID()] == m;
    }
  }

  ghost predicate SomeoneHolds(logs: seq<seq<Op>>, m: SignedMessage) {
    exists c :: 0 <= c < |logs| && Newest(SinceClear(logs[c]), m)
  }

  lemma SomeoneHoldsAppend(front: seq<seq<Op>>, last: seq<Op>, m: SignedMessage)
    ensures SomeoneHolds(front + [last], m) <==> SomeoneHolds(front, m) || Newest(SinceClear(last), m)
  {
    var logs := front + [last];
    assert logs[|front|] == last;
    if SomeoneHolds(front, m) {
      var c :| 0 <= c < |front| && Newest(SinceClear(front[c]), m);
      assert logs[c] == front[c];
    }
  }

  /** The merge holds exactly the newest messages, under their identifiers, that some client still holds. */
  lemma {:induction false} MergedAreNewest(logs: seq<seq<Op>>, ds: seq<Delivery>)
    requires ShareDeliveries(logs, ds)
    ensures KeyedById(Overlay(StoresOf(logs)))
    ensures forall m :: m in Overlay(StoresOf(logs)).Values <==> SomeoneHolds(logs, m)
  {
    if logs != [] {
      var n := |logs| - 1;
      var front, last := logs[..n], Replay(logs[n]).signedMessages;
      var was := Overlay(StoresOf(front));
      assert StoresOf(logs)[..n] == StoresOf(front);
      MergedAreNewest(front, ds);
      StoredKeyedById(logs[n]);
      forall id | id in was && id in last ensures was[id] == last[id] {
        LaterClientAgrees(front, logs[n], ds, was[id], last[id]);
      }
      forall m ensures m in Overlay(StoresOf(logs)).Values <==> SomeoneHolds(logs, m) {
        AgreeingOverlay(was, last, m);
        StoredAreNewest(logs[n], m);
        SomeoneHoldsAppend(front, logs[n], m);
        assert front + [logs[n]] == logs;
      }
      AgreeingOverlay(was, last, SignedMessage([], [], [], 0));
    }
  }

  lemma LaterClientAgrees(front: seq<seq<Op>>, log: seq<Op>, ds: seq<Delivery>, x: SignedMessage, y: SignedMessage)
    requires ShareDeliveries(front, ds) && IsSuffix(SinceClear(log), ds)
    requires SomeoneHolds(front, x) && y in Replay(log).signedMessages.Values && x.UniqueID() == y.UniqueID()
    ensures x == y
  {
    var c :| 0 <= c < |front| && Newest(SinceClear(front[c]), x);
    StoredAreNewest(log, y);
    SuffixesAgree(SinceClear(front[c]), SinceClear(log), ds, x, y);
  }

  /**
   * If all clients got the same deliveries since their last clear, and identifiers tell sources apart, the
   * merge is exactly the latest message per key and payload.
   */
  lemma MergedAreLatest(logs: seq<seq<Op>>, ds: seq<Delivery>, m: SignedMessage)
    requires logs != [] && (forall c :: 0 <= c < |logs| ==> SinceClear(logs[c]) == ds) && IdsDetermine(ds)
    ensures m in Overlay(StoresOf(logs)).Values <==> Latest(ds, m)
  {
    MergedAreNewest(logs, ds);
    NewestIsLatest(ds, m);
    assert SinceClear(logs[0]) == ds;
  }
}

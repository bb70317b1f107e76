/**
 * Receiving gossip: from a packet on the wire to a stored signature (p2p/broadcaster.go,
 * clients/roleProviders/ethereumRoleProvider.go), and what a stored signature therefore proves.
 */
module Gossip {
  import opened Base
  import opened Envelope
  import opened Messages
  import opened ReplayFilter
  import opened SignatureStore
  import opened Topology
  import EthereumClient

  type EthAddress = EthereumClient.Address

  /** Public key recovery, the address of a key, and signature verification on Ethereum. */
  datatype EthCrypto = EthCrypto(
    recover: (Bytes, Bytes) -> Result<Bytes>,
    addressOf: Bytes -> EthAddress,
    verify: (Bytes, Bytes, Bytes) -> bool)

  const ETH_SIGNATURE_SIZE: nat := 64

  /** The signature without its recovery byte. */
  function Trimmed(signature: Bytes): Bytes {
    if |signature| > ETH_SIGNATURE_SIZE then signature[..ETH_SIGNATURE_SIZE] else signature
  }

  /** A signature of 64 bytes is left alone, and of one with a recovery byte behind it these are kept. */
  lemma TrimmedExact(signature: Bytes, v: byte)
    requires |signature| == 64
    ensures Trimmed(signature) == signature && Trimmed(signature + [v]) == signature
  {
    assert (signature + [v])[..64] == signature;
  }

  /** `VerifyEthSignature` for a given whitelist. */
  function VerifyEthSignature(crypto: EthCrypto, whitelist: set<EthAddress>, signature: Bytes,
      hash: Bytes): Result<()> {
    match crypto.recover(hash, signature)
    case Err(e) => Err(e)
    case Ok(pk) =>
      if crypto.addressOf(pk) !in whitelist then Err(NotWhitelisted)
      else if !crypto.verify(pk, hash, Trimmed(signature)) then Err(InvalidSignature)
      else Ok(())
  }

  /** The signature verifies over the hash under a key whose address is in the whitelist. */
  ghost predicate SignedByWhitelisted(crypto: EthCrypto, whitelist: set<EthAddress>, signature: Bytes, hash: Bytes) {
    exists pk :: crypto.recover(hash, signature) == Ok(pk) && crypto.addressOf(pk) in whitelist
                 && crypto.verify(pk, hash, Trimmed(signature))
  }

  lemma VerifyEthSignatureExact(crypto: EthCrypto, whitelist: set<EthAddress>, signature: Bytes, hash: Bytes)
    ensures VerifyEthSignature(crypto, whitelist, signature, hash).Ok? <==>
            SignedByWhitelisted(crypto, whitelist, signature, hash)
  {
    match crypto.recover(hash, signature)
    case Err(_) =>
    case Ok(pk) =>
  }

  class EthereumRoleProvider {
    const crypto: EthCrypto
    var whitelistedAddresses: set<EthAddress>

    constructor (crypto: EthCrypto)
      ensures this.crypto == crypto && whitelistedAddresses == {}
    {
      this.crypto, whitelistedAddresses := crypto, {};
    }

    method ProcessResults(results: seq<EthAddress>)
      modifies this
      ensures forall x :: x in whitelistedAddresses <==> x in results
    {
      whitelistedAddresses := {};
      for i := 0 to |results|
        invariant forall x :: x in whitelistedAddresses <==> x in results[..i]
      {
        TakeOneMore(results, i);
        whitelistedAddresses := whitelistedAddresses + {results[i]};
      }
      assert results[..|results|] == results;
    }

    method Verify(signature: Bytes, hash: Bytes) returns (r: Result<()>)
      ensures r == VerifyEthSignature(crypto, whitelistedAddresses, signature, hash)
    {
      var pk := crypto.recover(hash, signature);
      if pk.Err? {
        return Err(pk.error);
      }
      if crypto.addressOf(pk.value) !in whitelistedAddresses {
        return Err(NotWhitelisted);
      }
      var trimmed := signature;
      if |trimmed| > ETH_SIGNATURE_SIZE {
        trimmed := trimmed[..ETH_SIGNATURE_SIZE];
      }
      if !crypto.verify(pk.value, hash, trimmed) {
        return Err(InvalidSignature);
      }
      r := Ok(());
    }
  }

  // ---------------------------------------------------------------- one node

  datatype Topic = Join | Sign | Other

  /** A packet from the network, with the verdict of the antiflood component on it. */
  datatype Packet = Packet(data: Bytes, topic: Topic, floodOk: bool)

  /** What all nodes share: the schemes and the payload format. */
  datatype Network = Network(scheme: Scheme, crypto: EthCrypto, unmarshalEth: Bytes -> Result<EthereumSignature>)

  datatype Node = Node(nonces: Nonces, elrondWhitelist: set<Bytes>, ethWhitelist: set<EthAddress>, store: Store)

  const FRESH: Node := Node(map[], {}, {}, EMPTY)

  /** The message of a packet that reaches the nonce filter: well formed, authentic, from a whitelisted key. */
  function Offered(net: Network, n: Node, p: Packet): Option<SignedMessage> {
    match PreProcess(net.scheme, p.data)
    case Err(_) => None
    case Ok(msg) => if msg.publicKey in n.elrondWhitelist then Some(msg) else None
  }

  /** The signature that an accepted message carries, if it verifies. */
  function Carried(net: Network, n: Node, msg: SignedMessage): Result<EthereumSignature> {
    match net.unmarshalEth(msg.payload)
    case Err(e) => Err(e)
    case Ok(eth) =>
      match VerifyEthSignature(net.crypto, n.ethWhitelist, eth.signature, eth.messageHash)
      case Err(e) => Err(e)
      case Ok(_) => Ok(eth)
  }

  /** What a packet delivers to the store, if anything. */
  function Delivered(net: Network, n: Node, p: Packet): Option<Delivery> {
    match Offered(net, n, p)
    case None => None
    case Some(msg) =>
      if !Accepts(n.nonces, msg) || !p.floodOk || !p.topic.Sign? then None
      else match Carried(net, n, msg)
        case Err(_) => None
        case Ok(eth) => Some(Delivery(msg, eth))
  }

  /** The node after a packet; a nonce is used up even when the antiflood component then drops the message. */
  function Received(net: Network, n: Node, p: Packet): Node {
    var nonces := match Offered(net, n, p) case None => n.nonces case Some(msg) => Filtered(n.nonces, msg);
    var store := match Delivered(net, n, p) case None => n.store case Some(d) => Apply(n.store, Deliver(d));
    n.(nonces := nonces, store := store)
  }

  /**
   * What has to be so for a packet to deliver: a readable message of fitting sizes, from a whitelisted key
   * that signed it, with a nonce above the last, let through, on the signature topic; and in it a readable
   * signature that a whitelisted address made.
   */
  lemma DeliveredExactly(net: Network, n: Node, p: Packet, d: Delivery)
    ensures Delivered(net, n, p) == Some(d) <==>
            && net.scheme.unmarshal(p.data) == Ok(d.msg)
            && |d.msg.publicKey| <= 1024 && |d.msg.signature| <= 1024 && |d.msg.payload| <= 1024
            && net.scheme.knownKey(d.msg.publicKey) && Authentic(net.scheme, d.msg)
            && d.msg.publicKey in n.elrondWhitelist && d.msg.nonce > LastNonce(n.nonces, d.msg.publicKey)
            && p.floodOk && p.topic == Sign
            && net.unmarshalEth(d.msg.payload) == Ok(d.eth)
            && SignedByWhitelisted(net.crypto, n.ethWhitelist, d.eth.signature, d.eth.messageHash)
  {
    VerifyEthSignatureExact(net.crypto, n.ethWhitelist, d.eth.signature, d.eth.messageHash);
  }

  function ApplyTimes(s: Store, op: Op, n: nat): Store {
    if n == 0 then s else Apply(ApplyTimes(s, op, n - 1), op)
  }

  class Broadcaster {
    const net: Network
    const noncesOfPublicKeys: NoncesOfPublicKeys
    const elrondRoleProvider: ElrondRoleProvider
    const signatureProcessor: EthereumRoleProvider
    var clients: seq<SignaturesHolder>

    constructor (net: Network, filter: NoncesOfPublicKeys, roles: ElrondRoleProvider, processor: EthereumRoleProvider)
      ensures this.net == net && noncesOfPublicKeys == filter && elrondRoleProvider == roles
      ensures signatureProcessor == processor && clients == []
    {
      this.net, noncesOfPublicKeys, elrondRoleProvider, signatureProcessor := net, filter, roles, processor;
      clients := [];
    }

    method AddBroadcastClient(client: SignaturesHolder)
      modifies this
      ensures clients == old(clients) + [client]
    {
      clients := clients + [client];
    }

    /** The node as seen through one of its stores. */
    ghost function View(store: Store): Node
      reads this, noncesOfPublicKeys, elrondRoleProvider, signatureProcessor
    {
      Node(noncesOfPublicKeys.nonces, elrondRoleProvider.whitelistedAddresses,
           signatureProcessor.whitelistedAddresses, store)
    }

    ghost predicate Valid()
      reads this, signatureProcessor, clients
    {
      signatureProcessor.crypto == net.crypto && forall c :: c in clients ==> c.Valid()
    }

    /**
     * The packet changes filter and stores as `Received` says; a client registered several times gets
     * the message that often. A join request is answered with every identifier held, under each with the
     * message of the last client that holds one.
     */
    method ProcessReceivedMessage(p: Packet) returns (r: Result<()>, resent: map<Bytes, SignedMessage>)
      requires Valid()
      modifies noncesOfPublicKeys, clients
      ensures Valid()
      ensures r.Ok? <==> match old(Offered(net, View(EMPTY), p))
                         case None => false
                         case Some(msg) => Accepts(old(noncesOfPublicKeys.nonces), msg) && p.floodOk
      ensures noncesOfPublicKeys.nonces == Received(net, old(View(EMPTY)), p).nonces
      ensures forall c :: c in clients ==>
                c.Contents() == match old(Delivered(net, View(EMPTY), p))
                                case None => old(c.Contents())
                                case Some(d) => ApplyTimes(old(c.Contents()), Deliver(d), Count(clients, c))
      ensures r.Ok? && p.topic.Join? ==> resent == old(Overlay(StoresIn(clients)))
      ensures !(r.Ok? && p.topic.Join?) ==> resent == map[]
    {
      resent := map[];
      var msg := PreProcess(net.scheme, p.data);
      if msg.Err? {
        return Err(msg.error), resent;
      }
      var whitelisted := elrondRoleProvider.IsWhitelisted(msg.value.publicKey);
      if !whitelisted {
        return Err(NotWhitelisted), resent;
      }
      var passed := noncesOfPublicKeys.ProcessNonce(msg.value);
      if passed.Err? {
        return Err(passed.error), resent;
      }
      if !p.floodOk {
        return Err(InvalidValue), resent;
      }
      r := Ok(());
      resent := ProcessByTopic(p.topic, msg.value);
    }

    /** The switch over the topic of an accepted message. */
    method ProcessByTopic(topic: Topic, msg: SignedMessage) returns (resent: map<Bytes, SignedMessage>)
      requires Valid()
      modifies clients
      ensures Valid()
      ensures topic.Join? ==> resent == old(Overlay(StoresIn(clients)))
      ensures !topic.Join? ==> resent == map[]
      ensures forall c :: c in clients ==>
                c.Contents() == match old(Carried(net, View(EMPTY), msg))
                                case Err(_) => old(c.Contents())
                                case Ok(eth) =>
                                  if topic.Sign?
                                  then ApplyTimes(old(c.Contents()), Deliver(Delivery(msg, eth)), Count(clients, c))
                                  else old(c.Contents())
    {
      resent := map[];
      match topic {
        case Join => resent := CurrentSignatures();
        case Sign => ProcessSignMessage(msg);
        case Other =>
      }
    }

    method ProcessSignMessage(msg: SignedMessage)
      requires Valid()
      modifies clients
      ensures Valid()
      ensures forall c :: c in clients ==>
                c.Contents() == match old(Carried(net, View(EMPTY), msg))
                                case Err(_) => old(c.Contents())
                                case Ok(eth) => ApplyTimes(old(c.Contents()), Deliver(Delivery(msg, eth)), Count(clients, c))
    {
      var eth := net.unmarshalEth(msg.payload);
      if eth.Err? {
        return;
      }
      var verified := signatureProcessor.Verify(eth.value.signature, eth.value.messageHash);
      if verified.Err? {
        return;
      }
      NotifyClients(Delivery(msg, eth.value));
    }

    method NotifyClients(d: Delivery)
      requires forall c :: c in clients ==> c.Valid()
      modifies clients
      ensures forall c :: c in clients ==>
                c.Valid() && c.Contents() == ApplyTimes(old(c.Contents()), Deliver(d), Count(clients, c))
    {
      for i := 0 to |clients|
        invariant clients == old(clients)
        invariant forall c :: c in clients ==>
                    c.Valid() && c.Contents() == ApplyTimes(old(c.Contents()), Deliver(d), Count(clients[..i], c))
      {
        TakeOneMore(clients, i);
        assert forall c :: Count(clients[..i + 1], c) == Count(clients[..i], c) + if clients[i] == c then 1 else 0 by {
          assert clients[..i + 1][..i] == clients[..i];
        }
        clients[i].ProcessNewMessage(Some(d.msg), Some(d.eth));
      }
      assert clients[..|clients|] == clients;
    }

    /** `retrieveUniqueMessages` over the stored messages of all clients. */
    method CurrentSignatures() returns (all: map<Bytes, SignedMessage>)
      requires forall c :: c in clients ==> c.Valid()
      ensures all == Overlay(StoresIn(clients))
    {
      var lists: seq<seq<SignedMessage>> := [];
      for i := 0 to |clients|
        invariant |lists| == i
        invariant forall j :: 0 <= j < i ==> Enumerates(lists[j], clients[j].signedMessages.Values)
      {
        var messages := clients[i].AllStoredSignatures();
        lists := lists + [messages];
      }
      all := RetrieveUniqueMessages(lists);
      StoresInAt(clients);
      forall c | 0 <= c < |clients| ensures KeyedById(StoresIn(clients)[c]) {
        assert clients[c] in clients && clients[c].Valid();
      }
      MergedClientsExact(lists, StoresIn(clients));
    }
  }

  /** The messages that the clients hold, client by client. */
  ghost function StoresIn(clients: seq<SignaturesHolder>): (stores: seq<map<Bytes, SignedMessage>>)
    reads clients
    ensures |stores| == |clients|
  {
    if clients == [] then [] else StoresIn(clients[..|clients| - 1]) + [clients[|clients| - 1].signedMessages]
  }

  lemma {:induction false} StoresInAt(clients: seq<SignaturesHolder>)
    ensures forall j :: 0 <= j < |clients| ==> StoresIn(clients)[j] == clients[j].signedMessages
  {
    if clients != [] {
      StoresInAt(clients[..|clients| - 1]);
    }
  }

  // ---------------------------------------------------------------- the history of a node

  datatype NodeEvent =
    | Arrive(packet: Packet)
    | RefreshElrond(keys: set<Bytes>)
    | RefreshEth(addresses: set<EthAddress>)
    | Cleared

  function Happened(net: Network, n: Node, e: NodeEvent): Node {
    match e
    case Arrive(p) => Received(net, n, p)
    case RefreshElrond(keys) => n.(elrondWhitelist := keys)
    case RefreshEth(addresses) => n.(ethWhitelist := addresses)
    case Cleared => n.(store := EMPTY)
  }

  /** The node after a history of events, oldest first. */
  function NodeAfter(net: Network, events: seq<NodeEvent>): Node {
    if events == [] then FRESH else Happened(net, NodeAfter(net, events[..|events| - 1]), events[|events| - 1])
  }

  /** Event `i` delivered this signature for this hash, and nothing has been cleared since. */
  ghost predicate HeldSince(net: Network, events: seq<NodeEvent>, i: nat, d: Delivery) {
    && i < |events| && events[i].Arrive?
    && Delivered(net, NodeAfter(net, events[..i]), events[i].packet) == Some(d)
    && forall j :: i <= j < |events| ==> !events[j].Cleared?
  }

  lemma HeldSinceExtends(net: Network, events: seq<NodeEvent>, e: NodeEvent, i: nat, d: Delivery)
    requires i < |events|
    ensures HeldSince(net, events + [e], i, d) <==> HeldSince(net, events, i, d) && !e.Cleared?
  {
    var now := events + [e];
    assert now[..i] == events[..i];
    assert forall j :: 0 <= j < |events| ==> now[j] == events[j];
    assert now[|events|] == e;
  }

  /** The store holds a signature for a hash exactly if some event delivered it and no clear came after. */
  lemma {:induction false} StoreProvenance(net: Network, events: seq<NodeEvent>, sig: Bytes, hash: Bytes)
    ensures sig in SignaturesFor(NodeAfter(net, events).store.ethMessages, hash) <==>
            exists i, d :: HeldSince(net, events, i, d) && d.eth == EthereumSignature(sig, hash)
  {
    if events != [] {
      var n := |events| - 1;
      var front, e := events[..n], events[n];
      var before := NodeAfter(net, front);
      StoreProvenance(net, front, sig, hash);
      assert events == front + [e];
      forall i: nat, d | i < n ensures HeldSince(net, events, i, d) <==> HeldSince(net, front, i, d) && !e.Cleared? {
        HeldSinceExtends(net, front, e, i, d);
      }
      if e.Arrive? && Delivered(net, before, e.packet).Some? {
        var d := Delivered(net, before, e.packet).value;
        SignaturesForAppend(before.store.ethMessages, d.eth, hash);
        assert HeldSince(net, events, n, d);
      }
    }
  }

  /** What an event does to the store of node `n`. */
  function OpsAt(net: Network, n: Node, e: NodeEvent): seq<Op> {
    match e
    case Arrive(p) => (match Delivered(net, n, p) case None => [] case Some(d) => [Deliver(d)])
    case Cleared => [Clear]
    case _ => []
  }

  /** The log of a node's store: what the events delivered, and the clears. */
  function OpsOf(net: Network, events: seq<NodeEvent>): seq<Op> {
    if events == [] then []
    else
      var front := events[..|events| - 1];
      OpsOf(net, front) + OpsAt(net, NodeAfter(net, front), events[|events| - 1])
  }

  lemma ReplaysOn(net: Network, n: Node, ops: seq<Op>, e: NodeEvent)
    requires n.store == Replay(ops)
    ensures Happened(net, n, e).store == Replay(ops + OpsAt(net, n, e))
  {
    var now := ops + OpsAt(net, n, e);
    if OpsAt(net, n, e) == [] {
      assert now == ops;
    } else {
      assert now[..|ops|] == ops;
    }
  }

  /** A node's store is the replay of its log. */
  lemma {:induction false} NodeReplays(net: Network, events: seq<NodeEvent>)
    ensures NodeAfter(net, events).store == Replay(OpsOf(net, events))
  {
    if events != [] {
      var front := events[..|events| - 1];
      NodeReplays(net, front);
      ReplaysOn(net, NodeAfter(net, front), OpsOf(net, front), events[|events| - 1]);
    }
  }

  /** Every whitelist that arrives is one the role provider accepts: of addresses of one size. */
  ghost predicate WellFormedWhitelists(events: seq<NodeEvent>) {
    forall k :: 0 <= k < |events| && events[k].RefreshElrond? ==> WellFormed(events[k].keys)
  }

  ghost predicate WellFormed(keys: set<Bytes>) {
    forall key :: key in keys ==> |key| == ADDRESS_LENGTH
  }

  lemma {:induction false} SinceClearHolds(ops: seq<Op>, n: nat)
    requires forall i :: 0 <= i < |ops| && ops[i].Deliver? ==> |ops[i].delivery.msg.publicKey| == n
    ensures KeysOfLength(SinceClear(ops), n)
  {
    if ops != [] {
      SinceClearHolds(ops[..|ops| - 1], n);
    }
  }

  lemma {:induction false} KeysAreAddresses(net: Network, events: seq<NodeEvent>)
    requires WellFormedWhitelists(events)
    ensures WellFormed(NodeAfter(net, events).elrondWhitelist)
    ensures forall op :: op in OpsOf(net, events) && op.Deliver? ==> |op.delivery.msg.publicKey| == ADDRESS_LENGTH
  {
    if events != [] {
      var front := events[..|events| - 1];
      assert forall k :: 0 <= k < |front| ==> front[k] == events[k];
      KeysAreAddresses(net, front);
    }
  }

  /** In a node, the stored messages are exactly the latest per key and payload since the last clear. */
  lemma NodeStoresLatest(net: Network, events: seq<NodeEvent>, m: SignedMessage)
    requires WellFormedWhitelists(events)
    ensures m in NodeAfter(net, events).store.signedMessages.Values <==> Latest(SinceClear(OpsOf(net, events)), m)
  {
    NodeReplays(net, events);
    KeysAreAddresses(net, events);
    SinceClearHolds(OpsOf(net, events), ADDRESS_LENGTH);
    StoredAreLatest(OpsOf(net, events), ADDRESS_LENGTH, m);
  }

  /** In a node, the signatures held for a hash are exactly those its log delivered since the last clear. */
  lemma NodeHoldsDelivered(net: Network, events: seq<NodeEvent>, hash: Bytes, sig: Bytes)
    ensures sig in SignaturesFor(NodeAfter(net, events).store.ethMessages, hash) <==>
            exists i, d :: DeliveredSinceClear(OpsOf(net, events), i, d) && d.eth == EthereumSignature(sig, hash)
  {
    NodeReplays(net, events);
    SignaturesAreDelivered(OpsOf(net, events), hash, sig);
  }

  /** What a held signature proves about its arrival. */
  ghost predicate Provenance(net: Network, events: seq<NodeEvent>, i: nat, sig: Bytes, hash: Bytes) {
    && i < |events| && events[i].Arrive?
    && (forall j :: i <= j < |events| ==> !events[j].Cleared?)
    && var then' := NodeAfter(net, events[..i]);
       && PreProcess(net.scheme, events[i].packet.data).Ok?
       && var msg := PreProcess(net.scheme, events[i].packet.data).value;
          && Authentic(net.scheme, msg)
          && msg.publicKey in then'.elrondWhitelist
          && msg.nonce > LastNonce(then'.nonces, msg.publicKey)
          && net.unmarshalEth(msg.payload) == Ok(EthereumSignature(sig, hash))
          && SignedByWhitelisted(net.crypto, then'.ethWhitelist, sig, hash)
  }

  lemma HeldSignatureProvenance(net: Network, events: seq<NodeEvent>, sig: Bytes, hash: Bytes) returns (i: nat)
    requires sig in SignaturesFor(NodeAfter(net, events).store.ethMessages, hash)
    ensures Provenance(net, events, i, sig, hash)
  {
    StoreProvenance(net, events, sig, hash);
    var k: nat, d :| HeldSince(net, events, k, d) && d.eth == EthereumSignature(sig, hash);
    i := k;
    VerifyEthSignatureExact(net.crypto, NodeAfter(net, events[..k]).ethWhitelist, sig, hash);
  }

  /**
   * A signature that a whitelisted relayer sends out under its next nonce is held by every node that lets
   * the packet through, and the packet is worth nothing a second time.
   */
  lemma SentSignatureIsHeld(net: Network, events: seq<NodeEvent>, sk: Bytes, payload: Bytes, nonce: uint64,
      eth: EthereumSignature, p: Packet)
    requires Correct(net.scheme) && p.data == net.scheme.marshal(Created(net.scheme, sk, payload, nonce))
    requires SizesFit(Created(net.scheme, sk, payload, nonce)) && p.floodOk && p.topic == Sign
    requires net.unmarshalEth(payload) == Ok(eth)
    requires var n := NodeAfter(net, events);
             && net.scheme.publicKeyOf(sk) in n.elrondWhitelist
             && nonce > LastNonce(n.nonces, net.scheme.publicKeyOf(sk))
             && SignedByWhitelisted(net.crypto, n.ethWhitelist, eth.signature, eth.messageHash)
    ensures var then' := NodeAfter(net, events + [Arrive(p)]);
            && eth.signature in SignaturesFor(then'.store.ethMessages, eth.messageHash)
            && LastNonce(then'.nonces, net.scheme.publicKeyOf(sk)) == nonce
            && Received(net, then', p) == then'
  {
    var n, msg := NodeAfter(net, events), Created(net.scheme, sk, payload, nonce);
    CreatedIsReceived(net.scheme, sk, payload, nonce);
    DeliveredExactly(net, n, p, Delivery(msg, eth));
    SignaturesForAppend(n.store.ethMessages, eth, eth.messageHash);
    assert (events + [Arrive(p)])[..|events|] == events;
  }

  /** The messages that reached the nonce filter, oldest first. */
  function OfferedMessages(net: Network, events: seq<NodeEvent>): seq<SignedMessage> {
    if events == [] then []
    else
      var front, e := events[..|events| - 1], events[|events| - 1];
      OfferedMessages(net, front) +
        match e
        case Arrive(p) =>
          (match Offered(net, NodeAfter(net, front), p) case None => [] case Some(msg) => [msg])
        case _ => []
  }

  /** A node's nonces are those of the filter run over the messages offered to it. */
  lemma {:induction false} NodeFilters(net: Network, events: seq<NodeEvent>)
    ensures NodeAfter(net, events).nonces == After(OfferedMessages(net, events))
  {
    if events != [] {
      var front := events[..|events| - 1];
      NodeFilters(net, front);
      var offered := OfferedMessages(net, front);
      var now := OfferedMessages(net, events);
      if |now| == |offered| + 1 {
        assert now[..|offered|] == offered;
      } else {
        assert now == offered;
      }
    }
  }

  /** The nonce of a held signature's message is positive and above every earlier one offered by its key. */
  lemma HeldNonceIsFresh(net: Network, events: seq<NodeEvent>, i: nat, sig: Bytes, hash: Bytes)
    requires Provenance(net, events, i, sig, hash)
    ensures var msg := PreProcess(net.scheme, events[i].packet.data).value;
            && msg.nonce > 0
            && forall m :: m in OfferedMessages(net, events[..i]) && m.publicKey == msg.publicKey ==> m.nonce < msg.nonce
  {
    var msg := PreProcess(net.scheme, events[i].packet.data).value;
    NodeFilters(net, events[..i]);
    LastNonceIsMaximum(OfferedMessages(net, events[..i]), msg.publicKey);
  }

  /** As long as nothing is cleared, the signatures held for a hash only grow. */
  lemma HeldSignaturesGrow(net: Network, events: seq<NodeEvent>, e: NodeEvent, hash: Bytes)
    requires !e.Cleared?
    ensures SignaturesFor(NodeAfter(net, events).store.ethMessages, hash) <=
            SignaturesFor(NodeAfter(net, events + [e]).store.ethMessages, hash)
  {
    var before := NodeAfter(net, events);
    assert (events + [e])[..|events|] == events;
    if e.Arrive? && Delivered(net, before, e.packet).Some? {
      SignaturesForAppend(before.store.ethMessages, Delivered(net, before, e.packet).value.eth, hash);
    }
  }
}

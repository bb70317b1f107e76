/** Creating and checking signed envelopes (p2p/relayerMessageHandler.go). */
module Envelope {
  import opened Base
  import opened BigEndian
  import opened Messages

  const ABSOLUTE_MAX_SLICE_SIZE: nat := 1024

  /** The signature scheme and the marshaller of the relayers, as functions. */
  datatype Scheme = Scheme(
    knownKey: Bytes -> bool,
    verify: (Bytes, Bytes, Bytes) -> bool,
    sign: (Bytes, Bytes) -> Bytes,
    publicKeyOf: Bytes -> Bytes,
    marshal: SignedMessage -> Bytes,
    unmarshal: Bytes -> Result<SignedMessage>)

  /** Ideal signatures verify, a key of the scheme is a known key, and marshalling loses nothing. */
  ghost predicate Correct(s: Scheme) {
    && (forall sk, m :: s.verify(s.publicKeyOf(sk), m, s.sign(sk, m)))
    && (forall sk :: s.knownKey(s.publicKeyOf(sk)))
    && (forall msg :: s.unmarshal(s.marshal(msg)) == Ok(msg))
  }

  /** The signed bytes: the payload followed by the nonce in eight bytes. */
  function SignedBytes(payload: Bytes, nonce: uint64): Bytes {
    payload + Fixed(nonce, 8)
  }

  lemma SignedBytesDetermine(p: Bytes, n: uint64, q: Bytes, m: uint64)
    requires SignedBytes(p, n) == SignedBytes(q, m)
    ensures p == q && n == m
  {
    var k := |p|;
    assert |SignedBytes(p, n)| == k + 8 == |q| + 8;
    assert p == SignedBytes(p, n)[..k] == SignedBytes(q, m)[..k] == q;
    assert Fixed(n, 8) == SignedBytes(p, n)[k..] == SignedBytes(q, m)[k..] == Fixed(m, 8);
    Uint64RoundTrip(n);
    Uint64RoundTrip(m);
  }

  /** The payload comes first, and the last eight bytes are the nonce. */
  lemma SignedBytesSpelled(payload: Bytes, nonce: uint64)
    ensures var bs := SignedBytes(payload, nonce);
            && |bs| == |payload| + 8 && bs[..|payload|] == payload && Value(bs[|payload|..]) == nonce
  {
    Uint64RoundTrip(nonce);
    assert SignedBytes(payload, nonce)[|payload|..] == Fixed(nonce, 8);
  }

  predicate SizesFit(msg: SignedMessage) {
    && |msg.publicKey| <= ABSOLUTE_MAX_SLICE_SIZE
    && |msg.signature| <= ABSOLUTE_MAX_SLICE_SIZE
    && |msg.payload| <= ABSOLUTE_MAX_SLICE_SIZE
  }

  /** The message in a packet, or why it is refused. */
  function PreProcess(s: Scheme, data: Bytes): (r: Result<SignedMessage>)
    ensures r.Ok? <==> s.unmarshal(data).Ok? && Acceptable(s, s.unmarshal(data).value)
    ensures r.Ok? ==> s.unmarshal(data) == Ok(r.value)
  {
    match s.unmarshal(data)
    case Err(e) => Err(e)
    case Ok(msg) =>
      if !SizesFit(msg) then Err(InvalidSize)
      else if !s.knownKey(msg.publicKey) then Err(InvalidValue)
      else if !s.verify(msg.publicKey, SignedBytes(msg.payload, msg.nonce), msg.signature) then Err(InvalidSignature)
      else Ok(msg)
  }

  /** A message of fitting sizes, from a key of the scheme, signed by it. */
  ghost predicate Acceptable(s: Scheme, msg: SignedMessage) {
    SizesFit(msg) && s.knownKey(msg.publicKey) && Authentic(s, msg)
  }

  /** The envelope's signature covers its payload and its nonce under its key. */
  ghost predicate Authentic(s: Scheme, msg: SignedMessage) {
    s.verify(msg.publicKey, SignedBytes(msg.payload, msg.nonce), msg.signature)
  }

  /** The message a relayer creates when its counter, after the increment, is `nonce`. */
  function Created(s: Scheme, sk: Bytes, payload: Bytes, nonce: uint64): SignedMessage {
    SignedMessage(payload, s.publicKeyOf(sk), s.sign(sk, SignedBytes(payload, nonce)), nonce)
  }

  class RelayerMessageHandler {
    const scheme: Scheme
    const privateKey: Bytes
    var counter: uint64

    constructor (scheme: Scheme, privateKey: Bytes, counter: uint64)
      ensures this.scheme == scheme && this.privateKey == privateKey && this.counter == counter
    {
      this.scheme, this.privateKey, this.counter := scheme, privateKey, counter;
    }

    /** The counter is incremented with 64-bit wrap-around and becomes the nonce. */
    method CreateMessage(payload: Bytes) returns (msg: SignedMessage)
      modifies this
      ensures counter == (old(counter) + 1) % TWO_64
      ensures msg == Created(scheme, privateKey, payload, counter)
    {
      counter := (counter + 1) % TWO_64;
      var nonce := counter;
      var signature := scheme.sign(privateKey, SignedBytes(payload, nonce));
      msg := SignedMessage(payload, scheme.publicKeyOf(privateKey), signature, nonce);
    }
  }

  /** A created message is received as itself exactly when it fits the size limits. */
  lemma CreatedIsReceived(s: Scheme, sk: Bytes, payload: Bytes, nonce: uint64)
    requires Correct(s)
    ensures PreProcess(s, s.marshal(Created(s, sk, payload, nonce))) == Ok(Created(s, sk, payload, nonce))
            <==> SizesFit(Created(s, sk, payload, nonce))
    ensures SizesFit(Created(s, sk, payload, nonce)) <==>
              && |s.publicKeyOf(sk)| <= 1024 && |payload| <= 1024
              && |s.sign(sk, SignedBytes(payload, nonce))| <= 1024
  {
    var msg := Created(s, sk, payload, nonce);
    assert s.unmarshal(s.marshal(msg)) == Ok(msg);
    assert s.verify(s.publicKeyOf(sk), SignedBytes(payload, nonce), msg.signature);
  }
}

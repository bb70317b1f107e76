/** The messages relayers exchange (core/messages.go). */
module Messages {
  import opened Base

  datatype SignedMessage = SignedMessage(payload: Bytes, publicKey: Bytes, signature: Bytes, nonce: uint64) {
    function UniqueID(): Bytes {
      publicKey + payload
    }
  }

  datatype EthereumSignature = EthereumSignature(signature: Bytes, messageHash: Bytes)

  /** Two messages of the same sender with the same payload. */
  predicate SameSource(x: SignedMessage, y: SignedMessage) {
    x.publicKey == y.publicKey && x.payload == y.payload
  }

  /** For keys of one length the unique identifier names sender and payload. */
  lemma UniqueIDExact(x: SignedMessage, y: SignedMessage)
    requires |x.publicKey| == |y.publicKey|
    ensures x.UniqueID() == y.UniqueID() <==> SameSource(x, y)
  {
    if x.UniqueID() == y.UniqueID() {
      var n := |x.publicKey|;
      assert x.publicKey == x.UniqueID()[..n] == y.UniqueID()[..n] == y.publicKey;
      assert x.payload == x.UniqueID()[n..] == y.UniqueID()[n..] == y.payload;
    }
  }

  /** For keys of different lengths it does not: the boundary can slide. */
  lemma UniqueIDCollision() returns (x: SignedMessage, y: SignedMessage)
    ensures x.UniqueID() == y.UniqueID() && !SameSource(x, y)
  {
    x := SignedMessage([2], [1], [], 1);
    y := SignedMessage([], [1, 2], [], 1);
    assert x.UniqueID() == [1, 2] == y.UniqueID();
  }
}

/** The per-sender nonce filter of the broadcaster (p2p/noncesOfPublicKeys.go). */
module ReplayFilter {
  import opened Base
  import opened Messages
  import opened Topology

  type Nonces = map<Bytes, uint64>

  /** A key that was never seen counts as nonce zero, the default of a Go map. */
  function LastNonce(nonces: Nonces, pk: Bytes): uint64 {
    if pk in nonces then nonces[pk] else 0
  }

  predicate Accepts(nonces: Nonces, msg: SignedMessage) {
    LastNonce(nonces, msg.publicKey) < msg.nonce
  }

  function Filtered(nonces: Nonces, msg: SignedMessage): Nonces {
    if Accepts(nonces, msg) then nonces[msg.publicKey := msg.nonce] else nonces
  }

  class NoncesOfPublicKeys {
    var nonces: Nonces

    constructor ()
      ensures nonces == map[]
    {
      nonces := map[];
    }

    method ProcessNonce(msg: SignedMessage) returns (r: Result<()>)
      modifies this
      ensures r.Ok? <==> Accepts(old(nonces), msg)
      ensures r.Err? ==> r.error == NonceTooLow
      ensures nonces == Filtered(old(nonces), msg)
    {
      var oldNonce := LastNonce(nonces, msg.publicKey);
      if oldNonce >= msg.nonce {
        return Err(NonceTooLow);
      }
      nonces := nonces[msg.publicKey := msg.nonce];
      r := Ok(());
    }

    method SortedPublicKeys() returns (keys: seq<Bytes>)
      ensures IsListing(keys, nonces.Keys)
    {
      keys := SortKeys(nonces.Keys);
    }
  }

  /** The filter after a sequence of arrivals, oldest first. */
  function After(arrivals: seq<SignedMessage>): Nonces {
    if arrivals == [] then map[] else Filtered(After(arrivals[..|arrivals| - 1]), arrivals[|arrivals| - 1])
  }

  /** The arrival at position `i` passes the filter. */
  predicate Passes(arrivals: seq<SignedMessage>, i: nat)
    requires i < |arrivals|
  {
    Accepts(After(arrivals[..i]), arrivals[i])
  }

  /** The remembered nonce is the largest nonce that arrived from the key, or zero. */
  lemma {:induction false} LastNonceIsMaximum(arrivals: seq<SignedMessage>, pk: Bytes)
    ensures forall i :: 0 <= i < |arrivals| && arrivals[i].publicKey == pk ==>
              arrivals[i].nonce <= LastNonce(After(arrivals), pk)
    ensures LastNonce(After(arrivals), pk) == 0 || exists i ::
              0 <= i < |arrivals| && arrivals[i].publicKey == pk && arrivals[i].nonce == LastNonce(After(arrivals), pk)
  {
    if arrivals != [] {
      var front := arrivals[..|arrivals| - 1];
      LastNonceIsMaximum(front, pk);
      var last := arrivals[|arrivals| - 1];
      if !(last.publicKey == pk && Accepts(After(front), last)) {
        assert LastNonce(After(arrivals), pk) == LastNonce(After(front), pk);
        if LastNonce(After(front), pk) != 0 {
          var i :| 0 <= i < |front| && front[i].publicKey == pk && front[i].nonce == LastNonce(After(front), pk);
          assert arrivals[i] == front[i];
        }
      }
    }
  }

  /** A message passes if and only if its nonce is positive and above every earlier one of its key. */
  lemma PassesExactly(arrivals: seq<SignedMessage>, i: nat)
    requires i < |arrivals|
    ensures Passes(arrivals, i) <==>
            && arrivals[i].nonce > 0
            && forall j :: 0 <= j < i && arrivals[j].publicKey == arrivals[i].publicKey ==>
                 arrivals[j].nonce < arrivals[i].nonce
  {
    var front, pk := arrivals[..i], arrivals[i].publicKey;
    LastNonceIsMaximum(front, pk);
    forall j | 0 <= j < i && arrivals[j].publicKey == pk
      ensures arrivals[j].nonce <= LastNonce(After(front), pk)
    {
      assert front[j] == arrivals[j];
    }
  }

  /** What one key gets through the filter is strictly increasing, so nothing passes twice. */
  lemma PassedIncrease(arrivals: seq<SignedMessage>, i: nat, j: nat)
    requires i < j < |arrivals| && arrivals[i].publicKey == arrivals[j].publicKey
    requires Passes(arrivals, j)
    ensures arrivals[i].nonce < arrivals[j].nonce
    ensures arrivals[i] != arrivals[j]
  {
    PassesExactly(arrivals, j);
  }

  /** The keys that the filter lists are those that got a message through. */
  lemma {:induction false} ListedKeysPassed(arrivals: seq<SignedMessage>, pk: Bytes)
    ensures pk in After(arrivals) <==>
              exists i :: 0 <= i < |arrivals| && arrivals[i].publicKey == pk && Passes(arrivals, i)
  {
    if arrivals != [] {
      var n := |arrivals| - 1;
      var front := arrivals[..n];
      ListedKeysPassed(front, pk);
      forall i | 0 <= i < n ensures Passes(arrivals, i) == Passes(front, i) {
        assert arrivals[..i] == front[..i];
      }
      assert Passes(arrivals, n) == Accepts(After(front), arrivals[n]);
      if pk in After(front) {
        var i :| 0 <= i < |front| && front[i].publicKey == pk && Passes(front, i);
        assert arrivals[i].publicKey == pk && Passes(arrivals, i);
      }
    }
  }
}

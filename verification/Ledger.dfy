/** What the Elrond contract's record keeps, transaction by transaction. */
module Ledger {
  import opened Base
  import opened Batches
  import opened ElrondCodec
  import opened Protocol
  import opened Soundness
  import opened World
  import ToElrond

  // ---------------------------------------------------------------- the record only grows

  ghost predicate Grows(c: Chain, d: Chain) {
    && c.elrond.actions <= d.elrond.actions && c.elrond.performed <= d.elrond.performed
    && c.elrond.transfers <= d.elrond.transfers && c.elrond.settled <= d.elrond.settled
    && c.ethereum.executed <= d.ethereum.executed
  }

  ghost predicate HistoryGrows(h: History) {
    forall j, k :: 0 <= j <= k < |h| ==> Grows(h[j], h[k])
  }

  lemma IncludedGrows(c: Chain, tx: Tx, signs: bool, quorum: nat)
    ensures Grows(c, c.(elrond := Included(c.elrond, tx, signs, quorum)))
  {
  }

  lemma HistoryGrowsOn(h: History, c: Chain)
    requires HistoryGrows(h) && h != [] && Grows(h[|h| - 1], c)
    ensures HistoryGrows(h + [c])
  {
    var now := h + [c];
    forall j, k | 0 <= j <= k < |now| ensures Grows(now[j], now[k]) {
      if k == |h| && j < |h| {
        assert Grows(h[j], h[|h| - 1]);
      }
    }
  }

  // ---------------------------------------------------------------- the tiling of deposits

  /** The nonces of the performed transfers, in the order of performing. */
  function FlatNonces(transfers: seq<seq<Bytes>>): seq<nat> {
    if transfers == [] then []
    else FlatNonces(transfers[..|transfers| - 1]) + DecodedNonces(transfers[|transfers| - 1])
  }

  /** Identifiers advance by one and deposit nonces form one consecutive sequence, from the start on. */
  ghost predicate Tiled(start: Elrond, c: Elrond) {
    && (forall j :: 0 <= j < |c.transfers| ==> DecodedId(c.transfers[j]) == start.lastBatchID + 1 + j)
    && (forall k :: 0 <= k < |FlatNonces(c.transfers)| ==> FlatNonces(c.transfers)[k] == start.lastNonce + 1 + k)
    && c.lastBatchID == start.lastBatchID + |c.transfers| < TWO_63
    && c.lastNonce == start.lastNonce + |FlatNonces(c.transfers)| < TWO_63
  }

  /** Each performed transfer is the Ethereum batch with the identifier whose turn it was. */
  ghost predicate FromContent(s: Setting, c: Elrond) {
    forall j :: 0 <= j < |c.transfers| ==>
      s.start.lastBatchID + 1 + j < TWO_63 && c.transfers[j] == TransferArgs(s.content(s.start.lastBatchID + 1 + j))
  }

  /** The contract paid for each deposit of these batches what it says. */
  ghost predicate PaysContent(s: Setting, c: Elrond) {
    forall j :: 0 <= j < |c.transfers| ==> PaysBatch(s, c.transfers[j], s.start.lastBatchID + 1 + j)
  }

  ghost predicate PaysBatch(s: Setting, args: seq<Bytes>, id: nat) {
    id < TWO_63 && DecodedPayments(args) == Payments(s.content(id).deposits)
  }

  lemma ContentIsPaid(s: Setting, c: Elrond)
    requires Sane(s) && FromContent(s, c)
    ensures PaysContent(s, c)
  {
    forall j | 0 <= j < |c.transfers| ensures PaysBatch(s, c.transfers[j], s.start.lastBatchID + 1 + j) {
      ContentIsPaidAt(s, c, j);
    }
  }

  lemma ContentIsPaidAt(s: Setting, c: Elrond, j: nat)
    requires Sane(s) && FromContent(s, c) && j < |c.transfers|
    ensures PaysBatch(s, c.transfers[j], s.start.lastBatchID + 1 + j)
  {
    var args := c.transfers[j];
    var b := s.content(s.start.lastBatchID + 1 + j);
    DecodedPaymentsExact(b);
    forall k | 0 <= k < |b.deposits| ensures b.deposits[k].nonce <= TWO_63 {
      assert InInt64Range(b);
    }
  }

  /** Nonces that wrap at 2^64 but stay below 2^63 do not wrap. */
  lemma {:induction false} NoncesDoNotWrap(ds: seq<Deposit>, last: uint64, n: nat)
    requires last < TWO_63 && n <= |ds| && NoncesFollow(ds, last)
    requires forall k :: 0 <= k < |ds| ==> ds[k].nonce < TWO_63
    ensures last + n < TWO_63
    ensures forall k :: 0 <= k < n ==> ds[k].nonce == last + 1 + k
  {
    if n != 0 {
      NoncesDoNotWrap(ds, last, n - 1);
      assert ds[n - 1].nonce == (last + 1 + (n - 1)) % TWO_64;
    }
  }

  lemma FlatNoncesAppend(transfers: seq<seq<Bytes>>, args: seq<Bytes>)
    ensures FlatNonces(transfers + [args]) == FlatNonces(transfers) + DecodedNonces(args)
  {
    assert (transfers + [args])[..|transfers|] == transfers;
  }

  /** A transfer with the next identifier and the next nonces extends the tiling. */
  lemma TiledAppend(start: Elrond, c: Elrond, d: Elrond, args: seq<Bytes>, nonces: seq<nat>)
    requires Tiled(start, c) && d.transfers == c.transfers + [args] && nonces == DecodedNonces(args) && nonces != []
    requires DecodedId(args) == c.lastBatchID + 1 == d.lastBatchID < TWO_63
    requires forall k :: 0 <= k < |nonces| ==> nonces[k] == c.lastNonce + 1 + k
    requires d.lastNonce == c.lastNonce + |nonces| < TWO_63
    ensures Tiled(start, d)
  {
    FlatNoncesAppend(c.transfers, args);
  }

  lemma LastNonceOf(b: Batch)
    requires b.deposits != []
    ensures Nonces(b.deposits) != []
    ensures Nonces(b.deposits)[|Nonces(b.deposits)| - 1] == b.deposits[|b.deposits| - 1].nonce
  {
    NoncesAt(b.deposits, |b.deposits| - 1);
  }

  /** What `Performed` does to the record of transfers, for a batch whose turn it is. */
  lemma PerformedTransfer(c: Elrond, b: Batch, id: nat, quorum: nat)
    requires CanPerform(c, id, quorum) && c.actions[id - 1] == Transfer(TransferArgs(b))
    requires InInt64Range(b) && b.deposits != []
    ensures var d := Performed(c, id, quorum);
            && d.transfers == c.transfers + [TransferArgs(b)]
            && d.lastBatchID == DecodedId(TransferArgs(b)) == b.id
            && DecodedNonces(TransferArgs(b)) == Nonces(b.deposits)
            && d.lastNonce == b.deposits[|b.deposits| - 1].nonce
  {
    DecodeTransfer(b);
    LastNonceOf(b);
  }

  lemma FromContentAppend(s: Setting, c: Elrond, d: Elrond, b: Batch)
    requires FromContent(s, c) && d.transfers == c.transfers + [TransferArgs(b)]
    requires b == s.content(b.id) && b.id == s.start.lastBatchID + 1 + |c.transfers| && b.id < TWO_63
    ensures FromContent(s, d)
  {
  }

  lemma NoncesConsecutive(ds: seq<Deposit>, last: nat)
    requires forall k :: 0 <= k < |ds| ==> ds[k].nonce == last + 1 + k
    ensures forall k :: 0 <= k < |ds| ==> Nonces(ds)[k] == last + 1 + k
  {
    forall k | 0 <= k < |ds| ensures Nonces(ds)[k] == last + 1 + k {
      NoncesAt(ds, k);
    }
  }

  lemma ContentInRange(s: Setting, b: Batch)
    requires Sane(s) && b == s.content(b.id) && b.deposits != []
    ensures InInt64Range(b)
  {
  }

  /** Performing the batch whose turn it is extends the tiling. */
  lemma TiledExtends(s: Setting, c: Elrond, b: Batch, id: nat, quorum: nat)
    requires Sane(s) && Tiled(s.start, c) && FromContent(s, c)
    requires CanPerform(c, id, quorum) && c.actions[id - 1] == Transfer(TransferArgs(b))
    requires IsDue(s, c, b)
    ensures Tiled(s.start, Performed(c, id, quorum)) && FromContent(s, Performed(c, id, quorum))
  {
    ContentInRange(s, b);
    NoncesDoNotWrap(b.deposits, c.lastNonce, |b.deposits|);
    NoncesConsecutive(b.deposits, c.lastNonce);
    PerformedTransfer(c, b, id, quorum);
    TiledAppend(s.start, c, Performed(c, id, quorum), TransferArgs(b), Nonces(b.deposits));
    FromContentAppend(s, c, Performed(c, id, quorum), b);
  }

  /** `b` is the Ethereum batch whose turn it is in state `c`. */
  ghost predicate IsDue(s: Setting, c: Elrond, b: Batch) {
    && b == s.content(b.id) && b.deposits != []
    && b.id == ToElrond.NextBatchID(c.lastBatchID) && NoncesFollow(b.deposits, c.lastNonce)
  }

  // ---------------------------------------------------------------- who stands behind an action

  ghost predicate ElrondSound(s: Setting, h: History, c: Elrond) {
    && Distinct(c.actions)
    && (forall id, i :: i in SignersOf(c, id) ==> Endorsed(s, h, c, id, i))
    && (forall id :: id in c.performed ==> 1 <= id <= |c.actions| && Supported(s, h, c.actions[id - 1]))
    && Distinct(c.performed)
    && (forall j :: 0 <= j < |c.transfers| ==> PerformedAs(c, Transfer(c.transfers[j])))
    && (forall j :: 0 <= j < |c.settled| ==> PerformedAs(c, SetStatus(c.settled[j])))
  }

  /** `i` is a relayer, and if it follows the protocol the action it signed is supported. */
  ghost predicate Endorsed(s: Setting, h: History, c: Elrond, id: nat, i: Bytes) {
    && i in s.honest + s.arbitrary && 1 <= id <= |c.actions|
    && (i in s.honest ==> Supported(s, h, c.actions[id - 1]))
  }

  ghost predicate PerformedAs(c: Elrond, a: Action) {
    exists id :: id in c.performed && ActionIs(c, id, a)
  }

  /** More signatures than arbitrary relayers: one of them is from a relayer that follows the protocol. */
  lemma HonestSigner(honest: set<Bytes>, arbitrary: set<Bytes>, signers: set<Bytes>) returns (i: Bytes)
    requires signers <= honest + arbitrary && |signers| > |arbitrary|
    ensures i in signers && i in honest
  {
    if signers <= arbitrary {
      SubsetCardinality(signers, arbitrary);
      assert false;
    }
    i :| i in signers && i !in arbitrary;
  }

  lemma PerformableIsSupported(s: Setting, h: History, c: Elrond, id: nat, quorum: nat)
    requires ElrondSound(s, h, c) && CanPerform(c, id, quorum) && quorum > |s.arbitrary|
    ensures Supported(s, h, c.actions[id - 1])
  {
    var signers := SignersOf(c, id);
    forall i | i in signers ensures i in s.honest + s.arbitrary {
      assert Endorsed(s, h, c, id, i);
    }
    var i := HonestSigner(s.honest, s.arbitrary, signers);
    assert Endorsed(s, h, c, id, i);
  }

  lemma ElrondSoundKept(s: Setting, h: History, x: Chain, c: Elrond)
    requires ElrondSound(s, h, c)
    ensures ElrondSound(s, h + [x], c)
  {
    forall id, i | i in SignersOf(c, id) ensures Endorsed(s, h + [x], c, id, i) {
      assert Endorsed(s, h, c, id, i);
      if i in s.honest {
        SupportedKept(s, h, x, c.actions[id - 1]);
      }
    }
    forall id | id in c.performed ensures Supported(s, h + [x], c.actions[id - 1]) {
      SupportedKept(s, h, x, c.actions[id - 1]);
    }
  }

  lemma ProposedSound(s: Setting, h: History, c: Elrond, sender: Bytes, a: Action, signs: bool)
    requires ElrondSound(s, h, c)
    requires sender in s.honest + s.arbitrary && (sender in s.honest ==> Supported(s, h, a))
    ensures ElrondSound(s, h, Proposed(c, sender, a, signs))
  {
    var d := Proposed(c, sender, a, signs);
    if a !in c.actions {
      forall id, i | i in SignersOf(d, id) ensures Endorsed(s, h, d, id, i) {
        if id != |c.actions| + 1 {
          assert i in SignersOf(c, id);
          assert Endorsed(s, h, c, id, i);
        }
      }
      forall b | PerformedAs(c, b) ensures PerformedAs(d, b) {
        var id :| id in c.performed && ActionIs(c, id, b);
        assert ActionIs(d, id, b);
      }
    }
  }

  lemma SignedSound(s: Setting, h: History, c: Elrond, sender: Bytes, id: nat)
    requires ElrondSound(s, h, c)
    requires sender in s.honest + s.arbitrary
    requires sender in s.honest && 1 <= id <= |c.actions| ==> Supported(s, h, c.actions[id - 1])
    ensures ElrondSound(s, h, Signed(c, sender, id))
  {
    var d := Signed(c, sender, id);
    forall k, i | i in SignersOf(d, k) ensures Endorsed(s, h, d, k, i) {
      if i in SignersOf(c, k) {
        assert Endorsed(s, h, c, k, i);
      }
    }
    forall b | PerformedAs(c, b) ensures PerformedAs(d, b) {
      var k :| k in c.performed && ActionIs(c, k, b);
      assert ActionIs(d, k, b);
    }
  }

  /** What performing adds to the record is named there. */
  lemma PerformedNamed(c: Elrond, id: nat, quorum: nat)
    requires CanPerform(c, id, quorum)
    ensures PerformedAs(Performed(c, id, quorum), c.actions[id - 1])
    ensures forall a :: PerformedAs(c, a) ==> PerformedAs(Performed(c, id, quorum), a)
  {
    var d := Performed(c, id, quorum);
    forall a | PerformedAs(c, a) ensures PerformedAs(d, a) {
      var k :| k in c.performed && ActionIs(c, k, a);
      assert k in d.performed && ActionIs(d, k, a);
    }
    assert id in d.performed && ActionIs(d, id, c.actions[id - 1]);
  }

  lemma PerformedEndorsed(s: Setting, h: History, c: Elrond, id: nat, quorum: nat)
    requires ElrondSound(s, h, c)
    ensures forall k, i :: i in SignersOf(Performed(c, id, quorum), k) ==>
              Endorsed(s, h, Performed(c, id, quorum), k, i)
  {
    var d := Performed(c, id, quorum);
    forall k, i | i in SignersOf(d, k) ensures Endorsed(s, h, d, k, i) {
      assert i in SignersOf(c, k);
      assert Endorsed(s, h, c, k, i);
    }
  }

  lemma PerformedSound(s: Setting, h: History, c: Elrond, id: nat, quorum: nat)
    requires ElrondSound(s, h, c) && quorum > |s.arbitrary|
    ensures ElrondSound(s, h, Performed(c, id, quorum))
  {
    if CanPerform(c, id, quorum) {
      PerformableIsSupported(s, h, c, id, quorum);
      PerformedEndorsed(s, h, c, id, quorum);
      PerformedNamed(c, id, quorum);
    }
  }

  /** Whatever the contract settled, a relayer following the protocol supported. */
  lemma SettledSupported(s: Setting, h: History, c: Elrond, j: nat)
    requires ElrondSound(s, h, c) && j < |c.settled|
    ensures Supported(s, h, SetStatus(c.settled[j]))
  {
    assert PerformedAs(c, SetStatus(c.settled[j]));
    var id :| id in c.performed && ActionIs(c, id, SetStatus(c.settled[j]));
    assert Supported(s, h, c.actions[id - 1]);
  }

  /** A batch that was executed on Ethereum stays executed. */
  lemma ExecutedForGood(h: History, id: nat)
    requires h != [] && HistoryGrows(h) && WasExecuted(h, id)
    ensures EthExecuted(h[|h| - 1].ethereum, id)
  {
    var j :| 0 <= j < |h| && EthExecuted(h[j].ethereum, id);
    assert Grows(h[j], h[|h| - 1]);
    var k :| 0 <= k < |h[j].ethereum.executed| && h[j].ethereum.executed[k].id == id;
    assert h[|h| - 1].ethereum.executed[k].id == id;
  }

  // ---------------------------------------------------------------- a performed transfer was due

  /** Two contract states with equally many transfers, one grown from the other, have the same last marks. */
  lemma SameMarks(start: Elrond, c: Chain, d: Chain)
    requires Tiled(start, c.elrond) && Tiled(start, d.elrond) && Grows(c, d)
    requires |c.elrond.transfers| == |d.elrond.transfers|
    ensures c.elrond.lastBatchID == d.elrond.lastBatchID && c.elrond.lastNonce == d.elrond.lastNonce
  {
    assert c.elrond.transfers == d.elrond.transfers;
  }

  /** The batch that followed an earlier state is performed already if transfers were performed since. */
  lemma PassedIsPerformed(s: Setting, h: History, c: Elrond, earlier: Elrond, b: Batch)
    requires Sane(s) && ElrondSound(s, h, c) && FromContent(s, c) && Tiled(s.start, earlier)
    requires |earlier.transfers| < |c.transfers|
    requires b == s.content(b.id) && b.id == ToElrond.NextBatchID(earlier.lastBatchID)
    ensures PerformedAs(c, Transfer(TransferArgs(b)))
  {
    var n := |earlier.transfers|;
    assert c.transfers[n] == TransferArgs(s.content(s.start.lastBatchID + 1 + n));
    assert b.id == s.start.lastBatchID + 1 + n;
    assert PerformedAs(c, Transfer(c.transfers[n]));
  }

  lemma PerformedOnce(c: Elrond, id: nat, quorum: nat)
    requires Distinct(c.actions) && CanPerform(c, id, quorum)
    ensures !PerformedAs(c, c.actions[id - 1])
  {
    forall other | other in c.performed ensures !ActionIs(c, other, c.actions[id - 1]) {
    }
  }

  /**
   * A supported transfer that the contract can still perform is the batch whose turn it is now: had the
   * chain moved on since the relayer read the last identifier, that very action would be performed
   * already, and it is performed at most once.
   */
  lemma PerformableIsDue(s: Setting, h: History, id: nat, quorum: nat) returns (b: Batch)
    requires Sane(s) && h != [] && HistoryGrows(h)
    requires forall j :: 0 <= j < |h| ==> Tiled(s.start, h[j].elrond) && FromContent(s, h[j].elrond)
    requires var c := h[|h| - 1].elrond;
             && ElrondSound(s, h, c) && CanPerform(c, id, quorum) && quorum > |s.arbitrary|
             && c.actions[id - 1].Transfer?
    ensures var c := h[|h| - 1].elrond;
            c.actions[id - 1] == Transfer(TransferArgs(b)) && IsDue(s, c, b)
  {
    var last := |h| - 1;
    var c := h[last].elrond;
    PerformableIsSupported(s, h, c, id, quorum);
    b :| WasNext(s, h, b) && c.actions[id - 1].args == TransferArgs(b);
    var j: nat, k: nat :| NextAt(s, h, b, j, k);
    assert Grows(h[j], h[k]) && Grows(h[k], h[last]);
    PerformedOnce(c, id, quorum);
    if |h[j].elrond.transfers| < |c.transfers| {
      PassedIsPerformed(s, h, c, h[j].elrond, b);
      assert false;
    }
    SameMarks(s.start, h[j], h[k]);
    SameMarks(s.start, h[k], h[last]);
  }
}

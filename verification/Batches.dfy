/** The chain-agnostic transfer batch and the resolution of late deposits (clients/batch.go). */
module Batches {
  import opened Base

  const EXECUTED: byte := 3
  const REJECTED: byte := 4

  /** One deposit; the displayable strings of the source are not part of the model. */
  datatype Deposit = Deposit(
    nonce: uint64, to: Bytes, from: Bytes, token: Bytes, convertedToken: Bytes, amount: nat)

  /** The value of a transfer batch at one moment. */
  datatype Batch = Batch(id: uint64, deposits: seq<Deposit>, statuses: Bytes)

  function Zeros(n: nat): (z: Bytes)
    ensures |z| == n && forall i :: 0 <= i < n ==> z[i] == 0
  {
    seq(n, _ => 0)
  }

  function Max(a: int, b: int): int { if a < b then b else a }
  function Min(a: int, b: int): int { if a < b then a else b }

  /** Statuses `s` resolved against `n` deposits: what exceeds either list is rejected. */
  function Resolved(s: Bytes, n: nat): (r: Bytes) {
    s[..Min(|s|, n)] + Rejections(Max(|s|, n) - Min(|s|, n))
  }

  function Rejections(n: nat): (r: Bytes)
    ensures |r| == n && forall i :: 0 <= i < n ==> r[i] == REJECTED
  {
    seq(n, _ => REJECTED)
  }

  /** A batch object; only its statuses are ever changed after it was built. */
  class TransferBatch {
    const id: uint64
    const deposits: seq<Deposit>
    var statuses: Bytes

    constructor (b: Batch)
      ensures Value() == b
    {
      id, deposits, statuses := b.id, b.deposits, b.statuses;
    }

    ghost function Value(): Batch
      reads this
    {
      Batch(id, deposits, statuses)
    }

    method ResolveNewDeposits(newNumDeposits: nat)
      modifies this
      ensures Value() == old(Value()).(statuses := Resolved(old(statuses), newNumDeposits))
    {
      ghost var was := statuses;
      var oldLen := |statuses|;
      if newNumDeposits == oldLen {
        assert Resolved(was, newNumDeposits) == was;
        return;
      }
      var i := newNumDeposits;
      while i < oldLen
        invariant newNumDeposits <= i <= Max(oldLen, newNumDeposits)
        invariant |statuses| == oldLen
        invariant forall j :: 0 <= j < oldLen ==>
                    statuses[j] == if newNumDeposits <= j < i then REJECTED else was[j]
      {
        statuses := statuses[i := REJECTED];
        i := i + 1;
      }
      while newNumDeposits > |statuses|
        invariant |statuses| <= Max(oldLen, newNumDeposits)
        invariant oldLen <= |statuses|
        invariant forall j :: 0 <= j < |statuses| ==>
                    statuses[j] == if j < Min(oldLen, newNumDeposits) then was[j] else REJECTED
        decreases newNumDeposits - |statuses|
      {
        statuses := statuses + [REJECTED];
      }
      assert statuses == Resolved(was, newNumDeposits);
    }

    /** A deep copy: equal in value, and a different object, so neither sees the other's updates. */
    method Clone() returns (cloned: TransferBatch)
      ensures fresh(cloned) && cloned.Value() == Value()
    {
      var copied: seq<Deposit> := [];
      for i := 0 to |deposits|
        invariant copied == deposits[..i]
      {
        var dt := deposits[i];
        copied := copied + [Deposit(dt.nonce, dt.to, dt.from, dt.token, dt.convertedToken, dt.amount)];
      }
      cloned := new TransferBatch(Batch(id, copied, statuses));
    }
  }

  /** Length, kept prefix and rejected rest of a resolution. */
  lemma ResolvedShape(s: Bytes, n: nat)
    ensures |Resolved(s, n)| == Max(|s|, n)
    ensures Resolved(s, n)[..Min(|s|, n)] == s[..Min(|s|, n)]
    ensures forall i :: Min(|s|, n) <= i < Max(|s|, n) ==> Resolved(s, n)[i] == REJECTED
    ensures |s| <= n ==> |Resolved(s, n)| == n
  {
    var m := Min(|s|, n);
    assert forall i :: 0 <= i < m ==> Resolved(s, n)[..m][i] == s[..m][i];
  }

  /** A status survives a resolution exactly where there is a deposit for it; what is added or cut is status 4, never executed. */
  lemma ResolvedAt(s: Bytes, n: nat, i: nat)
    requires i < Max(|s|, n)
    ensures |Resolved(s, n)| == Max(|s|, n)
    ensures Resolved(s, n)[i] == if i < |s| && i < n then s[i] else REJECTED
    ensures !(i < |s| && i < n) ==> Resolved(s, n)[i] == 4 && Resolved(s, n)[i] != EXECUTED
    ensures EXECUTED == 3
  {
  }

  lemma ResolvedIdempotent(s: Bytes, n: nat)
    ensures Resolved(Resolved(s, n), n) == Resolved(s, n)
  {
    forall i: nat | i < Max(|s|, n) ensures Resolved(Resolved(s, n), n)[i] == Resolved(s, n)[i] {
      ResolvedAt(s, n, i);
      ResolvedAt(Resolved(s, n), n, i);
    }
  }

  lemma ResolvedCommute(s: Bytes, m: nat, n: nat)
    ensures Resolved(Resolved(s, m), n) == Resolved(Resolved(s, n), m)
  {
    var a, b := Resolved(Resolved(s, m), n), Resolved(Resolved(s, n), m);
    forall i: nat | i < |a| ensures a[i] == b[i] {
      ResolvedTwiceAt(s, m, n, i);
      ResolvedTwiceAt(s, n, m, i);
    }
  }

  lemma ResolvedTwiceAt(s: Bytes, m: nat, n: nat, i: nat)
    requires i < Max(Max(|s|, m), n)
    ensures |Resolved(Resolved(s, m), n)| == Max(Max(|s|, m), n)
    ensures Resolved(Resolved(s, m), n)[i] == if i < |s| && i < m && i < n then s[i] else REJECTED
  {
    ResolvedAt(Resolved(s, m), n, i);
    if i < Max(|s|, m) {
      ResolvedAt(s, m, i);
    }
  }
}

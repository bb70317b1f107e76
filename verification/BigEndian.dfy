/** Unsigned big-endian integers, as `math/big` and `encoding/binary` read and write them. */
module BigEndian {
  import opened Base

  /** `big.Int.SetBytes`. */
  function Value(bs: Bytes): (n: nat) {
    if bs == [] then 0 else 256 * Value(bs[..|bs| - 1]) + bs[|bs| - 1]
  }

  /** `big.Int.Bytes` on a non-negative number: no leading zero byte. */
  function Minimal(n: nat): (bs: Bytes) {
    if n == 0 then [] else Minimal(n / 256) + [n % 256]
  }

  /** The `width` low bytes of `n`; with width 8 this is `binary.BigEndian.PutUint64`. */
  function Fixed(n: nat, width: nat): (bs: Bytes)
    ensures |bs| == width
  {
    if width == 0 then [] else Fixed(n / 256, width - 1) + [n % 256]
  }

  function Pow256(k: nat): (p: nat)
    ensures p >= 1
  {
    if k == 0 then 1 else 256 * Pow256(k - 1)
  }

  lemma {:induction false} ValueOfMinimal(n: nat)
    ensures Value(Minimal(n)) == n
  {
    if n != 0 {
      ValueOfMinimal(n / 256);
      assert Minimal(n)[..|Minimal(n)| - 1] == Minimal(n / 256);
    }
  }

  lemma MinimalInjective(a: nat, b: nat)
    requires Minimal(a) == Minimal(b)
    ensures a == b
  {
    ValueOfMinimal(a);
    ValueOfMinimal(b);
  }

  lemma {:induction false} ValueOfFixed(n: nat, width: nat)
    requires n < Pow256(width)
    ensures Value(Fixed(n, width)) == n
  {
    if width != 0 {
      ValueOfFixed(n / 256, width - 1);
      assert Fixed(n, width)[..width - 1] == Fixed(n / 256, width - 1);
    }
  }

  lemma {:induction false} ValueBound(bs: Bytes)
    ensures Value(bs) < Pow256(|bs|)
  {
    if bs != [] {
      ValueBound(bs[..|bs| - 1]);
    }
  }

  /** The value of bytes after one another: the earlier ones count for more. */
  lemma {:induction false} ValueConcat(x: Bytes, y: Bytes)
    ensures Value(x + y) == Value(x) * Pow256(|y|) + Value(y)
    decreases |y|
  {
    if y == [] {
      assert x + y == x;
    } else {
      var front := y[..|y| - 1];
      ValueConcat(x, front);
      assert (x + y)[..|x + y| - 1] == x + front;
      assert 256 * (Value(x) * Pow256(|front|)) == Value(x) * Pow256(|y|);
    }
  }

  /** Bytes of one length are told apart by their value. */
  lemma {:induction false} ValueDetermines(x: Bytes, y: Bytes)
    requires |x| == |y| && Value(x) == Value(y)
    ensures x == y
    decreases |x|
  {
    if x != [] {
      ValueDetermines(x[..|x| - 1], y[..|y| - 1]);
      assert x == x[..|x| - 1] + [x[|x| - 1]] && y == y[..|y| - 1] + [y[|y| - 1]];
    }
  }

  /** The low digits of a number in base `p`. */
  lemma LowDigits(hi: nat, p: nat, lo: nat)
    requires lo < p
    ensures (hi * p + lo) % p == lo
  {
    var n := hi * p + lo;
    assert n == n / p * p + n % p;
    if n / p < hi {
      Multiples(n / p, hi, p);
    } else if n / p > hi {
      Multiples(hi, n / p, p);
    }
  }

  lemma {:induction false} Multiples(a: nat, b: nat, p: nat)
    requires a < b
    ensures a * p + p <= b * p
    decreases b
  {
    assert b * p == (b - 1) * p + p;
    if a < b - 1 {
      Multiples(a, b - 1, p);
    }
  }

  /** The last bytes of a string have the value of the string modulo a power of 256. */
  lemma ValueOfLast(bs: Bytes, n: nat)
    requires n <= |bs|
    ensures Value(bs[|bs| - n..]) == Value(bs) % Pow256(n)
  {
    var hi, lo := bs[..|bs| - n], bs[|bs| - n..];
    assert bs == hi + lo;
    ValueConcat(hi, lo);
    ValueBound(lo);
    LowDigits(Value(hi), Pow256(n), Value(lo));
  }

  /** Leading zeros do not count. */
  lemma {:induction false} ValueOfPadded(zeros: Bytes, bs: Bytes)
    requires forall i :: 0 <= i < |zeros| ==> zeros[i] == 0
    ensures Value(zeros + bs) == Value(bs)
  {
    if zeros == [] {
      assert zeros + bs == bs;
    } else {
      ValueOfPadded(zeros[1..], bs);
      assert zeros + bs == [zeros[0]] + (zeros[1..] + bs);
      ValueConcat([zeros[0]], zeros[1..] + bs);
      assert [zeros[0]][..0] == [];
      assert Value([zeros[0]]) == 0;
    }
  }

  /** The minimal form is the only form of its value without a leading zero. */
  lemma {:induction false} MinimalExact(bs: Bytes)
    ensures bs == Minimal(Value(bs)) <==> bs == [] || bs[0] != 0
  {
    if bs != [] {
      var front := bs[..|bs| - 1];
      MinimalExact(front);
      assert Value(bs) / 256 == Value(front) && Value(bs) % 256 == bs[|bs| - 1];
      assert bs == front + [bs[|bs| - 1]];
      if front != [] {
        assert front[0] == bs[0];
        if Value(bs) != 0 {
          assert Minimal(Value(bs)) == Minimal(Value(front)) + [bs[|bs| - 1]];
          assert Minimal(Value(bs))[..|Minimal(Value(bs))| - 1] == Minimal(Value(front));
        }
      }
    }
  }

  lemma Pow256Of8()
    ensures Pow256(8) == TWO_64
  {
    assert Pow256(4) == 0x1_0000_0000 by {
      assert Pow256(2) == 0x1_0000;
    }
    assert Pow256(6) == 0x1_0000_0000_0000;
  }

  lemma Uint64RoundTrip(n: uint64)
    ensures Value(Fixed(n, 8)) == n
  {
    Pow256Of8();
    ValueOfFixed(n, 8);
  }
}

/** Value types shared by every component of the relayer model. */
module Base {

  const TWO_63: int := 0x8000_0000_0000_0000
  const TWO_64: int := 0x1_0000_0000_0000_0000

  type byte = x: int | 0 <= x < 256
  type Bytes = seq<byte>
  type uint64 = x: int | 0 <= x < TWO_64

  datatype Option<+T> = None | Some(value: T)

  /** The errors the modelled code tells apart; REMOTE stands for whatever a chain call reports. */
  datatype Error =
    | Remote
    | NilBatch
    | BatchNotFound
    | InvalidDepositNonce
    | QuorumNotReached
    | InvalidValue
    | ContractPaused
    | InsufficientErc20Balance
    | InsufficientBalance
    | NoPendingBatch
    | InvalidNumberOfArguments
    | NotUint64(index: nat)
    | ConvertToken(index: nat)
    | DepositsCountDiffer
    | NonceTooLow
    | InvalidSize
    | InvalidSignature
    | NotWhitelisted
    | StepNotFound
    | DuplicatedStep

  datatype Result<+T> = Ok(value: T) | Err(error: Error)

  /** What converts a token to the other chain's, fixed during a call. */
  type Mapper = Bytes -> Result<Bytes>

  ghost predicate Distinct<T>(s: seq<T>) {
    forall i, j :: 0 <= i < j < |s| ==> s[i] != s[j]
  }

  /** `s` lists the elements of `elements` once each, in some order (what ranging over a map yields). */
  ghost predicate Enumerates<T(!new)>(s: seq<T>, elements: set<T>) {
    Distinct(s) && (forall x :: x in s <==> x in elements)
  }

  /** The function applied to each entry. */
  function Mapped<T, R>(f: T -> R, s: seq<T>): (r: seq<R>)
    ensures |r| == |s| && forall i :: 0 <= i < |s| ==> r[i] == f(s[i])
  {
    seq(|s|, i requires 0 <= i < |s| => f(s[i]))
  }

  lemma MappedAppend<T, R>(f: T -> R, s: seq<T>, x: T)
    ensures Mapped(f, s + [x]) == Mapped(f, s) + [f(x)]
  {
  }

  /** `asked` holds each entry of `all` once. */
  ghost predicate AskedExactly<T(!new)>(asked: seq<T>, all: seq<T>) {
    Distinct(asked) && forall x :: x in asked <==> x in all
  }

  lemma AskedAppend<T(!new)>(asked: seq<T>, all: seq<T>, x: T)
    requires AskedExactly(asked, all)
    ensures AskedExactly(if x in asked then asked else asked + [x], all + [x])
  {
  }

  lemma {:induction false} EnumerationLength<T(!new)>(s: seq<T>, elements: set<T>)
    requires Enumerates(s, elements)
    ensures |s| == |elements|
  {
    if s == [] {
      assert elements == {};
    } else {
      var last := s[|s| - 1];
      var rest := s[..|s| - 1];
      assert forall x :: x in s <==> x in rest || x == last;
      EnumerationLength(rest, elements - {last});
    }
  }

  lemma ConcatAssociative<T>(x: seq<T>, y: seq<T>, z: seq<T>)
    ensures (x + y) + z == x + (y + z)
  {
  }

  lemma TakeOneMore<T>(s: seq<T>, i: nat)
    requires i < |s|
    ensures s[..i + 1] == s[..i] + [s[i]]
  {
  }

  lemma SubsetCardinality<T>(a: set<T>, b: set<T>)
    requires a <= b
    ensures |a| <= |b|
  {
    var rest := b - a;
    assert b == a + rest;
  }

  /** `p` can be obtained from `l` by deleting entries: its entries occur in `l` in this order. */
  ghost predicate Subseq<T(!new)>(p: seq<T>, l: seq<T>)
    decreases |l|
  {
    || p == []
    || (l != [] &&
        (|| Subseq(p, l[..|l| - 1])
         || (p[|p| - 1] == l[|l| - 1] && Subseq(p[..|p| - 1], l[..|l| - 1]))))
  }

  lemma {:induction false} SubseqExtend<T(!new)>(p: seq<T>, l: seq<T>, more: seq<T>)
    requires Subseq(p, l)
    ensures Subseq(p, l + more)
    decreases |more|
  {
    if more == [] {
      assert l + more == l;
    } else {
      var front := more[..|more| - 1];
      SubseqExtend(p, l, front);
      assert (l + more)[..|l + more| - 1] == l + front;
    }
  }

  lemma {:induction false} SubseqSelf<T(!new)>(l: seq<T>)
    ensures Subseq(l, l)
    decreases |l|
  {
    if l != [] {
      SubseqSelf(l[..|l| - 1]);
    }
  }

  /** What is left of a pattern after dropping its end still occurs. */
  lemma {:induction false} SubseqPrefix<T(!new)>(p: seq<T>, l: seq<T>, k: nat)
    requires Subseq(p, l) && k <= |p|
    ensures Subseq(p[..k], l)
    decreases |l|
  {
    if k == |p| {
      assert p[..k] == p;
    } else if k > 0 {
      var front := l[..|l| - 1];
      if Subseq(p, front) {
        SubseqPrefix(p, front, k);
      } else {
        SubseqPrefix(p[..|p| - 1], front, k);
        assert p[..|p| - 1][..k] == p[..k];
      }
    }
  }

  /** A pattern followed by a pattern occurs in a log followed by a log. */
  lemma {:induction false} SubseqConcat<T(!new)>(p: seq<T>, l: seq<T>, q: seq<T>, m: seq<T>)
    requires Subseq(p, l) && Subseq(q, m)
    ensures Subseq(p + q, l + m)
    decreases |m|
  {
    if q == [] {
      assert p + q == p;
      SubseqExtend(p, l, m);
    } else {
      var mm := m[..|m| - 1];
      assert (l + m)[..|l + m| - 1] == l + mm;
      if Subseq(q, mm) {
        SubseqConcat(p, l, q, mm);
      } else {
        var qq := q[..|q| - 1];
        SubseqConcat(p, l, qq, mm);
        assert (p + q)[..|p + q| - 1] == p + qq;
      }
    }
  }

  /** A log that ends with the pattern's end extends an occurrence of the pattern's beginning. */
  lemma SubseqThen<T(!new)>(p: seq<T>, l: seq<T>, q: seq<T>)
    requires Subseq(p, l)
    ensures Subseq(p + q, l + q)
  {
    SubseqSelf(q);
    SubseqConcat(p, l, q, q);
  }

  /** Of the calls `c` and then `polled`, the pattern may keep `c` and the last poll. */
  lemma SubseqThenLast<T(!new)>(p: seq<T>, l: seq<T>, c: seq<T>, polled: seq<T>)
    requires Subseq(p, l) && polled != []
    ensures Subseq(p + (c + [polled[|polled| - 1]]), l + (c + polled))
  {
    var n := |polled| - 1;
    SubseqThen(p, l, c);
    SubseqExtend(p + c, l + c, polled[..n]);
    SubseqThen(p + c, l + c + polled[..n], [polled[n]]);
    assert p + c + [polled[n]] == p + (c + [polled[n]]);
    assert l + c + polled[..n] + [polled[n]] == l + (c + polled);
  }

  /** Of the calls `first`, some others and then `last`, the pattern may keep the first and the last. */
  lemma SubseqAround<T(!new)>(p: seq<T>, l: seq<T>, first: T, skipped: seq<T>, last: T)
    requires Subseq(p, l)
    ensures Subseq(p + [first, last], l + ([first] + skipped + [last]))
  {
    SubseqThenLast(p, l, [first], skipped + [last]);
    assert [first] + [last] == [first, last];
    assert [first] + (skipped + [last]) == [first] + skipped + [last];
  }

  function Count<T(==)>(s: seq<T>, x: T): nat {
    if s == [] then 0 else Count(s[..|s| - 1], x) + if s[|s| - 1] == x then 1 else 0
  }

  lemma CountAppend<T>(s: seq<T>, last: T, x: T)
    ensures Count(s + [last], x) == Count(s, x) + if last == x then 1 else 0
  {
    assert (s + [last])[..|s|] == s;
  }
}

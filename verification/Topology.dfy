/**
 * Leader election over the whitelisted keys (bridges/ethElrond/topology), with the role provider that
 * holds the whitelist (clients/roleProviders/elrondRoleProvider.go).
 */
module Topology {
  import opened Base
  import opened BigEndian

  // ---------------------------------------------------------------- the order of byte strings

  /** `bytes.Compare(a, b) < 0`. */
  predicate Less(a: Bytes, b: Bytes) {
    if b == [] then false
    else if a == [] then true
    else a[0] < b[0] || (a[0] == b[0] && Less(a[1..], b[1..]))
  }

  lemma {:induction false} LessTransitive(a: Bytes, b: Bytes, c: Bytes)
    requires Less(a, b) && Less(b, c)
    ensures Less(a, c)
    decreases |a|
  {
    if a != [] && a[0] == b[0] && b[0] == c[0] {
      LessTransitive(a[1..], b[1..], c[1..]);
    }
  }

  lemma {:induction false} LessTrichotomy(a: Bytes, b: Bytes)
    ensures a == b <==> !Less(a, b) && !Less(b, a)
    ensures !(Less(a, b) && Less(b, a))
    decreases |a|
  {
    if a != [] && b != [] {
      LessTrichotomy(a[1..], b[1..]);
      assert a == [a[0]] + a[1..] && b == [b[0]] + b[1..];
    }
  }

  /** For strings of one length the order is that of their big-endian values. */
  lemma {:induction false} LessIsSmaller(a: Bytes, b: Bytes)
    requires |a| == |b|
    ensures Less(a, b) <==> Value(a) < Value(b)
    decreases |a|
  {
    if a != [] {
      var x, y := a[1..], b[1..];
      LessIsSmaller(x, y);
      FirstByteCounts(a);
      FirstByteCounts(b);
      if a[0] < b[0] {
        Multiples(a[0], b[0], Pow256(|x|));
      } else if b[0] < a[0] {
        Multiples(b[0], a[0], Pow256(|x|));
      }
    }
  }

  lemma FirstByteCounts(a: Bytes)
    requires a != []
    ensures Value(a) == a[0] * Pow256(|a| - 1) + Value(a[1..])
    ensures Value(a[1..]) < Pow256(|a| - 1)
  {
    var first, rest := [a[0]], a[1..];
    assert a == first + rest;
    ValueConcat(first, rest);
    assert Value(first) == a[0] by {
      assert first[..0] == [];
    }
    ValueBound(rest);
  }

  /** A string comes before its continuations. */
  lemma {:induction false} PrefixIsLess(a: Bytes, more: Bytes)
    requires more != []
    ensures Less(a, a + more)
    decreases |a|
  {
    if a != [] {
      PrefixIsLess(a[1..], more);
      assert (a + more)[1..] == a[1..] + more;
    }
  }

  ghost predicate Sorted(s: seq<Bytes>) {
    forall i, j :: 0 <= i < j < |s| ==> Less(s[i], s[j])
  }

  lemma HasMember(s: seq<Bytes>)
    ensures s == [] || exists x :: x in s
  {
    if s != [] {
      assert s[0] in s;
    }
  }

  /** A set of keys has one sorted listing, whatever order the map yields them in. */
  lemma {:induction false} SortedUnique(s: seq<Bytes>, t: seq<Bytes>)
    requires Sorted(s) && Sorted(t) && forall x :: x in s <==> x in t
    ensures s == t
    decreases |s|
  {
    if s == [] {
      HasMember(t);
    } else {
      assert s[0] in t;
      assert t != [];
      assert t[0] in s;
      var i :| 0 <= i < |t| && t[i] == s[0];
      var j :| 0 <= j < |s| && s[j] == t[0];
      if i > 0 && j > 0 {
        LessTrichotomy(s[0], t[0]);
        assert false;
      }
      assert s[0] == t[0];
      forall x ensures x in s[1..] <==> x in t[1..] {
        LessTrichotomy(s[0], s[0]);
        assert s[0] !in s[1..] && t[0] !in t[1..];
        assert x in s <==> x == s[0] || x in s[1..];
        assert x in t <==> x == t[0] || x in t[1..];
      }
      SortedUnique(s[1..], t[1..]);
      assert s == [s[0]] + s[1..] && t == [t[0]] + t[1..];
    }
  }

  function Insert(s: seq<Bytes>, x: Bytes): (r: seq<Bytes>) {
    if s == [] then [x]
    else if Less(x, s[0]) then [x] + s
    else [s[0]] + Insert(s[1..], x)
  }

  lemma {:induction false} InsertSorted(s: seq<Bytes>, x: Bytes)
    requires Sorted(s) && x !in s
    ensures Sorted(Insert(s, x))
    ensures forall y :: y in Insert(s, x) <==> y in s || y == x
  {
    if s != [] {
      if Less(x, s[0]) {
        var r := [x] + s;
        forall j | 1 <= j < |r| ensures Less(x, r[j]) {
          if j > 1 {
            LessTransitive(x, s[0], s[j - 1]);
          }
        }
      } else {
        var rest := Insert(s[1..], x);
        InsertSorted(s[1..], x);
        LessTrichotomy(s[0], x);
        assert forall y :: y in s <==> y == s[0] || y in s[1..];
        forall j | 0 <= j < |rest| ensures Less(s[0], rest[j]) {
          assert rest[j] in rest;
          if rest[j] != x {
            var k :| 0 <= k < |s[1..]| && s[1..][k] == rest[j];
            assert s[k + 1] == rest[j];
          }
        }
      }
    }
  }

  /** The listing every relayer computes from a whitelist. */
  ghost predicate IsListing(s: seq<Bytes>, keys: set<Bytes>) {
    Sorted(s) && forall x :: x in s <==> x in keys
  }

  /** Ranging over the keys of a map is arbitrary; the sorted result is not. */
  method SortKeys(addresses: set<Bytes>) returns (keys: seq<Bytes>)
    ensures IsListing(keys, addresses)
  {
    keys := [];
    var rest := addresses;
    while rest != {}
      invariant rest <= addresses
      invariant IsListing(keys, addresses - rest)
      decreases |rest|
    {
      var addr :| addr in rest;
      InsertSorted(keys, addr);
      keys := Insert(keys, addr);
      rest := rest - {addr};
    }
    assert addresses - rest == addresses;
  }

  // ---------------------------------------------------------------- the whitelist

  const ADDRESS_LENGTH: nat := 32

  class ElrondRoleProvider {
    var whitelistedAddresses: set<Bytes>

    constructor ()
      ensures whitelistedAddresses == {}
    {
      whitelistedAddresses := {};
    }

    /** One malformed address refuses the whole answer and keeps the old whitelist. */
    method ProcessResults(results: seq<Bytes>) returns (r: Result<()>)
      modifies this
      ensures r.Ok? <==> forall i :: 0 <= i < |results| ==> |results[i]| == 32
      ensures r.Ok? ==> forall x :: x in whitelistedAddresses <==> x in results
      ensures r.Err? ==> whitelistedAddresses == old(whitelistedAddresses)
    {
      var temporaryMap: set<Bytes> := {};
      for i := 0 to |results|
        invariant forall j :: 0 <= j < i ==> |results[j]| == ADDRESS_LENGTH
        invariant forall x :: x in temporaryMap <==> x in results[..i]
        invariant whitelistedAddresses == old(whitelistedAddresses)
      {
        if |results[i]| != ADDRESS_LENGTH {
          return Err(InvalidValue);
        }
        temporaryMap := temporaryMap + {results[i]};
      }
      assert results[..|results|] == results;
      whitelistedAddresses := temporaryMap;
      r := Ok(());
    }

    method IsWhitelisted(address: Bytes) returns (yes: bool)
      ensures yes <==> address in whitelistedAddresses
    {
      yes := address in whitelistedAddresses;
    }

    method SortedPublicKeys() returns (keys: seq<Bytes>)
      ensures IsListing(keys, whitelistedAddresses)
    {
      keys := SortKeys(whitelistedAddresses);
    }
  }

  // ---------------------------------------------------------------- the leader

  type Hasher = Bytes -> Bytes

  /** SHA-256 yields 32 bytes; only the first eight are used. */
  ghost predicate LongEnough(sha: Hasher) {
    forall x :: |sha(x)| >= 8
  }

  /** `randomInt`; `binary.BigEndian.Uint64` reads the first eight bytes. */
  function RandomInt(sha: Hasher, seed: uint64, max: nat): (r: nat)
    requires |sha(Fixed(seed, 8))| >= 8
    ensures max > 0 ==> r < max
  {
    if max == 0 then 0 else Value(sha(Fixed(seed, 8))[..8]) % max
  }

  /** Go's `/` on `int64` truncates toward zero. */
  function Quotient(a: int, b: int): int
    requires b > 0
  {
    if a >= 0 then a / b else -((-a) / b)
  }

  /** The slot number used as seed: `uint64(now / interval)`. */
  function Slot(now: int, interval: int): uint64
    requires interval > 0
  {
    Quotient(now, interval) % TWO_64
  }

  /** What `MyTurnAsLeader` answers for a listing. */
  function MyTurn(sha: Hasher, keys: seq<Bytes>, slot: uint64, address: Bytes): bool
    requires |sha(Fixed(slot, 8))| >= 8
  {
    keys != [] && keys[RandomInt(sha, slot, |keys|)] == address
  }

  /** Whether `address` leads the slot when `keys` are whitelisted. */
  ghost predicate Leads(sha: Hasher, keys: set<Bytes>, slot: uint64, address: Bytes)
    requires LongEnough(sha)
  {
    exists listing :: IsListing(listing, keys) && MyTurn(sha, listing, slot, address)
  }

  method MyTurnAsLeader(sha: Hasher, provider: ElrondRoleProvider, now: int, interval: int, address: Bytes)
    returns (turn: bool)
    requires LongEnough(sha)
    requires interval > 0
    ensures forall keys :: IsListing(keys, provider.whitelistedAddresses) ==>
              turn == MyTurn(sha, keys, Slot(now, interval), address)
    ensures turn <==> Leads(sha, provider.whitelistedAddresses, Slot(now, interval), address)
  {
    var sortedPublicKeys := provider.SortedPublicKeys();
    if |sortedPublicKeys| == 0 {
      turn := false;
    } else {
      var seed := Slot(now, interval);
      var index := RandomInt(sha, seed, |sortedPublicKeys|);
      turn := sortedPublicKeys[index] == address;
    }
    forall keys | IsListing(keys, provider.whitelistedAddresses)
      ensures turn == MyTurn(sha, keys, Slot(now, interval), address)
    {
      SortedUnique(keys, sortedPublicKeys);
    }
  }

  lemma {:induction false} ListingExists(keys: set<Bytes>) returns (listing: seq<Bytes>)
    ensures IsListing(listing, keys)
    decreases keys
  {
    if keys == {} {
      listing := [];
    } else {
      var x :| x in keys;
      var rest := ListingExists(keys - {x});
      InsertSorted(rest, x);
      listing := Insert(rest, x);
    }
  }

  /** Every slot has exactly one leader, and it is whitelisted; with nobody whitelisted it has none. */
  lemma UniqueLeader(sha: Hasher, keys: set<Bytes>, slot: uint64)
    requires LongEnough(sha)
    ensures keys != {} <==> exists a :: Leads(sha, keys, slot, a)
    ensures forall a :: Leads(sha, keys, slot, a) ==> a in keys
    ensures forall a, b :: Leads(sha, keys, slot, a) && Leads(sha, keys, slot, b) ==> a == b
  {
    var listing := ListingExists(keys);
    forall other | IsListing(other, keys) ensures other == listing {
      SortedUnique(other, listing);
    }
    forall a | Leads(sha, keys, slot, a) ensures a in keys {
      assert MyTurn(sha, listing, slot, a);
      assert listing[RandomInt(sha, slot, |listing|)] in listing;
    }
    if keys != {} {
      var k :| k in keys;
      assert k in listing;
      assert MyTurn(sha, listing, slot, listing[RandomInt(sha, slot, |listing|)]);
      assert Leads(sha, keys, slot, listing[RandomInt(sha, slot, |listing|)]);
    }
  }

  lemma ModuloOffset(k: nat, q: nat, n: nat)
    requires k < n
    ensures (k + q * n) % n == k
  {
    LowDigits(q, n, k);
  }

  /**
   * Who leads is decided by the first eight bytes of the digest of the slot, read as a number: modulo the
   * number of keys it is the leader's place in the sorted listing.
   */
  lemma ElectedByDigest(sha: Hasher, keys: set<Bytes>, listing: seq<Bytes>, slot: uint64, k: nat, q: nat)
    requires LongEnough(sha) && IsListing(listing, keys) && k < |listing| && k + q * |listing| < TWO_64
    requires sha(Fixed(slot, 8))[..8] == Fixed(k + q * |listing|, 8)
    ensures Leads(sha, keys, slot, listing[k])
    ensures forall a :: Leads(sha, keys, slot, a) ==> a == listing[k]
  {
    Uint64RoundTrip(k + q * |listing|);
    ModuloOffset(k, q, |listing|);
    assert MyTurn(sha, listing, slot, listing[k]);
    UniqueLeader(sha, keys, slot);
  }

  lemma {:induction false} ListingLength(listing: seq<Bytes>, keys: set<Bytes>)
    requires IsListing(listing, keys)
    ensures |listing| == |keys|
  {
    forall i, j | 0 <= i < j < |listing| ensures listing[i] != listing[j] {
      LessTrichotomy(listing[i], listing[j]);
    }
    EnumerationLength(listing, keys);
  }

  /** The digest that elects this key. */
  ghost predicate Elects(digest: Bytes, keys: set<Bytes>, a: Bytes) {
    |digest| == 8 && forall sha, slot :: Electing(sha, slot, digest) ==> Leads(sha, keys, slot, a)
  }

  ghost predicate Electing(sha: Hasher, slot: uint64, digest: Bytes) {
    LongEnough(sha) && sha(Fixed(slot, 8))[..8] == digest
  }

  /** Every whitelisted key leads for some digest: none is shut out. */
  lemma EveryKeyCanLead(keys: set<Bytes>, a: Bytes) returns (digest: Bytes)
    requires a in keys && |keys| < TWO_64
    ensures Elects(digest, keys, a)
  {
    var listing := ListingExists(keys);
    ListingLength(listing, keys);
    var k: nat :| k < |listing| && listing[k] == a;
    digest := Fixed(k, 8);
    forall sha, slot | Electing(sha, slot, digest) ensures Leads(sha, keys, slot, a) {
      var q := 0;
      assert k + q * |listing| == k;
      ElectedByDigest(sha, keys, listing, slot, k, q);
    }
  }

  lemma QuotientUnique(n: nat, interval: int, k: nat)
    requires interval > 0 && interval * k <= n < interval * (k + 1)
    ensures n / interval == k
  {
    var q := n / interval;
    assert n == q * interval + n % interval;
    if q < k {
      Multiples(q, k, interval);
    } else if q > k {
      Multiples(k, q, interval);
    }
  }

  /** Slots count the intervals since time zero; before it they count down, and both intervals next to zero are slot 0. */
  lemma SlotsCount(now: int, interval: int, k: int)
    requires interval > 0 && k >= 0
    ensures interval * k <= now < interval * (k + 1) ==> Slot(now, interval) == k % 0x1_0000_0000_0000_0000
    ensures interval * k <= -now < interval * (k + 1) ==> Slot(now, interval) == (-k) % 0x1_0000_0000_0000_0000
  {
    if interval * k <= now < interval * (k + 1) {
      NotNegative(interval, k);
      QuotientUnique(now, interval, k);
    }
    if interval * k <= -now < interval * (k + 1) {
      NotNegative(interval, k);
      QuotientUnique(-now, interval, k);
    }
  }

  lemma NotNegative(x: nat, k: nat)
    ensures x * k >= 0
  {
  }

  /** The leader does not change within a slot. */
  lemma SlotIsAnInterval(now: int, later: int, interval: int)
    requires interval > 0 && 0 <= now <= later
    requires now / interval == later / interval
    ensures Slot(now, interval) == Slot(later, interval)
    ensures later - now < interval
  {
    assert now == interval * (now / interval) + now % interval;
    assert later == interval * (later / interval) + later % interval;
  }
}

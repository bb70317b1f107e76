/** The Ethereum client: message hash, transfer submission, token totals, batch fetch (clients/ethereum/client.go). */
module EthereumClient {
  import opened Base
  import opened Batches
  import opened BigEndian
  import opened SignatureStore

  // ---------------------------------------------------------------- the lists that are hashed and submitted

  const ADDRESS_LENGTH: nat := 20
  type Address = b: Bytes | |b| == ADDRESS_LENGTH witness Zeros(ADDRESS_LENGTH)

  /** `common.BytesToAddress`: the last twenty bytes, padded with zeros on the left. */
  function BytesToAddress(b: Bytes): Address {
    if |b| > ADDRESS_LENGTH then b[|b| - ADDRESS_LENGTH..] else Zeros(ADDRESS_LENGTH - |b|) + b
  }

  /** The address that stands for some bytes: them, if they are twenty, and what is left modulo 256^20 in any case. */
  ghost predicate IsAddressOf(x: Address, b: Bytes) {
    (|b| == 20 ==> x == b) && Value(x) == Value(b) % Pow256(20)
  }

  lemma {:induction false} Pow256Grows(j: nat, k: nat)
    requires j <= k
    ensures Pow256(j) <= Pow256(k)
    decreases k
  {
    if j < k {
      Pow256Grows(j, k - 1);
    }
  }

  /** The last `n` bytes, padded with zeros on the left, have the value modulo a power of 256. */
  lemma LastOrPadded(b: Bytes, n: nat)
    ensures Value(if |b| > n then b[|b| - n..] else Zeros(n - |b|) + b) == Value(b) % Pow256(n)
  {
    if |b| > n {
      ValueOfLast(b, n);
    } else {
      ValueOfPadded(Zeros(n - |b|), b);
      ValueBound(b);
      Pow256Grows(|b|, n);
      LowDigits(0, Pow256(n), Value(b));
    }
  }

  /** The bytes as an address: the only one that stands for them. */
  lemma AddressExact(b: Bytes, x: Address)
    ensures x == BytesToAddress(b) <==> IsAddressOf(x, b)
  {
    LastOrPadded(b, ADDRESS_LENGTH);
    if Value(x) == Value(BytesToAddress(b)) {
      ValueDetermines(x, BytesToAddress(b));
    }
  }

  datatype ArgLists = ArgLists(tokens: seq<Address>, recipients: seq<Address>, amounts: seq<nat>, nonces: seq<nat>)

  /** The four lists of a batch, one entry per deposit and in the same order. */
  function Lists(ds: seq<Deposit>): ArgLists {
    if ds == [] then ArgLists([], [], [], [])
    else
      var front, dt := Lists(ds[..|ds| - 1]), ds[|ds| - 1];
      ArgLists(front.tokens + [BytesToAddress(dt.convertedToken)],
               front.recipients + [BytesToAddress(dt.to)],
               front.amounts + [dt.amount],
               front.nonces + [dt.nonce])
  }

  /** Entry by entry, in the order of the deposits: token and recipient as addresses, amount and nonce as they are. */
  ghost predicate Carries(l: ArgLists, ds: seq<Deposit>) {
    && |l.tokens| == |l.recipients| == |l.amounts| == |l.nonces| == |ds|
    && forall k :: 0 <= k < |ds| ==>
         && IsAddressOf(l.tokens[k], ds[k].convertedToken) && IsAddressOf(l.recipients[k], ds[k].to)
         && l.amounts[k] == ds[k].amount && l.nonces[k] == ds[k].nonce
  }

  lemma {:induction false} ListsAt(ds: seq<Deposit>)
    ensures Carries(Lists(ds), ds)
  {
    if ds != [] {
      var n := |ds| - 1;
      ListsAt(ds[..n]);
      AddressExact(ds[n].convertedToken, BytesToAddress(ds[n].convertedToken));
      AddressExact(ds[n].to, BytesToAddress(ds[n].to));
    }
  }

  /** No other lists carry the deposits. */
  lemma ListsExact(l: ArgLists, ds: seq<Deposit>)
    ensures l == Lists(ds) <==> Carries(l, ds)
  {
    var all := Lists(ds);
    ListsAt(ds);
    if Carries(l, ds) {
      forall k | 0 <= k < |ds| ensures l.tokens[k] == all.tokens[k] && l.recipients[k] == all.recipients[k] {
        AddressExact(ds[k].convertedToken, l.tokens[k]);
        AddressExact(ds[k].convertedToken, all.tokens[k]);
        AddressExact(ds[k].to, l.recipients[k]);
        AddressExact(ds[k].to, all.recipients[k]);
      }
    }
  }

  method ExtractList(ds: seq<Deposit>) returns (arg: ArgLists)
    ensures arg == Lists(ds) && Carries(arg, ds)
  {
    arg := ArgLists([], [], [], []);
    for i := 0 to |ds|
      invariant arg == Lists(ds[..i])
    {
      var dt := ds[i];
      assert ds[..i + 1][..i] == ds[..i];
      arg := arg.(recipients := arg.recipients + [BytesToAddress(dt.to)]);
      arg := arg.(tokens := arg.tokens + [BytesToAddress(dt.convertedToken)]);
      arg := arg.(amounts := arg.amounts + [dt.amount]);
      arg := arg.(nonces := arg.nonces + [dt.nonce]);
    }
    assert ds[..|ds|] == ds;
    ListsAt(ds);
  }

  // ---------------------------------------------------------------- the message hash

  datatype PackArgs = PackArgs(
    recipients: seq<Address>, tokens: seq<Address>, amounts: seq<nat>, nonces: seq<nat>, id: nat, name: string)

  /** The ABI packing and Keccak-256, as functions of what they are applied to. */
  datatype Hashing = Hashing(pack: PackArgs -> Result<Bytes>, keccak: Bytes -> Bytes)

  /** The prefix of EIP-191 version 0x45 for a 32-byte message: 0x19 "Ethereum Signed Message:\n32". */
  const MESSAGE_PREFIX: Bytes := [
    0x19, 0x45, 0x74, 0x68, 0x65, 0x72, 0x65, 0x75, 0x6d, 0x20, 0x53, 0x69, 0x67, 0x6e,
    0x65, 0x64, 0x20, 0x4d, 0x65, 0x73, 0x73, 0x61, 0x67, 0x65, 0x3a, 0x0a, 0x33, 0x32]

  const METHOD_NAME: string := "ExecuteBatchedTransfer"

  function Packed(l: ArgLists, id: nat): PackArgs {
    PackArgs(l.recipients, l.tokens, l.amounts, l.nonces, id, METHOD_NAME)
  }

  /** The hash that relayers sign for these lists and this batch identifier. */
  function HashOf(h: Hashing, l: ArgLists, id: nat): Result<Bytes> {
    match h.pack(Packed(l, id))
    case Err(e) => Err(e)
    case Ok(packed) => Ok(h.keccak(MESSAGE_PREFIX + h.keccak(packed)))
  }

  /** The message hash of a batch; its statuses play no part. */
  function MessageHash(h: Hashing, b: Batch): Result<Bytes> {
    HashOf(h, Lists(b.deposits), b.id)
  }

  method GenerateMessageHash(h: Hashing, batch: Option<Batch>) returns (r: Result<Bytes>)
    ensures r == if batch.None? then Err(NilBatch) else MessageHash(h, batch.value)
  {
    if batch.None? {
      return Err(NilBatch);
    }
    var l := ExtractList(batch.value.deposits);
    var pack := h.pack(PackArgs(l.recipients, l.tokens, l.amounts, l.nonces, batch.value.id, METHOD_NAME));
    if pack.Err? {
      return Err(pack.error);
    }
    var hash := h.keccak(pack.value);
    r := Ok(h.keccak(MESSAGE_PREFIX + hash));
  }

  /** The character codes of a string. */
  function Ascii(s: string): (bs: Bytes)
    requires forall k :: 0 <= k < |s| ==> s[k] < 128 as char
    ensures |bs| == |s| && forall k :: 0 <= k < |s| ==> bs[k] == s[k] as int
  {
    seq(|s|, k requires 0 <= k < |s| => s[k] as int)
  }

  /**
   * What is packed and what is hashed: recipients before tokens, deposit by deposit, then the hash of the
   * packing behind the EIP-191 prefix, hashed again.
   */
  lemma MessageHashExact(h: Hashing, b: Batch) returns (args: PackArgs)
    ensures Carries(ArgLists(args.tokens, args.recipients, args.amounts, args.nonces), b.deposits)
    ensures args.id == b.id && args.name == "ExecuteBatchedTransfer"
    ensures MessageHash(h, b).Ok? <==> h.pack(args).Ok?
    ensures h.pack(args).Ok? ==>
              MessageHash(h, b) ==
              Ok(h.keccak(MESSAGE_PREFIX + h.keccak(h.pack(args).value)))
  {
    ListsAt(b.deposits);
    args := Packed(Lists(b.deposits), b.id);
  }

  /** The prefix as the standard writes it. */
  lemma PrefixSpelled()
    ensures MESSAGE_PREFIX == [0x19] + Ascii("Ethereum Signed Message:\n32")
  {
  }

  /** No two different argument tuples hash alike: ABI packing is injective and Keccak has no collision. */
  ghost predicate CollisionFree(h: Hashing) {
    forall l, id, l', id' ::
      HashOf(h, l, id).Ok? && HashOf(h, l, id) == HashOf(h, l', id') ==> l == l' && id == id'
  }

  /** Packing and hashing that tell everything apart are enough: the message covers every list and the identifier. */
  lemma NoCollisionsFrom(h: Hashing)
    requires forall x, y :: h.pack(x).Ok? && h.pack(x) == h.pack(y) ==> x == y
    requires forall x, y :: h.keccak(x) == h.keccak(y) ==> x == y
    ensures CollisionFree(h)
  {
    forall l, id, l', id' | HashOf(h, l, id).Ok? && HashOf(h, l, id) == HashOf(h, l', id') ensures l == l' && id == id' {
      var x, y := Packed(l, id), Packed(l', id');
      var hx, hy := h.keccak(h.pack(x).value), h.keccak(h.pack(y).value);
      assert MESSAGE_PREFIX + hx == MESSAGE_PREFIX + hy;
      assert hx == (MESSAGE_PREFIX + hx)[|MESSAGE_PREFIX|..] == (MESSAGE_PREFIX + hy)[|MESSAGE_PREFIX|..] == hy;
    }
  }

  // ---------------------------------------------------------------- quorum

  /** `big.Int.Uint64` and `big.Int.Int64`: the low 64 bits, unsigned and two's complement. */
  function LowUint64(q: nat): uint64 {
    q % TWO_64
  }

  function LowInt64(q: nat): int {
    if LowUint64(q) < TWO_63 then LowUint64(q) else LowUint64(q) - TWO_64
  }

  const MIN_QUORUM_VALUE: nat := 1

  function IsQuorumReached(numSignatures: nat, quorum: Result<nat>): Result<bool> {
    match quorum
    case Err(e) => Err(e)
    case Ok(q) =>
      if LowUint64(q) < MIN_QUORUM_VALUE then Err(InvalidValue) else Ok(numSignatures >= LowInt64(q))
  }

  /** The check is the comparison it is meant to be, with a zero quorum refused, exactly below 2^63. */
  lemma QuorumCheckExact(q: nat)
    ensures (forall n: nat :: IsQuorumReached(n, Ok(q)) == if q == 0 then Err(InvalidValue) else Ok(n >= q)) <==>
            q < TWO_63
  {
    if q >= TWO_63 {
      var n: nat := if LowInt64(q) > 0 then LowInt64(q) else 0;
      assert IsQuorumReached(n, Ok(q)) != Ok(n >= q);
    }
  }

  /** What the check does for every quorum: it counts against the low 64 bits, which may be zero or negative. */
  lemma QuorumCheckTruncates(n: nat, q: nat)
    ensures IsQuorumReached(n, Ok(q)).Err? <==> q % TWO_64 == 0
    ensures IsQuorumReached(n, Ok(q)) == Ok(true) <==> q % TWO_64 >= TWO_63 || 0 < q % TWO_64 <= n
  {
  }

  // ---------------------------------------------------------------- token totals

  function Sum(tokens: seq<Address>, amounts: seq<int>, t: Address): int
    requires |tokens| == |amounts|
  {
    if tokens == [] then 0
    else
      var n := |tokens| - 1;
      Sum(tokens[..n], amounts[..n], t) + if tokens[n] == t then amounts[n] else 0
  }

  method GetCumulatedTransfers(tokens: seq<Address>, amounts: seq<int>) returns (transfers: map<Address, int>)
    requires |tokens| == |amounts|
    ensures forall t :: t in transfers <==> t in tokens
    ensures forall t :: t in transfers ==> transfers[t] == Sum(tokens, amounts, t)
  {
    transfers := map[];
    for i := 0 to |tokens|
      invariant forall t :: t in transfers <==> t in tokens[..i]
      invariant forall t :: t in transfers ==> transfers[t] == Sum(tokens[..i], amounts[..i], t)
    {
      assert tokens[..i + 1][..i] == tokens[..i] && amounts[..i + 1][..i] == amounts[..i];
      SumOfAbsent(tokens[..i], amounts[..i], tokens[i]);
      var existing := if tokens[i] in transfers then transfers[tokens[i]] else 0;
      transfers := transfers[tokens[i] := existing + amounts[i]];
    }
    assert tokens[..|tokens|] == tokens && amounts[..|amounts|] == amounts;
  }

  lemma {:induction false} SumOfAbsent(tokens: seq<Address>, amounts: seq<int>, t: Address)
    requires |tokens| == |amounts|
    ensures t !in tokens ==> Sum(tokens, amounts, t) == 0
  {
    if tokens != [] {
      SumOfAbsent(tokens[..|tokens| - 1], amounts[..|tokens| - 1], t);
    }
  }

  /** Each total is within the balance the safe has of that token; a balance may be unreadable. */
  ghost predicate Affordable(tokens: seq<Address>, amounts: seq<int>, balances: map<Address, int>)
    requires |tokens| == |amounts|
  {
    forall t :: t in tokens ==> t in balances && Sum(tokens, amounts, t) <= balances[t]
  }

  method CheckCumulatedTransfers(transfers: map<Address, int>, balances: map<Address, int>) returns (r: Result<()>)
    ensures r.Ok? <==> forall t :: t in transfers ==> t in balances && transfers[t] <= balances[t]
    ensures r.Err? ==> r.error == Remote || r.error == InsufficientErc20Balance
  {
    var rest := transfers.Keys;
    while rest != {}
      invariant rest <= transfers.Keys
      invariant forall t :: t in transfers.Keys - rest ==> t in balances && transfers[t] <= balances[t]
      decreases |rest|
    {
      var erc20Address :| erc20Address in rest;
      if erc20Address !in balances {
        return Err(Remote);
      }
      if transfers[erc20Address] > balances[erc20Address] {
        return Err(InsufficientErc20Balance);
      }
      rest := rest - {erc20Address};
    }
    assert transfers.Keys - rest == transfers.Keys;
    r := Ok(());
  }

  /** The check passes exactly on affordable lists, whatever order the map is ranged over. */
  method CheckAvailableTokens(tokens: seq<Address>, amounts: seq<int>, balances: map<Address, int>)
    returns (r: Result<()>)
    requires |tokens| == |amounts|
    ensures r.Ok? <==> Affordable(tokens, amounts, balances)
    ensures r.Err? ==> r.error == Remote || r.error == InsufficientErc20Balance
  {
    var transfers := GetCumulatedTransfers(tokens, amounts);
    r := CheckCumulatedTransfers(transfers, balances);
  }

  lemma {:induction false} SumOfPrefix(tokens: seq<Address>, amounts: seq<int>, t: Address, k: nat)
    requires |tokens| == |amounts| && k <= |tokens|
    requires forall i :: 0 <= i < |amounts| ==> amounts[i] >= 0
    ensures 0 <= Sum(tokens[..k], amounts[..k], t) <= Sum(tokens, amounts, t)
    decreases |tokens|
  {
    var n := |tokens|;
    if k < n {
      SumOfPrefix(tokens[..n - 1], amounts[..n - 1], t, k);
      assert tokens[..n - 1][..k] == tokens[..k] && amounts[..n - 1][..k] == amounts[..k];
    } else {
      assert tokens[..k] == tokens && amounts[..k] == amounts;
      if n > 0 {
        SumOfPrefix(tokens[..n - 1], amounts[..n - 1], t, n - 1);
        assert tokens[..n - 1][..n - 1] == tokens[..n - 1] && amounts[..n - 1][..n - 1] == amounts[..n - 1];
      }
    }
  }

  /** Paying an affordable batch deposit by deposit overdraws no token at any point. */
  lemma NeverOverdrawn(tokens: seq<Address>, amounts: seq<int>, balances: map<Address, int>, k: nat, t: Address)
    requires |tokens| == |amounts| && k <= |tokens|
    requires forall i :: 0 <= i < |amounts| ==> amounts[i] >= 0
    requires Affordable(tokens, amounts, balances) && t in tokens
    ensures t in balances && balances[t] - Sum(tokens[..k], amounts[..k], t) >= 0
  {
    SumOfPrefix(tokens, amounts, t, k);
  }

  function Total(amounts: seq<int>): int {
    if amounts == [] then 0 else Total(amounts[..|amounts| - 1]) + amounts[|amounts| - 1]
  }

  /** The per-token sums over the distinct tokens, in any order, add up to the total of all amounts. */
  lemma {:induction false} SumsConserveTotal(tokens: seq<Address>, amounts: seq<int>, distinct: seq<Address>)
    requires |tokens| == |amounts|
    requires Distinct(distinct) && forall t :: t in tokens ==> t in distinct
    ensures Total(Sums(tokens, amounts, distinct)) == Total(amounts)
    decreases |tokens|
  {
    if tokens == [] {
      SumsOfNothing(distinct);
    } else {
      var n := |tokens| - 1;
      SumsConserveTotal(tokens[..n], amounts[..n], distinct);
      SumsGrowByOne(tokens, amounts, distinct);
    }
  }

  function Sums(tokens: seq<Address>, amounts: seq<int>, of: seq<Address>): (r: seq<int>)
    requires |tokens| == |amounts|
    ensures |r| == |of|
  {
    if of == [] then [] else Sums(tokens, amounts, of[..|of| - 1]) + [Sum(tokens, amounts, of[|of| - 1])]
  }

  lemma {:induction false} SumsOfNothing(of: seq<Address>)
    ensures Total(Sums([], [], of)) == 0
  {
    if of != [] {
      SumsOfNothing(of[..|of| - 1]);
    }
  }

  lemma {:induction false} SumsGrowByOne(tokens: seq<Address>, amounts: seq<int>, of: seq<Address>)
    requires |tokens| == |amounts| && tokens != [] && Distinct(of)
    ensures var n := |tokens| - 1;
            Total(Sums(tokens, amounts, of)) ==
            Total(Sums(tokens[..n], amounts[..n], of)) + if tokens[n] in of then amounts[n] else 0
    decreases |of|
  {
    if of != [] {
      SumsGrowByOne(tokens, amounts, of[..|of| - 1]);
      assert forall t :: t in of <==> t in of[..|of| - 1] || t == of[|of| - 1];
    }
  }

  // ---------------------------------------------------------------- submitting a transfer

  datatype GasLimits = GasLimits(base: uint64, forEach: uint64)

  /** What the chain and the node answer while a transfer is prepared. */
  datatype TransferAnswers = TransferAnswers(
    paused: Result<bool>,
    gasPrice: Result<nat>,
    balances: map<Address, int>,
    shortage: Error,
    funds: Result<int>,
    sent: Result<()>)

  datatype Submission = Submission(lists: ArgLists, id: nat, signatures: seq<Bytes>)

  /** Sent (whatever the node reported), refused before sending, or a slice bound out of range. */
  datatype Outcome = Sent(submission: Submission, reported: Result<()>) | Refused(error: Error) | Panicked

  /** The fee compared with the relayer's funds: `int64(gasLimit) * gasPrice`. */
  function Fee(gas: GasLimits, numDeposits: nat, gasPrice: nat): int {
    LowInt64(gas.base + numDeposits * gas.forEach) * gasPrice
  }

  /** `ExecuteTransfer` for `signatures`, the listing of stored signatures that the store returned. */
  ghost function Execution(gas: GasLimits, b: Batch, signatures: seq<Bytes>, quorum: int, a: TransferAnswers): Outcome {
    if a.paused.Err? then Refused(a.paused.error)
    else if a.paused.value then Refused(ContractPaused)
    else if a.gasPrice.Err? then Refused(a.gasPrice.error)
    else if |signatures| < quorum then Refused(QuorumNotReached)
    else if quorum < 0 then Panicked
    else
      ListsAt(b.deposits);
      var l := Lists(b.deposits);
      if !Affordable(l.tokens, l.amounts, a.balances) then Refused(a.shortage)
      else if a.funds.Err? then Refused(a.funds.error)
      else if Fee(gas, |b.deposits|, a.gasPrice.value) > a.funds.value then Refused(InsufficientBalance)
      else Sent(Submission(l, b.id, signatures[..quorum]), a.sent)
  }

  /** The stored signatures are read only once the contract is known to run and the fee is known. */
  predicate ReadsSignatures(a: TransferAnswers) {
    a.paused == Ok(false) && a.gasPrice.Ok?
  }

  /** The error named by `shortage` is the one the token check reports. */
  method ExecuteTransfer(gas: GasLimits, holder: SignaturesHolder, msgHash: Bytes, b: Option<Batch>, quorum: int,
      a: TransferAnswers)
    returns (r: Outcome, signatures: seq<Bytes>, shortage: Error)
    ensures b.Some? && ReadsSignatures(a) ==> Enumerates(signatures, SignaturesFor(holder.ethMessages, msgHash))
    ensures r == if b.None? then Refused(NilBatch)
                 else Execution(gas, b.value, signatures, quorum, a.(shortage := shortage))
  {
    signatures, shortage := [], Remote;
    if b.None? {
      return Refused(NilBatch), signatures, shortage;
    }
    if a.paused.Err? {
      return Refused(a.paused.error), signatures, shortage;
    }
    if a.paused.value {
      return Refused(ContractPaused), signatures, shortage;
    }
    if a.gasPrice.Err? {
      return Refused(a.gasPrice.error), signatures, shortage;
    }
    signatures := holder.Signatures(msgHash);
    if |signatures| < quorum {
      return Refused(QuorumNotReached), signatures, shortage;
    }
    if quorum < 0 {
      return Panicked, signatures, shortage;
    }
    var chosen := if |signatures| > quorum then signatures[..quorum] else signatures;
    assert chosen == signatures[..quorum];
    var l := ExtractList(b.value.deposits);
    ListsAt(b.value.deposits);
    var affordable := CheckAvailableTokens(l.tokens, l.amounts, a.balances);
    if affordable.Err? {
      return Refused(affordable.error), signatures, affordable.error;
    }
    if a.funds.Err? {
      return Refused(a.funds.error), signatures, shortage;
    }
    if Fee(gas, |b.value.deposits|, a.gasPrice.value) > a.funds.value {
      return Refused(InsufficientBalance), signatures, shortage;
    }
    r := Sent(Submission(l, b.value.id, chosen), a.sent);
  }

  /** What a submission carries: exactly quorum-many distinct signatures held for the hash, and affordable lists. */
  lemma SubmissionCarries(gas: GasLimits, b: Batch, held: set<Bytes>, signatures: seq<Bytes>, quorum: int,
      a: TransferAnswers)
    requires Enumerates(signatures, held)
    requires Execution(gas, b, signatures, quorum, a).Sent?
    ensures var s := Execution(gas, b, signatures, quorum, a).submission;
            && s.lists == Lists(b.deposits) && Carries(s.lists, b.deposits) && s.id == b.id
            && |s.signatures| == quorum && Distinct(s.signatures)
            && (forall x :: x in s.signatures ==> x in held)
            && |s.lists.tokens| == |s.lists.amounts|
            && Affordable(s.lists.tokens, s.lists.amounts, a.balances)
  {
    ListsAt(b.deposits);
    var s := Execution(gas, b, signatures, quorum, a).submission;
    forall x | x in s.signatures ensures x in held {
      assert x in signatures;
    }
  }

  /** The gas limit of a transfer, `uint64` in the source, before it is cut to 64 bits. */
  function GasLimit(gas: GasLimits, numDeposits: nat): nat {
    gas.base + numDeposits * gas.forEach
  }

  /** The fee is gas limit times gas price exactly if the limit is below 2^63, or nothing is paid for gas. */
  lemma FeeExact(gas: GasLimits, numDeposits: nat, gasPrice: nat)
    ensures Fee(gas, numDeposits, gasPrice) == GasLimit(gas, numDeposits) * gasPrice <==>
            GasLimit(gas, numDeposits) < TWO_63 || gasPrice == 0
  {
    var limit := GasLimit(gas, numDeposits);
    if limit >= TWO_63 && gasPrice > 0 {
      assert LowInt64(limit) < limit;
      Smaller(LowInt64(limit), limit, gasPrice);
    }
  }

  lemma {:induction false} Smaller(x: int, y: int, p: nat)
    requires x < y && p > 0
    ensures x * p < y * p
    decreases p
  {
    if p > 1 {
      Smaller(x, y, p - 1);
      assert x * p == x * (p - 1) + x && y * p == y * (p - 1) + y;
    }
  }

  /** From 2^63 to 2^64 the limit counts as negative, and any funds are enough. */
  lemma FeeTruncates(gas: GasLimits, numDeposits: nat, gasPrice: nat, funds: nat)
    requires TWO_63 <= GasLimit(gas, numDeposits) < TWO_64
    ensures Fee(gas, numDeposits, gasPrice) <= funds
  {
    Products(LowInt64(GasLimit(gas, numDeposits)), gasPrice);
  }

  lemma Products(x: int, p: nat)
    requires x <= 0
    ensures x * p <= 0
  {
  }

  /** All that has to be so for a transfer to be sent; below 2^63 the relayer can pay for the gas. */
  lemma SentExactly(gas: GasLimits, b: Batch, signatures: seq<Bytes>, quorum: int, a: TransferAnswers)
    requires GasLimit(gas, |b.deposits|) < TWO_63
    ensures |Lists(b.deposits).tokens| == |Lists(b.deposits).amounts|
    ensures Execution(gas, b, signatures, quorum, a).Sent? <==>
            && a.paused == Ok(false) && 0 <= quorum <= |signatures|
            && Affordable(Lists(b.deposits).tokens, Lists(b.deposits).amounts, a.balances)
            && a.gasPrice.Ok? && a.funds.Ok?
            && (gas.base + |b.deposits| * gas.forEach) * a.gasPrice.value <= a.funds.value
    ensures Execution(gas, b, signatures, quorum, a).Sent? ==>
              Execution(gas, b, signatures, quorum, a).reported == a.sent
  {
    ListsAt(b.deposits);
    if a.gasPrice.Ok? {
      FeeExact(gas, |b.deposits|, a.gasPrice.value);
    }
  }

  /** The first thing that is wrong names the refusal. */
  lemma RefusedFor(gas: GasLimits, b: Batch, signatures: seq<Bytes>, quorum: int, a: TransferAnswers)
    ensures var r := Execution(gas, b, signatures, quorum, a);
            && (a.paused == Ok(true) ==> r == Refused(ContractPaused))
            && (a.paused.Err? ==> r == Refused(a.paused.error))
            && (a.paused == Ok(false) && a.gasPrice.Err? ==> r == Refused(a.gasPrice.error))
            && (a.paused == Ok(false) && a.gasPrice.Ok? && |signatures| < quorum ==> r == Refused(QuorumNotReached))
            && (r.Refused? && a.paused == Ok(false) && a.gasPrice.Ok? && a.funds.Ok? && |signatures| >= quorum ==>
                  r.error == a.shortage || r.error == InsufficientBalance)
  {
  }

  /** A sent submission carries no signature exactly if the low 64 bits of the quorum are zero. */
  lemma CarriesNothing(gas: GasLimits, b: Batch, signatures: seq<Bytes>, q: nat, a: TransferAnswers)
    requires Execution(gas, b, signatures, LowInt64(q), a).Sent?
    ensures Execution(gas, b, signatures, LowInt64(q), a).submission.signatures == [] <==> q % TWO_64 == 0
  {
  }

  /** Preparation panics exactly when it gets as far as slicing with a negative quorum. */
  lemma PanicsExactly(gas: GasLimits, b: Batch, signatures: seq<Bytes>, q: nat, a: TransferAnswers)
    requires a.paused == Ok(false) && a.gasPrice.Ok?
    ensures Execution(gas, b, signatures, LowInt64(q), a).Panicked? <==> TWO_63 <= q % TWO_64
  {
  }

  // ---------------------------------------------------------------- fetching a batch

  datatype EthDeposit = EthDeposit(nonce: nat, token: Address, amount: nat, depositor: Address, recipient: Bytes)
  datatype EthBatch = EthBatch(nonce: nat, depositsCount: nat)

  const HEX_DIGITS: string := "0123456789abcdef"

  /** `hex.EncodeToString`. */
  function Hex(bs: Bytes): (s: string)
    ensures |s| == 2 * |bs|
  {
    if bs == [] then "" else Hex(bs[..|bs| - 1]) + [HEX_DIGITS[bs[|bs| - 1] / 16], HEX_DIGITS[bs[|bs| - 1] % 16]]
  }

  lemma HexDigitsDiffer(i: nat, j: nat)
    requires i < 16 && j < 16 && HEX_DIGITS[i] == HEX_DIGITS[j]
    ensures i == j
  {
  }

  lemma {:induction false} HexInjective(x: Bytes, y: Bytes)
    requires Hex(x) == Hex(y)
    ensures x == y
    decreases |x|
  {
    if x != [] {
      var n := |x| - 1;
      assert Hex(x[..n]) == Hex(x)[..2 * n] == Hex(y)[..2 * n] == Hex(y[..n]);
      HexInjective(x[..n], y[..n]);
      assert Hex(x)[2 * n] == Hex(y)[2 * n] && Hex(x)[2 * n + 1] == Hex(y)[2 * n + 1];
      HexDigitsDiffer(x[n] / 16, y[n] / 16);
      HexDigitsDiffer(x[n] % 16, y[n] % 16);
      assert x == x[..n] + [x[n]] && y == y[..n] + [y[n]];
    }
  }

  /** A deposit of the contract, with its token converted afresh. */
  function Converted(d: EthDeposit, convert: Mapper): Result<Deposit> {
    match convert(d.token)
    case Err(e) => Err(e)
    case Ok(t) => Ok(Deposit(LowUint64(d.nonce), d.recipient, d.depositor, d.token, t, d.amount))
  }

  function ConvertedAll(ds: seq<EthDeposit>, convert: Mapper): (r: Result<seq<Deposit>>)
    ensures r.Ok? ==> |r.value| == |ds|
  {
    if ds == [] then Ok([]) else
      match ConvertedAll(ds[..|ds| - 1], convert)
      case Err(e) => Err(e)
      case Ok(front) =>
        match Converted(ds[|ds| - 1], convert)
        case Err(e) => Err(e)
        case Ok(d) => Ok(front + [d])
  }

  /** What `GetBatch` returns, with every token converted and no cache. */
  function Fetched(batch: EthBatch, deposits: seq<EthDeposit>, convert: Mapper): Result<Batch> {
    if batch.depositsCount != |deposits| then Err(DepositsCountDiffer)
    else match ConvertedAll(deposits, convert)
      case Err(e) => Err(e)
      case Ok(ds) => Ok(Batch(LowUint64(batch.nonce), ds, Zeros(|ds|)))
  }

  lemma ConvertedAllAppend(front: seq<EthDeposit>, d: EthDeposit, convert: Mapper)
    requires ConvertedAll(front, convert).Ok?
    ensures ConvertedAll(front + [d], convert) ==
            match Converted(d, convert)
            case Err(e) => Err(e)
            case Ok(x) => Ok(ConvertedAll(front, convert).value + [x])
  {
    assert (front + [d])[..|front|] == front;
  }

  lemma {:induction false} ConvertedAllStops(ds: seq<EthDeposit>, convert: Mapper, m: nat, e: Error)
    requires m <= |ds| && ConvertedAll(ds[..m], convert) == Err(e)
    ensures ConvertedAll(ds, convert) == Err(e)
    decreases |ds|
  {
    if m < |ds| {
      assert ds[..|ds| - 1][..m] == ds[..m];
      ConvertedAllStops(ds[..|ds| - 1], convert, m, e);
    } else {
      assert ds[..m] == ds;
    }
  }

  const TOKEN: EthDeposit -> Bytes := (d: EthDeposit) => d.token

  /** The tokens of the deposits, in order. */
  function Tokens(ds: seq<EthDeposit>): seq<Bytes> {
    Mapped(TOKEN, ds)
  }

  /** The cache holds the conversions of the tokens asked for, under their hexadecimal strings. */
  ghost predicate CacheSound(cache: map<string, Bytes>, asked: seq<Bytes>, convert: Mapper) {
    && (forall t :: t in asked ==> Hex(t) in cache && convert(t) == Ok(cache[Hex(t)]))
    && (forall k :: k in cache ==> exists t :: t in asked && Hex(t) == k)
  }

  /** Since hexadecimal strings are injective, the cache knows a string exactly if the token was asked for. */
  lemma CacheExact(cache: map<string, Bytes>, asked: seq<Bytes>, convert: Mapper, t: Bytes)
    requires CacheSound(cache, asked, convert)
    ensures Hex(t) in cache <==> t in asked
    ensures Hex(t) in cache ==> convert(t) == Ok(cache[Hex(t)])
    ensures Hex(t) !in cache && convert(t).Ok? ==> CacheSound(cache[Hex(t) := convert(t).value], asked + [t], convert)
  {
    if Hex(t) in cache {
      var u :| u in asked && Hex(u) == Hex(t);
      HexInjective(u, t);
    } else if convert(t).Ok? {
      var now := cache[Hex(t) := convert(t).value];
      forall k | k in now ensures exists u :: u in asked + [t] && Hex(u) == k {
        if k == Hex(t) {
          assert t in asked + [t];
        } else {
          var u :| u in asked && Hex(u) == k;
          assert u in asked + [t];
        }
      }
    }
  }

  /** One deposit of the contract, handed out. */
  ghost predicate IsConverted(x: Deposit, d: EthDeposit, convert: Mapper) {
    && x.to == d.recipient && x.from == d.depositor && x.token == d.token && x.amount == d.amount
    && x.nonce == d.nonce % 0x1_0000_0000_0000_0000 && convert(d.token) == Ok(x.convertedToken)
  }

  /** All of them, in their order. */
  ghost predicate AreConverted(xs: seq<Deposit>, ds: seq<EthDeposit>, convert: Mapper) {
    |xs| == |ds| && forall k :: 0 <= k < |ds| ==> IsConverted(xs[k], ds[k], convert)
  }

  /** A batch as it is handed out: the contract's fields, and a zero status for every deposit. */
  ghost predicate HandsOut(b: Batch, batch: EthBatch, ds: seq<EthDeposit>, convert: Mapper) {
    && AreConverted(b.deposits, ds, convert) && |ds| == batch.depositsCount
    && b.id == batch.nonce % 0x1_0000_0000_0000_0000
    && |b.statuses| == |ds| && forall k :: 0 <= k < |ds| ==> b.statuses[k] == 0
  }

  lemma {:induction false} ConvertedAllExact(xs: seq<Deposit>, ds: seq<EthDeposit>, convert: Mapper)
    ensures ConvertedAll(ds, convert) == Ok(xs) <==> AreConverted(xs, ds, convert)
    decreases |ds|
  {
    if ds != [] && xs != [] {
      var n, m := |ds| - 1, |xs| - 1;
      ConvertedAllExact(xs[..m], ds[..n], convert);
      assert xs == xs[..m] + [xs[m]];
      if ConvertedAll(ds, convert) == Ok(xs) {
        assert ConvertedAll(ds[..n], convert).value == xs[..m];
      }
    }
  }

  /** A batch is fetched exactly as what it hands out. */
  lemma FetchedExactly(b: Batch, batch: EthBatch, ds: seq<EthDeposit>, convert: Mapper)
    ensures Fetched(batch, ds, convert) == Ok(b) <==> HandsOut(b, batch, ds, convert)
  {
    ConvertedAllExact(b.deposits, ds, convert);
    if HandsOut(b, batch, ds, convert) {
      assert b.statuses == Zeros(|ds|);
    }
  }

  /** The loop of `GetBatch` with its cache, keyed by the hexadecimal string of the token. */
  method ConvertDeposits(ds: seq<EthDeposit>, convert: Mapper) returns (r: Result<seq<Deposit>>, asked: seq<Bytes>)
    ensures r == ConvertedAll(ds, convert)
    ensures r.Ok? ==> AreConverted(r.value, ds, convert)
    ensures Distinct(asked)
    ensures r.Ok? ==> AskedExactly(asked, Tokens(ds))
  {
    asked := [];
    var result: seq<Deposit> := [];
    var cachedTokens: map<string, Bytes> := map[];
    for i := 0 to |ds|
      invariant ConvertedAll(ds[..i], convert) == Ok(result)
      invariant AskedExactly(asked, Tokens(ds[..i]))
      invariant CacheSound(cachedTokens, asked, convert)
    {
      var d := ds[i];
      TakeOneMore(ds, i);
      ConvertedAllAppend(ds[..i], d, convert);
      AskedAppend(asked, Tokens(ds[..i]), d.token);
      MappedAppend(TOKEN, ds[..i], d);
      CacheExact(cachedTokens, asked, convert, d.token);
      var displayableToken := Hex(d.token);
      var converted;
      if displayableToken !in cachedTokens {
        var answer := convert(d.token);
        asked := asked + [d.token];
        if answer.Err? {
          ConvertedAllStops(ds, convert, i + 1, answer.error);
          return Err(answer.error), asked;
        }
        converted := answer.value;
        cachedTokens := cachedTokens[displayableToken := converted];
      } else {
        converted := cachedTokens[displayableToken];
      }
      result := result + [Deposit(LowUint64(d.nonce), d.recipient, d.depositor, d.token, converted, d.amount)];
    }
    assert ds[..|ds|] == ds;
    ConvertedAllExact(result, ds, convert);
    r := Ok(result);
  }

  /** `GetBatch`: the cache is invisible in the result, and spares every repeated conversion. */
  method GetBatch(batch: Result<EthBatch>, deposits: Result<seq<EthDeposit>>, convert: Mapper)
    returns (r: Result<Batch>, asked: seq<Bytes>)
    ensures r == if batch.Err? then Err(batch.error) else if deposits.Err? then Err(deposits.error)
                 else Fetched(batch.value, deposits.value, convert)
    ensures r.Ok? ==> HandsOut(r.value, batch.value, deposits.value, convert)
    ensures Distinct(asked)
    ensures r.Ok? ==> AskedExactly(asked, Tokens(deposits.value))
  {
    asked := [];
    if batch.Err? {
      return Err(batch.error), asked;
    }
    if deposits.Err? {
      return Err(deposits.error), asked;
    }
    if batch.value.depositsCount != |deposits.value| {
      return Err(DepositsCountDiffer), asked;
    }
    var ds;
    ds, asked := ConvertDeposits(deposits.value, convert);
    if ds.Err? {
      return Err(ds.error), asked;
    }
    r := Ok(Batch(LowUint64(batch.value.nonce), ds.value, Zeros(|ds.value|)));
  }
}

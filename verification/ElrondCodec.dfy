/**
 * The Elrond side encoders and the pending-batch parser
 * (clients/elrond/client.go, clients/elrond/dataGetter.go).
 */
module ElrondCodec {
  import opened Base
  import opened BigEndian
  import opened Batches

  // ---------------------------------------------------------------- arguments of the contract calls

  /** `int64(x)` of a `uint64`. */
  function Int64(x: uint64): int {
    if x < TWO_63 then x else x - TWO_64
  }

  /** `ArgInt64(int64(x))`: the bytes of the magnitude; the sign is lost. */
  function ArgInt64(x: uint64): Bytes {
    var v := Int64(x);
    Minimal(if v < 0 then -v else v)
  }

  /** The arguments contributed by one deposit. */
  function DepositArgs(dt: Deposit): (args: seq<Bytes>)
    ensures |args| == 5
  {
    [dt.from, dt.to, dt.convertedToken, Minimal(dt.amount), ArgInt64(dt.nonce)]
  }

  function DepositsArgs(ds: seq<Deposit>): (args: seq<Bytes>)
    ensures |args| == 5 * |ds|
  {
    if ds == [] then [] else DepositsArgs(ds[..|ds| - 1]) + DepositArgs(ds[|ds| - 1])
  }

  /** The argument list that names a transfer of batch `b` to the contract. */
  function TransferArgs(b: Batch): seq<Bytes> {
    [ArgInt64(b.id)] + DepositsArgs(b.deposits)
  }

  function StatusArgs(s: Bytes): (args: seq<Bytes>)
    ensures |args| == |s|
  {
    seq(|s|, i requires 0 <= i < |s| => [s[i]])
  }

  /** The argument list that names setting the statuses of batch `b` to the contract. */
  function SetStatusArgs(b: Batch): seq<Bytes> {
    [ArgInt64(b.id)] + StatusArgs(b.statuses)
  }

  /** One deposit, spelled in the five arguments from position `i` on. */
  ghost predicate SpellsDeposit(args: seq<Bytes>, i: nat, dt: Deposit)
    requires i + 5 <= |args|
  {
    && args[i] == dt.from && args[i + 1] == dt.to && args[i + 2] == dt.convertedToken
    && Value(args[i + 3]) == dt.amount && NoLeadingZero(args[i + 3])
    && (dt.nonce <= TWO_63 ==> Value(args[i + 4]) == dt.nonce) && NoLeadingZero(args[i + 4])
  }

  ghost predicate NoLeadingZero(bs: Bytes) {
    bs == [] || bs[0] != 0
  }

  /** The deposits in their order, from position `first` to the end. */
  ghost predicate SpellsDeposits(args: seq<Bytes>, first: nat, ds: seq<Deposit>) {
    && |args| == first + 5 * |ds|
    && forall k :: 0 <= k < |ds| ==> SpellsDeposit(args, first + 5 * k, ds[k])
  }

  ghost predicate SpellsId(args: seq<Bytes>, id: uint64) {
    args != [] && (id <= TWO_63 ==> Value(args[0]) == id) && NoLeadingZero(args[0])
  }

  lemma MinimalSpelled(n: nat)
    ensures Value(Minimal(n)) == n && NoLeadingZero(Minimal(n))
  {
    ValueOfMinimal(n);
    MinimalExact(Minimal(n));
  }

  lemma DepositArgsSpell(dt: Deposit)
    ensures SpellsDeposit(DepositArgs(dt), 0, dt)
  {
    MinimalSpelled(dt.amount);
    ArgInt64Value(dt.nonce);
    MinimalSpelled(if Int64(dt.nonce) < 0 then -Int64(dt.nonce) else Int64(dt.nonce));
  }

  /** Every field of every deposit is at its place. */
  lemma DepositsArgsSpell(before: seq<Bytes>, ds: seq<Deposit>)
    ensures SpellsDeposits(before + DepositsArgs(ds), |before|, ds)
  {
    var args := before + DepositsArgs(ds);
    forall k | 0 <= k < |ds| ensures SpellsDeposit(args, |before| + 5 * k, ds[k]) {
      DepositsArgsAt(ds, k);
      DepositArgsSpell(ds[k]);
      assert args[|before| + 5 * k..|before| + 5 * k + 5] == DepositArgs(ds[k]);
    }
  }

  /** The argument list of a transfer, position by position. */
  lemma TransferArgsSpell(b: Batch)
    ensures SpellsId(TransferArgs(b), b.id) && SpellsDeposits(TransferArgs(b), 1, b.deposits)
  {
    ArgInt64Value(b.id);
    MinimalSpelled(if Int64(b.id) < 0 then -Int64(b.id) else Int64(b.id));
    DepositsArgsSpell([ArgInt64(b.id)], b.deposits);
  }

  /** The argument list of a set-status: the identifier, then each status in one byte. */
  lemma SetStatusArgsSpell(b: Batch)
    ensures SpellsId(SetStatusArgs(b), b.id) && |SetStatusArgs(b)| == 1 + |b.statuses|
    ensures forall k :: 0 <= k < |b.statuses| ==> SetStatusArgs(b)[1 + k] == [b.statuses[k]]
  {
    ArgInt64Value(b.id);
    MinimalSpelled(if Int64(b.id) < 0 then -Int64(b.id) else Int64(b.id));
  }

  /** The transaction arguments of `ProposeTransfer`. */
  method ProposeTransferArgs(b: Batch) returns (args: seq<Bytes>)
    ensures args == TransferArgs(b)
    ensures SpellsId(args, b.id) && SpellsDeposits(args, 1, b.deposits)
  {
    TransferArgsSpell(b);
    args := [ArgInt64(b.id)];
    for i := 0 to |b.deposits|
      invariant args == [ArgInt64(b.id)] + DepositsArgs(b.deposits[..i])
    {
      var dt := b.deposits[i];
      assert b.deposits[..i + 1][..i] == b.deposits[..i];
      args := args + [dt.from] + [dt.to] + [dt.convertedToken] + [Minimal(dt.amount)] + [ArgInt64(dt.nonce)];
    }
    assert b.deposits[..|b.deposits|] == b.deposits;
  }

  /** The query arguments of `WasProposedTransfer` and `GetActionIDForProposeTransfer`. */
  method QueryTransferArgs(b: Batch) returns (args: seq<Bytes>)
    ensures args == TransferArgs(b)
    ensures SpellsId(args, b.id) && SpellsDeposits(args, 1, b.deposits)
  {
    TransferArgsSpell(b);
    var info := AddBatchInfo(b);
    args := [ArgInt64(b.id)] + info;
  }

  method AddBatchInfo(b: Batch) returns (args: seq<Bytes>)
    ensures args == DepositsArgs(b.deposits)
    ensures SpellsDeposits(args, 0, b.deposits)
  {
    args := [];
    var i := 0;
    while i < |b.deposits|
      invariant 0 <= i <= |b.deposits|
      invariant args == DepositsArgs(b.deposits[..i])
    {
      var dt := b.deposits[i];
      assert b.deposits[..i + 1][..i] == b.deposits[..i];
      args := args + DepositArgs(dt);
      i := i + 1;
    }
    assert b.deposits[..i] == b.deposits;
    DepositsArgsSpell([], b.deposits);
    assert [] + args == args;
  }

  /** The status arguments of `ProposeSetStatus` and of both set-status queries. */
  method ProposeSetStatusArgs(b: Batch) returns (args: seq<Bytes>)
    ensures args == SetStatusArgs(b)
    ensures SpellsId(args, b.id) && |args| == 1 + |b.statuses|
    ensures forall k :: 0 <= k < |b.statuses| ==> args[1 + k] == [b.statuses[k]]
  {
    SetStatusArgsSpell(b);
    args := [ArgInt64(b.id)];
    for i := 0 to |b.statuses|
      invariant args == [ArgInt64(b.id)] + StatusArgs(b.statuses)[..i]
    {
      args := args + [[b.statuses[i]]];
    }
    assert StatusArgs(b.statuses)[..|b.statuses|] == StatusArgs(b.statuses);
  }

  /** Two identifiers the contract cannot tell apart: equal, or of opposite sign as `int64`. */
  ghost predicate SameInt64Magnitude(x: uint64, y: uint64) {
    x == y || x + y == TWO_64
  }

  lemma ArgInt64Equal(x: uint64, y: uint64)
    ensures ArgInt64(x) == ArgInt64(y) <==> SameInt64Magnitude(x, y)
  {
    var a := if Int64(x) < 0 then -Int64(x) else Int64(x);
    var b := if Int64(y) < 0 then -Int64(y) else Int64(y);
    if ArgInt64(x) == ArgInt64(y) {
      MinimalInjective(a, b);
    }
  }

  /** Identifier 1 and identifier 2^64-1 give the same argument: the encoding is not injective. */
  lemma ArgInt64Collision()
    ensures ArgInt64(1) == ArgInt64(TWO_64 - 1)
  {
    ArgInt64Equal(1, TWO_64 - 1);
  }

  /** The argument has the value of the identifier up to 2^63; above, it has the value of its complement. */
  lemma ArgInt64Value(x: uint64)
    ensures Value(ArgInt64(x)) == x <==> x <= TWO_63
  {
    ValueOfMinimal(if Int64(x) < 0 then -Int64(x) else Int64(x));
  }

  ghost predicate SameDepositArgs(x: Deposit, y: Deposit) {
    && x.from == y.from && x.to == y.to && x.convertedToken == y.convertedToken
    && x.amount == y.amount && SameInt64Magnitude(x.nonce, y.nonce)
  }

  lemma DepositArgsEqual(x: Deposit, y: Deposit)
    ensures DepositArgs(x) == DepositArgs(y) <==> SameDepositArgs(x, y)
  {
    ArgInt64Equal(x.nonce, y.nonce);
    if DepositArgs(x) == DepositArgs(y) {
      assert DepositArgs(x)[0] == DepositArgs(y)[0] && DepositArgs(x)[1] == DepositArgs(y)[1];
      assert DepositArgs(x)[2] == DepositArgs(y)[2] && DepositArgs(x)[3] == DepositArgs(y)[3];
      assert DepositArgs(x)[4] == DepositArgs(y)[4];
      MinimalInjective(x.amount, y.amount);
    }
  }

  lemma {:induction false} DepositsArgsAt(ds: seq<Deposit>, k: nat)
    requires k < |ds|
    ensures DepositsArgs(ds)[5 * k..5 * k + 5] == DepositArgs(ds[k])
  {
    var front := ds[..|ds| - 1];
    if k < |front| {
      DepositsArgsAt(front, k);
      assert DepositsArgs(ds)[5 * k..5 * k + 5] == DepositsArgs(front)[5 * k..5 * k + 5];
    }
  }

  lemma {:induction false} DepositsArgsFromElements(xs: seq<Deposit>, ys: seq<Deposit>)
    requires |xs| == |ys| && forall k :: 0 <= k < |xs| ==> SameDepositArgs(xs[k], ys[k])
    ensures DepositsArgs(xs) == DepositsArgs(ys)
  {
    if xs != [] {
      DepositsArgsFromElements(xs[..|xs| - 1], ys[..|ys| - 1]);
      DepositArgsEqual(xs[|xs| - 1], ys[|ys| - 1]);
    }
  }

  /** The contract sees the same transfer exactly when every encoded field agrees. */
  lemma TransferArgsEqual(x: Batch, y: Batch)
    ensures TransferArgs(x) == TransferArgs(y) <==>
              && SameInt64Magnitude(x.id, y.id) && |x.deposits| == |y.deposits|
              && forall k :: 0 <= k < |x.deposits| ==> SameDepositArgs(x.deposits[k], y.deposits[k])
  {
    ArgInt64Equal(x.id, y.id);
    if TransferArgs(x) == TransferArgs(y) {
      assert TransferArgs(x)[0] == TransferArgs(y)[0];
      assert TransferArgs(x)[1..] == DepositsArgs(x.deposits);
      assert TransferArgs(y)[1..] == DepositsArgs(y.deposits);
      forall k | 0 <= k < |x.deposits| ensures SameDepositArgs(x.deposits[k], y.deposits[k]) {
        DepositsArgsAt(x.deposits, k);
        DepositsArgsAt(y.deposits, k);
        DepositArgsEqual(x.deposits[k], y.deposits[k]);
      }
    } else if |x.deposits| == |y.deposits| && SameInt64Magnitude(x.id, y.id) {
      if forall k :: 0 <= k < |x.deposits| ==> SameDepositArgs(x.deposits[k], y.deposits[k]) {
        DepositsArgsFromElements(x.deposits, y.deposits);
      }
    }
  }

  /** Identifier and deposit nonces fit a non-negative `int64`. */
  ghost predicate InInt64Range(b: Batch) {
    b.id < TWO_63 && forall k :: 0 <= k < |b.deposits| ==> b.deposits[k].nonce < TWO_63
  }

  /** Below 2^63 the argument list determines the identifier and all that is paid out. */
  lemma TransferArgsInjective(x: Batch, y: Batch)
    requires InInt64Range(x) && InInt64Range(y) && TransferArgs(x) == TransferArgs(y)
    ensures x.id == y.id && |x.deposits| == |y.deposits|
    ensures forall k :: 0 <= k < |x.deposits| ==>
              && x.deposits[k].nonce == y.deposits[k].nonce && x.deposits[k].amount == y.deposits[k].amount
              && x.deposits[k].from == y.deposits[k].from && x.deposits[k].to == y.deposits[k].to
              && x.deposits[k].convertedToken == y.deposits[k].convertedToken
  {
    TransferArgsEqual(x, y);
  }

  lemma SetStatusArgsEqual(x: Batch, y: Batch)
    ensures SetStatusArgs(x) == SetStatusArgs(y) <==> SameInt64Magnitude(x.id, y.id) && x.statuses == y.statuses
  {
    ArgInt64Equal(x.id, y.id);
    if SetStatusArgs(x) == SetStatusArgs(y) {
      assert SetStatusArgs(x)[0] == SetStatusArgs(y)[0];
      assert SetStatusArgs(x)[1..] == StatusArgs(x.statuses) && SetStatusArgs(y)[1..] == StatusArgs(y.statuses);
      forall i | 0 <= i < |x.statuses| ensures x.statuses[i] == y.statuses[i] {
        assert StatusArgs(x.statuses)[i] == [x.statuses[i]] && StatusArgs(y.statuses)[i] == [y.statuses[i]];
      }
      assert x.statuses == y.statuses;
    }
  }

  // ---------------------------------------------------------------- the contract's reading of a transfer

  /** The batch identifier the contract reads off a transfer's argument list. */
  function DecodedId(args: seq<Bytes>): nat {
    if args == [] then 0 else Value(args[0])
  }

  /** The deposit nonces the contract reads off a transfer's argument list: every fifth argument. */
  function DecodedNonces(args: seq<Bytes>): seq<nat> {
    if |args| < 6 then [] else DecodedNonces(args[..|args| - 5]) + [Value(args[|args| - 1])]
  }

  function Nonces(ds: seq<Deposit>): (ns: seq<nat>)
    ensures |ns| == |ds|
  {
    if ds == [] then [] else Nonces(ds[..|ds| - 1]) + [ds[|ds| - 1].nonce]
  }

  lemma {:induction false} NoncesAt(ds: seq<Deposit>, k: nat)
    requires k < |ds|
    ensures Nonces(ds)[k] == ds[k].nonce
  {
    if k < |ds| - 1 {
      NoncesAt(ds[..|ds| - 1], k);
    }
  }

  lemma DecodedNoncesAppend(first: Bytes, front: seq<Deposit>, dt: Deposit)
    ensures DecodedNonces([first] + DepositsArgs(front + [dt])) ==
            DecodedNonces([first] + DepositsArgs(front)) + [Value(ArgInt64(dt.nonce))]
  {
    assert (front + [dt])[..|front|] == front;
    var args := [first] + DepositsArgs(front + [dt]);
    assert args == [first] + DepositsArgs(front) + DepositArgs(dt);
    assert args[..|args| - 5] == [first] + DepositsArgs(front);
    assert args[|args| - 1] == DepositArgs(dt)[4];
  }

  lemma {:induction false} DecodedNoncesAt(first: Bytes, ds: seq<Deposit>)
    ensures var ns := DecodedNonces([first] + DepositsArgs(ds));
            |ns| == |ds| && forall k :: 0 <= k < |ds| ==> ns[k] == Value(ArgInt64(ds[k].nonce))
  {
    if ds != [] {
      var n := |ds| - 1;
      DecodedNoncesAt(first, ds[..n]);
      assert ds == ds[..n] + [ds[n]];
      DecodedNoncesAppend(first, ds[..n], ds[n]);
    }
  }

  lemma NonceReadBack(ds: seq<Deposit>, k: nat)
    requires k < |ds|
    ensures Value(ArgInt64(ds[k].nonce)) == Nonces(ds)[k] <==> ds[k].nonce <= TWO_63
  {
    NoncesAt(ds, k);
    ArgInt64Value(ds[k].nonce);
  }

  lemma DecodedNoncesExact(first: Bytes, ds: seq<Deposit>)
    ensures DecodedNonces([first] + DepositsArgs(ds)) == Nonces(ds) <==>
              forall k :: 0 <= k < |ds| ==> ds[k].nonce <= TWO_63
  {
    var ns := DecodedNonces([first] + DepositsArgs(ds));
    DecodedNoncesAt(first, ds);
    if forall k :: 0 <= k < |ds| ==> ds[k].nonce <= TWO_63 {
      forall k | 0 <= k < |ds| ensures ns[k] == Nonces(ds)[k] {
        NonceReadBack(ds, k);
      }
    }
    if ns == Nonces(ds) {
      forall k | 0 <= k < |ds| ensures ds[k].nonce <= TWO_63 {
        NonceReadBack(ds, k);
      }
    }
  }

  /** What the contract pays out for one deposit, and under which nonce. */
  datatype Payment = Payment(from: Bytes, to: Bytes, token: Bytes, amount: nat, nonce: nat)

  /** The payments the contract reads off a transfer's argument list. */
  function DecodedPayments(args: seq<Bytes>): (ps: seq<Payment>) {
    seq(if args == [] then 0 else (|args| - 1) / 5, k requires 0 <= k && 5 * k + 5 < |args| =>
      Payment(args[1 + 5 * k], args[2 + 5 * k], args[3 + 5 * k], Value(args[4 + 5 * k]), Value(args[5 + 5 * k])))
  }

  /** The deposits as payments: from whom, to whom, the token on the other chain, how much. */
  function Payments(ds: seq<Deposit>): (ps: seq<Payment>) {
    seq(|ds|, k requires 0 <= k < |ds| =>
      Payment(ds[k].from, ds[k].to, ds[k].convertedToken, ds[k].amount, ds[k].nonce))
  }

  /** The contract reads back who is paid what, in which token; the nonces too, exactly if all are at most 2^63. */
  lemma DecodedPaymentsExact(b: Batch)
    ensures var ps := DecodedPayments(TransferArgs(b));
            && |ps| == |b.deposits|
            && (forall k :: 0 <= k < |ps| ==> ps[k].(nonce := b.deposits[k].nonce) == Payments(b.deposits)[k])
            && (ps == Payments(b.deposits) <==> forall k :: 0 <= k < |b.deposits| ==> b.deposits[k].nonce <= TWO_63)
  {
    var args, ps, ds := TransferArgs(b), DecodedPayments(TransferArgs(b)), b.deposits;
    TransferArgsSpell(b);
    forall k | 0 <= k < |ds|
      ensures ps[k].(nonce := ds[k].nonce) == Payments(ds)[k] && (ps[k] == Payments(ds)[k] <==> ds[k].nonce <= TWO_63)
    {
      assert SpellsDeposit(args, 1 + 5 * k, ds[k]);
      DepositsArgsAt(ds, k);
      assert args[5 + 5 * k] == DepositsArgs(ds)[5 * k..5 * k + 5][4] == ArgInt64(ds[k].nonce);
      ArgInt64Value(ds[k].nonce);
    }
  }

  /** The contract reads back the identifier and nonces that the relayer encoded exactly if all are at most 2^63. */
  lemma DecodeTransfer(b: Batch)
    ensures DecodedId(TransferArgs(b)) == b.id && DecodedNonces(TransferArgs(b)) == Nonces(b.deposits) <==>
            b.id <= TWO_63 && forall k :: 0 <= k < |b.deposits| ==> b.deposits[k].nonce <= TWO_63
  {
    ArgInt64Value(b.id);
    DecodedNoncesExact(ArgInt64(b.id), b.deposits);
  }

  // ---------------------------------------------------------------- the pending batch

  const FIELDS: nat := 6

  function ParseUint64(bs: Bytes, index: nat): Result<uint64> {
    if Value(bs) < TWO_64 then Ok(Value(bs)) else Err(NotUint64(index))
  }

  /** The deposit in fields 1+6k .. 6+6k of the response, its token converted afresh. */
  function ParseDeposit(resp: seq<Bytes>, convert: Mapper, k: nat): Result<Deposit>
    requires FIELDS * k + FIELDS < |resp|
  {
    var i := FIELDS * k + 1;
    match ParseUint64(resp[i + 1], k + 1)
    case Err(e) => Err(e)
    case Ok(nonce) =>
      match convert(resp[i + 4])
      case Err(_) => Err(ConvertToken(k))
      case Ok(token) => Ok(Deposit(nonce, resp[i + 3], resp[i + 2], resp[i + 4], token, Value(resp[i + 5])))
  }

  /** The first `n` deposits of the response, or the error of the first that does not parse. */
  function ParseDeposits(resp: seq<Bytes>, convert: Mapper, n: nat): (r: Result<seq<Deposit>>)
    requires FIELDS * n < |resp|
    ensures r.Ok? ==> |r.value| == n
  {
    if n == 0 then Ok([]) else
      match ParseDeposits(resp, convert, n - 1)
      case Err(e) => Err(e)
      case Ok(front) =>
        match ParseDeposit(resp, convert, n - 1)
        case Err(e) => Err(e)
        case Ok(d) => Ok(front + [d])
  }

  predicate WellSized(resp: seq<Bytes>) {
    |resp| > 1 && (|resp| - 1) % FIELDS == 0
  }

  predicate EmptyResponse(resp: seq<Bytes>) {
    |resp| == 0 || (|resp| == 1 && |resp[0]| == 0)
  }

  /** What `GetPending` returns for a response, with every token converted and no cache. */
  function ParsePending(resp: seq<Bytes>, convert: Mapper): Result<Batch> {
    if EmptyResponse(resp) then Err(NoPendingBatch)
    else if !WellSized(resp) then Err(InvalidNumberOfArguments)
    else
      match ParseUint64(resp[0], 0)
      case Err(e) => Err(e)
      case Ok(id) =>
        var n := (|resp| - 1) / FIELDS;
        match ParseDeposits(resp, convert, n)
        case Err(e) => Err(e)
        case Ok(ds) => Ok(Batch(id, ds, Zeros(n)))
  }

  /** How the client hands out a pending batch: one zero status per deposit. */
  predicate AsParsed(b: Batch) {
    b.statuses == Zeros(|b.deposits|)
  }

  lemma ParsedShape(resp: seq<Bytes>, convert: Mapper)
    ensures ParsePending(resp, convert).Ok? ==>
              var b := ParsePending(resp, convert).value;
              AsParsed(b) && |b.statuses| == |b.deposits| && |resp| == 1 + FIELDS * |b.deposits|
  {
  }

  function TokenField(resp: seq<Bytes>, k: nat): Bytes
    requires FIELDS * k + FIELDS < |resp|
  {
    resp[FIELDS * k + 5]
  }

  const TOKEN: Deposit -> Bytes := (dt: Deposit) => dt.token

  /** The tokens of the deposits, in order. */
  function Tokens(ds: seq<Deposit>): seq<Bytes> {
    Mapped(TOKEN, ds)
  }

  /** The cache holds the conversions of exactly the tokens asked for. */
  ghost predicate CacheSound(cache: map<Bytes, Bytes>, asked: seq<Bytes>, convert: Mapper) {
    && (forall t :: t in asked <==> t in cache)
    && (forall t :: t in cache ==> convert(t) == Ok(cache[t]))
  }

  /**
   * `GetPending` with its per-call token cache. The result is the cache-free one, and `asked`, the
   * tokens for which the mapper was called, holds each distinct token of the batch once.
   */
  method FetchPending(resp: seq<Bytes>, convert: Mapper) returns (r: Result<Batch>, asked: seq<Bytes>)
    ensures r == ParsePending(resp, convert)
    ensures r.Ok? ==> ReadsBatch(r.value, resp, convert)
    ensures Distinct(asked)
    ensures r.Ok? ==> AskedExactly(asked, Tokens(r.value.deposits))
  {
    asked := [];
    if EmptyResponse(resp) {
      return Err(NoPendingBatch), asked;
    }
    var haveCorrectNumberOfArgs := |resp| > 1 && (|resp| - 1) % FIELDS == 0;
    if !haveCorrectNumberOfArgs {
      return Err(InvalidNumberOfArguments), asked;
    }
    var id := ParseUint64(resp[0], 0);
    if id.Err? {
      return Err(id.error), asked;
    }
    var deposits;
    deposits, asked := FetchDeposits(resp, convert, (|resp| - 1) / FIELDS);
    if deposits.Err? {
      return Err(deposits.error), asked;
    }
    r := Ok(Batch(id.value, deposits.value, Zeros(|deposits.value|)));
    ParsedExactly(r.value, resp, convert);
  }

  /** The lookup inside the loop: the mapper is called, and the answer kept, only for a new token. */
  method CachedConversion(token: Bytes, cachedTokens: map<Bytes, Bytes>, asked: seq<Bytes>, convert: Mapper)
    returns (r: Result<Bytes>, cachedTokens': map<Bytes, Bytes>, asked': seq<Bytes>)
    requires CacheSound(cachedTokens, asked, convert) && Distinct(asked)
    ensures r == convert(token)
    ensures asked' == (if token in asked then asked else asked + [token]) && Distinct(asked')
    ensures r.Ok? ==> CacheSound(cachedTokens', asked', convert)
  {
    cachedTokens', asked' := cachedTokens, asked;
    if token in cachedTokens {
      r := Ok(cachedTokens[token]);
    } else {
      r := convert(token);
      asked' := asked + [token];
      if r.Ok? {
        cachedTokens' := cachedTokens[token := r.value];
      }
    }
  }

  /** The loop of `GetPending`. */
  method FetchDeposits(resp: seq<Bytes>, convert: Mapper, ghost n: nat)
    returns (r: Result<seq<Deposit>>, asked: seq<Bytes>)
    requires |resp| == 1 + FIELDS * n
    ensures r == ParseDeposits(resp, convert, n)
    ensures Distinct(asked)
    ensures r.Ok? ==> AskedExactly(asked, Tokens(r.value))
  {
    asked := [];
    var cachedTokens: map<Bytes, Bytes> := map[];
    var deposits: seq<Deposit> := [];
    var i := 1;
    while i < |resp|
      invariant i == 1 + FIELDS * |deposits| && |deposits| <= n
      invariant ParseDeposits(resp, convert, |deposits|) == Ok(deposits)
      invariant AskedExactly(asked, Tokens(deposits))
      invariant CacheSound(cachedTokens, asked, convert)
      decreases |resp| - i
    {
      assert FIELDS * |deposits| + FIELDS < |resp|;
      var nonce := ParseUint64(resp[i + 1], |deposits| + 1);
      ParseDepositsNext(resp, convert, deposits, n);
      if nonce.Err? {
        return Err(nonce.error), asked;
      }
      var token := resp[i + 4];
      ghost var old' := asked;
      var converted;
      converted, cachedTokens, asked := CachedConversion(token, cachedTokens, asked, convert);
      if converted.Err? {
        return Err(ConvertToken(|deposits|)), asked;
      }
      var deposit := Deposit(nonce.value, resp[i + 3], resp[i + 2], token, converted.value, Value(resp[i + 5]));
      AskedAppend(old', Tokens(deposits), token);
      MappedAppend(TOKEN, deposits, deposit);
      deposits := deposits + [deposit];
      i := i + FIELDS;
    }
    assert |deposits| == n;
    r := Ok(deposits);
  }

  /** An error at some deposit is the error of the whole response. */
  lemma {:induction false} ParseDepositsStops(resp: seq<Bytes>, convert: Mapper, m: nat, n: nat, e: Error)
    requires m <= n && FIELDS * n < |resp|
    requires ParseDeposits(resp, convert, m) == Err(e)
    ensures ParseDeposits(resp, convert, n) == Err(e)
    decreases n
  {
    if m < n {
      ParseDepositsStops(resp, convert, m, n - 1, e);
    }
  }

  /** One deposit more: it is appended, or its error is the error of the whole response. */
  lemma ParseDepositsNext(resp: seq<Bytes>, convert: Mapper, ds: seq<Deposit>, n: nat)
    requires |ds| < n && FIELDS * n < |resp| && ParseDeposits(resp, convert, |ds|) == Ok(ds)
    ensures match ParseDeposit(resp, convert, |ds|)
            case Ok(d) => ParseDeposits(resp, convert, |ds| + 1) == Ok(ds + [d])
            case Err(e) => ParseDeposits(resp, convert, n) == Err(e)
  {
    var next := ParseDeposit(resp, convert, |ds|);
    if next.Err? {
      ParseDepositsStops(resp, convert, |ds| + 1, n, next.error);
    }
  }

  /** Every field of the response is readable: the exact domain of the parser. */
  ghost predicate Parsable(resp: seq<Bytes>, convert: Mapper) {
    && |resp| % FIELDS == 1 && |resp| > 1
    && Value(resp[0]) < TWO_64
    && (forall k :: 0 <= k && FIELDS * k + FIELDS < |resp| ==> Value(resp[FIELDS * k + 2]) < TWO_64)
    && (forall k :: 0 <= k && FIELDS * k + FIELDS < |resp| ==> convert(TokenField(resp, k)).Ok?)
  }

  lemma {:induction false} ParseDepositsSucceeds(resp: seq<Bytes>, convert: Mapper, n: nat)
    requires FIELDS * n < |resp|
    ensures ParseDeposits(resp, convert, n).Ok? <==>
              forall k :: 0 <= k < n ==> ParseDeposit(resp, convert, k).Ok?
    ensures ParseDeposits(resp, convert, n).Ok? ==>
              forall k :: 0 <= k < n ==> ParseDeposit(resp, convert, k) == Ok(ParseDeposits(resp, convert, n).value[k])
  {
    if n != 0 {
      ParseDepositsSucceeds(resp, convert, n - 1);
    }
  }

  /** Parsing succeeds exactly on parsable responses. */
  lemma ParseSucceedsExactly(resp: seq<Bytes>, convert: Mapper)
    ensures ParsePending(resp, convert).Ok? <==> Parsable(resp, convert)
  {
    if WellSized(resp) {
      var n := (|resp| - 1) / FIELDS;
      ParseDepositsSucceeds(resp, convert, n);
      if Parsable(resp, convert) {
        forall k | 0 <= k < n ensures ParseDeposit(resp, convert, k).Ok? {
          assert convert(TokenField(resp, k)).Ok?;
          assert Value(resp[FIELDS * k + 2]) < TWO_64;
        }
      }
      if ParsePending(resp, convert).Ok? {
        forall k | 0 <= k && FIELDS * k + FIELDS < |resp|
          ensures Value(resp[FIELDS * k + 2]) < TWO_64 && convert(TokenField(resp, k)).Ok?
        {
          assert k < n;
          assert ParseDeposit(resp, convert, k).Ok?;
        }
      }
    }
  }

  /** A deposit whose fields are those of the response from position `i + 1` on. */
  ghost predicate ReadsDeposit(dt: Deposit, resp: seq<Bytes>, i: nat, convert: Mapper)
    requires i + 6 < |resp|
  {
    && dt.nonce == Value(resp[i + 2]) && dt.from == resp[i + 3] && dt.to == resp[i + 4] && dt.token == resp[i + 5]
    && dt.amount == Value(resp[i + 6]) && convert(resp[i + 5]) == Ok(dt.convertedToken)
  }

  /** A batch whose fields are those of the response, with a zero status for every deposit. */
  ghost predicate ReadsBatch(b: Batch, resp: seq<Bytes>, convert: Mapper) {
    && b.deposits != [] && |resp| == 1 + 6 * |b.deposits| && b.id == Value(resp[0])
    && (forall k :: 0 <= k < |b.deposits| ==> ReadsDeposit(b.deposits[k], resp, 6 * k, convert))
    && |b.statuses| == |b.deposits| && forall k :: 0 <= k < |b.statuses| ==> b.statuses[k] == 0
  }

  lemma ParseDepositExact(dt: Deposit, resp: seq<Bytes>, convert: Mapper, k: nat)
    requires FIELDS * k + FIELDS < |resp|
    ensures ParseDeposit(resp, convert, k) == Ok(dt) <==> ReadsDeposit(dt, resp, 6 * k, convert)
  {
  }

  /** A response is parsed to a batch exactly if it spells the batch field by field. */
  lemma ParsedExactly(b: Batch, resp: seq<Bytes>, convert: Mapper)
    ensures ParsePending(resp, convert) == Ok(b) <==> ReadsBatch(b, resp, convert)
  {
    var n := |b.deposits|;
    if |resp| == 1 + FIELDS * n && n > 0 {
      ParseDepositsSucceeds(resp, convert, n);
      forall k | 0 <= k < n
        ensures ParseDeposit(resp, convert, k) == Ok(b.deposits[k]) <==> ReadsDeposit(b.deposits[k], resp, 6 * k, convert)
      {
        ParseDepositExact(b.deposits[k], resp, convert, k);
      }
      if forall k :: 0 <= k < n ==> ParseDeposit(resp, convert, k) == Ok(b.deposits[k]) {
        ParseDepositsFromEach(resp, convert, b.deposits, n);
        assert b.deposits[..n] == b.deposits;
      }
      assert (|resp| - 1) / FIELDS == n;
      if |b.statuses| == n && forall k :: 0 <= k < n ==> b.statuses[k] == 0 {
        assert b.statuses == Zeros(n);
      }
    }
  }

  /** What is refused for its shape or its identifier, before any deposit is looked at. */
  lemma ShapeErrorsNamed(resp: seq<Bytes>, convert: Mapper)
    ensures resp == [] || resp == [[]] ==> ParsePending(resp, convert) == Err(NoPendingBatch)
    ensures |resp| == 1 && resp != [[]] ==> ParsePending(resp, convert) == Err(InvalidNumberOfArguments)
    ensures |resp| > 1 && |resp| % 6 != 1 ==> ParsePending(resp, convert) == Err(InvalidNumberOfArguments)
    ensures |resp| > 1 && |resp| % 6 == 1 && Value(resp[0]) >= TWO_64 ==>
              ParsePending(resp, convert) == Err(NotUint64(0))
  {
    if |resp| == 1 {
      assert resp == [resp[0]];
    }
  }

  /** The first deposit with an unreadable field names the error. */
  lemma FirstErrorNamed(resp: seq<Bytes>, convert: Mapper, k: nat)
    requires |resp| % FIELDS == 1 && FIELDS * k + FIELDS < |resp| && Value(resp[0]) < TWO_64
    requires forall j :: 0 <= j < k ==> ParseDeposit(resp, convert, j).Ok?
    ensures Value(resp[6 * k + 2]) >= TWO_64 ==> ParsePending(resp, convert) == Err(NotUint64(k + 1))
    ensures Value(resp[6 * k + 2]) < TWO_64 && convert(resp[6 * k + 5]).Err? ==>
              ParsePending(resp, convert) == Err(ConvertToken(k))
  {
    var n := (|resp| - 1) / FIELDS;
    ParseDepositsSucceeds(resp, convert, k);
    if ParseDeposit(resp, convert, k).Err? {
      ParseDepositsStops(resp, convert, k + 1, n, ParseDeposit(resp, convert, k).error);
    }
  }

  /** One deposit as the contract view lays it out: block nonce, nonce, from, to, token, amount. */
  function DepositFields(dt: Deposit, blockNonce: Bytes): (fs: seq<Bytes>)
    ensures |fs| == FIELDS
  {
    [blockNonce, Minimal(dt.nonce), dt.from, dt.to, dt.token, Minimal(dt.amount)]
  }

  function DepositsFields(ds: seq<Deposit>, blockNonce: Bytes): (fs: seq<Bytes>)
    ensures |fs| == FIELDS * |ds|
  {
    if ds == [] then [] else DepositsFields(ds[..|ds| - 1], blockNonce) + DepositFields(ds[|ds| - 1], blockNonce)
  }

  /** The contract's answer for a pending batch. */
  function EncodePending(b: Batch, blockNonce: Bytes): seq<Bytes> {
    [Minimal(b.id)] + DepositsFields(b.deposits, blockNonce)
  }

  lemma {:induction false} DepositsFieldsAt(ds: seq<Deposit>, blockNonce: Bytes, k: nat, j: nat)
    requires k < |ds| && j < FIELDS
    ensures DepositsFields(ds, blockNonce)[FIELDS * k + j] == DepositFields(ds[k], blockNonce)[j]
  {
    if k < |ds| - 1 {
      DepositsFieldsAt(ds[..|ds| - 1], blockNonce, k, j);
    }
  }

  lemma ParseEncodedDeposit(b: Batch, blockNonce: Bytes, convert: Mapper, k: nat)
    requires k < |b.deposits|
    requires convert(b.deposits[k].token) == Ok(b.deposits[k].convertedToken)
    ensures ParseDeposit(EncodePending(b, blockNonce), convert, k) == Ok(b.deposits[k])
  {
    var dt := b.deposits[k];
    DepositsFieldsAt(b.deposits, blockNonce, k, 1);
    DepositsFieldsAt(b.deposits, blockNonce, k, 2);
    DepositsFieldsAt(b.deposits, blockNonce, k, 3);
    DepositsFieldsAt(b.deposits, blockNonce, k, 4);
    DepositsFieldsAt(b.deposits, blockNonce, k, 5);
    ValueOfMinimal(dt.nonce);
    ValueOfMinimal(dt.amount);
  }

  lemma {:induction false} ParseDepositsFromEach(resp: seq<Bytes>, convert: Mapper, ds: seq<Deposit>, n: nat)
    requires n <= |ds| && FIELDS * n < |resp|
    requires forall k :: 0 <= k < n ==> ParseDeposit(resp, convert, k) == Ok(ds[k])
    ensures ParseDeposits(resp, convert, n) == Ok(ds[..n])
  {
    if n != 0 {
      ParseDepositsFromEach(resp, convert, ds, n - 1);
      TakeOneMore(ds, n - 1);
    }
  }

  /** Encoding a non-empty pending batch and parsing the answer gives the batch with zeroed statuses. */
  lemma ParseEncoded(b: Batch, blockNonce: Bytes, convert: Mapper)
    requires b.deposits != []
    requires forall k :: 0 <= k < |b.deposits| ==> convert(b.deposits[k].token) == Ok(b.deposits[k].convertedToken)
    ensures ParsePending(EncodePending(b, blockNonce), convert) == Ok(b.(statuses := Zeros(|b.deposits|)))
  {
    var resp, n := EncodePending(b, blockNonce), |b.deposits|;
    ValueOfMinimal(b.id);
    forall k | 0 <= k < n ensures ParseDeposit(resp, convert, k) == Ok(b.deposits[k]) {
      ParseEncodedDeposit(b, blockNonce, convert, k);
    }
    ParseDepositsFromEach(resp, convert, b.deposits, n);
    assert b.deposits[..n] == b.deposits;
    assert (|resp| - 1) / FIELDS == n;
  }
}

/** The write gates of the contract-interaction hook. Each `prepare…` function checks
    its amount strings and either returns a dummy result with no write action, or builds
    the router or token call and hands it to the wallet library, whose own state
    (whether the write is ready, success, loading, error) is an input here. */
module ContractInteraction {
  import opened JsValues
  import opened DecimalText

  /** Twenty minutes, in seconds. */
  const DEADLINE_WINDOW_SECONDS: nat := 60 * 20

  /** Every amount is scaled with 18 decimals, whatever the token. */
  const AMOUNT_DECIMALS: nat := 18

  /** `isValidAmount`: a non-empty string whose parsed number is positive. `ParseNumber`
      reads only the text the amount filter lets through, so in this model only such text,
      and never ".", can be valid; `parseFloat` also reads exponent, sign and prefix forms,
      which this predicate rejects. */
  predicate IsValidAmount(amount: string)
    ensures IsValidAmount(amount) ==> AcceptsInput(amount) && amount != "."
  {
    amount != "" && Positive(ParseNumber(amount))
  }

  /** In this model, a valid amount is exactly a plain decimal text with a non-zero
      digit. */
  lemma ValidAmountIsNonZeroDecimal(amount: string)
    ensures IsValidAmount(amount) <==> ParseDecimal(amount).Some? && ParseDecimal(amount).value.units > 0
  {
    if ParseDecimal(amount).Some? {
      var d := ParseDecimal(amount).value;
      PositiveQuotient(d.units as real, Pow10(d.scale) as real);
      assert ParseNumber(amount) == Some(Value(d));
    }
  }

  lemma PositiveQuotient(u: real, p: real)
    requires u >= 0.0 && p > 0.0
    ensures u / p > 0.0 <==> u > 0.0
  {
    assert (u / p) * p == u;
  }

  /** `Math.floor(nowMs / 1000) + 60 * 20`: twenty minutes after the current second. */
  function Deadline(nowMs: nat): (r: nat)
    ensures r >= DEADLINE_WINDOW_SECONDS
    ensures (r - DEADLINE_WINDOW_SECONDS) * 1000 <= nowMs < (r - DEADLINE_WINDOW_SECONDS + 1) * 1000
  {
    nowMs / 1000 + DEADLINE_WINDOW_SECONDS
  }

  lemma {:induction false} Pow10Add(a: nat, b: nat)
    ensures Pow10(a + b) == Pow10(a) * Pow10(b)
    decreases b
  {
    if b > 0 {
      Pow10Add(a, b - 1);
      assert Pow10(a + b) == 10 * Pow10(a + b - 1);
    }
  }

  lemma SameQuotient(u: nat, a: nat, q: nat)
    requires a > 0 && q > 0
    ensures (u * q) as real / (a * q) as real == u as real / a as real
  {
    assert (u * q) as real == u as real * q as real;
    assert (a * q) as real == a as real * q as real;
  }

  /** `x / p` rounded to the nearest integer, halves up. */
  function RoundedDiv(x: nat, p: nat): (r: nat)
    requires p > 0
    ensures r * p <= x + p / 2 < (r + 1) * p
  {
    (x + p / 2) / p
  }

  /** `parseUnits(text, decimals)` applied to the decimal the text spells: the value
      in units of `10^-decimals`, rounded to the nearest unit (halves up) when the text
      has more than `decimals` fraction digits. */
  function ParseUnits(d: Decimal, decimals: nat): (r: nat)
    ensures d.scale > decimals ==>
      var p := Pow10(d.scale - decimals);
      r * p <= d.units + p / 2 < (r + 1) * p
  {
    if d.scale <= decimals then
      d.units * Pow10(decimals - d.scale)
    else
      RoundedDiv(d.units, Pow10(d.scale - decimals))
  }

  /** With no more fraction digits than `decimals`, no rounding happens: the result, read
      as a number of `10^-decimals` units, is exactly the decimal's value. */
  lemma ParseUnitsExact(d: Decimal, decimals: nat)
    requires d.scale <= decimals
    ensures Value(Decimal(ParseUnits(d, decimals), decimals)) == Value(d)
  {
    var k := decimals - d.scale;
    Pow10Add(d.scale, k);
    SameQuotient(d.units, Pow10(d.scale), Pow10(k));
  }

  /** `parseUnits(amount, 18)`, the on-chain amount sent for an amount text. For a text
      with at most 18 fraction digits it is, in units of 10^-18, exactly the number the
      text spells, and a valid amount sends a positive one. */
  function AmountUnits(amount: string): (r: nat)
    requires ParseDecimal(amount).Some?
    ensures ParseDecimal(amount).value.scale <= AMOUNT_DECIMALS ==>
      Value(Decimal(r, AMOUNT_DECIMALS)) == ParseNumber(amount).value
    ensures ParseDecimal(amount).value.scale <= AMOUNT_DECIMALS && IsValidAmount(amount) ==> r > 0
  {
    var d := ParseDecimal(amount).value;
    if d.scale <= AMOUNT_DECIMALS then ParseUnitsExact(d, AMOUNT_DECIMALS); ParseUnits(d, AMOUNT_DECIMALS)
    else ParseUnits(d, AMOUNT_DECIMALS)
  }

  // ---------------------------------------------------------------------------
  // Results

  /** What the wallet library reports for a prepared write. */
  datatype WriteHook = WriteHook(ready: bool, isSuccess: bool, isLoading: bool, isError: bool, error: Option<string>)

  /** A `prepare…` result: the write action (the call it would send), and the flags. */
  datatype Prepared<C> = Prepared(write: Option<C>, isSuccess: bool, isLoading: bool, isError: bool, error: Option<string>)

  /** The dummy result returned when the amounts are not valid. */
  function Dummy<C>(): Prepared<C> {
    Prepared(None, false, false, false, None)
  }

  /** A result that passes the library's state through, with `call` as its action. */
  function FromHook<C>(call: C, hook: WriteHook): Prepared<C> {
    Prepared(if hook.ready then Some(call) else None, hook.isSuccess, hook.isLoading, hook.isError, hook.error)
  }

  datatype SwapCall = SwapCall(amountIn: nat, amountOutMin: nat, path: seq<string>, to: string, deadline: nat)

  datatype AddLiquidityCall = AddLiquidityCall(
    tokenA: string, tokenB: string,
    amountADesired: nat, amountBDesired: nat, amountAMin: nat, amountBMin: nat,
    to: string, deadline: nat)

  datatype RemoveLiquidityCall = RemoveLiquidityCall(
    tokenA: string, tokenB: string,
    liquidity: nat, amountAMin: nat, amountBMin: nat,
    to: string, deadline: nat)

  datatype ApproveCall = ApproveCall(token: string, spender: string, amount: nat)

  datatype CreatePairCall = CreatePairCall(tokenA: string, tokenB: string)

  // ---------------------------------------------------------------------------
  // The gates

  /** `prepareSwap`: `swapExactTokensForTokens` along the two-token path. */
  function PrepareSwap(tokenIn: string, tokenOut: string, amountIn: string, amountOutMin: string,
                       walletAddress: string, nowMs: nat, hook: WriteHook): (r: Prepared<SwapCall>)
    ensures !(IsValidAmount(amountIn) && IsValidAmount(amountOutMin)) ==> r == Dummy<SwapCall>()
    ensures r.write.Some? <==> IsValidAmount(amountIn) && IsValidAmount(amountOutMin) && hook.ready
    ensures r.write.Some? ==>
      && r.write.value.path == [tokenIn, tokenOut]
      && r.write.value.to == walletAddress
      && r.write.value.deadline == Deadline(nowMs)
      && r.write.value.amountIn == AmountUnits(amountIn)
      && r.write.value.amountOutMin == AmountUnits(amountOutMin)
    ensures IsValidAmount(amountIn) && IsValidAmount(amountOutMin) ==>
      r.isSuccess == hook.isSuccess && r.isLoading == hook.isLoading && r.isError == hook.isError && r.error == hook.error
  {
    if !IsValidAmount(amountIn) || !IsValidAmount(amountOutMin) then
      Dummy()
    else
      FromHook(SwapCall(AmountUnits(amountIn), AmountUnits(amountOutMin), [tokenIn, tokenOut], walletAddress, Deadline(nowMs)), hook)
  }

  /** `prepareAddLiquidity`: all four amounts must be valid. */
  function PrepareAddLiquidity(tokenA: string, tokenB: string, amountA: string, amountB: string,
                               amountAMin: string, amountBMin: string,
                               walletAddress: string, nowMs: nat, hook: WriteHook): (r: Prepared<AddLiquidityCall>)
    ensures !(IsValidAmount(amountA) && IsValidAmount(amountB) && IsValidAmount(amountAMin) && IsValidAmount(amountBMin)) ==>
      r == Dummy<AddLiquidityCall>()
    ensures r.write.Some? <==>
      IsValidAmount(amountA) && IsValidAmount(amountB) && IsValidAmount(amountAMin) && IsValidAmount(amountBMin) && hook.ready
    ensures r.write.Some? ==>
      && r.write.value.tokenA == tokenA && r.write.value.tokenB == tokenB
      && r.write.value.amountADesired == AmountUnits(amountA)
      && r.write.value.amountBDesired == AmountUnits(amountB)
      && r.write.value.amountAMin == AmountUnits(amountAMin)
      && r.write.value.amountBMin == AmountUnits(amountBMin)
      && r.write.value.to == walletAddress
      && r.write.value.deadline == Deadline(nowMs)
    ensures IsValidAmount(amountA) && IsValidAmount(amountB) && IsValidAmount(amountAMin) && IsValidAmount(amountBMin) ==>
      r.isSuccess == hook.isSuccess && r.isLoading == hook.isLoading && r.isError == hook.isError && r.error == hook.error
  {
    if !IsValidAmount(amountA) || !IsValidAmount(amountB) || !IsValidAmount(amountAMin) || !IsValidAmount(amountBMin) then
      Dummy()
    else
      FromHook(AddLiquidityCall(tokenA, tokenB, AmountUnits(amountA), AmountUnits(amountB),
                                AmountUnits(amountAMin), AmountUnits(amountBMin), walletAddress, Deadline(nowMs)), hook)
  }

  /** `prepareRemoveLiquidity`: the liquidity and both minimums must be valid. */
  function PrepareRemoveLiquidity(tokenA: string, tokenB: string, liquidity: string,
                                  amountAMin: string, amountBMin: string,
                                  walletAddress: string, nowMs: nat, hook: WriteHook): (r: Prepared<RemoveLiquidityCall>)
    ensures !(IsValidAmount(liquidity) && IsValidAmount(amountAMin) && IsValidAmount(amountBMin)) ==>
      r == Dummy<RemoveLiquidityCall>()
    ensures r.write.Some? <==>
      IsValidAmount(liquidity) && IsValidAmount(amountAMin) && IsValidAmount(amountBMin) && hook.ready
    ensures r.write.Some? ==>
      && r.write.value.tokenA == tokenA && r.write.value.tokenB == tokenB
      && r.write.value.liquidity == AmountUnits(liquidity)
      && r.write.value.amountAMin == AmountUnits(amountAMin)
      && r.write.value.amountBMin == AmountUnits(amountBMin)
      && r.write.value.to == walletAddress
      && r.write.value.deadline == Deadline(nowMs)
    ensures IsValidAmount(liquidity) && IsValidAmount(amountAMin) && IsValidAmount(amountBMin) ==>
      r.isSuccess == hook.isSuccess && r.isLoading == hook.isLoading && r.isError == hook.isError && r.error == hook.error
  {
    if !IsValidAmount(liquidity) || !IsValidAmount(amountAMin) || !IsValidAmount(amountBMin) then
      Dummy()
    else
      FromHook(RemoveLiquidityCall(tokenA, tokenB, AmountUnits(liquidity), AmountUnits(amountAMin),
                                   AmountUnits(amountBMin), walletAddress, Deadline(nowMs)), hook)
  }

  /** `prepareApproveToken`: ERC-20 `approve(spender, amount)` on the token's contract. */
  function PrepareApproveToken(tokenAddress: string, spenderAddress: string, amount: string,
                               hook: WriteHook): (r: Prepared<ApproveCall>)
    ensures !IsValidAmount(amount) ==> r == Dummy<ApproveCall>()
    ensures r.write.Some? <==> IsValidAmount(amount) && hook.ready
    ensures r.write.Some? ==> r.write.value == ApproveCall(tokenAddress, spenderAddress, AmountUnits(amount))
    ensures IsValidAmount(amount) ==> r.isSuccess == hook.isSuccess && r.isLoading == hook.isLoading && r.isError == hook.isError && r.error == hook.error
  {
    if !IsValidAmount(amount) then
      Dummy()
    else
      FromHook(ApproveCall(tokenAddress, spenderAddress, AmountUnits(amount)), hook)
  }

  /** `prepareCreatePool`: the factory's `createPair` call, with no gate of its own; the
      library's state is passed through unchanged. */
  function PrepareCreatePool(tokenA: string, tokenB: string, hook: WriteHook): (r: Prepared<CreatePairCall>)
    ensures r.write.Some? <==> hook.ready
    ensures r.write.Some? ==> r.write.value == CreatePairCall(tokenA, tokenB)
    ensures r.isSuccess == hook.isSuccess && r.isLoading == hook.isLoading && r.isError == hook.isError && r.error == hook.error
  {
    FromHook(CreatePairCall(tokenA, tokenB), hook)
  }

  /** A dummy result never reports progress, success or an error, whatever the library
      would have said. */
  lemma DummyReportsNothing<C>(p: Prepared<C>)
    requires p == Dummy<C>()
    ensures p.write.None? && !p.isSuccess && !p.isLoading && !p.isError && p.error.None?
  {
  }
}

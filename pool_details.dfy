/** The pool details page: the pool's figures, the minimum amounts a withdrawal of LP
    tokens must return (a pro-rata share with 5% slippage tolerance), the
    remove-liquidity handler with its guards, and the state of its button. */
module PoolDetails {
  import opened JsValues
  import opened DecimalText
  import opened ContractInteraction
  import opened Buttons

  /** The share of a pro-rata withdrawal that is demanded as a minimum (5% tolerance). */
  const MIN_FRACTION: real := 0.95

  /** The page's figures, as the strings it holds them in. */
  datatype Pool = Pool(reserveA: string, reserveB: string, totalSupply: string, userBalance: string)

  /** The fixed pool the page shows. */
  const MOCK_POOL: Pool := Pool("10.5", "21000", "15.75", "2.5")

  /** Both reserves are numbers and the supply is a positive number. */
  predicate WellFormed(pool: Pool) {
    ParseNumber(pool.reserveA).Some? && ParseNumber(pool.reserveB).Some? && Positive(ParseNumber(pool.totalSupply))
  }

  function ReserveA(pool: Pool): real
    requires WellFormed(pool)
  {
    ParseNumber(pool.reserveA).value
  }

  function ReserveB(pool: Pool): real
    requires WellFormed(pool)
  {
    ParseNumber(pool.reserveB).value
  }

  function Supply(pool: Pool): real
    requires WellFormed(pool)
  {
    ParseNumber(pool.totalSupply).value
  }

  /** The page's pool reads as the numbers it is written with. */
  lemma MockPoolFigures()
    ensures WellFormed(MOCK_POOL)
    ensures ReserveA(MOCK_POOL) == 10.5 && ReserveB(MOCK_POOL) == 21000.0 && Supply(MOCK_POOL) == 15.75
    ensures ParseNumber(MOCK_POOL.userBalance) == Some(2.5)
  {
    ReadsReserveA();
    ReadsReserveB();
    ReadsSupply();
    ReadsBalance();
  }

  // Each figure is the `toString` of an exact decimal, so the round trip reads it back.

  lemma ReadsReserveA()
    ensures ParseNumber("10.5") == Some(10.5)
  {
    var d := Decimal(105, 1);
    assert Normalize(d) == d;
    assert NatDigits(105) == "105";
    assert Format(d) == "10.5";
    FormatRoundTrip(d);
    assert Value(d) == 10.5 by { assert Pow10(1) == 10; }
  }

  lemma ReadsReserveB()
    ensures ParseNumber("21000") == Some(21000.0)
  {
    var d := Decimal(21000, 0);
    assert Normalize(d) == d;
    assert NatDigits(21000) == "21000";
    assert Format(d) == "21000";
    FormatRoundTrip(d);
    assert Value(d) == 21000.0 by { assert Pow10(0) == 1; }
  }

  lemma ReadsSupply()
    ensures ParseNumber("15.75") == Some(15.75)
  {
    var d := Decimal(1575, 2);
    assert Normalize(d) == d;
    assert NatDigits(1575) == "1575";
    assert Format(d) == "15.75";
    FormatRoundTrip(d);
    assert Value(d) == 15.75 by { assert Pow10(2) == 100; }
  }

  lemma ReadsBalance()
    ensures ParseNumber("2.5") == Some(2.5)
  {
    var d := Decimal(25, 1);
    assert Normalize(d) == d;
    assert NatDigits(25) == "25";
    assert Format(d) == "2.5";
    FormatRoundTrip(d);
    assert Value(d) == 2.5 by { assert Pow10(1) == 10; }
  }

  // ---------------------------------------------------------------------------
  // The minimums

  /** `reserve * (lp / supply) * 0.95`: 95% of the reserve's share that `lp` of the
      `supply` LP tokens stand for. */
  function ProRataMinimum(reserve: real, lp: real, supply: real): (m: real)
    requires supply > 0.0
    ensures lp == supply ==> m == MIN_FRACTION * reserve
    ensures reserve > 0.0 ==> (m > 0.0 <==> lp > 0.0)
  {
    assert lp == supply ==> lp / supply == 1.0;
    SignOfShare(reserve, lp, supply);
    reserve * (lp / supply) * MIN_FRACTION
  }

  lemma SignOfShare(reserve: real, x: real, supply: real)
    requires supply > 0.0
    ensures reserve > 0.0 ==> (reserve * (x / supply) * MIN_FRACTION > 0.0 <==> x > 0.0)
  {
    if reserve > 0.0 {
      if x > 0.0 {
        assert x / supply > 0.0;
        assert reserve * (x / supply) > 0.0;
      } else {
        assert x / supply <= 0.0;
        assert reserve * (x / supply) <= 0.0;
      }
    }
  }

  /** The minimum for the parsed amount `lp`: NaN gives NaN. */
  function MinimumOut(reserve: real, lp: JsNumber, supply: real): (r: JsNumber)
    requires supply > 0.0
    ensures r.Some? <==> lp.Some?
  {
    match lp
    case None => None
    case Some(x) => Some(ProRataMinimum(reserve, x, supply))
  }

  /** `minA`: the minimum of token A sent with the withdrawal. It is NaN exactly for a
      NaN amount and, with a positive reserve, positive exactly for a positive amount. */
  function MinA(pool: Pool, amount: string): (r: JsNumber)
    requires WellFormed(pool)
    ensures r.Some? <==> ParseNumber(amount).Some?
    ensures ReserveA(pool) > 0.0 ==> (Positive(r) <==> Positive(ParseNumber(amount)))
  {
    MinimumOut(ReserveA(pool), ParseNumber(amount), Supply(pool))
  }

  /** `minB`: the minimum of token B sent with the withdrawal, with the same
      properties as `minA`. */
  function MinB(pool: Pool, amount: string): (r: JsNumber)
    requires WellFormed(pool)
    ensures r.Some? <==> ParseNumber(amount).Some?
    ensures ReserveB(pool) > 0.0 ==> (Positive(r) <==> Positive(ParseNumber(amount)))
  {
    MinimumOut(ReserveB(pool), ParseNumber(amount), Supply(pool))
  }

  /** The displayed minimum is written `reserve * lp / supply * 0.95`; it is the same
      number as the one sent. */
  lemma DisplayedMinimumAgrees(reserve: real, lp: real, supply: real)
    requires supply > 0.0
    ensures ProRataMinimum(reserve, lp, supply) == reserve * lp / supply * MIN_FRACTION
  {
    assert reserve * (lp / supply) == reserve * lp / supply;
  }

  /** A withdrawal of at most the whole supply demands at most 95% of the reserve. */
  lemma MinimumAtMostShare(reserve: real, lp: real, supply: real)
    requires supply > 0.0 && reserve >= 0.0 && 0.0 <= lp <= supply
    ensures 0.0 <= ProRataMinimum(reserve, lp, supply) <= MIN_FRACTION * reserve
  {
    assert 0.0 <= lp / supply <= 1.0;
    assert 0.0 <= reserve * (lp / supply) <= reserve;
  }

  /** More LP tokens never lower the minimum. */
  lemma MinimumMonotone(reserve: real, lp1: real, lp2: real, supply: real)
    requires supply > 0.0 && reserve >= 0.0 && lp1 <= lp2
    ensures ProRataMinimum(reserve, lp1, supply) <= ProRataMinimum(reserve, lp2, supply)
  {
    assert lp1 / supply <= lp2 / supply;
    assert reserve * (lp1 / supply) <= reserve * (lp2 / supply);
  }

  /** `parseFloat(reserveB) / parseFloat(reserveA)`, the exchange rate shown: the amount
      of token B that one token A is worth at the pool's reserves. */
  function ExchangeRate(pool: Pool): (r: real)
    requires WellFormed(pool) && ReserveA(pool) != 0.0
    ensures r * ReserveA(pool) == ReserveB(pool)
    ensures ReserveA(pool) > 0.0 ==> (r > 0.0 <==> ReserveB(pool) > 0.0)
  {
    ReserveB(pool) / ReserveA(pool)
  }

  /** The two minimums stand in the ratio of the exchange rate shown. */
  lemma MinimumsKeepExchangeRate(pool: Pool, amount: string)
    requires WellFormed(pool) && ReserveA(pool) > 0.0 && Positive(ParseNumber(amount))
    ensures Positive(MinA(pool, amount)) && MinB(pool, amount).Some?
    ensures MinB(pool, amount).value / MinA(pool, amount).value == ExchangeRate(pool)
  {
    var a, b, lp, supply := ReserveA(pool), ReserveB(pool), ParseNumber(amount).value, Supply(pool);
    assert MinA(pool, amount).value == ProRataMinimum(a, lp, supply);
    assert MinB(pool, amount).value == ProRataMinimum(b, lp, supply);
    RatioOfMinimums(a, b, lp, supply);
  }

  lemma RatioOfMinimums(a: real, b: real, lp: real, supply: real)
    requires a > 0.0 && lp > 0.0 && supply > 0.0
    ensures ProRataMinimum(b, lp, supply) / ProRataMinimum(a, lp, supply) == b / a
  {
    var s := lp / supply;
    assert s > 0.0;
    var c := s * MIN_FRACTION;
    assert a * s * MIN_FRACTION == a * c;
    assert b * s * MIN_FRACTION == b * c;
    assert c > 0.0;
    assert (b * c) / (a * c) == b / a;
  }

  // ---------------------------------------------------------------------------
  // The prepared write, the handler and the button

  /** Whether `prepareRemoveLiquidity` yields a write: the amount and both minimums,
      written out with `toString`, must be valid amounts, and the wallet library ready.
      A minimum written out by `toString` is a valid amount exactly when it is a
      positive number. */
  predicate RemovalPrepared(pool: Pool, amount: string, hookReady: bool)
    requires WellFormed(pool)
  {
    hookReady && RemovalGate(pool, amount)
  }

  /** The gate of `prepareRemoveLiquidity` on the page's arguments: the amount and both
      minimums are valid amounts. */
  predicate RemovalGate(pool: Pool, amount: string)
    requires WellFormed(pool)
  {
    IsValidAmount(amount) && Positive(MinA(pool, amount)) && Positive(MinB(pool, amount))
  }

  /** The page's call of `prepareRemoveLiquidity`, given the texts `toString` writes for
      the two minimums (texts that read back as those minimums, "NaN" for NaN): the hook
      prepares a write exactly when `RemovalPrepared` says so, and the `loading` flag the
      button reads is the library's past the gate and false on the dummy result. */
  lemma PageUsesRemoveGate(pool: Pool, amount: string, tokenA: string, tokenB: string,
                           textA: string, textB: string, wallet: string, nowMs: nat, hook: WriteHook)
    requires WellFormed(pool)
    requires textA != "" && ParseNumber(textA) == MinA(pool, amount)
    requires textB != "" && ParseNumber(textB) == MinB(pool, amount)
    ensures PrepareRemoveLiquidity(tokenA, tokenB, amount, textA, textB, wallet, nowMs, hook).write.Some? <==>
      RemovalPrepared(pool, amount, hook.ready)
    ensures RemovalGate(pool, amount) ==>
      PrepareRemoveLiquidity(tokenA, tokenB, amount, textA, textB, wallet, nowMs, hook).isLoading == hook.isLoading
    ensures !RemovalGate(pool, amount) ==>
      !PrepareRemoveLiquidity(tokenA, tokenB, amount, textA, textB, wallet, nowMs, hook).isLoading
  {
    assert IsValidAmount(textA) <==> Positive(MinA(pool, amount));
    assert IsValidAmount(textB) <==> Positive(MinB(pool, amount));
  }

  /** With positive reserves the minimums are positive whenever the amount is valid, so
      the write is prepared exactly when the amount is valid and the library is ready. */
  lemma RemovalPreparedIffValidAmount(pool: Pool, amount: string, hookReady: bool)
    requires WellFormed(pool) && ReserveA(pool) > 0.0 && ReserveB(pool) > 0.0
    ensures RemovalPrepared(pool, amount, hookReady) <==> hookReady && IsValidAmount(amount)
  {
  }

  datatype RemoveOutcome =
    | RefusedNotConnected
    | RefusedInvalidAmount
    | RefusedInsufficientBalance
    | Removed
    | Unprepared
    | RemoveFailed

  /** The early returns of `handleRemoveLiquidity`, in order, with JavaScript's reading
      of `parseFloat`: a NaN amount is neither `<= 0` nor greater than the balance. */
  function RemoveRefusal(connected: bool, amount: string, userBalance: string): (r: Option<RemoveOutcome>)
    ensures !connected ==> r == Some(RefusedNotConnected)
    ensures connected && (amount == "" || AtMost(ParseNumber(amount), 0.0)) ==> r == Some(RefusedInvalidAmount)
    ensures r == Some(RefusedInsufficientBalance) <==>
      connected && amount != "" && !AtMost(ParseNumber(amount), 0.0) && Exceeds(ParseNumber(amount), ParseNumber(userBalance))
    ensures r == None <==>
      connected && amount != "" && !AtMost(ParseNumber(amount), 0.0) && !Exceeds(ParseNumber(amount), ParseNumber(userBalance))
  {
    if !connected then Some(RefusedNotConnected)
    else if amount == "" || AtMost(ParseNumber(amount), 0.0) then Some(RefusedInvalidAmount)
    else if Exceeds(ParseNumber(amount), ParseNumber(userBalance)) then Some(RefusedInsufficientBalance)
    else None
  }

  /** What one run of `handleRemoveLiquidity` ends in. `fails` says whether the awaited
      write threw. */
  function RemoveResult(pool: Pool, connected: bool, amount: string, hookReady: bool, fails: bool): (r: RemoveOutcome)
    requires WellFormed(pool)
    ensures RemoveRefusal(connected, amount, pool.userBalance).Some? ==> r == RemoveRefusal(connected, amount, pool.userBalance).value
    ensures r == Removed <==>
      RemoveRefusal(connected, amount, pool.userBalance) == None && RemovalPrepared(pool, amount, hookReady) && !fails
    ensures r == Unprepared <==>
      RemoveRefusal(connected, amount, pool.userBalance) == None && !RemovalPrepared(pool, amount, hookReady)
    ensures r == RemoveFailed <==>
      RemoveRefusal(connected, amount, pool.userBalance) == None && RemovalPrepared(pool, amount, hookReady) && fails
  {
    var refusal := RemoveRefusal(connected, amount, pool.userBalance);
    if refusal.Some? then refusal.value
    else if !RemovalPrepared(pool, amount, hookReady) then Unprepared
    else if fails then RemoveFailed
    else Removed
  }

  /** A withdrawal goes through only for a connected wallet and a positive amount no
      larger than the balance. */
  lemma RemovedOnlyWithinBalance(pool: Pool, connected: bool, amount: string, hookReady: bool, fails: bool)
    requires WellFormed(pool)
    requires RemoveResult(pool, connected, amount, hookReady, fails) == Removed
    ensures connected && Positive(ParseNumber(amount))
    ensures ParseNumber(pool.userBalance).Some? ==> ParseNumber(amount).value <= ParseNumber(pool.userBalance).value
  {
  }

  /** "." gets past every guard of the handler (its number is NaN), and is then stopped
      only because no write is prepared for it. */
  lemma LoneDotPassesGuards(pool: Pool, hookReady: bool, fails: bool)
    requires WellFormed(pool)
    ensures !RemoveDisabled(true, ".", false, false)
    ensures RemoveRefusal(true, ".", pool.userBalance) == None
    ensures RemoveResult(pool, true, ".", hookReady, fails) == Unprepared
  {
    assert ParseNumber(".") == None;
  }

  /** The remove button's `disabled` expression. */
  predicate RemoveDisabled(connected: bool, amount: string, isRemoving: bool, loading: bool) {
    !connected || amount == "" || AtMost(ParseNumber(amount), 0.0) || isRemoving || loading
  }

  const REMOVING_CAPTION: string := "Removing Liquidity..."
  const REMOVE_CAPTION: string := "Remove Liquidity"

  /** An enabled button means the handler's first two guards pass; only the balance
      check can still refuse. An enabled button shows the idle caption, and the busy
      caption only ever shows on a disabled button. */
  lemma EnabledPassesFirstGuards(connected: bool, amount: string, userBalance: string, isRemoving: bool, loading: bool)
    ensures !RemoveDisabled(connected, amount, isRemoving, loading) ==>
      (RemoveRefusal(connected, amount, userBalance) == None ||
       RemoveRefusal(connected, amount, userBalance) == Some(RefusedInsufficientBalance))
    ensures !RemoveDisabled(connected, amount, isRemoving, loading) ==>
      Caption(isRemoving, loading, REMOVING_CAPTION, REMOVE_CAPTION) == REMOVE_CAPTION
    ensures Caption(isRemoving, loading, REMOVING_CAPTION, REMOVE_CAPTION) == REMOVING_CAPTION ==>
      RemoveDisabled(connected, amount, isRemoving, loading)
  {
  }

  /** The minimum panel is shown for a non-empty amount whose number is positive. */
  predicate ShowsMinimums(amount: string) {
    amount != "" && Positive(ParseNumber(amount))
  }

  /** A withdrawal of a millionth of an LP token from the page's pool is a valid amount,
      yet its minimum of token A is below 10^-6, where `toString` switches to exponent
      notation: the text handed to `isValidAmount` and `parseUnits` is then not plain
      decimal text. */
  lemma TinyWithdrawalHasExponentMinimum()
    ensures IsValidAmount("0.000001") && ShowsMinimums("0.000001")
    ensures WellFormed(MOCK_POOL)
    ensures Positive(MinA(MOCK_POOL, "0.000001")) && MinA(MOCK_POOL, "0.000001").value < 0.000001
  {
    var amount := "0.000001";
    ReadsMillionth();
    assert IsValidAmount(amount) && ShowsMinimums(amount);
    MockPoolFigures();
    assert MinA(MOCK_POOL, amount) == MinimumOut(10.5, Some(0.000001), 15.75);
    TinyMinimum();
  }

  lemma TinyMinimum()
    ensures 0.0 < ProRataMinimum(10.5, 0.000001, 15.75) < 0.000001
  {
    var x := 0.000001 / 15.75;
    assert x * 15.75 == 0.000001;
    assert 0.0 < x < 0.0000001;
    assert ProRataMinimum(10.5, 0.000001, 15.75) == 10.5 * x * MIN_FRACTION;
  }

  lemma ReadsMillionth()
    ensures ParseNumber("0.000001") == Some(0.000001)
  {
    var d := Decimal(1, 6);
    assert Normalize(d) == d;
    assert NatDigits(1) == "1";
    assert Zeros(5) == "00000";
    assert Format(d) == "0.000001";
    FormatRoundTrip(d);
    assert Value(d) == 0.000001 by { assert Pow10(6) == 1000000; }
  }

  /** Whenever the panel is shown for a pool with positive reserves, both minimums in it
      are positive numbers, and the panel is shown exactly for valid amounts. */
  lemma ShownMinimumsArePositive(pool: Pool, amount: string)
    requires WellFormed(pool) && ReserveA(pool) > 0.0 && ReserveB(pool) > 0.0
    ensures ShowsMinimums(amount) <==> IsValidAmount(amount)
    ensures ShowsMinimums(amount) ==> Positive(MinA(pool, amount)) && Positive(MinB(pool, amount))
  {
  }

  // ---------------------------------------------------------------------------
  // Hook calls per render

  /** How many wallet-library hooks (`usePrepareContractWrite`, `useContractWrite`) the
      page's call of `prepareRemoveLiquidity` runs in one render, as written: the
      function returns its dummy result before both of them unless its gate passes. */
  function RemoveHookCallsAsWritten(pool: Pool, amount: string): nat
    requires WellFormed(pool)
  {
    if RemovalGate(pool, amount) then 2 else 0
  }

  /** React requires every render of a component to run as many hooks as its first
      render, and throws otherwise. The page first renders with the amount "". */
  predicate RenderThrowsAsWritten(pool: Pool, amount: string)
    requires WellFormed(pool)
  {
    RemoveHookCallsAsWritten(pool, amount) != RemoveHookCallsAsWritten(pool, "")
  }

  /** As written, with positive reserves, a render throws exactly when the amount is
      valid: the first render skips the two hooks and a valid amount runs them. */
  lemma ValidAmountRenderThrows(pool: Pool, amount: string)
    requires WellFormed(pool) && ReserveA(pool) > 0.0 && ReserveB(pool) > 0.0
    ensures RenderThrowsAsWritten(pool, amount) <==> IsValidAmount(amount)
  {
    assert !RemovalGate(pool, "");
  }

  /** As written, the outcomes that send the write need a valid amount, and the page
      cannot render one, so the handler never reaches them. */
  lemma SentRemovalNeedsThrowingRender(pool: Pool, connected: bool, amount: string, hookReady: bool, fails: bool)
    requires WellFormed(pool) && ReserveA(pool) > 0.0 && ReserveB(pool) > 0.0
    ensures RemoveResult(pool, connected, amount, hookReady, fails) == Removed ==> RenderThrowsAsWritten(pool, amount)
    ensures RemoveResult(pool, connected, amount, hookReady, fails) == RemoveFailed ==> RenderThrowsAsWritten(pool, amount)
  {
    ValidAmountRenderThrows(pool, amount);
  }

  /** On the page's pool, typing "1" or pressing MAX ("2.5") makes the next render throw,
      while "." does not. */
  lemma TypedAmountRenderThrows()
    ensures WellFormed(MOCK_POOL)
    ensures RenderThrowsAsWritten(MOCK_POOL, "1")
    ensures RenderThrowsAsWritten(MOCK_POOL, MOCK_POOL.userBalance)
    ensures !RenderThrowsAsWritten(MOCK_POOL, ".")
  {
    MockPoolFigures();
    ReadsOne();
    ValidAmountRenderThrows(MOCK_POOL, "1");
    ValidAmountRenderThrows(MOCK_POOL, MOCK_POOL.userBalance);
    ValidAmountRenderThrows(MOCK_POOL, ".");
  }

  lemma ReadsOne()
    ensures ParseNumber("1") == Some(1.0)
  {
    var d := Decimal(1, 0);
    assert Normalize(d) == d;
    assert NatDigits(1) == "1";
    assert Format(d) == "1";
    FormatRoundTrip(d);
    assert Value(d) == 1.0 by { assert Pow10(0) == 1; }
  }

  /** The hooks run when the gate only sets the library's `enabled` option, which
      `prepareRemoveLiquidity` also passes: both of them, on every render. */
  function RemoveHookCallsIntended(pool: Pool, amount: string): nat
    requires WellFormed(pool)
  {
    2
  }

  /** With the hooks always run, no render throws, and on the page's pool a connected
      wallet that withdraws 1 LP token with a ready write completes the removal. */
  lemma IntendedRemovalIsReachable()
    ensures WellFormed(MOCK_POOL)
    ensures forall amount :: RemoveHookCallsIntended(MOCK_POOL, amount) == RemoveHookCallsIntended(MOCK_POOL, "")
    ensures RemoveResult(MOCK_POOL, true, "1", true, false) == Removed
    ensures RemoveResult(MOCK_POOL, true, "1", true, true) == RemoveFailed
  {
    MockPoolFigures();
    ReadsOne();
    RemovalPreparedIffValidAmount(MOCK_POOL, "1", true);
  }

  // ---------------------------------------------------------------------------
  // The page's state

  class RemoveLiquidityForm {
    const pool: Pool
    var amount: string
    var isRemoving: bool

    /** Between handlers no removal is under way, and the amount is either typed input
        the filter let through or the balance MAX wrote. */
    ghost predicate Valid()
      reads this
    {
      WellFormed(pool) && !isRemoving && (AcceptsInput(amount) || amount == pool.userBalance)
    }

    constructor (pool: Pool)
      requires WellFormed(pool)
      ensures Valid()
      ensures this.pool == pool && amount == ""
    {
      this.pool := pool;
      amount := "";
      isRemoving := false;
    }

    /** The amount input's `onChange`. */
    method OnAmountInput(value: string)
      requires Valid()
      modifies this
      ensures Valid()
      ensures amount == if AcceptsInput(value) then value else old(amount)
    {
      if AcceptsInput(value) {
        amount := value;
      }
    }

    /** MAX writes the user's LP balance, exactly as the pool holds it. */
    method Max()
      requires Valid()
      modifies this
      ensures Valid()
      ensures amount == pool.userBalance
    {
      amount := pool.userBalance;
    }

    /** `handleRemoveLiquidity` as one step. `connected` is the wallet flag, `hookReady`
        whether the wallet library has a write ready for the prepared call, `fails`
        whether the awaited write threw. Only a completed withdrawal clears the amount;
        `isRemoving` is false again when the handler ends. */
    method HandleRemoveLiquidity(connected: bool, hookReady: bool, fails: bool) returns (outcome: RemoveOutcome)
      requires Valid()
      modifies this
      ensures Valid()
      ensures outcome == RemoveResult(pool, connected, old(amount), hookReady, fails)
      ensures amount == if outcome == Removed then "" else old(amount)
    {
      var refusal := RemoveRefusal(connected, amount, pool.userBalance);
      if refusal.Some? {
        return refusal.value;
      }
      isRemoving := true;
      if RemovalPrepared(pool, amount, hookReady) {
        if fails {
          outcome := RemoveFailed;
        } else {
          amount := "";
          outcome := Removed;
        }
      } else {
        outcome := Unprepared;
      }
      isRemoving := false;
    }
  }
}

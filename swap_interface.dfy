/** The swap form: two linked amount fields priced at a fixed mock ratio of 1:2, a
    button that flips the direction, the swap handler and the footer button. */
module SwapInterface {
  import opened JsValues
  import opened DecimalText
  import opened Tokens

  /** The page's liquidity check is the constant `false`. */
  const INSUFFICIENT_LIQUIDITY: bool := false

  /** The value the MAX button writes into the "from" field. */
  const MAX_PLACEHOLDER: string := "0.0"

  datatype SwapState = SwapState(
    fromToken: Token,
    toToken: Token,
    fromAmount: string,
    toAmount: string,
    isSwapping: bool)

  /** A field holds what the filter accepts, or the text "NaN" that `toString`
      produces for a number computed from ".". */
  predicate AmountText(s: string) {
    AcceptsInput(s) || s == "NaN"
  }

  predicate AmountsAreText(s: SwapState) {
    AmountText(s.fromAmount) && AmountText(s.toAmount)
  }

  // ---------------------------------------------------------------------------
  // The mock price

  /** `(Number(value) * 2).toString()` for a non-empty accepted value. */
  function DoubledText(value: string): (r: string)
    ensures AmountText(r)
    ensures ParseNumber(value).None? ==> r == "NaN"
    ensures ParseNumber(value).Some? ==> ParseNumber(r) == Some(2.0 * ParseNumber(value).value)
    ensures ParseNumber(value).Some? ==> AcceptsInput(r) && r != ""
  {
    match ParseDecimal(value)
    case None => "NaN"
    case Some(d) => FormatRoundTrip(Double(d)); Format(Double(d))
  }

  /** `(Number(value) / 2).toString()` for a non-empty accepted value. */
  function HalvedText(value: string): (r: string)
    ensures AmountText(r)
    ensures ParseNumber(value).None? ==> r == "NaN"
    ensures ParseNumber(value).Some? ==> ParseNumber(r) == Some(ParseNumber(value).value / 2.0)
  {
    match ParseDecimal(value)
    case None => "NaN"
    case Some(d) => FormatRoundTrip(Half(d)); Format(Half(d))
  }

  // ---------------------------------------------------------------------------
  // Handlers as state transitions

  /** `handleFromAmountChange`: a rejected value changes nothing; an accepted one is
      stored and the "to" field becomes twice its value, or empty with it. */
  function AfterFromInput(s: SwapState, value: string): (r: SwapState)
    ensures !AcceptsInput(value) ==> r == s
    ensures AcceptsInput(value) ==> r.fromAmount == value
    ensures AcceptsInput(value) && value == "" ==> r.toAmount == ""
    ensures AcceptsInput(value) && ParseNumber(value).Some? ==>
      ParseNumber(r.toAmount) == Some(2.0 * ParseNumber(value).value)
    ensures AcceptsInput(value) && value != "" && ParseNumber(value).None? ==> r.toAmount == "NaN"
    ensures r.fromToken == s.fromToken && r.toToken == s.toToken && r.isSwapping == s.isSwapping
    ensures AmountsAreText(s) ==> AmountsAreText(r)
  {
    if !AcceptsInput(value) then s
    else if value != "" then s.(fromAmount := value, toAmount := DoubledText(value))
    else s.(fromAmount := value, toAmount := "")
  }

  /** `handleToAmountChange`: the mirror image, with half the value in "from". */
  function AfterToInput(s: SwapState, value: string): (r: SwapState)
    ensures !AcceptsInput(value) ==> r == s
    ensures AcceptsInput(value) ==> r.toAmount == value
    ensures AcceptsInput(value) && value == "" ==> r.fromAmount == ""
    ensures AcceptsInput(value) && ParseNumber(value).Some? ==>
      ParseNumber(r.fromAmount) == Some(ParseNumber(value).value / 2.0)
    ensures AcceptsInput(value) && value != "" && ParseNumber(value).None? ==> r.fromAmount == "NaN"
    ensures r.fromToken == s.fromToken && r.toToken == s.toToken && r.isSwapping == s.isSwapping
    ensures AmountsAreText(s) ==> AmountsAreText(r)
  {
    if !AcceptsInput(value) then s
    else if value != "" then s.(toAmount := value, fromAmount := HalvedText(value))
    else s.(toAmount := value, fromAmount := "")
  }

  /** `handleSwapTokens`: both tokens and both amounts change places at once. */
  function AfterFlip(s: SwapState): (r: SwapState)
    ensures r.fromToken == s.toToken && r.toToken == s.fromToken
    ensures r.fromAmount == s.toAmount && r.toAmount == s.fromAmount
    ensures r.isSwapping == s.isSwapping
  {
    s.(fromToken := s.toToken, toToken := s.fromToken, fromAmount := s.toAmount, toAmount := s.fromAmount)
  }

  lemma FlipTwiceRestores(s: SwapState)
    ensures AfterFlip(AfterFlip(s)) == s
  {
  }

  /** Halving the doubled text gives back the number typed: the x2 and /2 prices are inverse. */
  lemma PriceTextRoundTrip(value: string)
    requires ParseNumber(value).Some?
    ensures AcceptsInput(DoubledText(value)) && DoubledText(value) != ""
    ensures ParseNumber(HalvedText(DoubledText(value))) == ParseNumber(value)
  {
    var v := ParseNumber(value).value;
    assert ParseNumber(HalvedText(DoubledText(value))) == Some((2.0 * v) / 2.0);
  }

  /** Typing a number into "from" and then typing the "to" text it produced back into
      "to" leaves "from" holding the same number. */
  lemma PriceRoundTrip(s: SwapState, value: string)
    requires AcceptsInput(value) && ParseNumber(value).Some?
    ensures var s1 := AfterFromInput(s, value);
            var s2 := AfterToInput(s1, s1.toAmount);
            ParseNumber(s2.fromAmount) == ParseNumber(value) && s2.toAmount == s1.toAmount
  {
    PriceTextRoundTrip(value);
    assert value != "";
    assert AfterFromInput(s, value).toAmount == DoubledText(value);
  }

  // ---------------------------------------------------------------------------
  // The swap handler and the footer

  datatype SwapOutcome = RefusedNotConnected | RefusedNoAmount | Swapped | SwapFailed

  /** The early returns of `handleSwap`, in order; `None` when the swap goes ahead. */
  function SwapRefusal(connected: bool, fromAmount: string, toAmount: string): (r: Option<SwapOutcome>)
    ensures r == None <==> connected && fromAmount != "" && toAmount != ""
    ensures !connected ==> r == Some(RefusedNotConnected)
    ensures connected && (fromAmount == "" || toAmount == "") ==> r == Some(RefusedNoAmount)
  {
    if !connected then Some(RefusedNotConnected)
    else if fromAmount == "" || toAmount == "" then Some(RefusedNoAmount)
    else None
  }

  datatype FooterButton =
    | ConnectWalletButton
    | InsufficientLiquidityButton
    | EnterAmountButton
    | SwapButton(disabled: bool, caption: string)

  /** The footer's button, chosen in the page's priority order. */
  function Footer(connected: bool, insufficientLiquidity: bool, fromAmount: string, toAmount: string,
                  isSwapping: bool): (r: FooterButton)
    ensures !connected ==> r == ConnectWalletButton
    ensures connected && insufficientLiquidity ==> r == InsufficientLiquidityButton
    ensures connected && !insufficientLiquidity && (fromAmount == "" || toAmount == "") ==> r == EnterAmountButton
    ensures r.SwapButton? <==> !insufficientLiquidity && SwapRefusal(connected, fromAmount, toAmount) == None
    ensures r.SwapButton? ==> (r.disabled <==> isSwapping) && r.caption == (if isSwapping then "Swapping..." else "Swap")
  {
    if !connected then ConnectWalletButton
    else if insufficientLiquidity then InsufficientLiquidityButton
    else if fromAmount == "" || toAmount == "" then EnterAmountButton
    else SwapButton(isSwapping, if isSwapping then "Swapping..." else "Swap")
  }

  /** With the page's constant liquidity check the "Insufficient Liquidity" button never
      appears, and the Swap button is offered exactly when the handler would go ahead. */
  lemma FooterNeverReportsLiquidity(connected: bool, fromAmount: string, toAmount: string, isSwapping: bool)
    ensures Footer(connected, INSUFFICIENT_LIQUIDITY, fromAmount, toAmount, isSwapping) != InsufficientLiquidityButton
    ensures Footer(connected, INSUFFICIENT_LIQUIDITY, fromAmount, toAmount, isSwapping).SwapButton?
        <==> SwapRefusal(connected, fromAmount, toAmount) == None
  {
  }

  class SwapForm {
    var fromToken: Token
    var toToken: Token
    var fromAmount: string
    var toAmount: string
    var isSwapping: bool

    function State(): SwapState
      reads this
    {
      SwapState(fromToken, toToken, fromAmount, toAmount, isSwapping)
    }

    /** Between handlers no swap is under way, both fields hold amount text, and the two
        tokens have different addresses (each picker disables the other side's token). */
    ghost predicate Valid()
      reads this
    {
      AmountsAreText(State()) && !isSwapping && fromToken.address != toToken.address
    }

    constructor ()
      ensures Valid()
      ensures State() == SwapState(TOKENS[0], TOKENS[1], "", "", false)
    {
      ListedAddressesAreDistinct();
      fromToken, toToken := TOKENS[0], TOKENS[1];
      fromAmount, toAmount := "", "";
      isSwapping := false;
    }

    method OnFromAmountChange(value: string)
      requires Valid()
      modifies this
      ensures Valid()
      ensures State() == AfterFromInput(old(State()), value)
    {
      if AcceptsInput(value) {
        fromAmount := value;
        if value != "" {
          toAmount := DoubledText(value);
        } else {
          toAmount := "";
        }
      }
    }

    method OnToAmountChange(value: string)
      requires Valid()
      modifies this
      ensures Valid()
      ensures State() == AfterToInput(old(State()), value)
    {
      if AcceptsInput(value) {
        toAmount := value;
        if value != "" {
          fromAmount := HalvedText(value);
        } else {
          fromAmount := "";
        }
      }
    }

    method SwapTokens()
      requires Valid()
      modifies this
      ensures Valid()
      ensures State() == AfterFlip(old(State()))
    {
      fromToken, toToken := toToken, fromToken;
      fromAmount, toAmount := toAmount, fromAmount;
    }

    /** The MAX button of the "from" field writes a fixed placeholder and leaves "to" alone. */
    method Max()
      requires Valid()
      modifies this
      ensures Valid()
      ensures State() == old(State()).(fromAmount := MAX_PLACEHOLDER)
    {
      fromAmount := MAX_PLACEHOLDER;
    }

    /** `onSelect` of the "from" token picker. */
    method SelectFromToken(t: Token)
      requires Valid()
      requires t.address != toToken.address
      modifies this
      ensures Valid()
      ensures State() == old(State()).(fromToken := t)
    {
      fromToken := t;
    }

    /** `onSelect` of the "to" token picker. */
    method SelectToToken(t: Token)
      requires Valid()
      requires t.address != fromToken.address
      modifies this
      ensures Valid()
      ensures State() == old(State()).(toToken := t)
    {
      toToken := t;
    }

    /** `handleSwap` as one step. `connected` is the wallet flag; `fails` says whether the
        awaited interaction threw. A refused swap changes nothing; a successful one clears
        both amounts; `isSwapping` is false again when the handler ends. */
    method HandleSwap(connected: bool, fails: bool) returns (outcome: SwapOutcome)
      requires Valid()
      modifies this
      ensures Valid()
      ensures SwapRefusal(connected, old(fromAmount), old(toAmount)).Some? ==>
        outcome == SwapRefusal(connected, old(fromAmount), old(toAmount)).value && State() == old(State())
      ensures SwapRefusal(connected, old(fromAmount), old(toAmount)) == None && !fails ==>
        outcome == Swapped && State() == old(State()).(fromAmount := "", toAmount := "")
      ensures SwapRefusal(connected, old(fromAmount), old(toAmount)) == None && fails ==>
        outcome == SwapFailed && State() == old(State())
    {
      var refusal := SwapRefusal(connected, fromAmount, toAmount);
      if refusal.Some? {
        return refusal.value;
      }
      isSwapping := true;
      if fails {
        outcome := SwapFailed;
      } else {
        fromAmount := "";
        toAmount := "";
        outcome := Swapped;
      }
      isSwapping := false;
    }

  }
}

# swapster-universe front end, modelled in Dafny

This project models the decision logic of the swapster-universe decentralised-exchange
front end, a React/TypeScript application. It covers:

- the token picker's search and selection;
- the swap form's amount filter, its mocked 1:2 price and the direction flip;
- the swap handler and the footer button;
- the remove-liquidity page: pro-rata minimums with a 5% tolerance, guards and button;
- the write gates of the contract-interaction hook: `isValidAmount`, the deadline, the
  call arguments;
- the create-pool page: the "pair exists" test, guards, status panel and button;
- the navigation bar's helpers and its mobile-menu state;
- the theme hook: the initial theme, the toggle, and the effect on the root class list
  and on storage.

The code has no pricing engine. The swap form's quote is the fixed ratio 1:2
(`Number(value) * 2` and `Number(value) / 2`). "Insufficient liquidity" is the constant
`false`, and the price impact is a fixed string. The model follows the code, so there is
no constant-product formula in it.

Two modules hold JavaScript behaviour that several files share; each of the others
corresponds to one source file:

| module | what it models |
|---|---|
| `JsValues` | JavaScript numbers: NaN as `None`; comparisons with NaN are false |
| `DecimalText` | the `^\d*\.?\d*$` filter, `parseFloat`/`Number` on the strings it accepts, `toString` on exact decimals |
| `Buttons` | the busy/idle caption rule of the two liquidity pages' submit buttons |
| `Tokens` | `TOKENS` in `src/lib/constants.ts` |
| `TokenList` | `src/components/dex/TokenList.tsx` |
| `SwapInterface` | `src/components/dex/SwapInterface.tsx` |
| `ContractInteraction` | `src/hooks/useContractInteraction.tsx` |
| `PoolDetails` | `src/pages/PoolDetails.tsx` |
| `CreatePool` | `src/pages/CreatePool.tsx` |
| `Navbar` | `src/components/layout/Navbar.tsx` |
| `DarkMode` | `src/hooks/useDarkMode.tsx` |

Component state becomes a class, and each event handler becomes one method that runs as
a single atomic step. Each method's `ensures` ties the new state to a pure transition
function. The page's own promises are proved as lemmas about those functions. Some
inputs become method parameters:

- the wallet's connection flag;
- whether the wallet library has a write ready;
- whether an awaited call threw;
- `Date.now()`;
- the factory's answer for a pair;
- the system colour-scheme preference.

Numbers are exact. An accepted amount string denotes the decimal `units / 10^scale`.
`toString` writes such a decimal back as its shortest plain decimal text, and
`DecimalText.FormatRoundTrip` proves that reading this text back gives the same number.

## Model

| member | source | states |
|---|---|---|
| `DecimalText.MatchesAmountPattern` | src/components/dex/SwapInterface.tsx:44 | The regex `^\d*\.?\d*$` read as an automaton: digits, at most one dot, digits. `PatternIsDigitsWithAtMostOneDot` states its language. |
| `DecimalText.AcceptsInput` | src/components/dex/SwapInterface.tsx:44 | The amount inputs' guard lets through exactly the texts made of digits and dots with at most one dot, the empty text included. |
| `DecimalText.PatternIsDigitsWithAtMostOneDot` | src/components/dex/SwapInterface.tsx:44 | The regex reading of the amount filter accepts exactly the strings made of digits and dots with at most one dot. |
| `DecimalText.AllDigitsMatchPattern` | src/components/dex/SwapInterface.tsx:44 | Every string of digits passes the filter. |
| `DecimalText.DigitsDotDigitsMatchPattern` | src/components/dex/SwapInterface.tsx:44 | Digits, one dot, digits passes the filter. |
| `DecimalText.Double` | src/components/dex/SwapInterface.tsx:48 | The doubled decimal has twice the value. |
| `DecimalText.Half` | src/components/dex/SwapInterface.tsx:62 | The halved decimal has half the value. |
| `DecimalText.ParseDecimal` | src/components/dex/SwapInterface.tsx:48 | A string is a number exactly when it passes the filter and is neither "" nor "."; the result has as many fraction digits as the text. |
| `DecimalText.ParseNumber` | src/hooks/useContractInteraction.tsx:164 | On the strings the amount filter accepts, `parseFloat` gives NaN exactly for "" and ".", and otherwise the value of the decimal the text spells. The model gives NaN for every other string, where `parseFloat` would read a sign, an exponent or a numeric prefix. |
| `DecimalText.AcceptedNaNIsLoneDot` | src/components/dex/SwapInterface.tsx:44-48 | The only non-empty accepted input that reads as NaN is ".". |
| `DecimalText.ParsedIsNonNegative` | src/components/dex/SwapInterface.tsx:44 | No accepted input denotes a negative number. |
| `DecimalText.Normalize` | src/components/dex/SwapInterface.tsx:49 | Dropping trailing fraction zeros keeps the value and leaves no trailing zero. |
| `DecimalText.NatDigits` | src/components/layout/Navbar.tsx:96 | The decimal digits of a natural number are non-empty digits that read back as that number. |
| `DecimalText.Format` | src/components/dex/SwapInterface.tsx:49 | `toString` on an exact decimal: integer digits, and a '.' with the fraction digits only for a non-zero fraction. `FormatRoundTrip` and `FormatHasDotExactlyForFractions` state its properties. |
| `DecimalText.FormatHasDotExactlyForFractions` | src/components/dex/SwapInterface.tsx:49 | `toString` writes a '.' exactly when the number has a non-zero fraction. |
| `DecimalText.FormatRoundTrip` | src/components/dex/SwapInterface.tsx:48-49 | `toString` output passes the amount filter, is never "" or ".", and reads back as the same number. |
| `Tokens.ListedAddressesAreDistinct` | src/lib/constants.ts:2-52 | The table lists seven tokens with pairwise distinct addresses. |
| `TokenList.MatchesQuery` | src/components/dex/TokenList.tsx:31-34 | The filter's test for one token: the lower-cased query occurs in the lower-cased symbol, name or address. The empty query matches every token. `SearchFilter` and `SearchIgnoresCase` state what follows from it. |
| `TokenList.SearchFilter` | src/components/dex/TokenList.tsx:29-35 | The filtered list is an order-preserving subsequence of the tokens; every token in it matches the lower-cased query by symbol, name or address; every matching token is in it, as many times as in the table, and no other token is. |
| `TokenList.VisibleTokens` | src/components/dex/TokenList.tsx:27-40 | What the search effect shows is the filter's result for every query: the special case for "" changes nothing. |
| `TokenList.EmptyQueryKeepsAll` | src/components/dex/TokenList.tsx:28-39 | Filtering with the empty query keeps the whole table, in order. |
| `TokenList.LowerOfUpper` | src/components/dex/TokenList.tsx:29 | Lower-casing an upper-cased text equals lower-casing the text. |
| `TokenList.SearchIgnoresCase` | src/components/dex/TokenList.tsx:29 | A query and its upper-cased form show the same tokens. |
| `TokenList.SameMatchesSameFilter` | src/components/dex/TokenList.tsx:29-35 | Queries with the same lower-case form filter alike. |
| `TokenList.IsDisabled` | src/components/dex/TokenList.tsx:91 | A row is disabled when its address is the other side's token's address. `AtMostOneRowDisabled` and `TokenDialog.Click` state what follows from it. |
| `TokenList.AtMostOneRowDisabled` | src/components/dex/TokenList.tsx:91 | In the listed table at most one row is disabled. |
| `TokenList.TokenDialog.constructor` | src/components/dex/TokenList.tsx:23-25 | The dialog starts closed, with an empty query and the whole table. |
| `TokenList.TokenDialog.SetOpen` | src/components/dex/TokenList.tsx:49 | Opening or closing the dialog changes nothing else. |
| `TokenList.TokenDialog.OnSearchChange` | src/components/dex/TokenList.tsx:27-40 | After typing, the query is stored and the shown list is the filter's result (the whole table for ""). |
| `TokenList.TokenDialog.Click` | src/components/dex/TokenList.tsx:42-46 | A disabled row returns nothing and changes nothing. Any other row is handed up, closes the dialog and clears the search; the whole table shows again. |
| `SwapInterface.DoubledText` | src/components/dex/SwapInterface.tsx:47-49 | The "to" text for an accepted value reads as twice its number. NaN gives "NaN". |
| `SwapInterface.HalvedText` | src/components/dex/SwapInterface.tsx:61-63 | The "from" text reads as half the typed number. NaN gives "NaN". |
| `SwapInterface.AfterFromInput` | src/components/dex/SwapInterface.tsx:42-54 | A rejected input changes nothing. An accepted one is stored; "" clears "to"; a number puts twice its value in "to"; "." puts "NaN" in "to". Tokens are kept and both fields stay amount text. |
| `SwapInterface.AfterToInput` | src/components/dex/SwapInterface.tsx:56-68 | The mirror image, with half the value in "from", and "NaN" there for ".". |
| `SwapInterface.AfterFlip` | src/components/dex/SwapInterface.tsx:70-76 | Both tokens and both amounts change places. |
| `SwapInterface.FlipTwiceRestores` | src/components/dex/SwapInterface.tsx:70-76 | Flipping twice restores the form. |
| `SwapInterface.PriceTextRoundTrip` | src/components/dex/SwapInterface.tsx:48-62 | Halving the doubled text gives back the typed number. |
| `SwapInterface.PriceRoundTrip` | src/components/dex/SwapInterface.tsx:42-68 | Typing a number into "from", then typing the "to" text it produced into "to", leaves the same number in "from". |
| `SwapInterface.SwapRefusal` | src/components/dex/SwapInterface.tsx:79-87 | The swap is refused unless the wallet is connected and both amounts are non-empty. The reason is "not connected" when the wallet is not connected, and "no amount" when it is but an amount is empty. |
| `SwapInterface.Footer` | src/components/dex/SwapInterface.tsx:248-268 | Priority is not connected, then insufficient liquidity, then an empty amount. Otherwise the Swap button shows, disabled exactly while swapping. |
| `SwapInterface.FooterNeverReportsLiquidity` | src/components/dex/SwapInterface.tsx:105 | With the constant liquidity check, "Insufficient Liquidity" never shows, and Swap is offered exactly when the handler would proceed. |
| `SwapInterface.SwapForm.constructor` | src/components/dex/SwapInterface.tsx:35-40 | The form starts with the first two tokens, empty amounts, and no swap running. The two tokens' addresses differ, and every handler keeps them different. |
| `SwapInterface.SwapForm.OnFromAmountChange` | src/components/dex/SwapInterface.tsx:42-54 | The new state is the "from" transition of the old one. |
| `SwapInterface.SwapForm.OnToAmountChange` | src/components/dex/SwapInterface.tsx:56-68 | The new state is the "to" transition of the old one. |
| `SwapInterface.SwapForm.SwapTokens` | src/components/dex/SwapInterface.tsx:70-76 | The new state is the flip of the old one. |
| `SwapInterface.SwapForm.Max` | src/components/dex/SwapInterface.tsx:183 | MAX writes "0.0" into "from" and leaves everything else alone. |
| `SwapInterface.SwapForm.SelectFromToken` | src/components/dex/SwapInterface.tsx:188-192 | Picking a "from" token changes only that token. The picker only hands up a token whose address differs from the "to" token's (`TokenDialog.Click`). |
| `SwapInterface.SwapForm.SelectToToken` | src/components/dex/SwapInterface.tsx:224-228 | Picking a "to" token changes only that token. The picker only hands up a token whose address differs from the "from" token's. |
| `SwapInterface.SwapForm.HandleSwap` | src/components/dex/SwapInterface.tsx:78-103 | A refused swap and a failed swap change nothing. A successful swap clears both amounts. No swap is running when the handler returns. |
| `ContractInteraction.IsValidAmount` | src/hooks/useContractInteraction.tsx:163-165 | `isValidAmount` on the texts the model's `parseFloat` reads: a non-empty text with a positive number. So only filter text, and never ".", is valid here; the exponent, sign and prefix forms the source also accepts are listed under "Left out". |
| `ContractInteraction.ValidAmountIsNonZeroDecimal` | src/hooks/useContractInteraction.tsx:163-165 | In the model, `isValidAmount` holds exactly for plain decimal texts with a non-zero digit. |
| `ContractInteraction.Deadline` | src/hooks/useContractInteraction.tsx:160 | The deadline is twenty minutes after the current whole second. |
| `ContractInteraction.Pow10Add` | src/hooks/useContractInteraction.tsx:183 | Powers of ten multiply by adding exponents. |
| `ContractInteraction.RoundedDiv` | src/hooks/useContractInteraction.tsx:183 | The quotient is rounded to the nearest integer, halves up. |
| `ContractInteraction.ParseUnits` | src/hooks/useContractInteraction.tsx:183 | With more fraction digits than `decimals`, the result is the nearest unit. |
| `ContractInteraction.ParseUnitsExact` | src/hooks/useContractInteraction.tsx:183 | With at most `decimals` fraction digits, the result, counted in units of 10^-decimals, is exactly the decimal's value. |
| `ContractInteraction.AmountUnits` | src/hooks/useContractInteraction.tsx:183-184 | With at most 18 fraction digits, the on-chain amount in units of 10^-18 is exactly the parsed number, and a valid amount sends a positive one. |
| `ContractInteraction.PrepareSwap` | src/hooks/useContractInteraction.tsx:153-201 | An invalid amount gives the dummy result. A write exists exactly when both amounts are valid and the library is ready. It carries the 18-decimal amounts, the path [tokenIn, tokenOut], the wallet as recipient and the deadline. Past the gate the flags are the library's own. |
| `ContractInteraction.PrepareAddLiquidity` | src/hooks/useContractInteraction.tsx:204-258 | The same gate over all four amounts, and the `addLiquidity` arguments. Past the gate the success, loading and error flags are the library's own. |
| `ContractInteraction.PrepareRemoveLiquidity` | src/hooks/useContractInteraction.tsx:261-311 | The same gate over the liquidity and both minimums, and the `removeLiquidity` arguments. Past the gate the flags are the library's own. |
| `ContractInteraction.PrepareApproveToken` | src/hooks/useContractInteraction.tsx:372-405 | The same gate over the one amount, and `approve(spender, amount)`. Past the gate the flags are the library's own. |
| `ContractInteraction.PrepareCreatePool` | src/hooks/useContractInteraction.tsx:314-331 | There is no gate. The write exists exactly when the library is ready; it is `createPair(tokenA, tokenB)`, and the library's flags pass through. |
| `ContractInteraction.DummyReportsNothing` | src/hooks/useContractInteraction.tsx:169-175 | The dummy result has no write and reports no success, loading or error. |
| `PoolDetails.MockPoolFigures` | src/pages/PoolDetails.tsx:22-40 | The mock pool reads as reserves 10.5 and 21000, supply 15.75 and balance 2.5. |
| `PoolDetails.ProRataMinimum` | src/pages/PoolDetails.tsx:45-46 | For the whole supply the minimum is 95% of the reserve. With a positive reserve the minimum is positive exactly when the LP amount is. |
| `PoolDetails.MinimumOut` | src/pages/PoolDetails.tsx:45-46 | A NaN amount gives a NaN minimum, and only then. |
| `PoolDetails.MinA` | src/pages/PoolDetails.tsx:45 | `minA` is NaN exactly for a NaN amount, and with a positive reserve it is positive exactly for a positive amount. |
| `PoolDetails.MinB` | src/pages/PoolDetails.tsx:46 | The same for `minB`. |
| `PoolDetails.DisplayedMinimumAgrees` | src/pages/PoolDetails.tsx:203-209 | The minimum shown is written `reserve * lp / supply * 0.95`; it is the same number as the one sent. |
| `PoolDetails.MinimumAtMostShare` | src/pages/PoolDetails.tsx:45-46 | Up to the whole supply, the minimum lies between 0 and 95% of the reserve. |
| `PoolDetails.MinimumMonotone` | src/pages/PoolDetails.tsx:45-46 | More LP tokens never lower the minimum. |
| `PoolDetails.ExchangeRate` | src/pages/PoolDetails.tsx:156 | The rate shown, reserveB / reserveA, times reserve A gives reserve B, and it is positive when both reserves are. A zero reserve A, for which the source shows Infinity or NaN, is excluded by the precondition. |
| `PoolDetails.MinimumsKeepExchangeRate` | src/pages/PoolDetails.tsx:45-46 | For a positive amount, minB / minA equals the exchange rate shown, reserveB / reserveA. Line 156 shows that rate. |
| `PoolDetails.RemovalPrepared` | src/pages/PoolDetails.tsx:54-61 | A removal write is prepared when the library is ready, the amount is valid and both minimums are positive numbers. `RemovalPreparedIffValidAmount` states when that holds. |
| `PoolDetails.RemovalGate` | src/hooks/useContractInteraction.tsx:276 | The gate on the page's arguments: the amount is valid and both minimums are positive numbers. `PageUsesRemoveGate` ties it to `PrepareRemoveLiquidity`. |
| `PoolDetails.PageUsesRemoveGate` | src/pages/PoolDetails.tsx:48-61 | For minimum texts that read back as the minimums, the page's `prepareRemoveLiquidity` call has a write exactly when `RemovalPrepared` holds. The `loading` flag the button reads is the library's past the gate, and false on the dummy. |
| `PoolDetails.RemovalPreparedIffValidAmount` | src/pages/PoolDetails.tsx:54-61 | With positive reserves, a removal write is prepared exactly when the amount is valid and the library is ready. |
| `PoolDetails.RemoveRefusal` | src/pages/PoolDetails.tsx:64-77 | The handler refuses, in order: not connected; empty or at most 0; above the LP balance. A NaN amount fails none of the comparisons. |
| `PoolDetails.RemoveResult` | src/pages/PoolDetails.tsx:63-95 | A refusal ends the run with that reason. Otherwise there is no write, which reports an error; or the write is sent and either succeeds or throws. Each outcome is stated as an if-and-only-if. |
| `PoolDetails.RemovedOnlyWithinBalance` | src/pages/PoolDetails.tsx:64-77 | A completed removal had a connected wallet and a positive amount no larger than the balance. |
| `PoolDetails.LoneDotPassesGuards` | src/pages/PoolDetails.tsx:69-74 | The button is enabled for "."; it passes all three guards and then finds no prepared write. |
| `PoolDetails.RemoveDisabled` | src/pages/PoolDetails.tsx:222 | The button's `disabled` expression, with NaN failing the `<= 0` test. `EnabledPassesFirstGuards` and `LoneDotPassesGuards` state what follows from it. |
| `PoolDetails.EnabledPassesFirstGuards` | src/pages/PoolDetails.tsx:222-224 | When the button is enabled, only the balance guard can still refuse, and the caption is "Remove Liquidity". "Removing Liquidity..." only ever shows on a disabled button. |
| `PoolDetails.TinyWithdrawalHasExponentMinimum` | src/pages/PoolDetails.tsx:45-58 | On the page's pool, the valid amount "0.000001" gives a positive `minA` below 10^-6, where `toString` writes exponent notation. |
| `PoolDetails.ShowsMinimums` | src/pages/PoolDetails.tsx:196 | The minimum panel's condition: a non-empty amount whose number is positive. `ShownMinimumsArePositive` states what it shows. |
| `PoolDetails.ShownMinimumsArePositive` | src/pages/PoolDetails.tsx:196 | The minimum panel shows exactly for valid amounts, and then both minimums are positive. |
| `PoolDetails.RemoveHookCallsAsWritten` | src/hooks/useContractInteraction.tsx:276-302 | As written, the page's call runs the two library hooks only when the gate passes, and none otherwise. |
| `PoolDetails.RenderThrowsAsWritten` | src/pages/PoolDetails.tsx:18-61 | A render throws when it runs a different number of hooks than the first render, whose amount is "". |
| `PoolDetails.ValidAmountRenderThrows` | src/pages/PoolDetails.tsx:18-61 | As written, with positive reserves, a render throws exactly when the amount is valid. |
| `PoolDetails.SentRemovalNeedsThrowingRender` | src/pages/PoolDetails.tsx:63-95 | As written, `Removed` and `RemoveFailed` need an amount whose render throws, so the handler never reaches them. |
| `PoolDetails.TypedAmountRenderThrows` | src/pages/PoolDetails.tsx:177-188 | On the page's pool, typing "1" or pressing MAX makes the next render throw; "." does not. |
| `PoolDetails.RemoveHookCallsIntended` | src/hooks/useContractInteraction.tsx:286-302 | With the gate passed only as the library's `enabled` option, both hooks run on every render. |
| `PoolDetails.IntendedRemovalIsReachable` | src/pages/PoolDetails.tsx:63-95 | With the hooks always run, every render runs as many hooks as the first, and withdrawing 1 LP token from the page's pool ends in `Removed`, or `RemoveFailed` when the write throws. |
| `PoolDetails.RemoveLiquidityForm.constructor` | src/pages/PoolDetails.tsx:18-19 | The page starts with an empty amount and no removal running. |
| `PoolDetails.RemoveLiquidityForm.OnAmountInput` | src/pages/PoolDetails.tsx:177-182 | Input the filter accepts is stored. Any other input is ignored. |
| `PoolDetails.RemoveLiquidityForm.Max` | src/pages/PoolDetails.tsx:188 | MAX sets the amount to exactly the user's LP balance. |
| `PoolDetails.RemoveLiquidityForm.HandleRemoveLiquidity` | src/pages/PoolDetails.tsx:63-95 | The outcome is the handler's result. Only a completed removal clears the amount, and nothing is running afterwards. |
| `CreatePool.PairExists` | src/pages/CreatePool.tsx:29 | The factory's answer, read as a boolean and compared with the zero address. `PairExistsExactlyForRealAddresses` states which answers count. |
| `CreatePool.PairExistsExactlyForRealAddresses` | src/pages/CreatePool.tsx:29 | No answer, "" and the zero address mean no pair. Any other address means a pair. This is the truthiness reading of the test; `ListedAddressesCountAsPairs` and `CreateCalledOnlyWhenAllowed` state what follows from it. |
| `CreatePool.ListedAddressesCountAsPairs` | src/pages/CreatePool.tsx:29 | No listed token address is the zero address. |
| `CreatePool.CreateRefusal` | src/pages/CreatePool.tsx:41-49 | Creation is refused, with the first reason, unless the wallet is connected and the pair does not exist. |
| `CreatePool.CreateResult` | src/pages/CreatePool.tsx:40-66 | With no prepared write the handler reports an error without calling anything. Otherwise the call succeeds or throws. |
| `CreatePool.CreateCalledOnlyWhenAllowed` | src/pages/CreatePool.tsx:41-58 | `createPool` is called exactly when connected, the pair is absent and a write is prepared. |
| `CreatePool.Status` | src/pages/CreatePool.tsx:112-132 | The panel shows checking first, then exists, then ready. |
| `CreatePool.CreateDisabled` | src/pages/CreatePool.tsx:137 | An enabled button means the handler passes both of its guards. |
| `CreatePool.EnabledButtonPassesGuards` | src/pages/CreatePool.tsx:112-139 | A "ready" panel passes the pair guard, and an "exists" panel means the button is disabled. An enabled button shows "Create Pool", and "Creating Pool..." only ever shows on a disabled button. |
| `Buttons.Caption` | src/pages/CreatePool.tsx:139 | The busy caption shows exactly while the page's flag or the library's loading flag is set, and the idle caption otherwise. PoolDetails.tsx line 224 follows the same rule. |
| `CreatePool.CreatePoolForm.constructor` | src/pages/CreatePool.tsx:17-19 | The page starts with the first two tokens and no creation running. The two tokens' addresses differ, and every handler keeps them different. |
| `CreatePool.CreatePoolForm.SelectTokenA` | src/pages/CreatePool.tsx:97-101 | Picking token A changes only token A. The picker only hands up a token whose address differs from token B's. |
| `CreatePool.CreatePoolForm.SelectTokenB` | src/pages/CreatePool.tsx:105-109 | Picking token B changes only token B. The picker only hands up a token whose address differs from token A's. |
| `CreatePool.CreatePoolForm.HandleCreatePool` | src/pages/CreatePool.tsx:40-66 | The outcome is the handler's result for the factory's answer. The tokens are kept, and `isCreating` is false afterwards on every path. |
| `Navbar.SliceIndex` | src/components/layout/Navbar.tsx:38 | `slice` counts a negative index from the end and clamps to the string. |
| `Navbar.Slice` | src/components/layout/Navbar.tsx:38 | `slice` returns the characters from the clamped start up to the clamped end, and nothing when the end is not beyond the start. |
| `Navbar.FormatAddress` | src/components/layout/Navbar.tsx:37-39 | An address of at least 9 characters becomes 12 characters: its first 5, "...", its last 4. Shorter ones get the clamped lengths, and "" gives "...". |
| `Navbar.FormatAddressShowsEnds` | src/components/layout/Navbar.tsx:37-39 | Two long addresses look the same exactly when their first five and last four characters agree. |
| `Navbar.DisplayedAddress` | src/components/layout/Navbar.tsx:90 | A missing address shows "...". |
| `Navbar.ChainLabel` | src/components/layout/Navbar.tsx:96 | "Ethereum" exactly for chain 1. Otherwise "Network " and the id, or "Network null". |
| `Navbar.ChainLabelIsInjective` | src/components/layout/Navbar.tsx:96 | Different chains get different labels. |
| `Navbar.AtMostOneActive` | src/components/layout/Navbar.tsx:41-45 | At most one navigation item is active for any path. Lines 70 and 153 apply the active test. |
| `Navbar.IsActive` | src/components/layout/Navbar.tsx:70 | An item is highlighted when the path is its own. `AtMostOneActive` and `OwnPathActivatesOnlyItself` state what follows from it. |
| `Navbar.OwnPathActivatesOnlyItself` | src/components/layout/Navbar.tsx:70 | An item's own path activates that item and no other. |
| `Navbar.MenuStep` | src/components/layout/Navbar.tsx:32-34 | The button flips the menu. A route change closes it when the path changes. A link click or Close closes it. Lines 137, 157 and 166 are those handlers. |
| `Navbar.ToggleTwiceRestores` | src/components/layout/Navbar.tsx:137 | Pressing the menu button twice restores the menu. |
| `Navbar.OnlyToggleOpens` | src/components/layout/Navbar.tsx:32-34 | No event but the button leaves the menu open, except a route "change" to the current path, which changes nothing. |
| `Navbar.NewRouteCloses` | src/components/layout/Navbar.tsx:32-34 | Navigating to a new path closes the menu. |
| `Navbar.MobileMenu.constructor` | src/components/layout/Navbar.tsx:18 | The menu starts closed. |
| `Navbar.MobileMenu.ToggleMenu` | src/components/layout/Navbar.tsx:137 | The new state is the button's step. |
| `Navbar.MobileMenu.OnLocationChange` | src/components/layout/Navbar.tsx:32-34 | The new state is the route effect's step. |
| `Navbar.MobileMenu.ClickMobileLink` | src/components/layout/Navbar.tsx:157 | The menu closes and the path becomes the item's. |
| `Navbar.MobileMenu.CloseMenu` | src/components/layout/Navbar.tsx:166 | The menu closes. |
| `DarkMode.GetItem` | src/hooks/useDarkMode.tsx:9 | `getItem` gives the stored string, or null when the key is absent. |
| `DarkMode.InitialTheme` | src/hooks/useDarkMode.tsx:7-14 | A non-empty saved theme wins. Otherwise the system preference picks dark or light. The result is never "". |
| `DarkMode.Toggled` | src/hooks/useDarkMode.tsx:24-26 | Light becomes dark, anything else becomes light, and the theme always changes. |
| `DarkMode.ToggleTwiceRestores` | src/hooks/useDarkMode.tsx:24-26 | On light and dark, toggling twice is the identity. |
| `DarkMode.AppliedClasses` | src/hooks/useDarkMode.tsx:19-20 | The theme is in the class set and the other theme is not. Every other class is kept, and nothing else is added. |
| `DarkMode.ApplyIsIdempotent` | src/hooks/useDarkMode.tsx:19-20 | Applying a theme twice is the same as applying it once. |
| `DarkMode.ApplyForgetsPreviousTheme` | src/hooks/useDarkMode.tsx:19-20 | The class set after applying a theme does not depend on the theme applied before. |
| `DarkMode.SavedThemeIsRestored` | src/hooks/useDarkMode.tsx:9-21 | The theme the effect saves is the initial theme of the next load, whatever the system preference. |
| `DarkMode.ThemeController.constructor` | src/hooks/useDarkMode.tsx:7-22 | On mount the initial theme is chosen and the effect runs once. |
| `DarkMode.ThemeController.ApplyTheme` | src/hooks/useDarkMode.tsx:16-22 | The effect rewrites the theme class and saves the theme under "theme". |
| `DarkMode.ThemeController.ToggleTheme` | src/hooks/useDarkMode.tsx:24-26 | The theme toggles and the effect runs for the new one. |
| `DarkMode.ThemeController.SetTheme` | src/hooks/useDarkMode.tsx:28 | `setTheme` stores the theme. The effect runs only if the theme changed. |

## Left out

### Out of the modelled code

- **Pricing, fees, price impact and slippage.** The code has none. The `slippage` state of
  the swap form is never applied to an amount, and the price impact is the literal
  "0.05%".
- **The wallet library and the chain.** The model does not include the wagmi/viem hooks
  (`usePrepareContractWrite`, `useContractWrite`, `useContractRead`), the ABI tables, or
  what the router and factory contracts do. A prepared write's readiness and its flags are
  inputs. The `useGetPair`, `getReserves`, `balanceOf` and `allPairs` reads are left out.
  The only read used is the factory's answer on the create page, as a parameter.
- **React's hook rules.** `prepareSwap`, `prepareAddLiquidity`, `prepareRemoveLiquidity`
  and `prepareApproveToken` return early, before the library's two hooks, when an amount
  is invalid; `prepareCreatePool` has no gate and always runs them. Only the pool page
  calls a gated one. As written it throws on its first render with a valid amount (see
  "## Findings"), so `PoolDetails.RemoveResult` and
  `PoolDetails.RemoveLiquidityForm.HandleRemoveLiquidity` reach `Removed` and
  `RemoveFailed` only in the intended behaviour, which is the one the rest of the model
  describes. Apart from those `PoolDetails` members, no member counts hooks.
- **Other files.** `src/hooks/useWallet.tsx` (connecting, network switching) and
  `src/providers/Web3Provider.tsx` are not part of this model. Neither are the chart page,
  the scroll listener and the rendering-only pages, and src/App.tsx's own theme bootstrap.
- **The selected-row highlight.** The token picker's `isSelected` test
  (src/components/dex/TokenList.tsx line 90) only styles a row, so it is not modelled.

### JavaScript behaviour

- **Floating point.** Numbers are exact decimals and reals. The model leaves out binary
  rounding in `* 2`, `/ 2` and the minimums, `toString`'s exponent form for very large or
  small numbers, and `toFixed(6)` in the minimum panel.
- **parseFloat and Number on other text.** They are modelled only on the strings the
  amount filter accepts. Every such string is either a decimal or NaN. On any other
  string the model's `ParseNumber` answers NaN, whereas `parseFloat` reads a sign, an
  exponent or a numeric prefix ("-5", "1e3", "1abc"). Typed input never has these
  forms. The one text outside the filter that the code parses is a minimum written by
  `toString`; see `PoolDetails.RemovalPrepared` below.
- **Case conversion.** `toLowerCase`/`toUpperCase` are modelled on ASCII letters only.
- **Asynchrony.** The model leaves out the swap's two-second `setTimeout`, toasts, console
  logging and React's batching of updates. An awaited call is one step whose failure is
  the input `fails`.

### Weaker or approximate contracts

- `ContractInteraction.IsValidAmount`: `parseFloat` reads a numeric prefix, so the source
  also accepts "6.3e-7", "1e3", "1abc", " 5", "+2" and "Infinity". The model rejects
  them. The pool page can pass one of them: `minA.toString()` is exponent text for a
  minimum below 10^-6 (`PoolDetails.TinyWithdrawalHasExponentMinimum`).
  `ContractInteraction.PrepareRemoveLiquidity` then returns the dummy result, while the
  source gets past its gate and prepares the write.
- `PoolDetails.PageUsesRemoveGate`: it holds only for minimum texts that the model reads
  back as the minimums. That leaves out exponent text.

- `ContractInteraction.ParseUnits`: viem's `parseUnits` is modelled as scaling by
  10^decimals, rounding halves up when the text has more fraction digits. Only that
  nearest-unit bound is stated; the exact scaling is stated in `ParseUnitsExact`.
- `PoolDetails.RemovalPrepared`: the page passes `minA.toString()` and `minB.toString()` to
  `isValidAmount`. This is modelled as "the minimum is a positive number", because
  `toString` followed by `parseFloat` gives back the same number, and NaN gives "NaN",
  which is not valid. A minimum below 10^-6 is written in exponent notation ("6.3e-7").
  An LP amount below about 1.6 * 10^-6 of the page's pool gives one, as
  `TinyWithdrawalHasExponentMinimum` shows. `isValidAmount` accepts that text, and the
  text then reaches `parseUnits(…, 18)`, which expects plain decimal text. The model
  treats such a minimum like any positive one. It does not say what `parseUnits` does
  with exponent text, and it does not compute the 18-decimal amount sent for it.
- `PoolDetails.RemoveLiquidityForm.HandleRemoveLiquidity`: the minimums' 18-decimal
  amounts in the removal call are not computed. They are the `toString` of a
  floating-point product.
- `Navbar.ChainLabel`: a chain id is a natural number or null. JavaScript would print
  other numbers (fractions, negatives) in its own way.
- `DarkMode.ThemeController.ApplyTheme`: `classList.add` throws for a stored theme that
  contains whitespace. The model assumes the stored theme is a single class name. The
  order of the class list is not modelled (it is a set).

## Findings

| source | as written | input that shows it | evidently intended | confidence | as-written member | corrected member |
|---|---|---|---|---|---|---|
| src/hooks/useContractInteraction.tsx:276-302, src/pages/PoolDetails.tsx:18, 48-61 | `prepareRemoveLiquidity` returns before `usePrepareContractWrite` and `useContractWrite` for an invalid amount. The page's first render has the amount "", so each later render with a valid amount runs two more hooks than the first, and React throws. | typing "1", or pressing MAX ("2.5"), on the pool page | run both hooks on every render and let the `enabled` option, which the code already passes, carry the gate | high, by reading; not executed | `PoolDetails.RemoveHookCallsAsWritten`, `PoolDetails.ValidAmountRenderThrows`, `PoolDetails.TypedAmountRenderThrows`, `PoolDetails.SentRemovalNeedsThrowingRender` | `PoolDetails.RemoveHookCallsIntended`, `PoolDetails.IntendedRemovalIsReachable` |

/** The create-pool page: whether the factory already knows a pair for the two chosen
    tokens, the create handler with its guards, the status panel and the button. */
module CreatePool {
  import opened JsValues
  import opened Tokens
  import opened Buttons

  /** The factory's answer for a pair that does not exist. */
  const ZERO_ADDRESS: string := "0x0000000000000000000000000000000000000000"

  /** `existingPair && existingPair !== ZERO_ADDRESS`, read as a boolean: the factory's
      answer is present, non-empty and not the zero address. */
  predicate PairExists(existingPair: Option<string>) {
    existingPair.Some? && existingPair.value != "" && existingPair.value != ZERO_ADDRESS
  }

  /** The factory's "absent" answers never count as an existing pair, and any other
      address does. */
  lemma PairExistsExactlyForRealAddresses(existingPair: Option<string>)
    ensures existingPair == None || existingPair == Some("") || existingPair == Some(ZERO_ADDRESS) ==> !PairExists(existingPair)
    ensures existingPair.Some? && existingPair.value !in {"", ZERO_ADDRESS} ==> PairExists(existingPair)
  {
  }

  /** None of the listed token addresses is the zero address, so the factory returning
      one of them counts as an existing pair. */
  lemma ListedAddressesCountAsPairs()
    ensures forall i | 0 <= i < |TOKENS| :: PairExists(Some(TOKENS[i].address))
  {
    forall i | 0 <= i < |TOKENS| ensures PairExists(Some(TOKENS[i].address)) {
      assert TOKENS[i].address[2] != '0' || TOKENS[i].address[3] != '0';
    }
  }

  datatype CreateOutcome = RefusedNotConnected | RefusedPairExists | Created | Unprepared | CreateFailed

  /** The early returns of `handleCreatePool`, in order; `None` when it goes ahead. */
  function CreateRefusal(connected: bool, pairExists: bool): (r: Option<CreateOutcome>)
    ensures r == None <==> connected && !pairExists
    ensures !connected ==> r == Some(RefusedNotConnected)
    ensures connected && pairExists ==> r == Some(RefusedPairExists)
  {
    if !connected then Some(RefusedNotConnected)
    else if pairExists then Some(RefusedPairExists)
    else None
  }

  /** What one run of `handleCreatePool` ends in. `createReady` says whether a
      `createPool` write is prepared, `fails` whether the awaited write threw. */
  function CreateResult(connected: bool, pairExists: bool, createReady: bool, fails: bool): (r: CreateOutcome)
    ensures CreateRefusal(connected, pairExists).Some? ==> r == CreateRefusal(connected, pairExists).value
    ensures r == Unprepared <==> CreateRefusal(connected, pairExists) == None && !createReady
    ensures r == Created <==> CreateRefusal(connected, pairExists) == None && createReady && !fails
    ensures r == CreateFailed <==> CreateRefusal(connected, pairExists) == None && createReady && fails
  {
    var refusal := CreateRefusal(connected, pairExists);
    if refusal.Some? then refusal.value
    else if !createReady then Unprepared
    else if fails then CreateFailed
    else Created
  }

  /** `createPool` is called (the outcome is `Created` or `CreateFailed`) only for a
      connected wallet, a pair the factory does not know and a prepared write. */
  lemma CreateCalledOnlyWhenAllowed(connected: bool, pairExists: bool, createReady: bool, fails: bool)
    ensures CreateResult(connected, pairExists, createReady, fails) in {Created, CreateFailed} <==>
      connected && !pairExists && createReady
  {
  }

  datatype StatusPanel = CheckingPanel | ExistsPanel | ReadyPanel

  /** The panel under the pickers, in priority order: checking, exists, ready. */
  function Status(isCheckingPair: bool, pairExists: bool): (r: StatusPanel)
    ensures isCheckingPair ==> r == CheckingPanel
    ensures r == ExistsPanel <==> !isCheckingPair && pairExists
    ensures r == ReadyPanel <==> !isCheckingPair && !pairExists
  {
    if isCheckingPair then CheckingPanel
    else if pairExists then ExistsPanel
    else ReadyPanel
  }

  /** The create button's `disabled` expression: an enabled button means the handler
      passes both of its guards. */
  predicate CreateDisabled(connected: bool, isCreating: bool, loading: bool, pairExists: bool)
    ensures !CreateDisabled(connected, isCreating, loading, pairExists) ==> CreateRefusal(connected, pairExists) == None
  {
    !connected || isCreating || loading || pairExists
  }

  const CREATING_CAPTION: string := "Creating Pool..."
  const CREATE_CAPTION: string := "Create Pool"

  /** A "ready" panel means the pair guard passes, and an "exists" panel comes with a
      disabled button. An enabled button shows the idle caption, and the busy caption
      only ever shows on a disabled button. */
  lemma EnabledButtonPassesGuards(connected: bool, isCreating: bool, loading: bool, pairExists: bool, isCheckingPair: bool)
    ensures !CreateDisabled(connected, isCreating, loading, pairExists) ==>
      Caption(isCreating, loading, CREATING_CAPTION, CREATE_CAPTION) == CREATE_CAPTION
    ensures Caption(isCreating, loading, CREATING_CAPTION, CREATE_CAPTION) == CREATING_CAPTION ==>
      CreateDisabled(connected, isCreating, loading, pairExists)
    ensures Status(isCheckingPair, pairExists) == ReadyPanel ==> CreateRefusal(connected, pairExists) != Some(RefusedPairExists)
    ensures Status(isCheckingPair, pairExists) == ExistsPanel ==> CreateDisabled(connected, isCreating, loading, pairExists)
  {
  }

  class CreatePoolForm {
    var tokenA: Token
    var tokenB: Token
    var isCreating: bool

    /** Between handlers no creation is under way, and the two tokens have different
        addresses (each picker disables the other side's token). */
    ghost predicate Valid()
      reads this
    {
      !isCreating && tokenA.address != tokenB.address
    }

    constructor ()
      ensures Valid()
      ensures tokenA == TOKENS[0] && tokenB == TOKENS[1]
    {
      ListedAddressesAreDistinct();
      tokenA, tokenB := TOKENS[0], TOKENS[1];
      isCreating := false;
    }

    /** `onSelect` of the first picker. */
    method SelectTokenA(t: Token)
      requires Valid()
      requires t.address != tokenB.address
      modifies this
      ensures Valid()
      ensures tokenA == t && tokenB == old(tokenB)
    {
      tokenA := t;
    }

    /** `onSelect` of the second picker. */
    method SelectTokenB(t: Token)
      requires Valid()
      requires t.address != tokenA.address
      modifies this
      ensures Valid()
      ensures tokenB == t && tokenA == old(tokenA)
    {
      tokenB := t;
    }

    /** `handleCreatePool` as one step. `existingPair` is what the factory answered for
        the two chosen tokens. The tokens never change, and `isCreating` is false again
        when the handler ends on every path. */
    method HandleCreatePool(connected: bool, existingPair: Option<string>, createReady: bool, fails: bool)
      returns (outcome: CreateOutcome)
      requires Valid()
      modifies this
      ensures Valid()
      ensures outcome == CreateResult(connected, PairExists(existingPair), createReady, fails)
      ensures tokenA == old(tokenA) && tokenB == old(tokenB)
    {
      var refusal := CreateRefusal(connected, PairExists(existingPair));
      if refusal.Some? {
        return refusal.value;
      }
      isCreating := true;
      if createReady {
        if fails {
          outcome := CreateFailed;
        } else {
          outcome := Created;
        }
      } else {
        outcome := Unprepared;
      }
      isCreating := false;
    }
  }
}

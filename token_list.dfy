/** The token picker dialog: a search box that filters the token table by symbol, name
    or address, ignoring case, and a list in which the token chosen on the other side of
    the form cannot be picked. */
module TokenList {
  import opened JsValues
  import opened Tokens

  // ---------------------------------------------------------------------------
  // Case folding and substring search (ASCII)

  function LowerChar(c: char): char {
    if 'A' <= c <= 'Z' then (c as int + 32) as char else c
  }

  function UpperChar(c: char): char {
    if 'a' <= c <= 'z' then (c as int - 32) as char else c
  }

  /** `s.toLowerCase()` on ASCII text. */
  function Lower(s: string): (r: string)
    ensures |r| == |s|
  {
    seq(|s|, i requires 0 <= i < |s| => LowerChar(s[i]))
  }

  /** `s.toUpperCase()` on ASCII text. */
  function Upper(s: string): (r: string)
    ensures |r| == |s|
  {
    seq(|s|, i requires 0 <= i < |s| => UpperChar(s[i]))
  }

  /** `hay.includes(needle)`: `needle` occurs in `hay` at some position. */
  predicate Includes(hay: string, needle: string)
    decreases |hay|
  {
    needle <= hay || (hay != [] && Includes(hay[1..], needle))
  }

  /** The filter's test for one token (the predicate passed to `TOKENS.filter`): the
      lower-cased query occurs in the lower-cased symbol, name or address. The empty
      query occurs in every text, so it matches every token. */
  predicate MatchesQuery(t: Token, query: string)
    ensures query == "" ==> MatchesQuery(t, query)
  {
    var q := Lower(query);
    Includes(Lower(t.symbol), q) || Includes(Lower(t.name), q) || Includes(Lower(t.address), q)
  }

  /** `a` is `b` with some elements left out, in the same order. */
  predicate IsSubsequence(a: seq<Token>, b: seq<Token>)
    decreases |b|
  {
    a == [] || (b != [] && ((a[0] == b[0] && IsSubsequence(a[1..], b[1..])) || IsSubsequence(a, b[1..])))
  }

  // ---------------------------------------------------------------------------
  // The filter

  /** `tokens.filter(t => MatchesQuery(t, query))`: the tokens that match, in list order. */
  function SearchFilter(tokens: seq<Token>, query: string): (r: seq<Token>)
    ensures IsSubsequence(r, tokens)
    ensures forall t | t in r :: MatchesQuery(t, query)
    ensures forall t | t in tokens && MatchesQuery(t, query) :: t in r
    ensures forall t :: multiset(r)[t] == if MatchesQuery(t, query) then multiset(tokens)[t] else 0
  {
    if tokens == [] then []
    else
      var rest := SearchFilter(tokens[1..], query);
      assert tokens == [tokens[0]] + tokens[1..];
      if MatchesQuery(tokens[0], query) then
        assert ([tokens[0]] + rest)[1..] == rest;
        [tokens[0]] + rest
      else
        rest
  }

  /** What the search effect stores in `filteredTokens`: the whole table for an empty
      query, the filtered table otherwise. The special case changes nothing: it is the
      filter's result for every query. */
  function VisibleTokens(tokens: seq<Token>, query: string): (r: seq<Token>)
    ensures r == SearchFilter(tokens, query)
  {
    if query != "" then SearchFilter(tokens, query) else EmptyQueryKeepsAll(tokens); tokens
  }

  lemma {:induction false} EmptyNeedleIsIncluded(hay: string)
    ensures Includes(hay, "")
  {
  }

  /** Filtering with the empty string keeps every token, so the effect's special case
      for an empty query agrees with the filter. */
  lemma {:induction false} EmptyQueryKeepsAll(tokens: seq<Token>)
    ensures SearchFilter(tokens, "") == tokens
  {
    if tokens != [] {
      EmptyQueryKeepsAll(tokens[1..]);
      assert Lower("") == "";
      EmptyNeedleIsIncluded(Lower(tokens[0].symbol));
      assert [tokens[0]] + tokens[1..] == tokens;
    }
  }

  lemma LowerOfUpper(s: string)
    ensures Lower(Upper(s)) == Lower(s)
  {
    assert forall i | 0 <= i < |s| :: Lower(Upper(s))[i] == Lower(s)[i];
  }

  /** The search ignores case: a query and its upper-cased form show the same tokens. */
  lemma {:induction false} SearchIgnoresCase(tokens: seq<Token>, query: string)
    ensures SearchFilter(tokens, Upper(query)) == SearchFilter(tokens, query)
    ensures VisibleTokens(tokens, Upper(query)) == VisibleTokens(tokens, query)
  {
    LowerOfUpper(query);
    SameMatchesSameFilter(tokens, Upper(query), query);
  }

  lemma {:induction false} SameMatchesSameFilter(tokens: seq<Token>, q1: string, q2: string)
    requires Lower(q1) == Lower(q2)
    ensures SearchFilter(tokens, q1) == SearchFilter(tokens, q2)
  {
    if tokens != [] {
      SameMatchesSameFilter(tokens[1..], q1, q2);
    }
  }

  // ---------------------------------------------------------------------------
  // Row states

  /** `otherToken?.address === token.address`: the row is greyed out and ignores clicks. */
  predicate IsDisabled(other: Option<Token>, t: Token) {
    other.Some? && other.value.address == t.address
  }

  /** In the listed table, at most one row is ever disabled. */
  lemma AtMostOneRowDisabled(other: Option<Token>)
    ensures forall i, j | 0 <= i < |TOKENS| && 0 <= j < |TOKENS| ::
      IsDisabled(other, TOKENS[i]) && IsDisabled(other, TOKENS[j]) ==> i == j
  {
    ListedAddressesAreDistinct();
  }

  // ---------------------------------------------------------------------------
  // The dialog's state

  class TokenDialog {
    const tokens: seq<Token>
    var open: bool
    var searchQuery: string
    var filteredTokens: seq<Token>

    /** The search effect has run for the current query. */
    ghost predicate Valid()
      reads this
    {
      filteredTokens == VisibleTokens(tokens, searchQuery)
    }

    constructor (tokens: seq<Token>)
      ensures Valid()
      ensures this.tokens == tokens && !open && searchQuery == "" && filteredTokens == tokens
    {
      this.tokens := tokens;
      open := false;
      searchQuery := "";
      filteredTokens := tokens;
    }

    /** `onOpenChange`: the dialog is opened or dismissed. */
    method SetOpen(value: bool)
      requires Valid()
      modifies this
      ensures Valid()
      ensures open == value && searchQuery == old(searchQuery) && filteredTokens == old(filteredTokens)
    {
      open := value;
    }

    /** Typing into the search box, followed by the search effect. */
    method OnSearchChange(query: string)
      requires Valid()
      modifies this
      ensures Valid()
      ensures searchQuery == query && open == old(open)
      ensures filteredTokens == VisibleTokens(tokens, query)
    {
      searchQuery := query;
      if query != "" {
        filteredTokens := SearchFilter(tokens, query);
      } else {
        filteredTokens := tokens;
      }
    }

    /** A click on a row. A disabled row does nothing; any other row is handed to
        `onSelect` (returned here), closes the dialog and clears the search, after
        which the effect shows the whole table again. */
    method Click(token: Token, otherToken: Option<Token>) returns (picked: Option<Token>)
      requires Valid()
      modifies this
      ensures Valid()
      ensures IsDisabled(otherToken, token) ==>
        picked == None && open == old(open) && searchQuery == old(searchQuery) && filteredTokens == old(filteredTokens)
      ensures !IsDisabled(otherToken, token) ==>
        picked == Some(token) && !open && searchQuery == "" && filteredTokens == tokens
      ensures picked.Some? ==> !IsDisabled(otherToken, picked.value)
    {
      if IsDisabled(otherToken, token) {
        return None;
      }
      picked := Some(token);
      open := false;
      OnSearchChange("");
    }
  }
}

/** The navigation bar: the abbreviated wallet address, the network label, the active
    navigation item and the open/closed state of the mobile menu. */
module Navbar {
  import opened JsValues
  import opened DecimalText

  // ---------------------------------------------------------------------------
  // Address and network

  /** The index `String.prototype.slice` starts or ends at for the argument `k`: a
      negative `k` counts from the end, and the result is clamped to `0..|s|`. */
  function SliceIndex(len: nat, k: int): (i: nat)
    ensures i <= len
    ensures k >= 0 ==> i == if k <= len then k else len
    ensures k < 0 ==> i == if len + k >= 0 then len + k else 0
  {
    if k < 0 then (if len + k >= 0 then len + k else 0)
    else if k <= len then k else len
  }

  /** `s.slice(start, end)`: the characters from the first index up to the second, and
      nothing when the second does not lie beyond the first. */
  function Slice(s: string, start: int, end: int): (r: string)
    ensures var i, j := SliceIndex(|s|, start), SliceIndex(|s|, end);
      |r| == (if i < j then j - i else 0) && forall k | 0 <= k < |r| :: r[k] == s[i + k]
  {
    var i, j := SliceIndex(|s|, start), SliceIndex(|s|, end);
    if i < j then s[i..j] else ""
  }

  /** `` `${address.slice(0, 5)}...${address.slice(-4)}` ``. */
  function FormatAddress(address: string): (r: string)
    ensures |address| >= 9 ==>
      |r| == 12 && r[..5] == address[..5] && r[5..8] == "..." && r[8..] == address[|address| - 4..]
    ensures |address| < 9 ==> |r| == (if |address| < 5 then |address| else 5) + 3 + (if |address| < 4 then |address| else 4)
    ensures address == "" ==> r == "..."
  {
    Slice(address, 0, 5) + "..." + Slice(address, -4, |address|)
  }

  /** An abbreviated address shows the address's first five and last four characters
      and nothing else of it: two long addresses agreeing there look the same. */
  lemma FormatAddressShowsEnds(a: string, b: string)
    requires |a| >= 9 && |b| >= 9
    ensures FormatAddress(a) == FormatAddress(b) <==> a[..5] == b[..5] && a[|a| - 4..] == b[|b| - 4..]
  {
    var fa, fb := FormatAddress(a), FormatAddress(b);
    if a[..5] == b[..5] && a[|a| - 4..] == b[|b| - 4..] {
      assert fa == fa[..5] + fa[5..8] + fa[8..];
      assert fb == fb[..5] + fb[5..8] + fb[8..];
    }
  }

  /** `formatAddress(wallet.address || "")`. */
  function DisplayedAddress(address: Option<string>): (r: string)
    ensures address.None? ==> r == "..."
    ensures address.Some? ==> r == FormatAddress(address.value)
  {
    FormatAddress(if address.Some? then address.value else "")
  }

  /** `wallet.chainId === 1 ? "Ethereum" : "Network " + wallet.chainId`, with the chain
      id an integer or `null`. */
  function ChainLabel(chainId: Option<nat>): (r: string)
    ensures r == "Ethereum" <==> chainId == Some(1)
    ensures chainId.Some? && chainId.value != 1 ==> r == "Network " + NatDigits(chainId.value)
    ensures chainId.None? ==> r == "Network null"
  {
    if chainId == Some(1) then "Ethereum"
    else if chainId.Some? then "Network " + NatDigits(chainId.value)
    else "Network null"
  }

  /** Different chains get different labels. */
  lemma ChainLabelIsInjective(a: Option<nat>, b: Option<nat>)
    ensures ChainLabel(a) == ChainLabel(b) <==> a == b
  {
    var la, lb := ChainLabel(a), ChainLabel(b);
    if a != b && a != Some(1) && b != Some(1) {
      if a.Some? && b.Some? {
        assert la[8..] == NatDigits(a.value) && lb[8..] == NatDigits(b.value);
        assert DigitsValue(la[8..]) != DigitsValue(lb[8..]);
      } else if a.Some? {
        assert IsDigit(la[8]) && lb[8] == 'n';
      } else {
        assert IsDigit(lb[8]) && la[8] == 'n';
      }
    }
  }

  // ---------------------------------------------------------------------------
  // Navigation items

  datatype NavItem = NavItem(name: string, path: string)

  const NAV_ITEMS: seq<NavItem> := [NavItem("Swap", "/swap"), NavItem("Pool", "/pool"), NavItem("Charts", "/charts")]

  /** `location.pathname === item.path`: the item is highlighted. */
  predicate IsActive(pathname: string, item: NavItem) {
    pathname == item.path
  }

  /** At most one navigation item is highlighted, whatever the path. */
  lemma AtMostOneActive(pathname: string)
    ensures forall i, j | 0 <= i < |NAV_ITEMS| && 0 <= j < |NAV_ITEMS| ::
      IsActive(pathname, NAV_ITEMS[i]) && IsActive(pathname, NAV_ITEMS[j]) ==> i == j
  {
    assert NAV_ITEMS[0].path[1] == 's' && NAV_ITEMS[1].path[1] == 'p' && NAV_ITEMS[2].path[1] == 'c';
  }

  /** Each item's own path highlights exactly that item. */
  lemma OwnPathActivatesOnlyItself(i: nat)
    requires i < |NAV_ITEMS|
    ensures forall j | 0 <= j < |NAV_ITEMS| :: IsActive(NAV_ITEMS[i].path, NAV_ITEMS[j]) <==> i == j
  {
    AtMostOneActive(NAV_ITEMS[i].path);
  }

  // ---------------------------------------------------------------------------
  // The mobile menu

  datatype MenuEvent = ToggleButton | RouteChange(path: string) | LinkClick(item: NavItem) | CloseButton

  datatype MenuState = MenuState(isMenuOpen: bool, pathname: string)

  /** One event's effect on the menu. The route effect runs only when the path changes;
      a link click closes the menu and then navigates to the item's path. */
  function MenuStep(s: MenuState, e: MenuEvent): (r: MenuState)
    ensures e.ToggleButton? ==> r == s.(isMenuOpen := !s.isMenuOpen)
    ensures e.RouteChange? ==> r.pathname == e.path && (r.isMenuOpen <==> s.isMenuOpen && e.path == s.pathname)
    ensures e.LinkClick? ==> r == MenuState(false, e.item.path)
    ensures e.CloseButton? ==> r == s.(isMenuOpen := false)
  {
    match e
    case ToggleButton => s.(isMenuOpen := !s.isMenuOpen)
    case RouteChange(path) => if path != s.pathname then MenuState(false, path) else s
    case LinkClick(item) => MenuState(false, item.path)
    case CloseButton => s.(isMenuOpen := false)
  }

  /** Pressing the menu button twice leaves the menu as it was. */
  lemma ToggleTwiceRestores(s: MenuState)
    ensures MenuStep(MenuStep(s, ToggleButton), ToggleButton) == s
  {
  }

  /** Every event but the menu button leaves the menu closed, unless it is a route
      "change" to the path already shown, which changes nothing. */
  lemma OnlyToggleOpens(s: MenuState, e: MenuEvent)
    requires !e.ToggleButton?
    ensures !MenuStep(s, e).isMenuOpen || (e == RouteChange(s.pathname) && MenuStep(s, e) == s)
  {
  }

  /** Navigating to a new page always closes the menu. */
  lemma NewRouteCloses(s: MenuState, path: string)
    requires path != s.pathname
    ensures !MenuStep(s, RouteChange(path)).isMenuOpen
  {
  }

  class MobileMenu {
    var isMenuOpen: bool
    var pathname: string

    function State(): MenuState
      reads this
    {
      MenuState(isMenuOpen, pathname)
    }

    /** Mounting runs the route effect once: the menu starts closed. */
    constructor (pathname: string)
      ensures State() == MenuState(false, pathname)
    {
      this.pathname := pathname;
      isMenuOpen := false;
    }

    /** The menu button: `setIsMenuOpen(!isMenuOpen)`. */
    method ToggleMenu()
      modifies this
      ensures State() == MenuStep(old(State()), ToggleButton)
    {
      isMenuOpen := !isMenuOpen;
    }

    /** The router reports `path`; the effect closes the menu when the path changed. */
    method OnLocationChange(path: string)
      modifies this
      ensures State() == MenuStep(old(State()), RouteChange(path))
    {
      if path != pathname {
        isMenuOpen := false;
        pathname := path;
      }
    }

    /** A link in the mobile menu: closes the menu, then the router moves to its path. */
    method ClickMobileLink(item: NavItem)
      modifies this
      ensures State() == MenuStep(old(State()), LinkClick(item))
    {
      isMenuOpen := false;
      OnLocationChange(item.path);
    }

    /** The "Close Menu" button. */
    method CloseMenu()
      modifies this
      ensures State() == MenuStep(old(State()), CloseButton)
    {
      isMenuOpen := false;
    }
  }
}

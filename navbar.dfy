/**
 * The navigation bar: the menu groups built from the navigation routes, the
 * highlight rules for group buttons and links, and the state machine over
 * `isOpen`, `scrolled` and the single `openDropdown` slot shared by the
 * desktop dropdowns and the mobile accordions.
 */
module Navbar {
  import opened Wrappers
  import opened Lists
  import opened App

  /** The keys of `menuGroups`, in the order `Object.entries` lists them. */
  datatype GroupKey = Main | Offering | Participate | Resources | Actions

  const MenuKeys: seq<GroupKey> := [Main, Offering, Participate, Resources, Actions]

  /** The key as a string, the value a desktop button stores in `openDropdown`. */
  function KeyName(k: GroupKey): string {
    match k
    case Main => "main"
    case Offering => "offering"
    case Participate => "participate"
    case Resources => "resources"
    case Actions => "actions"
  }

  /** The value a mobile accordion header stores in `openDropdown`. */
  function MobileKey(k: GroupKey): string {
    "mobile-" + KeyName(k)
  }

  /** The fixed path set of each group. */
  function GroupPaths(k: GroupKey): seq<string> {
    match k
    case Main => ["/", "/manifest"]
    case Offering => ["/loesungen", "/fuer-wen"]
    case Participate => ["/partner-werden", "/deine-story", "/name-voting"]
    case Resources => ["/blog", "/ideen", "/ueber-uns"]
    case Actions => ["/warteliste", "/kontakt"]
  }

  /** A group's items: the routes whose path is in the group's set, in the order of `routes`. */
  function GroupItems(routes: seq<Route>, k: GroupKey): seq<Route> {
    Filter(routes, (r: Route) => r.path in GroupPaths(k))
  }

  /** The keys that get a desktop dropdown and a mobile accordion: all but `actions`. */
  function PanelKeys(): (r: seq<GroupKey>)
    ensures r == [Main, Offering, Participate, Resources]
    ensures Actions !in r
  {
    var p := (k: GroupKey) => k != Actions;
    assert MenuKeys == MenuKeys[..4] + [Actions];
    FilterConcat(MenuKeys[..4], [Actions], p);
    FilterAll(MenuKeys[..4], p);
    FilterNone([Actions], p);
    Filter(MenuKeys, p)
  }

  /** A route is in a group's items exactly when it is one of the routes and its path is in the set. */
  lemma GroupItemsMembers(routes: seq<Route>, k: GroupKey, r: Route)
    ensures r in GroupItems(routes, k) <==> r in routes && r.path in GroupPaths(k)
  {
    FilterMembers(routes, (x: Route) => x.path in GroupPaths(k));
  }

  /** The five path sets are pairwise disjoint. */
  lemma GroupPathsDisjoint(k1: GroupKey, k2: GroupKey, path: string)
    requires path in GroupPaths(k1) && path in GroupPaths(k2)
    ensures k1 == k2
  {
  }

  /** So a route appears in the items of at most one group. */
  lemma AtMostOneGroup(routes: seq<Route>, r: Route, k1: GroupKey, k2: GroupKey)
    requires r in GroupItems(routes, k1) && r in GroupItems(routes, k2)
    ensures k1 == k2
  {
    GroupItemsMembers(routes, k1, r);
    GroupItemsMembers(routes, k2, r);
    GroupPathsDisjoint(k1, k2, r.path);
  }

  /**
   * "/senioren" is in none of the path sets, so whatever routes the bar is
   * given, no group lists it; the registry does pass it as a navigation route.
   */
  lemma SeniorsNeverListed(routes: seq<Route>, k: GroupKey)
    ensures forall r :: r in GroupItems(routes, k) ==> r.path != "/senioren"
  {
    forall r | r in GroupItems(routes, k)
      ensures r.path != "/senioren"
    {
      GroupItemsMembers(routes, k, r);
    }
  }

  /** The grouping ignores `navSection`: "/manifest" and "/ueber-uns" share a section but not a group. */
  lemma GroupingIgnoresSection()
    ensures Registry[1].navSection == Registry[2].navSection
    ensures "/manifest" in GroupPaths(Main) && "/ueber-uns" in GroupPaths(Resources)
  {
  }

  /**
   * The color of a desktop group button: whether it is highlighted for the
   * slot `openDropdown` and the current path.
   */
  function ButtonHighlighted(openDropdown: Option<string>, pathname: string, k: GroupKey): (r: bool)
    ensures r <==>
      || openDropdown == Some(KeyName(k))
      || (k == Main && pathname == "/")
      || (k in [Offering, Participate, Resources] && pathname in GroupPaths(k))
  {
    if openDropdown == Some(KeyName(k)) then true
    else if pathname == "/" && k == Main then true
    else
      (|| (k == Offering && pathname in ["/loesungen", "/fuer-wen"])
       || (k == Participate && pathname in ["/partner-werden", "/deine-story", "/name-voting"])
       || (k == Resources && pathname in ["/blog", "/ideen", "/ueber-uns"]))
  }

  /** "/manifest" is in the main group yet does not highlight its button when nothing is open. */
  lemma ManifestDoesNotHighlightMain()
    ensures "/manifest" in GroupPaths(Main)
    ensures !ButtonHighlighted(None, "/manifest", Main)
  {
  }

  /** Without an open dropdown, a button other than `main` is highlighted exactly on its own group's paths. */
  lemma ButtonHighlightOnPath(pathname: string, k: GroupKey)
    requires k in PanelKeys() && k != Main
    ensures ButtonHighlighted(None, pathname, k) <==> pathname in GroupPaths(k)
  {
  }

  /** The color of a mobile accordion header: only its own open panel highlights it. */
  function MobileHeaderHighlighted(openDropdown: Option<string>, k: GroupKey): (r: bool)
    ensures r <==> openDropdown == Some(MobileKey(k))
  {
    openDropdown == Some("mobile-" + KeyName(k))
  }

  /**
   * The current route highlights a desktop group button but never a mobile
   * header: with nothing open, a page of the offering, participate or
   * resources group colours its desktop button and leaves its header plain.
   */
  lemma RouteHighlightsOnlyDesktop(pathname: string, k: GroupKey)
    requires k in PanelKeys() && k != Main && pathname in GroupPaths(k)
    ensures ButtonHighlighted(None, pathname, k)
    ensures forall k2 :: !MobileHeaderHighlighted(None, k2)
  {
    ButtonHighlightOnPath(pathname, k);
  }

  /** Whether a link (in a dropdown or an accordion) is highlighted on the current path. */
  function LinkHighlighted(pathname: string, route: Route): bool {
    pathname == route.path
  }

  /** Among routes with distinct paths, at most one link of a group is highlighted. */
  lemma OneHighlightedLink(routes: seq<Route>, k: GroupKey, pathname: string, r1: Route, r2: Route)
    requires forall i, j :: 0 <= i < j < |routes| ==> routes[i].path != routes[j].path
    requires r1 in GroupItems(routes, k) && r2 in GroupItems(routes, k)
    requires LinkHighlighted(pathname, r1) && LinkHighlighted(pathname, r2)
    ensures r1 == r2
  {
    GroupItemsMembers(routes, k, r1);
    GroupItemsMembers(routes, k, r2);
    var i :| 0 <= i < |routes| && routes[i] == r1;
    var j :| 0 <= j < |routes| && routes[j] == r2;
    assert routes[i].path == routes[j].path;
  }

  /** The desktop dropdown list of group `k` renders. */
  function DropdownVisible(openDropdown: Option<string>, k: GroupKey): bool {
    openDropdown == Some(KeyName(k))
  }

  /** The mobile submenu of group `k` is expanded. */
  function AccordionOpen(openDropdown: Option<string>, k: GroupKey): bool {
    openDropdown == Some(MobileKey(k))
  }

  /** Desktop and mobile values never coincide: no key name starts with "mobile-". */
  lemma KeysDistinct(k1: GroupKey, k2: GroupKey)
    ensures KeyName(k1) == KeyName(k2) ==> k1 == k2
    ensures MobileKey(k1) == MobileKey(k2) ==> k1 == k2
    ensures MobileKey(k1) != KeyName(k2)
  {
    if MobileKey(k1) == MobileKey(k2) {
      assert MobileKey(k1)[7..] == KeyName(k1);
      assert MobileKey(k2)[7..] == KeyName(k2);
    }
    assert MobileKey(k1)[1] == 'o' && KeyName(k2)[1] != 'o';
  }

  /**
   * One slot, one panel: across both layouts at most one dropdown or accordion
   * is open, and opening a mobile accordion hides every desktop dropdown.
   */
  lemma AtMostOnePanel(openDropdown: Option<string>, k1: GroupKey, k2: GroupKey)
    ensures DropdownVisible(openDropdown, k1) && DropdownVisible(openDropdown, k2) ==> k1 == k2
    ensures AccordionOpen(openDropdown, k1) && AccordionOpen(openDropdown, k2) ==> k1 == k2
    ensures !(DropdownVisible(openDropdown, k1) && AccordionOpen(openDropdown, k2))
  {
    KeysDistinct(k1, k2);
    KeysDistinct(k2, k1);
  }

  /**
   * Where a navigation link sits; this decides its mousedown target and its
   * click handler. The logo link behaves like a desktop action link: it lies
   * outside the desktop container and has no `onClick`.
   */
  datatype LinkPlace = DesktopDropdownLink | DesktopActionLink | MobileAccordionLink | MobileActionLink

  /** Only the desktop dropdown container carries the ref. */
  function InsideDesktopContainer(place: LinkPlace): bool {
    place == DesktopDropdownLink
  }

  /** Desktop action links have no `onClick`; every other link calls `closeMenu`. */
  function ClosesMenu(place: LinkPlace): bool {
    place != DesktopActionLink
  }

  class NavbarState {
    var isOpen: bool
    var scrolled: bool
    var openDropdown: Option<string>

    /** Every slot value a button can store: none, or a desktop or mobile panel key. */
    ghost predicate SlotWellFormed()
      reads this
    {
      openDropdown == None
      || exists k :: k in PanelKeys() && (openDropdown == Some(KeyName(k)) || openDropdown == Some(MobileKey(k)))
    }

    /** The initial state: mobile drawer closed, not scrolled, no panel open. */
    constructor ()
      ensures !isOpen && !scrolled && openDropdown == None
      ensures SlotWellFormed()
    {
      isOpen := false;
      scrolled := false;
      openDropdown := None;
    }

    /** `toggleMenu`: flips the drawer and leaves the open panel as it is. */
    method ToggleMenu()
      modifies this
      ensures isOpen == !old(isOpen)
      ensures scrolled == old(scrolled) && openDropdown == old(openDropdown)
    {
      isOpen := !isOpen;
    }

    /** `closeMenu`: from any state, the drawer and every panel close. */
    method CloseMenu()
      modifies this
      ensures !isOpen && openDropdown == None
      ensures scrolled == old(scrolled)
    {
      isOpen := false;
      openDropdown := None;
    }

    /** `toggleDropdown(key)`: closes the slot when it holds `key`, otherwise puts `key` in it. */
    method ToggleDropdown(key: string)
      modifies this
      ensures openDropdown == if old(openDropdown) == Some(key) then None else Some(key)
      ensures isOpen == old(isOpen) && scrolled == old(scrolled)
    {
      if openDropdown == Some(key) {
        openDropdown := None;
      } else {
        openDropdown := Some(key);
      }
    }

    /** The scroll listener: `scrolled` follows `scrollY > 10`. */
    method HandleScroll(scrollY: real)
      modifies this
      ensures scrolled <==> scrollY > 10.0
      ensures isOpen == old(isOpen) && openDropdown == old(openDropdown)
    {
      if scrollY > 10.0 {
        scrolled := true;
      } else {
        scrolled := false;
      }
    }

    /**
     * The document mousedown listener: a press outside the desktop container
     * empties the slot, a press inside leaves it.
     */
    method HandleMouseDown(insideDesktop: bool)
      modifies this
      ensures openDropdown == if insideDesktop then old(openDropdown) else None
      ensures isOpen == old(isOpen) && scrolled == old(scrolled)
    {
      if !insideDesktop {
        openDropdown := None;
      }
    }

    /** Pressing a desktop group button: a mousedown inside the container, then its click. */
    method PressDesktopButton(k: GroupKey)
      requires k in PanelKeys() && SlotWellFormed()
      modifies this
      ensures openDropdown == if old(openDropdown) == Some(KeyName(k)) then None else Some(KeyName(k))
      ensures isOpen == old(isOpen) && scrolled == old(scrolled)
      ensures SlotWellFormed()
    {
      HandleMouseDown(true);
      ToggleDropdown(KeyName(k));
    }

    /**
     * Pressing a mobile accordion header: the drawer is outside the desktop
     * container, so the mousedown empties the slot before the click toggles
     * it; the header therefore always ends with its own panel open.
     */
    method PressMobileHeader(k: GroupKey)
      requires k in PanelKeys()
      modifies this
      ensures openDropdown == Some(MobileKey(k))
      ensures MobileHeaderHighlighted(openDropdown, k)
      ensures forall k2 :: MobileHeaderHighlighted(openDropdown, k2) <==> k2 == k
      ensures forall k2 :: !DropdownVisible(openDropdown, k2)
      ensures isOpen == old(isOpen) && scrolled == old(scrolled)
      ensures SlotWellFormed()
    {
      HandleMouseDown(false);
      ToggleDropdown(MobileKey(k));
      forall k2: GroupKey
        ensures (MobileHeaderHighlighted(openDropdown, k2) <==> k2 == k) && !DropdownVisible(openDropdown, k2)
      {
        KeysDistinct(k, k2);
        KeysDistinct(k2, k);
      }
    }

    /** Pressing the mobile menu button: the mousedown empties the slot, then the click flips the drawer. */
    method PressMenuButton()
      modifies this
      ensures isOpen == !old(isOpen) && openDropdown == None
      ensures scrolled == old(scrolled)
      ensures SlotWellFormed()
    {
      HandleMouseDown(false);
      ToggleMenu();
    }

    /**
     * Following a navigation link: its mousedown, then its click handler if it
     * has one. Every link empties the slot (desktop action links through the
     * mousedown alone), but only links with a handler close the drawer.
     */
    method FollowLink(place: LinkPlace)
      modifies this
      ensures openDropdown == None
      ensures isOpen == if ClosesMenu(place) then false else old(isOpen)
      ensures scrolled == old(scrolled)
      ensures SlotWellFormed()
    {
      HandleMouseDown(InsideDesktopContainer(place));
      if ClosesMenu(place) {
        CloseMenu();
      }
    }
  }

  /** Toggling the same key twice from a closed slot ends closed. */
  method ToggleTwiceFromClosed(nav: NavbarState, key: string)
    requires nav.openDropdown == None
    modifies nav
    ensures nav.openDropdown == None
  {
    nav.ToggleDropdown(key);
    nav.ToggleDropdown(key);
  }

  /** Opening a mobile accordion closes an open desktop dropdown. */
  method MobileClosesDesktop(nav: NavbarState, desktop: GroupKey, mobile: GroupKey)
    requires desktop in PanelKeys() && mobile in PanelKeys()
    requires DropdownVisible(nav.openDropdown, desktop)
    modifies nav
    ensures AccordionOpen(nav.openDropdown, mobile)
    ensures forall k :: !DropdownVisible(nav.openDropdown, k)
  {
    nav.PressMobileHeader(mobile);
  }
}

/**
  The navigation bar: the session it reads, the link list it derives from the
  session (on the desktop bar and in the mobile sheet), the user dropdown,
  the one-shot user fetch and the search-box toggle.
 */
module Navbar {
  import opened Common

  /** The signed-in user as the user context holds it; `role` may be missing. */
  datatype User = User(id: string, displayName: string, role: Option<string>)

  /** The user context: no user until a fetch stores one. */
  datatype Session = Session(user: Option<User>)

  const Guest := Session(None)

  predicate SignedIn(s: Session) {
    s.user.Some?
  }

  /** `userRole === "admin"`: only a present user whose role is exactly "admin". */
  predicate IsAdmin(s: Session) {
    s.user.Some? && s.user.value.role == Some("admin")
  }

  // ---------------------------------------------------------------------------
  // Link tables

  datatype NavItem = NavItem(name: string, href: string)

  const NavItems: seq<NavItem> := [
    NavItem("Find Rooms", "/rooms"),
    NavItem("Find Roommates", "/roommates"),
    NavItem("Messages", "/messages")
  ]

  const AdminItems: seq<NavItem> := [
    NavItem("Dashboard", "/admin/dashboard"),
    NavItem("Manage Properties", "/admin/properties")
  ]

  const GuestItems: seq<NavItem> := [NavItem("Login", "/login"), NavItem("Sign Up", "/signup")]

  /** The three kinds of visitor the menu distinguishes. */
  datatype Tier = GuestTier | MemberTier | AdminTier

  function TierOf(s: Session): (t: Tier)
    ensures t == GuestTier <==> !SignedIn(s)
    ensures t == AdminTier <==> IsAdmin(s)
  {
    if !SignedIn(s) then GuestTier else if IsAdmin(s) then AdminTier else MemberTier
  }

  /** The entries each kind of visitor is shown, as a table. */
  function VisibleMenu(t: Tier): seq<NavItem> {
    match t
    case GuestTier => GuestItems
    case MemberTier => NavItems
    case AdminTier => NavItems + AdminItems
  }

  /** The member menu is a strict prefix of the admin menu: admins see everything members see, then two more. */
  lemma MemberMenuPrefixOfAdmin()
    ensures |VisibleMenu(MemberTier)| < |VisibleMenu(AdminTier)|
    ensures VisibleMenu(AdminTier)[..|VisibleMenu(MemberTier)|] == VisibleMenu(MemberTier)
    ensures VisibleMenu(AdminTier)[|VisibleMenu(MemberTier)|..] == AdminItems
  {
  }

  // ---------------------------------------------------------------------------
  // Rendered links

  /** The two places the links are rendered. */
  datatype Surface = Desktop | Mobile

  /**
    How a link is drawn: the active style of each surface (an underline on
    the bar, a filled background in the sheet) or the plain style.
   */
  datatype Style = Underlined | Filled | Plain

  datatype Link = Link(name: string, href: string, style: Style)

  /** The style a table item gets on `surface`: active exactly when the pathname equals its href. */
  function ItemStyle(surface: Surface, pathname: string, item: NavItem): Style {
    if pathname == item.href then (if surface == Desktop then Underlined else Filled) else Plain
  }

  /** `items.map(item => <Link …>)`. */
  function RenderItems(surface: Surface, pathname: string, items: seq<NavItem>): (r: seq<Link>)
    ensures |r| == |items|
  {
    seq(|items|, k requires 0 <= k < |items| =>
      Link(items[k].name, items[k].href, ItemStyle(surface, pathname, items[k])))
  }

  /**
    The link list of one surface, following the markup: the nav items and,
    for an admin, the admin items when a user is present; otherwise the
    Login and Sign Up links, which never carry the active style.
   */
  function Menu(surface: Surface, s: Session, pathname: string): (r: seq<Link>)
    ensures forall k :: 0 <= k < |r| ==>
      (r[k].style != Plain <==> SignedIn(s) && pathname == r[k].href)
    ensures forall k :: 0 <= k < |r| ==>
      r[k].style != Plain ==> r[k].style == (if surface == Desktop then Underlined else Filled)
  {
    if SignedIn(s) then
      RenderItems(surface, pathname, NavItems)
      + (if IsAdmin(s) then RenderItems(surface, pathname, AdminItems) else [])
    else
      [Link("Login", "/login", Plain), Link("Sign Up", "/signup", Plain)]
  }

  /** The name/href entries of a rendered list. */
  function Entries(links: seq<Link>): (r: seq<NavItem>)
    ensures |r| == |links|
    ensures forall k :: 0 <= k < |r| ==> r[k] == NavItem(links[k].name, links[k].href)
  {
    seq(|links|, k requires 0 <= k < |links| => NavItem(links[k].name, links[k].href))
  }

  /** Rendering a table keeps its entries. */
  lemma EntriesOfRender(surface: Surface, pathname: string, items: seq<NavItem>)
    ensures Entries(RenderItems(surface, pathname, items)) == items
  {
  }

  lemma EntriesAppend(a: seq<Link>, b: seq<Link>)
    ensures Entries(a + b) == Entries(a) + Entries(b)
  {
  }

  /** Whatever the surface and pathname, the rendered entries are the table entries of the session's tier. */
  lemma MenuMatchesTier(surface: Surface, s: Session, pathname: string)
    ensures Entries(Menu(surface, s, pathname)) == VisibleMenu(TierOf(s))
  {
    if SignedIn(s) {
      var n := RenderItems(surface, pathname, NavItems);
      EntriesOfRender(surface, pathname, NavItems);
      if IsAdmin(s) {
        var a := RenderItems(surface, pathname, AdminItems);
        EntriesOfRender(surface, pathname, AdminItems);
        EntriesAppend(n, a);
      } else {
        assert Menu(surface, s, pathname) == n;
      }
    }
  }

  /** With no user the menu is exactly Login then Sign Up. */
  lemma GuestMenu(surface: Surface, pathname: string)
    ensures Entries(Menu(surface, Guest, pathname)) == [NavItem("Login", "/login"), NavItem("Sign Up", "/signup")]
  {
    MenuMatchesTier(surface, Guest, pathname);
  }

  /** A present user whose role is anything but "admin", or missing, sees the three nav items in order. */
  lemma MemberMenu(surface: Surface, u: User, pathname: string)
    requires u.role != Some("admin")
    ensures Entries(Menu(surface, Session(Some(u)), pathname)) ==
      [NavItem("Find Rooms", "/rooms"), NavItem("Find Roommates", "/roommates"), NavItem("Messages", "/messages")]
  {
    MenuMatchesTier(surface, Session(Some(u)), pathname);
  }

  /** An admin sees the nav items followed by Dashboard and Manage Properties. */
  lemma AdminMenu(surface: Surface, u: User, pathname: string)
    requires u.role == Some("admin")
    ensures Entries(Menu(surface, Session(Some(u)), pathname)) == NavItems + AdminItems
    ensures Entries(Menu(surface, Session(Some(u)), pathname))[3..] ==
      [NavItem("Dashboard", "/admin/dashboard"), NavItem("Manage Properties", "/admin/properties")]
  {
    MenuMatchesTier(surface, Session(Some(u)), pathname);
  }

  /**
    The desktop bar and the mobile sheet list the same entries in the same
    order, and highlight the same positions.
   */
  lemma SurfacesAgree(s: Session, pathname: string)
    ensures Entries(Menu(Desktop, s, pathname)) == Entries(Menu(Mobile, s, pathname))
    ensures forall k :: 0 <= k < |Menu(Desktop, s, pathname)| ==>
      (Menu(Desktop, s, pathname)[k].style == Plain <==> Menu(Mobile, s, pathname)[k].style == Plain)
  {
    MenuMatchesTier(Desktop, s, pathname);
    MenuMatchesTier(Mobile, s, pathname);
    var d, m := Menu(Desktop, s, pathname), Menu(Mobile, s, pathname);
    forall k | 0 <= k < |d|
      ensures d[k].style == Plain <==> m[k].style == Plain
    {
      assert Entries(d)[k] == Entries(m)[k];
    }
  }

  // ---------------------------------------------------------------------------
  // User dropdown

  datatype DropdownEntry = Item(text: string) | Separator

  datatype Dropdown = Dropdown(heading: string, entries: seq<DropdownEntry>)

  const AdminDropdownItems: seq<DropdownEntry> := [Item("Admin Dashboard"), Item("Manage Properties")]

  /**
    The user dropdown: only rendered for a present user. Profile and
    Settings come first, the admin group (behind a separator) only for an
    admin, and Log out (behind a separator) always last.
   */
  function UserDropdown(s: Session): (r: Option<Dropdown>)
    ensures r.Some? <==> SignedIn(s)
    ensures r.Some? ==> (r.value.heading == "Admin Menu" <==> IsAdmin(s))
    ensures r.Some? && !IsAdmin(s) ==> r.value.heading == "User Menu"
    ensures r.Some? ==> |r.value.entries| == if IsAdmin(s) then 7 else 4
    ensures r.Some? ==> r.value.entries[..2] == [Item("Profile"), Item("Settings")]
    ensures r.Some? ==> r.value.entries[|r.value.entries| - 2..] == [Separator, Item("Log out")]
    ensures r.Some? ==> (Item("Admin Dashboard") in r.value.entries <==> IsAdmin(s))
    ensures r.Some? && IsAdmin(s) ==> r.value.entries[2..5] == [Separator] + AdminDropdownItems
  {
    if !SignedIn(s) then None
    else
      var admin := if IsAdmin(s) then [Separator] + AdminDropdownItems else [];
      Some(Dropdown(
        if IsAdmin(s) then "Admin Menu" else "User Menu",
        [Item("Profile"), Item("Settings")] + admin + [Separator, Item("Log out")]))
  }

  // ---------------------------------------------------------------------------
  // The user fetch

  /** How the request for the current user ended: it threw, or it answered with a status and maybe a payload. */
  datatype FetchResult = Threw | Response(status: int, payload: Option<User>)

  /** The fetch stores the payload only for status 200 with a payload present; otherwise the session is kept. */
  function ApplyFetch(s: Session, res: FetchResult): (r: Session)
    ensures res.Response? && res.status == 200 && res.payload.Some? ==> r.user == res.payload
    ensures !(res.Response? && res.status == 200 && res.payload.Some?) ==> r == s
  {
    match res
    case Threw => s
    case Response(status, payload) =>
      if status == 200 then
        (if payload.Some? then Session(payload) else s)
      else s
  }

  /** A failed fetch on page load leaves the visitor a guest: the menu is exactly the guest menu. */
  lemma FailedFetchShowsGuestMenu(res: FetchResult, surface: Surface, pathname: string)
    requires !(res.Response? && res.status == 200 && res.payload.Some?)
    ensures Entries(Menu(surface, ApplyFetch(Guest, res), pathname)) == VisibleMenu(GuestTier)
    ensures UserDropdown(ApplyFetch(Guest, res)).None?
  {
    MenuMatchesTier(surface, Guest, pathname);
  }

  // ---------------------------------------------------------------------------
  // Search box

  datatype NavState = NavState(session: Session, searchOpen: bool)

  /** On mount: no user yet, search box closed. */
  const InitialNav := NavState(Guest, false)

  /** The search button opens the box. */
  function OpenSearch(n: NavState): (r: NavState)
    ensures r.searchOpen
    ensures r.session == n.session
  {
    n.(searchOpen := true)
  }

  /** The box losing focus closes it. */
  function BlurSearch(n: NavState): (r: NavState)
    ensures !r.searchOpen
    ensures r.session == n.session
  {
    n.(searchOpen := false)
  }

  /** Opening then blurring returns to the closed state, with the session untouched. */
  lemma OpenThenBlur(n: NavState)
    ensures BlurSearch(OpenSearch(n)) == n.(searchOpen := false)
    ensures !n.searchOpen ==> BlurSearch(OpenSearch(n)) == n
    ensures BlurSearch(OpenSearch(InitialNav)) == InitialNav
  {
  }
}

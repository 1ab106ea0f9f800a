/** The admin shell around every guarded page: the fixed navigation list, which
    item is highlighted, where the pending-requests badge and the chevron appear,
    the pending count it shows, the mobile sidebar, and sign-out. */
module Layout {
  import opened Common
  import opened Schema
  import Routes
  import Approvals

  datatype NavItem = NavItem(name: string, href: string)

  /** `navItems`: five entries in a fixed order. */
  const NavItems: seq<NavItem> := [
    NavItem("Dashboard", "/admin"),
    NavItem("Products", "/admin/products"),
    NavItem("Inquiries", "/admin/inquiries"),
    NavItem("Approvals", "/admin/approvals"),
    NavItem("Settings", "/admin/settings")
  ]

  /** An item is highlighted when the path is exactly its link: no prefix matching. */
  predicate IsActive(pathname: string, item: NavItem) {
    pathname == item.href
  }

  /** The badge: only on "Approvals", and only while some request is pending. */
  predicate ShowBadge(item: NavItem, pendingCount: int) {
    item.name == "Approvals" && pendingCount > 0
  }

  /** The chevron: on the highlighted item, unless that item shows the badge. */
  predicate ShowChevron(pathname: string, item: NavItem, pendingCount: int) {
    IsActive(pathname, item) && !ShowBadge(item, pendingCount)
  }

  /** `count || 0`: a missing count shows as zero. */
  function PendingCountOf(count: Option<int>): (r: int)
    ensures count.None? ==> r == 0
    ensures count.Some? ==> r == count.value
  {
    if count.None? || count.value == 0 then 0 else count.value
  }

  /** The links are exactly the guarded paths of the route table, in the same order. */
  lemma NavLinksAreGuardedPaths()
    ensures |NavItems| == |Routes.GuardedPaths|
    ensures forall i :: 0 <= i < |NavItems| ==> NavItems[i].href == Routes.GuardedPaths[i]
    ensures forall i :: 0 <= i < |NavItems| ==> Routes.Resolve(NavItems[i].href).GuardedPage?
  {
    forall i | 0 <= i < |NavItems| ensures Routes.Resolve(NavItems[i].href).GuardedPage? {
      assert NavItems[i].href in Routes.GuardedPaths;
    }
  }

  /** At most one item is highlighted, and one is exactly when the path is a guarded page's. */
  lemma AtMostOneActive(pathname: string)
    ensures forall i, j :: 0 <= i < j < |NavItems| ==> !(IsActive(pathname, NavItems[i]) && IsActive(pathname, NavItems[j]))
    ensures (exists i :: 0 <= i < |NavItems| && IsActive(pathname, NavItems[i])) <==> pathname in Routes.GuardedPaths
  {
    NavLinksAreGuardedPaths();
    if pathname in Routes.GuardedPaths {
      var i :| 0 <= i < |Routes.GuardedPaths| && Routes.GuardedPaths[i] == pathname;
      assert IsActive(pathname, NavItems[i]);
    }
  }

  /** The badge and the chevron never show together, and the badge appears on no item but the
      fourth. */
  lemma BadgeAndChevron(pathname: string, pendingCount: int)
    ensures forall i :: 0 <= i < |NavItems| && ShowBadge(NavItems[i], pendingCount) ==> i == 3 && pendingCount > 0
    ensures forall i :: 0 <= i < |NavItems| ==>
      !(ShowBadge(NavItems[i], pendingCount) && ShowChevron(pathname, NavItems[i], pendingCount))
  {
  }

  /** Counted on the same table, the badge is shown exactly when the approvals page lists some
      request as pending. */
  lemma {:induction false} BadgeMeansPendingRequests(table: seq<AdminRequest>)
    ensures ShowBadge(NavItems[3], PendingCountOf(Some(Approvals.PendingCount(table)))) <==>
            exists k :: 0 <= k < |table| && table[k].status == Pending
  {
    var p := (x: AdminRequest) => x.status == Pending;
    var pending := Filter(table, p);
    assert Approvals.PendingCount(table) == |pending|;
    if |pending| > 0 {
      assert pending[0] in pending;
      var k :| 0 <= k < |table| && table[k] == pending[0];
    }
    if exists k :: 0 <= k < |table| && table[k].status == Pending {
      var k :| 0 <= k < |table| && table[k].status == Pending;
      assert table[k] in pending;
    }
  }

  class Shell {
    var pendingCount: int
    var sidebarOpen: bool
    /** The current browser path. */
    var location: string
    /** Whether the browser holds a session. */
    var signedIn: bool

    constructor (location: string)
      ensures pendingCount == 0 && !sidebarOpen && this.location == location && signedIn
    {
      pendingCount, sidebarOpen, this.location, signedIn := 0, false, location, true;
    }

    /** The count query (on mount, and again on every change to `admin_requests`) answered. */
    method CountArrived(count: Option<int>)
      modifies this`pendingCount
      ensures pendingCount == PendingCountOf(count)
    {
      pendingCount := PendingCountOf(count);
    }

    /** The menu button opens the sidebar; the overlay and the close button shut it. */
    method SetSidebar(open: bool)
      modifies this`sidebarOpen
      ensures sidebarOpen == open
    {
      sidebarOpen := open;
    }

    /** Following a navigation link moves to its page and shuts the sidebar. */
    method Follow(item: NavItem)
      requires item in NavItems
      modifies this`location, this`sidebarOpen
      ensures location == item.href && !sidebarOpen
      ensures IsActive(location, item)
    {
      location := item.href;
      sidebarOpen := false;
    }

    /** `handleSignOut`: the session ends, then the browser moves to the sign-in page. */
    method SignOut()
      modifies this`signedIn, this`location
      ensures !signedIn && location == "/admin/login"
      ensures Routes.Resolve(location) == Routes.PublicPage(Routes.Login)
    {
      signedIn := false;
      location := "/admin/login";
    }
  }
}

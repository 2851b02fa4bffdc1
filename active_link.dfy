/** Which navigation item is highlighted for the current path: the
    dashboard tabs (components/dashboard/dashboard-nav.tsx) and the sidebar
    of the admin, staff and customer dashboards
    (layout/dashboard/sidebar-layout/index.tsx, with the items of
    constant/dashboard.constant.tsx). */
module ActiveLink {
  import opened Common

  /** The dashboard tabs' rule: an exact match, or a prefix match for any
      item other than the root `root`. */
  predicate TabActive(pathname: string, href: string, root: string) {
    pathname == href || (href != root && StartsWith(pathname, href))
  }

  /** The sidebar's rule as written: a raw prefix match. */
  predicate SidebarActive(pathname: string, href: string) {
    StartsWith(pathname, href)
  }

  const TabRoot := "/dashboard"
  const TabItems: seq<string> := ["/dashboard/transactions", "/dashboard/profile"]

  const AdminRoot := "/admin"
  const AdminItems: seq<string> := ["/admin/event", "/admin/category", "/admin/banner", "/admin/transaction", "/admin/users", "/admin/settings"]
  const StaffRoot := "/staff"
  const StaffItems: seq<string> := ["/staff/event", "/staff/transaction", "/staff/settings"]
  const CustomerItems: seq<string> := ["/customer/member", "/customer/transaction", "/customer/settings"]

  /** The items below a root: each is the root, "/", and at least one more
      character, and no two share that first character. */
  predicate Branches(root: string, items: seq<string>) {
    && (forall i :: 0 <= i < |items| ==> |items[i]| > |root| + 1 && StartsWith(items[i], root + "/"))
    && (forall i, j :: 0 <= i < j < |items| ==> items[i][|root| + 1] != items[j][|root| + 1])
  }

  /** Under the tabs' rule, at most one of a root and its branches is active
      for any path. */
  lemma {:induction false} AtMostOneTab(pathname: string, root: string, items: seq<string>)
    requires Branches(root, items)
    ensures var hrefs := [root] + items;
            forall i, j :: 0 <= i < j < |hrefs| ==> !(TabActive(pathname, hrefs[i], root) && TabActive(pathname, hrefs[j], root))
  {
    var hrefs := [root] + items;
    forall i, j | 0 <= i < j < |hrefs|
      ensures !(TabActive(pathname, hrefs[i], root) && TabActive(pathname, hrefs[j], root))
    {
      var b := hrefs[j];
      assert b == items[j - 1] && b != root;
      if TabActive(pathname, hrefs[i], root) && TabActive(pathname, b, root) {
        assert false;
      }
    }
  }

  /** The three dashboard tabs are never active together. */
  lemma DashboardTabsExclusive(pathname: string)
    ensures var hrefs := [TabRoot] + TabItems;
            forall i, j :: 0 <= i < j < |hrefs| ==> !(TabActive(pathname, hrefs[i], TabRoot) && TabActive(pathname, hrefs[j], TabRoot))
    ensures TabActive(pathname, TabRoot, TabRoot) <==> pathname == TabRoot
  {
    assert TabItems[0][11] == 't' && TabItems[1][11] == 'p';
    assert Branches(TabRoot, TabItems);
    AtMostOneTab(pathname, TabRoot, TabItems);
  }

  /** As written, the sidebar marks the dashboard item of a role active on
      every page of that role, so two items are lit at once, and a prefix
      with no "/" boundary lights an item on a sibling path. */
  lemma SidebarOverlaps()
    ensures SidebarActive("/admin/event", AdminRoot) && SidebarActive("/admin/event", AdminItems[0])
    ensures SidebarActive("/staff/transaction", StaffRoot) && SidebarActive("/staff/transaction", StaffItems[1])
    ensures SidebarActive("/staff/events", StaffItems[0])
    ensures forall pathname, href :: SidebarActive(pathname, href) <==> StartsWith(pathname, href)
  {
    assert "/admin/event"[..6] == AdminRoot;
    assert "/staff/transaction"[..6] == StaffRoot;
    assert "/staff/events"[..12] == StaffItems[0];
  }

  /** The sidebar with the tabs' rule, the role's dashboard as root. */
  predicate SidebarActiveCorrected(pathname: string, href: string, root: string) {
    TabActive(pathname, href, root)
  }

  /** With the root matched exactly, at most one admin or staff sidebar item
      is active for any path, the dashboard item only on the dashboard
      itself, and every other item still wherever the sidebar as written
      lights it. */
  lemma SidebarCorrectedExclusive(pathname: string)
    ensures var hrefs := [AdminRoot] + AdminItems;
            forall i, j :: 0 <= i < j < |hrefs| ==>
              !(SidebarActiveCorrected(pathname, hrefs[i], AdminRoot) && SidebarActiveCorrected(pathname, hrefs[j], AdminRoot))
    ensures var hrefs := [StaffRoot] + StaffItems;
            forall i, j :: 0 <= i < j < |hrefs| ==>
              !(SidebarActiveCorrected(pathname, hrefs[i], StaffRoot) && SidebarActiveCorrected(pathname, hrefs[j], StaffRoot))
    ensures SidebarActiveCorrected(pathname, AdminRoot, AdminRoot) <==> pathname == AdminRoot
    ensures forall href :: href != AdminRoot ==> (SidebarActiveCorrected(pathname, href, AdminRoot) <==> SidebarActive(pathname, href))
    ensures SidebarActiveCorrected(pathname, StaffRoot, StaffRoot) <==> pathname == StaffRoot
    ensures forall href :: href != StaffRoot ==> (SidebarActiveCorrected(pathname, href, StaffRoot) <==> SidebarActive(pathname, href))
  {
    AdminItemsBranch();
    AtMostOneTab(pathname, AdminRoot, AdminItems);
    StaffItemsBranch();
    AtMostOneTab(pathname, StaffRoot, StaffItems);
  }

  const CustomerRoot := "/customer"

  /** The customer items hang below "/customer/", each on its own first letter. */
  lemma CustomerItemsBranch()
    ensures Branches(CustomerRoot, CustomerItems)
  {
    assert CustomerItems[0][10] == 'm' && CustomerItems[1][10] == 't' && CustomerItems[2][10] == 's';
  }

  /** The customer sidebar has no dashboard item, so even the raw prefix rule
      lights at most one of its items. */
  lemma {:induction false} CustomerSidebarExclusive(pathname: string)
    ensures forall i, j :: 0 <= i < j < |CustomerItems| ==>
              !(SidebarActive(pathname, CustomerItems[i]) && SidebarActive(pathname, CustomerItems[j]))
  {
    CustomerItemsBranch();
    forall i, j | 0 <= i < j < |CustomerItems|
      ensures !(SidebarActive(pathname, CustomerItems[i]) && SidebarActive(pathname, CustomerItems[j]))
    {
      if SidebarActive(pathname, CustomerItems[i]) && SidebarActive(pathname, CustomerItems[j]) {
        assert false;
      }
    }
  }

  /** The admin items hang below "/admin/", each on its own first letter. */
  lemma AdminItemsBranch()
    ensures Branches(AdminRoot, AdminItems)
  {
    assert AdminItems[0][7] == 'e' && AdminItems[1][7] == 'c' && AdminItems[2][7] == 'b';
    assert AdminItems[3][7] == 't' && AdminItems[4][7] == 'u' && AdminItems[5][7] == 's';
  }

  /** The staff items hang below "/staff/", each on its own first letter. */
  lemma StaffItemsBranch()
    ensures Branches(StaffRoot, StaffItems)
  {
    assert StaffItems[0][7] == 'e' && StaffItems[1][7] == 't' && StaffItems[2][7] == 's';
  }
}

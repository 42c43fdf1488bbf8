/** The navigation sidebar (components/sidebar.tsx): which route is highlighted, and the mobile menu. */
module Sidebar {
  datatype NavRoute = NavRoute(href: string, title: string)

  const Routes: seq<NavRoute> := [
    NavRoute("/", "Dashboard"),
    NavRoute("/statistics", "Statistics"),
    NavRoute("/sprints", "Sprints"),
    NavRoute("/developers", "Developers"),
    NavRoute("/bugs", "Bugs")
  ]

  /** The dashboard is highlighted only on "/" itself; every other route on every path it prefixes. */
  predicate IsActive(r: NavRoute, pathname: string) {
    if r.href == "/" then pathname == "/" else r.href <= pathname
  }

  /** Which routes are highlighted for a path. */
  function ActiveRoutes(pathname: string): (r: seq<NavRoute>)
    ensures forall x :: x in r <==> x in Routes && IsActive(x, pathname)
  {
    (if IsActive(Routes[0], pathname) then [Routes[0]] else []) +
    (if IsActive(Routes[1], pathname) then [Routes[1]] else []) +
    (if IsActive(Routes[2], pathname) then [Routes[2]] else []) +
    (if IsActive(Routes[3], pathname) then [Routes[3]] else []) +
    (if IsActive(Routes[4], pathname) then [Routes[4]] else [])
  }

  /** No path highlights two routes. */
  lemma AtMostOneActive(pathname: string)
    ensures |ActiveRoutes(pathname)| <= 1
  {
    var a0, a1, a2, a3, a4 := IsActive(Routes[0], pathname), IsActive(Routes[1], pathname),
      IsActive(Routes[2], pathname), IsActive(Routes[3], pathname), IsActive(Routes[4], pathname);
    if a1 { assert pathname[1] == 's' && pathname[2] == 't' && |pathname| > 1; }
    if a2 { assert pathname[1] == 's' && pathname[2] == 'p' && |pathname| > 1; }
    if a3 { assert pathname[1] == 'd' && |pathname| > 1; }
    if a4 { assert pathname[1] == 'b' && |pathname| > 1; }
    assert (if a0 then 1 else 0) + (if a1 then 1 else 0) + (if a2 then 1 else 0) + (if a3 then 1 else 0) + (if a4 then 1 else 0) <= 1;
  }

  lemma RootOnlyDashboard()
    ensures ActiveRoutes("/") == [Routes[0]]
  {
    assert IsActive(Routes[0], "/");
    assert !IsActive(Routes[1], "/") && !IsActive(Routes[2], "/") by {
      assert |Routes[1].href| > 1 && |Routes[2].href| > 1;
    }
    assert !IsActive(Routes[3], "/") && !IsActive(Routes[4], "/") by {
      assert |Routes[3].href| > 1 && |Routes[4].href| > 1;
    }
  }

  lemma SprintsOnlySprints(suffix: string)
    ensures ActiveRoutes("/sprints" + suffix) == [Routes[2]]
  {
    var p := "/sprints" + suffix;
    assert "/sprints" <= p;
    assert p[1] == 's' && p[2] == 'p' && |p| > 2;
    assert !IsActive(Routes[0], p) && IsActive(Routes[2], p);
    assert !IsActive(Routes[1], p) by { assert Routes[1].href[2] == 't'; }
    assert !IsActive(Routes[3], p) by { assert Routes[3].href[1] == 'd'; }
    assert !IsActive(Routes[4], p) by { assert Routes[4].href[1] == 'b'; }
  }

  /** "/" highlights the dashboard only; a path under "/sprints" highlights the sprints only. */
  lemma ExactlyWhere(suffix: string)
    ensures ActiveRoutes("/") == [Routes[0]]
    ensures ActiveRoutes("/sprints" + suffix) == [Routes[2]]
  {
    RootOnlyDashboard();
    SprintsOnlySprints(suffix);
  }

  class MobileMenu {
    var isOpen: bool

    constructor ()
      ensures !isOpen && !ShowsOverlay()
    {
      isOpen := false;
    }

    /** The menu button. */
    method Toggle()
      modifies this
      ensures isOpen == !old(isOpen)
      ensures ShowsOverlay() == !old(ShowsOverlay())
    {
      isOpen := !isOpen;
    }

    /** A link or the overlay. */
    method Close()
      modifies this
      ensures !isOpen && !ShowsOverlay()
    {
      isOpen := false;
    }

    /** The overlay exists only while the menu is open. */
    function ShowsOverlay(): (r: bool)
      reads this
      ensures r <==> isOpen
    {
      isOpen
    }
  }
}

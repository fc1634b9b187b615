/**
 * The pure part of the router in `main_app.py`: which navigation bar, tab
 * index and content a route string selects, and the route strings that the
 * sign-in button, the role switch and the two navigation bars produce.
 */
module Routes {
  import opened Wrappers

  /** The two `ft.NavigationBar`s built by every main-app route change. */
  datatype NavKind = StudentBar | OfficerBar

  /** Which content builder fills the view; `NoContent` is the `content = []` default. */
  datatype Content =
    | NoContent
    | StudentHome | StudentEvents | StudentInfo
    | OfficerDashboard | OfficerEvents | OfficerMembers

  /**
   * What the if/elif chain of a main-app route change picks: the bar, the
   * `selected_index` it assigns (`None` when no branch runs and the index is
   * left at the widget's default) and the content.
   */
  datatype Selection = Selection(bar: NavKind, index: Option<nat>, content: Content)

  const LOGIN_ROUTE := "/login"
  const STUDENT_HOME := "/student/home"
  const OFFICER_DASHBOARD := "/officer/dashboard"

  /** The officer flag: `route.startswith('/officer')`. */
  predicate IsOfficer(route: string)
    ensures IsOfficer(route) ==> route != LOGIN_ROUTE && !("/student" <= route)
  {
    assert "/student"[1] != "/officer"[1] && LOGIN_ROUTE[1] != "/officer"[1];
    "/officer" <= route
  }

  /** Python's `xs[i]` on a list: negative indices count from the end, anything else raises. */
  function PyIndex<T>(xs: seq<T>, i: int): (r: Option<T>)
    ensures r.Some? <==> -|xs| <= i < |xs|
    ensures r.Some? ==> r == Some(xs[i % |xs|])
  {
    if 0 <= i < |xs| then Some(xs[i])
    else if -|xs| <= i < 0 then Some(xs[|xs| + i])
    else None
  }

  /** The route prefix each bar's `on_change` formats its path segment into. */
  function BarPrefix(bar: NavKind): string {
    match bar
    case StudentBar => "/student/"
    case OfficerBar => "/officer/"
  }

  /** The fixed three-element list each bar's `on_change` indexes. */
  function Tabs(bar: NavKind): seq<string> {
    match bar
    case StudentBar => ["home", "events", "info"]
    case OfficerBar => ["dashboard", "events", "members"]
  }

  /** The content builder behind each tab of a bar. */
  function TabContent(bar: NavKind, i: nat): Content
    requires i < 3
  {
    match bar
    case StudentBar => [StudentHome, StudentEvents, StudentInfo][i]
    case OfficerBar => [OfficerDashboard, OfficerEvents, OfficerMembers][i]
  }

  /**
   * The route a bar's `on_change` goes to for a selected index, or `None`
   * when the list lookup raises `IndexError`.
   */
  function NavRoute(bar: NavKind, i: int): (r: Option<string>)
    ensures r.Some? <==> -3 <= i < 3
    ensures r.Some? ==> (IsOfficer(r.value) <==> bar == OfficerBar)
  {
    match PyIndex(Tabs(bar), i)
    case None => None
    case Some(segment) =>
      var route := BarPrefix(bar) + segment;
      assert route[..8] == BarPrefix(bar)[..8];
      assert route[1] == BarPrefix(bar)[1];
      Some(route)
  }

  /** The if/elif chain of a main-app route change. */
  function Select(route: string): (s: Selection)
    ensures s.index.None? <==> s.content == NoContent
    ensures s.index.None? ==> s.bar == StudentBar
    ensures s.index.Some? ==> s.index.value < 3
    ensures s.bar == OfficerBar ==> IsOfficer(route)
    ensures s.index.Some? ==> s.content == TabContent(s.bar, s.index.value)
  {
    if route == "/student/home" then Selection(StudentBar, Some(0), StudentHome)
    else if route == "/student/events" then Selection(StudentBar, Some(1), StudentEvents)
    else if route == "/student/info" then Selection(StudentBar, Some(2), StudentInfo)
    else if route == "/officer/dashboard" then Selection(OfficerBar, Some(0), OfficerDashboard)
    else if route == "/officer/events" then Selection(OfficerBar, Some(1), OfficerEvents)
    else if route == "/officer/members" then Selection(OfficerBar, Some(2), OfficerMembers)
    else Selection(StudentBar, None, NoContent)
  }

  /** Where the sign-in button goes; only the id field is read. */
  function LoginTarget(id: string): (r: string)
    ensures IsOfficer(r) <==> id == "officer"
    ensures Select(r).index == Some(0)
    ensures Select(r).bar == (if id == "officer" then OfficerBar else StudentBar)
  {
    assert STUDENT_HOME[1] != "/officer"[1];
    if id == "officer" then OFFICER_DASHBOARD else STUDENT_HOME
  }

  /** Where the "Officer?" switch goes when its value becomes `officer`. */
  function ToggleTarget(officer: bool): (r: string)
    ensures IsOfficer(r) == officer
    ensures Select(r).index == Some(0)
    ensures Select(r).bar == (if officer then OfficerBar else StudentBar)
  {
    assert STUDENT_HOME[1] != "/officer"[1];
    if officer then OFFICER_DASHBOARD else STUDENT_HOME
  }

  /**
   * Round trip, both directions: a route selects tab `i` of bar `bar` exactly
   * when it is the route that bar's `on_change` produces for index `i` in 0..2.
   */
  lemma SelectNavRouteIff(route: string, bar: NavKind, i: int)
    ensures (Select(route).bar == bar && Select(route).index == Some(i))
        <==> (0 <= i < 3 && NavRoute(bar, i) == Some(route))
  {
    if 0 <= i < 3 {
      assert BarPrefix(bar) + Tabs(bar)[i] == RouteLiterals(bar)[i];
    }
  }

  /** The six recognised routes, indexed by bar and tab, as literals. */
  function RouteLiterals(bar: NavKind): seq<string> {
    match bar
    case StudentBar => ["/student/home", "/student/events", "/student/info"]
    case OfficerBar => ["/officer/dashboard", "/officer/events", "/officer/members"]
  }

  /** A negative index reaches the same tab as its non-negative twin, as Python lists do. */
  lemma NavRouteNegativeIndex(bar: NavKind, i: int)
    requires -3 <= i < 0
    ensures NavRoute(bar, i) == NavRoute(bar, i + 3)
  {
  }

  /**
   * Every route under `/officer` other than the three officer tabs shows the
   * officer flag while the chain leaves the student bar and no content: the
   * flag and the bar disagree.
   */
  lemma UnknownOfficerRoute(route: string)
    requires IsOfficer(route)
    requires route !in {"/officer/dashboard", "/officer/events", "/officer/members"}
    ensures Select(route) == Selection(StudentBar, None, NoContent)
  {
  }

  /** A route selects tab `i` of bar `bar` for every tab whose `on_change` produces it. */
  lemma SelectAllTabs(route: string)
    ensures forall bar, i | 0 <= i < 3 && NavRoute(bar, i) == Some(route) ::
      Select(route).bar == bar && Select(route).index == Some(i)
  {
    forall bar, i | 0 <= i < 3 && NavRoute(bar, i) == Some(route)
      ensures Select(route).bar == bar && Select(route).index == Some(i)
    {
      SelectNavRouteIff(route, bar, i);
    }
  }
}

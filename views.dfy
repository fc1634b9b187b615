/**
 * The views a route change builds in `main_app.py`, and the pure state
 * machine over (route, view list) that the page's event handlers drive.
 */
module Views {
  import opened Wrappers
  import opened Routes

  /**
   * One `ft.View`, abstracted to what the router decides: the login view,
   * or a main-app view with its route, app-bar title, switch value,
   * navigation bar, the bar's `selected_index` and the content.
   */
  datatype View =
    | LoginView
    | MainView(route: string, appBarTitle: string, officerSwitch: bool,
               bar: NavKind, selectedIndex: Option<nat>, content: Content)
  {
    /** The `route` the view was built with. */
    function Route(): string {
      match this
      case LoginView => LOGIN_ROUTE
      case MainView(r, _, _, _, _, _) => r
    }
  }

  /** The app-bar title for a value of the officer flag. */
  function AppBarTitle(officer: bool): (title: string)
    ensures title == "Officer View" <==> officer
    ensures title != ""
  {
    if officer then "Officer View" else "Student View"
  }

  /** The single view `route_change` appends for the current route. */
  function Render(route: string): (v: View)
    ensures v.Route() == route
    ensures v.LoginView? <==> route == LOGIN_ROUTE
    ensures v.MainView? ==> v.officerSwitch == IsOfficer(route) && v.appBarTitle == AppBarTitle(v.officerSwitch)
    ensures v.MainView? && v.selectedIndex.Some? ==> NavRoute(v.bar, v.selectedIndex.value) == Some(route)
    ensures v.MainView? && v.selectedIndex.None? ==> v.bar == StudentBar && v.content == NoContent
    ensures forall b, i | 0 <= i < 3 && NavRoute(b, i) == Some(route) ::
      v.MainView? && v.bar == b && v.selectedIndex == Some(i) && v.content == TabContent(b, i)
  {
    SelectAllTabs(route);
    if route == LOGIN_ROUTE then LoginView
    else
      var sel := Select(route);
      SelectNavRouteIff(route, sel.bar, if sel.index.Some? then sel.index.value else 0);
      MainView(route, AppBarTitle(IsOfficer(route)), IsOfficer(route), sel.bar, sel.index, sel.content)
  }

  /** The part of the page the router touches: `page.route` and `page.views`. */
  datatype NavState = NavState(route: string, views: seq<View>)

  /** `page.go(route)`: set the route, then `route_change` clears the views and appends one. */
  function Navigated(route: string): (s: NavState)
    ensures s.route == route && |s.views| == 1 && s.views[0].Route() == route
  {
    NavState(route, [Render(route)])
  }

  /**
   * `view_pop`: pop the last view, read the new last one and go to its route.
   * On a list of zero or one views the pop or the `views[-1]` read raises
   * `IndexError`; the pop that did happen stays done.
   */
  function Popped(s: NavState): (r: (Outcome, NavState))
    ensures r.0 == Done <==> |s.views| >= 2
    ensures r.0 == IndexError ==> r.1 == NavState(s.route, [])
    ensures r.0 == Done ==> r.1 == Navigated(s.views[|s.views| - 2].Route())
  {
    if |s.views| == 0 then (IndexError, s)
    else
      var rest := s.views[..|s.views| - 1];
      if |rest| == 0 then (IndexError, NavState(s.route, rest))
      else (Done, Navigated(rest[|rest| - 1].Route()))
  }

  /** The external events the page reacts to, one per handler of `main`. */
  datatype Event =
    | Navigate(route: string)                  // a route change from outside (the address bar)
    | SignIn(id: string, password: string)      // `login_click`
    | Toggle(officer: bool)                     // `toggle_view`
    | Tab(bar: NavKind, index: int)             // a navigation bar's `on_change`
    | Back                                      // `view_pop`

  /** The navigation state after one event's handler has run (or raised). */
  function Step(s: NavState, e: Event): (t: NavState)
    ensures Settled(s) ==> Settled(t)
    ensures e.Back? || (e.Tab? && NavRoute(e.bar, e.index).None?) || |t.views| == 1
    ensures e.Tab? && NavRoute(e.bar, e.index).None? ==> t == s
  {
    match e
    case Navigate(route) => Navigated(route)
    case SignIn(id, _) => Navigated(LoginTarget(id))
    case Toggle(officer) => Navigated(ToggleTarget(officer))
    case Tab(bar, i) =>
      (match NavRoute(bar, i)
       case None => s
       case Some(route) => Navigated(route))
    case Back => Popped(s).1
  }

  /** The state after a sequence of events, in order. */
  function Run(s: NavState, events: seq<Event>): NavState
    decreases |events|
  {
    if events == [] then s else Run(Step(s, events[0]), events[1..])
  }

  /** The state `main` leaves: it goes to `/login`. */
  function Initial(): (s: NavState)
    ensures s.route == LOGIN_ROUTE && s.views == [LoginView]
  {
    Navigated(LOGIN_ROUTE)
  }

  /** The shapes the view list can have: the current route's view, or empty after a failed pop. */
  predicate Settled(s: NavState) {
    s.views == [] || s.views == [Render(s.route)]
  }

  /** Every event sequence keeps the view list settled. */
  lemma {:induction false} RunSettled(s: NavState, events: seq<Event>)
    requires Settled(s)
    ensures Settled(Run(s, events))
    decreases |events|
  {
    if events != [] {
      RunSettled(Step(s, events[0]), events[1..]);
    }
  }

  /**
   * Since no reachable view list ever holds two views, every `view_pop`
   * raises `IndexError`, whatever happened since start-up.
   */
  lemma BackAlwaysRaises(events: seq<Event>)
    ensures Popped(Run(Initial(), events)).0 == IndexError
    ensures |Run(Initial(), events).views| <= 1
  {
    RunSettled(Initial(), events);
  }

  /**
   * In every reachable state, each displayed view belongs to the current
   * route, and it highlights tab `i` of `bar` exactly when that tab's
   * `on_change` leads to the current route.
   */
  lemma HighlightedTabIsCurrentRoute(events: seq<Event>)
    ensures var s := Run(Initial(), events);
      forall v | v in s.views ::
        v.Route() == s.route &&
        forall bar, i :: (v.MainView? && v.bar == bar && v.selectedIndex == Some(i))
                         <==> (0 <= i < 3 && NavRoute(bar, i) == Some(s.route))
  {
    RunSettled(Initial(), events);
    var s := Run(Initial(), events);
    forall bar, i ensures (Render(s.route).MainView? && Render(s.route).bar == bar && Render(s.route).selectedIndex == Some(i))
                          <==> (0 <= i < 3 && NavRoute(bar, i) == Some(s.route))
    {
      SelectNavRouteIff(s.route, bar, i);
    }
  }

  /** Clicking tab `i` in 0..2 of a bar shows that tab of that bar, with its content. */
  lemma TabHighlightsTab(s: NavState, bar: NavKind, i: int)
    requires 0 <= i < 3
    ensures var t := Step(s, Tab(bar, i));
      |t.views| == 1 && t.views[0].MainView? && t.views[0].bar == bar &&
      t.views[0].selectedIndex == Some(i) && t.views[0].content == TabContent(bar, i)
  {
  }

  /** A role switch lands on tab 0 of the chosen role's bar from any state. */
  lemma ToggleLandsOnFirstTab(s: NavState, officer: bool)
    ensures var t := Step(s, Toggle(officer));
      t.views == [MainView(t.route, AppBarTitle(officer), officer,
                           if officer then OfficerBar else StudentBar, Some(0),
                           if officer then OfficerDashboard else StudentHome)]
  {
  }

  /** The sign-in handler never reads the password. */
  lemma SignInIgnoresPassword(s: NavState, id: string, p: string, q: string)
    ensures Step(s, SignIn(id, p)) == Step(s, SignIn(id, q))
  {
  }
}

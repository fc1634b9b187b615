# TSA Club Manager: router and dialog slot

A model of the navigation state machine and the single-slot modal dialog of
the TSA Club Manager client (`main_app.py`, a Flet application). The client
shows a login screen, a student dashboard (Home, Events, Your Info) and an
officer dashboard (Dashboard, Events, Members). Officer pages have buttons that
open a modal form with Save and Cancel.

Modules:

- `Wrappers` (`wrappers.dfy`): `Option`, and `Outcome`. An `Outcome` says
  whether a handler finished or raised Python's `IndexError`.
- `Routes` (`routes.dfy`): the pure route decisions. The officer flag is
  `route.startswith('/officer')`. The if/elif chain picks the bar, the
  `selected_index` and the content. The routes produced by the sign-in button,
  the "Officer?" switch and the two navigation bars are here too. List
  indexing follows Python, so negative indices are allowed.
- `Views` (`views.dfy`): the `ft.View` that `route_change` builds, reduced to
  its route, app-bar title, switch value, bar, selected index and content. It
  also holds a pure state machine over `(page.route, page.views)`, one step per
  event handler, and lemmas about every state reachable from start-up.
- `Dialogs` (`dialogs.dfy`): the form controls, reduced to label, initial value
  and kind. It gives each trigger's title and fields, lists which page carries
  which trigger, and defines the `AlertDialog` class with its `open` flag.
- `App` (`app.dfy`): the `Page` class. Its fields are `route`, `views` and
  `dialog`, with one method per handler. `RouteChange` and `Go` are
  proved against `Views.Navigated`. Each handler method is proved against
  `Views.Step`, and `ViewPop` against `Views.Popped`. `DialogSession` is a client that
  walks through a dialog replacement.

Behaviour of the code worth knowing:

- The login route is `"/login"`.
- An unrecognised route renders empty content under the student bar, with `selected_index` never assigned. A route like
  `/officer/settings` also shows the officer title and switch while the bar is
  the student one (`Routes.UnknownOfficerRoute`).
- `view_pop` has no underflow guard. `route_change` always leaves exactly one
  view, so every back event raises `IndexError` (`Views.BackAlwaysRaises`).
- Navigation does not close an open dialog, and Save collects no field values.

## Model

| member | source | states |
|---|---|---|
| Routes.IsOfficer | main_app.py:198 | the officer flag is the `/officer` prefix test; a flagged route is never `/login` and never under `/student` |
| Routes.PyIndex | main_app.py:206-207 | Python list lookup succeeds exactly for -len <= i < len, and then reads the element at i modulo the length |
| Routes.NavRoute | main_app.py:206-207 | a bar's `on_change` yields a route exactly for indices -3..2 (otherwise `IndexError`), and that route has the officer prefix exactly when the bar is the officer bar |
| Routes.Select | main_app.py:209-216 | no index is assigned exactly when the content stays empty; then the bar is the student bar; an assigned index is below 3, and the content is the builder of that tab of that bar; the officer bar is chosen only for routes with the officer prefix |
| Routes.LoginTarget | main_app.py:166-171 | sign-in goes to an officer route exactly when the id is `"officer"`, and always to tab 0 of the matching bar |
| Routes.ToggleTarget | main_app.py:200-202 | the switch's value becomes the new route's officer flag, and the route selects tab 0 of that role's bar |
| Routes.SelectNavRouteIff | main_app.py:206-216 | round trip in both directions: a route selects tab i of a bar exactly when it is the route that bar's `on_change` produces for i in 0..2 |
| Routes.NavRouteNegativeIndex | main_app.py:206-207 | index i in -3..-1 reaches the same route as i + 3 |
| Routes.UnknownOfficerRoute | main_app.py:198-216 | every route with the officer prefix other than the three officer tabs gets the student bar, no index and no content, although its officer flag is set |
| Routes.SelectAllTabs | main_app.py:206-216 | a route selects every (bar, tab) pair whose `on_change` produces it |
| Views.AppBarTitle | main_app.py:204 | the app-bar title is "Officer View" exactly when the officer flag is set, and is never empty |
| Views.Render | main_app.py:162-218 | the view's route is the page route; it is the login view exactly for `/login`; the title and switch equal the officer flag; a highlighted tab's `on_change` leads back to this route, and every tab whose `on_change` leads to this route is the highlighted one, on its bar, with its content; with no highlight the bar is the student bar and the content is empty |
| Views.Navigated | main_app.py:158-220 | after a route change the page route is the new route and the view list holds exactly one view, whose route is that route |
| Views.Initial | main_app.py:229 | `main` starts on `/login` with the login view alone |
| Views.Popped | main_app.py:222-225 | `view_pop` succeeds exactly when at least two views exist, and then goes to the route of the view below the top; otherwise `IndexError` leaves the route and an empty view list |
| Views.Step | main_app.py:158-229 | one handler keeps the view list either empty or the single view of the current route; every event except back and an out-of-range tab leaves exactly one view; an out-of-range tab changes nothing |
| Views.RunSettled | main_app.py:158-229 | any sequence of events keeps the view list empty or the single view of the current route |
| Views.BackAlwaysRaises | main_app.py:222-229 | in every state reachable from start-up there is at most one view, so `view_pop` raises `IndexError` |
| Views.HighlightedTabIsCurrentRoute | main_app.py:204-218 | in every reachable state each shown view belongs to the current route, and it highlights tab i of a bar exactly when that tab's `on_change` leads to the current route |
| Views.TabHighlightsTab | main_app.py:206-216 | clicking tab i in 0..2 of a bar shows one view with that bar, tab i highlighted and that tab's content |
| Views.ToggleLandsOnFirstTab | main_app.py:200-216 | from any state, a role switch shows tab 0 of the chosen role's bar and its default content, with title and switch set to that role |
| Views.SignInIgnoresPassword | main_app.py:163-171 | the password value never changes where sign-in goes |
| Dialogs.Title | main_app.py:93-146 | the title is "Edit Member" exactly for the member-edit triggers, every Add trigger's title starts with "Add ", and no title is empty |
| Dialogs.Fields | main_app.py:93-146 | Upload Document has no labelled field; every other trigger has two; the Add forms start with "Title"; Edit Member pre-fills the member's name and dues flag |
| Dialogs.TriggersOn | main_app.py:86-148 | only the three officer pages carry dialog triggers, and Edit Member and Upload Document appear only on the Members page |
| Dialogs.AlertDialog.constructor | main_app.py:49-58 | a new dialog holds the given title and controls and is not open |
| Dialogs.AlertDialog.Close | main_app.py:37-39 | Cancel clears this dialog's open flag and changes nothing else |
| Dialogs.AlertDialog.SaveAndClose | main_app.py:42-47 | Save clears this dialog's open flag and changes nothing else |
| App.Page.constructor | main_app.py:227-229 | `main` leaves the login route with its single view and an empty dialog slot |
| App.Page.RouteChange | main_app.py:158-220 | the view list becomes the one view of the current route; the dialog slot is untouched |
| App.Page.Go | main_app.py:225-229 | going to a route is a route change to it; the dialog in the slot keeps its open flag |
| App.Page.LoginClick | main_app.py:166-171 | sign-in performs the sign-in step of the state machine and leaves the dialog slot |
| App.Page.ToggleView | main_app.py:200-202 | the switch performs the toggle step of the state machine |
| App.Page.NavChange | main_app.py:206-207 | a bar change raises `IndexError` exactly for indices outside -3..2 and otherwise performs the tab step |
| App.Page.ViewPop | main_app.py:222-225 | the outcome and the new routing state are those of `Views.Popped` on the old state |
| App.Page.OpenDialog | main_app.py:59-60 | the slot holds a fresh open dialog with the given title and controls; route and views are unchanged; a displaced dialog keeps its flag and none of its handlers runs |
| App.Page.PressTrigger | main_app.py:93-146 | a trigger opens a fresh dialog with its own title and fields |

## Left out

- Widget construction and styling: `Section`, `Card`, icons, sizes, colours, the login view's controls, and every content builder apart from its dialog triggers. This is static UI.
- `page.update()`, the `print` in `save_and_close`, `page.title`, `page.theme_mode` and `ft.app`. These are framework calls and I/O.
- Field-value collection and a backend call on Save. The source has these only as comments.
- How Flet reports an exception raised in a handler. The model keeps the state the handler reached before raising.
- The widget default of `selected_index` when no branch assigns it. It is modelled as "not assigned".
- Event objects: the switch value and the selected index are plain `bool` and `int` inputs, and the id field's value is a plain string.
- Whether a trigger's button is on screen. `App.Page.PressTrigger` may be called in any state, as the handler itself has no guard; `Dialogs.TriggersOn` records which page shows which button.
- Which control is on screen when its handler fires. The model lets either bar's `on_change`, the sign-in button (shown only on the login view) and the "Officer?" switch (shown only on main views) fire in any state, because no handler has a guard of its own. The lemmas about reachable states therefore cover a superset of the states the real page can reach.

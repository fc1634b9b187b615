/**
 * The page object that `main` in `main_app.py` configures: its route, its
 * view list and its dialog slot, with one method per event handler.
 */
module App {
  import opened Wrappers
  import opened Routes
  import opened Views
  import opened Dialogs

  class Page {
    var route: string
    var views: seq<View>
    var dialog: AlertDialog?

    /** The router's part of the page. */
    function Nav(): NavState
      reads this
    {
      NavState(route, views)
    }

    /** `main(page)`: installs the handlers and goes to `/login`. */
    constructor ()
      ensures Nav() == Initial() && dialog == null
    {
      route := "/";
      views := [];
      dialog := null;
      new;
      Go(LOGIN_ROUTE);
    }

    /** `route_change`: clears the views and appends the one view of `page.route`. */
    method RouteChange()
      modifies this
      ensures Nav() == Navigated(old(route))
      ensures dialog == old(dialog)
    {
      views := [];
      var view := Render(route);
      views := views + [view];
    }

    /** `page.go(r)`: sets the route and fires `route_change`; the dialog slot is left alone. */
    method Go(r: string)
      modifies this
      ensures Nav() == Navigated(r)
      ensures dialog == old(dialog)
      ensures dialog != null ==> dialog.open == old(dialog.open)
    {
      route := r;
      RouteChange();
    }

    /** `login_click`. */
    method LoginClick(id: string, password: string)
      modifies this
      ensures Nav() == Step(old(Nav()), SignIn(id, password))
      ensures dialog == old(dialog)
    {
      Go(LoginTarget(id));
    }

    /** `toggle_view`, given the switch's new value. */
    method ToggleView(officer: bool)
      modifies this
      ensures Nav() == Step(old(Nav()), Toggle(officer))
      ensures dialog == old(dialog)
    {
      Go(ToggleTarget(officer));
    }

    /** A navigation bar's `on_change`, given its new `selected_index`. */
    method NavChange(bar: NavKind, index: int) returns (outcome: Outcome)
      modifies this
      ensures outcome == IndexError <==> !(-3 <= index < 3)
      ensures Nav() == Step(old(Nav()), Tab(bar, index))
      ensures dialog == old(dialog)
    {
      var target := NavRoute(bar, index);
      if target.None? {
        outcome := IndexError;
      } else {
        outcome := Done;
        Go(target.value);
      }
    }

    /** `view_pop`: pops, reads `views[-1]` and goes to its route, with no guard. */
    method ViewPop() returns (outcome: Outcome)
      modifies this
      ensures (outcome, Nav()) == Popped(old(Nav()))
      ensures dialog == old(dialog)
    {
      if |views| == 0 {
        outcome := IndexError;
        return;
      }
      views := views[..|views| - 1];
      if |views| == 0 {
        outcome := IndexError;
        return;
      }
      var top := views[|views| - 1];
      outcome := Done;
      Go(top.Route());
    }

    /**
     * `open_dialog`: builds a new dialog, puts it in the page's slot and opens
     * it. A dialog it displaces keeps its state; none of its handlers runs.
     */
    method OpenDialog(title: string, controls: seq<Control>)
      modifies this
      ensures fresh(dialog) && dialog.open
      ensures dialog.title == title && dialog.controls == controls
      ensures Nav() == old(Nav())
      ensures old(dialog) != null ==> old(dialog).open == old(dialog.open)
    {
      var d := new AlertDialog(title, controls);
      dialog := d;
      d.open := true;
    }

    /** Clicking one of the dialog triggers of the officer pages. */
    method PressTrigger(t: Trigger)
      modifies this
      ensures fresh(dialog) && dialog.open
      ensures dialog.title == Title(t) && dialog.controls == Fields(t)
      ensures Nav() == old(Nav())
    {
      OpenDialog(Title(t), Fields(t));
    }
  }

  /**
   * A session that signs in as an officer, opens one dialog, replaces it
   * with another, saves the second, then navigates: the first dialog is never
   * closed, and navigation leaves the slot as it was.
   */
  method DialogSession()
  {
    var page := new Page();
    page.LoginClick("officer", "secret");
    assert page.views[0].content == OfficerDashboard;
    page.PressTrigger(AddAnnouncement);
    var first := page.dialog;
    page.PressTrigger(AddWorkshop);
    assert first.open && page.dialog != first;
    page.dialog.SaveAndClose();
    assert !page.dialog.open && first.open;
    var second := page.dialog;
    var outcome := page.NavChange(OfficerBar, 2);
    assert outcome == Done && page.route == "/officer/members";
    assert page.dialog == second;
    outcome := page.ViewPop();
    assert outcome == IndexError && page.views == [];
  }
}

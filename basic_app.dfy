/**
 * The content window (src/basic_app.rs). Building one registers a new open
 * window and leaves the slot alone; its close handler empties the slot and
 * ends the nested dispatch loop the tray entered for it.
 */
module BasicApp {
  import opened Wrappers
  import opened Shared

  /** A built content window; `window` is the accessor BasicApp::window. */
  datatype BasicApp = BasicApp(window: WindowId)

  /** BasicApp::build: one new window, which is open and was not open before. */
  function Built(u: UiState): (r: (BasicApp, UiState))
    ensures r.1.open == u.open + {r.0.window}
    ensures FreshIds(u) ==> r.0.window !in u.open && FreshIds(r.1)
    ensures r.1.built == u.built + 1
    ensures r.1.slot == u.slot
    ensures r.1.depth == u.depth && r.1.focusRequests == u.focusRequests
    ensures r.1.stopRequests == u.stopRequests
  {
    (BasicApp(u.built), u.(open := u.open + {u.built}, built := u.built + 1))
  }

  /** BasicApp::exit: whatever the slot held, it is empty; the window is gone; one loop stops. */
  function Closed(u: UiState, w: WindowId): (r: UiState)
    ensures r.slot == None
    ensures r.open == u.open - {w}
    ensures u.depth > 0 ==> r.depth == u.depth - 1
    ensures r.stopRequests == u.stopRequests + 1
    ensures r.built == u.built && r.focusRequests == u.focusRequests
  {
    StopDispatch(u.(slot := None, open := u.open - {w}))
  }

  /** Closing the one open window keeps the lifecycle invariant and leaves no window. */
  lemma ClosedKeepsLifecycle(u: UiState, w: WindowId)
    requires Lifecycle(u) && w in u.open
    ensures Lifecycle(Closed(u, w)) && Closed(u, w).open == {}
    ensures u.depth > 0 ==> Closed(u, w).depth == 1
  {
  }

  method Build(ui: UiThread) returns (app: BasicApp)
    modifies ui
    ensures (app, ui.State()) == Built(old(ui.State()))
  {
    app := BasicApp(ui.built);
    ui.open := ui.open + {ui.built};
    ui.built := ui.built + 1;
  }

  /** The OnWindowClose handler of `app`. */
  method Exit(app: BasicApp, ui: UiThread)
    modifies ui
    ensures ui.State() == Closed(old(ui.State()), app.window)
  {
    ui.slot := None;
    ui.open := ui.open - {app.window};
    ui.StopThreadDispatch();
  }
}

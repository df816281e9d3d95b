/**
 * The older coordinator revision, timetracker/timetracker/src/system_tray.rs.
 * It has no preferences: its menu offers only "Show" and "Exit", its build
 * runs no bootstrap and no update check. Its show_window, focus test and
 * exit are the same code as the current revision's, so they are specified by
 * the same functions of module SystemTray.
 */
module LegacyTray {
  import opened Wrappers
  import opened Shared
  import BasicApp
  import SystemTray

  datatype Event =
    | TrayClick                  // left click on the icon, or "Show <app>"
    | ContextMenu                // right click on the icon
    | ExitItem                   // "Exit" selected
    | WindowClose(w: WindowId)   // a content window's close notification

  function Step(u: UiState, e: Event): UiState
  {
    match e
    case TrayClick => SystemTray.ShownWindow(u)
    case ContextMenu => u
    case ExitItem => SystemTray.Exited(u)
    case WindowClose(w) => if w in u.open then BasicApp.Closed(u, w) else u
  }

  function Run(u: UiState, events: seq<Event>): UiState
    decreases |events|
  {
    if events == [] || u.depth == 0 then u else Run(Step(u, events[0]), events[1..])
  }

  /** The events of the current revision that the older one also has. */
  function Project(events: seq<SystemTray.Event>): seq<Event>
    decreases |events|
  {
    if events == [] then []
    else
      var rest := Project(events[1..]);
      match events[0]
      case TrayClick => [TrayClick] + rest
      case ContextMenu(_) => [ContextMenu] + rest
      case RunAtStartup(_) => rest
      case AutoUpdateItem(_) => rest
      case ExitItem => [ExitItem] + rest
      case WindowClose(w) => [WindowClose(w)] + rest
  }

  /**
   * The current revision added preferences without changing the window
   * lifecycle: on any sequence of events its windows, slot, loops and
   * counters evolve exactly as the older revision's do on the events it has.
   */
  lemma {:induction false} SameWindowLifecycle(t: SystemTray.TrayState, events: seq<SystemTray.Event>)
    ensures SystemTray.Run(t, events).ui == Run(t.ui, Project(events))
    decreases |events|
  {
    if events != [] && t.ui.depth > 0 {
      var t1 := SystemTray.Step(t, events[0]);
      SameWindowLifecycle(t1, events[1..]);
      match events[0]
      case RunAtStartup(_) =>
      case AutoUpdateItem(_) =>
      case TrayClick =>
        assert ([TrayClick] + Project(events[1..]))[1..] == Project(events[1..]);
      case ContextMenu(_) =>
        assert ([ContextMenu] + Project(events[1..]))[1..] == Project(events[1..]);
      case ExitItem =>
        assert ([ExitItem] + Project(events[1..]))[1..] == Project(events[1..]);
      case WindowClose(w) =>
        assert ([WindowClose(w)] + Project(events[1..]))[1..] == Project(events[1..]);
    }
  }

  lemma {:induction false} RunKeepsLifecycle(u: UiState, events: seq<Event>)
    requires Lifecycle(u)
    ensures Lifecycle(Run(u, events))
    decreases |events|
  {
    if events != [] && u.depth > 0 {
      if events[0].WindowClose? && events[0].w in u.open {
        BasicApp.ClosedKeepsLifecycle(u, events[0].w);
      }
      RunKeepsLifecycle(Step(u, events[0]), events[1..]);
    }
  }

  /** In the older revision too, at most one content window is ever open and the slot tracks it. */
  lemma AtMostOneWindow(events: seq<Event>)
    ensures var u := Run(Idle.(depth := 1), events);
      |u.open| <= 1 && (u.slot.None? <==> u.open == {})
  {
    RunKeepsLifecycle(Idle.(depth := 1), events);
  }

  /** With an empty slot, the focus request after storing the new window's handle succeeds. */
  lemma FocusAfterStoreSucceeds(u: UiState)
    requires u.slot.None?
    ensures var (app, u1) := BasicApp.Built(u);
      SystemTray.Focused(u1.(slot := Some(app.window))).0
  {
  }

  class LegacyTray {
    const ui: UiThread

    /** build_ui: the tray icon and its two-item menu; the slot is empty. */
    constructor ()
      ensures fresh(ui) && ui.State() == Idle
    {
      ui := new UiThread();
    }

    /** build: straight into the dispatch loop, with no store access. */
    method Build()
      modifies ui
      ensures ui.State() == EnterDispatch(old(ui.State()))
    {
      ui.DispatchThreadEvents();
    }

    /** show_menu: only the popup, which is not modelled; no state changes. */
    method ShowMenu()
      ensures ui.State() == old(ui.State())
    {
    }

    method ShowWindow()
      modifies ui
      ensures ui.State() == SystemTray.ShownWindow(old(ui.State()))
    {
      var found := TrySetForegroundWindow();
      if found {
        return;
      }
      var app := BasicApp.Build(ui);
      ui.slot := Some(app.window);
      found := TrySetForegroundWindow();
      assert found;
      ui.DispatchThreadEvents();
    }

    method TrySetForegroundWindow() returns (found: bool)
      modifies ui
      ensures (found, ui.State()) == SystemTray.Focused(old(ui.State()))
    {
      match ui.slot
      case Some(hwnd) =>
        ui.SetForeground(hwnd);
        found := true;
      case None =>
        found := false;
    }

    method Exit()
      modifies ui
      ensures ui.State() == SystemTray.Exited(old(ui.State()))
    {
      ui.StopThreadDispatch();
      ui.StopThreadDispatch();
    }
  }
}

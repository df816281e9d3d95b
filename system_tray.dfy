/**
 * The tray coordinator of src/system_tray.rs: the handlers wired to the
 * tray icon and its menu, the first-run bootstrap and the auto-update check.
 *
 * Each handler is a method of class `SystemTray` whose contract ties the new
 * state to a function of the old state; those functions state what the
 * handler promises, and the lemmas at the end relate several of them
 * (sequences of events, restarts, toggles).
 */
module SystemTray {
  import opened Wrappers
  import opened Shared
  import opened Settings
  import BasicApp

  datatype TrayState = TrayState(
    ui: UiState,
    store: Store,            // the registry subkey
    startup: bool,           // the startup registration, owned by the platform
    startupChecked: bool,    // check mark of "Run at startup"
    updateChecked: bool,     // check mark of "Auto update"
    updateChecks: nat)       // calls of the update check

  /** The coordinator right after build_ui: nothing open, both items unchecked. */
  function Initial(store: Store, startup: bool): TrayState
  {
    TrayState(Idle, store, startup, false, false, 0)
  }

  // ---------------------------------------------------------------------
  // Window handling

  /** set_foreground_window: true exactly when the slot holds a window, which then gets a focus request. */
  function Focused(u: UiState): (r: (bool, UiState))
    ensures r.0 <==> u.slot.Some?
    ensures r.1.slot == u.slot && r.1.open == u.open && r.1.built == u.built
    ensures r.1.depth == u.depth && r.1.stopRequests == u.stopRequests
    ensures r.1.focusRequests == u.focusRequests + (if r.0 then 1 else 0)
  {
    if u.slot.Some? then (true, RequestFocus(u)) else (false, u)
  }

  /**
   * show_window: an occupied slot only gets a focus request; an empty one
   * gets exactly one new window, stored in the slot and focused, and a
   * nested dispatch loop for it.
   */
  function ShownWindow(u: UiState): (r: UiState)
    ensures u.slot.Some? ==> r == u.(focusRequests := u.focusRequests + 1)
    ensures u.slot.None? ==>
      && r.slot.Some?
      && r.open == u.open + {r.slot.value}
      && r.built == u.built + 1
      && r.depth == u.depth + 1
      && r.focusRequests == u.focusRequests + 1
      && r.stopRequests == u.stopRequests
    ensures u.slot.None? && FreshIds(u) ==> r.slot.value !in u.open
  {
    var (found, u1) := Focused(u);
    if found then u1
    else
      var (app, u2) := BasicApp.Built(u1);
      var (_, u3) := Focused(u2.(slot := Some(app.window)));
      EnterDispatch(u3)
  }

  /**
   * exit: two stop requests, which end the nested loop of an open window and
   * the tray's own loop; the slot is left as it is.
   */
  function Exited(u: UiState): (r: UiState)
    ensures r.depth == if u.depth >= 2 then u.depth - 2 else 0
    ensures Lifecycle(u) ==> r.depth == 0
    ensures r.stopRequests == u.stopRequests + 2
    ensures r.slot == u.slot && r.open == u.open && r.built == u.built
    ensures r.focusRequests == u.focusRequests
  {
    StopDispatch(StopDispatch(u))
  }

  // ---------------------------------------------------------------------
  // Preferences

  /**
   * first_time_init. Only the store's FirstTimeUse and AutoUpdate values and
   * the registration can change; the registration is never turned off.
   */
  function Initialised(t: TrayState, io: Io): (r: TrayState)
    ensures r.ui == t.ui && r.updateChecks == t.updateChecks
    ensures r.startupChecked == t.startupChecked && r.updateChecked == t.updateChecked
    ensures forall k :: k != FirstTimeUseKey && k != AutoUpdateKey ==> Lookup(r.store, k) == Lookup(t.store, k)
    ensures t.startup ==> r.startup
    // a store that cannot be opened, or a bootstrap already done, changes nothing
    ensures !io.keyOpens || Read(t.store, io, FirstTimeUseKey) == Some(0) ==> r == t
    // a failed write of the initial FirstTimeUse ends the routine before anything changes
    ensures Read(t.store, io, FirstTimeUseKey).None? && !Writes(io, FirstTimeUseKey, 1) ==> r == t
    // the side effects happen only once FirstTimeUse has been marked done
    ensures r.startup != t.startup || Lookup(r.store, AutoUpdateKey) != Lookup(t.store, AutoUpdateKey)
      ==> Lookup(r.store, FirstTimeUseKey) == Some(0)
    // so a failed write of the mark, or a mark that cannot be read back, prevents both
    ensures !Writes(io, FirstTimeUseKey, 0) || FirstTimeUseKey in io.readFails
      ==> r.startup == t.startup && Lookup(r.store, AutoUpdateKey) == Lookup(t.store, AutoUpdateKey)
    // once the mark can be written and read, the routine always ends marked done
    ensures io.keyOpens && FirstTimeUseKey !in io.readFails && Writes(io, FirstTimeUseKey, 0)
      && (FirstTimeUseKey in t.store || Writes(io, FirstTimeUseKey, 1))
      ==> Lookup(r.store, FirstTimeUseKey) == Some(0)
    // a genuine first run attempts both side effects, best effort and not rolled back
    ensures io.keyOpens && FirstTimeUseKey !in io.readFails && Writes(io, FirstTimeUseKey, 0)
      && (FirstTimeUseKey in t.store || Writes(io, FirstTimeUseKey, 1))
      && Lookup(t.store, FirstTimeUseKey) != Some(0)
      ==> && r.startup == (t.startup || (io.exeKnown && io.launchOk))
          && Lookup(r.store, AutoUpdateKey)
             == (if Writes(io, AutoUpdateKey, 1) then Some(1) else Lookup(t.store, AutoUpdateKey))
  {
    if !io.keyOpens then t
    else if Read(t.store, io, FirstTimeUseKey).None? && !Writes(io, FirstTimeUseKey, 1) then t
    else
      var marked := if Read(t.store, io, FirstTimeUseKey).None? then t.store[FirstTimeUseKey := 1] else t.store;
      var first := Read(marked, io, FirstTimeUseKey);
      if first.None? || first.value == 0 || !Writes(io, FirstTimeUseKey, 0) then t.(store := marked)
      else
        t.(store := Written(marked[FirstTimeUseKey := 0], io, AutoUpdateKey, 1),
           startup := t.startup || (io.exeKnown && io.launchOk))
  }

  /** auto_update: the update check runs exactly when AutoUpdate reads as a positive value. */
  function AutoUpdated(t: TrayState, io: Io): (r: TrayState)
    ensures r == t.(updateChecks := r.updateChecks)
    ensures r.updateChecks == t.updateChecks || r.updateChecks == t.updateChecks + 1
    ensures r.updateChecks > t.updateChecks
      <==> io.keyOpens && AutoUpdateKey in t.store && AutoUpdateKey !in io.readFails && t.store[AutoUpdateKey] > 0
  {
    var enabled := Read(t.store, io, AutoUpdateKey);
    if io.keyOpens && enabled.Some? && enabled.value > 0 then t.(updateChecks := t.updateChecks + 1) else t
  }

  /**
   * toggle_update: AutoUpdate is written as the inverse of the check mark
   * (the mark itself is left for the next refresh), then auto_update runs
   * against the value now stored.
   */
  function UpdateToggled(t: TrayState, io: Io): (r: TrayState)
    ensures !io.keyOpens ==> r == t
    ensures r.ui == t.ui && r.startup == t.startup
    ensures r.startupChecked == t.startupChecked && r.updateChecked == t.updateChecked
    ensures forall k :: k != AutoUpdateKey ==> Lookup(r.store, k) == Lookup(t.store, k)
    ensures io.keyOpens && Writes(io, AutoUpdateKey, Flag(!t.updateChecked))
      ==> Lookup(r.store, AutoUpdateKey) == Some(Flag(!t.updateChecked))
    ensures !Writes(io, AutoUpdateKey, Flag(!t.updateChecked)) ==> r.store == t.store
    ensures r.updateChecks == t.updateChecks || r.updateChecks == t.updateChecks + 1
    ensures r.updateChecks > t.updateChecks
      <==> io.keyOpens && Read(r.store, io, AutoUpdateKey).Some? && Read(r.store, io, AutoUpdateKey).value > 0
  {
    if !io.keyOpens then t
    else AutoUpdated(t.(store := Written(t.store, io, AutoUpdateKey, Flag(!t.updateChecked))), io)
  }

  /** refresh_update: the check mark follows a readable AutoUpdate; nothing is written. */
  function UpdateRefreshed(t: TrayState, io: Io): (r: TrayState)
    ensures r == t.(updateChecked := r.updateChecked)
    ensures io.keyOpens && Read(t.store, io, AutoUpdateKey).Some?
      ==> r.updateChecked == (Read(t.store, io, AutoUpdateKey).value > 0)
    ensures !io.keyOpens || Read(t.store, io, AutoUpdateKey).None? ==> r == t
  {
    var enabled := Read(t.store, io, AutoUpdateKey);
    if io.keyOpens && enabled.Some? then t.(updateChecked := enabled.value > 0) else t
  }

  /**
   * toggle_startup: registration is enabled when the item is unchecked and
   * disabled when it is checked; nothing happens without the executable path
   * or when the registration API fails.
   */
  function StartupToggled(t: TrayState, io: Io): (r: TrayState)
    ensures r == t.(startup := r.startup)
    ensures io.exeKnown && io.launchOk ==> r.startup == !t.startupChecked
    ensures !io.exeKnown || !io.launchOk ==> r == t
  {
    if !io.exeKnown then t
    else if !t.startupChecked then t.(startup := t.startup || io.launchOk)
    else t.(startup := t.startup && !io.launchOk)
  }

  /** refresh_startup: the check mark follows the registration when it can be queried. */
  function StartupRefreshed(t: TrayState, io: Io): (r: TrayState)
    ensures r == t.(startupChecked := r.startupChecked)
    ensures io.exeKnown && io.launchOk ==> r.startupChecked == t.startup
    ensures !io.exeKnown || !io.launchOk ==> r == t
  {
    if io.exeKnown && io.launchOk then t.(startupChecked := t.startup) else t
  }

  /** show_menu (its state part): both check marks are refreshed; the store, registration and windows are only read. */
  function MenuShown(t: TrayState, io: Io): (r: TrayState)
    ensures r == t.(startupChecked := r.startupChecked, updateChecked := r.updateChecked)
    ensures io.exeKnown && io.launchOk ==> r.startupChecked == t.startup
    ensures !(io.exeKnown && io.launchOk) ==> r.startupChecked == t.startupChecked
    ensures io.keyOpens && Read(t.store, io, AutoUpdateKey).Some?
      ==> r.updateChecked == (Read(t.store, io, AutoUpdateKey).value > 0)
    ensures !io.keyOpens || Read(t.store, io, AutoUpdateKey).None? ==> r.updateChecked == t.updateChecked
  {
    UpdateRefreshed(StartupRefreshed(t, io), io)
  }

  /**
   * build: the bootstrap runs first, then the update check against the store
   * the bootstrap left, then the tray's dispatch loop is entered.
   */
  function TrayBuilt(t: TrayState, io: Io): (r: TrayState)
    ensures r.ui == t.ui.(depth := t.ui.depth + 1)
    ensures r.store == Initialised(t, io).store && r.startup == Initialised(t, io).startup
    ensures r.startupChecked == t.startupChecked && r.updateChecked == t.updateChecked
    ensures r.updateChecks <= t.updateChecks + 1
    ensures r.updateChecks > t.updateChecks
      <==> io.keyOpens && Read(Initialised(t, io).store, io, AutoUpdateKey).Some?
           && Read(Initialised(t, io).store, io, AutoUpdateKey).value > 0
  {
    var t1 := AutoUpdated(Initialised(t, io), io);
    t1.(ui := EnterDispatch(t1.ui))
  }

  // ---------------------------------------------------------------------
  // Events

  /** What the UI thread delivers to the coordinator and the content window. */
  datatype Event =
    | TrayClick                  // left click on the icon, or "Show records"
    | ContextMenu(io: Io)        // right click on the icon
    | RunAtStartup(io: Io)       // "Run at startup" selected
    | AutoUpdateItem(io: Io)     // "Auto update" selected
    | ExitItem                   // "Exit" selected
    | WindowClose(w: WindowId)   // a content window's close notification

  function Step(t: TrayState, e: Event): TrayState
  {
    match e
    case TrayClick => t.(ui := ShownWindow(t.ui))
    case ContextMenu(io) => MenuShown(t, io)
    case RunAtStartup(io) => StartupToggled(t, io)
    case AutoUpdateItem(io) => UpdateToggled(t, io)
    case ExitItem => t.(ui := Exited(t.ui))
    case WindowClose(w) => if w in t.ui.open then t.(ui := BasicApp.Closed(t.ui, w)) else t
  }

  /** The events are delivered while a dispatch loop runs; once the last one stops, none are. */
  function Run(t: TrayState, events: seq<Event>): TrayState
    decreases |events|
  {
    if events == [] || t.ui.depth == 0 then t else Run(Step(t, events[0]), events[1..])
  }

  /** One process: build, then the events the loops deliver. */
  function Session(store: Store, startup: bool, io: Io, events: seq<Event>): TrayState
  {
    Run(TrayBuilt(Initial(store, startup), io), events)
  }

  /** One process start: what the platform does during build, then the events its loops deliver. */
  datatype Start = Start(io: Io, events: seq<Event>)

  /** Whole processes run one after another; each finds the store and registration the last one left. */
  function Restarts(t: TrayState, starts: seq<Start>): TrayState
    decreases |starts|
  {
    if starts == [] then t
    else Restarts(Session(t.store, t.startup, starts[0].io, starts[0].events), starts[1..])
  }

  /** Every process in the chain finds the bootstrap already done, so its bootstrap changes nothing. */
  predicate BootstrapsIdle(t: TrayState, starts: seq<Start>)
    decreases |starts|
  {
    starts != [] ==>
      && Initialised(Initial(t.store, t.startup), starts[0].io) == Initial(t.store, t.startup)
      && BootstrapsIdle(Session(t.store, t.startup, starts[0].io, starts[0].events), starts[1..])
  }

  // ---------------------------------------------------------------------
  // The coordinator object

  class SystemTray {
    const ui: UiThread
    const store: SettingsStore
    const startup: StartupRegistration
    var startupChecked: bool
    var updateChecked: bool
    var updateChecks: nat

    ghost function State(): TrayState
      reads this, ui, store, startup
    {
      TrayState(ui.State(), store.values, startup.enabled, startupChecked, updateChecked, updateChecks)
    }

    /** build_ui: the tray icon and its menu, both items unchecked, the slot empty. */
    constructor (store: SettingsStore, startup: StartupRegistration)
      ensures this.store == store && this.startup == startup && fresh(ui)
      ensures State() == Initial(store.values, startup.enabled)
    {
      ui := new UiThread();
      this.store := store;
      this.startup := startup;
      startupChecked, updateChecked, updateChecks := false, false, 0;
    }

    method Build(io: Io)
      modifies this, ui, store, startup
      ensures State() == TrayBuilt(old(State()), io)
    {
      FirstTimeInit(io);
      AutoUpdate(io);
      ui.DispatchThreadEvents();
    }

    method ShowMenu(io: Io)
      modifies this
      ensures State() == MenuShown(old(State()), io)
    {
      RefreshStartup(io);
      RefreshUpdate(io);
    }

    method ShowWindow()
      modifies ui
      ensures State() == old(State()).(ui := ShownWindow(old(ui.State())))
    {
      var found := SetForegroundWindow();
      if found {
        return;
      }
      var app := BasicApp.Build(ui);
      ui.slot := Some(app.window);
      found := SetForegroundWindow();
      ui.DispatchThreadEvents();
    }

    method ToggleStartup(io: Io)
      modifies startup
      ensures State() == StartupToggled(old(State()), io)
    {
      if !io.exeKnown {
        return;
      }
      var ok;
      if !startupChecked {
        ok := startup.Enable(io);
      } else {
        ok := startup.Disable(io);
      }
    }

    method ToggleUpdate(io: Io)
      modifies this, store
      ensures State() == UpdateToggled(old(State()), io)
    {
      if !io.keyOpens {
        return;
      }
      var ok := store.SetValue(io, AutoUpdateKey, Flag(!updateChecked));
      AutoUpdate(io);
    }

    method RefreshStartup(io: Io)
      modifies this
      ensures State() == StartupRefreshed(old(State()), io)
    {
      if !io.exeKnown {
        return;
      }
      var enabled := startup.IsEnabled(io);
      if enabled.Some? {
        startupChecked := enabled.value;
      }
    }

    method RefreshUpdate(io: Io)
      modifies this
      ensures State() == UpdateRefreshed(old(State()), io)
    {
      if !io.keyOpens {
        return;
      }
      var autoUpdate := store.GetValue(io, AutoUpdateKey);
      if autoUpdate.Some? {
        updateChecked := autoUpdate.value > 0;
      }
    }

    method SetForegroundWindow() returns (found: bool)
      modifies ui
      ensures (found, ui.State()) == Focused(old(ui.State()))
    {
      match ui.slot
      case Some(hwnd) =>
        ui.SetForeground(hwnd);
        found := true;
      case None =>
        found := false;
    }

    method FirstTimeInit(io: Io)
      modifies store, startup
      ensures State() == Initialised(old(State()), io)
    {
      if !io.keyOpens {
        return;
      }
      var firstTimeUse := store.GetValue(io, FirstTimeUseKey);
      if firstTimeUse.None? {
        var ok := store.SetValue(io, FirstTimeUseKey, Flag(true));
        if !ok {
          return;
        }
      }
      firstTimeUse := store.GetValue(io, FirstTimeUseKey);
      if firstTimeUse.None? {
        return;
      }
      if firstTimeUse.value == Flag(false) {
        return;
      }
      var ok := store.SetValue(io, FirstTimeUseKey, Flag(false));
      if !ok {
        return;
      }
      if io.exeKnown {
        ok := startup.Enable(io);
      }
      ok := store.SetValue(io, AutoUpdateKey, Flag(true));
    }

    method AutoUpdate(io: Io)
      modifies this
      ensures State() == AutoUpdated(old(State()), io)
    {
      if !io.keyOpens {
        return;
      }
      var autoUpdate := store.GetValue(io, AutoUpdateKey);
      if autoUpdate.None? {
        return;
      }
      if autoUpdate.value > 0 {
        updateChecks := updateChecks + 1;
      }
    }

    method Exit()
      modifies ui
      ensures State() == old(State()).(ui := Exited(old(ui.State())))
    {
      ui.StopThreadDispatch();
      ui.StopThreadDispatch();
    }

    /** The event wiring of the icon, the menu items and the content window's close. */
    method Handle(e: Event)
      modifies this, ui, store, startup
      ensures State() == Step(old(State()), e)
    {
      match e
      case TrayClick => ShowWindow();
      case ContextMenu(io) => ShowMenu(io);
      case RunAtStartup(io) => ToggleStartup(io);
      case AutoUpdateItem(io) => ToggleUpdate(io);
      case ExitItem => Exit();
      case WindowClose(w) =>
        if w in ui.open {
          BasicApp.Exit(BasicApp.BasicApp(w), ui);
        }
    }
  }

  // ---------------------------------------------------------------------
  // Properties

  /** Every event delivered while the loops run keeps the lifecycle invariant. */
  lemma StepKeepsLifecycle(t: TrayState, e: Event)
    requires Lifecycle(t.ui) && t.ui.depth > 0
    ensures Lifecycle(Step(t, e).ui)
  {
  }

  lemma {:induction false} RunKeepsLifecycle(t: TrayState, events: seq<Event>)
    requires Lifecycle(t.ui)
    ensures Lifecycle(Run(t, events).ui)
    decreases |events|
  {
    if events != [] && t.ui.depth > 0 {
      StepKeepsLifecycle(t, events[0]);
      RunKeepsLifecycle(Step(t, events[0]), events[1..]);
    }
  }

  /**
   * For any store, registration, start-up platform behaviour and sequence of
   * events: at most one content window is open, and the slot is empty
   * exactly when none is.
   */
  lemma AtMostOneWindow(store: Store, startup: bool, io: Io, events: seq<Event>)
    ensures var u := Session(store, startup, io, events).ui;
      |u.open| <= 1 && (u.slot.None? <==> u.open == {}) && (u.slot.Some? ==> u.slot.value in u.open)
  {
    RunKeepsLifecycle(TrayBuilt(Initial(store, startup), io), events);
  }

  /** After Exit no further event is delivered, whether or not a window was open. */
  lemma ExitEndsDispatch(t: TrayState, events: seq<Event>)
    requires Lifecycle(t.ui) && t.ui.depth > 0
    ensures Run(t, [ExitItem] + events) == t.(ui := Exited(t.ui))
    ensures Run(t, [ExitItem] + events).ui.depth == 0
  {
  }

  /**
   * Show, show, close, show, from a freshly built tray: two windows are built
   * in all, the second click only refocuses, and the third click opens the
   * second window in an emptied slot.
   */
  lemma ShowShowCloseShow(t: TrayState)
    requires t.ui == Idle.(depth := 1)
    ensures var r := Run(t, [TrayClick, TrayClick, WindowClose(0), TrayClick]);
      && r.ui.built == 2
      && r.ui.slot == Some(1) && r.ui.open == {1}
      && r.ui.focusRequests == 3
      && r.ui.stopRequests == 1
      && r.ui.depth == 2
  {
  }

  /** A bootstrap already done stays done over any number of restarts that can read FirstTimeUse. */
  /** Only the bootstrap writes FirstTimeUse: no event of a session changes it. */
  lemma {:induction false} RunKeepsFirstTimeUse(t: TrayState, events: seq<Event>)
    ensures Lookup(Run(t, events).store, FirstTimeUseKey) == Lookup(t.store, FirstTimeUseKey)
    decreases |events|
  {
    if events != [] && t.ui.depth > 0 {
      RunKeepsFirstTimeUse(Step(t, events[0]), events[1..]);
    }
  }

  /**
   * A bootstrap already done stays done over any number of whole processes
   * that can read FirstTimeUse, whatever their events: each of their
   * bootstraps changes nothing.
   */
  lemma {:induction false} BootstrapStaysDone(t: TrayState, starts: seq<Start>)
    requires Lookup(t.store, FirstTimeUseKey) == Some(0)
    requires forall i :: 0 <= i < |starts| ==> FirstTimeUseKey !in starts[i].io.readFails
    ensures BootstrapsIdle(t, starts)
    ensures Lookup(Restarts(t, starts).store, FirstTimeUseKey) == Some(0)
    decreases |starts|
  {
    if starts != [] {
      var s := starts[0];
      var t0 := Initial(t.store, t.startup);
      assert Initialised(t0, s.io) == t0;
      RunKeepsFirstTimeUse(TrayBuilt(t0, s.io), s.events);
      BootstrapStaysDone(Session(t.store, t.startup, s.io, s.events), starts[1..]);
    }
  }

  /**
   * The bootstrap side effects happen at most once across process starts:
   * after a first process whose bootstrap could write and read its mark,
   * every later process that can read it runs an idle bootstrap, so
   * registration and AutoUpdate are never set by the bootstrap again.
   */
  lemma BootstrapOnce(store: Store, startup: bool, first: Start, later: seq<Start>)
    requires first.io.keyOpens && FirstTimeUseKey !in first.io.readFails
    requires Writes(first.io, FirstTimeUseKey, 0)
    requires FirstTimeUseKey in store || Writes(first.io, FirstTimeUseKey, 1)
    requires forall i :: 0 <= i < |later| ==> FirstTimeUseKey !in later[i].io.readFails
    ensures BootstrapsIdle(Session(store, startup, first.io, first.events), later)
    ensures Lookup(Restarts(Initial(store, startup), [first] + later).store, FirstTimeUseKey) == Some(0)
  {
    var t0 := Initial(store, startup);
    RunKeepsFirstTimeUse(TrayBuilt(t0, first.io), first.events);
    var t1 := Session(store, startup, first.io, first.events);
    BootstrapStaysDone(t1, later);
    assert ([first] + later)[1..] == later;
    assert Restarts(t0, [first] + later) == Restarts(t1, later);
  }

  /**
   * FirstTimeUse is treated as absent on any read error: one start on which
   * the done mark cannot be read re-arms the bootstrap, and the next start
   * enables the registration again although the user had turned it off.
   */
  lemma UnreadableMarkRearmsBootstrap()
    ensures var done := Initial(map[FirstTimeUseKey := 0], false);
      var glitch := Start(Io(true, {FirstTimeUseKey}, {}, true, true), []);
      var ok := Start(Io(true, {}, {}, true, true), []);
      Restarts(done, [glitch, ok]).startup
  {
    var done := Initial(map[FirstTimeUseKey := 0], false);
    var glitch := Start(Io(true, {FirstTimeUseKey}, {}, true, true), []);
    var ok := Start(Io(true, {}, {}, true, true), []);
    var t1 := Session(done.store, done.startup, glitch.io, []);
    assert t1 == TrayBuilt(done, glitch.io);
    assert Lookup(t1.store, FirstTimeUseKey) == Some(1) && !t1.startup;
    var t2 := Session(t1.store, t1.startup, ok.io, []);
    assert t2 == TrayBuilt(Initial(t1.store, t1.startup), ok.io);
    assert t2.startup;
    assert [glitch, ok][1..] == [ok];
    assert [ok][1..] == [];
    assert Restarts(done, [glitch, ok]) == Restarts(t1, [ok]) == Restarts(t2, []);
  }

  /**
   * With the menu opened before each selection, as the UI requires, two
   * selections of "Auto update" restore AutoUpdate to its original 0/1 value,
   * and between them exactly one update check runs.
   */
  lemma ToggleRoundTrip(t: TrayState, io: Io)
    requires io.keyOpens && AutoUpdateKey !in io.readFails && AutoUpdateKey in t.store
    requires Writes(io, AutoUpdateKey, 0) && Writes(io, AutoUpdateKey, 1)
    ensures var r := UpdateToggled(MenuShown(UpdateToggled(MenuShown(t, io), io), io), io);
      && Lookup(r.store, AutoUpdateKey) == Some(Flag(t.store[AutoUpdateKey] > 0))
      && (forall k :: k != AutoUpdateKey ==> Lookup(r.store, k) == Lookup(t.store, k))
      && r.updateChecks == t.updateChecks + 1
  {
  }

  /** With AutoUpdate missing and the item never checked, the first selection enables updates and checks at once. */
  lemma FirstToggleEnables(t: TrayState, io: Io)
    requires AutoUpdateKey !in t.store && !t.updateChecked
    requires io.keyOpens && AutoUpdateKey !in io.readFails && Writes(io, AutoUpdateKey, 1)
    ensures var r := UpdateToggled(MenuShown(t, io), io);
      Lookup(r.store, AutoUpdateKey) == Some(1) && r.updateChecks == t.updateChecks + 1
  {
  }

  /**
   * A fresh install on a platform where every call succeeds: the first start
   * marks FirstTimeUse done, enables the registration, sets AutoUpdate to 1
   * and runs one update check before the tray's loop starts, with no window.
   */
  lemma FreshInstall(store: Store)
    requires FirstTimeUseKey !in store
    ensures var r := TrayBuilt(Initial(store, false), Io(true, {}, {}, true, true));
      && Lookup(r.store, FirstTimeUseKey) == Some(0)
      && r.startup
      && Lookup(r.store, AutoUpdateKey) == Some(1)
      && r.updateChecks == 1
      && r.ui == Idle.(depth := 1)
  {
  }
}

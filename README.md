# Tray coordinator of timetracker, in Dafny

This project models the core of timetracker, a Windows tray agent. The agent
lives in the notification area. A click on its icon opens one content window,
or brings the open window to the front. It keeps two preferences in the
registry: a first-run flag and an auto-update flag. It also controls the
"run at startup" registration.

What is modelled:

- **The window-handle slot.** `WINDOW_HANDLE` is a field of a `Shared.UiThread`
  object. The coordinator owns that object and hands it to the content window
  by reference, so there is no lock-guarded static. The same object records
  the content windows that exist and the number of dispatch loops running: the
  tray's outer loop plus one nested loop per open window. It also counts the
  side effects that leave the process: windows built, focus requests and
  dispatch-stop requests.
- **The content window** (`BasicApp`). `build` registers a new window and does
  not touch the slot. `exit` is the close handler: it empties the slot and
  stops one loop.
- **The settings store and the startup registration** (`Settings`). The store
  is the registry subkey, a map from value names to DWORDs. The registration
  is a boolean owned by the platform. A value of type `Io` says what the
  platform does to one handler call: whether the subkey opens, which reads and
  which writes fail, whether the executable path resolves, and whether the
  registration API succeeds.
- **The coordinator** (`SystemTray`). Every handler is a method of class
  `SystemTray.SystemTray`. Its contract gives the new state as a function of
  the old state, and that function's own contract says what the handler
  promises. `Step` and `Run` feed scripted event sequences to the handlers,
  and the lemmas prove:
  - at most one content window is open;
  - the slot is empty exactly when no window is open;
  - the bootstrap's side effects happen at most once across process starts;
  - two "Auto update" selections restore the stored flag.
- **The older revision** (`LegacyTray`). Its show, focus and exit code is the
  same as the current revision's. A lemma proves that the current revision's
  window lifecycle equals the older one on the events both revisions have.

Three behaviours of the code that a reader might not expect:

- `toggle_update` writes the inverse of the menu item's check mark, not the
  inverse of the stored value. A refresh that cannot read `AutoUpdate` leaves
  the mark as it was. `SystemTray.UpdateToggled` states this.
- First run is detected by an explicit `FirstTimeUse` value, not by whether
  the subkey was just created. Any read error counts as "absent". So a start on
  which the done mark cannot be read writes `FirstTimeUse = 1` again, and the
  next start repeats the bootstrap (`SystemTray.UnreadableMarkRearmsBootstrap`).
  The at-most-once guarantee therefore assumes that later starts can read the
  mark.
- On a first run, `AutoUpdate` is set to 1, as `first_time_init` does.

## Model

| member | source | states |
|---|---|---|
| BasicApp.Built | src/basic_app.rs:23-25 | building a content window adds one open window that was not open before; the slot, the loops and the other counters are unchanged |
| BasicApp.Build | src/basic_app.rs:23-25 | the method returns the new window and leaves the UI state that `Built` gives |
| BasicApp.Closed | src/basic_app.rs:31-35 | the close handler empties the slot whatever it held, removes the window, requests exactly one dispatch stop and ends one running loop |
| BasicApp.Exit | src/basic_app.rs:31-35 | the close handler method leaves the UI state that `Closed` gives |
| BasicApp.ClosedKeepsLifecycle | src/basic_app.rs:31-35 | closing the open window keeps the lifecycle invariant, leaves no window open, and returns to the tray's single loop |
| SystemTray.Focused | src/system_tray.rs:144-150 | the focus test is true exactly when the slot holds a window; it never changes the slot; a focus request is recorded exactly when it is true |
| SystemTray.ShownWindow | src/system_tray.rs:68-80 | with an occupied slot, only a focus request and no new window; with an empty slot, exactly one new window, stored in the slot, focused, with one more dispatch loop |
| SystemTray.Exited | src/system_tray.rs:211-214 | exit issues two stop requests, which end every running loop of a well-formed state; the slot and windows are untouched |
| SystemTray.Initialised | src/system_tray.rs:152-180 | the bootstrap is a no-op when the subkey does not open or `FirstTimeUse` reads 0; it does nothing if the initial write fails; registration and `AutoUpdate` change only once `FirstTimeUse` is 0; a failed write of the mark prevents both; a first run enables registration and sets `AutoUpdate` to 1, best effort and not rolled back; registration is never turned off |
| SystemTray.AutoUpdated | src/system_tray.rs:182-194 | the update check runs, once, exactly when the subkey opens and `AutoUpdate` is present, readable and positive; nothing else changes |
| SystemTray.UpdateToggled | src/system_tray.rs:94-103 | `AutoUpdate` is written as the inverse of the check mark; only that value changes; the mark is not changed; the update check then runs exactly when the value now stored reads positive |
| SystemTray.UpdateRefreshed | src/system_tray.rs:115-123 | the check mark becomes `AutoUpdate > 0` when the value is readable, and nothing else changes; nothing is written |
| SystemTray.StartupToggled | src/system_tray.rs:82-92 | registration becomes enabled when the item is unchecked and disabled when it is checked; without the executable path or with a failing registration API nothing changes |
| SystemTray.StartupRefreshed | src/system_tray.rs:105-113 | the check mark follows the registration when it can be queried; nothing else changes |
| SystemTray.MenuShown | src/system_tray.rs:60-66 | opening the menu refreshes both check marks and changes nothing else: the store, registration, windows and counters are only read; a mark whose refresh fails keeps its old value |
| SystemTray.TrayBuilt | src/system_tray.rs:48-58 | build runs the bootstrap, then at most one update check against the store the bootstrap left, then enters the tray's loop; no window is opened and neither check mark changes |
| SystemTray.SystemTray.constructor | src/system_tray.rs:48-50 | the built tray starts with an empty slot, no window, no loop, both items unchecked, and the store and registration as found |
| SystemTray.SystemTray.Build | src/system_tray.rs:48-58 | the method leaves the state that `TrayBuilt` gives |
| SystemTray.SystemTray.ShowMenu | src/system_tray.rs:60-66 | the method leaves the state that `MenuShown` gives |
| SystemTray.SystemTray.ShowWindow | src/system_tray.rs:68-80 | the method changes only the UI thread, as `ShownWindow` gives |
| SystemTray.SystemTray.ToggleStartup | src/system_tray.rs:82-92 | the method leaves the state that `StartupToggled` gives |
| SystemTray.SystemTray.ToggleUpdate | src/system_tray.rs:94-103 | the method leaves the state that `UpdateToggled` gives |
| SystemTray.SystemTray.RefreshStartup | src/system_tray.rs:105-113 | the method leaves the state that `StartupRefreshed` gives |
| SystemTray.SystemTray.RefreshUpdate | src/system_tray.rs:115-123 | the method leaves the state that `UpdateRefreshed` gives |
| SystemTray.SystemTray.SetForegroundWindow | src/system_tray.rs:144-150 | the method returns and records what `Focused` gives |
| SystemTray.SystemTray.FirstTimeInit | src/system_tray.rs:152-180 | the method's chain of guarded reads and writes leaves the state that `Initialised` gives |
| SystemTray.SystemTray.AutoUpdate | src/system_tray.rs:182-194 | the method leaves the state that `AutoUpdated` gives |
| SystemTray.SystemTray.Exit | src/system_tray.rs:211-214 | the method changes only the UI thread, as `Exited` gives |
| SystemTray.SystemTray.Handle | src/system_tray.rs:17-44 | the event wiring (icon click, menu items, the window's close) runs the handler that `Step` names |
| SystemTray.StepKeepsLifecycle | src/system_tray.rs:68-80 | every event delivered while a loop runs keeps the lifecycle invariant |
| SystemTray.RunKeepsLifecycle | src/system_tray.rs:68-80 | any sequence of events keeps the lifecycle invariant |
| SystemTray.AtMostOneWindow | src/system_tray.rs:68-80 | in every session, at most one content window is open, and the slot is empty exactly when none is |
| SystemTray.ExitEndsDispatch | src/system_tray.rs:211-214 | after Exit no further event is delivered, whether or not a window was open |
| SystemTray.ShowShowCloseShow | src/system_tray.rs:68-80 | show, show, close, show builds two windows; the second show only refocuses; the close empties the slot, so the third show builds again |
| SystemTray.RunKeepsFirstTimeUse | src/system_tray.rs:82-123 | no event of a session (menu, toggles, windows, exit) changes `FirstTimeUse`; only the bootstrap writes it |
| SystemTray.BootstrapStaysDone | src/system_tray.rs:163-169 | once `FirstTimeUse` is 0, every bootstrap in any number of later whole processes that can read it changes nothing, and the mark stays 0 |
| SystemTray.BootstrapOnce | src/system_tray.rs:157-179 | after a first process whose bootstrap can write and read its mark, the bootstrap of every later whole process that can read it is idle, whatever events those processes see, so the side effects happen at most once |
| SystemTray.UnreadableMarkRearmsBootstrap | src/system_tray.rs:157-161 | a start on which the done mark cannot be read re-arms the bootstrap, and the next start enables the registration again |
| SystemTray.ToggleRoundTrip | src/system_tray.rs:94-123 | with the menu refreshed before each selection, two "Auto update" selections restore `AutoUpdate` to its original 0/1 value and run exactly one update check |
| SystemTray.FirstToggleEnables | src/system_tray.rs:94-103 | with `AutoUpdate` missing and the item unchecked, the first selection stores 1 and runs the update check |
| SystemTray.FreshInstall | src/system_tray.rs:48-58 | on a fresh install where every call succeeds, the first start marks the bootstrap done, enables registration, sets `AutoUpdate` to 1 and runs one update check before the loop starts |
| LegacyTray.SameWindowLifecycle | timetracker/timetracker/src/system_tray.rs:52-77 | on any event sequence, the current revision's windows, slot, loops and counters evolve as the older revision's do on the events it has |
| LegacyTray.RunKeepsLifecycle | timetracker/timetracker/src/system_tray.rs:52-77 | the older revision keeps the lifecycle invariant over any event sequence |
| LegacyTray.AtMostOneWindow | timetracker/timetracker/src/system_tray.rs:52-64 | in the older revision too, at most one content window is open and the slot tracks it |
| LegacyTray.FocusAfterStoreSucceeds | timetracker/timetracker/src/system_tray.rs:57-63 | with an empty slot, the focus request after storing the new handle succeeds |
| LegacyTray.LegacyTray.constructor | timetracker/timetracker/src/system_tray.rs:38-40 | the older tray starts with an empty slot, no window and no loop |
| LegacyTray.LegacyTray.Build | timetracker/timetracker/src/system_tray.rs:38-45 | build only enters the dispatch loop; there is no store access, bootstrap or update check |
| LegacyTray.LegacyTray.ShowMenu | timetracker/timetracker/src/system_tray.rs:47-50 | showing the menu changes no state |
| LegacyTray.LegacyTray.ShowWindow | timetracker/timetracker/src/system_tray.rs:52-64 | the method leaves the UI state that `ShownWindow` gives; on an empty slot its second focus test succeeds |
| LegacyTray.LegacyTray.TrySetForegroundWindow | timetracker/timetracker/src/system_tray.rs:66-72 | the method returns true exactly when the slot holds a window and never changes the slot, as `Focused` gives |
| LegacyTray.LegacyTray.Exit | timetracker/timetracker/src/system_tray.rs:74-77 | the method issues two dispatch-stop requests, as `Exited` gives |

## Left out

- Window, tray icon, menu and popup construction and rendering, including the cursor position and the embedded icon. These are UI plumbing.
- Registry access syntax and the creation disposition returned by `create_subkey`. The store is a map, and whether the subkey opens is part of `Io`.
- The internals of the auto-launch library. The panic of `unwrap` on a non-UTF-8 executable path is a panic in foreign code and is not modelled.
- The download in `update`. It is network I/O, so only the count of update checks is kept.
- `SetForegroundWindow` and raw `HWND` handling. A call is recorded as a focus request.
- The `Mutex` around the slot. Every handler runs on one thread, so the slot is a plain field.
- The single-instance guard and UI initialisation in src/main.rs.
- The hello-world main of the older revision, and both build scripts.
- timetracker/timetracker/src/basic_app.rs is not part of this model. The older revision is taken to use the same content window as the current one.
- `BasicApp::window` is the field `window` of the `BasicApp` value that `Build` returns. A field read cannot change state, so it has no contract of its own.
- The `expect` panics when building the UI fails are not modelled.
- The window is destroyed when `show_window` drops it after its nested loop ends. The model folds this into the close handler, which removes the window from the open set.
- All reads and writes within one handler call see the same `Io` value. A failure that differs between two reads of the same value within one call is not modelled.
- Real dispatch loops are not modelled. A counter of running loops stands in for them, and `Run` stops delivering events once it reaches zero.

/**
 * The window-handle slot of src/shared.rs, together with the part of the
 * UI thread that the coordinator observes: which content windows exist, how
 * many dispatch loops are running, and counters for the side effects that
 * leave the process (window construction, focus requests, loop stops).
 *
 * The slot is a field of a `UiThread` object that the tray coordinator owns
 * and hands to the content window by reference, instead of a lock-guarded
 * process-wide static: every handler runs on the one UI thread.
 */
module Shared {
  import opened Wrappers

  /** Opaque handle of a content window; handles are issued in creation order. */
  type WindowId = nat

  datatype UiState = UiState(
    slot: Option<WindowId>,  // WINDOW_HANDLE
    open: set<WindowId>,     // content windows that exist and have not processed their close
    built: nat,              // content windows built so far
    depth: nat,              // dispatch loops running: the tray's outer loop and one per open window
    focusRequests: nat,      // calls of SetForegroundWindow
    stopRequests: nat)       // calls of stop_thread_dispatch

  /** The UI thread before the tray is built: empty slot, no window, no loop. */
  const Idle := UiState(None, {}, 0, 0, 0, 0)

  /** Every open window has a handle that was issued already. */
  predicate FreshIds(u: UiState)
  {
    forall w :: w in u.open ==> w < u.built
  }

  /**
   * The lifecycle invariant: the slot is empty exactly when no content window
   * is open and otherwise names the only open one; while the dispatch loops
   * run there is one nested loop per open window on top of the tray's loop.
   */
  predicate Lifecycle(u: UiState)
  {
    && FreshIds(u)
    && u.open == (if u.slot.Some? then {u.slot.value} else {})
    && (u.depth > 0 ==> u.depth == |u.open| + 1)
  }

  /** nwg::stop_thread_dispatch: the innermost running loop ends. */
  function StopDispatch(u: UiState): UiState
  {
    u.(depth := if u.depth > 0 then u.depth - 1 else 0, stopRequests := u.stopRequests + 1)
  }

  /** nwg::dispatch_thread_events: one more loop runs until it is stopped. */
  function EnterDispatch(u: UiState): UiState
  {
    u.(depth := u.depth + 1)
  }

  /** SetForegroundWindow on a handle: recorded, nothing else changes. */
  function RequestFocus(u: UiState): UiState
  {
    u.(focusRequests := u.focusRequests + 1)
  }

  class UiThread {
    var slot: Option<WindowId>
    var open: set<WindowId>
    var built: nat
    var depth: nat
    var focusRequests: nat
    var stopRequests: nat

    ghost function State(): UiState
      reads this
    {
      UiState(slot, open, built, depth, focusRequests, stopRequests)
    }

    constructor ()
      ensures State() == Idle
    {
      slot, open, built := None, {}, 0;
      depth, focusRequests, stopRequests := 0, 0, 0;
    }

    method StopThreadDispatch()
      modifies this
      ensures State() == StopDispatch(old(State()))
    {
      depth := if depth > 0 then depth - 1 else 0;
      stopRequests := stopRequests + 1;
    }

    method DispatchThreadEvents()
      modifies this
      ensures State() == EnterDispatch(old(State()))
    {
      depth := depth + 1;
    }

    method SetForeground(hwnd: WindowId)
      modifies this
      ensures State() == RequestFocus(old(State()))
    {
      focusRequests := focusRequests + 1;
    }
  }
}

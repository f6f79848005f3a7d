/**
 * The extension's nine operations (hide / show / is_visible on an explicit
 * window, on the main window, and "by object"), built from one shared toggle
 * and one shared query on a native handle plus three ways of obtaining that
 * handle.  The specification functions below (CanToggle, Toggled,
 * TaskbarVisible, MainWindow) describe the effect on the window table; the
 * methods follow the source's statements and are proved against them.
 */
module HideTaskbar {
  import opened TaskbarStyle
  import opened Win32

  /** A `Window*` argument: a null pointer, or an engine window with its id. */
  datatype WindowRef = NullWindow | Window(id: WindowId)

  /** The engine's primary window has id 0. */
  const MAIN_WINDOW_ID: WindowId := 0

  /** Which way a toggle turns the taskbar entry. */
  datatype Toggle = HideEntry | ShowEntry

  function Apply(a: Toggle, ex: LongPtr): LongPtr {
    match a
    case HideEntry => Hidden(ex)
    case ShowEntry => Shown(ex)
  }

  /** The flag pattern a successful toggle leaves behind. */
  predicate FlagsAfter(a: Toggle, ex: LongPtr) {
    match a
    case HideEntry => !Has(ex, WS_EX_APPWINDOW) && Has(ex, WS_EX_TOOLWINDOW)
    case ShowEntry => Has(ex, WS_EX_APPWINDOW) && !Has(ex, WS_EX_TOOLWINDOW)
  }

  // ---------------------------------------------------------------------
  // Handle resolution

  /** get_window_handle: NULL for a null window, otherwise the display server's handle. */
  function GetWindowHandle(handles: map<WindowId, Handle>, window: WindowRef): (h: Handle)
    ensures window.NullWindow? ==> h == NULL
    ensures window.Window? ==> h == WindowGetNativeHandle(handles, window.id)
    ensures h != NULL ==> window.Window? && window.id in handles && handles[window.id] == h
  {
    match window
    case NullWindow => NULL
    case Window(id) => WindowGetNativeHandle(handles, id)
  }

  /**
   * The process id the enumeration callback compares with: it reads a DWORD
   * through lParam, and lParam points at the result slot `found_hwnd`, so the
   * value is the low 32 bits of whatever handle that slot holds.
   */
  function SlotPid(found: Handle): Dword {
    (found % 0x1_0000_0000) as Dword
  }

  /**
   * The callback's filter.  The caption test is an intersection: any bit of
   * WS_CAPTION (WS_BORDER or WS_DLGFRAME) is enough.
   */
  predicate IsMainCandidate(t: Table, h: Handle, pid: Dword) {
    && GetWindowThreadProcessId(t, h) == pid
    && IsWindowVisible(t, h)
    && GetParent(t, h) == NULL
    && (GetWindowLong(t, h) & WS_CAPTION) != 0
    && (GetWindowLong(t, h) & WS_SYSMENU) != 0
  }

  /** Index of the first candidate in enumeration order, or |order| when there is none. */
  function FirstCandidate(t: Table, order: seq<Handle>, pid: Dword): (i: nat)
    ensures i <= |order|
    ensures i < |order| ==> IsMainCandidate(t, order[i], pid)
    ensures forall j :: 0 <= j < i && j < |order| ==> !IsMainCandidate(t, order[j], pid)
    decreases |order|
  {
    if order == [] then 0
    else if IsMainCandidate(t, order[0], pid) then 0
    else 1 + FirstCandidate(t, order[1..], pid)
  }

  /**
   * get_main_window_handle: the display server's handle for window 0 when it
   * is live, else the first enumerated candidate (compared against the pid
   * read from the still-NULL result slot), else NULL.
   */
  function MainWindow(t: Table, handles: map<WindowId, Handle>, order: seq<Handle>): (h: Handle)
    ensures IsWindow(t, WindowGetNativeHandle(handles, MAIN_WINDOW_ID)) ==>
              h == WindowGetNativeHandle(handles, MAIN_WINDOW_ID)
    ensures h == NULL || IsWindow(t, h)
    ensures h == NULL <==>
              !IsWindow(t, WindowGetNativeHandle(handles, MAIN_WINDOW_ID)) &&
              FirstCandidate(t, order, 0) == |order|
    ensures !IsWindow(t, WindowGetNativeHandle(handles, MAIN_WINDOW_ID)) && h != NULL ==>
              FirstCandidate(t, order, 0) < |order| &&
              h == order[FirstCandidate(t, order, 0)] &&
              GetWindowThreadProcessId(t, h) == 0
  {
    var primary := WindowGetNativeHandle(handles, MAIN_WINDOW_ID);
    if primary != NULL && IsWindow(t, primary) then primary
    else
      var i := FirstCandidate(t, order, SlotPid(NULL));
      var found := if i < |order| then order[i] else NULL;
      if found != NULL && IsWindow(t, found) then found else NULL
  }

  method GetMainWindowHandle(os: Desktop) returns (hwnd: Handle)
    ensures hwnd == MainWindow(os.windows, os.nativeHandles, os.enumOrder)
  {
    hwnd := WindowGetNativeHandle(os.nativeHandles, MAIN_WINDOW_ID);
    if hwnd != NULL && IsWindow(os.windows, hwnd) {
      return;
    }

    // Computed and never passed to the callback.
    var currentProcessId := os.currentProcessId;
    var found: Handle := NULL;

    // EnumWindows: calls the callback on each top-level window in turn,
    // stopping once it returns FALSE.
    var order := os.enumOrder;
    var k := 0;
    var enumerating := true;
    while enumerating && k < |order|
      invariant 0 <= k <= |order|
      invariant enumerating ==> found == NULL && FirstCandidate(os.windows, order, 0) >= k
      invariant !enumerating ==> 0 < k && found == order[k - 1] &&
                                 FirstCandidate(os.windows, order, 0) == k - 1
      decreases |order| - k
    {
      var h := order[k];
      var windowProcessId := GetWindowThreadProcessId(os.windows, h);
      var currentPid := SlotPid(found);
      if windowProcessId == currentPid {
        if IsWindowVisible(os.windows, h) && GetParent(os.windows, h) == NULL {
          var style := GetWindowLong(os.windows, h);
          if (style & WS_CAPTION) != 0 && (style & WS_SYSMENU) != 0 {
            found := h;
            enumerating := false;
          }
        }
      }
      k := k + 1;
    }

    if found != NULL && IsWindow(os.windows, found) {
      return found;
    }
    return NULL;
  }

  // ---------------------------------------------------------------------
  // The shared toggle and query on a native handle

  /** The guard chain of every hide/show: a non-null, live handle whose exStyle reads non-zero. */
  predicate CanToggle(t: Table, hwnd: Handle) {
    hwnd != NULL && IsWindow(t, hwnd) && GetWindowLongPtr(t, hwnd) != 0
  }

  /** The window table after a hide or show on `hwnd`. */
  function Toggled(t: Table, hwnd: Handle, a: Toggle): (r: Table)
    ensures r.Keys == t.Keys
    ensures forall g :: g in t && g != hwnd ==> r[g] == t[g]
    ensures !CanToggle(t, hwnd) ==> r == t
    ensures CanToggle(t, hwnd) ==>
              && r[hwnd].(exStyle := t[hwnd].exStyle) == t[hwnd]
              && OtherBitsAgree(r[hwnd].exStyle, t[hwnd].exStyle)
              && FlagsAfter(a, r[hwnd].exStyle)
  {
    if CanToggle(t, hwnd) then WithExStyle(t, hwnd, Apply(a, t[hwnd].exStyle)) else t
  }

  /** The guard and predicate of every is_visible: a live handle whose exStyle is on the taskbar. */
  predicate TaskbarVisible(t: Table, hwnd: Handle) {
    hwnd != NULL && IsWindow(t, hwnd) && InTaskbar(GetWindowLongPtr(t, hwnd))
  }

  /** The two in-place updates of the read exStyle, in the source's order. */
  method RewriteExStyle(a: Toggle, read: LongPtr) returns (exStyle: LongPtr)
    ensures exStyle == Apply(a, read)
  {
    exStyle := read;
    match a {
      case HideEntry =>
        exStyle := exStyle & !WS_EX_APPWINDOW;
        exStyle := exStyle | WS_EX_TOOLWINDOW;
      case ShowEntry =>
        exStyle := exStyle | WS_EX_APPWINDOW;
        exStyle := exStyle & !WS_EX_TOOLWINDOW;
    }
  }

  method ToggleHandle(os: Desktop, hwnd: Handle, a: Toggle) returns (ok: bool)
    modifies os`windows, os`refreshes
    ensures ok == CanToggle(old(os.windows), hwnd)
    ensures os.windows == Toggled(old(os.windows), hwnd, a)
    ensures os.refreshes == old(os.refreshes) + (if ok then 2 else 0)
  {
    if hwnd != NULL && IsWindow(os.windows, hwnd) {
      var exStyle := GetWindowLongPtr(os.windows, hwnd);
      if exStyle != 0 {
        exStyle := RewriteExStyle(a, exStyle);
        os.SetWindowLongPtr(hwnd, exStyle);
        os.ShowWindow(hwnd, SW_HIDE);
        os.ShowWindow(hwnd, SW_SHOW);
        return true;
      }
    }
    return false;
  }

  method QueryHandle(os: Desktop, hwnd: Handle) returns (inTaskbar: bool)
    ensures inTaskbar == TaskbarVisible(os.windows, hwnd)
    ensures inTaskbar ==> hwnd != NULL && IsWindow(os.windows, hwnd)
  {
    if hwnd != NULL && IsWindow(os.windows, hwnd) {
      var exStyle := GetWindowLongPtr(os.windows, hwnd);
      var hasAppWindow := (exStyle & WS_EX_APPWINDOW) != 0;
      var hasToolWindow := (exStyle & WS_EX_TOOLWINDOW) != 0;
      return hasAppWindow && !hasToolWindow;
    }
    return false;
  }

  // ---------------------------------------------------------------------
  // Properties of the toggle and the query

  /** After a successful toggle the query reports the direction just taken, and the sentinel still passes. */
  lemma ToggleThenQuery(t: Table, hwnd: Handle, a: Toggle)
    requires CanToggle(t, hwnd)
    ensures TaskbarVisible(Toggled(t, hwnd, a), hwnd) <==> a == ShowEntry
    ensures CanToggle(Toggled(t, hwnd, a), hwnd)
  {
  }

  /** Whatever happened before, the last toggle alone decides the table; in particular each toggle is idempotent. */
  lemma LastToggleWins(t: Table, hwnd: Handle, a: Toggle, b: Toggle)
    ensures Toggled(Toggled(t, hwnd, a), hwnd, b) == Toggled(t, hwnd, b)
  {
    if CanToggle(t, hwnd) {
      var ex := t[hwnd].exStyle;
      match a {
        case HideEntry =>
          match b {
            case HideEntry => HiddenIdempotent(ex);
            case ShowEntry => ShownAfterHidden(ex);
          }
        case ShowEntry =>
          match b {
            case HideEntry => HiddenAfterShown(ex);
            case ShowEntry => ShownIdempotent(ex);
          }
      }
    }
  }

  /** A live window whose exStyle reads 0 is left alone by hide and show, and is not reported on the taskbar. */
  lemma ZeroExStyleSentinel(t: Table, hwnd: Handle, a: Toggle)
    requires IsWindow(t, hwnd) && t[hwnd].exStyle == 0
    ensures !CanToggle(t, hwnd) && Toggled(t, hwnd, a) == t
    ensures !TaskbarVisible(t, hwnd)
  {
  }

  /** A fresh window with the default style passes is_visible; hide makes it fail; show makes it pass again. */
  lemma DefaultWindowScenario(t: Table, hwnd: Handle)
    requires IsWindow(t, hwnd) && t[hwnd].exStyle == WS_EX_APPWINDOW
    ensures TaskbarVisible(t, hwnd)
    ensures !TaskbarVisible(Toggled(t, hwnd, HideEntry), hwnd)
    ensures TaskbarVisible(Toggled(Toggled(t, hwnd, HideEntry), hwnd, ShowEntry), hwnd)
  {
    ToggleThenQuery(t, hwnd, HideEntry);
    ToggleThenQuery(Toggled(t, hwnd, HideEntry), hwnd, ShowEntry);
  }

  // ---------------------------------------------------------------------
  // Properties of main-window resolution

  /**
   * The current process's own main frame is never found by the enumeration:
   * with no display-server handle, a visible, captioned, top-level window of
   * process `pid` != 0 resolves to NULL.
   */
  lemma OwnWindowNotFound(t: Table, handles: map<WindowId, Handle>, h: Handle, pid: Dword)
    requires MAIN_WINDOW_ID !in handles
    requires pid != 0 && h != NULL
    requires t == map[h := WindowRecord(true, pid, true, NULL, WS_CAPTION | WS_SYSMENU, WS_EX_APPWINDOW)]
    ensures IsMainCandidate(t, h, pid)
    ensures MainWindow(t, handles, [h]) == NULL
  {
  }

  /** One bit of WS_CAPTION is enough: a WS_BORDER-only window with a system menu qualifies. */
  lemma CaptionTestIsIntersection(t: Table, h: Handle)
    requires IsWindow(t, h) && t[h].pid == 0 && t[h].visible && t[h].parent == NULL
    requires t[h].style == WS_BORDER | WS_SYSMENU
    ensures (t[h].style & WS_CAPTION) != WS_CAPTION
    ensures IsMainCandidate(t, h, SlotPid(NULL))
  {
  }

  // ---------------------------------------------------------------------
  // The nine operations

  /** hide(window). */
  method Hide(os: Desktop, window: WindowRef) returns (ok: bool)
    modifies os`windows, os`refreshes
    ensures ok == CanToggle(old(os.windows), GetWindowHandle(os.nativeHandles, window))
    ensures os.windows == Toggled(old(os.windows), GetWindowHandle(os.nativeHandles, window), HideEntry)
    ensures os.refreshes == old(os.refreshes) + (if ok then 2 else 0)
    ensures window.NullWindow? ==> !ok && os.windows == old(os.windows)
    ensures ok ==> !TaskbarVisible(os.windows, GetWindowHandle(os.nativeHandles, window))
  {
    var hwnd := GetWindowHandle(os.nativeHandles, window);
    ok := ToggleHandle(os, hwnd, HideEntry);
    if ok {
      ToggleThenQuery(old(os.windows), hwnd, HideEntry);
    }
  }

  /** show(window). */
  method Show(os: Desktop, window: WindowRef) returns (ok: bool)
    modifies os`windows, os`refreshes
    ensures ok == CanToggle(old(os.windows), GetWindowHandle(os.nativeHandles, window))
    ensures os.windows == Toggled(old(os.windows), GetWindowHandle(os.nativeHandles, window), ShowEntry)
    ensures os.refreshes == old(os.refreshes) + (if ok then 2 else 0)
    ensures window.NullWindow? ==> !ok && os.windows == old(os.windows)
    ensures ok ==> TaskbarVisible(os.windows, GetWindowHandle(os.nativeHandles, window))
  {
    var hwnd := GetWindowHandle(os.nativeHandles, window);
    ok := ToggleHandle(os, hwnd, ShowEntry);
    if ok {
      ToggleThenQuery(old(os.windows), hwnd, ShowEntry);
    }
  }

  /** is_visible(window). */
  method IsVisible(os: Desktop, window: WindowRef) returns (inTaskbar: bool)
    ensures inTaskbar == TaskbarVisible(os.windows, GetWindowHandle(os.nativeHandles, window))
    ensures window.NullWindow? ==> !inTaskbar
  {
    var hwnd := GetWindowHandle(os.nativeHandles, window);
    inTaskbar := QueryHandle(os, hwnd);
  }

  /** hide_main_window(). */
  method HideMainWindow(os: Desktop) returns (ok: bool)
    modifies os`windows, os`refreshes
    ensures ok == CanToggle(old(os.windows), MainWindow(old(os.windows), os.nativeHandles, os.enumOrder))
    ensures os.windows == Toggled(old(os.windows), MainWindow(old(os.windows), os.nativeHandles, os.enumOrder), HideEntry)
    ensures os.refreshes == old(os.refreshes) + (if ok then 2 else 0)
    ensures ok ==> !TaskbarVisible(os.windows, MainWindow(old(os.windows), os.nativeHandles, os.enumOrder))
  {
    var hwnd := GetMainWindowHandle(os);
    ok := ToggleHandle(os, hwnd, HideEntry);
    if ok {
      ToggleThenQuery(old(os.windows), hwnd, HideEntry);
    }
  }

  /** show_main_window(). */
  method ShowMainWindow(os: Desktop) returns (ok: bool)
    modifies os`windows, os`refreshes
    ensures ok == CanToggle(old(os.windows), MainWindow(old(os.windows), os.nativeHandles, os.enumOrder))
    ensures os.windows == Toggled(old(os.windows), MainWindow(old(os.windows), os.nativeHandles, os.enumOrder), ShowEntry)
    ensures os.refreshes == old(os.refreshes) + (if ok then 2 else 0)
    ensures ok ==> TaskbarVisible(os.windows, MainWindow(old(os.windows), os.nativeHandles, os.enumOrder))
  {
    var hwnd := GetMainWindowHandle(os);
    ok := ToggleHandle(os, hwnd, ShowEntry);
    if ok {
      ToggleThenQuery(old(os.windows), hwnd, ShowEntry);
    }
  }

  /** is_main_window_visible(). */
  method IsMainWindowVisible(os: Desktop) returns (inTaskbar: bool)
    ensures inTaskbar == TaskbarVisible(os.windows, MainWindow(os.windows, os.nativeHandles, os.enumOrder))
  {
    var hwnd := GetMainWindowHandle(os);
    inTaskbar := QueryHandle(os, hwnd);
  }

  /** hide_window_by_object(window): the null check comes first, then a direct handle lookup. */
  method HideWindowByObject(os: Desktop, window: WindowRef) returns (ok: bool)
    modifies os`windows, os`refreshes
    ensures ok == CanToggle(old(os.windows), GetWindowHandle(os.nativeHandles, window))
    ensures os.windows == Toggled(old(os.windows), GetWindowHandle(os.nativeHandles, window), HideEntry)
    ensures os.refreshes == old(os.refreshes) + (if ok then 2 else 0)
    ensures window.NullWindow? ==> !ok && os.windows == old(os.windows)
    ensures ok ==> !TaskbarVisible(os.windows, GetWindowHandle(os.nativeHandles, window))
  {
    if window.NullWindow? {
      return false;
    }
    var hwnd := WindowGetNativeHandle(os.nativeHandles, window.id);
    ok := ToggleHandle(os, hwnd, HideEntry);
    if ok {
      ToggleThenQuery(old(os.windows), hwnd, HideEntry);
    }
  }

  /** show_window_by_object(window). */
  method ShowWindowByObject(os: Desktop, window: WindowRef) returns (ok: bool)
    modifies os`windows, os`refreshes
    ensures ok == CanToggle(old(os.windows), GetWindowHandle(os.nativeHandles, window))
    ensures os.windows == Toggled(old(os.windows), GetWindowHandle(os.nativeHandles, window), ShowEntry)
    ensures os.refreshes == old(os.refreshes) + (if ok then 2 else 0)
    ensures window.NullWindow? ==> !ok && os.windows == old(os.windows)
    ensures ok ==> TaskbarVisible(os.windows, GetWindowHandle(os.nativeHandles, window))
  {
    if window.NullWindow? {
      return false;
    }
    var hwnd := WindowGetNativeHandle(os.nativeHandles, window.id);
    ok := ToggleHandle(os, hwnd, ShowEntry);
    if ok {
      ToggleThenQuery(old(os.windows), hwnd, ShowEntry);
    }
  }

  /** is_window_visible_by_object(window). */
  method IsWindowVisibleByObject(os: Desktop, window: WindowRef) returns (inTaskbar: bool)
    ensures inTaskbar == TaskbarVisible(os.windows, GetWindowHandle(os.nativeHandles, window))
    ensures window.NullWindow? ==> !inTaskbar
  {
    if window.NullWindow? {
      return false;
    }
    var hwnd := WindowGetNativeHandle(os.nativeHandles, window.id);
    inTaskbar := QueryHandle(os, hwnd);
  }
}

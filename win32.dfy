/**
 * The slice of the Win32 windowing API the extension relies on, over an
 * abstract window table.  Queries are functions of the table, named after the
 * API calls they stand for; the two calls that change something
 * (SetWindowLongPtr and ShowWindow) are methods of the Desktop class that
 * holds the operating system's state.
 */
module Win32 {
  import opened TaskbarStyle

  /** HWND: an opaque handle; 0 is NULL. */
  type Handle = nat
  const NULL: Handle := 0

  /** The engine's window id (`Window::get_window_id`, a uint32_t). */
  type WindowId = nat

  type Dword = bv32
  /** The basic style word (GWL_STYLE) is read as a 32-bit LONG. */
  type Long = bv32

  /** WS_CAPTION is WS_BORDER | WS_DLGFRAME. */
  const WS_BORDER: Long := 0x0080_0000
  const WS_DLGFRAME: Long := 0x0040_0000
  const WS_CAPTION: Long := 0x00C0_0000
  const WS_SYSMENU: Long := 0x0008_0000

  const SW_HIDE: int := 0
  const SW_SHOW: int := 5

  /** What the operating system knows about one window. */
  datatype WindowRecord = WindowRecord(
    live: bool,        // not yet destroyed
    pid: Dword,        // owning process
    visible: bool,     // WS_VISIBLE
    parent: Handle,    // what GetParent reports
    style: Long,       // GWL_STYLE
    exStyle: LongPtr)  // GWL_EXSTYLE

  type Table = map<Handle, WindowRecord>

  /** IsWindow: the handle names a window that still exists (never NULL). */
  predicate IsWindow(t: Table, h: Handle) {
    h != NULL && h in t && t[h].live
  }

  predicate IsWindowVisible(t: Table, h: Handle) {
    IsWindow(t, h) && t[h].visible
  }

  /** GetParent; NULL for a top-level window and for an invalid handle. */
  function GetParent(t: Table, h: Handle): Handle {
    if IsWindow(t, h) then t[h].parent else NULL
  }

  /** GetWindowLong(h, GWL_STYLE); 0 for an invalid handle. */
  function GetWindowLong(t: Table, h: Handle): Long {
    if IsWindow(t, h) then t[h].style else 0
  }

  /** GetWindowLongPtr(h, GWL_EXSTYLE); 0 (the failure value) for an invalid handle. */
  function GetWindowLongPtr(t: Table, h: Handle): LongPtr {
    if IsWindow(t, h) then t[h].exStyle else 0
  }

  /** GetWindowThreadProcessId's process id; 0 for an invalid handle. */
  function GetWindowThreadProcessId(t: Table, h: Handle): Dword {
    if IsWindow(t, h) then t[h].pid else 0
  }

  /**
   * DisplayServer::window_get_native_handle(WINDOW_HANDLE, id): a given map
   * from engine window id to native handle, NULL for an unknown id.
   */
  function WindowGetNativeHandle(handles: map<WindowId, Handle>, id: WindowId): Handle {
    if id in handles then handles[id] else NULL
  }

  /** The table after SetWindowLongPtr(h, GWL_EXSTYLE, ex). */
  function WithExStyle(t: Table, h: Handle, ex: LongPtr): (r: Table)
    ensures r.Keys == t.Keys
    ensures forall g :: g in t && g != h ==> r[g] == t[g]
    ensures IsWindow(t, h) ==> r[h] == t[h].(exStyle := ex)
    ensures !IsWindow(t, h) ==> r == t
  {
    if IsWindow(t, h) then t[h := t[h].(exStyle := ex)] else t
  }

  /** The desktop: every window, the order EnumWindows visits them, the engine's handle map. */
  class Desktop {
    var windows: Table
    var enumOrder: seq<Handle>
    var nativeHandles: map<WindowId, Handle>
    /** GetCurrentProcessId. */
    var currentProcessId: Dword
    /** How many ShowWindow calls have been made: their effect on the screen is not modelled. */
    ghost var refreshes: nat

    method SetWindowLongPtr(h: Handle, ex: LongPtr)
      modifies this`windows
      ensures windows == WithExStyle(old(windows), h, ex)
    {
      if IsWindow(windows, h) {
        windows := windows[h := windows[h].(exStyle := ex)];
      }
    }

    /** Asks the window manager to redraw the chrome; the window table is untouched. */
    method ShowWindow(h: Handle, cmd: int)
      modifies this`refreshes
      ensures refreshes == old(refreshes) + 1
    {
      refreshes := refreshes + 1;
    }
  }
}

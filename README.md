# Hiding a window's taskbar entry: a Dafny model

This is a model of the Windows half of `HideTaskBarInWindowsSystem`, a Godot
GDExtension class. The class switches a native window's taskbar entry on and
off and reports whether the entry is shown. It has nine operations:

- `hide` / `show` / `is_visible` on an explicit `Window*`;
- the same three on the engine's main window (`*_main_window`);
- the same three "by object" (`*_window_by_object`).

All nine work the same way. They get an `HWND`, check that it is non-null and
live, read the extended style word (`GWL_EXSTYLE`), and then either rewrite
its two taskbar flags or test them. The variants differ only in how they get
the handle.

The project has three files:

- `taskbar_style.dfy` (module `TaskbarStyle`). The extended style is a `bv64`
  (`LONG_PTR`). It holds the hide and show transforms, the taskbar predicate,
  and their algebra: other bits unchanged, uniqueness, idempotence, and "last
  writer wins".
- `win32.dfy` (module `Win32`). The operating system is a window table: a map
  from handle to a record with `live`, `pid`, `visible`, `parent`, `style` and
  `exStyle`. The queries are functions named after the Win32 calls they stand
  for (`IsWindow`, `GetWindowLongPtr`, ...). The class `Desktop` holds the
  table, the `EnumWindows` order, the display server's id-to-handle map and
  the current process id. Its `SetWindowLongPtr` rewrites one record's
  `exStyle`. Its `ShowWindow` only bumps a ghost refresh counter.
- `hide_taskbar.dfy` (module `HideTaskbar`). It has a shared toggle
  (`ToggleHandle`, specified by `Toggled`), a shared query (`QueryHandle`,
  specified by `TaskbarVisible`), three ways of resolving the handle, and the
  nine operations built from them.

Behaviour reproduced as the code is written:

- The fallback search inside `get_main_window_handle` reads the process id to
  compare with through `lParam`. But `lParam` points at `found_hwnd`, which is
  still `NULL` whenever the callback runs. So the comparison is with process 0.
  `GetCurrentProcessId()` is called and its result is never used. The source's
  own comments (src/hide_taskbar_extension.cpp:71 and :80) say the search is
  for windows of the current process; the model follows the code.
  `GetMainWindowHandle` computes the pid from the slot (`SlotPid(found)`) on
  every iteration, as the callback does.
  `OwnWindowNotFound` shows that the process's own main frame is not found.
- The caption test `style & WS_CAPTION` is true when either bit of
  `WS_CAPTION` is set (`WS_BORDER` or `WS_DLGFRAME`). The comment at
  src/hide_taskbar_extension.cpp:85 says the test looks for main-window traits;
  the model follows the code (`CaptionTestIsIntersection`).
- `is_visible` returns `false` both for "not on the taskbar" and for "could not
  tell" (null or dead handle). The model keeps the plain boolean.

## Model

| member | source | states |
|---|---|---|
| `TaskbarStyle.Hidden` | src/hide_taskbar_extension.cpp:113-114 | the hidden word has APPWINDOW clear and TOOLWINDOW set, every other bit equals the input's, and it is never 0 |
| `TaskbarStyle.Shown` | src/hide_taskbar_extension.cpp:137-138 | the shown word has APPWINDOW set and TOOLWINDOW clear, every other bit equals the input's, and it is never 0 |
| `TaskbarStyle.HiddenIsUnique` | src/hide_taskbar_extension.cpp:113-114 | any word with the hide flag pattern that keeps the other bits equals `Hidden` of the input |
| `TaskbarStyle.ShownIsUnique` | src/hide_taskbar_extension.cpp:137-138 | any word with the show flag pattern that keeps the other bits equals `Shown` of the input |
| `TaskbarStyle.InTaskbarIff` | src/hide_taskbar_extension.cpp:160-164 | the taskbar predicate holds exactly when, of the two flags, APPWINDOW alone is set |
| `TaskbarStyle.InTaskbarIgnoresOtherBits` | src/hide_taskbar_extension.cpp:160-164 | two words that agree on the two flags give the same taskbar answer |
| `TaskbarStyle.HiddenLeavesTaskbar` | src/hide_taskbar_extension.cpp:113-114 | a hidden word never satisfies the taskbar predicate |
| `TaskbarStyle.ShownJoinsTaskbar` | src/hide_taskbar_extension.cpp:137-138 | a shown word always satisfies the taskbar predicate |
| `TaskbarStyle.HiddenIdempotent` | src/hide_taskbar_extension.cpp:113-114 | hiding twice gives the same word as hiding once |
| `TaskbarStyle.ShownIdempotent` | src/hide_taskbar_extension.cpp:137-138 | showing twice gives the same word as showing once |
| `TaskbarStyle.ShownAfterHidden` | src/hide_taskbar_extension.cpp:137-138 | show after hide gives the word a plain show gives |
| `TaskbarStyle.HiddenAfterShown` | src/hide_taskbar_extension.cpp:113-114 | hide after show gives the word a plain hide gives |
| `TaskbarStyle.ShowHideShow` | src/hide_taskbar_extension.cpp:137-138 | show, hide, show gives the word a single show gives |
| `TaskbarStyle.TransformsFixTheirOwnPattern` | src/hide_taskbar_extension.cpp:113-114 | hide leaves a word unchanged exactly when TOOLWINDOW alone is set; show does so exactly when APPWINDOW alone is set |
| `Win32.WithExStyle` | src/hide_taskbar_extension.cpp:115 | writing an exStyle changes only that live window's `exStyle`, keeps every other record and the key set, and changes nothing for a dead handle |
| `Win32.Desktop.SetWindowLongPtr` | src/hide_taskbar_extension.cpp:115 | the new table is `WithExStyle` of the old one; nothing else in the desktop changes |
| `Win32.Desktop.ShowWindow` | src/hide_taskbar_extension.cpp:118-119 | only the refresh counter moves; the window table is untouched |
| `HideTaskbar.GetWindowHandle` | src/hide_taskbar_extension.cpp:33-55 | a null window gives NULL; an engine window gets the display server's handle for its id (NULL for an unknown id); a non-NULL result always comes from that map |
| `HideTaskbar.FirstCandidate` | src/hide_taskbar_extension.cpp:75-95 | the result indexes the first window in enumeration order that passes the callback's filter (pid, visible, no parent, a caption bit, system menu); no earlier window passes; it is the length when none passes |
| `HideTaskbar.MainWindow` | src/hide_taskbar_extension.cpp:57-104 | a live index-0 handle wins; any result is NULL or live; NULL exactly when both tiers fail; otherwise it is the first enumerated candidate and is owned by process 0 |
| `HideTaskbar.GetMainWindowHandle` | src/hide_taskbar_extension.cpp:57-104 | the two-tier lookup with its early-exit enumeration loop returns `MainWindow` of the desktop |
| `HideTaskbar.RewriteExStyle` | src/hide_taskbar_extension.cpp:113-138 | the two in-place flag updates of hide (or of show), in the source's order, give `Hidden` (or `Shown`) of the word read |
| `HideTaskbar.Toggled` | src/hide_taskbar_extension.cpp:109-123 | if the guard chain fails (NULL, dead, or exStyle reads 0) the table is unchanged; otherwise only the target's `exStyle` changes, its other bits are kept, and it gets the flag pattern of the direction taken |
| `HideTaskbar.ToggleHandle` | src/hide_taskbar_extension.cpp:109-127 | it succeeds exactly when the guard chain passes; the new table is `Toggled`; two refreshes on success, none on failure |
| `HideTaskbar.QueryHandle` | src/hide_taskbar_extension.cpp:157-171 | it returns `TaskbarVisible`: a non-NULL, live handle whose exStyle has APPWINDOW and not TOOLWINDOW; true implies the handle is live |
| `HideTaskbar.ToggleThenQuery` | src/hide_taskbar_extension.cpp:154-167 | after a successful toggle the query reports the direction just taken, and the exStyle sentinel still passes |
| `HideTaskbar.LastToggleWins` | src/hide_taskbar_extension.cpp:106-152 | for any table, handle and directions, toggling twice gives the table the second toggle alone gives; idempotence is the case of one direction twice |
| `HideTaskbar.ZeroExStyleSentinel` | src/hide_taskbar_extension.cpp:111-112 | a live window whose exStyle reads 0 is not toggled and is not reported on the taskbar |
| `HideTaskbar.DefaultWindowScenario` | src/hide_taskbar_extension.cpp:154-167 | a window whose exStyle is APPWINDOW alone is visible; after hide it is not; after show it is again |
| `HideTaskbar.OwnWindowNotFound` | src/hide_taskbar_extension.cpp:72-95 | with no index-0 handle, the current process's visible, captioned, top-level window (pid non-zero) passes the intended filter but resolves to NULL |
| `HideTaskbar.CaptionTestIsIntersection` | src/hide_taskbar_extension.cpp:86-87 | a window with WS_BORDER and WS_SYSMENU but no WS_DLGFRAME passes the filter |
| `HideTaskbar.Hide` | src/hide_taskbar_extension.cpp:106-128 | success exactly when the resolved handle passes the guard chain; the table becomes `Toggled` with hide; a null window fails and changes nothing; on success the window is no longer reported on the taskbar |
| `HideTaskbar.Show` | src/hide_taskbar_extension.cpp:130-152 | same as hide, in the show direction; on success the window is reported on the taskbar |
| `HideTaskbar.IsVisible` | src/hide_taskbar_extension.cpp:154-172 | returns `TaskbarVisible` of the resolved handle; false for a null window |
| `HideTaskbar.HideMainWindow` | src/hide_taskbar_extension.cpp:175-197 | hide on the handle `MainWindow` gives for the old table |
| `HideTaskbar.ShowMainWindow` | src/hide_taskbar_extension.cpp:199-221 | show on the handle `MainWindow` gives for the old table |
| `HideTaskbar.IsMainWindowVisible` | src/hide_taskbar_extension.cpp:223-241 | returns `TaskbarVisible` of the `MainWindow` handle |
| `HideTaskbar.HideWindowByObject` | src/hide_taskbar_extension.cpp:244-273 | the early null check, then the same contract as `Hide` |
| `HideTaskbar.ShowWindowByObject` | src/hide_taskbar_extension.cpp:275-304 | the early null check, then the same contract as `Show` |
| `HideTaskbar.IsWindowVisibleByObject` | src/hide_taskbar_extension.cpp:306-331 | the early null check, then the same contract as `IsVisible` |

## Left out

- Logging with `UtilityFunctions::print`: it is output only and has no effect on any result.
- `_bind_methods`, the constructor and the destructor (src/hide_taskbar_extension.cpp:8-30): engine registration and lifecycle.
- The non-Windows build (src/hide_taskbar_extension.cpp:332-378): every operation there returns `false` unconditionally.
- `ShowWindow(SW_HIDE)` / `ShowWindow(SW_SHOW)`: these only bump a ghost refresh counter. Their effect on the screen and on `visible` is opaque and is not modelled.
- `DisplayServer::window_get_native_handle` and `Window::get_window_id` are engine code. They are a given map from window id to handle; a null `Window*` is `NullWindow`.
- `EnumWindows` order is a given sequence of handles. The model does not describe how the system produces it.
- `GetWindowThreadProcessId` on a dead handle leaves the pid variable unwritten in the source. The model reads 0 there. That window already fails the visibility test, so nothing depends on it.
- Thread affinity of the Win32 calls, and a failing `SetWindowLongPtr`: the source checks neither.
- `GetWindowLongPtr` returning 0 for a live window with a real style of 0 is not told apart from a failed read, just as in the source.
- `HideTaskbar.GetMainWindowHandle`: when the index-0 handle is live the method returns before the loop, but "the enumeration did not run" is not stated as a contract, because reading the table has no effect the model could observe.
- A 32-bit build, where `LONG_PTR` is 32 bits wide: the two flags sit below bit 32, so nothing here depends on the width.
- src/hide_taskbar_extension.h holds declarations only and is not part of this model.

# windows-capture: Python wrappers and monitor-name lookup, modelled in Dafny

This project models the glue around the windows-capture screen-capture library:

- **`CaptureWrapper`** models the Python package `windows_capture` (`windows-capture-python/windows_capture/__init__.py`).
  - `WindowsCapture` keeps two optional handler slots, `frameHandler` and `closedHandler`.
  - `Event` fills a slot according to the handler's `__name__`.
  - `Start` refuses to start the native capture until both slots are filled.
  - `OnFrameArrived` and `OnClosed` forward native events to the handlers.
  - `CaptureControl.Stop` sets element 0 of the stop list it shares with the native thread.
  - A Python exception is an `Err`/`Fail` value of `Handlers.CaptureError`.
  - A handler call is recorded in the object's `invocations` log together with its arguments.
- **`FrameLayout`** models how `on_frame_arrived` turns the raw buffer into the `height x width x 4` pixel array.
  - The buffer holds `height` rows of `row_pitch` bytes each.
  - When `row_pitch == width * 4`, the buffer is used unchanged.
  - Otherwise each row is cut to its first `width * 4` bytes.
  - Pixels are kept flat, in row-major order.
- **`LegacyWrapper`** models the older `Capture` class in `Python/WindowsCapture/main.py`.
  - It registers handlers the same way as `WindowsCapture`.
  - Its `start` checks nothing.
  - It always builds the native object with both flags off.
- **`MonitorName`** models `GetMonitorTarget` and `GetMonitorName` in `obs.c`.
  - `GetMonitorTarget` is a first-match linear search over the active display paths.
  - `GetMonitorName` falls back to `"[OBS: Unknown]"`.
  - The Win32 answers are the fields of a `DisplayConfig` value.
  - The methods return the `DisplayConfigGetDeviceInfo` request headers they send, in order.
  - They also return their allocate/free sequence.
- **`Native`** stands for `NativeWindowsCapture`. It is built with two flags, and a start only increments a counter.
- **`Handlers`** holds what both Python wrappers share: handler identity, the name-to-slot rule and the exception values.
- **`Wrappers`** holds `Option`.

## Model

| member | source | states |
|---|---|---|
| `Native.NativeCapture.Start` | windows-capture-python/windows_capture/__init__.py:82 | a native start increments the start count by exactly one |
| `FrameLayout.Depad` | windows-capture-python/windows_capture/__init__.py:105-108 | slicing `rows` rows of `pitch` bytes to their first `rowLen` bytes gives exactly `rows * rowLen` bytes |
| `FrameLayout.DepadAt` | windows-capture-python/windows_capture/__init__.py:105-108 | byte j of de-padded row r is byte `r * pitch + j` of the buffer, and both indices are in range |
| `FrameLayout.DepadWithoutPadding` | windows-capture-python/windows_capture/__init__.py:96-108 | when the row length equals the pitch, de-padding returns the buffer's rows unchanged |
| `FrameLayout.FrameOf` | windows-capture-python/windows_capture/__init__.py:95-110 | the frame keeps the given width and height and holds exactly `height * width * 4` bytes |
| `FrameLayout.FrameOfIsDepad` | windows-capture-python/windows_capture/__init__.py:95-108 | both branches give the same thing: the frame is always the de-padded buffer, and the buffer is exactly `height` whole rows |
| `FrameLayout.FrameOfUnpadded` | windows-capture-python/windows_capture/__init__.py:96-102 | when `row_pitch == width * 4` the frame is the buffer itself, with no byte dropped or reordered |
| `FrameLayout.FrameOfAt` | windows-capture-python/windows_capture/__init__.py:95-108 | byte k of pixel (r, c) of the frame is `buf[r * row_pitch + 4 * c + k]`, padded or not |
| `CaptureWrapper.StopRequested` | windows-capture-python/windows_capture/__init__.py:63-65 | after a stop, the list keeps its length, element 0 is True, and every other element is unchanged |
| `CaptureWrapper.StopIdempotent` | windows-capture-python/windows_capture/__init__.py:63-65 | a second stop leaves the list as the first stop left it |
| `CaptureWrapper.StopChangesOnlyUnsetFlag` | windows-capture-python/windows_capture/__init__.py:63-65 | a stop leaves the list unchanged exactly when element 0 was already True |
| `CaptureWrapper.CaptureControl.constructor` | windows-capture-python/windows_capture/__init__.py:59-61 | the control object wraps the given list itself rather than a copy |
| `CaptureWrapper.CaptureControl.Stop` | windows-capture-python/windows_capture/__init__.py:63-65 | on a non-empty shared list, element 0 is set as StopRequested says; an empty list raises (IndexError) and is left unchanged |
| `CaptureWrapper.PaddedFrameDeliveredTwice` | windows-capture-python/windows_capture/__init__.py:104-116 | a 1 x 1 frame in an 8-byte row is a valid input and reaches the frame handler twice |
| `CaptureWrapper.WindowsCapture.constructor` | windows-capture-python/windows_capture/__init__.py:69-74 | a fresh wrapper has both handler slots unset and has made no calls; it builds a new native object with the given cursor and border flags (by default True and False), not yet started |
| `CaptureWrapper.WindowsCapture.Start` | windows-capture-python/windows_capture/__init__.py:76-82 | with no frame handler it raises the frame-handler error, and that check comes first; with a frame handler but no closed handler it raises the closed-handler error; it succeeds iff both are set, and only then is the native object started (once) |
| `CaptureWrapper.WindowsCapture.OnFrameArrived` | windows-capture-python/windows_capture/__init__.py:84-119 | without a frame handler it raises, leaves the log unchanged and places no demand on the buffer; with one it builds a new control over the given stop list and calls the handler with the frame FrameOf describes, once when unpadded and twice when padded, with the same frame and control each time |
| `CaptureWrapper.WindowsCapture.OnFrameArrivedOnce` | windows-capture-python/windows_capture/__init__.py:84-119 | corrected callback: the same frame and control as OnFrameArrived, but exactly one handler call per frame whatever the pitch |
| `CaptureWrapper.WindowsCapture.OnClosed` | windows-capture-python/windows_capture/__init__.py:121-125 | calls the closed handler exactly once when it is set; raises and calls nothing otherwise |
| `CaptureWrapper.WindowsCapture.Event` | windows-capture-python/windows_capture/__init__.py:127-134 | "on_frame_arrived" fills only the frame slot and "on_closed" only the closed slot, and the handler itself is returned; any other name raises with both slots unchanged |
| `CaptureWrapper.DefaultNativeFlags` | windows-capture-python/windows_capture/__init__.py:69-74 | `WindowsCapture()` with no arguments builds the native object with the cursor captured and no border |
| `CaptureWrapper.RegisterBothThenStart` | windows-capture-python/windows_capture/__init__.py:76-82 | after one handler of each name is registered through `event`, `start` succeeds and starts the native capture exactly once |
| `CaptureWrapper.StartWithoutFrameHandler` | windows-capture-python/windows_capture/__init__.py:76-78 | with only a closed handler registered, `start` raises the frame-handler error and the native capture is never started |
| `LegacyWrapper.Capture.constructor` | Python/WindowsCapture/main.py:8-15 | both handler slots start unset; `capture_cursor` and `draw_border` are stored as given (by default True and False); the native object is built with False, False whatever was passed |
| `LegacyWrapper.Capture.Start` | Python/WindowsCapture/main.py:17-18 | always starts the native capture once, checking no handler |
| `LegacyWrapper.Capture.OnFrameArrived` | Python/WindowsCapture/main.py:20-24 | calls the frame handler exactly once with the same frame object when it is set; raises and calls nothing otherwise |
| `LegacyWrapper.Capture.OnClosed` | Python/WindowsCapture/main.py:26-30 | calls the closed handler exactly once when it is set; raises and calls nothing otherwise |
| `LegacyWrapper.Capture.Event` | Python/WindowsCapture/main.py:32-39 | "on_frame_arrived" fills only the frame slot and "on_closed" only the closed slot, and the handler itself is returned; any other name raises with both slots unchanged |
| `LegacyWrapper.DefaultFlags` | Python/WindowsCapture/main.py:8-15 | `Capture()` with no arguments stores `capture_cursor` True and `draw_border` False, and still builds the native object with both off |
| `LegacyWrapper.StartWithoutHandlers` | Python/WindowsCapture/main.py:17-24 | with no handler registered, `start` still starts the native capture, and the first frame then raises |
| `MonitorName.FirstMatchFrom` | obs.c:16-43 | the result is the smallest index from i on whose source-name query succeeds and names the device, or none when no such path exists |
| `MonitorName.FirstMatch` | obs.c:16-43 | the result is the first path in index order that matches the device, or none when no path matches |
| `MonitorName.FirstMatchExact` | obs.c:16-41 | FirstMatch returns Some(k) iff k is the first matching path |
| `MonitorName.GetMonitorTarget` | obs.c:1-51 | the result is true iff both buffer calls succeed, some path matches, and the first matching path's target query succeeds; the target header uses that path's source adapter id and target id; the friendly name is that query's answer; the requests are one source query per path in index order up to the first match, then that path's target query, with nothing after it; both buffers are allocated and freed once iff the size query succeeds, and nothing is allocated otherwise |
| `MonitorName.GetMonitorName` | obs.c:53-70 | the name is the first matching target's friendly name iff GetMonitorInfoW and GetMonitorTarget both succeed, and "[OBS: Unknown]" otherwise; no request is sent and nothing is allocated when GetMonitorInfoW fails |
| `MonitorName.NoMatchNotFound` | obs.c:4-50 | when no path's source name is the device, the lookup fails after querying every path's source |
| `MonitorName.FoundIffFirstMatchHasTarget` | obs.c:28-41 | the lookup succeeds iff the first match has a target name; a later matching path with a target name does not count |
| `MonitorName.LaterPathsIgnored` | obs.c:28-43 | replacing the paths after the first match by other paths changes neither the result, nor the friendly name, nor the requests sent |

## Left out

- The native capture runtime is not part of this model. This covers `NativeWindowsCapture`'s internals, the Rust session lifecycle, the encoder and the throughput meter. A native start is only counted, and the native object's copies of the two callbacks are not modelled.
- Handler bodies are not run. A call is only logged, so a handler that raises, or that calls `stop` itself, is not modelled.
- The numpy and ctypes view mechanics are left out, including whether the frame array is a view or a copy. So is `Frame.save_as_image` (cv2), because those are foreign library calls.
- CaptureWrapper.WindowsCapture.OnFrameArrived: when a frame handler is set, it requires a positive height, a whole-number pitch and a pitch of at least `width * 4`. Python's true division with a fractional or too-short pitch makes numpy raise, and that error path is not modelled. The model also reads `row_pitch` as the exact integer quotient. Read literally, `buf_len / height` is always a float in Python 3, so the padded branch raises TypeError while it builds the `(height, row_pitch)` view, before any handler call. The unpadded branch is not affected, because its shape is `(height, width, 4)`.
- CaptureWrapper.WindowsCapture.OnFrameArrivedOnce: carries the same buffer-shape requirement and the same integer reading of `row_pitch` as OnFrameArrived, for the same reasons.
- The stop list is modelled as a list of booleans, and the other thread's view of it is not modelled. Which thread sees the stop flag, and when, is a concurrency matter.
- The Win32 calls themselves are inputs only: `GetDisplayConfigBufferSizes`, `QueryDisplayConfig`, `DisplayConfigGetDeviceInfo` and `GetMonitorInfoW`. The header `size` fields and the buffer byte counts are not modelled.
- MonitorName.GetMonitorTarget: a failed `DisplayConfigGetDeviceInfo` query is modelled as writing nothing into the target struct. So when the first match's target query fails, the contract says the friendly name is the one the caller passed in. The operating system does not promise this, and `GetMonitorName` never reads the name in that case.
- `bmalloc`/`bfree` appear only as the returned allocate/free sequence.
- `os_wcs_to_utf8_ptr` is not modelled: wide and UTF-8 strings are the same character sequences here.
- `strcpy_s` truncation and its error handler are not modelled. The `count` argument of `GetMonitorName` is left out.
- The module-level demo script at the end of `Python/WindowsCapture/main.py` is left out, because it does console I/O and a blocking start.

## Findings

| source | as written | input that shows it | evidently intended | confidence | as-written member | corrected member |
|---|---|---|---|---|---|---|
| windows-capture-python/windows_capture/__init__.py:111-116 | when the rows are padded, the frame handler is called twice with the same frame and control | width 1, height 1, an 8-byte buffer (pitch 8, not 4) | one handler call per arriving frame, as in the unpadded branch | not executed; high, since the second call repeats the first line for line; reachable only when `row_pitch` is an integer, because in Python 3 the float pitch makes the padded view raise before either call | `CaptureWrapper.PaddedFrameDeliveredTwice` | `CaptureWrapper.WindowsCapture.OnFrameArrivedOnce` |

# Barcode scan gating and scan lifecycle

This project models the scanning screen of an Android EAN-13 barcode scanner.
The screen's authored logic is a small state machine in `MainActivity`. It has
three fields: the start time of the last analysis, an in-flight flag and a
"scan successful" flag. Four kinds of event change them:

- A camera frame arrives. An analysis starts only when the scan is not marked
  successful, no analysis is running, and at least 500 ms have passed since the last start.
- The analysis thread completes. It walks the detector's parallel lists of
  payloads and symbology tags and takes the first entry tagged `EAN_13`. On a
  match it posts an action to the UI thread. It then clears the in-flight flag,
  both on the normal path and when an `Exception` is caught.
- The UI thread runs a posted match. This marks the scan successful, shows the
  code in a popup and stops the camera.
- The user presses rescan or confirm. Both re-arm scanning and restart the
  camera.

The model has three modules:

- `ResultFilter` (`result_filter.dfy`) holds the result filter. `FirstEan13` is
  a pure function, characterised by the reference predicate `Selects`.
  `FindFirstEan13` is the worker's indexed loop with `break`, proved equal to
  that function. The detector's lists need not have the same length. Reading a
  tag past the end of the tag list is an index fault (`TypeIndexFault`), which
  the worker catches.
- `ScanSchedule` (`scan_schedule.dfy`) holds the 500 ms interval, the spacing
  of analysis start times, and a bound on how many starts fit in a window of
  wall-clock time.
- `Activity` (`main_activity.dfy`) holds class `MainActivity`. Its fields
  mirror the screen's state. Two ghost fields record the history: the start
  times of all analyses, and how many analyses have completed.
  `Valid()` is the screen's invariant:
  - at most one analysis is in flight, and the flag is up exactly while one is;
  - the camera runs exactly while the scan is not marked successful;
  - the recorded last start is the latest start;
  - consecutive starts are at least 500 ms apart.

Threads are modelled as interleaved events, not as threads. The clock and the
detector's output are parameters of the events. The UI thread's message queue
is the field `pendingUi`: worker completion appends to it, and
`RunMatchOnUiThread` takes from it. The match is therefore a separate event
from worker completion, and the flag can be cleared before the UI thread marks
the scan successful, as in the source. In the source, the worker posts the
match and then clears the flag. The model does both in one step. This loses no
behaviour, because the UI action writes only fields that the flag-clearing
step does not touch. For the same reason, each frame is one atomic step: the
UI action never writes the fields the frame reads after its first check.

Two consequences of the code as written are proved:

- The spacing of analysis starts holds even if the wall clock jumps backwards,
  because the gate compares against the last start, not against the previous
  frame.
- Two matches can both reach the user without a button press between them.
  Suppose the UI thread has not yet run the first posted match one interval
  later. The in-flight flag is already clear and the success flag is still
  false, so a second analysis can start and post a second popup.
  `Activity.OverlappingMatchesBothPresented` exhibits this trace. The camera
  and the success flag are not tied to the popups, so one button press on
  either popup re-arms scanning and restarts the camera while the other popup
  is still shown; `Activity.RescanWithSecondPopupShown` continues the trace to
  a third analysis start.

## Model

| member | source | states |
|---|---|---|
| `ResultFilter.ScanFrom` | app/src/main/java/com/example/app_codigos_barras_savr/MainActivity.java:131-141 | From index i on, the loop's outcome is the lowest index ≥ i tagged `EAN_13` with its payload, or an index fault at the first visited index with no tag when no match comes before it, or no match when every remaining entry has a non-EAN-13 tag |
| `ResultFilter.FirstEan13` | app/src/main/java/com/example/app_codigos_barras_savr/MainActivity.java:131-141 | The filter over a whole detector result satisfies the reference definition `Selects` from index 0: first EAN-13 entry wins, a short tag list faults, otherwise no match |
| `ResultFilter.SelectsUnique` | app/src/main/java/com/example/app_codigos_barras_savr/MainActivity.java:131-139 | At most one outcome meets the reference definition, so the first-match rule determines the filter's result |
| `ResultFilter.LaterEntriesIgnored` | app/src/main/java/com/example/app_codigos_barras_savr/MainActivity.java:139 | Once the filter has matched, appending further entries to both lists does not change the result (later EAN-13 entries are ignored because of the `break`) |
| `ResultFilter.SecondCandidateSelected` | app/src/main/java/com/example/app_codigos_barras_savr/MainActivity.java:131-139 | For candidates ("123", CODE_128), ("7501234567895", EAN_13) the filter selects the second payload at index 1 |
| `ResultFilter.FindFirstEan13` | app/src/main/java/com/example/app_codigos_barras_savr/MainActivity.java:131-141 | The indexed `for` loop with `break` returns exactly `FirstEan13` of its inputs |
| `ScanSchedule.StartsInWindow` | app/src/main/java/com/example/app_codigos_barras_savr/MainActivity.java:118-120 | If consecutive starts are at least 500 ms apart, any window [lo, hi] holds at most (hi - lo) / 500 + 1 of them |
| `Activity.AnalysesThrottled` | app/src/main/java/com/example/app_codigos_barras_savr/MainActivity.java:118-120 | In every reachable screen state, the recorded analysis starts (kept 500 ms apart by the gate's test and update, with the interval constant of line 47) obey that window bound |
| `Activity.MatchesPosted` | app/src/main/java/com/example/app_codigos_barras_savr/MainActivity.java:128-141 | One analysis posts at most one code, only when the detector reported found and the filter matched, and that code is the payload at the filter's match index |
| `Activity.ReachableEan13PostsOne` | app/src/main/java/com/example/app_codigos_barras_savr/MainActivity.java:130-139 | Conversely, a found result with an entry tagged `EAN_13` below both list lengths posts exactly one code |
| `Activity.FirstEan13PayloadPosted` | app/src/main/java/com/example/app_codigos_barras_savr/MainActivity.java:131-136 | For a found result whose first `EAN_13` tag is at index j, the worker posts exactly the payload at j |
| `Activity.NoEan13PostsNothing` | app/src/main/java/com/example/app_codigos_barras_savr/MainActivity.java:130-141 | A result reported not found, or one with no reachable entry tagged `EAN_13` (a short tag list included), posts nothing |
| `Activity.RescanWithSecondPopupShown` | app/src/main/java/com/example/app_codigos_barras_savr/MainActivity.java:134-166 | After the two-popup trace of `OverlappingMatchesBothPresented`, two popups have been presented; after one press the camera is on, the other popup is still up (in the source; the model counts presented popups), and the frame at 1500 ms starts a third analysis |
| `Activity.MainActivity.constructor` | app/src/main/java/com/example/app_codigos_barras_savr/MainActivity.java:50-52 | The screen starts with last start 0, no analysis in flight, the scan not marked successful and the camera on; the invariant holds |
| `Activity.MainActivity.OnCameraFrame` | app/src/main/java/com/example/app_codigos_barras_savr/MainActivity.java:109-153 | The colour frame is returned unchanged. An analysis starts iff the scan is not marked successful, none is in flight and now - last start ≥ 500. A start records now as the last start and raises the flag. Otherwise nothing changes, and in particular nothing changes while the scan is marked successful. A match posted but not yet run on the UI thread does not stop a start. The invariant is kept |
| `Activity.MainActivity.WorkerCompletes` | app/src/main/java/com/example/app_codigos_barras_savr/MainActivity.java:124-149 | The in-flight flag is cleared on every path that returns or throws an `Exception`, including the detector's exception and an index fault. The match, if any, is appended to the UI queue. The success flag, camera, popups and last start time are unchanged. The invariant is kept |
| `Activity.MainActivity.RunMatchOnUiThread` | app/src/main/java/com/example/app_codigos_barras_savr/MainActivity.java:134-138 | The oldest posted code is shown in a popup, the scan is marked successful and the camera is stopped. The gate's time and flag are unchanged and the invariant is kept |
| `Activity.MainActivity.StopScanning` | app/src/main/java/com/example/app_codigos_barras_savr/MainActivity.java:155-159 | The camera is disabled and no other field changes |
| `Activity.MainActivity.ResumeScanning` | app/src/main/java/com/example/app_codigos_barras_savr/MainActivity.java:161-166 | Scanning is re-armed (success flag false) and the camera enabled. No other field changes and the invariant is kept |
| `Activity.MainActivity.ConfirmProduct` | app/src/main/java/com/example/app_codigos_barras_savr/MainActivity.java:168-170 | Same effect as rescan: success flag false, camera enabled, nothing else changed |
| `Activity.TwoMatchesBeforeUiRuns` | app/src/main/java/com/example/app_codigos_barras_savr/MainActivity.java:118-144 | The event sequence shared by both traces: starts at 500 ms and 1000 ms, each posting one code, then the UI thread runs both; the screen ends valid with both codes presented, the scan marked successful and no analysis in flight |
| `Activity.OverlappingMatchesBothPresented` | app/src/main/java/com/example/app_codigos_barras_savr/MainActivity.java:118-144 | A reachable trace (starts at 500 ms and 1000 ms, both matched, UI thread runs late) shows two popups, for both codes in order, with no user action between them |

## Left out

- Real concurrency and the Java memory model. Threads, `runOnUiThread` and the visibility of the non-volatile fields across threads are replaced by atomic, interleaved events.
- Java `long` arithmetic. Times are unbounded integers, so overflow of `currentTime - lastAnalysisTime` is not modelled. It cannot occur with real millisecond timestamps.
- The detector (`BarcodeFacade`, OpenCV's `detect`/`decodeWithType`) is an input to worker completion: found, payloads, tags, or an exception.
- Frames (`Mat`, `rgba()`, `gray()`) are an opaque type parameter. Camera view internals are a `cameraEnabled` boolean. The camera starts enabled, as after the screen has resumed.
- The null check on the camera view in `detenerEscaneo`/`reanudarEscaneo` is not modelled. The view is null only when library initialisation failed, and then no frames arrive.
- `System.currentTimeMillis` is the `now` parameter. Logging is not modelled.
- The platform lifecycle (`onCreate`, `onPause`, `onResume`, `onDestroy`) is not modelled, nor library initialisation; these only toggle the camera view. Results arriving after teardown are therefore not modelled.
- Popup construction, toasts and dismissing a dialog without pressing a button (`PopupFacade`) are not modelled. Dismissing a dialog without a button only hides the background and leaves the scan marked successful. So, unless another popup is still open, the screen stays halted: even if the camera view restarts on resume, the gate refuses every frame, and the source has no button left to press. If a second popup is still open, its rescan and confirm buttons still re-arm scanning. The model has no dismissal event; it keeps its fields as they are, but its button events stay available (see the next line). The popup's buttons are the `ResumeScanning` and `ConfirmProduct` events. A popup is the code appended to `presented`.
- Open popups are not tracked: `presented` only grows, and the button events `ResumeScanning` and `ConfirmProduct` may fire with no popup open. This over-approximates the source, where each button dismisses its own dialog before its callback runs.
- A `java.lang.Error` thrown in the worker (for example `OutOfMemoryError` or `UnsatisfiedLinkError` from the native detector) is not caught by `catch (Exception e)`. The thread dies with the in-flight flag still set, and no analysis ever starts again. The model represents this only as a `WorkerCompletes` that never happens.
- EAN-13 check-digit validation is not modelled, because the source only compares the tag string.

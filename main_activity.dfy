/** The scanning screen: the gate that decides, frame by frame, whether to
    start a barcode analysis, the worker that filters the detector's
    result, the action it posts to the UI thread on a match, and the
    user's rescan and confirm buttons.

    Threads are not modelled as threads.  Each thing that happens is one
    event, and the environment may interleave them in any order their
    preconditions allow:
      - OnCameraFrame: the camera callback delivers a frame at time `now`;
      - WorkerCompletes: the analysis thread finishes, with the detector's
        output (or the detector's exception) as input;
      - RunMatchOnUiThread: the UI thread runs the oldest action a worker
        posted;
      - ResumeScanning / ConfirmProduct: the user presses a popup button. */
module Activity {
  import opened ResultFilter
  import opened ScanSchedule

  /** What the external detector gives the worker: whether a barcode was
      found, with the decoded payloads and their symbology tags, or an
      exception thrown from inside the detector. */
  datatype Detection =
    | Detected(found: bool, info: seq<string>, types: seq<string>)
    | DetectorThrew

  /** Codes the worker posts to the UI thread for one detector result:
      only a found result whose filter pass ends in a match posts, and the
      `break` after the post means at most one code per analysis.  The code
      posted is the payload at the filter's match index. */
  function MatchesPosted(d: Detection): (codes: seq<string>)
    ensures |codes| <= 1
    ensures codes != [] ==> d.Detected? && d.found && FirstEan13(d.info, d.types).Match?
    ensures codes != [] ==> codes == [d.info[FirstEan13(d.info, d.types).index]]
  {
    match d
    case DetectorThrew => []
    case Detected(found, info, types) =>
      if !found then []
      else match FirstEan13(info, types)
        case Match(_, code) => [code]
        case _ => []
  }

  /** A detector result that reports nothing found, or in which no entry
      the loop can reach is tagged EAN-13 (a tag list shorter than the
      payload list included), posts nothing to the UI thread. */
  lemma NoEan13PostsNothing(found: bool, info: seq<string>, types: seq<string>)
    requires !found || forall j :: 0 <= j < |info| && j < |types| ==> types[j] != Ean13
    ensures MatchesPosted(Detected(found, info, types)) == []
  {
  }

  /** Conversely, a found result in which some entry the loop reaches is
      tagged EAN-13 posts exactly one code. */
  lemma ReachableEan13PostsOne(info: seq<string>, types: seq<string>, j: nat)
    requires j < |info| && j < |types| && types[j] == Ean13
    ensures |MatchesPosted(Detected(true, info, types))| == 1
  {
    assert FirstEan13(info, types).Match?;
  }

  /** The code posted for a found result is the payload of its first
      EAN-13 entry: when index j is tagged EAN-13 and no earlier index is,
      the worker posts exactly info[j]. */
  lemma FirstEan13PayloadPosted(info: seq<string>, types: seq<string>, j: nat)
    requires j < |info| && j < |types| && types[j] == Ean13
    requires forall i :: 0 <= i < j ==> types[i] != Ean13
    ensures MatchesPosted(Detected(true, info, types)) == [info[j]]
  {
    assert Selects(info, types, 0, Match(j, info[j]));
    SelectsUnique(info, types, 0, FirstEan13(info, types), Match(j, info[j]));
  }

  class MainActivity {
    /** Start time of the most recent analysis (0 before the first). */
    var lastAnalysisTime: int
    /** An analysis thread is running. */
    var isProcessingFrame: bool
    /** A barcode was matched and scanning is halted until the user acts. */
    var scanSuccessful: bool
    /** The camera view delivers frames. */
    var cameraEnabled: bool
    /** Codes of the match actions posted to the UI thread and not yet run, oldest first. */
    var pendingUi: seq<string>
    /** Codes shown to the user in a confirmation popup, in order. */
    var presented: seq<string>

    /** Start times of every analysis so far, oldest first. */
    ghost var starts: seq<int>
    /** Number of analysis threads that have completed. */
    ghost var finished: nat

    /** The screen's invariant: the in-flight flag is up exactly while one
        started analysis has not completed (so at most one runs), the camera
        runs exactly while the scan is not marked successful, the last start
        time is the one recorded, and starts are spaced by the analysis
        interval.  The camera is not tied to the popups: with two popups up,
        one button press re-arms scanning while the other is still shown. */
    ghost predicate Valid()
      reads this
      ensures Valid() ==> |starts| - finished <= 1
    {
      finished <= |starts|
      && |starts| - finished == (if isProcessingFrame then 1 else 0)
      && cameraEnabled == !scanSuccessful
      && (if starts == [] then lastAnalysisTime == 0 else lastAnalysisTime == starts[|starts| - 1])
      && Spaced(starts)
    }

    /** The screen as it starts scanning: nothing analysed, nothing found,
        camera on. */
    constructor ()
      ensures Valid()
      ensures lastAnalysisTime == 0 && !isProcessingFrame && !scanSuccessful && cameraEnabled
      ensures pendingUi == [] && presented == [] && starts == [] && finished == 0
    {
      lastAnalysisTime := 0;
      isProcessingFrame := false;
      scanSuccessful := false;
      cameraEnabled := true;
      pendingUi := [];
      presented := [];
      starts := [];
      finished := 0;
    }

    /** A camera frame arrives at wall-clock time `now`.  The colour frame
        is handed back unchanged.  An analysis starts exactly when the scan
        is not marked successful, none is running, and an interval has
        passed since the last start; starting records the time and raises
        the flag.  A match that is posted but not yet run on the UI thread
        does not stop a start. */
    method OnCameraFrame<F>(now: int, rgba: F) returns (shown: F, started: bool)
      requires Valid()
      modifies this
      ensures Valid()
      ensures shown == rgba
      ensures started <==> !old(scanSuccessful) && !old(isProcessingFrame)
                           && now - old(lastAnalysisTime) >= AnalysisIntervalMs
      ensures started ==> lastAnalysisTime == now && isProcessingFrame && starts == old(starts) + [now]
      ensures !started ==> unchanged(this)
      ensures scanSuccessful == old(scanSuccessful) && cameraEnabled == old(cameraEnabled)
      ensures pendingUi == old(pendingUi) && presented == old(presented) && finished == old(finished)
    {
      shown := rgba;
      started := false;
      if scanSuccessful {
        return;
      }
      if now - lastAnalysisTime >= AnalysisIntervalMs && !isProcessingFrame {
        lastAnalysisTime := now;
        isProcessingFrame := true;
        starts := starts + [now];
        started := true;
      }
    }

    /** The analysis thread finishes with detector output `d`.  If the
        filter matched, the match is posted to the UI thread; on every path
        that returns or throws an `Exception` (the detector's exception and a
        tag lookup past the end of the tag list included), the in-flight flag
        is cleared.  Nothing else changes: the match itself takes effect only
        when the UI thread runs it.  A thrown `Error`, which the handler does
        not catch, is a completion that never happens. */
    method WorkerCompletes(d: Detection)
      requires Valid() && isProcessingFrame
      modifies this
      ensures Valid()
      ensures !isProcessingFrame && finished == old(finished) + 1
      ensures pendingUi == old(pendingUi) + MatchesPosted(d)
      ensures lastAnalysisTime == old(lastAnalysisTime) && starts == old(starts)
      ensures scanSuccessful == old(scanSuccessful) && cameraEnabled == old(cameraEnabled)
      ensures presented == old(presented)
    {
      match d {
        case DetectorThrew =>
          isProcessingFrame := false;
        case Detected(found, info, types) =>
          if found {
            var r := FindFirstEan13(info, types);
            if r.Match? {
              pendingUi := pendingUi + [r.code];
            }
          }
          isProcessingFrame := false;
      }
      finished := finished + 1;
    }

    /** The UI thread runs the oldest posted match: scanning is marked
        successful, the code is shown in a popup and the camera stops. */
    method RunMatchOnUiThread()
      requires Valid() && pendingUi != []
      modifies this
      ensures Valid()
      ensures scanSuccessful && !cameraEnabled
      ensures presented == old(presented) + [old(pendingUi)[0]] && pendingUi == old(pendingUi)[1..]
      ensures lastAnalysisTime == old(lastAnalysisTime) && isProcessingFrame == old(isProcessingFrame)
      ensures starts == old(starts) && finished == old(finished)
    {
      var code := pendingUi[0];
      pendingUi := pendingUi[1..];
      scanSuccessful := true;
      presented := presented + [code];
      StopScanning();
    }

    /** Stop the camera view. */
    method StopScanning()
      modifies this`cameraEnabled
      ensures !cameraEnabled
    {
      cameraEnabled := false;
    }

    /** The rescan button: re-arm scanning and restart the camera. */
    method ResumeScanning()
      requires Valid()
      modifies this`scanSuccessful, this`cameraEnabled
      ensures Valid()
      ensures !scanSuccessful && cameraEnabled
    {
      scanSuccessful := false;
      cameraEnabled := true;
    }

    /** The confirm button: exactly the effect of the rescan button. */
    method ConfirmProduct()
      requires Valid()
      modifies this`scanSuccessful, this`cameraEnabled
      ensures Valid()
      ensures !scanSuccessful && cameraEnabled
    {
      ResumeScanning();
    }
  }

  /** On a screen in any reachable state, a window [lo, hi] of wall-clock
      time holds at most (hi - lo) / 500 + 1 analysis starts, whatever the
      frame rate and whether or not the clock ever runs backwards. */
  lemma AnalysesThrottled(screen: MainActivity, lo: int, hi: int)
    requires screen.Valid()
    requires lo <= hi
    ensures CountIn(screen.starts, lo, hi) <= (hi - lo) / AnalysisIntervalMs + 1
  {
    StartsInWindow(screen.starts, lo, hi);
  }

  /** The shared prefix of the two traces below: analyses start at 500 ms
      and at 1000 ms, each finds one EAN-13 code, and the UI thread runs
      both posted matches only after the second analysis has completed. */
  method TwoMatchesBeforeUiRuns(first: string, second: string) returns (screen: MainActivity)
    ensures fresh(screen) && screen.Valid()
    ensures screen.presented == [first, second] && screen.pendingUi == []
    ensures screen.scanSuccessful && !screen.isProcessingFrame && screen.lastAnalysisTime == 1000
  {
    screen := new MainActivity();
    var frame, started := screen.OnCameraFrame(500, 0);
    assert started && frame == 0;
    screen.WorkerCompletes(Detected(true, [first], [Ean13]));
    frame, started := screen.OnCameraFrame(1000, 1);
    assert started && frame == 1;
    screen.WorkerCompletes(Detected(true, [second], [Ean13]));
    screen.RunMatchOnUiThread();
    screen.RunMatchOnUiThread();
  }

  /** Two matches can both reach the user without a button press in
      between: when the UI thread has not yet run the first posted match
      one interval later, the cleared in-flight flag and the still-false
      success flag let a second analysis start and post its own match. */
  method OverlappingMatchesBothPresented(first: string, second: string) returns (shown: seq<string>)
    ensures shown == [first, second]
  {
    var screen := TwoMatchesBeforeUiRuns(first, second);
    shown := screen.presented;
  }

  /** Continuing that trace, one button press (which dismisses its own
      popup) restarts the camera and re-arms scanning while the other popup
      is still up, so the next eligible frame starts a third analysis.
      `popups` counts the popups presented so far. */
  method RescanWithSecondPopupShown(first: string, second: string) returns (popups: nat, cameraOn: bool, started: bool)
    ensures popups == 2 && cameraOn && started
  {
    var screen := TwoMatchesBeforeUiRuns(first, second);
    screen.ResumeScanning();
    var frame;
    frame, started := screen.OnCameraFrame(1500, 2);
    assert frame == 2;
    popups := |screen.presented|;
    cameraOn := screen.cameraEnabled;
  }
}

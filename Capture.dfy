/** The `ai-capture` view: a record toggle that drives a media recorder and
    collects the recordings it delivers. The recorder is reduced to the
    start and stop orders it receives; recordings are named by number. */
module Capture {
  import opened Wrappers

  datatype RecorderAction = Start | Stop

  /** The default length of one recording, in seconds. */
  const DefaultDuration: real := 5.0

  const StopKey := "captureRecordButtonStop"
  const RecordKey := "captureRecordButtonRecord"

  /** `_getRecordingDuration`: the recorder's duration, in milliseconds. */
  function RecordingDuration(duration: real): (ms: real)
    ensures ms / 1000.0 == duration
    ensures duration == DefaultDuration ==> ms == 5000.0
  {
    1000.0 * duration
  }

  /** `getRecordingText`: the message key for the record button. */
  function RecordingTextKey(isRecording: bool): (key: string)
    ensures key == StopKey <==> isRecording
    ensures key == RecordKey <==> !isRecording
  {
    if isRecording then StopKey else RecordKey
  }

  class AICapture {
    var isRecording: bool
    /** `_ready`: set once `ready` has run. */
    var ready: bool
    var capturedFiles: seq<nat>
    /** The orders given to the recorder, in order. */
    var recorder: seq<RecorderAction>
    var duration: real

    /** The recorder is not touched before `ready`, and once it has been
        given an order, the last one was to start exactly when recording. */
    ghost predicate Valid()
      reads this
    {
      && (!ready ==> recorder == [])
      && (recorder != [] ==> (recorder[|recorder| - 1] == Start <==> isRecording))
    }

    constructor ()
      ensures Valid()
      ensures !isRecording && !ready && capturedFiles == [] && recorder == []
      ensures duration == DefaultDuration
    {
      isRecording := false;
      ready := false;
      capturedFiles := [];
      recorder := [];
      duration := DefaultDuration;
    }

    /** `ready`. */
    method Ready()
      requires Valid()
      modifies this`ready
      ensures Valid() && ready
    {
      ready := true;
    }

    /** `takeSample` (and `_onRecord`, the same statement): flip
        `isRecording`, which runs its observer. */
    method TakeSample()
      requires Valid()
      modifies this`isRecording, this`capturedFiles, this`recorder
      ensures Valid()
      ensures isRecording == !old(isRecording)
      // before `ready`, the change touches neither the recorder nor the list
      ensures !ready ==> recorder == old(recorder) && capturedFiles == old(capturedFiles)
      // starting empties the list and starts the recorder
      ensures ready && isRecording ==> capturedFiles == [] && recorder == old(recorder) + [Start]
      // stopping only stops the recorder
      ensures ready && !isRecording ==> capturedFiles == old(capturedFiles) && recorder == old(recorder) + [Stop]
    {
      isRecording := !isRecording;
      IsRecordingChanged();
    }

    /** `_isRecordingChanged`, the observer of `isRecording`. */
    method IsRecordingChanged()
      requires !ready ==> recorder == []
      requires recorder != [] ==> (recorder[|recorder| - 1] == Start <==> !isRecording)
      modifies this`capturedFiles, this`recorder
      ensures Valid()
      ensures !ready ==> recorder == old(recorder) && capturedFiles == old(capturedFiles)
      ensures ready && isRecording ==> capturedFiles == [] && recorder == old(recorder) + [Start]
      ensures ready && !isRecording ==> capturedFiles == old(capturedFiles) && recorder == old(recorder) + [Stop]
    {
      if !ready {
        return;
      }
      if isRecording {
        capturedFiles := [];
        recorder := recorder + [Start];
      } else {
        recorder := recorder + [Stop];
      }
    }

    /** `_recordingChanged`: the recorder delivered `rec` (`None` for a null
        recording); keep it, and start the recorder again while recording.
        Only a recorder that was once started delivers recordings. */
    method RecordingChanged(rec: Option<nat>)
      requires Valid() && Start in recorder
      modifies this`capturedFiles, this`recorder
      ensures Valid()
      ensures capturedFiles == old(capturedFiles) + (if rec.Some? then [rec.value] else [])
      ensures recorder == old(recorder) + (if isRecording then [Start] else [])
    {
      if rec.Some? {
        capturedFiles := capturedFiles + [rec.value];
      }
      if isRecording {
        recorder := recorder + [Start];
      }
    }
  }

  /** Two capture sessions on a fresh view: the first keeps every recording
      delivered, including the one the stop order flushes; starting the
      second empties the list again. */
  method TwoSessions(a: nat, b: nat, c: nat)
    returns (afterFirst: seq<nat>, afterSecond: seq<nat>, orders: seq<RecorderAction>)
    ensures afterFirst == [a, b]
    ensures afterSecond == [c]
    ensures orders == [Start, Start, Stop, Start, Start, Start]
  {
    var view := new AICapture();
    view.Ready();
    view.TakeSample();
    view.RecordingChanged(Some(a));
    view.TakeSample();
    view.RecordingChanged(Some(b));
    afterFirst := view.capturedFiles;
    view.TakeSample();
    view.RecordingChanged(None);
    view.RecordingChanged(Some(c));
    afterSecond := view.capturedFiles;
    orders := view.recorder;
  }
}

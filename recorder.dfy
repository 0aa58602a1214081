/** `RecorderThread` (main.py:64-153): one recording, run on its own thread.
    The window creates and starts it; `force_stop` sets its stop event from
    the window's thread; `run` emits a status, sets up the recognizer, opens
    the audio stream and runs the silence loop of module Silence until the
    stop event is set or the silence policy breaks out. */
module Recorder {
  import opened Signals
  import opened Silence

  /** Life of a Python thread: created, started (`is_alive()`), returned from `run`. */
  datatype ThreadState = NotStarted | Alive | Finished

  /** What the window can observe of a recorder. */
  datatype RecorderView = RecorderView(state: ThreadState, stopEvent: bool)

  /** Where `run` fails, if it does. The recognizer is built and started
      before the `try` block (main.py:85-97), so an exception there ends the
      thread unhandled: `RecognizerFault`. The thread itself then sends no
      transcript; if the failure is in starting recognition (main.py:97), the
      callbacks are already connected and a later cancellation may still send
      one (module Recognition). Opening the audio stream (main.py:114-117) and
      closing the push stream and the recognizer after the loop
      (main.py:145-147) are inside the `try` (main.py:149-153). */
  datatype Fault =
    | NoFault
    | RecognizerFault(detail: string)
    | DeviceFault(detail: string)
    | CloseFault(detail: string)

  /** The signals `run` emits, given where it failed and how the loop ended
      (`None` when the loop was never entered). */
  function ThreadSignals(fault: Fault, exit: Option<Exit>): (signals: seq<Signal>)
    // the recording status always comes first
    ensures signals != [] && signals[0] == StatusChanged(RecordingInProgress)
    // the thread reports an empty transcript exactly when a handled exception occurred
    ensures HasTranscript(signals) <==>
              fault.DeviceFault? || (fault.CloseFault? && exit.Some? && !exit.value.StillRecording?)
    ensures forall i :: 0 <= i < |signals| && signals[i].TranscriptionFinished? ==> signals[i].text == ""
    // a failing recognizer set-up ends the thread with nothing but the first status
    ensures fault.RecognizerFault? ==> signals == [StatusChanged(RecordingInProgress)]
    // a handled failure reports its detail before the empty transcript
    ensures HasTranscript(signals) ==>
              signals[1..] == [StatusChanged(RecordingFailed(fault.detail)), TranscriptionFinished("")]
    // otherwise the recording status is all the thread sends
    ensures !HasTranscript(signals) ==> signals == [StatusChanged(RecordingInProgress)]
  {
    var failed := fault.DeviceFault? || (fault.CloseFault? && exit.Some? && !exit.value.StillRecording?);
    var signals := [StatusChanged(RecordingInProgress)]
      + if failed then [StatusChanged(RecordingFailed(fault.detail)), TranscriptionFinished("")] else [];
    assert failed ==> signals[2].TranscriptionFinished?;
    signals
  }

  class RecorderThread {
    var state: ThreadState
    /** `stop_event`, a `threading.Event`: once set it stays set. */
    var stopEvent: bool

    constructor ()
      ensures state == NotStarted && !stopEvent
    {
      state := NotStarted;
      stopEvent := false;
    }

    function View(): RecorderView
      reads this
    {
      RecorderView(state, stopEvent)
    }

    /** `Thread.start`: a thread may be started once. */
    method Start()
      requires state == NotStarted
      modifies this
      ensures View() == old(View()).(state := Alive)
    {
      state := Alive;
    }

    /** `force_stop` (main.py:77-80): only sets the stop event, so a second
      call leaves the state as the first left it. */
    method ForceStop()
      modifies this
      ensures View() == old(View()).(stopEvent := true)
    {
      stopEvent := true;
    }

    /** `run` (main.py:82-153) on a finite input. `events` interleaves the
        queue's answers with the window's `force_stop` calls; when the input
        runs out while the loop is still recording the thread stays alive. */
    method Run(fault: Fault, events: seq<Event>) returns (exit: Option<Exit>, signals: seq<Signal>)
      requires state == Alive
      modifies this
      ensures exit == if fault.RecognizerFault? || fault.DeviceFault? then None
                      else Some(Drive(old(stopEvent), None, events))
      ensures signals == ThreadSignals(fault, exit)
      ensures state == if exit.Some? && exit.value.StillRecording? then Alive else Finished
      ensures stopEvent == if exit.None? then old(stopEvent) else exit.value.StopEventExit?
    {
      signals := [StatusChanged(RecordingInProgress)];
      if fault.RecognizerFault? {
        // raised outside the try block: the thread dies without a transcript
        exit := None;
        state := Finished;
        return;
      }
      if fault.DeviceFault? {
        signals := signals + [StatusChanged(RecordingFailed(fault.detail)), TranscriptionFinished("")];
        exit := None;
        state := Finished;
        return;
      }
      var silenceStart: Option<real> := None;
      var silent := false;
      var i := 0;
      while !stopEvent && i < |events|
        invariant 0 <= i <= |events|
        invariant state == Alive
        invariant Drive(stopEvent, silenceStart, events[i..]) == Drive(old(stopEvent), None, events)
        decreases |events| - i
      {
        assert events[i..][0] == events[i] && events[i..][1..] == events[i + 1..];
        match events[i] {
          case StopRequested =>
            // the window's thread calls force_stop between two passes
            ForceStop();
          case Poll(QueueEmpty) =>
          case Poll(Chunk(volume, now)) =>
            if volume > SilenceThreshold {
              silenceStart := None;
            } else if silenceStart.None? {
              silenceStart := Some(now);
            } else if now - silenceStart.value > SilenceDuration {
              silent := true;
              break;
            }
        }
        i := i + 1;
      }
      var e := if silent then SilenceExit
               else if stopEvent then StopEventExit
               else StillRecording(silenceStart);
      exit := Some(e);
      if e.StillRecording? {
        return;
      }
      if fault.CloseFault? {
        signals := signals + [StatusChanged(RecordingFailed(fault.detail)), TranscriptionFinished("")];
      }
      state := Finished;
    }
  }
}

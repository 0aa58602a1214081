/** `MainWindow` (main.py:172-268) as far as it decides the recording
    session: the hotkey toggle (`on_hotkey_activated_slot`), the status slot
    and the transcription-finished slot. Qt delivers every slot call on the
    window's thread, one at a time, so the window is a sequential state
    machine over the events below. */
module Window {
  import opened Signals
  import opened Recorder

  /** The text of `process_status_label`. */
  datatype ProcessStatus =
    | Standby                         // "standby"
    | InitError                       // "error": initialisation raised
    | SdkNotReady                     // "Azure SDK not ready"
    | Copied                          // "copied to clipboard!"
    | Showing(message: StatusMessage)  // a message from recording_status_changed

  /** Which branch a hotkey activation took. */
  datatype Activation =
    | Started       // not recording, configured: a fresh recorder is started
    | ForceStopped  // recording, recorder alive: its stop event is set
    | Ignored       // recording, but no live recorder: nothing happens
    | Refused       // not recording, no speech configuration: nothing is started

  /** The window's state: `is_recording`, whether `speech_config` exists, the
      current `recorder_thread`, the status label, the result label and the
      system clipboard. */
  datatype WindowView = WindowView(
    isRecording: bool,
    configured: bool,
    recorder: Option<RecorderView>,
    status: ProcessStatus,
    result: string,
    clipboard: Option<string>)

  datatype Reaction = Reaction(outcome: Activation, after: WindowView)

  /** What reaches the window: a hotkey activation, a signal from a recorder
      thread or the recognizer callbacks, or the current recorder's thread
      returning from `run`. */
  datatype UiEvent = Hotkey | Delivered(signal: Signal) | RecorderEnded

  /** The window after `__init__` (main.py:176-230): idle, no recorder.
      `configured` says whether `speech_config` was set (main.py:213);
      `initialised` whether the rest of `init_azure_speech_config` then ran
      without raising. `speech_config` can be set while a later step raises,
      so only `initialised ==> configured` holds; the status label reads
      "error" exactly when initialisation raised (main.py:225-230). */
  function Initial(configured: bool, initialised: bool): (w: WindowView)
    requires initialised ==> configured
    ensures !w.isRecording && w.recorder.None? && w.configured == configured
    ensures w.status == if initialised then Standby else InitError
    // the result label starts empty and nothing has been copied yet
    ensures w.result == "" && w.clipboard.None?
  {
    WindowView(false, configured, None, if initialised then Standby else InitError, "", None)
  }

  /** The recorder is there and `is_alive()`. */
  predicate RecorderAlive(w: WindowView)
  {
    w.recorder.Some? && w.recorder.value.state == Alive
  }

  /** `on_hotkey_activated_slot` (main.py:233-249). */
  function Activate(w: WindowView): (r: Reaction)
    // a new recorder is started exactly when the window is idle and configured
    ensures r.outcome == Started <==> !w.isRecording && w.configured
    ensures r.outcome == Started ==>
              r.after == w.(isRecording := true, result := "", recorder := Some(RecorderView(Alive, false)))
    // while recording, a live recorder is only asked to stop; nothing else changes
    ensures r.outcome == ForceStopped <==> w.isRecording && RecorderAlive(w)
    ensures r.outcome == ForceStopped ==>
              r.after == w.(recorder := Some(w.recorder.value.(stopEvent := true)))
    ensures r.outcome == Ignored ==> r.after == w
    // an unconfigured idle window only shows that the SDK is not ready
    ensures r.outcome == Refused <==> !w.isRecording && !w.configured
    ensures r.outcome == Refused ==> r.after == w.(status := SdkNotReady) && !r.after.isRecording
  {
    if w.isRecording then
      if RecorderAlive(w) then
        Reaction(ForceStopped, w.(recorder := Some(w.recorder.value.(stopEvent := true))))
      else
        Reaction(Ignored, w)
    else if !w.configured then
      Reaction(Refused, w.(status := SdkNotReady))
    else
      Reaction(Started, w.(isRecording := true, result := "", recorder := Some(RecorderView(Alive, false))))
  }

  /** `on_status_changed` (main.py:252-254). */
  function ShowStatus(w: WindowView, message: StatusMessage): (r: WindowView)
    ensures r.status == Showing(message)
    ensures r.(status := w.status) == w
  {
    w.(status := Showing(message))
  }

  /** `on_transcription_finished` (main.py:257-268), leaving out the timer that
      later puts the status back to standby. */
  function Finish(w: WindowView, text: string): (r: WindowView)
    // whatever the text, the window stops recording and shows it
    ensures !r.isRecording && r.result == text
    // the clipboard is written exactly when the text is not empty
    ensures r.clipboard == if text != "" then Some(text) else w.clipboard
    ensures r.status == if text != "" then Copied else Standby
    // the recorder reference and the configuration are left alone
    ensures r.recorder == w.recorder && r.configured == w.configured
  {
    var idle := w.(result := text, status := Standby, isRecording := false);
    if text != "" then idle.(clipboard := Some(text), status := Copied) else idle
  }

  /** One event. */
  function React(w: WindowView, e: UiEvent): (r: WindowView)
    ensures r.configured == w.configured
  {
    match e
    case Hotkey => Activate(w).after
    case Delivered(StatusChanged(message)) => ShowStatus(w, message)
    case Delivered(TranscriptionFinished(text)) => Finish(w, text)
    case RecorderEnded =>
      if w.recorder.Some? then w.(recorder := Some(w.recorder.value.(state := Finished))) else w
  }

  /** A run of events, in order. */
  function Replay(w: WindowView, events: seq<UiEvent>): (r: WindowView)
    decreases |events|
  {
    if events == [] then w else Replay(React(w, events[0]), events[1..])
  }

  /** How many activations in a run start a new recorder. */
  function Starts(w: WindowView, events: seq<UiEvent>): nat
    decreases |events|
  {
    if events == [] then 0
    else
      var started := events[0] == Hotkey && Activate(w).outcome == Started;
      (if started then 1 else 0) + Starts(React(w, events[0]), events[1..])
  }

  /** How many transcription-finished signals a run delivers. */
  function Finishes(events: seq<UiEvent>): nat
    decreases |events|
  {
    if events == [] then 0
    else
      var finished := events[0].Delivered? && events[0].signal.TranscriptionFinished?;
      (if finished then 1 else 0) + Finishes(events[1..])
  }

  /** The signals of a thread or callback, as delivered to the window. */
  function Deliver(signals: seq<Signal>): (r: seq<UiEvent>)
    ensures |r| == |signals| && forall i :: 0 <= i < |r| ==> r[i] == Delivered(signals[i])
  {
    seq(|signals|, i requires 0 <= i < |signals| => Delivered(signals[i]))
  }

  /** Replaying `a + b` is replaying `a`, then `b`. */
  lemma {:induction false} ReplayAppend(w: WindowView, a: seq<UiEvent>, b: seq<UiEvent>)
    ensures Replay(w, a + b) == Replay(Replay(w, a), b)
    ensures Starts(w, a + b) == Starts(w, a) + Starts(Replay(w, a), b)
    decreases |a|
  {
    if a == [] {
      assert a + b == b;
    } else {
      assert (a + b)[0] == a[0] && (a + b)[1..] == a[1..] + b;
      ReplayAppend(React(w, a[0]), a[1..], b);
    }
  }

  /** A window starts at most one recorder per session: between two
      transcription-finished signals, at most one activation starts one, and
      none while the window is already recording. */
  lemma {:induction false} StartsBounded(w: WindowView, events: seq<UiEvent>)
    ensures Starts(w, events) <= (if w.isRecording then 0 else 1) + Finishes(events)
    decreases |events|
  {
    if events != [] {
      StartsBounded(React(w, events[0]), events[1..]);
    }
  }

  /** A window without a speech configuration never starts a recorder,
      whatever happens (main.py:241-244). */
  lemma {:induction false} UnconfiguredNeverStarts(w: WindowView, events: seq<UiEvent>)
    requires !w.configured
    ensures Starts(w, events) == 0
    ensures w.recorder.None? ==> Replay(w, events).recorder.None?
    ensures !w.isRecording ==> !Replay(w, events).isRecording
    decreases |events|
  {
    if events != [] {
      UnconfiguredNeverStarts(React(w, events[0]), events[1..]);
    }
  }

  /** The flag is cleared only by a transcript: a window that records but
      whose recorder is no longer alive stays recording, and every activation
      is ignored, until a transcription-finished signal arrives. */
  lemma {:induction false} StrandedUntilTranscript(w: WindowView, events: seq<UiEvent>)
    requires w.isRecording && !RecorderAlive(w)
    requires Finishes(events) == 0
    ensures Starts(w, events) == 0
    ensures Replay(w, events).isRecording && !RecorderAlive(Replay(w, events))
    decreases |events|
  {
    if events != [] {
      StrandedUntilTranscript(React(w, events[0]), events[1..]);
    }
  }

  /** A second activation while recording has the effect of the first: the
      stop event is already set and setting it again changes nothing. */
  lemma RepeatedStopActivation(w: WindowView)
    requires w.isRecording
    ensures Activate(Activate(w).after) == Activate(w)
  {
  }

  /** A transcription-finished signal re-arms the hotkey of a configured
      window, even while the current recorder is still alive: the next
      activation starts a second recorder beside it. */
  lemma TranscriptRearmsHotkey(w: WindowView, text: string)
    requires w.configured
    ensures Activate(Finish(w, text)).outcome == Started
    ensures RecorderAlive(w) ==> Replay(w, [Delivered(TranscriptionFinished(text)), Hotkey]).recorder
                                  == Some(RecorderView(Alive, false))
  {
    var events := [Delivered(TranscriptionFinished(text)), Hotkey];
    var idle := Finish(w, text);
    assert React(w, events[0]) == idle;
    assert events[1..] == [Hotkey];
    assert Replay(w, events) == Replay(idle, [Hotkey]);
    assert Replay(idle, [Hotkey]) == Replay(Activate(idle).after, []);
  }

  class MainWindow {
    var isRecording: bool
    /** Whether `speech_config` was set by `init_azure_speech_config`. */
    const configured: bool
    var recorder: RecorderThread?
    var status: ProcessStatus
    var result: string
    var clipboard: Option<string>

    /** `__init__` with the outcome of the SDK initialisation as parameters:
        whether `speech_config` was set and whether initialisation completed. */
    constructor (configured: bool, initialised: bool)
      requires initialised ==> configured
      ensures View() == Initial(configured, initialised)
    {
      this.configured := configured;
      isRecording := false;
      recorder := null;
      status := if initialised then Standby else InitError;
      result := "";
      clipboard := None;
    }

    function View(): WindowView
      reads this, recorder
    {
      WindowView(isRecording, configured, if recorder == null then None else Some(recorder.View()),
                 status, result, clipboard)
    }

    /** `on_hotkey_activated_slot` (main.py:233-249). */
    method OnHotkeyActivated() returns (outcome: Activation)
      modifies this, recorder
      ensures Reaction(outcome, View()) == Activate(old(View()))
      ensures outcome == Started ==> fresh(recorder)
      // the replaced recorder is not touched: its thread carries on as it was
      ensures outcome == Started && old(recorder) != null ==> unchanged(old(recorder))
      ensures outcome != Started ==> recorder == old(recorder)
    {
      if isRecording {
        if recorder != null && recorder.state == Alive {
          recorder.ForceStop();
          outcome := ForceStopped;
        } else {
          outcome := Ignored;
        }
      } else {
        if !configured {
          status := SdkNotReady;
          outcome := Refused;
          return;
        }
        isRecording := true;
        result := "";
        recorder := new RecorderThread();
        recorder.Start();
        outcome := Started;
      }
    }

    /** `on_status_changed` (main.py:252-254). */
    method OnStatusChanged(message: StatusMessage)
      modifies this
      ensures View() == ShowStatus(old(View()), message)
    {
      status := Showing(message);
    }

    /** `on_transcription_finished` (main.py:257-268). */
    method OnTranscriptionFinished(text: string)
      modifies this
      ensures View() == Finish(old(View()), text)
    {
      result := text;
      status := Standby;
      isRecording := false;
      if text != "" {
        clipboard := Some(text);
        status := Copied;
      }
    }
  }
}

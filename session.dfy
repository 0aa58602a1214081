/** A recording session end to end: what the window does with the signals
    the recorder thread (module Recorder) and the recognizer callbacks
    (module Recognition) send it. */
module Session {
  import opened Signals
  import opened Silence
  import opened Recognition
  import opened Recorder
  import opened Window

  /** Replaying signals that carry no transcript changes neither the flag
      nor the recorder, and starts nothing. */
  lemma {:induction false} StatusOnlyReplay(w: WindowView, signals: seq<Signal>)
    requires forall i :: 0 <= i < |signals| ==> signals[i].StatusChanged?
    ensures Replay(w, Deliver(signals)).isRecording == w.isRecording
    ensures Replay(w, Deliver(signals)).recorder == w.recorder
    ensures Replay(w, Deliver(signals)).clipboard == w.clipboard
    ensures Finishes(Deliver(signals)) == 0
    decreases |signals|
  {
    if signals != [] {
      var events := Deliver(signals);
      assert events[1..] == Deliver(signals[1..]);
      StatusOnlyReplay(React(w, events[0]), signals[1..]);
    }
  }

  /** A cancellation delivered to the window ends its recording, leaves the
      clipboard alone, and leaves the status label at "standby": the error
      message of an `Error` cancellation is shown and replaced at once. */
  lemma CancellationEndsRecording(w: WindowView, reason: CancellationReason, details: string)
    ensures !Replay(w, Deliver(OnCanceled(reason, details))).isRecording
    ensures Replay(w, Deliver(OnCanceled(reason, details))).clipboard == w.clipboard
    ensures Replay(w, Deliver(OnCanceled(reason, details))).status == Standby
    ensures Replay(w, Deliver(OnCanceled(reason, details))).recorder == w.recorder
  {
    var signals := OnCanceled(reason, details);
    var events := Deliver(signals);
    var last := [Delivered(TranscriptionFinished(""))];
    assert events == Deliver(signals[..|signals| - 1]) + last;
    ReplayAppend(w, Deliver(signals[..|signals| - 1]), last);
    StatusOnlyReplay(w, signals[..|signals| - 1]);
    var before := Replay(w, Deliver(signals[..|signals| - 1]));
    assert Replay(before, last) == Replay(Finish(before, ""), []);
  }

  /** A recognition result delivered to the window: recognized speech and
      no-match end the recording, any other reason leaves it; only recognized
      speech with a non-empty text reaches the clipboard. */
  lemma RecognitionResultReachesWindow(w: WindowView, reason: ResultReason, text: string)
    ensures Replay(w, Deliver(OnRecognized(reason, text))).isRecording ==
              (w.isRecording && reason == OtherReason)
    ensures Replay(w, Deliver(OnRecognized(reason, text))).clipboard ==
              if reason == RecognizedSpeech && text != "" then Some(text) else w.clipboard
  {
    var events := Deliver(OnRecognized(reason, text));
    if reason != OtherReason {
      assert events[1..] == [];
    }
  }

  /** The events of one recording: the activation that starts the recorder,
      the signals its `run` emits, and its thread returning. */
  function Recording(fault: Fault, exit: Option<Exit>): (events: seq<UiEvent>)
    requires exit.None? || !exit.value.StillRecording?
    ensures |events| >= 2 && events[0] == Hotkey && events[|events| - 1] == RecorderEnded
  {
    [Hotkey] + Deliver(ThreadSignals(fault, exit)) + [RecorderEnded]
  }

  /** When building or starting the recognizer fails (main.py:85-97, before
      the `try` block), the thread ends without a transcript: the window stays
      "recording" with a dead recorder, and no later activation, status or
      thread exit starts another recording. Only a transcription-finished
      signal releases it. When building the recognizer or connecting its
      callbacks fails (main.py:86-94), nothing of this recording is left to
      send one, and the window stays stuck unless an earlier recorder that is
      still running sends a transcript (`EarlierRecorderReleasesWindow`); when
      starting recognition fails (main.py:97), a later cancellation through
      the already connected `canceled_cb` can still send it (main.py:170). */
  lemma RecognizerFaultStrandsWindow(w: WindowView, detail: string, later: seq<UiEvent>)
    requires !w.isRecording && w.configured
    requires Finishes(later) == 0
    ensures Starts(w, Recording(RecognizerFault(detail), None) + later) == 1
    ensures Replay(w, Recording(RecognizerFault(detail), None) + later).isRecording
  {
    var run := Recording(RecognizerFault(detail), None);
    assert run == [Hotkey, Delivered(StatusChanged(RecordingInProgress)), RecorderEnded];
    var w1 := Activate(w).after;
    var w2 := ShowStatus(w1, RecordingInProgress);
    var w3 := w2.(recorder := Some(w2.recorder.value.(state := Finished)));
    assert Replay(w, run) == Replay(w1, run[1..]);
    assert Replay(w1, run[1..]) == Replay(w2, run[2..]);
    assert Replay(w2, run[2..]) == Replay(w3, []);
    assert Starts(w, run) == 1 + Starts(w1, run[1..]);
    assert Starts(w1, run[1..]) == Starts(w2, run[2..]);
    assert Starts(w2, run[2..]) == Starts(w3, []);
    ReplayAppend(w, run, later);
    StrandedUntilTranscript(w3, later);
  }

  /** A recording stranded by a recognizer fault is still released by an
      earlier recorder: a transcript from its `recognized_cb` re-arms the
      hotkey, the next recording fails to build its recognizer and strands
      the window, and the earlier recorder's still connected `canceled_cb`
      then ends the recording after all. */
  lemma EarlierRecorderReleasesWindow(w: WindowView, text: string, detail: string,
                                      reason: CancellationReason, details: string)
    requires w.configured && w.isRecording && RecorderAlive(w)
    ensures var stranded := Replay(w, [Delivered(TranscriptionFinished(text))]
                                      + Recording(RecognizerFault(detail), None));
            stranded.isRecording && !RecorderAlive(stranded) &&
            !Replay(stranded, Deliver(OnCanceled(reason, details))).isRecording
  {
    var first := [Delivered(TranscriptionFinished(text))];
    var run := Recording(RecognizerFault(detail), None);
    var idle := Finish(w, text);
    assert Replay(w, first) == Replay(idle, []);
    ReplayAppend(w, first, run);
    RecognizerFaultStrandsWindow(idle, detail, []);
    assert run + [] == run;
    var stranded := Replay(idle, run);
    assert run == [Hotkey, Delivered(StatusChanged(RecordingInProgress)), RecorderEnded];
    var w1 := Activate(idle).after;
    var w2 := ShowStatus(w1, RecordingInProgress);
    assert Replay(idle, run) == Replay(w1, run[1..]);
    var w3 := w2.(recorder := Some(w2.recorder.value.(state := Finished)));
    assert Replay(w1, run[1..]) == Replay(w2, run[2..]);
    assert Replay(w2, run[2..]) == Replay(w3, []);
    assert !RecorderAlive(stranded);
    CancellationEndsRecording(stranded, reason, details);
  }

  /** When the audio device cannot be opened (main.py:114, inside the `try`
      block), the thread reports the error and an empty transcript: the
      window returns to idle with the status label at "standby", and the
      next activation starts a new recording. */
  lemma DeviceFaultReleasesWindow(w: WindowView, detail: string)
    requires !w.isRecording && w.configured
    ensures !Replay(w, Recording(DeviceFault(detail), None)).isRecording
    ensures Replay(w, Recording(DeviceFault(detail), None)).status == Standby
    ensures Replay(w, Recording(DeviceFault(detail), None)).clipboard == w.clipboard
    ensures Activate(Replay(w, Recording(DeviceFault(detail), None))).outcome == Started
  {
    var run := Recording(DeviceFault(detail), None);
    assert run == [Hotkey, Delivered(StatusChanged(RecordingInProgress)),
                   Delivered(StatusChanged(RecordingFailed(detail))),
                   Delivered(TranscriptionFinished("")), RecorderEnded];
    var w1 := Activate(w).after;
    var w2 := ShowStatus(w1, RecordingInProgress);
    var w3 := ShowStatus(w2, RecordingFailed(detail));
    var w4 := Finish(w3, "");
    var w5 := w4.(recorder := Some(w4.recorder.value.(state := Finished)));
    assert Replay(w, run) == Replay(w1, run[1..]);
    assert Replay(w1, run[1..]) == Replay(w2, run[2..]);
    assert Replay(w2, run[2..]) == Replay(w3, run[3..]);
    assert Replay(w3, run[3..]) == Replay(w4, run[4..]);
    assert Replay(w4, run[4..]) == Replay(w5, []);
  }

  /** A normal recording that ended on silence or on the stop event sends the
      window only the recording status: the window is released by the
      recognizer's callbacks, not by the thread. */
  lemma NormalRunLeavesReleaseToRecognizer(exit: Exit, w: WindowView)
    requires !exit.StillRecording?
    ensures !HasTranscript(ThreadSignals(NoFault, Some(exit)))
    ensures Replay(w, Deliver(ThreadSignals(NoFault, Some(exit)))).isRecording == w.isRecording
  {
    StatusOnlyReplay(w, ThreadSignals(NoFault, Some(exit)));
  }
}

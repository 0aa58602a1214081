/** Values that the recorder thread and the speech callbacks hand to the main
    window through the `Communicate` signal object of main.py. */
module Signals {

  /** The conventional optional value; `None` stands for Python's `None`. */
  datatype Option<+T> = None | Some(value: T)

  /** The messages sent through `recording_status_changed`. The texts of the
      source are Chinese UI strings; the model keeps only which message it is
      and the error detail it carries. */
  datatype StatusMessage =
    | RecordingInProgress              // "recording... (press the hotkey again to stop)"
    | RecordingFailed(detail: string)  // "recording/recognition error: <exception>"
    | RecognitionCanceled(detail: string)  // "recognition cancelled with error: <details>"

  /** One emission on the signal object, in the order it is emitted. */
  datatype Signal =
    | StatusChanged(message: StatusMessage)
    | TranscriptionFinished(text: string)

  /** True when `signals` carries a transcription-finished signal. */
  predicate HasTranscript(signals: seq<Signal>)
  {
    exists i :: 0 <= i < |signals| && signals[i].TranscriptionFinished?
  }
}

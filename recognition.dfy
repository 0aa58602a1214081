/** The two speech-recognizer callbacks of `RecorderThread`
    (`recognized_cb` and `canceled_cb`, main.py:155-170): each maps what the
    recognizer reports to the signals it emits to the window. */
module Recognition {
  import opened Signals

  /** `ResultReason` of a recognition result, as far as `recognized_cb`
      distinguishes it; every reason other than the two it tests for is
      `OtherReason`. */
  datatype ResultReason = RecognizedSpeech | NoMatch | OtherReason

  /** `CancellationReason` of a cancellation event. */
  datatype CancellationReason = Error | EndOfStream | CancelledByUser

  /** `recognized_cb`: recognized speech hands its text on, no match hands on
      the empty string, any other reason emits nothing. */
  function OnRecognized(reason: ResultReason, text: string): (signals: seq<Signal>)
    ensures |signals| <= 1
    ensures forall i :: 0 <= i < |signals| ==> signals[i].TranscriptionFinished?
    ensures signals != [] <==> reason != OtherReason
    // corollary of the two clauses below: a non-empty text comes only from recognized speech
    ensures signals != [] && signals[0].text != "" ==> reason == RecognizedSpeech && signals[0].text == text
    ensures reason == RecognizedSpeech ==> signals == [TranscriptionFinished(text)]
    ensures reason == NoMatch ==> signals == [TranscriptionFinished("")]
  {
    match reason
    case RecognizedSpeech => [TranscriptionFinished(text)]
    case NoMatch => [TranscriptionFinished("")]
    case OtherReason => []
  }

  /** `canceled_cb`: a cancellation always ends with an empty transcript; only
      an `Error` cancellation reports its details as a status first. */
  function OnCanceled(reason: CancellationReason, details: string): (signals: seq<Signal>)
    ensures signals != [] && signals[|signals| - 1] == TranscriptionFinished("")
    ensures |signals| == (if reason == Error then 2 else 1)
    ensures reason == Error ==> signals[0] == StatusChanged(RecognitionCanceled(details))
    ensures forall i :: 0 <= i < |signals| - 1 ==> signals[i].StatusChanged?
  {
    (if reason == Error then [StatusChanged(RecognitionCanceled(details))] else [])
      + [TranscriptionFinished("")]
  }

  /** What the recognizer reports to the thread: a result or a cancellation. */
  datatype Report =
    | Recognized(reason: ResultReason, text: string)
    | Canceled(cancellation: CancellationReason, details: string)

  /** The signals the callbacks emit for a run of reports, in order. */
  function Callbacks(reports: seq<Report>): (signals: seq<Signal>)
  {
    if reports == [] then []
    else
      (match reports[0]
       case Recognized(reason, text) => OnRecognized(reason, text)
       case Canceled(reason, details) => OnCanceled(reason, details))
      + Callbacks(reports[1..])
  }

  /** Number of reports that are recognized speech with a non-empty text. */
  function SpokenCount(reports: seq<Report>): nat
  {
    if reports == [] then 0
    else
      var spoken := reports[0].Recognized? && reports[0].reason == RecognizedSpeech && reports[0].text != "";
      (if spoken then 1 else 0) + SpokenCount(reports[1..])
  }

  /** Number of transcription-finished signals with a non-empty text. */
  function NonEmptyTranscripts(signals: seq<Signal>): nat
  {
    if signals == [] then 0
    else
      var text := signals[0].TranscriptionFinished? && signals[0].text != "";
      (if text then 1 else 0) + NonEmptyTranscripts(signals[1..])
  }

  lemma {:induction false} NonEmptyTranscriptsAppend(a: seq<Signal>, b: seq<Signal>)
    ensures NonEmptyTranscripts(a + b) == NonEmptyTranscripts(a) + NonEmptyTranscripts(b)
    decreases |a|
  {
    if a != [] {
      assert (a + b)[0] == a[0] && (a + b)[1..] == a[1..] + b;
      NonEmptyTranscriptsAppend(a[1..], b);
    } else {
      assert a + b == b;
    }
  }

  /** The empty string is the uniform "no result" signal: the callbacks hand
      the window exactly one non-empty transcript per report of recognized
      speech with a non-empty text, and none for no-match, other reasons or
      any cancellation. */
  lemma {:induction false} OnlySpeechYieldsText(reports: seq<Report>)
    ensures NonEmptyTranscripts(Callbacks(reports)) == SpokenCount(reports)
    decreases |reports|
  {
    if reports != [] {
      var head := match reports[0]
        case Recognized(reason, text) => OnRecognized(reason, text)
        case Canceled(reason, details) => OnCanceled(reason, details);
      NonEmptyTranscriptsAppend(head, Callbacks(reports[1..]));
      OnlySpeechYieldsText(reports[1..]);
      if reports[0].Canceled? {
        assert NonEmptyTranscripts(head) == 0 by {
          assert head[|head| - 1] == TranscriptionFinished("");
          if |head| == 2 {
            assert head[1..] == [TranscriptionFinished("")];
          }
        }
      }
    }
  }
}

# Hotkey speech-to-text: recording session model

A Dafny model of the session logic in `main.py` of a desktop tool. In that tool a global hotkey
starts a microphone recording. The recording is streamed to the Azure speech recognizer and stops
by itself after sustained silence, or on a second hotkey press. The final transcript is copied to
the clipboard. Three pieces of sequential decision logic are modelled. The rest of the program is
threads, Qt and library glue around them.

- **Silence auto-stop** (`silence.dfy`, module `Silence`). This covers one pass of the loop in
  `RecorderThread.run` (`Step`) and the whole loop on a finite input (`Drive`). The loop's input
  interleaves queue answers (a block with its volume and wall-clock time, or a 0.1 s timeout) with
  the window's `force_stop` calls (`StopRequested`). Lemmas show how the silence timer behaves:
  - a loud block resets it;
  - the first quiet block only arms it;
  - the loop stops only when strictly more than `SILENCE_DURATION` has passed;
  - queue timeouts change nothing;
  - a stop request ends the loop at the next check, and two requests act as one;
  - once the loop has exited, later input does not matter.
  Two lemmas work through concrete block sequences on the 0.2 s cadence.
- **Recorder thread** (`recorder.dfy`, class `Recorder.RecorderThread`). It holds the
  `stop_event` flag and the thread's life (not started, alive, finished). `Run` is the thread
  body. It runs an imperative `while` loop with the source's branches, and the loop is proved equal
  to `Silence.Drive`. `ThreadSignals` lists the signals `run` emits for each place it can fail.
- **Recognition callbacks** (`recognition.dfy`). `recognized_cb` and `canceled_cb` are pure maps
  from the recognizer's reason to the signals emitted. `OnlySpeechYieldsText` proves that a
  non-empty transcript comes only from recognized speech.
- **Window** (`window.dfy`). `on_hotkey_activated_slot`, `on_status_changed` and
  `on_transcription_finished` are modelled twice:
  - as pure transitions on a `WindowView`;
  - as the methods of class `MainWindow`, each proved against its pure transition.
  Lemmas over event traces show that no activation starts a recorder while the window is
  recording. They also show that a window without a speech configuration never starts one, and
  that a window with a dead recorder stays "recording" until a transcript arrives.
- **Session** (`session.dfy`). Cross-module lemmas cover what the window does with the signals of
  a failed thread and of the recognizer callbacks.

Volumes and timestamps are `real` inputs. The source computes the volume as a scaled
floating-point norm and reads the time with `time.time()` when a block is dequeued. The constants
are the source's: threshold 3000, duration 2 s, block 0.2 s.

The model follows the code, including these behaviours, some of which a reader might not expect:

- The stop test is strict: elapsed time `>` 2 s, not `>=`. With quiet blocks every 0.2 s, the loop
  stops on the 12th quiet block (2.2 s after the first), not the 10th
  (`Silence.SteadySilenceStopsAtTwelfthBlock`).
- Silence is timed from the dequeue time of the first quiet block after the last loud one. It is
  not timed from a capture timestamp or from the last loud block.
- Nothing stops a second session from starting while the first is alive. `recognized_cb` sends a
  transcript for every recognized phrase, and each one clears `is_recording`. The next activation
  then starts a second recorder beside the first (`Window.TranscriptRearmsHotkey`).
- A second activation while recording does not fail with "already recording". It force-stops the
  live recorder, or does nothing when the recorder is dead.
- The recognizer is built and started before the `try` block. If that fails, the thread dies
  without a transcript and the window stays "recording", ignoring every activation, until some
  transcript arrives (`Session.RecognizerFaultStrandsWindow`). When building the recognizer or
  connecting its callbacks fails, nothing of this recording is left to send one. The window stays
  stuck unless an earlier recorder that is still running sends a transcript
  (`Session.EarlierRecorderReleasesWindow`).
  When only starting recognition fails, the callbacks are already connected, and a later
  cancellation can still send the empty transcript that frees the window. Device failures inside
  the `try` always release the window (`Session.DeviceFaultReleasesWindow`).
- After a cancellation with an error, the error status is replaced at once by "standby". The last
  status message therefore does not tell an error apart from "no speech"
  (`Session.CancellationEndsRecording`).

## Model

| member | source | states |
|---|---|---|
| `Silence.Step` | main.py:124-141 | the loop breaks exactly on a quiet block that finds the marker set and strictly more than SILENCE_DURATION old; a loud block clears the marker; a timeout keeps it; a quiet non-stopping block keeps the marker or arms it at the block's time |
| `Silence.Drive` | main.py:119-141 | the loop on a finite input, from `silence_start_time = None`; a set stop event ends it at once, and it is still recording only if no stop was requested |
| `Silence.ExitIsFinal` | main.py:136-138 | once the loop has exited (silence break or stop event), any further input leaves the outcome unchanged |
| `Silence.StopRequestEndsLoop` | main.py:122 | a `force_stop` while the loop runs ends it at the next condition check, whatever the silence state and whatever input follows |
| `Silence.ForceStopIdempotent` | main.py:77-80 | two `force_stop` calls in a row give the same loop outcome as one |
| `Silence.LoudBlockResets` | main.py:130-131 | after a loud block the loop behaves as if it had just started with no marker: silence is measured afresh |
| `Silence.TimeoutsChangeNothing` | main.py:139-141 | removing every queue timeout from the input leaves the loop's outcome and marker unchanged |
| `Silence.QuietStretch` | main.py:133-138 | a run of quiet blocks with the marker armed at `s` stops iff some block arrives strictly more than SILENCE_DURATION after `s`; otherwise the marker stays `s` |
| `Silence.SteadySilenceStopsAtTwelfthBlock` | main.py:130-138 | quiet blocks 0.2 s apart: still recording after 11 blocks (marker at the first), stopped after 12, and still stopped after 15 |
| `Silence.LoudBlockRestartsTimer` | main.py:130-138 | 5 quiet, 1 loud, then quiet blocks 0.2 s apart: still recording after 11 quiet blocks (timer re-armed at the block after the loud one), stopped after 12 |
| `Recorder.ThreadSignals` | main.py:82-153 | `run` always emits the recording status first; it emits an (empty) transcript exactly for a device failure or a failure when closing after the loop; a handled failure sends its error status with the detail, then the empty transcript; otherwise, including a recognizer set-up failure, only the recording status is sent |
| `Recorder.RecorderThread.constructor` | main.py:68-75 | a new recorder is not started and its stop event is clear |
| `Recorder.RecorderThread.Start` | main.py:249 | starting the thread makes it alive and leaves the stop event as it was |
| `Recorder.RecorderThread.ForceStop` | main.py:77-80 | sets the stop event and changes nothing else, so repeating it changes nothing |
| `Recorder.RecorderThread.Run` | main.py:82-153 | the loop's outcome is `Silence.Drive` of the input from a clear marker; the signals are `ThreadSignals`; the thread stays alive only while the loop is still recording; the stop event is set exactly when the loop left on it |
| `Recognition.OnRecognized` | main.py:155-162 | recognized speech emits its text, no-match emits "", any other reason emits nothing; at most one signal, always a transcript |
| `Recognition.OnCanceled` | main.py:164-170 | a cancellation always ends with an empty transcript and emits a status with the details first exactly when the reason is `Error` |
| `Recognition.OnlySpeechYieldsText` | main.py:155-170 | over any run of recognizer reports, the callbacks emit exactly one non-empty transcript per recognized-speech report with non-empty text |
| `Window.Initial` | main.py:176-230 | a new window is not recording, has no recorder, an empty result label and nothing copied; its configuration flag is whether `speech_config` was set, and its status reads "error" exactly when initialisation raised, which may happen after `speech_config` was set |
| `Window.Activate` | main.py:233-249 | a recorder is started iff the window is idle and configured; while recording, a live recorder only has its stop event set and nothing else changes, a dead one is ignored; the activation is refused exactly when the window is idle and unconfigured, and then only the status changes, to "SDK not ready" |
| `Window.ShowStatus` | main.py:252-254 | the status label shows the message and nothing else changes |
| `Window.Finish` | main.py:257-268 | whatever the text, recording ends and the text is shown; the clipboard is written exactly when the text is non-empty; the recorder reference is kept |
| `Window.StartsBounded` | main.py:233-261 | over any trace, the recorders started are at most one plus the transcripts delivered, and none beyond that while already recording |
| `Window.UnconfiguredNeverStarts` | main.py:239-244 | a window without a speech configuration never starts a recorder over any trace and never starts recording |
| `Window.StrandedUntilTranscript` | main.py:235-238 | a window that records with no live recorder ignores every activation and stays recording until a transcript is delivered |
| `Window.RepeatedStopActivation` | main.py:235-238 | a second activation while recording has the same outcome and effect as the first |
| `Window.TranscriptRearmsHotkey` | main.py:257-261 | after any transcript a configured window's next activation starts a recorder, even while the previous recorder is still alive |
| `Window.MainWindow.constructor` | main.py:176-230 | the window's state is `Initial` of whether `speech_config` was set and whether initialisation completed |
| `Window.MainWindow.OnHotkeyActivated` | main.py:233-249 | the new state and outcome are `Activate` of the old state; a started recorder is fresh and the one it replaces is left untouched (still running if it was alive); otherwise the recorder reference is unchanged |
| `Window.MainWindow.OnStatusChanged` | main.py:252-254 | the new state is `ShowStatus` of the old one |
| `Window.MainWindow.OnTranscriptionFinished` | main.py:257-268 | the new state is `Finish` of the old one and the text |
| `Session.CancellationEndsRecording` | main.py:164-170 | a cancellation delivered to the window ends recording, leaves the clipboard and recorder alone and leaves the status at "standby" |
| `Session.RecognitionResultReachesWindow` | main.py:155-162 | a recognition result ends recording unless its reason is neither speech nor no-match; only non-empty recognized speech reaches the clipboard |
| `Session.RecognizerFaultStrandsWindow` | main.py:85-97 | a recording whose recognizer set-up fails starts one recorder and leaves the window recording; no later trace without a transcript starts another or ends the recording |
| `Session.EarlierRecorderReleasesWindow` | main.py:155-170 | a window stranded by a recording whose recognizer set-up failed is still released when an earlier recorder, whose own transcript let the failed recording start, later sends a cancellation through its still connected `canceled_cb` |
| `Session.DeviceFaultReleasesWindow` | main.py:111-153 | a recording whose audio device fails leaves the window idle with status "standby" and the clipboard untouched, and the next activation starts a recorder |
| `Session.NormalRunLeavesReleaseToRecognizer` | main.py:143-147 | a loop that ended normally sends no transcript, so the window's recording flag is cleared only by the recognizer callbacks |

## Left out

- The Qt window, its labels' exact (Chinese) texts, the signal/slot wiring and the `QTimer` that resets the status to "standby" two seconds after a copy: UI plumbing. Labels are a datatype.
- `KeyListenerThread` and the pynput hotkey parsing: OS integration. An activation is the abstract `Hotkey` event.
- The sounddevice `InputStream`, the audio callback, the queue handoff and the push-stream writes: device I/O and concurrency. The arrival of a block or a timeout is an input of the loop.
- Concurrency in general: the window's `force_stop` calls reach the loop as events interleaved into its input. The recognizer callbacks reach the window as delivered signals. True parallel interleavings inside one pass of the loop are not modelled.
- The Azure recognizer's set-up, start, stop and result delivery: a foreign library. A failure in set-up, device opening or closing is a `Fault` parameter of `Run`, and results are `Report` values.
- The floating-point volume (`np.linalg.norm(...) * 1000`) and the float32-to-int16 conversion: numerics. Volume and time are abstract `real` inputs.
- Environment-variable and SDK configuration loading: I/O. Its outcome is two flags of the window's constructor: whether `speech_config` was set, and whether the whole initialisation completed. `speech_config` can be set while a later step raises; the status then reads "error".
- The hotkey listener is started only when initialisation completes, so in the program no activation reaches a window whose initialisation raised. The model still accepts activations in every state. The `Refused` branch of `Window.Activate` and `Window.UnconfiguredNeverStarts` describe what the handler would do with such events.
- Window.Activate: does not model a window whose initialisation raised after `speech_config` was set but before `audio_config` was (setting the recognition language at main.py:214 or building the audio configuration at main.py:217). There an activation would set the recording flag and clear the result label (main.py:246-247), then raise at main.py:248 before any recorder exists, leaving the window recording with no recorder; the model instead starts a recorder. Only a failure at main.py:219-223 leaves both configurations set, and then an activation would start a recording as modelled. Neither case is reachable, because the listener is not started.
- `closeEvent`, which stops the listener and force-stops a live recorder on exit: window shutdown plumbing.
- `print` diagnostics and the `session_started`/`session_stopped` logging lambdas: they have no effect on state.
- test_audio_file.py is not part of this model: it is a standalone script that transcribes a WAV file with a different library.
- Recorder.RecorderThread.Run: the real loop runs until stopped. The model runs on a finite input, and when the input runs out the loop reports `StillRecording` with the thread still alive.
- Recognition.OnRecognized: reasons other than recognized speech and no-match are collapsed into one `OtherReason`, since the callback treats them all alike.

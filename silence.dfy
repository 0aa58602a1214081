/** The silence auto-stop policy of `RecorderThread.run` (main.py:119-141).

    The loop keeps one optional marker, the time at which the current quiet
    stretch began. Each pass of the loop first checks the stop event, then
    takes a block from the audio queue (or times out after 0.1 s) and feeds
    the block's volume and the current wall-clock time to the policy below.
    Volume and time are abstract inputs here: the source computes the volume
    as a scaled floating-point norm of the block and the time with
    `time.time()` at the moment the block is dequeued. */
module Silence {
  import opened Signals

  /** SILENCE_THRESHOLD: a block at or below this volume counts as quiet. */
  const SilenceThreshold: real := 3000.0
  /** SILENCE_DURATION, in seconds: a quiet stretch must last strictly longer. */
  const SilenceDuration: real := 2.0
  /** BLOCK_DURATION, in seconds: the cadence at which the device delivers blocks. */
  const BlockDuration: real := 0.2

  /** What one `q.get(timeout=0.1)` yields: a block, measured at time `now`,
      or the `queue.Empty` exception. */
  datatype Arrival = Chunk(volume: real, now: real) | QueueEmpty

  /** One step of the loop's input. `StopRequested` is a `force_stop` call
      made by the window's thread; it lands between two passes of the loop. */
  datatype Event = Poll(arrival: Arrival) | StopRequested

  /** The effect of one arrival on the loop: carry on with a new marker, or break. */
  datatype StepResult = Continue(marker: Option<real>) | SilenceStop

  /** How the loop ended: by the silence `break`, by finding the stop event
      set at the loop condition, or not yet (the input ran out while the loop
      was still recording, with the given marker). */
  datatype Exit = SilenceExit | StopEventExit | StillRecording(marker: Option<real>)

  /** The body of one pass of the loop, for one arrival (main.py:124-141). */
  function Step(marker: Option<real>, arrival: Arrival): (r: StepResult)
    // the loop breaks only on a quiet block that finds the marker set and
    // strictly more than SILENCE_DURATION seconds old
    ensures r.SilenceStop? <==>
              && arrival.Chunk? && arrival.volume <= SilenceThreshold
              && marker.Some? && arrival.now - marker.value > SilenceDuration
    // a loud block clears the marker
    ensures arrival.Chunk? && arrival.volume > SilenceThreshold ==> r == Continue(None)
    // a queue timeout leaves the marker as it was
    ensures arrival.QueueEmpty? ==> r == Continue(marker)
    // a quiet block that does not stop keeps the marker, or arms it at `now` when unset
    ensures r.Continue? && arrival.Chunk? && arrival.volume <= SilenceThreshold ==>
              r.marker == Some(if marker.Some? then marker.value else arrival.now)
  {
    match arrival
    case QueueEmpty => Continue(marker)
    case Chunk(volume, now) =>
      if volume > SilenceThreshold then Continue(None)
      else if marker.None? then Continue(Some(now))
      else if now - marker.value > SilenceDuration then SilenceStop
      else Continue(marker)
  }

  /** The whole loop on a finite input: `stopSet` is the stop event, `marker`
      the value of `silence_start_time`. */
  function Drive(stopSet: bool, marker: Option<real>, events: seq<Event>): (x: Exit)
    // a set stop event ends the loop at once, whatever the silence state
    ensures stopSet ==> x == StopEventExit
    // the loop is still running only if nobody asked it to stop
    ensures x.StillRecording? ==> forall i :: 0 <= i < |events| ==> events[i] != StopRequested
    decreases |events|
  {
    if stopSet then StopEventExit
    else if events == [] then StillRecording(marker)
    else match events[0]
      case StopRequested => Drive(true, marker, events[1..])
      case Poll(a) =>
        match Step(marker, a)
        case SilenceStop => SilenceExit
        case Continue(m) => Drive(false, m, events[1..])
  }

  /** Running the loop on `p + q` is running it on `p` and, if it is still
      recording, carrying on with `q` from the marker it reached. */
  lemma {:induction false} DriveAppend(stopSet: bool, marker: Option<real>, p: seq<Event>, q: seq<Event>)
    ensures Drive(stopSet, marker, p + q) ==
              match Drive(stopSet, marker, p)
              case StillRecording(m) => Drive(false, m, q)
              case x => x
    decreases |p|
  {
    if stopSet || p == [] {
      assert p == [] ==> p + q == q;
    } else {
      assert (p + q)[0] == p[0] && (p + q)[1..] == p[1..] + q;
      match p[0]
      case StopRequested =>
        DriveAppend(true, marker, p[1..], q);
      case Poll(a) =>
        match Step(marker, a)
        case SilenceStop =>
        case Continue(m) => DriveAppend(false, m, p[1..], q);
    }
  }

  /** Once the loop has exited, later input changes nothing. */
  lemma ExitIsFinal(stopSet: bool, marker: Option<real>, p: seq<Event>, q: seq<Event>)
    requires !Drive(stopSet, marker, p).StillRecording?
    ensures Drive(stopSet, marker, p + q) == Drive(stopSet, marker, p)
  {
    DriveAppend(stopSet, marker, p, q);
  }

  /** A `force_stop` while the loop is running ends it at the next condition
      check, whatever blocks were still to come (main.py:77-80, main.py:122). */
  lemma StopRequestEndsLoop(marker: Option<real>, p: seq<Event>, q: seq<Event>)
    requires Drive(false, marker, p).StillRecording?
    ensures Drive(false, marker, p + [StopRequested] + q) == StopEventExit
  {
    DriveAppend(false, marker, p, [StopRequested] + q);
    assert p + [StopRequested] + q == p + ([StopRequested] + q);
  }

  /** `force_stop` only sets the event: two calls in a row act as one. */
  lemma ForceStopIdempotent(marker: Option<real>, p: seq<Event>, q: seq<Event>)
    ensures Drive(false, marker, p + [StopRequested, StopRequested] + q) ==
            Drive(false, marker, p + [StopRequested] + q)
  {
    DriveAppend(false, marker, p, [StopRequested, StopRequested] + q);
    DriveAppend(false, marker, p, [StopRequested] + q);
    assert p + [StopRequested, StopRequested] + q == p + ([StopRequested, StopRequested] + q);
    assert p + [StopRequested] + q == p + ([StopRequested] + q);
  }

  /** A loud block while the loop is running resets the silence timer: what
      follows behaves as if the recording had just begun (main.py:130-131). */
  lemma LoudBlockResets(marker: Option<real>, p: seq<Event>, volume: real, now: real, q: seq<Event>)
    requires volume > SilenceThreshold
    requires Drive(false, marker, p).StillRecording?
    ensures Drive(false, marker, p + [Poll(Chunk(volume, now))] + q) == Drive(false, None, q)
  {
    var loud := Poll(Chunk(volume, now));
    DriveAppend(false, marker, p, [loud] + q);
    assert p + [loud] + q == p + ([loud] + q);
    assert ([loud] + q)[1..] == q;
  }

  /** The input with every queue timeout removed. */
  function WithoutTimeouts(events: seq<Event>): (r: seq<Event>)
    ensures |r| <= |events|
    ensures forall i :: 0 <= i < |r| ==> r[i] != Poll(QueueEmpty)
  {
    if events == [] then []
    else if events[0] == Poll(QueueEmpty) then WithoutTimeouts(events[1..])
    else [events[0]] + WithoutTimeouts(events[1..])
  }

  /** A queue timeout is not silence: the loop ends the same way, with the
      same marker, whether or not the queue ran empty in between (main.py:139-141). */
  lemma {:induction false} TimeoutsChangeNothing(stopSet: bool, marker: Option<real>, events: seq<Event>)
    ensures Drive(stopSet, marker, events) == Drive(stopSet, marker, WithoutTimeouts(events))
    decreases |events|
  {
    if stopSet || events == [] {
    } else if events[0] == Poll(QueueEmpty) {
      TimeoutsChangeNothing(false, marker, events[1..]);
    } else {
      var rest := WithoutTimeouts(events[1..]);
      assert WithoutTimeouts(events) == [events[0]] + rest;
      assert ([events[0]] + rest)[0] == events[0] && ([events[0]] + rest)[1..] == rest;
      match events[0]
      case StopRequested =>
        TimeoutsChangeNothing(true, marker, events[1..]);
      case Poll(a) =>
        match Step(marker, a)
        case SilenceStop =>
        case Continue(m) => TimeoutsChangeNothing(false, m, events[1..]);
    }
  }

  /** Every event is a block at or below the threshold. */
  predicate AllQuiet(events: seq<Event>)
  {
    forall i :: 0 <= i < |events| ==>
      events[i].Poll? && events[i].arrival.Chunk? && events[i].arrival.volume <= SilenceThreshold
  }

  /** A quiet stretch whose marker is armed at `start` stops exactly when
      some block of it arrives strictly more than SILENCE_DURATION after
      `start`; otherwise the loop is still recording with the marker
      unchanged (main.py:135-138). */
  lemma {:induction false} QuietStretch(start: real, events: seq<Event>)
    requires AllQuiet(events)
    ensures Drive(false, Some(start), events) ==
              if exists i :: 0 <= i < |events| && events[i].arrival.now - start > SilenceDuration
              then SilenceExit else StillRecording(Some(start))
  {
    if events != [] {
      assert AllQuiet(events[1..]) by {
        forall i | 0 <= i < |events[1..]|
          ensures events[1..][i].Poll? && events[1..][i].arrival.Chunk?
          ensures events[1..][i].arrival.volume <= SilenceThreshold
        {
          assert events[1..][i] == events[i + 1];
        }
      }
      QuietStretch(start, events[1..]);
      if events[0].arrival.now - start <= SilenceDuration {
        if exists i :: 0 <= i < |events| && events[i].arrival.now - start > SilenceDuration {
          var i :| 0 <= i < |events| && events[i].arrival.now - start > SilenceDuration;
          assert events[1..][i - 1] == events[i];
        }
        if exists i :: 0 <= i < |events[1..]| && events[1..][i].arrival.now - start > SilenceDuration {
          var i :| 0 <= i < |events[1..]| && events[1..][i].arrival.now - start > SilenceDuration;
          assert events[1..][i] == events[i + 1];
        }
      }
    }
  }

  /** Blocks delivered on the device's cadence: block `k` has volume
      `volumes[k]` and is measured at `t0 + k * BLOCK_DURATION`. */
  function Cadence(t0: real, volumes: seq<real>): (r: seq<Event>)
    ensures |r| == |volumes|
    ensures forall k :: 0 <= k < |r| ==> r[k] == Poll(Chunk(volumes[k], t0 + k as real * BlockDuration))
  {
    seq(|volumes|, k requires 0 <= k < |volumes| => Poll(Chunk(volumes[k], t0 + k as real * BlockDuration)))
  }

  /** `n` blocks of zero volume. */
  function Silent(n: nat): (r: seq<real>)
    ensures |r| == n && forall k :: 0 <= k < n ==> r[k] == 0.0
  {
    seq(n, _ => 0.0)
  }

  /** Splitting a cadence: the second part starts where the first ends. */
  lemma CadenceSplit(t0: real, a: seq<real>, b: seq<real>)
    ensures Cadence(t0, a + b) == Cadence(t0, a) + Cadence(t0 + |a| as real * BlockDuration, b)
  {
    var lhs, rhs := Cadence(t0, a + b), Cadence(t0, a) + Cadence(t0 + |a| as real * BlockDuration, b);
    forall k | 0 <= k < |lhs| ensures lhs[k] == rhs[k] {
      if k >= |a| {
        assert (a + b)[k] == b[k - |a|];
      }
    }
  }

  /** Quiet blocks on the cadence, once armed at `t0`, carry on while
      `k * BLOCK_DURATION <= SILENCE_DURATION`. */
  lemma QuietCadence(t0: real, n: nat)
    requires n >= 1
    ensures Drive(false, None, Cadence(t0, Silent(n))) ==
              if n <= 11 then StillRecording(Some(t0)) else SilenceExit
  {
    var blocks := Cadence(t0, Silent(n));
    var rest := blocks[1..];
    assert AllQuiet(rest) by {
      forall i | 0 <= i < |rest|
        ensures rest[i].Poll? && rest[i].arrival.Chunk? && rest[i].arrival.volume <= SilenceThreshold
      {
        assert rest[i] == blocks[i + 1];
      }
    }
    QuietStretch(t0, rest);
    if n <= 11 {
      forall i | 0 <= i < |rest| ensures rest[i].arrival.now - t0 <= SilenceDuration {
        assert rest[i] == blocks[i + 1];
      }
    } else {
      assert rest[10] == blocks[11];
      assert rest[10].arrival.now - t0 > SilenceDuration;
    }
  }

  /** Fifteen quiet blocks 0.2 s apart: the first arms the timer, the twelfth
      (2.2 s later) is the first whose elapsed time is strictly above two
      seconds, so the loop is still recording after eleven blocks and has
      stopped after twelve, whatever blocks follow. */
  lemma SteadySilenceStopsAtTwelfthBlock(t0: real)
    ensures Drive(false, None, Cadence(t0, Silent(11))) == StillRecording(Some(t0))
    ensures Drive(false, None, Cadence(t0, Silent(12))) == SilenceExit
    ensures Drive(false, None, Cadence(t0, Silent(15))) == SilenceExit
  {
    QuietCadence(t0, 11);
    QuietCadence(t0, 12);
    QuietCadence(t0, 15);
  }

  /** Five quiet blocks, one loud block, then twelve quiet blocks, 0.2 s
      apart: the loud block restarts the timer, the next block re-arms it,
      and the loop stops on the last block and not before. */
  lemma LoudBlockRestartsTimer(t0: real)
    ensures Drive(false, None, Cadence(t0, Silent(5) + [5000.0] + Silent(11))) ==
              StillRecording(Some(t0 + 1.2))
    ensures Drive(false, None, Cadence(t0, Silent(5) + [5000.0] + Silent(12))) == SilenceExit
  {
    var t1 := t0 + 6.0 * BlockDuration;
    QuietCadence(t0, 5);
    QuietCadence(t1, 11);
    QuietCadence(t1, 12);
    var loud := Poll(Chunk(5000.0, t0 + 5.0 * BlockDuration));
    forall n: nat | n == 11 || n == 12
      ensures Drive(false, None, Cadence(t0, Silent(5) + [5000.0] + Silent(n))) ==
              Drive(false, None, Cadence(t1, Silent(n)))
    {
      CadenceSplit(t0, Silent(5) + [5000.0], Silent(n));
      CadenceSplit(t0, Silent(5), [5000.0]);
      assert Cadence(t0 + 5.0 * BlockDuration, [5000.0]) == [loud];
      LoudBlockResets(None, Cadence(t0, Silent(5)), 5000.0, t0 + 5.0 * BlockDuration, Cadence(t1, Silent(n)));
    }
  }
}

/**
  The real-time stress estimator of `hooks/useRealtimeStress.ts`.

  Pure part: a frame's byte spectrum is averaged, mapped to a 0-100 reading (divisor 45, an
  activity floor of 35 above an average of 8, then a clamp), smoothed into the displayed level, and
  the readings of a 4000 ms window are averaged into the final level.

  Imperative part: `StressMonitor` holds the hook's state and its refs (timer, animation frame,
  microphone stream, audio context). Browser handles are numeric ids; every release performed by
  `cleanup` is appended to `released`, so the model can say what was released, in which order, and
  that nothing is released twice.
*/
module RealtimeStress {
  import opened Wrappers

  /** ANALYSIS_DURATION: the length of one analysis window, in milliseconds. */
  const AnalysisDuration: nat := 4000
  /** `analyser.fftSize`. */
  const FftSize: nat := 256
  /** `analyser.frequencyBinCount`, half the FFT size: the length of the byte spectrum. */
  const BinCount: nat := FftSize / 2
  const Divisor: real := 45.0
  const ActivityThreshold: real := 8.0
  const ActivityFloor: real := 35.0
  const MaxStress: real := 100.0
  /** Weight of the previous displayed level in the exponential smoothing. */
  const Retain: real := 0.85
  /** Weight of the new reading in the exponential smoothing. */
  const Blend: real := 0.15

  /** One element of the `Uint8Array` filled by `getByteFrequencyData`. */
  type Byte = x: int | 0 <= x < 256

  /** Timer and animation-frame ids: browsers hand out positive integers, so the source's truthiness tests on them are presence tests. */
  type HandleId = n: nat | n > 0 witness 1

  function SumBytes(bins: seq<Byte>): (r: nat)
    ensures r <= 255 * |bins|
  {
    if bins == [] then 0 else bins[0] + SumBytes(bins[1..])
  }

  /** `averageVolume`: the mean magnitude over the frequency bins (line 67). */
  function AverageVolume(bins: seq<Byte>): (r: real)
    requires |bins| == BinCount
    ensures 0.0 <= r <= 255.0
    ensures r * (BinCount as real) == SumBytes(bins) as real
  {
    SumBytes(bins) as real / BinCount as real
  }

  function Max(a: real, b: real): real { if a >= b then a else b }
  function Min(a: real, b: real): real { if a <= b then a else b }

  /** `calculatedStress` for one frame (lines 72-81). */
  function StressReading(avg: real): (r: real)
    ensures 0.0 <= r <= MaxStress
    ensures avg > ActivityThreshold ==> r >= ActivityFloor
    ensures 0.0 <= avg <= ActivityThreshold ==> r == avg * 100.0 / Divisor
    ensures avg >= Divisor ==> r == MaxStress
    ensures avg <= 0.0 ==> r == 0.0
    // between the threshold and the divisor the proportion is raised to the floor and no further
    ensures ActivityThreshold < avg < Divisor ==> r == Max(ActivityFloor, avg * 100.0 / Divisor)
    // the activity floor never lowers a reading below the plain clamped proportion
    ensures r >= Max(0.0, Min(MaxStress, avg / Divisor * 100.0))
  {
    var calculated := (avg / Divisor) * 100.0;
    var floored := if avg > ActivityThreshold then Max(calculated, ActivityFloor) else calculated;
    Max(0.0, Min(MaxStress, floored))
  }

  /** A louder frame never gives a lower reading. */
  lemma StressReadingMonotone(a: real, b: real)
    requires a <= b
    ensures StressReading(a) <= StressReading(b)
  {
  }

  /** The worked values: silence reads 0, an average of 4 reads 80/9 (no floor), 9 is floored to 35, 22.5 reads 50. */
  lemma StressReadingExamples()
    ensures StressReading(0.0) == 0.0
    ensures StressReading(4.0) == 80.0 / 9.0
    ensures StressReading(9.0) == 35.0
    ensures StressReading(22.5) == 50.0
  {
  }

  /** The smoothed level: 85% of the previous level plus 15% of the new reading (line 86). */
  function Smooth(prev: real, reading: real): (r: real)
    ensures Min(prev, reading) <= r <= Max(prev, reading)
    // each frame closes 15% of the gap between the displayed level and the new reading
    ensures r - reading == Retain * (prev - reading)
  {
    prev * Retain + reading * Blend
  }

  ghost predicate InRange(x: real) { 0.0 <= x <= MaxStress }

  ghost predicate AllInRange(s: seq<real>) {
    forall i :: 0 <= i < |s| ==> InRange(s[i])
  }

  /** The displayed level after smoothing in each reading of `readings`, in order, from `start`. */
  function SmoothAll(start: real, readings: seq<real>): real
    decreases readings
  {
    if readings == [] then start else SmoothAll(Smooth(start, readings[0]), readings[1..])
  }

  /** Starting in range and feeding in-range readings keeps the displayed level in [0, 100]. */
  lemma {:induction false} SmoothAllInRange(start: real, readings: seq<real>)
    requires InRange(start) && AllInRange(readings)
    ensures InRange(SmoothAll(start, readings))
    decreases readings
  {
    if readings != [] {
      SmoothAllInRange(Smooth(start, readings[0]), readings[1..]);
    }
  }

  function Sum(s: seq<real>): real {
    if s == [] then 0.0 else s[0] + Sum(s[1..])
  }

  lemma {:induction false} SumInRange(s: seq<real>)
    ensures AllInRange(s) ==> 0.0 <= Sum(s) <= MaxStress * |s| as real
  {
    if s != [] {
      SumInRange(s[1..]);
    }
  }

  /** The final level of a window (lines 96-102): the mean of its readings, 0 when there are none. */
  function Mean(readings: seq<real>): (r: real)
    ensures readings == [] ==> r == 0.0
    ensures readings != [] ==> r * (|readings| as real) == Sum(readings)
    ensures AllInRange(readings) ==> InRange(r)
  {
    if readings == [] then 0.0
    else
      SumInRange(readings);
      Sum(readings) / |readings| as real
  }

  datatype Status = Idle | Analyzing | PermissionDenied | Complete

  /** One release performed by `cleanup`. */
  datatype Release =
    | ClearTimeout(timer: HandleId)
    | CancelFrame(frame: HandleId)
    | StopTracks(stream: nat)
    | CloseContext(context: nat)

  /**
    What one `startMonitoring` obtains from the browser: the microphone refused (nothing held), a
    failure after the stream (and possibly the context) was stored in its ref, or a full session.
  */
  datatype Acquisition =
    | MicDenied
    | FailedAfter(heldStream: nat, heldContext: Option<nat>)
    | Acquired(stream: nat, context: nat, frame: HandleId, timer: HandleId)

  /** The releases `cleanup` performs on the given refs, in the order of lines 20-35. */
  function CleanupReleases(timer: Option<HandleId>, frame: Option<HandleId>, stream: Option<nat>, context: Option<nat>): (r: seq<Release>)
    ensures |r| <= 4
    ensures r == [] <==> timer.None? && frame.None? && stream.None? && context.None?
    // one release per handle held, and no release of a handle that is not held
    ensures |r| == (if timer.Some? then 1 else 0) + (if frame.Some? then 1 else 0)
                 + (if stream.Some? then 1 else 0) + (if context.Some? then 1 else 0)
    ensures forall x :: x in r ==>
      || (x.ClearTimeout? && timer == Some(x.timer))
      || (x.CancelFrame? && frame == Some(x.frame))
      || (x.StopTracks? && stream == Some(x.stream))
      || (x.CloseContext? && context == Some(x.context))
    ensures timer.Some? ==> ClearTimeout(timer.value) in r
    ensures frame.Some? ==> CancelFrame(frame.value) in r
    ensures stream.Some? ==> StopTracks(stream.value) in r
    ensures context.Some? ==> CloseContext(context.value) in r
  {
    (if timer.Some? then [ClearTimeout(timer.value)] else [])
    + (if frame.Some? then [CancelFrame(frame.value)] else [])
    + (if stream.Some? then [StopTracks(stream.value)] else [])
    + (if context.Some? then [CloseContext(context.value)] else [])
  }

  class StressMonitor {
    var status: Status
    /** The displayed level. */
    var stressLevel: real
    /** analysisTimeoutRef */
    var timer: Option<HandleId>
    /** animationFrameIdRef */
    var frame: Option<HandleId>
    /** audioStreamRef */
    var stream: Option<nat>
    /** audioContextRef */
    var context: Option<nat>
    /** `stressReadings` of the session in progress. */
    var readings: seq<real>
    /** Every release performed so far, oldest first. */
    var released: seq<Release>

    /** No ref holds a handle. */
    predicate Released()
      reads this
    {
      timer.None? && frame.None? && stream.None? && context.None?
    }

    /** Every ref holds a handle: an analysis window is running. */
    predicate Live()
      reads this
    {
      timer.Some? && frame.Some? && stream.Some? && context.Some?
    }

    /** The levels kept are in range; the refs may be in any state (as mid-way through a failed start). */
    ghost predicate Sound()
      reads this
    {
      InRange(stressLevel) && AllInRange(readings)
    }

    ghost predicate Valid()
      reads this
    {
      && Sound()
      && (Live() || Released())
      && (Live() ==> status == Analyzing)
    }

    constructor ()
      ensures Valid() && Released()
      ensures status == Idle && stressLevel == 0.0 && readings == [] && released == []
    {
      status := Idle;
      stressLevel := 0.0;
      timer, frame, stream, context := None, None, None, None;
      readings := [];
      released := [];
    }

    /** `cleanup` (lines 19-36): releases every handle held and nulls its ref; nothing else changes. */
    method Cleanup()
      requires Sound()
      modifies this
      ensures Valid() && Released()
      ensures released == old(released) + CleanupReleases(old(timer), old(frame), old(stream), old(context))
      ensures status == old(status) && stressLevel == old(stressLevel) && readings == old(readings)
    {
      // each held handle is released in turn and its ref nulled
      released := released + CleanupReleases(timer, frame, stream, context);
      timer, frame, stream, context := None, None, None, None;
    }

    /**
      `startMonitoring` (lines 38-112): always tears the previous session down and zeroes the level
      before it asks for the microphone; a failure ends in `permission_denied` with every handle
      released again, a success starts a window with an empty list of readings.
    */
    method StartMonitoring(acq: Acquisition)
      requires Valid()
      modifies this
      ensures Valid()
      ensures acq.MicDenied? ==>
        released == old(released) + CleanupReleases(old(timer), old(frame), old(stream), old(context))
      ensures acq.FailedAfter? ==>
        released == old(released) + CleanupReleases(old(timer), old(frame), old(stream), old(context))
                    + CleanupReleases(None, None, Some(acq.heldStream), acq.heldContext)
      ensures !acq.Acquired? ==> status == PermissionDenied && stressLevel == 0.0 && Released()
      ensures acq.Acquired? ==>
        && released == old(released) + CleanupReleases(old(timer), old(frame), old(stream), old(context))
        && status == Analyzing && stressLevel == 0.0 && readings == []
        && stream == Some(acq.stream) && context == Some(acq.context)
        && frame == Some(acq.frame) && timer == Some(acq.timer)
    {
      Cleanup();
      stressLevel := 0.0;
      match acq {
        case MicDenied =>
          status := PermissionDenied;
          Cleanup();
        case FailedAfter(s, c) =>
          stream := Some(s);
          context := c;
          status := PermissionDenied;
          Cleanup();
        case Acquired(s, c, f, t) =>
          stream := Some(s);
          context := Some(c);
          status := Analyzing;
          readings := [];
          frame := Some(f);
          timer := Some(t);
      }
    }

    /**
      One run of `analysisLoop` (lines 62-89). A cancelled frame never runs, so nothing happens
      when no frame is scheduled; otherwise the frame's reading is recorded, smoothed into the
      displayed level, and the next frame is scheduled.
    */
    method OnFrame(bins: seq<Byte>, next: HandleId)
      requires Valid()
      requires |bins| == BinCount
      modifies this
      ensures Valid()
      ensures old(frame).None? ==> unchanged(this)
      ensures old(frame).Some? ==>
        var reading := StressReading(AverageVolume(bins));
        && readings == old(readings) + [reading]
        && stressLevel == Smooth(old(stressLevel), reading)
        && frame == Some(next)
        && status == old(status) && released == old(released)
        && timer == old(timer) && stream == old(stream) && context == old(context)
    {
      if frame.Some? {
        var reading := StressReading(AverageVolume(bins));
        readings := readings + [reading];
        stressLevel := Smooth(stressLevel, reading);
        frame := Some(next);
      }
    }

    /**
      The analysis timer firing (lines 93-105): everything is released, the level becomes the mean
      of the window's readings (0 when there were none) and the status `complete`.
    */
    method OnTimeout()
      requires Valid()
      modifies this
      ensures Valid()
      ensures old(timer).None? ==> unchanged(this)
      ensures old(timer).Some? ==>
        && Released() && status == Complete
        && stressLevel == Mean(old(readings))
        && released == old(released) + CleanupReleases(old(timer), old(frame), old(stream), old(context))
    {
      if timer.Some? {
        Cleanup();
        stressLevel := Mean(readings);
        status := Complete;
      }
    }

    /** `resetMonitoring`, exported as `stopMonitoring` (lines 114-118). */
    method StopMonitoring()
      requires Valid()
      modifies this
      ensures Valid() && Released()
      ensures status == Idle && stressLevel == 0.0
      ensures released == old(released) + CleanupReleases(old(timer), old(frame), old(stream), old(context))
    {
      Cleanup();
      status := Idle;
      stressLevel := 0.0;
    }

    /** The effect's teardown when the owning view goes away (lines 120-122). */
    method Dispose()
      requires Valid()
      modifies this
      ensures Valid() && Released()
      ensures released == old(released) + CleanupReleases(old(timer), old(frame), old(stream), old(context))
    {
      Cleanup();
    }
  }

  /** A second `cleanup` straight after a first releases nothing. */
  method CleanupTwice(m: StressMonitor)
    requires m.Valid()
    modifies m
    ensures m.Valid() && m.Released()
    ensures m.released == old(m.released) + CleanupReleases(old(m.timer), old(m.frame), old(m.stream), old(m.context))
  {
    m.Cleanup();
    ghost var afterFirst := m.released;
    m.Cleanup();
    assert m.released == afterFirst;
  }

  /**
    A whole session as the hook's callers drive it: start, some frames, then the timer. The final
    level is the mean of exactly the frames' readings, every handle of the session is released once,
    and the status is `complete`.
  */
  method RunSession(m: StressMonitor, s: nat, c: nat, f: HandleId, t: HandleId, frames: seq<seq<Byte>>, nexts: seq<HandleId>)
    requires m.Valid() && m.Released()
    requires |frames| == |nexts|
    requires forall i :: 0 <= i < |frames| ==> |frames[i]| == BinCount
    modifies m
    ensures m.Valid() && m.Released() && m.status == Complete
    ensures m.stressLevel == Mean(Readings(frames))
    ensures |m.released| == |old(m.released)| + 4
    ensures m.released[..|old(m.released)|] == old(m.released)
    // the timer, the last frame scheduled, the stream and the context, in the order `cleanup` releases them
    ensures m.released[|old(m.released)|..] ==
      [ClearTimeout(t), CancelFrame(if nexts == [] then f else nexts[|nexts| - 1]), StopTracks(s), CloseContext(c)]
  {
    m.StartMonitoring(Acquired(s, c, f, t));
    FeedFrames(m, s, c, f, t, frames, nexts);
    ghost var before := m.released;
    ghost var last := if nexts == [] then f else nexts[|nexts| - 1];
    assert m.frame == Some(last);
    assert CleanupReleases(Some(t), Some(last), Some(s), Some(c))
      == [ClearTimeout(t), CancelFrame(last), StopTracks(s), CloseContext(c)];
    m.OnTimeout();
    assert m.released == before + [ClearTimeout(t), CancelFrame(last), StopTracks(s), CloseContext(c)];
  }

  /** The frames of a live session, one animation frame after another. */
  method FeedFrames(m: StressMonitor, s: nat, c: nat, f: HandleId, t: HandleId, frames: seq<seq<Byte>>, nexts: seq<HandleId>)
    requires m.Valid() && m.Live() && m.readings == []
    requires m.timer == Some(t) && m.stream == Some(s) && m.context == Some(c) && m.frame == Some(f)
    requires |frames| == |nexts|
    requires forall i :: 0 <= i < |frames| ==> |frames[i]| == BinCount
    modifies m
    ensures m.Valid() && m.Live() && m.readings == Readings(frames)
    ensures m.released == old(m.released) && m.timer == Some(t) && m.stream == Some(s) && m.context == Some(c)
    ensures m.frame == Some(if nexts == [] then f else nexts[|nexts| - 1])
  {
    var i := 0;
    while i < |frames|
      invariant 0 <= i <= |frames|
      invariant m.Valid() && m.Live()
      invariant m.readings == Readings(frames[..i])
      invariant m.released == old(m.released) && m.timer == Some(t) && m.stream == Some(s) && m.context == Some(c)
      invariant m.frame == Some(if i == 0 then f else nexts[i - 1])
    {
      m.OnFrame(frames[i], nexts[i]);
      assert frames[..i + 1] == frames[..i] + [frames[i]];
      ReadingsAppend(frames[..i], frames[i]);
      i := i + 1;
    }
    assert frames[..i] == frames;
  }

  /** The readings a sequence of frame spectra produces. */
  function Readings(frames: seq<seq<Byte>>): (r: seq<real>)
    requires forall i :: 0 <= i < |frames| ==> |frames[i]| == BinCount
    ensures |r| == |frames|
    ensures AllInRange(r)
  {
    if frames == [] then [] else [StressReading(AverageVolume(frames[0]))] + Readings(frames[1..])
  }

  lemma {:induction false} ReadingsAppend(frames: seq<seq<Byte>>, last: seq<Byte>)
    requires forall i :: 0 <= i < |frames| ==> |frames[i]| == BinCount
    requires |last| == BinCount
    ensures Readings(frames + [last]) == Readings(frames) + [StressReading(AverageVolume(last))]
  {
    if frames != [] {
      assert (frames + [last])[1..] == frames[1..] + [last];
      ReadingsAppend(frames[1..], last);
    }
  }
}

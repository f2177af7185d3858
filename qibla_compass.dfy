/**
 * components/QiblaCompass.tsx: the heading tracker fed by device-orientation samples and
 * an idle tick, the one-way calibration latch, and the alignment and marker arithmetic.
 * The spherical trigonometry that yields the raw bearing is not modelled: the raw angle
 * in degrees is an input, and only its normalisation is.
 */
module QiblaCompass {
  import opened Js

  /** The message shown when the platform has no orientation events. */
  const UNSUPPORTED_MESSAGE := "مستشعر البوصلة غير مدعوم في هذا الجهاز"

  /** How far one idle tick turns the simulated heading, in degrees. */
  const TICK_STEP: real := 0.2

  function Abs(x: real): real
  {
    if x < 0.0 then -x else x
  }

  /** `(q + 360) % 360` on the raw bearing `q`, in degrees. */
  function CalculateQibla(raw: real): (bearing: real)
    ensures -360.0 < raw ==> 0.0 <= bearing < 360.0
    ensures -360.0 < raw < 360.0 ==> bearing == raw || bearing == raw + 360.0
  {
    Rem360(raw + 360.0)
  }

  /** How far apart two directions are around the circle. */
  function CircularDistance(a: real, b: real): real
  {
    var d := Abs(a - b);
    if d <= 180.0 then d else 360.0 - d
  }

  /**
   * The alignment indicator: the heading is within 5 degrees of the bearing, either
   * directly or across north; both bounds are strict.
   */
  predicate IsAligned(heading: real, bearing: real): (aligned: bool)
    ensures aligned <==> Abs(bearing - heading) < 5.0 || Abs(bearing - heading) > 355.0
    ensures 0.0 <= heading < 360.0 && 0.0 <= bearing < 360.0 ==>
      (aligned <==> CircularDistance(heading, bearing) < 5.0)
  {
    Abs(heading - bearing) < 5.0 || Abs(heading - bearing) > 355.0
  }

  /**
   * `(bearing - heading + 360) % 360`: for directions in [0, 360) the marker angle is in
   * [0, 360), turns the heading onto the bearing, and is 0 exactly when they agree.
   */
  function MarkerAngle(bearing: real, heading: real): (angle: real)
    ensures 0.0 <= heading < 360.0 && 0.0 <= bearing < 360.0 ==>
      && 0.0 <= angle < 360.0
      && (heading + angle == bearing || heading + angle == bearing + 360.0)
      && (angle == 0.0 <==> heading == bearing)
  {
    Rem360(bearing - heading + 360.0)
  }

  /** The indicator does not care which of the two angles is the heading. */
  lemma AlignedSymmetric(heading: real, bearing: real)
    ensures IsAligned(heading, bearing) <==> IsAligned(bearing, heading)
  {
  }

  /** Aligned exactly when the marker sits within 5 degrees of the top, on either side. */
  lemma AlignedIffMarkerNearTop(bearing: real, heading: real)
    requires 0.0 <= heading < 360.0 && 0.0 <= bearing < 360.0
    ensures IsAligned(heading, bearing) <==>
      MarkerAngle(bearing, heading) < 5.0 || MarkerAngle(bearing, heading) > 355.0
  {
    var angle := MarkerAngle(bearing, heading);
    if heading <= bearing {
      assert angle == bearing - heading;
    } else {
      assert angle == bearing - heading + 360.0;
    }
  }

  /**
   * One `deviceorientation` event: `webkitCompassHeading` and `alpha`, None where the
   * field is absent or null.
   */
  datatype OrientationSample = OrientationSample(compassHeading: Option<real>, alpha: Option<real>)
  {
    /** Whether the platform's documented ranges hold: both fields in [0, 360). */
    predicate WellFormed()
    {
      && (compassHeading.Some? ==> 0.0 <= compassHeading.value < 360.0)
      && (alpha.Some? ==> 0.0 <= alpha.value < 360.0)
    }
  }

  /** Whether a sample carries a reading that calibrates the compass. */
  predicate Calibrates(s: OrientationSample)
  {
    TruthyReal(s.compassHeading) || TruthyReal(s.alpha)
  }

  /** The tracked state: the heading and the calibration latch. */
  datatype Tracker = Tracker(heading: real, isCalibrated: bool)

  datatype TrackerEvent = Sample(sample: OrientationSample) | Tick

  /**
   * `handleOrientation`: a truthy compass heading wins, then a truthy alpha read as
   * `360 - alpha`; either one sets the latch. With neither the heading becomes 0.
   */
  function AfterSample(st: Tracker, s: OrientationSample): (r: Tracker)
    ensures r.isCalibrated == (st.isCalibrated || Calibrates(s))
    ensures TruthyReal(s.compassHeading) ==> r.heading == s.compassHeading.value
    ensures !TruthyReal(s.compassHeading) && TruthyReal(s.alpha) ==> r.heading == 360.0 - s.alpha.value
    ensures !Calibrates(s) ==> r.heading == 0.0
    ensures s.WellFormed() ==> 0.0 <= r.heading < 360.0
  {
    if TruthyReal(s.compassHeading) then Tracker(s.compassHeading.value, true)
    else if TruthyReal(s.alpha) then Tracker(360.0 - s.alpha.value, true)
    else Tracker(0.0, st.isCalibrated)
  }

  /** The idle tick: while uncalibrated the heading creeps round by TICK_STEP. */
  function AfterTick(st: Tracker): (r: Tracker)
    ensures r.isCalibrated == st.isCalibrated
    ensures st.isCalibrated ==> r == st
    ensures !st.isCalibrated && 0.0 <= st.heading < 360.0 - TICK_STEP ==> r.heading == st.heading + TICK_STEP
    ensures 0.0 <= st.heading < 360.0 ==> 0.0 <= r.heading < 360.0
  {
    if st.isCalibrated then st else st.(heading := Rem360(st.heading + TICK_STEP))
  }

  function Step(st: Tracker, e: TrackerEvent): Tracker
  {
    match e
    case Sample(s) => AfterSample(st, s)
    case Tick => AfterTick(st)
  }

  /** The state after a sequence of events, oldest first. */
  function Run(st: Tracker, events: seq<TrackerEvent>): Tracker
    decreases |events|
  {
    if events == [] then st else Run(Step(st, events[0]), events[1..])
  }

  /** The latch only closes: once calibrated, every later state is calibrated. */
  lemma {:induction false} LatchNeverOpens(st: Tracker, events: seq<TrackerEvent>)
    requires st.isCalibrated
    ensures Run(st, events).isCalibrated
    decreases |events|
  {
    if events != [] {
      LatchNeverOpens(Step(st, events[0]), events[1..]);
    }
  }

  /** A run ends calibrated exactly when it started so or some sample in it had a truthy reading. */
  lemma {:induction false} CalibratedIffSomeReading(st: Tracker, events: seq<TrackerEvent>)
    ensures Run(st, events).isCalibrated <==>
      st.isCalibrated || exists k | 0 <= k < |events| :: events[k].Sample? && Calibrates(events[k].sample)
    decreases |events|
  {
    if events != [] {
      var next := Step(st, events[0]);
      CalibratedIffSomeReading(next, events[1..]);
      if exists k | 0 <= k < |events[1..]| :: events[1..][k].Sample? && Calibrates(events[1..][k].sample) {
        var k :| 0 <= k < |events[1..]| && events[1..][k].Sample? && Calibrates(events[1..][k].sample);
        assert events[k + 1] == events[1..][k];
      }
      if exists k | 0 <= k < |events| :: events[k].Sample? && Calibrates(events[k].sample) {
        var k :| 0 <= k < |events| && events[k].Sample? && Calibrates(events[k].sample);
        if k > 0 {
          assert events[1..][k - 1] == events[k];
        }
      }
    }
  }

  /** Starting in range, with well-formed samples, the heading never leaves [0, 360). */
  lemma {:induction false} HeadingStaysInRange(st: Tracker, events: seq<TrackerEvent>)
    requires 0.0 <= st.heading < 360.0
    requires forall k | 0 <= k < |events| :: events[k].Sample? ==> events[k].sample.WellFormed()
    ensures 0.0 <= Run(st, events).heading < 360.0
    decreases |events|
  {
    if events != [] {
      var next := Step(st, events[0]);
      assert events[0].Sample? ==> events[0].sample.WellFormed();
      HeadingStaysInRange(next, events[1..]);
    }
  }

  /** The component state. */
  class Compass {
    var heading: real
    var qiblaBearing: real
    var error: Option<string>
    var isCalibrated: bool
    /** Whether the orientation listener is registered. */
    var listening: bool

    constructor ()
      ensures heading == 0.0 && qiblaBearing == 0.0 && error.None? && !isCalibrated && !listening
    {
      heading, qiblaBearing, error, isCalibrated, listening := 0.0, 0.0, None, false, false;
    }

    function State(): Tracker
      reads this
    {
      Tracker(heading, isCalibrated)
    }

    /**
     * The effect: the bearing for the location (from its raw angle), then the listener,
     * or the error message when the platform has no orientation events.
     */
    method Mount(rawBearing: real, supported: bool)
      modifies this
      ensures qiblaBearing == CalculateQibla(rawBearing)
      ensures listening == (old(listening) || supported)
      ensures error == (if supported then old(error) else Some(UNSUPPORTED_MESSAGE))
      ensures State() == old(State())
    {
      qiblaBearing := CalculateQibla(rawBearing);
      if supported {
        listening := true;
      } else {
        error := Some(UNSUPPORTED_MESSAGE);
      }
    }

    method HandleOrientation(s: OrientationSample)
      modifies this
      ensures State() == AfterSample(old(State()), s)
      ensures qiblaBearing == old(qiblaBearing) && error == old(error) && listening == old(listening)
    {
      var compass := 0.0;
      if TruthyReal(s.compassHeading) {
        compass := s.compassHeading.value;
        isCalibrated := true;
      } else if TruthyReal(s.alpha) {
        compass := 360.0 - s.alpha.value;
        isCalibrated := true;
      }
      heading := compass;
    }

    method Tick()
      modifies this
      ensures State() == AfterTick(old(State()))
      ensures qiblaBearing == old(qiblaBearing) && error == old(error) && listening == old(listening)
    {
      if !isCalibrated {
        heading := Rem360(heading + TICK_STEP);
      }
    }
  }
}

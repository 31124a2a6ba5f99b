/**
 * The oil-level monitor (OilLevelSensor.cpp). The debounced level of the
 * float switch is supplied by the caller. A low level is an immediate
 * warning and becomes an error once it has lasted at least 10 s; an OK level
 * clears everything at once.
 */
module OilLevel {

  const MAX_OIL_LEVEL_IS_TOO_LOW_WINDOW: nat := 10000
  const OIL_LEVEL_LOG_WINDOW: nat := 60000

  /**
   * The monitor's flags: `oilLevelIsTooLow` (warning), `oilLevelIsTooLowStart`
   * (0 means unset), `ErrorOilLevelIsTooLow` and `previousErrorOilLevelIsTooLow`.
   */
  datatype Oil = Oil(tooLow: bool, tooLowStart: nat, error: bool, previousError: bool)

  /** The monitor's new flags, and whether `nextTimeDisplay` was set on the way. */
  datatype OilStep = OilStep(oil: Oil, refresh: bool)

  const InitialOil := Oil(false, 0, false, false)

  /** What every call of `loop` keeps. */
  predicate OilInv(o: Oil) {
    && (o.error ==> o.tooLow && o.tooLowStart != 0)
    && o.previousError == o.error
  }

  /**
   * `loop` given the debounced level at `now`. The window test is
   * `now - start >= 10000`, non-strict, unlike the temperature monitor's.
   * `previousErrorOilLevelIsTooLow` always ends up equal to the error flag;
   * the log-rate timer only decides whether a line is logged.
   */
  function OilLoop(o: Oil, now: nat, tooLow: bool): (r: OilStep)
    // a low level is a warning at once; an OK level resets everything at once
    ensures tooLow ==> r.oil.tooLow
    ensures !tooLow ==> r.oil == InitialOil && (r.refresh <==> o.error)
    // the first low sample starts the timer
    ensures tooLow && o.tooLowStart == 0 ==> r.oil == o.(tooLow := true, tooLowStart := now) && !r.refresh
    // a later low sample confirms once the window has passed
    ensures tooLow && o.tooLowStart != 0 ==>
              r.oil.tooLowStart == o.tooLowStart &&
              (r.oil.error <==> o.error || now - o.tooLowStart >= MAX_OIL_LEVEL_IS_TOO_LOW_WINDOW)
    // the error never clears while the level stays low
    ensures tooLow && o.error ==> r.oil.error
    // display hint on the rising edge of the error and when an active error clears
    ensures tooLow && r.refresh ==> r.oil.error && !o.previousError
    ensures OilInv(o) ==> OilInv(r.oil) && (r.refresh <==> r.oil.error != o.error)
  {
    if tooLow then
      var o1 := o.(tooLow := true);
      if o.tooLowStart == 0 then
        OilStep(o1.(tooLowStart := now), false)
      else if now - o.tooLowStart >= MAX_OIL_LEVEL_IS_TOO_LOW_WINDOW then
        OilStep(o1.(error := true, previousError := true), !o.previousError)
      else
        OilStep(o1, false)
    else
      OilStep(InitialOil, o.error)
  }

  /** One call of `loop`: the time it runs at and whether the level is too low. */
  datatype OilSample = OilSample(time: nat, tooLow: bool)

  function OilRun(o: Oil, samples: seq<OilSample>): Oil
    decreases |samples|
  {
    if samples == [] then o
    else OilRun(OilLoop(o, samples[0].time, samples[0].tooLow).oil, samples[1..])
  }

  /** Over any run the error implies the warning, and a confirmed error never clears while the level stays low. */
  lemma {:induction false} OilRunKeepsInv(o: Oil, samples: seq<OilSample>)
    requires OilInv(o)
    ensures OilInv(OilRun(o, samples))
    decreases |samples|
  {
    if samples != [] {
      OilRunKeepsInv(OilLoop(o, samples[0].time, samples[0].tooLow).oil, samples[1..]);
    }
  }

  lemma {:induction false} OilErrorStaysWhileLow(o: Oil, samples: seq<OilSample>)
    requires o.error
    requires forall i :: 0 <= i < |samples| ==> samples[i].tooLow
    ensures OilRun(o, samples).error
    decreases |samples|
  {
    if samples != [] {
      assert forall i :: 0 <= i < |samples[1..]| ==> samples[1..][i] == samples[i + 1];
      OilErrorStaysWhileLow(OilLoop(o, samples[0].time, samples[0].tooLow).oil, samples[1..]);
    }
  }

  /** No error is raised by samples taken less than 10 s after a time t0 not before the timer's start. */
  lemma {:induction false} OilNoErrorWithinWindow(o: Oil, samples: seq<OilSample>, t0: nat)
    requires !o.error && (o.tooLowStart == 0 || o.tooLowStart >= t0)
    requires forall i :: 0 <= i < |samples| ==> t0 <= samples[i].time < t0 + MAX_OIL_LEVEL_IS_TOO_LOW_WINDOW
    ensures !OilRun(o, samples).error
    decreases |samples|
  {
    if samples != [] {
      assert samples[0].time < t0 + MAX_OIL_LEVEL_IS_TOO_LOW_WINDOW;
      assert forall i :: 0 <= i < |samples[1..]| ==> samples[1..][i] == samples[i + 1];
      OilNoErrorWithinWindow(OilLoop(o, samples[0].time, samples[0].tooLow).oil, samples[1..], t0);
    }
  }

  class OilLevelSensor {
    var oilLevelIsTooLow: bool
    var oilLevelIsTooLowStart: nat
    var errorOilLevelIsTooLow: bool
    var previousErrorOilLevelIsTooLow: bool
    // log-rate state: decides only whether a log line is written
    var previousOilLevelIsTooLow: bool
    var oilLevelNextLoggingTime: nat

    function Model(): Oil
      reads this
    {
      Oil(oilLevelIsTooLow, oilLevelIsTooLowStart, errorOilLevelIsTooLow, previousErrorOilLevelIsTooLow)
    }

    ghost predicate Valid()
      reads this
    {
      OilInv(Model())
    }

    constructor ()
      ensures Model() == InitialOil && Valid()
    {
      oilLevelIsTooLow := false;
      oilLevelIsTooLowStart := 0;
      errorOilLevelIsTooLow := false;
      previousErrorOilLevelIsTooLow := false;
      previousOilLevelIsTooLow := false;
      oilLevelNextLoggingTime := 0;
    }

    /** `loop`, given the debounced level; `refresh` reports that `nextTimeDisplay` was set. */
    method Loop(now: nat, tooLow: bool) returns (refresh: bool)
      modifies this
      ensures OilStep(Model(), refresh) == OilLoop(old(Model()), now, tooLow)
    {
      refresh := false;
      if tooLow {
        oilLevelIsTooLow := true;
        if oilLevelIsTooLowStart == 0 {
          oilLevelIsTooLowStart := now;
        } else if now - oilLevelIsTooLowStart >= MAX_OIL_LEVEL_IS_TOO_LOW_WINDOW {
          errorOilLevelIsTooLow := true;
          if errorOilLevelIsTooLow != previousErrorOilLevelIsTooLow || now > oilLevelNextLoggingTime {
            if errorOilLevelIsTooLow != previousErrorOilLevelIsTooLow {
              refresh := true;
            }
            oilLevelNextLoggingTime := now + OIL_LEVEL_LOG_WINDOW;
            previousErrorOilLevelIsTooLow := errorOilLevelIsTooLow;
          }
        }
        if oilLevelIsTooLow != previousOilLevelIsTooLow || now > oilLevelNextLoggingTime {
          oilLevelNextLoggingTime := now + OIL_LEVEL_LOG_WINDOW;
          previousOilLevelIsTooLow := oilLevelIsTooLow;
        }
      } else {
        if errorOilLevelIsTooLow {
          refresh := true;
        }
        oilLevelIsTooLow := false;
        oilLevelIsTooLowStart := 0;
        errorOilLevelIsTooLow := false;
        previousErrorOilLevelIsTooLow := false;
        if oilLevelIsTooLow != previousOilLevelIsTooLow {
          previousOilLevelIsTooLow := oilLevelIsTooLow;
        }
      }
    }
  }
}

/**
 * One DS18B20 temperature probe (TempSensor.h, TempSensor.cpp). The firmware
 * keeps part of each probe's state in the class and part in the global arrays
 * `temperature[]`, `tempIsHigh[]` and `ErrorTempIsTooHigh[]` indexed by the
 * probe number; here all of it is one record per probe. Readings are
 * supplied by the caller (the bus driver is a collaborator) and compared
 * with the thresholds only, so temperatures are reals.
 */
module TempSensor {

  const MAX_TEMP_SENSORS: nat := 2
  const TEMP_RESOLUTION: nat := 12
  const MAX_TEMP_CONVERSIONTIME: nat := 750
  const MAX_NR_OF_TRIES: int := 3
  const MAX_TEMP_IS_TOO_HIGH_WINDOW: nat := 10000

  /** The value the bus driver returns for a probe that does not answer. */
  const DISCONNECTED: real := -127.0

  /** The initial `previousTemperature`, below any reading a probe can give. */
  const INITIAL_PREVIOUS: real := -500.0

  function Pow2(n: nat): nat {
    if n == 0 then 1 else 2 * Pow2(n - 1)
  }

  /** `MAX_TEMP_CONVERSIONTIME / (1 << (12 - TEMP_RESOLUTION))`. */
  const CONVERSION_TIME: nat := MAX_TEMP_CONVERSIONTIME / Pow2(12 - TEMP_RESOLUTION)

  lemma ConversionTimeIs750()
    ensures CONVERSION_TIME == 750
  {
  }

  datatype Probe = Probe(
    nr: nat,               // tempSensorNr
    name: string,          // labelTempSensor[nr], used in log lines only
    available: bool,       // tempSensorAvailable
    current: real,         // currentTemperature, the last raw reading
    highLevel: real,       // theTempIsHighLevel (warning threshold)
    tooHighLevel: real,    // theTempIsTooHighLevel (error threshold)
    previous: real,        // previousTemperature
    conversionTime: nat,
    availableTime: nat,    // tempAvailableTime: next reading is due after this time
    tooHighStart: nat,     // tempIsTooHighStart: 0 means the confirm timer is unset
    tryCount: int,
    temperature: real,     // temperature[nr]
    tempIsHigh: bool,      // tempIsHigh[nr], the warning flag
    errorTooHigh: bool)    // ErrorTempIsTooHigh[nr], the error flag

  /** A probe's new record, and whether `nextTimeDisplay` was set on the way. */
  datatype ProbeStep = ProbeStep(probe: Probe, refresh: bool)

  /** What every evaluation re-establishes, and the retry budget's range. */
  predicate ProbeInv(p: Probe) {
    && (p.errorTooHigh ==> p.tempIsHigh)
    && (p.tooHighStart != 0 ==> p.tempIsHigh)
    && 0 <= p.tryCount <= MAX_NR_OF_TRIES
  }

  /**
   * The constructor with TempSensor.h's initial values; the members in the
   * global arrays start zero-filled, as static storage does.
   */
  function Construct(nr: nat, name: string, highLevel: real, tooHighLevel: real): (p: Probe)
    ensures !p.available && p.tooHighStart == 0 && p.availableTime == 0
    ensures p.previous == INITIAL_PREVIOUS && p.conversionTime == 750
    ensures !p.tempIsHigh && !p.errorTooHigh && ProbeInv(p)
  {
    ConversionTimeIs750();
    Probe(nr, name, false, 0.0, highLevel, tooHighLevel, INITIAL_PREVIOUS,
          CONVERSION_TIME, 0, 0, 0, 0.0, false, false)
  }

  /**
   * `begin`: clears both flags and records whether the probe was found on the
   * bus. A missing probe shows DISCONNECTED; a found one is due a first
   * reading one conversion time from now, with the full retry budget.
   */
  function BeginProbe(p: Probe, found: bool, now: nat): (r: Probe)
    ensures r.available == found && !r.tempIsHigh && !r.errorTooHigh
    ensures !found ==> r == p.(available := false, temperature := DISCONNECTED, tempIsHigh := false, errorTooHigh := false)
    ensures found ==> r == p.(available := true, tempIsHigh := false, errorTooHigh := false,
                               availableTime := now + p.conversionTime, tryCount := MAX_NR_OF_TRIES)
    ensures p.tooHighStart == 0 && 0 <= p.tryCount <= MAX_NR_OF_TRIES ==> ProbeInv(r)
  {
    var q := p.(available := found, tempIsHigh := false, errorTooHigh := false);
    if !found then q.(temperature := DISCONNECTED)
    else q.(availableTime := now + p.conversionTime, tryCount := MAX_NR_OF_TRIES)
  }

  /**
   * The threshold evaluation of `loop` (TempSensor.cpp:95-145) on the stored
   * temperature. At or below the warning level everything clears at once.
   * Above it the warning is on; above the error level the first sample starts
   * the confirm timer and a later one more than 10 s after the start raises
   * the error. Between the levels a confirmed error drops back to a warning,
   * but an unconfirmed timer is kept running.
   */
  function Evaluate(p: Probe, now: nat): (r: ProbeStep)
    ensures r.probe == p.(tempIsHigh := r.probe.tempIsHigh, errorTooHigh := r.probe.errorTooHigh,
                          tooHighStart := r.probe.tooHighStart)
    ensures r.probe.errorTooHigh ==> r.probe.tempIsHigh
    ensures r.probe.tooHighStart != 0 ==> r.probe.tempIsHigh
    ensures r.probe.tempIsHigh <==> p.temperature > p.highLevel
    // display hint exactly when the error flag changes
    ensures r.refresh <==> r.probe.errorTooHigh != p.errorTooHigh
    // at or below the warning level: all cleared
    ensures p.temperature <= p.highLevel ==> !r.probe.errorTooHigh && r.probe.tooHighStart == 0
    // the error is raised only by a confirmed sample
    ensures r.probe.errorTooHigh && !p.errorTooHigh ==>
              p.temperature > p.tooHighLevel && p.tooHighStart != 0 && now > p.tooHighStart + MAX_TEMP_IS_TOO_HIGH_WINDOW
    // the first sample above the error level only starts the timer
    ensures p.temperature > p.highLevel && p.temperature > p.tooHighLevel && !p.errorTooHigh && p.tooHighStart == 0 ==>
              !r.probe.errorTooHigh && r.probe.tooHighStart == now
    // with the timer running, a sample above the error level raises the error iff it is more than 10 s late
    ensures p.temperature > p.highLevel && p.temperature > p.tooHighLevel && !p.errorTooHigh && p.tooHighStart != 0 ==>
              r.probe.tooHighStart == p.tooHighStart &&
              (r.probe.errorTooHigh <==> now > p.tooHighStart + MAX_TEMP_IS_TOO_HIGH_WINDOW)
    // a confirmed error stays while the temperature is above the error level
    ensures p.temperature > p.highLevel && p.temperature > p.tooHighLevel && p.errorTooHigh ==>
              r.probe.errorTooHigh && r.probe.tooHighStart == p.tooHighStart
    // in the warning band: a confirmed error drops to a warning, a pending timer is kept
    ensures p.highLevel < p.temperature <= p.tooHighLevel && p.errorTooHigh ==>
              !r.probe.errorTooHigh && r.probe.tooHighStart == 0
    ensures p.highLevel < p.temperature <= p.tooHighLevel && !p.errorTooHigh ==>
              !r.probe.errorTooHigh && r.probe.tooHighStart == p.tooHighStart
  {
    var t := p.temperature;
    if t <= p.highLevel then
      ProbeStep(p.(tempIsHigh := false, errorTooHigh := false, tooHighStart := 0), p.errorTooHigh)
    else
      var q := p.(tempIsHigh := true);
      if t > p.tooHighLevel && !p.errorTooHigh then
        if p.tooHighStart == 0 then
          ProbeStep(q.(tooHighStart := now), false)
        else if now > p.tooHighStart + MAX_TEMP_IS_TOO_HIGH_WINDOW then
          ProbeStep(q.(errorTooHigh := true), true)
        else
          ProbeStep(q, false)
      else if t <= p.tooHighLevel && p.errorTooHigh then
        ProbeStep(q.(tooHighStart := 0, errorTooHigh := false), true)
      else
        ProbeStep(q, false)
  }

  /** `loop` takes a reading only once the conversion time has passed. */
  predicate Due(p: Probe, now: nat) {
    p.available && now > p.availableTime
  }

  /** A DISCONNECTED reading while retries are left is retried, not evaluated. */
  predicate Retries(p: Probe, reading: real) {
    reading == DISCONNECTED && p.tryCount > 0
  }

  /** The stored temperature after a due reading. */
  function Stored(p: Probe, reading: real): real {
    if reading != DISCONNECTED && reading != p.previous then reading else p.temperature
  }

  /**
   * `loop` given the reading the bus delivers at `now`. An undetected probe
   * and a probe whose conversion is not yet due are left as they are. A
   * DISCONNECTED reading uses up one retry and reschedules; once the retries
   * are used up the evaluation runs on the last stored temperature. Any
   * evaluation restores the retry budget and schedules the next reading.
   */
  function ProbeLoop(p: Probe, now: nat, reading: real): (r: ProbeStep)
    ensures !Due(p, now) ==> r == ProbeStep(p, false)
    ensures Due(p, now) && Retries(p, reading) ==>
              r == ProbeStep(p.(current := reading, tryCount := p.tryCount - 1,
                                availableTime := now + p.conversionTime), false)
    ensures Due(p, now) && !Retries(p, reading) ==>
              && r.probe.tryCount == MAX_NR_OF_TRIES
              && r.probe.availableTime == now + p.conversionTime
              && r.probe.temperature == Stored(p, reading)
    ensures Due(p, now) && !Retries(p, reading) ==> r == Evaluate(Prepared(p.(current := reading), now), now)
    // the stored temperature changes only on a fresh, valid, different reading
    ensures r.probe.temperature != p.temperature ==>
              Due(p, now) && reading != DISCONNECTED && reading != p.previous && r.probe.temperature == reading
    ensures r.probe.nr == p.nr && r.probe.available == p.available && r.probe.name == p.name
    ensures r.probe.highLevel == p.highLevel && r.probe.tooHighLevel == p.tooHighLevel
    ensures r.probe.conversionTime == p.conversionTime
    ensures ProbeInv(p) ==> ProbeInv(r.probe)
    ensures r.refresh <==> r.probe.errorTooHigh != p.errorTooHigh
  {
    if !p.available then ProbeStep(p, false)
    else if now <= p.availableTime then ProbeStep(p, false)
    else
      var p1 := p.(current := reading);
      if reading == DISCONNECTED && p.tryCount > 0 then
        ProbeStep(p1.(tryCount := p.tryCount - 1, availableTime := now + p.conversionTime), false)
      else
        Evaluate(Prepared(p1, now), now)
  }

  /**
   * A reading that is not retried: a valid reading different from the
   * previous one is stored, the retry budget is restored and the next
   * conversion is scheduled.
   */
  function Prepared(p: Probe, now: nat): Probe {
    var p1 := if p.current != DISCONNECTED && p.current != p.previous
              then p.(previous := p.current, temperature := p.current) else p;
    p1.(tryCount := MAX_NR_OF_TRIES, availableTime := now + p.conversionTime)
  }

  /** One call of `loop`: the time it runs at and the reading the bus delivers. */
  datatype Sample = Sample(time: nat, reading: real)

  /** The probe after `loop` has run on each sample in turn. */
  function ProbeRun(p: Probe, samples: seq<Sample>): Probe
    decreases |samples|
  {
    if samples == [] then p
    else ProbeRun(ProbeLoop(p, samples[0].time, samples[0].reading).probe, samples[1..])
  }

  /** A probe not detected at `begin` is never changed by `loop` again. */
  lemma {:induction false} UndetectedProbeNeverChanges(p: Probe, samples: seq<Sample>)
    requires !p.available
    ensures ProbeRun(p, samples) == p
    decreases |samples|
  {
    if samples != [] {
      UndetectedProbeNeverChanges(p, samples[1..]);
    }
  }

  /** Over any run, the error flag implies the warning flag. */
  lemma {:induction false} RunKeepsProbeInv(p: Probe, samples: seq<Sample>)
    requires ProbeInv(p)
    decreases |samples|
    ensures ProbeInv(ProbeRun(p, samples))
  {
    if samples != [] {
      RunKeepsProbeInv(ProbeLoop(p, samples[0].time, samples[0].reading).probe, samples[1..]);
    }
  }

  /**
   * No error is raised by samples taken within 10 s of a time t0 that is not
   * before the confirm timer's start: confirmation needs a sample strictly
   * later than 10 s after the timer started.
   */
  lemma {:induction false} NoErrorWithinConfirmWindow(p: Probe, samples: seq<Sample>, t0: nat)
    requires !p.errorTooHigh && (p.tooHighStart == 0 || p.tooHighStart >= t0)
    requires forall i :: 0 <= i < |samples| ==> t0 <= samples[i].time <= t0 + MAX_TEMP_IS_TOO_HIGH_WINDOW
    ensures !ProbeRun(p, samples).errorTooHigh
    decreases |samples|
  {
    if samples != [] {
      var q := ProbeLoop(p, samples[0].time, samples[0].reading).probe;
      assert samples[0].time <= t0 + MAX_TEMP_IS_TOO_HIGH_WINDOW;
      assert forall i :: 0 <= i < |samples[1..]| ==> samples[1..][i] == samples[i + 1];
      NoErrorWithinConfirmWindow(q, samples[1..], t0);
    }
  }

  /**
   * A sustained over-temperature is confirmed: with the confirm timer started
   * at t0, while every reading is valid and above both levels and each sample
   * comes more than one conversion time after the previous one, a run whose
   * last sample is more than 10 s after t0 ends with the error raised.
   */
  lemma {:induction false} ErrorRaisedWhileTooHot(p: Probe, samples: seq<Sample>, t0: nat)
    requires p.available && p.temperature > p.highLevel && p.temperature > p.tooHighLevel
    requires p.errorTooHigh || (t0 != 0 && p.tooHighStart == t0)
    requires samples != [] && p.availableTime < samples[0].time
    requires forall i :: 0 <= i < |samples| ==>
               samples[i].reading != DISCONNECTED && samples[i].reading > p.highLevel && samples[i].reading > p.tooHighLevel
    requires forall i :: 0 <= i < |samples| - 1 ==> samples[i].time + p.conversionTime < samples[i + 1].time
    requires samples[|samples| - 1].time > t0 + MAX_TEMP_IS_TOO_HIGH_WINDOW
    ensures ProbeRun(p, samples).errorTooHigh
    decreases |samples|
  {
    var q := ProbeLoop(p, samples[0].time, samples[0].reading).probe;
    assert q.available && q.temperature > q.highLevel && q.temperature > q.tooHighLevel;
    assert q.availableTime == samples[0].time + p.conversionTime;
    if |samples| == 1 {
      assert ProbeRun(q, samples[1..]) == q;
    } else {
      assert q.errorTooHigh || (t0 != 0 && q.tooHighStart == t0);
      var rest := samples[1..];
      assert forall i :: 0 <= i < |rest| ==> rest[i] == samples[i + 1];
      ErrorRaisedWhileTooHot(q, rest, t0);
    }
  }

  /** While every reading stays above the error level, a confirmed error is never cleared. */
  lemma {:induction false} ErrorStaysWhileTooHot(p: Probe, samples: seq<Sample>)
    requires p.errorTooHigh && p.temperature > p.tooHighLevel && p.temperature > p.highLevel
    requires forall i :: 0 <= i < |samples| ==>
               samples[i].reading > p.tooHighLevel && samples[i].reading > p.highLevel
    ensures ProbeRun(p, samples).errorTooHigh
    decreases |samples|
  {
    if samples != [] {
      var q := ProbeLoop(p, samples[0].time, samples[0].reading).probe;
      assert forall i :: 0 <= i < |samples[1..]| ==> samples[1..][i] == samples[i + 1];
      ErrorStaysWhileTooHot(q, samples[1..]);
    }
  }

  /**
   * Because `previousTemperature` starts at -500, the first valid reading a
   * probe found at `begin` delivers once its conversion is due is stored.
   */
  lemma FirstValidReadingIsStored(nr: nat, name: string, high: real, tooHigh: real, t0: nat, t: nat, reading: real)
    requires reading != DISCONNECTED && reading != INITIAL_PREVIOUS && t > t0 + CONVERSION_TIME
    ensures var p := BeginProbe(Construct(nr, name, high, tooHigh), true, t0);
            ProbeLoop(p, t, reading).probe.temperature == reading
  {
    ConversionTimeIs750();
  }

  /** `currentTempSensor`: the global counter that numbers the probes as they are constructed. */
  class ProbeCounter {
    var next: nat

    constructor ()
      ensures next == 0
    {
      next := 0;
    }
  }

  class TemperatureSensor {
    var tempSensorNr: nat
    var tempLabel: string
    var tempSensorAvailable: bool
    var currentTemperature: real
    var theTempIsHighLevel: real
    var theTempIsTooHighLevel: real
    var previousTemperature: real
    var conversionTime: nat
    var tempAvailableTime: nat
    var tempIsTooHighStart: nat
    var tryCount: int
    var temperature: real
    var tempIsHigh: bool
    var errorTempIsTooHigh: bool

    /** The probe's record. */
    function Model(): Probe
      reads this
    {
      Probe(tempSensorNr, tempLabel, tempSensorAvailable, currentTemperature, theTempIsHighLevel,
            theTempIsTooHighLevel, previousTemperature, conversionTime, tempAvailableTime,
            tempIsTooHighStart, tryCount, temperature, tempIsHigh, errorTempIsTooHigh)
    }

    ghost predicate Valid()
      reads this
    {
      ProbeInv(Model()) && tempSensorNr < MAX_TEMP_SENSORS
    }

    /** Each probe constructed takes the next number; there are MAX_TEMP_SENSORS array slots. */
    constructor (counter: ProbeCounter, tempIsHighLevel: real, tempIsTooHighLevel: real, tempLabel: string)
      requires counter.next < MAX_TEMP_SENSORS
      modifies counter
      ensures Model() == Construct(old(counter.next), tempLabel, tempIsHighLevel, tempIsTooHighLevel)
      ensures counter.next == old(counter.next) + 1
      ensures Valid()
    {
      tempSensorNr := counter.next;
      counter.next := counter.next + 1;
      theTempIsHighLevel := tempIsHighLevel;
      theTempIsTooHighLevel := tempIsTooHighLevel;
      conversionTime := MAX_TEMP_CONVERSIONTIME / Pow2(12 - TEMP_RESOLUTION);
      this.tempLabel := tempLabel;
      tempSensorAvailable := false;
      currentTemperature := 0.0;
      previousTemperature := INITIAL_PREVIOUS;
      tempAvailableTime := 0;
      tempIsTooHighStart := 0;
      tryCount := 0;
      temperature := 0.0;
      tempIsHigh := false;
      errorTempIsTooHigh := false;
    }

    /** `begin`, given whether the bus found the probe's address. */
    method Begin(found: bool, now: nat)
      requires Valid()
      modifies this
      ensures Model() == BeginProbe(old(Model()), found, now)
      ensures old(tempIsTooHighStart) == 0 ==> Valid()
    {
      tempIsHigh := false;
      errorTempIsTooHigh := false;
      tempSensorAvailable := found;
      if !tempSensorAvailable {
        temperature := DISCONNECTED;
        return;
      }
      tempAvailableTime := now + conversionTime;
      tryCount := MAX_NR_OF_TRIES;
    }

    /** `loop`, given the reading the bus delivers; `refresh` reports that `nextTimeDisplay` was set. */
    method Loop(now: nat, reading: real) returns (refresh: bool)
      requires Valid()
      modifies this
      ensures ProbeStep(Model(), refresh) == ProbeLoop(old(Model()), now, reading)
      ensures Valid()
    {
      refresh := false;
      if !tempSensorAvailable {
        return;
      }
      if now > tempAvailableTime {
        currentTemperature := reading;
        if currentTemperature == DISCONNECTED && tryCount > 0 {
          tryCount := tryCount - 1;
          tempAvailableTime := now + conversionTime;
          return;
        }
        StoreReading(now);
        refresh := EvaluateThresholds(now);
      }
    }

    /** The part of `loop` that stores a reading and schedules the next one. */
    method StoreReading(now: nat)
      modifies this
      ensures Model() == Prepared(old(Model()), now)
    {
      if currentTemperature != DISCONNECTED {
        if currentTemperature != previousTemperature {
          previousTemperature := currentTemperature;
          temperature := currentTemperature;
        }
      }
      tryCount := MAX_NR_OF_TRIES;
      tempAvailableTime := now + conversionTime;
    }

    /** The threshold part of `loop` (TempSensor.cpp:95-145). */
    method EvaluateThresholds(now: nat) returns (refresh: bool)
      modifies this
      ensures ProbeStep(Model(), refresh) == Evaluate(old(Model()), now)
    {
      refresh := false;
      if temperature <= theTempIsHighLevel {
        tempIsHigh := false;
        if errorTempIsTooHigh {
          refresh := true;
        }
        errorTempIsTooHigh := false;
        tempIsTooHighStart := 0;
      } else {
        tempIsHigh := true;
        if temperature > theTempIsTooHighLevel && !errorTempIsTooHigh {
          if tempIsTooHighStart == 0 {
            tempIsTooHighStart := now;
          } else if now > tempIsTooHighStart + MAX_TEMP_IS_TOO_HIGH_WINDOW {
            refresh := true;
            errorTempIsTooHigh := true;
          }
        } else if temperature <= theTempIsTooHighLevel && errorTempIsTooHigh {
          tempIsTooHighStart := 0;
          errorTempIsTooHigh := false;
          refresh := true;
        }
      }
    }
  }
}

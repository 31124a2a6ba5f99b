/**
 * Properties of whole passes of `loop` (main.cpp:939-1038), stated on the
 * function `Controller.Cycle`, which `CompressorNode.Step` is proved to follow.
 */
module ControllerProperties {
  import opened Wrappers
  import opened MachState
  import opened StateTable
  import opened Interlock
  import opened DurationStore
  import opened TempSensor
  import opened OilLevel
  import opened Controller

  /** The error flags `compressorLoop` and the button callbacks see in this cycle: after both probe loops. */
  function LoopErrors(s: System, now: nat, inp: Inputs): ErrorFlags {
    Errors(ProbeLoop(s.probe1, now, inp.reading1).probe, ProbeLoop(s.probe2, now, inp.reading2).probe, s.oil)
  }

  /** A command the handler treats as `poweron`. */
  predicate IsPowerOn(e: NodeEvent) {
    e.Command? && !SameIgnoringCase(e.cmd, "stop") && SameIgnoringCase(e.cmd, "poweron")
  }

  /** The cycle without a timeout is its second half. */
  lemma CycleWithoutTimeout(s: System, now: nat, inp: Inputs)
    requires CtlInv(s.ctl) && ValidWrite(inp.store)
    requires TimeoutAfter(RunFirstHalf(s, now, inp), now).None?
    ensures Cycle(s, now, inp) == RunSecondHalf(RunFirstHalf(s, now, inp), s.oil, now, inp)
  {
  }

  /**
   * A sensor error seen while the compressor is energised leaves it switched
   * off with the relay off at the end of the cycle, whatever the buttons, the
   * opto and the clock do, unless a manual override was already pending.
   */
  lemma SensorErrorForcesSwitchOff(s: System, now: nat, inp: Inputs)
    requires CtlInv(s.ctl) && ValidWrite(inp.store)
    requires inp.event == NoEvent && !s.ctl.overridePending
    requires Energised(s.ctl.machineState) && AnyError(LoopErrors(s, now, inp))
    ensures Cycle(s, now, inp).sys.ctl.machineState == SWITCHEDOFF
    ensures !Cycle(s, now, inp).sys.ctl.compressorIsOn
  {
    var h := RunFirstHalf(s, now, inp);
    assert h.ctl.machineState == SWITCHEDOFF && !h.ctl.overridePending;
    NoConnectionNeverTimesOut(now - h.ctl.lastStateChange);
    CycleWithoutTimeout(s, now, inp);
    var e := Errors(h.probe1.probe, h.probe2.probe, s.oil);
    var c1 := Opto(h.ctl, inp.optoOn);
    var c2 := OnEdge(c1, inp.onLevel, now, e, inp.hour);
    assert c2.machineState == SWITCHEDOFF && !c2.overridePending;
    var c3 := OffEdge(c2, inp.offLevel);
    assert c3.machineState == SWITCHEDOFF && !c3.overridePending;
  }

  /**
   * Pressing the off button while energised, with the on button released,
   * ends the cycle in SWITCHEDOFF with the relay off, whatever the sensors,
   * the opto and the clock do.
   */
  lemma OffPressSwitchesOff(s: System, now: nat, inp: Inputs)
    requires CtlInv(s.ctl) && ValidWrite(inp.store)
    requires inp.event == NoEvent && Energised(s.ctl.machineState)
    requires !s.ctl.offPressed && inp.offLevel && !inp.onLevel
    ensures Cycle(s, now, inp).sys.ctl.machineState == SWITCHEDOFF
    ensures !Cycle(s, now, inp).sys.ctl.compressorIsOn
  {
    var h := RunFirstHalf(s, now, inp);
    assert h.ctl.machineState >= SWITCHEDOFF && !h.ctl.offPressed;
    NoConnectionNeverTimesOut(now - h.ctl.lastStateChange);
    CycleWithoutTimeout(s, now, inp);
    var e := Errors(h.probe1.probe, h.probe2.probe, s.oil);
    var c1 := Opto(h.ctl, inp.optoOn);
    var c2 := OnEdge(c1, inp.onLevel, now, e, inp.hour);
    assert c2.machineState == c1.machineState && !c2.onPressed && !c2.offPressed;
    var c3 := OffEdge(c2, inp.offLevel);
    assert c3.machineState == SWITCHEDOFF && !c3.onPressed;
    assert Override(c3, now) == c3;
  }

  /**
   * Completion of a pending override powers on from SWITCHEDOFF with no
   * condition on the error flags: the completion check does not consult them.
   */
  lemma OverrideCompletesDespiteErrors(s: System, now: nat, inp: Inputs)
    requires CtlInv(s.ctl) && ValidWrite(inp.store)
    requires inp.event == NoEvent && s.ctl.machineState == SWITCHEDOFF
    requires OverrideFires(s.ctl, now) && inp.onLevel && inp.offLevel == s.ctl.offPressed
    ensures Cycle(s, now, inp).sys.ctl.machineState == POWERED
    ensures Cycle(s, now, inp).sys.ctl.compressorIsOn
    ensures Cycle(s, now, inp).sys.ctl.autoPowerOff == now + AUTOTIMEOUT
    ensures !Cycle(s, now, inp).sys.ctl.overridePending
  {
    var h := RunFirstHalf(s, now, inp);
    assert h.ctl.machineState == SWITCHEDOFF && OverrideFires(h.ctl, now);
    assert h.ctl.offPressed == s.ctl.offPressed;
    NoConnectionNeverTimesOut(now - h.ctl.lastStateChange);
    CycleWithoutTimeout(s, now, inp);
    var e := Errors(h.probe1.probe, h.probe2.probe, s.oil);
    var c1 := Opto(h.ctl, inp.optoOn);
    assert c1 == h.ctl;
    var c3 := OffEdge(OnEdge(c1, inp.onLevel, now, e, inp.hour), inp.offLevel);
    assert c3 == h.ctl;
  }

  /**
   * The override end to end: a press from SWITCHEDOFF at 04:xx without errors
   * is denied by the firmware's late-hours window and arms the override; a
   * later cycle more than 10 s on, with the button still held, powers on.
   */
  lemma LateHourPressThenHoldPowersOn(s: System, t0: nat, in0: Inputs, t1: nat, in1: Inputs)
    requires CtlInv(s.ctl) && ValidWrite(in0.store) && ValidWrite(in1.store)
    requires s.ctl.machineState == SWITCHEDOFF && !s.ctl.onPressed && !s.ctl.offPressed
    requires in0.event == NoEvent && in0.hour == 4 && in0.onLevel && !in0.offLevel
    requires !AnyError(LoopErrors(s, t0, in0))
    requires in1.event == NoEvent && in1.onLevel && !in1.offLevel && t1 > t0 + MAX_WAIT_TIME_BUTTON_ON_PRESSED
    ensures Cycle(s, t0, in0).sys.ctl.machineState == SWITCHEDOFF
    ensures Cycle(s, t0, in0).sys.ctl.overridePending
    ensures Cycle(s, t0, in0).sys.ctl.overrideDeadline == t0 + MAX_WAIT_TIME_BUTTON_ON_PRESSED
    ensures Cycle(Cycle(s, t0, in0).sys, t1, in1).sys.ctl.machineState == POWERED
    ensures Cycle(Cycle(s, t0, in0).sys, t1, in1).sys.ctl.compressorIsOn
  {
    var h := RunFirstHalf(s, t0, in0);
    assert h.ctl.machineState == SWITCHEDOFF && !h.ctl.onPressed && !h.ctl.offPressed;
    NoConnectionNeverTimesOut(t0 - h.ctl.lastStateChange);
    var e := Errors(h.probe1.probe, h.probe2.probe, s.oil);
    assert e == ErrorFlags(false, false, false);
    FirmwareBlocksOnlyHourFour(4);
    var c1 := Opto(h.ctl, in0.optoOn);
    assert c1 == h.ctl;
    var c2 := OnEdge(c1, in0.onLevel, t0, e, in0.hour);
    assert MayPowerOn(c1.(onPressed := true), e);
    assert c2 == c1.(onPressed := true, overrideDeadline := t0 + MAX_WAIT_TIME_BUTTON_ON_PRESSED, overridePending := true);
    var s1 := Cycle(s, t0, in0).sys;
    assert s1.ctl.onPressed && !s1.ctl.offPressed;
    OverrideCompletesDespiteErrors(s1, t1, in1);
  }

  /** Releasing the on button before the deadline cancels a pending override. */
  lemma ReleaseCancelsOverride(s: System, now: nat, inp: Inputs)
    requires CtlInv(s.ctl) && ValidWrite(inp.store)
    requires inp.event == NoEvent && s.ctl.machineState == SWITCHEDOFF
    requires s.ctl.overridePending && s.ctl.onPressed && !inp.onLevel
    ensures !Cycle(s, now, inp).sys.ctl.overridePending
    ensures Cycle(s, now, inp).sys.ctl.machineState == SWITCHEDOFF
  {
    var h := RunFirstHalf(s, now, inp);
    assert h.ctl.machineState == SWITCHEDOFF && h.ctl.onPressed;
    NoConnectionNeverTimesOut(now - h.ctl.lastStateChange);
    CycleWithoutTimeout(s, now, inp);
    var e := Errors(h.probe1.probe, h.probe2.probe, s.oil);
    var c1 := Opto(h.ctl, inp.optoOn);
    var c2 := OnEdge(c1, inp.onLevel, now, e, inp.hour);
    assert !c2.overridePending && c2.machineState == SWITCHEDOFF;
  }

  /**
   * A lost connection leaves the relay exactly as it was, and while the node
   * stays in NOCONN no later cycle changes it either: below SWITCHEDOFF
   * neither the error check nor the per-state switch touches the relay.
   */
  lemma LostConnectionLeavesRelayAlone(s: System, now: nat, inp: Inputs)
    requires CtlInv(s.ctl) && ValidWrite(inp.store) && !s.ctl.overridePending
    requires inp.event == Disconnected || (inp.event == NoEvent && s.ctl.machineState == NOCONN)
    ensures Cycle(s, now, inp).sys.ctl.machineState == NOCONN
    ensures Cycle(s, now, inp).sys.ctl.compressorIsOn == s.ctl.compressorIsOn
    ensures Cycle(s, now, inp).out.relayWrite == None
  {
    var ev := HandleNodeEvent(s.ctl, inp.event, now, Errors(s.probe1, s.probe2, s.oil), inp.hour);
    assert ev.ctl == s.ctl.(machineState := NOCONN);
    var h := RunFirstHalf(s, now, inp);
    assert h.ctl.machineState == NOCONN && h.ctl.compressorIsOn == s.ctl.compressorIsOn && !h.ctl.overridePending;
    NoConnectionNeverTimesOut(now - h.ctl.lastStateChange);
    CycleWithoutTimeout(s, now, inp);
    NoConnectionButtonsAndActions(h.ctl, now, inp.optoOn, inp.onLevel, inp.offLevel,
                                  Errors(h.probe1.probe, h.probe2.probe, s.oil), inp.hour, inp.store);
  }

  /** In NOCONN without a pending override the buttons, the opto and the per-state switch leave state and relay alone. */
  lemma NoConnectionButtonsAndActions(c: Ctl, now: nat, optoOn: bool, onLevel: bool, offLevel: bool,
                                      errors: ErrorFlags, hour: int, io: WriteOutcome)
    requires CtlInv(c) && ValidWrite(io) && c.machineState == NOCONN && !c.overridePending
    ensures ButtonsOpto(c, now, optoOn, onLevel, offLevel, errors, hour).machineState == NOCONN
    ensures ButtonsOpto(c, now, optoOn, onLevel, offLevel, errors, hour).compressorIsOn == c.compressorIsOn
    ensures Actuate(ButtonsOpto(c, now, optoOn, onLevel, offLevel, errors, hour), now, io).relayWrite == None
    ensures Actuate(ButtonsOpto(c, now, optoOn, onLevel, offLevel, errors, hour), now, io).ctl.compressorIsOn == c.compressorIsOn
    ensures Actuate(ButtonsOpto(c, now, optoOn, onLevel, offLevel, errors, hour), now, io).ctl.machineState == NOCONN
  {
    var c1 := Opto(c, optoOn);
    assert c1 == c;
    var c2 := OnEdge(c1, onLevel, now, errors, hour);
    assert c2.machineState == NOCONN && c2.compressorIsOn == c.compressorIsOn && !c2.overridePending;
    var c3 := OffEdge(c2, offLevel);
    assert c3 == c2.(offPressed := offLevel);
    assert Override(c3, now) == c3;
  }

  /**
   * A dwell timeout ends the cycle: the state becomes the row's fail state
   * (REBOOT for every row that has a time limit), the buttons, the opto and the
   * oil monitor are not run, and nothing is actuated.
   */
  lemma TimeoutEndsCycle(s: System, now: nat, inp: Inputs)
    requires CtlInv(s.ctl) && ValidWrite(inp.store)
    requires TimeoutAfter(RunFirstHalf(s, now, inp), now).Some?
    ensures RunFirstHalf(s, now, inp).ctl.machineState <= TRANSIENTERROR
    ensures now - RunFirstHalf(s, now, inp).ctl.lastStateChange > 120000
    ensures Cycle(s, now, inp).sys.ctl ==
              RunFirstHalf(s, now, inp).ctl.(lastState := RunFirstHalf(s, now, inp).ctl.machineState, machineState := REBOOT)
    ensures Cycle(s, now, inp).sys.oil == s.oil
    ensures !Cycle(s, now, inp).out.reboot && Cycle(s, now, inp).out.relayWrite == None
  {
  }

  /**
   * A state other than REBOOT that times out requests the reboot in the very
   * next cycle: entering REBOOT restarts its dwell time, so that cycle reaches
   * the per-state switch.
   */
  lemma TimeoutLeadsToReboot(s: System, now: nat, inp: Inputs, now2: nat, inp2: Inputs)
    requires CtlInv(s.ctl) && ValidWrite(inp.store) && ValidWrite(inp2.store)
    requires TimeoutAfter(RunFirstHalf(s, now, inp), now).Some?
    requires RunFirstHalf(s, now, inp).ctl.machineState != REBOOT
    requires inp2.event == NoEvent && !s.ctl.overridePending
    ensures Cycle(Cycle(s, now, inp).sys, now2, inp2).out.reboot
  {
    var s1 := Cycle(s, now, inp).sys;
    TimeoutEndsCycle(s, now, inp);
    assert RunFirstHalf(s, now, inp).ctl.overridePending == s.ctl.overridePending;
    EnteringRebootRequestsReboot(s1, now2, inp2);
  }

  /** The first cycle in REBOOT always reaches the per-state switch, which requests the reboot. */
  lemma EnteringRebootRequestsReboot(s: System, now: nat, inp: Inputs)
    requires CtlInv(s.ctl) && ValidWrite(inp.store)
    requires s.ctl.machineState == REBOOT && s.ctl.lastState != REBOOT
    requires inp.event == NoEvent && !s.ctl.overridePending
    ensures Cycle(s, now, inp).out.reboot
  {
    var h := RunFirstHalf(s, now, inp);
    assert h.ctl.machineState == REBOOT && h.ctl.lastStateChange == now && !h.ctl.overridePending;
    CycleWithoutTimeout(s, now, inp);
    var e := Errors(h.probe1.probe, h.probe2.probe, s.oil);
    var c1 := Opto(h.ctl, inp.optoOn);
    var c2 := OnEdge(c1, inp.onLevel, now, e, inp.hour);
    assert c2.machineState == REBOOT && !c2.overridePending;
  }

  /**
   * `poweron` while already energised only re-arms the automatic switch-off:
   * the state, the open powered and running intervals and the dwell clock stay.
   */
  lemma RepeatedPowerOnOnlyRearmsTimeout(s: System, now: nat, inp: Inputs)
    requires CtlInv(s.ctl) && ValidWrite(inp.store)
    requires Energised(s.ctl.machineState) && s.ctl.lastState == s.ctl.machineState
    requires IsPowerOn(inp.event) && !CompressorIsDisabled(Errors(s.probe1, s.probe2, s.oil), inp.hour, FirmwareLateHours)
    requires !AnyError(LoopErrors(s, now, inp))
    ensures RunFirstHalf(s, now, inp).reply == Some(Claimed)
    ensures RunFirstHalf(s, now, inp).ctl.machineState == s.ctl.machineState
    ensures RunFirstHalf(s, now, inp).ctl.autoPowerOff == now + AUTOTIMEOUT
    ensures RunFirstHalf(s, now, inp).ctl.poweredLast == s.ctl.poweredLast
    ensures RunFirstHalf(s, now, inp).ctl.runningLast == s.ctl.runningLast
    ensures RunFirstHalf(s, now, inp).ctl.lastStateChange == s.ctl.lastStateChange
  {
    var ev := HandleNodeEvent(s.ctl, inp.event, now, Errors(s.probe1, s.probe2, s.oil), inp.hour);
    assert ev.ctl == s.ctl.(autoPowerOff := now + AUTOTIMEOUT);
  }

  /**
   * `poweron` from SWITCHEDOFF without errors, outside the late-hours window,
   * powers on and opens the powered interval at `now`.
   */
  lemma RemotePowerOnOpensPoweredInterval(s: System, now: nat, inp: Inputs)
    requires CtlInv(s.ctl) && ValidWrite(inp.store)
    requires s.ctl.machineState == SWITCHEDOFF && s.ctl.lastState == SWITCHEDOFF
    requires IsPowerOn(inp.event) && !CompressorIsDisabled(Errors(s.probe1, s.probe2, s.oil), inp.hour, FirmwareLateHours)
    requires !AnyError(LoopErrors(s, now, inp))
    ensures RunFirstHalf(s, now, inp).ctl.machineState == POWERED
    ensures RunFirstHalf(s, now, inp).ctl.compressorIsOn
    ensures RunFirstHalf(s, now, inp).ctl.poweredLast == now
    ensures RunFirstHalf(s, now, inp).ctl.poweredTotal == s.ctl.poweredTotal
    ensures RunFirstHalf(s, now, inp).ctl.lastStateChange == now
  {
    var ev := HandleNodeEvent(s.ctl, inp.event, now, Errors(s.probe1, s.probe2, s.oil), inp.hour);
    assert ev.ctl.machineState == POWERED && ev.ctl.autoPowerOff == now + AUTOTIMEOUT;
  }

  /**
   * The live totals that a save writes are exactly what the accounting would
   * add if the compressor were switched off now.
   */
  lemma LiveTotalsMatchAccounting(c: Ctl, now: nat)
    requires CtlInv(c) && c.lastState == c.machineState && Energised(c.machineState)
    ensures LiveTotals(c, now).0 == Account(c.(machineState := SWITCHEDOFF), now).poweredTotal
    ensures c.machineState == RUNNING ==> LiveTotals(c, now).1 == Account(c.(machineState := SWITCHEDOFF), now).runningTotal
    ensures c.machineState == POWERED ==> LiveTotals(c, now).1 == c.runningTotal
  {
  }

  /**
   * A powered interval opened at `t0` and closed at `t1` adds its whole
   * seconds to the total, modulo 2^32.
   */
  lemma PoweredIntervalIsAccounted(c: Ctl, t0: nat, t1: nat)
    requires CtlInv(c) && c.lastState < POWERED && Energised(c.machineState)
    ensures Account(Account(c, t0).(machineState := SWITCHEDOFF), t1).poweredTotal ==
            (c.poweredTotal + (t1 - t0) / 1000) % WORD_RANGE
  {
  }

  /**
   * What the save in state REBOOT writes, the next `setup` reads back: after a
   * complete write the loaded totals are the stored totals (REBOOT has no open
   * interval), unless both were zero, in which case nothing was written.
   */
  lemma RebootSaveIsLoadedAtSetup(c: Ctl, now: nat, p0: Uint32, r0: Uint32)
    requires c.machineState == REBOOT && (c.poweredTotal != 0 || c.runningTotal != 0)
    ensures Actuate(c, now, FullWrite).reboot
    ensures Load(Actuate(c, now, FullWrite).ctl.durationFile, GoodRead, p0, r0) == (c.poweredTotal, c.runningTotal)
  {
    assert LiveTotals(c, now) == (c.poweredTotal, c.runningTotal);
    SaveThenLoad(c.durationFile, c.poweredTotal, c.runningTotal, p0, r0);
  }
}

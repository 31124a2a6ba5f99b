/**
 * The control logic of main.cpp: the machine state and its transitions (node
 * events, remote commands, buttons, opto feedback, forced shutdown, dwell
 * timeout), the manual override of the late-hours interlock, the duration
 * accounting and its persistence, and the per-state actuation of the relay.
 *
 * Each phase of `loop` is a function on the controller's variables; `Cycle`
 * composes them in the firmware's order with a single `now`, and the class
 * CompressorNode below is proved to do exactly what `Cycle` says.
 */
module Controller {
  import opened Wrappers
  import opened MachState
  import opened StateTable
  import opened Interlock
  import opened DurationStore
  import opened TempSensor
  import opened OilLevel

  const AUTOTIMEOUT: nat := 30 * 60 * 1000
  const MAX_WAIT_TIME_BUTTON_ON_PRESSED: nat := 10000
  const SAVE_DURATION_COUNTERS_WINDOW: nat := 86400
  const TEMP_IS_HIGH_LEVEL: real := 28.0
  const TEMP_IS_TOO_HIGH_LEVEL: real := 30.0

  /** The globals of main.cpp that the control logic reads and writes. */
  datatype Ctl = Ctl(
    machineState: MachineState,      // machinestate
    lastState: MachineState,         // laststate
    lastStateChange: nat,            // laststatechange
    autoPowerOff: nat,               // deadline of the automatic switch-off
    poweredTotal: Uint32,            // powered_total, seconds
    poweredLast: nat,                // powered_last, start of the open powered interval
    runningTotal: Uint32,            // running_total, seconds
    runningLast: nat,                // running_last
    durationCounterSave: nat,        // DurationCounterSave, seconds
    overrideDeadline: nat,           // verifyButtonOnPressedTime
    overridePending: bool,           // verifyButtonOnIsStillPressed
    compressorIsOn: bool,            // the relay as last written
    powerOnDenied: bool,             // automaticPowerOnDenied
    onPressed: bool,                 // buttonOn.state() == BUTTON_ON_PRESSED
    offPressed: bool,                // buttonOff.state() == BUTTON_OFF_PRESSED
    durationFile: Option<seq<Byte>>) // the duration file, None when it does not exist

  predicate CtlInv(c: Ctl) {
    IsState(c.machineState) && IsState(c.lastState)
  }

  /** The controller's variables once `setup` has loaded the counters. */
  function InitialCtl(now: nat, totals: (Uint32, Uint32), file: Option<seq<Byte>>): (c: Ctl)
    ensures CtlInv(c) && c.machineState == BOOTING && !c.compressorIsOn && !c.overridePending
    ensures c.durationCounterSave == now / 1000 + SAVE_DURATION_COUNTERS_WINDOW
  {
    Ctl(BOOTING, BOOTING, 0, 0, totals.0, 0, totals.1, 0,
        now / 1000 + SAVE_DURATION_COUNTERS_WINDOW, 0, false, false, false, false, false, file)
  }

  // ---------------------------------------------------------------- node events

  datatype NodeEvent = NoEvent | Connected | Disconnected | NodeError | Command(cmd: string)

  /** What a command handler answers: claimed, or declined so that other handlers may try. */
  datatype CmdResult = Claimed | Declined

  datatype EventStep = EventStep(ctl: Ctl, reply: Option<CmdResult>)

  function LowerChar(ch: char): char {
    if 'A' <= ch <= 'Z' then (ch as int + 32) as char else ch
  }

  function Lower(s: string): (r: string)
    ensures |r| == |s| && forall i :: 0 <= i < |s| ==> r[i] == LowerChar(s[i])
  {
    if s == [] then [] else [LowerChar(s[0])] + Lower(s[1..])
  }

  /** `strcasecmp(a, b) == 0`: equal after lower-casing every letter. */
  function SameIgnoringCase(a: string, b: string): (r: bool)
    ensures r <==> Lower(a) == Lower(b)
  {
    var r := |a| == |b| && forall i :: 0 <= i < |a| ==> LowerChar(a[i]) == LowerChar(b[i]);
    assert r ==> Lower(a) == Lower(b);
    assert Lower(a) == Lower(b) ==> |a| == |b| && forall i :: 0 <= i < |a| ==> Lower(a)[i] == Lower(b)[i];
    r
  }

  /**
   * The validated-command handler. `stop` switches off from any state.
   * `poweron`, unless the interlock disables the compressor, powers on from
   * any state below POWERED and always re-arms the automatic switch-off; when
   * disabled it only records the denial. Any other command is declined.
   */
  /** The commands the handler knows, told apart as its `strcasecmp` chain does. */
  datatype CommandKind = StopCommand | PowerOnCommand | OtherCommand

  function Classify(cmd: string): (k: CommandKind)
    ensures k == StopCommand <==> SameIgnoringCase(cmd, "stop")
    ensures k == PowerOnCommand <==> !SameIgnoringCase(cmd, "stop") && SameIgnoringCase(cmd, "poweron")
  {
    if SameIgnoringCase(cmd, "stop") then StopCommand
    else if SameIgnoringCase(cmd, "poweron") then PowerOnCommand
    else OtherCommand
  }

  function HandleCommand(c: Ctl, cmd: string, now: nat, disabled: bool): (r: EventStep)
    ensures SameIgnoringCase(cmd, "stop") ==>
              r == EventStep(c.(machineState := SWITCHEDOFF, compressorIsOn := false), Some(Claimed))
    ensures !SameIgnoringCase(cmd, "stop") && SameIgnoringCase(cmd, "poweron") && !disabled ==>
              && r.reply == Some(Claimed)
              && r.ctl.autoPowerOff == now + AUTOTIMEOUT
              && (c.machineState < POWERED ==> r.ctl.machineState == POWERED && r.ctl.compressorIsOn)
              && (c.machineState >= POWERED ==> r.ctl == c.(autoPowerOff := now + AUTOTIMEOUT))
    ensures !SameIgnoringCase(cmd, "stop") && SameIgnoringCase(cmd, "poweron") && disabled ==>
              r == EventStep(c.(powerOnDenied := true), Some(Claimed))
    ensures !SameIgnoringCase(cmd, "stop") && !SameIgnoringCase(cmd, "poweron") ==> r == EventStep(c, Some(Declined))
    // a command never touches the duration counters or the override
    ensures r.ctl.poweredLast == c.poweredLast && r.ctl.runningLast == c.runningLast
    ensures r.ctl.poweredTotal == c.poweredTotal && r.ctl.runningTotal == c.runningTotal
    ensures r.ctl.overridePending == c.overridePending && r.ctl.lastState == c.lastState
  {
    match Classify(cmd)
    case StopCommand => EventStep(c.(machineState := SWITCHEDOFF, compressorIsOn := false), Some(Claimed))
    case PowerOnCommand => EventStep(PowerOnRequest(c, now, disabled), Some(Claimed))
    case OtherCommand => EventStep(c, Some(Declined))
  }

  /** The `poweron` branch of the command handler. */
  function PowerOnRequest(c: Ctl, now: nat, disabled: bool): (r: Ctl)
    ensures disabled ==> r == c.(powerOnDenied := true)
    ensures !disabled && c.machineState < POWERED ==>
              r == c.(compressorIsOn := true, machineState := POWERED, autoPowerOff := now + AUTOTIMEOUT)
    ensures !disabled && c.machineState >= POWERED ==> r == c.(autoPowerOff := now + AUTOTIMEOUT)
  {
    if !disabled then
      var c1 := if c.machineState < POWERED then c.(compressorIsOn := true, machineState := POWERED) else c;
      c1.(autoPowerOff := now + AUTOTIMEOUT)
    else
      c.(powerOnDenied := true)
  }

  /** The node callbacks: connect, disconnect and error set their state unconditionally. */
  function HandleNodeEvent(c: Ctl, e: NodeEvent, now: nat, errors: ErrorFlags, hour: int): (r: EventStep)
    ensures e.NoEvent? ==> r == EventStep(c, None)
    ensures e.Connected? ==> r == EventStep(c.(machineState := SWITCHEDOFF), None)
    ensures e.Disconnected? ==> r == EventStep(c.(machineState := NOCONN), None)
    ensures e.NodeError? ==> r == EventStep(c.(machineState := TRANSIENTERROR), None)
    ensures e.Command? ==> r == HandleCommand(c, e.cmd, now, CompressorIsDisabled(errors, hour, FirmwareLateHours))
    ensures CtlInv(c) ==> CtlInv(r.ctl)
    ensures r.ctl.compressorIsOn != c.compressorIsOn ==> e.Command?
  {
    match e
    case NoEvent => EventStep(c, None)
    case Connected => EventStep(c.(machineState := SWITCHEDOFF), None)
    case Disconnected => EventStep(c.(machineState := NOCONN), None)
    case NodeError => EventStep(c.(machineState := TRANSIENTERROR), None)
    case Command(cmd) => HandleCommand(c, cmd, now, CompressorIsDisabled(errors, hour, FirmwareLateHours))
  }

  // ---------------------------------------------------------------- duration counters

  function AddSeconds(total: Uint32, from: int, now: nat): Uint32 {
    (total + (now - from) / 1000) % WORD_RANGE
  }

  /**
   * The totals `saveDurationCounters` writes: the stored totals plus the whole
   * seconds of the interval still open, without changing the stored totals.
   */
  function LiveTotals(c: Ctl, now: nat): (r: (Uint32, Uint32))
    ensures c.machineState < POWERED ==> r == (c.poweredTotal, c.runningTotal)
    ensures c.machineState >= POWERED ==> r.0 == AddSeconds(c.poweredTotal, c.poweredLast, now)
    ensures r.1 == if c.machineState == RUNNING then AddSeconds(c.runningTotal, c.runningLast, now) else c.runningTotal
  {
    var p := if c.machineState >= POWERED then AddSeconds(c.poweredTotal, c.poweredLast, now) else c.poweredTotal;
    var q := if c.machineState == RUNNING then AddSeconds(c.runningTotal, c.runningLast, now) else c.runningTotal;
    (p, q)
  }

  /** `saveDurationCounters`: only the duration file changes. */
  function Save(c: Ctl, now: nat, io: WriteOutcome): (r: Ctl)
    requires ValidWrite(io)
    ensures r == c.(durationFile := r.durationFile)
    ensures r.durationFile == SaveCounters(c.durationFile, LiveTotals(c, now).0, LiveTotals(c, now).1, io)
  {
    var live := LiveTotals(c, now);
    c.(durationFile := SaveCounters(c.durationFile, live.0, live.1, io))
  }

  /**
   * The accounting at main.cpp:959-979, on the edge from `lastState` to
   * `machineState`. Entering the powered states opens the powered interval,
   * leaving them adds its whole seconds to the total; the running interval
   * follows RUNNING the same way. A change crossing neither boundary touches
   * no counter; any change records the new state and its time.
   */
  function Account(c: Ctl, now: nat): (r: Ctl)
    ensures c.lastState == c.machineState ==> r == c
    ensures c.lastState != c.machineState ==> r.lastState == c.machineState && r.lastStateChange == now
    ensures c.lastState < POWERED <= c.machineState ==> r.poweredLast == now && r.poweredTotal == c.poweredTotal
    ensures c.machineState < POWERED <= c.lastState ==>
              r.poweredLast == c.poweredLast && r.poweredTotal == AddSeconds(c.poweredTotal, c.poweredLast, now)
    ensures (c.lastState < POWERED <==> c.machineState < POWERED) ==>
              r.poweredLast == c.poweredLast && r.poweredTotal == c.poweredTotal
    ensures c.lastState < RUNNING == c.machineState ==> r.runningLast == now && r.runningTotal == c.runningTotal
    ensures c.machineState < RUNNING == c.lastState ==>
              r.runningLast == c.runningLast && r.runningTotal == AddSeconds(c.runningTotal, c.runningLast, now)
    ensures (c.lastState == RUNNING <==> c.machineState == RUNNING) && c.lastState <= RUNNING && c.machineState <= RUNNING ==>
              r.runningLast == c.runningLast && r.runningTotal == c.runningTotal
    ensures r == c.(lastState := r.lastState, lastStateChange := r.lastStateChange,
                    poweredTotal := r.poweredTotal, poweredLast := r.poweredLast,
                    runningTotal := r.runningTotal, runningLast := r.runningLast)
  {
    if c.lastState == c.machineState then c
    else AccountRunning(AccountPowered(c, now), now).(lastState := c.machineState, lastStateChange := now)
  }

  /** The powered interval on the edge from `lastState` to `machineState`. */
  function AccountPowered(c: Ctl, now: nat): Ctl {
    if c.machineState >= POWERED && c.lastState < POWERED then c.(poweredLast := now)
    else if c.lastState >= POWERED && c.machineState < POWERED then
      c.(poweredTotal := AddSeconds(c.poweredTotal, c.poweredLast, now))
    else c
  }

  /** The running interval on the edge from `lastState` to `machineState`. */
  function AccountRunning(c: Ctl, now: nat): Ctl {
    if c.machineState == RUNNING && c.lastState < RUNNING then c.(runningLast := now)
    else if c.lastState == RUNNING && c.machineState < RUNNING then
      c.(runningTotal := AddSeconds(c.runningTotal, c.runningLast, now))
    else c
  }

  // ---------------------------------------------------------------- compressorLoop

  /** `compressorLoop`'s forced shutdown: an energised compressor with an error flag or past its deadline. */
  predicate MustSwitchOff(c: Ctl, errors: ErrorFlags, now: nat) {
    c.machineState > SWITCHEDOFF && (AnyError(errors) || now > c.autoPowerOff)
  }

  /** The periodic save is due once the uptime in seconds passes `DurationCounterSave`. */
  predicate SaveDue(c: Ctl, now: nat) {
    now / 1000 > c.durationCounterSave
  }

  /**
   * `compressorLoop`: the forced shutdown, the reset of the reported denial,
   * and the periodic save, which re-arms itself 24 h later.
   * Below SWITCHEDOFF neither shutdown check fires and the relay is not touched.
   */
  function CompressorLoop(c: Ctl, errors: ErrorFlags, now: nat, io: WriteOutcome): (r: Ctl)
    requires ValidWrite(io)
    ensures MustSwitchOff(c, errors, now) ==> r.machineState == SWITCHEDOFF && !r.compressorIsOn
    ensures !MustSwitchOff(c, errors, now) ==> r.machineState == c.machineState && r.compressorIsOn == c.compressorIsOn
    ensures SaveDue(c, now) ==> r.durationCounterSave == now / 1000 + SAVE_DURATION_COUNTERS_WINDOW
    ensures !SaveDue(c, now) ==> r.durationCounterSave == c.durationCounterSave && r.durationFile == c.durationFile
    ensures !r.powerOnDenied
    ensures r == c.(machineState := r.machineState, compressorIsOn := r.compressorIsOn, powerOnDenied := false,
                    durationCounterSave := r.durationCounterSave, durationFile := r.durationFile)
  {
    PeriodicSave(Shutdown(c, errors, now).(powerOnDenied := false), now, io)
  }

  /** The forced shutdown of `compressorLoop`. */
  function Shutdown(c: Ctl, errors: ErrorFlags, now: nat): (r: Ctl)
    ensures MustSwitchOff(c, errors, now) ==> r == c.(compressorIsOn := false, machineState := SWITCHEDOFF)
    ensures !MustSwitchOff(c, errors, now) ==> r == c
  {
    if MustSwitchOff(c, errors, now) then c.(compressorIsOn := false, machineState := SWITCHEDOFF) else c
  }

  /** The periodic save: when due, re-arm it 24 h ahead, then save the live totals. */
  function PeriodicSave(c: Ctl, now: nat, io: WriteOutcome): (r: Ctl)
    requires ValidWrite(io)
    ensures SaveDue(c, now) ==> r == Save(c.(durationCounterSave := now / 1000 + SAVE_DURATION_COUNTERS_WINDOW), now, io)
    ensures !SaveDue(c, now) ==> r == c
  {
    if SaveDue(c, now) then Save(c.(durationCounterSave := now / 1000 + SAVE_DURATION_COUNTERS_WINDOW), now, io)
    else c
  }

  // ---------------------------------------------------------------- dwell timeout

  /** The dwell-time check consults the row of the current state; a timeout records the state it leaves. */
  function ApplyTimeout(c: Ctl, target: MachineState): (r: Ctl)
    ensures r.lastState == c.machineState && r.machineState == target
    ensures r == c.(lastState := r.lastState, machineState := r.machineState)
  {
    c.(lastState := c.machineState, machineState := target)
  }

  // ---------------------------------------------------------------- buttons and opto

  /** Opto feedback: light moves only POWERED to RUNNING, no light only RUNNING to POWERED. */
  function Opto(c: Ctl, optoOn: bool): (r: Ctl)
    ensures r == c.(machineState := r.machineState)
    ensures r.machineState != c.machineState ==>
              (optoOn && c.machineState == POWERED && r.machineState == RUNNING) ||
              (!optoOn && c.machineState == RUNNING && r.machineState == POWERED)
    ensures optoOn && c.machineState == POWERED ==> r.machineState == RUNNING
    ensures !optoOn && c.machineState == RUNNING ==> r.machineState == POWERED
  {
    if optoOn then
      if c.machineState == POWERED then c.(machineState := RUNNING) else c
    else
      if c.machineState == RUNNING then c.(machineState := POWERED) else c
  }

  /** The guard of the on-button callback under which a press may power on (main.cpp:469-470). */
  predicate MayPowerOn(c: Ctl, errors: ErrorFlags) {
    c.onPressed && !AnyError(errors) && !c.offPressed && c.machineState == SWITCHEDOFF
  }

  /**
   * The on-button callback on an edge to the level `c.onPressed`; the off
   * button's level is the one it had before this cycle's update. A press from
   * SWITCHEDOFF without errors and with the off button released powers on
   * when the interlock allows it; denied only by the late-hours window, it
   * arms the override 10 s ahead. Any other edge, a release included, drops a
   * pending override, and a press while energised only re-arms the deadline.
   */
  function ButtonOn(c: Ctl, now: nat, errors: ErrorFlags, hour: int): (r: Ctl)
    ensures MayPowerOn(c, errors) && !CompressorIsDisabled(errors, hour, FirmwareLateHours) ==>
              r == c.(compressorIsOn := true, machineState := POWERED, autoPowerOff := now + AUTOTIMEOUT,
                      overridePending := false)
    ensures MayPowerOn(c, errors) && CompressorIsDisabled(errors, hour, FirmwareLateHours) ==>
              r == c.(overrideDeadline := now + MAX_WAIT_TIME_BUTTON_ON_PRESSED, overridePending := true)
    ensures !MayPowerOn(c, errors) && c.onPressed && c.machineState > SWITCHEDOFF ==>
              r == c.(autoPowerOff := now + AUTOTIMEOUT, overridePending := false)
    ensures !MayPowerOn(c, errors) && !(c.onPressed && c.machineState > SWITCHEDOFF) ==>
              r == c.(overridePending := false)
    ensures r.machineState != c.machineState ==> r.machineState == POWERED && c.machineState == SWITCHEDOFF
    ensures r.overridePending ==> MayPowerOn(c, errors) && !AnyError(errors)
  {
    if MayPowerOn(c, errors) then PressFromSwitchedOff(c, now, CompressorIsDisabled(errors, hour, FirmwareLateHours))
    else OtherOnEdge(c, now)
  }

  /** A press that may power on: it does, unless disabled, in which case it arms the override. */
  function PressFromSwitchedOff(c: Ctl, now: nat, disabled: bool): Ctl {
    if !disabled then
      c.(compressorIsOn := true, machineState := POWERED, autoPowerOff := now + AUTOTIMEOUT, overridePending := false)
    else
      c.(overrideDeadline := now + MAX_WAIT_TIME_BUTTON_ON_PRESSED, overridePending := true)
  }

  /** Any other on-button edge: a press while energised re-arms the deadline; every such edge drops the override. */
  function OtherOnEdge(c: Ctl, now: nat): Ctl {
    var c1 := if c.onPressed && c.machineState > SWITCHEDOFF then c.(autoPowerOff := now + AUTOTIMEOUT) else c;
    c1.(overridePending := false)
  }

  /** The off-button callback: a press switches off from POWERED or RUNNING unless the on button is held. */
  function ButtonOff(c: Ctl): (r: Ctl)
    ensures c.offPressed && !c.onPressed && c.machineState >= POWERED ==>
              r == c.(compressorIsOn := false, machineState := SWITCHEDOFF)
    ensures !(c.offPressed && !c.onPressed && c.machineState >= POWERED) ==> r == c
  {
    if c.offPressed && !c.onPressed && c.machineState >= POWERED then
      c.(compressorIsOn := false, machineState := SWITCHEDOFF)
    else c
  }

  /** The override fires when it is pending, its deadline has strictly passed and the on button is still held. */
  predicate OverrideFires(c: Ctl, now: nat) {
    c.overridePending && now > c.overrideDeadline && c.onPressed
  }

  /** Completion of the manual override: powers on without consulting the error flags. */
  function Override(c: Ctl, now: nat): (r: Ctl)
    ensures OverrideFires(c, now) ==>
              r == c.(overridePending := false, compressorIsOn := true, machineState := POWERED,
                      autoPowerOff := now + AUTOTIMEOUT)
    ensures !OverrideFires(c, now) ==> r == c
  {
    if OverrideFires(c, now) then
      c.(overridePending := false, compressorIsOn := true, machineState := POWERED, autoPowerOff := now + AUTOTIMEOUT)
    else c
  }

  /** The accounting variables the button logic never touches. */
  predicate SameAccounting(a: Ctl, b: Ctl) {
    && a.poweredTotal == b.poweredTotal && a.poweredLast == b.poweredLast
    && a.runningTotal == b.runningTotal && a.runningLast == b.runningLast
    && a.lastState == b.lastState && a.lastStateChange == b.lastStateChange
    && a.durationCounterSave == b.durationCounterSave && a.durationFile == b.durationFile
  }

  /** The debounced on button reports its new level; the callback runs on an edge. */
  function OnEdge(c: Ctl, onLevel: bool, now: nat, errors: ErrorFlags, hour: int): (r: Ctl)
    ensures r.onPressed == onLevel && r.offPressed == c.offPressed && SameAccounting(c, r)
    ensures CtlInv(c) ==> CtlInv(r)
    ensures onLevel == c.onPressed ==> r == c
    ensures onLevel != c.onPressed ==> r == ButtonOn(c.(onPressed := onLevel), now, errors, hour)
  {
    if onLevel != c.onPressed then ButtonOn(c.(onPressed := onLevel), now, errors, hour) else c
  }

  /** The debounced off button reports its new level; the callback runs on an edge. */
  function OffEdge(c: Ctl, offLevel: bool): (r: Ctl)
    ensures r.offPressed == offLevel && r.onPressed == c.onPressed && SameAccounting(c, r)
    ensures CtlInv(c) ==> CtlInv(r)
    ensures offLevel == c.offPressed ==> r == c
    ensures offLevel != c.offPressed ==> r == ButtonOff(c.(offPressed := offLevel))
  {
    if offLevel != c.offPressed then ButtonOff(c.(offPressed := offLevel)) else c
  }

  /**
   * `buttons_optocoupler_loop`: opto, then the on button's edge, then the off
   * button's edge, then the override check.
   */
  function ButtonsOpto(c: Ctl, now: nat, optoOn: bool, onLevel: bool, offLevel: bool, errors: ErrorFlags, hour: int)
    : (r: Ctl)
    ensures r.onPressed == onLevel && r.offPressed == offLevel
    ensures CtlInv(c) ==> CtlInv(r)
    ensures SameAccounting(c, r)
  {
    var c1 := Opto(c, optoOn);
    var c2 := OnEdge(c1, onLevel, now, errors, hour);
    var c3 := OffEdge(c2, offLevel);
    assert SameAccounting(c, c3);
    Override(c3, now)
  }

  // ---------------------------------------------------------------- per-state actions

  datatype ActStep = ActStep(ctl: Ctl, reboot: bool, relayWrite: Option<bool>)

  /**
   * The per-state switch at the end of `loop`. The relay is written only when
   * `compressorIsOn` disagrees with SWITCHEDOFF or POWERED; RUNNING and the
   * states below SWITCHEDOFF leave it alone. REBOOT saves the counters and
   * requests the reboot; the card states fall back to REBOOT.
   */
  function Actuate(c: Ctl, now: nat, io: WriteOutcome): (r: ActStep)
    requires ValidWrite(io)
    ensures r.relayWrite.Some? <==>
              (c.machineState == SWITCHEDOFF && c.compressorIsOn) || (c.machineState == POWERED && !c.compressorIsOn)
    ensures r.relayWrite.Some? ==> r.relayWrite.value == (c.machineState == POWERED) == r.ctl.compressorIsOn
    ensures c.machineState == SWITCHEDOFF ==> !r.ctl.compressorIsOn
    ensures c.machineState == POWERED ==> r.ctl.compressorIsOn
    ensures c.machineState != SWITCHEDOFF && c.machineState != POWERED ==> r.ctl.compressorIsOn == c.compressorIsOn
    ensures r.reboot <==> c.machineState == REBOOT
    ensures c.machineState == REBOOT ==> r.ctl == Save(c, now, io)
    ensures c.machineState == WAITINGFORCARD || c.machineState == CHECKINGCARD ==> r.ctl == c.(machineState := REBOOT)
    ensures c.machineState != WAITINGFORCARD && c.machineState != CHECKINGCARD ==> r.ctl.machineState == c.machineState
    ensures r.ctl == c.(compressorIsOn := r.ctl.compressorIsOn, machineState := r.ctl.machineState,
                        durationFile := r.ctl.durationFile)
  {
    if c.machineState == REBOOT then ActStep(Save(c, now, io), true, None)
    else if c.machineState == SWITCHEDOFF then
      if c.compressorIsOn then ActStep(c.(compressorIsOn := false), false, Some(false)) else ActStep(c, false, None)
    else if c.machineState == POWERED then
      if !c.compressorIsOn then ActStep(c.(compressorIsOn := true), false, Some(true)) else ActStep(c, false, None)
    else if c.machineState == WAITINGFORCARD || c.machineState == CHECKINGCARD then
      ActStep(c.(machineState := REBOOT), false, None)
    else ActStep(c, false, None)
  }

  // ---------------------------------------------------------------- one cycle of loop()

  /** Everything `loop` touches: the controller, both probes and the oil monitor. */
  datatype System = System(ctl: Ctl, probe1: Probe, probe2: Probe, oil: Oil)

  predicate SysInv(s: System) {
    CtlInv(s.ctl) && ProbeInv(s.probe1) && ProbeInv(s.probe2) && OilInv(s.oil)
  }

  function Errors(p1: Probe, p2: Probe, oil: Oil): ErrorFlags {
    ErrorFlags(oil.error, p1.errorTooHigh, p2.errorTooHigh)
  }

  /** What the collaborators deliver in one cycle. */
  datatype Inputs = Inputs(
    event: NodeEvent,     // what node.loop() delivers
    hour: int,            // ntp.hours()
    reading1: real,       // the bus reading for probe 1
    reading2: real,       // the bus reading for probe 2
    optoOn: bool,         // opto1.state() == ON
    onLevel: bool,        // debounced on button, true when pressed
    offLevel: bool,       // debounced off button, true when pressed
    oilTooLow: bool,      // debounced oil level switch, true when too low
    store: WriteOutcome)  // what the file system reports for a save in this cycle

  datatype Outputs = Outputs(
    reply: Option<CmdResult>,   // the command handler's answer, if a command came
    refresh: bool,              // nextTimeDisplay was set
    reboot: bool,               // node.delayedReboot() was called
    relayWrite: Option<bool>)   // the relay write of the per-state switch, if any

  /** The cycle up to and including the accounting: node events, probes, compressorLoop. */
  datatype FirstHalf = FirstHalf(ctl: Ctl, probe1: ProbeStep, probe2: ProbeStep, reply: Option<CmdResult>)

  function RunFirstHalf(s: System, now: nat, inp: Inputs): (r: FirstHalf)
    requires CtlInv(s.ctl) && ValidWrite(inp.store)
    ensures CtlInv(r.ctl)
    ensures ProbeInv(s.probe1) ==> ProbeInv(r.probe1.probe)
    ensures ProbeInv(s.probe2) ==> ProbeInv(r.probe2.probe)
    ensures inp.event.Command? <==> r.reply.Some?
  {
    var ev := HandleNodeEvent(s.ctl, inp.event, now, Errors(s.probe1, s.probe2, s.oil), inp.hour);
    var t1 := ProbeLoop(s.probe1, now, inp.reading1);
    var t2 := ProbeLoop(s.probe2, now, inp.reading2);
    var c1 := CompressorLoop(ev.ctl, Errors(t1.probe, t2.probe, s.oil), now, inp.store);
    FirstHalf(Account(c1, now), t1, t2, ev.reply)
  }

  /** The dwell timeout due at the end of the first half, if any. */
  function TimeoutAfter(h: FirstHalf, now: nat): Option<MachineState>
    requires CtlInv(h.ctl)
  {
    DwellTimeout(h.ctl.machineState, now - h.ctl.lastStateChange)
  }

  /** The cycle after the timeout check: buttons and opto, oil monitor, per-state actions. */
  function RunSecondHalf(h: FirstHalf, oil: Oil, now: nat, inp: Inputs): (r: CycleStep)
    requires CtlInv(h.ctl) && ValidWrite(inp.store)
    ensures CtlInv(r.sys.ctl)
    ensures OilInv(oil) ==> OilInv(r.sys.oil)
    ensures r.sys.probe1 == h.probe1.probe && r.sys.probe2 == h.probe2.probe && r.out.reply == h.reply
  {
    var c := ButtonsOpto(h.ctl, now, inp.optoOn, inp.onLevel, inp.offLevel,
                         Errors(h.probe1.probe, h.probe2.probe, oil), inp.hour);
    var o := OilLoop(oil, now, inp.oilTooLow);
    var act := Actuate(c, now, inp.store);
    CycleStep(System(act.ctl, h.probe1.probe, h.probe2.probe, o.oil),
              Outputs(h.reply, h.probe1.refresh || h.probe2.refresh || o.refresh, act.reboot, act.relayWrite))
  }

  /**
   * One pass of `loop` at time `now`: node events, probes, compressorLoop,
   * accounting, dwell timeout (which ends the cycle early), buttons and opto,
   * oil monitor, per-state actions.
   */
  function Cycle(s: System, now: nat, inp: Inputs): (r: CycleStep)
    requires CtlInv(s.ctl) && ValidWrite(inp.store)
    ensures CtlInv(r.sys.ctl)
    ensures SysInv(s) ==> SysInv(r.sys)
    ensures r.out.reply == RunFirstHalf(s, now, inp).reply
  {
    var h := RunFirstHalf(s, now, inp);
    match TimeoutAfter(h, now)
    case Some(target) =>
      CycleStep(System(ApplyTimeout(h.ctl, target), h.probe1.probe, h.probe2.probe, s.oil),
                Outputs(h.reply, h.probe1.refresh || h.probe2.refresh, false, None))
    case None => RunSecondHalf(h, s.oil, now, inp)
  }

  datatype CycleStep = CycleStep(sys: System, out: Outputs)

  // ---------------------------------------------------------------- the node

  class CompressorNode {
    var machineState: MachineState
    var lastState: MachineState
    var lastStateChange: nat
    var autoPowerOff: nat
    var poweredTotal: Uint32
    var poweredLast: nat
    var runningTotal: Uint32
    var runningLast: nat
    var durationCounterSave: nat
    var verifyButtonOnPressedTime: nat
    var verifyButtonOnIsStillPressed: bool
    var compressorIsOn: bool
    var automaticPowerOnDenied: bool
    var buttonOnPressed: bool
    var buttonOffPressed: bool
    var durationFile: Option<seq<Byte>>

    const probe1: TemperatureSensor
    const probe2: TemperatureSensor
    const oilSensor: OilLevelSensor

    function State(): Ctl
      reads this
    {
      Ctl(machineState, lastState, lastStateChange, autoPowerOff, poweredTotal, poweredLast,
          runningTotal, runningLast, durationCounterSave, verifyButtonOnPressedTime,
          verifyButtonOnIsStillPressed, compressorIsOn, automaticPowerOnDenied,
          buttonOnPressed, buttonOffPressed, durationFile)
    }

    function CurrentErrors(): ErrorFlags
      reads probe1, probe2, oilSensor
    {
      Errors(probe1.Model(), probe2.Model(), oilSensor.Model())
    }

    function Snapshot(): System
      reads this, probe1, probe2, oilSensor
    {
      System(State(), probe1.Model(), probe2.Model(), oilSensor.Model())
    }

    ghost predicate Valid()
      reads this, probe1, probe2, oilSensor
    {
      probe1 != probe2 && probe1.Valid() && probe2.Valid() && oilSensor.Valid() && CtlInv(State())
    }

    /**
     * The static construction of the two probes and `setup`: the counters are
     * loaded from the duration file, the periodic save is armed, and each probe
     * is begun with whether the bus found it.
     */
    constructor Setup(now: nat, file: Option<seq<Byte>>, readIo: ReadOutcome, found1: bool, found2: bool)
      ensures Valid() && fresh(probe1) && fresh(probe2) && fresh(oilSensor)
      ensures State() == InitialCtl(now, Load(file, readIo, 0, 0), file)
      ensures probe1.Model() == BeginProbe(Construct(0, "Compressor", TEMP_IS_HIGH_LEVEL, TEMP_IS_TOO_HIGH_LEVEL), found1, now)
      ensures probe2.Model() == BeginProbe(Construct(1, "Motor", TEMP_IS_HIGH_LEVEL, TEMP_IS_TOO_HIGH_LEVEL), found2, now)
      ensures oilSensor.Model() == InitialOil
    {
      var counter := new ProbeCounter();
      var t1 := new TemperatureSensor(counter, TEMP_IS_HIGH_LEVEL, TEMP_IS_TOO_HIGH_LEVEL, "Compressor");
      var t2 := new TemperatureSensor(counter, TEMP_IS_HIGH_LEVEL, TEMP_IS_TOO_HIGH_LEVEL, "Motor");
      var oil := new OilLevelSensor();
      probe1, probe2, oilSensor := t1, t2, oil;
      machineState, lastState, lastStateChange := BOOTING, BOOTING, 0;
      autoPowerOff := 0;
      poweredLast, runningLast := 0, 0;
      verifyButtonOnPressedTime, verifyButtonOnIsStillPressed := 0, false;
      compressorIsOn, automaticPowerOnDenied := false, false;
      buttonOnPressed, buttonOffPressed := false, false;
      durationFile := file;
      var totals := Load(file, readIo, 0, 0);
      poweredTotal, runningTotal := totals.0, totals.1;
      durationCounterSave := now / 1000 + SAVE_DURATION_COUNTERS_WINDOW;
      new;
      t1.Begin(found1, now);
      t2.Begin(found2, now);
    }

    /** The remote-command handler registered with `onValidatedCmd`. */
    method OnCommand(cmd: string, now: nat, disabled: bool) returns (reply: CmdResult)
      modifies this
      ensures EventStep(State(), Some(reply)) ==
              HandleCommand(old(State()), cmd, now, disabled)
    {
      match Classify(cmd) {
        case StopCommand =>
          machineState := SWITCHEDOFF;
          compressorIsOn := false;
          reply := Claimed;
        case PowerOnCommand =>
          OnPowerOn(now, disabled);
          reply := Claimed;
        case OtherCommand =>
          reply := Declined;
      }
    }

    method OnPowerOn(now: nat, disabled: bool)
      modifies this
      ensures State() == PowerOnRequest(old(State()), now, disabled)
    {
      if !disabled {
        if machineState < POWERED {
          compressorIsOn := true;
          machineState := POWERED;
        }
        autoPowerOff := now + AUTOTIMEOUT;
      } else {
        automaticPowerOnDenied := true;
      }
    }

    /** The callbacks `node.loop()` may invoke. */
    method OnNodeEvent(e: NodeEvent, now: nat, hour: int) returns (reply: Option<CmdResult>)
      modifies this
      ensures EventStep(State(), reply) == HandleNodeEvent(old(State()), e, now, CurrentErrors(), hour)
    {
      match e {
        case NoEvent => reply := None;
        case Connected => machineState := SWITCHEDOFF; reply := None;
        case Disconnected => machineState := NOCONN; reply := None;
        case NodeError => machineState := TRANSIENTERROR; reply := None;
        case Command(cmd) =>
          var answer := OnCommand(cmd, now, CompressorIsDisabled(CurrentErrors(), hour, FirmwareLateHours));
          reply := Some(answer);
      }
    }

    method SaveDurationCounters(now: nat, io: WriteOutcome)
      requires ValidWrite(io)
      modifies this
      ensures State() == Save(old(State()), now, io)
    {
      var tmpCounter1 := poweredTotal;
      if machineState >= POWERED {
        tmpCounter1 := AddSeconds(poweredTotal, poweredLast, now);
      }
      var tmpCounter2 := runningTotal;
      if machineState == RUNNING {
        tmpCounter2 := AddSeconds(runningTotal, runningLast, now);
      }
      durationFile := SaveCounters(durationFile, tmpCounter1, tmpCounter2, io);
    }

    method RunCompressorLoop(now: nat, io: WriteOutcome)
      requires ValidWrite(io)
      modifies this
      ensures State() == CompressorLoop(old(State()), CurrentErrors(), now, io)
    {
      ForcedShutdown(now);
      automaticPowerOnDenied := false;
      CheckPeriodicSave(now, io);
    }

    method ForcedShutdown(now: nat)
      modifies this
      ensures State() == Shutdown(old(State()), CurrentErrors(), now)
    {
      if machineState > SWITCHEDOFF {
        if AnyError(CurrentErrors()) || now > autoPowerOff {
          compressorIsOn := false;
          machineState := SWITCHEDOFF;
        }
      }
    }

    method CheckPeriodicSave(now: nat, io: WriteOutcome)
      requires ValidWrite(io)
      modifies this
      ensures State() == PeriodicSave(old(State()), now, io)
    {
      if now / 1000 > durationCounterSave {
        durationCounterSave := now / 1000 + SAVE_DURATION_COUNTERS_WINDOW;
        SaveDurationCounters(now, io);
      }
    }

    method AccountStateChange(now: nat)
      modifies this
      ensures State() == Account(old(State()), now)
    {
      if lastState != machineState {
        AccountPoweredInterval(now);
        AccountRunningInterval(now);
        lastState := machineState;
        lastStateChange := now;
      }
    }

    method AccountPoweredInterval(now: nat)
      modifies this
      ensures State() == AccountPowered(old(State()), now)
    {
      if machineState >= POWERED && lastState < POWERED {
        poweredLast := now;
      } else if lastState >= POWERED && machineState < POWERED {
        poweredTotal := AddSeconds(poweredTotal, poweredLast, now);
      }
    }

    method AccountRunningInterval(now: nat)
      modifies this
      ensures State() == AccountRunning(old(State()), now)
    {
      if machineState == RUNNING && lastState < RUNNING {
        runningLast := now;
      } else if lastState == RUNNING && machineState < RUNNING {
        runningTotal := AddSeconds(runningTotal, runningLast, now);
      }
    }

    /** The on-button callback, run after the debounced level changed. */
    method OnButtonOn(now: nat, hour: int)
      modifies this
      ensures State() == ButtonOn(old(State()), now, CurrentErrors(), hour)
    {
      var errors := CurrentErrors();
      if buttonOnPressed && !AnyError(errors) && !buttonOffPressed && machineState == SWITCHEDOFF {
        OnPressFromSwitchedOff(now, CompressorIsDisabled(errors, hour, FirmwareLateHours));
      } else {
        OnOtherOnEdge(now);
      }
    }

    method OnPressFromSwitchedOff(now: nat, disabled: bool)
      modifies this
      ensures State() == PressFromSwitchedOff(old(State()), now, disabled)
    {
      if !disabled {
        compressorIsOn := true;
        machineState := POWERED;
        autoPowerOff := now + AUTOTIMEOUT;
        verifyButtonOnIsStillPressed := false;
      } else {
        verifyButtonOnPressedTime := now + MAX_WAIT_TIME_BUTTON_ON_PRESSED;
        verifyButtonOnIsStillPressed := true;
      }
    }

    method OnOtherOnEdge(now: nat)
      modifies this
      ensures State() == OtherOnEdge(old(State()), now)
    {
      if buttonOnPressed && machineState > SWITCHEDOFF {
        autoPowerOff := now + AUTOTIMEOUT;
      }
      verifyButtonOnIsStillPressed := false;
    }

    /** The off-button callback, run after the debounced level changed. */
    method OnButtonOff()
      modifies this
      ensures State() == ButtonOff(old(State()))
    {
      if buttonOffPressed && !buttonOnPressed && machineState >= POWERED {
        compressorIsOn := false;
        machineState := SWITCHEDOFF;
      }
    }

    method ApplyOpto(optoOn: bool)
      modifies this
      ensures State() == Opto(old(State()), optoOn)
    {
      if optoOn {
        if machineState == POWERED {
          machineState := RUNNING;
        }
      } else {
        if machineState == RUNNING {
          machineState := POWERED;
        }
      }
    }

    method UpdateButtonOn(onLevel: bool, now: nat, hour: int)
      modifies this
      ensures State() == OnEdge(old(State()), onLevel, now, CurrentErrors(), hour)
    {
      if onLevel != buttonOnPressed {
        buttonOnPressed := onLevel;
        OnButtonOn(now, hour);
      }
    }

    method UpdateButtonOff(offLevel: bool)
      modifies this
      ensures State() == OffEdge(old(State()), offLevel)
    {
      if offLevel != buttonOffPressed {
        buttonOffPressed := offLevel;
        OnButtonOff();
      }
    }

    method CheckOverride(now: nat)
      modifies this
      ensures State() == Override(old(State()), now)
    {
      if verifyButtonOnIsStillPressed {
        if now > verifyButtonOnPressedTime {
          if buttonOnPressed {
            verifyButtonOnIsStillPressed := false;
            compressorIsOn := true;
            machineState := POWERED;
            autoPowerOff := now + AUTOTIMEOUT;
          }
        }
      }
    }

    method ButtonsOptocouplerLoop(now: nat, optoOn: bool, onLevel: bool, offLevel: bool, hour: int)
      modifies this
      ensures State() == ButtonsOpto(old(State()), now, optoOn, onLevel, offLevel, CurrentErrors(), hour)
    {
      ApplyOpto(optoOn);
      UpdateButtonOn(onLevel, now, hour);
      UpdateButtonOff(offLevel);
      CheckOverride(now);
    }

    method ActOnState(now: nat, io: WriteOutcome) returns (reboot: bool, relayWrite: Option<bool>)
      requires ValidWrite(io)
      modifies this
      ensures ActStep(State(), reboot, relayWrite) == Actuate(old(State()), now, io)
    {
      reboot, relayWrite := false, None;
      if machineState == REBOOT {
        SaveDurationCounters(now, io);
        reboot := true;
      } else if machineState == SWITCHEDOFF {
        if compressorIsOn {
          relayWrite := Some(false);
          compressorIsOn := false;
        }
      } else if machineState == POWERED {
        if !compressorIsOn {
          relayWrite := Some(true);
          compressorIsOn := true;
        }
      } else if machineState == WAITINGFORCARD || machineState == CHECKINGCARD {
        machineState := REBOOT;
      }
    }

    /** `loop` up to the dwell-time check. */
    method FirstPhases(now: nat, inp: Inputs) returns (h: FirstHalf)
      requires Valid() && ValidWrite(inp.store)
      modifies this, probe1, probe2
      ensures h == RunFirstHalf(old(Snapshot()), now, inp)
      ensures State() == h.ctl && probe1.Model() == h.probe1.probe && probe2.Model() == h.probe2.probe
      ensures probe1.Valid() && probe2.Valid()
    {
      ghost var s := Snapshot();
      var reply := OnNodeEvent(inp.event, now, inp.hour);
      var refresh1 := probe1.Loop(now, inp.reading1);
      var refresh2 := probe2.Loop(now, inp.reading2);
      RunCompressorLoop(now, inp.store);
      AccountStateChange(now);
      h := FirstHalf(State(), ProbeStep(probe1.Model(), refresh1), ProbeStep(probe2.Model(), refresh2), reply);
    }

    /** `loop` after the dwell-time check. */
    method LastPhases(h: FirstHalf, now: nat, inp: Inputs) returns (out: Outputs)
      requires CtlInv(State()) && ValidWrite(inp.store) && oilSensor.Valid()
      requires probe1.Model() == h.probe1.probe && probe2.Model() == h.probe2.probe && State() == h.ctl
      modifies this, oilSensor
      ensures oilSensor.Valid()
      ensures CycleStep(Snapshot(), out) == RunSecondHalf(h, old(oilSensor.Model()), now, inp)
    {
      ghost var oil := oilSensor.Model();
      ghost var c := ButtonsOpto(h.ctl, now, inp.optoOn, inp.onLevel, inp.offLevel,
                                 Errors(h.probe1.probe, h.probe2.probe, oil), inp.hour);
      var refresh3 := ButtonsAndOil(now, inp);
      var reboot, relayWrite := ActOnState(now, inp.store);
      assert ActStep(State(), reboot, relayWrite) == Actuate(c, now, inp.store);
      out := Outputs(h.reply, h.probe1.refresh || h.probe2.refresh || refresh3, reboot, relayWrite);
    }

    /** `buttons_optocoupler_loop` followed by the oil monitor's `loop`. */
    method ButtonsAndOil(now: nat, inp: Inputs) returns (refresh: bool)
      requires oilSensor.Valid()
      modifies this, oilSensor
      ensures oilSensor.Valid() && unchanged(probe1, probe2)
      ensures State() == ButtonsOpto(old(State()), now, inp.optoOn, inp.onLevel, inp.offLevel,
                                     old(CurrentErrors()), inp.hour)
      ensures OilStep(oilSensor.Model(), refresh) == OilLoop(old(oilSensor.Model()), now, inp.oilTooLow)
    {
      ButtonsOptocouplerLoop(now, inp.optoOn, inp.onLevel, inp.offLevel, inp.hour);
      refresh := oilSensor.Loop(now, inp.oilTooLow);
    }

    /** The early return of `loop` when the current state has outstayed its row's time. */
    method TakeTimeout(target: MachineState)
      modifies this
      ensures State() == ApplyTimeout(old(State()), target)
    {
      lastState := machineState;
      machineState := target;
    }

    /** One pass of `loop` at time `now`. */
    method Step(now: nat, inp: Inputs) returns (out: Outputs)
      requires Valid() && ValidWrite(inp.store)
      modifies this, probe1, probe2, oilSensor
      ensures Valid()
      ensures CycleStep(Snapshot(), out) == Cycle(old(Snapshot()), now, inp)
    {
      ghost var s0 := Snapshot();
      var h := FirstPhases(now, inp);
      assert oilSensor.Model() == s0.oil;
      var timeout := DwellTimeout(machineState, now - lastStateChange);
      assert timeout == TimeoutAfter(h, now);
      if timeout.Some? {
        TakeTimeout(timeout.value);
        out := Outputs(h.reply, h.probe1.refresh || h.probe2.refresh, false, None);
        assert Snapshot() == System(ApplyTimeout(h.ctl, timeout.value), h.probe1.probe, h.probe2.probe, s0.oil);
        return;
      }
      out := LastPhases(h, now, inp);
    }
  }
}

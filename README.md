# Compressor node: a verified model of its control logic

The compressor node is an ESP32 board that switches the relay of a workshop
air compressor. It powers the compressor on from a local button or from a
remote `poweron` command, and switches it off:

- from the off button or a remote `stop`;
- after 30 minutes without renewal;
- as soon as an oil-level or temperature error is confirmed.

Between 04:00 and 05:00 it refuses to power on. Holding the on button for
more than 10 s overrides this. The node counts the seconds the compressor is
powered and running, and keeps those totals in a small file across reboots.

This project models, in Dafny:

- the machine-state controller of `main.cpp`: node events, remote commands, buttons, opto feedback, the forced shutdown, the table-driven dwell timeout, the interlock, the manual override, the duration accounting, the encoding of the saved counters, and the per-state actuation;
- the temperature monitor of `TempSensor.cpp`/`TempSensor.h`;
- the oil-level monitor of `OilLevelSensor.cpp`;
- the state constants of `MachState.h`.

The firmware changes global variables and object fields step by step, so
each entity is a Dafny class:

- `TempSensor.TemperatureSensor`;
- `OilLevel.OilLevelSensor`;
- `Controller.CompressorNode`, which owns the two probes and the oil monitor.

Each method that changes state is proved against a function on a record of
the class's fields (`Model()` or `State()`). The properties are proved
about those functions. `CompressorNode.Step` is one pass of `loop()`. It is
proved to equal `Controller.Cycle`. `Cycle` runs the firmware's phases in
the firmware's order, with a single `now`:

1. node events
2. both probes
3. `compressorLoop`
4. accounting
5. dwell timeout, which returns early
6. buttons and opto
7. oil monitor
8. per-state switch

The lemmas in `ControllerProperties` are about whole cycles.

Module layout: `MachState` (constants), `StateTable` (the per-state table),
`Interlock` (`compressorIsDisabeled`), `DurationStore` (the counter file),
`TempSensor`, `OilLevel`, `Controller` (the control logic and the node
class), `ControllerProperties` (multi-phase properties), and `Wrappers`
(`Option`).

## How the model reads the source

- **The state table is shifted by one.**
  - The table at main.cpp:152-169 is declared with `RUNNING + 1` rows but initialised from index 0. It is indexed by the state value, and `BOOTING = 1`.
  - So state s reads the row written for state s + 1, and row RUNNING is zero-filled.
  - The model keeps the table exactly as written (`StateTable.Table`). `RowsShiftedByOne` and `NoConnectionNeverTimesOut` prove the consequences.
  - Only BOOTING, OUTOFORDER, REBOOT and TRANSIENTERROR ever time out, after more than 120 s, and always to REBOOT.
  - NOCONN never times out, although the row written for "No network" has a 120 s limit.
- **Override completion does not re-check the sensors.** The check at main.cpp:723-737 does not consult the error flags. `ControllerProperties.OverrideCompletesDespiteErrors` proves that it powers on regardless.
- **NOCONN leaves the relay as it was.** A NOCONN entered while the relay is on leaves it on for as long as the node stays in NOCONN (`LostConnectionLeavesRelayAlone`). Below SWITCHEDOFF neither the forced shutdown nor the per-state switch acts.
- **Saves compare against markers that always stay 0.** `lastSavedPoweredCounter`/`lastSavedRunningCounter` start at 0 and are never assigned. So a save is skipped exactly when both live totals are 0. `DurationStore.LAST_SAVED_POWERED` and `LAST_SAVED_RUNNING` are these constants.
- **A dip into the warning band keeps the confirm timer running.** Above the error level the temperature confirm timer starts. A dip into the warning band before confirmation does not reset it: no branch of TempSensor.cpp:133-144 does (`TempSensor.Evaluate`).
- **`compressorIsOn` is the relay level.** Every relay write in main.cpp is paired with an assignment to `compressorIsOn`. `Outputs.relayWrite` records only the per-state switch's own write (main.cpp:1004-1021).
- **A button's callback sees the other button's level at that moment.** `buttonOn.update()` runs before `buttonOff.update()` (main.cpp:695-696). So the on-button callback sees the off button's previous level, and the off-button callback sees the on button's new level. `OnEdge`/`OffEdge` follow this order.
- **The interlock's error flags depend on where it is consulted.**
  - A remote command is handled inside `node.loop()`, before the probes run. It therefore sees the previous cycle's flags.
  - `compressorLoop` and the buttons see the flags after both probe loops, together with the previous cycle's oil flag. The oil monitor runs after them.
- **Constructor arity.** TempSensor.h:27 declares a two-argument constructor. TempSensor.cpp:29 and main.cpp:188 use three arguments. The model follows the `.cpp`.
- **Error flags are per-probe fields.** main.cpp:411 reads `ErrorTempIsTooHigh` as a member. The flag actually lives in the global arrays of TempSensor.cpp:24-26. Each probe's share of those arrays is a field of its record.
- **Integers.** `unsigned long` is 32 bits on the ESP32. The totals are `Uint32`, and each addition is reduced modulo 2^32 (`Controller.AddSeconds`). The saved file is the two words' little-endian bytes.

## Model

| member | source | states |
|---|---|---|
| MachState.Energised | MachState.h:16-18 | `> SWITCHEDOFF` agrees with `>= POWERED` on every value; on defined states it means POWERED or RUNNING |
| MachState.ConstantsStrictlyIncreasing | MachState.h:9-18 | the ten constants are 1..10 in declaration order, strictly increasing; a value is a state iff it is one of them |
| MachState.EnergisedStates | MachState.h:16-18 | RUNNING is the largest state and POWERED = SWITCHEDOFF + 1, so the energised states are exactly POWERED and RUNNING |
| MachState.NonRestingStatesBelowSwitchedOff | MachState.h:9-15 | boot, error, connection and card states all lie below SWITCHEDOFF and are not energised |
| StateTable.DwellTimeout | main.cpp:981-990 | using the table as written, a state times out iff it is at most TRANSIENTERROR and more than 120000 ms have passed since the last change; the target is always REBOOT |
| StateTable.RowsShiftedByOne | main.cpp:152-169 | the table has RUNNING + 1 rows; the entry written for each state s sits at index s − 1, so the row read for each state below RUNNING carries the name written for the next state; row NOCONN is the "Waiting for card" entry (NEVER), and row RUNNING is zero-filled |
| StateTable.NoConnectionNeverTimesOut | main.cpp:163-169 | NOCONN, SWITCHEDOFF, POWERED and RUNNING never time out, however long they last |
| DurationStore.DecodeEncode | main.cpp:330-346 | any value below 256^n, written as n little-endian bytes, decodes back to itself |
| DurationStore.EncodeDecode | main.cpp:370-389 | any byte sequence is the little-endian encoding of its value |
| DurationStore.WordBytes | main.cpp:330 | a counter is written as 4 bytes that decode back to it |
| DurationStore.Overlay | main.cpp:370 | a short `readBytes` replaces only the low-order bytes of the variable; 4 bytes give the decoded value; no bytes leave it as it was |
| DurationStore.SaveCounters | main.cpp:302-349 | the file changes only when it opened and a total differs from the never-updated 0 marker; a complete write leaves exactly powered then running; a short first write leaves only its bytes, without the second word; after a complete first word, the second write leaves exactly the bytes it accepted |
| DurationStore.Load | main.cpp:351-399 | a missing file, an unmounted file system or a failed open leave the totals unchanged; a file of 8 or more bytes gives the words at 0..4 and 4..8; a file shorter than 4 bytes overlays only the powered total's low-order bytes and leaves the running total unchanged; a file of 4 to 7 bytes gives the first word and overlays the running total's low-order bytes with the rest |
| DurationStore.SaveThenLoad | main.cpp:302-399 | a complete save of totals that are not both 0, followed by a good load, gives back both totals |
| DurationStore.EightByteFileRoundTrip | main.cpp:370-389 | an 8-byte file loads to two totals whose encodings reproduce the file |
| Interlock.LateWindowIsCyclicInterval | main.cpp:410-424 | both branches of the window test are one cyclic interval: hour ∈ window iff (hour − start) mod 24 < length of the window |
| Interlock.CompressorIsDisabled | main.cpp:401-425 | any error flag disables; when the late-hours flag is off, the result is exactly "an error flag is set"; without errors and with the flag on, it is exactly the window test |
| Interlock.DisabledIffErrorOrInCyclicWindow | main.cpp:401-425 | for hours and bounds in 0..23: disabled iff an error flag is set or the flag is on and the hour is in the cyclic window |
| Interlock.FirmwareBlocksOnlyHourFour | main.cpp:116-118 | with the firmware's settings (enabled, 4 to 5) and no errors, exactly hour 4 is blocked |
| TempSensor.ConversionTimeIs750 | TempSensor.cpp:33 | the conversion time at 12-bit resolution is 750 ms |
| TempSensor.Construct | TempSensor.h:16-24 | a new probe is unavailable, its timer is unset (0), its next-reading time is 0, `previousTemperature` is -500, both flags are clear, and the conversion time is 750 |
| TempSensor.BeginProbe | TempSensor.cpp:37-58 | `begin` clears both flags and records availability; a missing probe shows -127; a found probe is due one conversion time later with 3 retries |
| TempSensor.Evaluate | TempSensor.cpp:95-145 | the warning flag is on iff the temperature exceeds the warning level; error implies warning; the display hint is set iff the error flag changes; at or below the warning level everything clears; the first sample above the error level only starts the timer; with the timer running, a sample above the error level keeps the timer and raises the error iff it comes more than 10 s after the timer started; a confirmed error stays above the error level and drops back to a warning in the warning band, while a pending timer is kept |
| TempSensor.ProbeLoop | TempSensor.cpp:60-147 | a probe that is undetected or not yet due is unchanged; a -127 reading with retries left uses one retry and reschedules; otherwise the budget is restored to 3, the next reading is scheduled, the stored temperature changes only on a valid reading different from the previous one, and the flags and display hint are the threshold evaluation of that stored temperature; the invariant is kept and the thresholds are untouched |
| TempSensor.UndetectedProbeNeverChanges | TempSensor.cpp:61-63 | a probe `begin` did not find is left unchanged by `loop` over any sequence of samples |
| TempSensor.RunKeepsProbeInv | TempSensor.cpp:95-145 | over any run of samples, error implies warning, a set timer implies warning, and the retry budget stays in 0..3 |
| TempSensor.NoErrorWithinConfirmWindow | TempSensor.cpp:119-131 | samples within 10 s of a time no earlier than the timer's start never raise the error |
| TempSensor.ErrorRaisedWhileTooHot | TempSensor.cpp:119-131 | with the timer started, while every reading is valid and above both levels and each sample is due, a run whose last sample is more than 10 s after the timer's start ends with the error raised |
| TempSensor.ErrorStaysWhileTooHot | TempSensor.cpp:119-144 | while every reading stays above the error level, a confirmed error is never cleared |
| TempSensor.FirstValidReadingIsStored | TempSensor.cpp:64-82 | because the previous reading starts at -500, the first due valid reading of a probe found at `begin` is stored |
| TempSensor.ProbeCounter.constructor | TempSensor.cpp:23 | probe numbering starts at 0 |
| TempSensor.TemperatureSensor.constructor | TempSensor.cpp:29-35 | the probe takes the next number, below MAX_TEMP_SENSORS = 2, and starts as `Construct` says |
| TempSensor.TemperatureSensor.Begin | TempSensor.cpp:37-58 | the fields become `BeginProbe` of the old fields; the probe invariant holds afterwards when the timer was unset, as it is after construction |
| TempSensor.TemperatureSensor.Loop | TempSensor.cpp:60-147 | the fields and the display hint become `ProbeLoop` of the old fields and the reading; the probe invariant is kept |
| TempSensor.TemperatureSensor.StoreReading | TempSensor.cpp:79-94 | stores a valid, changed reading, restores the retry budget and schedules the next conversion |
| TempSensor.TemperatureSensor.EvaluateThresholds | TempSensor.cpp:95-145 | the fields and the display hint become `Evaluate` of the old fields |
| OilLevel.OilLoop | OilLevelSensor.cpp:36-76 | a low level warns at once; an OK level resets everything, hinting the display iff an error was set; the first low sample starts the timer; a later one confirms iff `now − start >= 10000`; the error never clears while the level is low; the hint is set on the rising edge, and iff the error changes when the invariant holds |
| OilLevel.OilRunKeepsInv | OilLevelSensor.cpp:38-70 | over any run, error implies warning and a set timer, and the previous-error flag equals the error flag |
| OilLevel.OilErrorStaysWhileLow | OilLevelSensor.cpp:38-61 | while every sample is low, a confirmed error stays |
| OilLevel.OilNoErrorWithinWindow | OilLevelSensor.cpp:41-45 | samples less than 10 s after a time no earlier than the timer's start never raise the error |
| OilLevel.OilLevelSensor.constructor | OilLevelSensor.cpp:17-22 | all flags start clear and the timer unset |
| OilLevel.OilLevelSensor.Loop | OilLevelSensor.cpp:36-76 | the flags and the display hint become `OilLoop` of the old flags and the level |
| Controller.InitialCtl | main.cpp:451-452 | after `setup` the node is BOOTING with the relay off, no override pending, and the periodic save armed 86400 s ahead |
| Controller.Lower | main.cpp:557 | lower-casing keeps the length and maps each character by itself |
| Controller.SameIgnoringCase | main.cpp:557 | `strcasecmp(a, b) == 0` iff both strings are equal once lower-cased |
| Controller.Classify | main.cpp:557-583 | a command is `stop` iff it equals "stop" ignoring case, and is `poweron` iff it is not stop and equals "poweron" ignoring case |
| Controller.HandleCommand | main.cpp:556-584 | `stop` switches off from any state with the relay off; `poweron` when not disabled re-arms the switch-off deadline and powers on only from below POWERED; when disabled it only records the denial; both are claimed and anything else is declined; no command touches the counters, the override or `laststate` |
| Controller.PowerOnRequest | main.cpp:567-582 | disabled: only the denial flag; otherwise POWERED with the relay on from below POWERED, the state unchanged from above, and the deadline re-armed in both cases |
| Controller.HandleNodeEvent | main.cpp:544-554 | connect, disconnect and error set SWITCHEDOFF, NOCONN and TRANSIENTERROR unconditionally; a command goes to the command handler with the interlock's verdict; only commands change the relay |
| Controller.LiveTotals | main.cpp:306-316 | below POWERED the stored totals; when energised the powered total plus the open interval's whole seconds, modulo 2^32; the running total likewise only in RUNNING |
| Controller.Save | main.cpp:302-349 | only the duration file changes, to what `SaveCounters` writes for the live totals |
| Controller.Account | main.cpp:959-979 | without a state change nothing changes; entering the powered states opens the interval at `now`; leaving them adds its whole seconds to the total; the same holds for RUNNING; a change crossing neither boundary touches no counter; a change records the new state and its time; nothing else changes |
| Controller.CompressorLoop | main.cpp:770-845 | an energised compressor with an error flag or past its deadline is switched off with the relay off; otherwise state and relay stay; the denial flag is cleared; a due save re-arms 86400 s ahead, and without one the file is untouched; nothing else changes |
| Controller.Shutdown | main.cpp:777-792 | switches off with the relay off exactly when energised and an error flag is set or the deadline has strictly passed |
| Controller.PeriodicSave | main.cpp:836-845 | when `now/1000` exceeds the save time, re-arms it 86400 s ahead and saves; otherwise nothing changes |
| Controller.ApplyTimeout | main.cpp:983-984 | the state becomes the target and `laststate` records the state left; nothing else changes |
| Controller.Opto | main.cpp:683-693 | light moves only POWERED to RUNNING and no light only RUNNING to POWERED; only the state can change |
| Controller.ButtonOn | main.cpp:467-510 | a press from SWITCHEDOFF without errors, with the off button released, powers on and re-arms the deadline unless the interlock disables it, in which case it arms the override 10 s ahead; any other edge drops the override, and a press while energised only re-arms the deadline; the state changes only from SWITCHEDOFF to POWERED |
| Controller.ButtonOff | main.cpp:512-535 | a press switches off from POWERED or RUNNING unless the on button is held; otherwise nothing changes |
| Controller.Override | main.cpp:723-737 | when the override is pending, the deadline has strictly passed and the button is held, powers on and re-arms the deadline without consulting the error flags; otherwise nothing changes |
| Controller.OnEdge | main.cpp:695 | the on button's new level is recorded; on an edge the result is the on-button callback on the new level, and without one nothing changes; accounting is untouched |
| Controller.OffEdge | main.cpp:696 | the off button's new level is recorded; on an edge the result is the off-button callback on the new level, and without one nothing changes; accounting is untouched |
| Controller.ButtonsOpto | main.cpp:679-768 | the button levels end as delivered, the state stays a defined state, and no counter, save time or file changes |
| Controller.Actuate | main.cpp:996-1037 | the relay is written iff SWITCHEDOFF with it on or POWERED with it off, and then matches the state; SWITCHEDOFF ends off and POWERED ends on; other states leave the relay alone; the reboot is requested iff REBOOT, after a save; the card states fall back to REBOOT |
| Controller.RunFirstHalf | main.cpp:939-979 | events, probes, `compressorLoop` and accounting keep the states defined and the probe invariants; a reply comes iff the event is a command |
| Controller.RunSecondHalf | main.cpp:992-1037 | buttons, oil monitor and actuation keep the states defined and the oil invariant, leave the probes as they are, and pass the reply on |
| Controller.Cycle | main.cpp:939-1039 | one pass of `loop` keeps every invariant of the controller, the probes and the oil monitor; the reply is the command handler's |
| Controller.CompressorNode.Setup | main.cpp:427-677 | fresh probes numbered 0 and 1 ("Compressor", "Motor", levels 28 and 30), begun with whether they were found; the counters loaded from the file; the oil monitor clear; the node state `InitialCtl` |
| Controller.CompressorNode.OnCommand | main.cpp:556-584 | the node's variables and reply become `HandleCommand` |
| Controller.CompressorNode.OnPowerOn | main.cpp:567-582 | the node's variables become `PowerOnRequest` |
| Controller.CompressorNode.OnNodeEvent | main.cpp:544-584 | the node's variables and reply become `HandleNodeEvent` with the current error flags |
| Controller.CompressorNode.SaveDurationCounters | main.cpp:302-349 | the node's variables become `Save` |
| Controller.CompressorNode.RunCompressorLoop | main.cpp:770-845 | the node's variables become `CompressorLoop` with the current error flags |
| Controller.CompressorNode.ForcedShutdown | main.cpp:777-792 | the node's variables become `Shutdown` |
| Controller.CompressorNode.CheckPeriodicSave | main.cpp:836-845 | the node's variables become `PeriodicSave` |
| Controller.CompressorNode.AccountStateChange | main.cpp:959-979 | the node's variables become `Account` |
| Controller.CompressorNode.AccountPoweredInterval | main.cpp:965-970 | opens or closes the powered interval on the state edge |
| Controller.CompressorNode.AccountRunningInterval | main.cpp:971-976 | opens or closes the running interval on the state edge |
| Controller.CompressorNode.OnButtonOn | main.cpp:467-510 | the node's variables become `ButtonOn` with the current error flags |
| Controller.CompressorNode.OnPressFromSwitchedOff | main.cpp:471-489 | powers on, or arms the override when disabled |
| Controller.CompressorNode.OnOtherOnEdge | main.cpp:490-495 | re-arms the deadline for a press while energised and drops the override |
| Controller.CompressorNode.OnButtonOff | main.cpp:512-535 | the node's variables become `ButtonOff` |
| Controller.CompressorNode.ApplyOpto | main.cpp:683-693 | the node's variables become `Opto` |
| Controller.CompressorNode.UpdateButtonOn | main.cpp:695 | the node's variables become `OnEdge` |
| Controller.CompressorNode.UpdateButtonOff | main.cpp:696 | the node's variables become `OffEdge` |
| Controller.CompressorNode.CheckOverride | main.cpp:723-737 | the node's variables become `Override` |
| Controller.CompressorNode.ButtonsOptocouplerLoop | main.cpp:679-768 | the node's variables become `ButtonsOpto` with the current error flags |
| Controller.CompressorNode.ActOnState | main.cpp:996-1037 | the node's variables and the reported reboot and relay write become `Actuate` |
| Controller.CompressorNode.FirstPhases | main.cpp:939-979 | the node and both probes become `RunFirstHalf` of the old snapshot |
| Controller.CompressorNode.LastPhases | main.cpp:992-1037 | the node and the oil monitor become `RunSecondHalf` |
| Controller.CompressorNode.ButtonsAndOil | main.cpp:992-994 | the node's variables become `ButtonsOpto` and the oil monitor becomes `OilLoop`; the probes are unchanged |
| Controller.CompressorNode.TakeTimeout | main.cpp:981-990 | the node's variables become `ApplyTimeout` |
| Controller.CompressorNode.Step | main.cpp:939-1039 | one pass of `loop` keeps the node valid, and the new snapshot and outputs are exactly `Cycle` of the old snapshot |
| ControllerProperties.CycleWithoutTimeout | main.cpp:981-992 | without a dwell timeout the cycle goes on to the buttons, the oil monitor and the actions |
| ControllerProperties.SensorErrorForcesSwitchOff | main.cpp:777-784 | a sensor error while energised, without a pending override, leaves the cycle in SWITCHEDOFF with the relay off, whatever the buttons, opto and clock do |
| ControllerProperties.OffPressSwitchesOff | main.cpp:514-519 | an off press while energised, with the on button released, ends the cycle in SWITCHEDOFF with the relay off, whatever the sensors, opto and clock do |
| ControllerProperties.OverrideCompletesDespiteErrors | main.cpp:723-737 | a pending override whose deadline has passed, with the button held, powers on from SWITCHEDOFF whatever the error flags say |
| ControllerProperties.LateHourPressThenHoldPowersOn | main.cpp:479-488 | at hour 4 without errors a press is denied and arms the override; a later cycle more than 10 s on, with the button still held, powers on with the relay on |
| ControllerProperties.ReleaseCancelsOverride | main.cpp:495 | releasing the on button cancels a pending override and stays in SWITCHEDOFF |
| ControllerProperties.LostConnectionLeavesRelayAlone | main.cpp:1032-1036 | a disconnect, or a quiet cycle in NOCONN, ends in NOCONN with the relay as it was and no relay write |
| ControllerProperties.NoConnectionButtonsAndActions | main.cpp:1032-1036 | in NOCONN without a pending override, the buttons, opto and per-state switch change neither the state nor the relay |
| ControllerProperties.TimeoutEndsCycle | main.cpp:981-990 | a timeout happens only at most TRANSIENTERROR after more than 120 s; it moves to REBOOT, recording the state left, skips the oil monitor and the actions, and requests no reboot |
| ControllerProperties.TimeoutLeadsToReboot | main.cpp:981-1000 | a timeout out of a state other than REBOOT is followed, in the next quiet cycle, by the reboot request |
| ControllerProperties.EnteringRebootRequestsReboot | main.cpp:997-1000 | the first cycle after REBOOT was entered reaches the per-state switch and requests the reboot |
| ControllerProperties.RepeatedPowerOnOnlyRearmsTimeout | main.cpp:567-582 | `poweron` while energised is claimed and only re-arms the deadline: the state, the open intervals and the dwell clock stay |
| ControllerProperties.RemotePowerOnOpensPoweredInterval | main.cpp:965-966 | `poweron` from SWITCHEDOFF, allowed by the interlock, powers on with the relay on and opens the powered interval at `now` |
| ControllerProperties.LiveTotalsMatchAccounting | main.cpp:306-316 | the live totals a save writes equal what the accounting would store on switching off now |
| ControllerProperties.PoweredIntervalIsAccounted | main.cpp:965-970 | a powered interval from t0 to t1 adds (t1 − t0) div 1000 to the total, modulo 2^32 |
| ControllerProperties.RebootSaveIsLoadedAtSetup | main.cpp:997-999 | REBOOT requests the reboot, and after a complete save the next load reads back both totals, unless both are 0 |

## Left out

- Display, LEDs and status messages (OledDisplay, LED1/LED2 writes, blink schedules at main.cpp:739-755 and 794-807): user interface. `nextTimeDisplay` is only reported as `Outputs.refresh`, and the LED column of the state table is dropped.
- The display and report flags `isManualSwitchedOn`, `isManualSwitchedOnVerifyOverride`, `isManualSwitchedOff`, `isManualTimeOutExtended`, `automaticStopReceived`, `automaticPowerOnReceived` and the `ledDisable` timers: they only select messages. `automaticPowerOnDenied` is kept, because `compressorLoop` clears it.
- The pressure sensor: floating-point ADC conversion and calibration logging.
- The info/calibration mode (main.cpp:497-508, 526-533, 537-540, 757-767) and the saves it triggers: calibration user interface.
- Reports and logging (main.cpp:586-648, 858-936, and every log line): text formatting. Rate-limited logging in the oil monitor is kept as state but has no effect on the flags.
- The network, NTP and SPIFFS: the ACNode/MQTT/OTA/telnet plumbing is out of scope. The hour is an input. Node events and commands arrive as `Inputs.event`. File-system outcomes are inputs (`WriteOutcome`, `ReadOutcome`), and the file is a byte sequence.
- Hardware drivers: `ButtonDebounce`/`OptoDebounce` are not modelled; the debounced levels are inputs, and both buttons start released. The one-wire bus is not modelled either; probe detection and readings are inputs.
- The EEPROM-and-cache clear at boot (main.cpp:233-300): a busy-wait hardware routine.
- The relay write at the start of `setup` is not reported as an output; `compressorIsOn` starts false, as it does there.
- Controller.CompressorNode.Step: `millis()` is read once per cycle as `now` and never wraps (times are unbounded naturals, and the clock is assumed monotone). `unsigned long` wrap-around of the uptime after 49 days is not modelled.
- Controller.Inputs: one file-system outcome (`store`) per cycle serves both saves a cycle can make, the periodic save in `compressorLoop` and the save in REBOOT, so a cycle in which both happen cannot have them fail differently.
- Temperatures are reals compared with thresholds, not 32-bit floats.
- `labelTempSensor`'s 20×2 layout is not modelled; each probe keeps its label as a string.

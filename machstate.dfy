/**
 * The machine-state constants of MachState.h. The firmware keeps the state in a
 * `uint8_t` and relies on the numeric order of the constants: every "energised"
 * test in main.cpp is written either as `> SWITCHEDOFF` or as `>= POWERED`.
 */
module MachState {

  /** `machinestates_t` is a `uint8_t`. */
  type MachineState = s: int | 0 <= s < 256

  const BOOTING: MachineState := 1         // startup state
  const OUTOFORDER: MachineState := 2      // device not functional
  const REBOOT: MachineState := 3          // forced reboot
  const TRANSIENTERROR: MachineState := 4  // error that hopefully goes away
  const NOCONN: MachineState := 5          // no network connection
  const WAITINGFORCARD: MachineState := 6  // legacy card-reader state
  const CHECKINGCARD: MachineState := 7    // legacy card-reader state
  const SWITCHEDOFF: MachineState := 8     // compressor switched off completely
  const POWERED: MachineState := 9         // compressor powered, motor off
  const RUNNING: MachineState := 10        // compressor powered, motor running

  /** The constants in declaration order. */
  const AllStates: seq<MachineState> :=
    [BOOTING, OUTOFORDER, REBOOT, TRANSIENTERROR, NOCONN,
     WAITINGFORCARD, CHECKINGCARD, SWITCHEDOFF, POWERED, RUNNING]

  /** A value the firmware actually uses as a state. */
  predicate IsState(s: int) {
    BOOTING <= s <= RUNNING
  }

  /**
   * The firmware's "energised" test `machinestate > SWITCHEDOFF`. Because
   * POWERED directly follows SWITCHEDOFF and RUNNING is the largest constant,
   * it agrees with `>= POWERED` and, on defined states, means POWERED or RUNNING.
   */
  function Energised(s: MachineState): (r: bool)
    ensures r <==> s >= POWERED
    ensures IsState(s) ==> (r <==> s == POWERED || s == RUNNING)
  {
    s > SWITCHEDOFF
  }

  /** The constants are BOOTING = 1 through RUNNING = 10, strictly increasing. */
  lemma ConstantsStrictlyIncreasing()
    ensures |AllStates| == 10
    ensures forall i :: 0 <= i < |AllStates| ==> AllStates[i] == i + 1
    ensures forall i, j :: 0 <= i < j < |AllStates| ==> AllStates[i] < AllStates[j]
    ensures forall s :: IsState(s) <==> s in AllStates
  {
  }

  /** RUNNING is the largest state and POWERED = SWITCHEDOFF + 1. */
  lemma EnergisedStates()
    ensures forall s :: s in AllStates ==> s <= RUNNING
    ensures POWERED == SWITCHEDOFF + 1
    ensures forall s: MachineState :: IsState(s) ==> (Energised(s) <==> s in {POWERED, RUNNING})
  {
  }

  /** Boot, error, connection and card states all lie below SWITCHEDOFF. */
  lemma NonRestingStatesBelowSwitchedOff()
    ensures forall s :: s in AllStates[..7] ==> s < SWITCHEDOFF && !Energised(s)
    ensures AllStates[..7] == [BOOTING, OUTOFORDER, REBOOT, TRANSIENTERROR, NOCONN, WAITINGFORCARD, CHECKINGCARD]
  {
  }
}

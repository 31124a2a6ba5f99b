/**
 * The per-state table of main.cpp. It is declared with RUNNING + 1 = 11 rows
 * but its initialiser, which lists one entry per state starting with BOOTING's,
 * fills the array from index 0. The firmware indexes it with the state value,
 * so the row it consults for state s is the entry written for state s + 1, and
 * row RUNNING is zero-filled. The table is modelled exactly as written.
 * The LED pattern column only drives the status LED and is not modelled.
 */
module StateTable {
  import opened Wrappers
  import opened MachState

  /** The name column (`label` in main.cpp): a C string, null in the zero-filled row. */
  datatype Label = Text(text: string) | NullLabel

  datatype StateRow = StateRow(name: Label, maxTime: nat, failState: MachineState)

  /** A maximum dwell time of 0 means the state never times out. */
  const NEVER: nat := 0

  const Table: seq<StateRow> := [
    StateRow(Text("Booting"), 120 * 1000, REBOOT),
    StateRow(Text("Out of order"), 120 * 1000, REBOOT),
    StateRow(Text("Rebooting"), 120 * 1000, REBOOT),
    StateRow(Text("Transient Error"), 120 * 1000, REBOOT),
    StateRow(Text("No network"), 120 * 1000, REBOOT),
    StateRow(Text("Waiting for card"), NEVER, REBOOT),
    StateRow(Text("Checking card"), NEVER, REBOOT),
    StateRow(Text("Compressor switched off"), NEVER, SWITCHEDOFF),
    StateRow(Text("Powered - motor off"), NEVER, POWERED),
    StateRow(Text("Powered - motor running"), NEVER, RUNNING),
    StateRow(NullLabel, 0, 0)
  ]

  /**
   * The dwell-time check of `loop`: the state times out when its row has a
   * maximum other than NEVER and the time since the last state change is
   * strictly greater than it. As written, only BOOTING, OUTOFORDER, REBOOT and
   * TRANSIENTERROR time out, each after more than 120 s, and always to REBOOT.
   */
  function DwellTimeout(s: MachineState, elapsed: int): (r: Option<MachineState>)
    requires s <= RUNNING
    ensures r.Some? <==> s <= TRANSIENTERROR && elapsed > 120000
    ensures r.Some? ==> r.value == REBOOT
  {
    var row := Table[s];
    if row.maxTime != NEVER && elapsed > row.maxTime then Some(row.failState) else None
  }

  /** The name the table's initialiser writes for each state, in the order of the states. */
  function WrittenName(s: MachineState): string
    requires IsState(s)
  {
    if s == BOOTING then "Booting"
    else if s == OUTOFORDER then "Out of order"
    else if s == REBOOT then "Rebooting"
    else if s == TRANSIENTERROR then "Transient Error"
    else if s == NOCONN then "No network"
    else if s == WAITINGFORCARD then "Waiting for card"
    else if s == CHECKINGCARD then "Checking card"
    else if s == SWITCHEDOFF then "Compressor switched off"
    else if s == POWERED then "Powered - motor off"
    else "Powered - motor running"
  }

  /**
   * The entry written for state s sits at index s - 1, so the row consulted
   * for each state below RUNNING is the entry written for the next state,
   * and row RUNNING is zero-filled.
   */
  lemma RowsShiftedByOne()
    ensures |Table| == RUNNING + 1
    ensures forall s: MachineState :: IsState(s) ==> Table[s - 1].name == Text(WrittenName(s))
    ensures forall s: MachineState :: BOOTING <= s < RUNNING ==> Table[s].name == Text(WrittenName(s + 1))
    ensures Table[NOCONN] == StateRow(Text("Waiting for card"), NEVER, REBOOT)
    ensures Table[RUNNING] == StateRow(NullLabel, NEVER, 0)
  {
  }

  /** As written, losing the network connection is never timed out to REBOOT. */
  lemma NoConnectionNeverTimesOut(elapsed: int)
    ensures DwellTimeout(NOCONN, elapsed) == None
    ensures DwellTimeout(SWITCHEDOFF, elapsed) == None
    ensures DwellTimeout(POWERED, elapsed) == None && DwellTimeout(RUNNING, elapsed) == None
  {
  }
}

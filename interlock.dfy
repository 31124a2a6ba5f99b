/**
 * `compressorIsDisabeled` of main.cpp: the compressor may not be powered on
 * while any sensor reports a confirmed error, nor, when late-hours disabling
 * is configured, during a window of hours that may wrap past midnight.
 */
module Interlock {

  /** The late-hours configuration: DISABLE_COMPRESSOR_AT_LATE_HOURS, DISABLED_TIME_START/END. */
  datatype LateHours = LateHours(enabled: bool, start: int, end: int)

  /** The firmware's configuration: disabled from 4 h up to (not including) 5 h. */
  const FirmwareLateHours := LateHours(true, 4, 5)

  /** The error flags the interlock consults: the oil monitor's and both temperature probes'. */
  datatype ErrorFlags = ErrorFlags(oil: bool, temp1: bool, temp2: bool)

  predicate AnyError(e: ErrorFlags) {
    e.oil || e.temp1 || e.temp2
  }

  /** The window test as the firmware writes it, with a separate case for a window wrapping midnight. */
  predicate InLateWindow(hour: int, start: int, end: int) {
    if start < end then start <= hour < end else hour >= start || hour < end
  }

  /** The number of blocked hours: a window whose start is not before its end wraps midnight. */
  function WindowLength(start: int, end: int): int {
    if start < end then end - start else end - start + 24
  }

  /**
   * Both cases of the firmware's test describe one cyclic interval of hours:
   * those reached from `start` by stepping forward fewer than WindowLength hours.
   */
  lemma LateWindowIsCyclicInterval(hour: int, start: int, end: int)
    requires 0 <= hour < 24 && 0 <= start < 24 && 0 <= end < 24
    ensures InLateWindow(hour, start, end) <==> (hour - start) % 24 < WindowLength(start, end)
  {
    if hour >= start {
      assert (hour - start) % 24 == hour - start;
    } else {
      assert (hour - start) % 24 == hour - start + 24;
    }
  }

  /**
   * True when power-on must be refused: any error flag, or `enabled` and the
   * hour inside the window.
   */
  function CompressorIsDisabled(errors: ErrorFlags, hour: int, cfg: LateHours): (r: bool)
    ensures AnyError(errors) ==> r
    ensures !cfg.enabled ==> (r <==> AnyError(errors))
    ensures !AnyError(errors) && cfg.enabled ==> (r <==> InLateWindow(hour, cfg.start, cfg.end))
  {
    if cfg.start < cfg.end then
      errors.oil || errors.temp1 || errors.temp2 || ((hour >= cfg.start && hour < cfg.end) && cfg.enabled)
    else
      errors.oil || errors.temp1 || errors.temp2 || ((hour >= cfg.start || hour < cfg.end) && cfg.enabled)
  }

  /**
   * On hours and window bounds in 0..23 the interlock blocks exactly when an
   * error is set or, when enabled, the hour lies within WindowLength hours
   * forward of the start, whichever way the window lies around midnight.
   */
  lemma DisabledIffErrorOrInCyclicWindow(errors: ErrorFlags, hour: int, cfg: LateHours)
    requires 0 <= hour < 24 && 0 <= cfg.start < 24 && 0 <= cfg.end < 24
    ensures CompressorIsDisabled(errors, hour, cfg) <==>
              AnyError(errors) || (cfg.enabled && (hour - cfg.start) % 24 < WindowLength(cfg.start, cfg.end))
  {
    LateWindowIsCyclicInterval(hour, cfg.start, cfg.end);
  }

  /** With the firmware's configuration, without errors, exactly hour 4 is blocked. */
  lemma FirmwareBlocksOnlyHourFour(hour: int)
    ensures CompressorIsDisabled(ErrorFlags(false, false, false), hour, FirmwareLateHours) <==> hour == 4
  {
  }
}

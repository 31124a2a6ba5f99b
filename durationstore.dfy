/**
 * The duration file of main.cpp (`saveDurationCounters`, `loadDurationCounters`).
 * The file holds the raw bytes of two `unsigned long` counters, powered total
 * then running total, each 4 bytes little-endian on the ESP32, with no header
 * and no checksum. The file system itself is a collaborator: its outcomes
 * (mounted, opened, how many bytes a write accepted) are inputs here, and a
 * file is `None` when it does not exist.
 */
module DurationStore {
  import opened Wrappers

  type Byte = b: int | 0 <= b < 256

  /** `sizeof(unsigned long)` on the ESP32. */
  const WORD_SIZE: nat := 4
  const WORD_RANGE: nat := 0x1_0000_0000

  /** An `unsigned long` on the ESP32. */
  type Uint32 = x: int | 0 <= x < 0x1_0000_0000

  function Pow256(n: nat): (r: nat)
    ensures r >= 1
  {
    if n == 0 then 1 else 256 * Pow256(n - 1)
  }

  lemma Pow256Word()
    ensures Pow256(WORD_SIZE) == WORD_RANGE
  {
    assert Pow256(2) == 65536;
  }

  /** The n low-order bytes of x, least significant first. */
  function EncodeLE(x: nat, n: nat): (bs: seq<Byte>)
    ensures |bs| == n
  {
    if n == 0 then [] else [x % 256] + EncodeLE(x / 256, n - 1)
  }

  /** The number whose little-endian bytes are bs. */
  function DecodeLE(bs: seq<Byte>): (x: nat)
    ensures x < Pow256(|bs|)
  {
    if bs == [] then 0 else bs[0] + 256 * DecodeLE(bs[1..])
  }

  lemma {:induction false} DecodeEncode(x: nat, n: nat)
    requires x < Pow256(n)
    ensures DecodeLE(EncodeLE(x, n)) == x
  {
    if n > 0 {
      DecodeEncode(x / 256, n - 1);
      assert EncodeLE(x, n)[1..] == EncodeLE(x / 256, n - 1);
    }
  }

  lemma {:induction false} EncodeDecode(bs: seq<Byte>)
    ensures EncodeLE(DecodeLE(bs), |bs|) == bs
  {
    if bs != [] {
      var x := DecodeLE(bs);
      assert x % 256 == bs[0] && x / 256 == DecodeLE(bs[1..]);
      EncodeDecode(bs[1..]);
    }
  }

  /** The bytes `write((byte*)&x, sizeof(x))` hands to the file. */
  function WordBytes(x: Uint32): (bs: seq<Byte>)
    ensures |bs| == WORD_SIZE
    ensures DecodeLE(bs) == x
  {
    Pow256Word();
    DecodeEncode(x, WORD_SIZE);
    EncodeLE(x, WORD_SIZE)
  }

  /**
   * `readBytes((char*)&x, sizeof(x))` that delivers only the bytes bs: they
   * replace the low-order bytes of x, and the other bytes of x stay.
   */
  function Overlay(x: Uint32, bs: seq<Byte>): (r: Uint32)
    requires |bs| <= WORD_SIZE
    ensures WordBytes(r) == bs + WordBytes(x)[|bs|..]
    ensures |bs| == WORD_SIZE ==> r == DecodeLE(bs)
    ensures bs == [] ==> r == x
  {
    var all := bs + WordBytes(x)[|bs|..];
    Pow256Word();
    EncodeDecode(all);
    assert |bs| == WORD_SIZE ==> all == bs;
    assert bs == [] ==> all == WordBytes(x);
    DecodeLE(all)
  }

  /**
   * `lastSavedPoweredCounter` and `lastSavedRunningCounter` are initialised to 0
   * and never assigned again, so a save is skipped exactly when both totals are 0.
   */
  const LAST_SAVED_POWERED: Uint32 := 0
  const LAST_SAVED_RUNNING: Uint32 := 0

  /** What the file system reports during a save. */
  datatype WriteOutcome = WriteOutcome(openOk: bool, written1: nat, written2: nat)

  predicate ValidWrite(io: WriteOutcome) {
    io.written1 <= WORD_SIZE && io.written2 <= WORD_SIZE
  }

  const FullWrite := WriteOutcome(true, WORD_SIZE, WORD_SIZE)

  /**
   * `saveDurationCounters` given the two live totals. Opening with "wb"
   * truncates the file; a write appends the bytes the file system accepted.
   * A short first write returns before the second counter is written.
   */
  function SaveCounters(file: Option<seq<Byte>>, powered: Uint32, running: Uint32, io: WriteOutcome)
    : (r: Option<seq<Byte>>)
    requires ValidWrite(io)
    ensures r != file ==> io.openOk && (powered != LAST_SAVED_POWERED || running != LAST_SAVED_RUNNING)
    ensures (powered != 0 || running != 0) && io == FullWrite ==> r == Some(WordBytes(powered) + WordBytes(running))
    ensures (powered != 0 || running != 0) && io.openOk && io.written1 < WORD_SIZE ==>
              r == Some(WordBytes(powered)[..io.written1])
    // a complete first write followed by a second write of any length
    ensures (powered != 0 || running != 0) && io.openOk && io.written1 == WORD_SIZE ==>
              r == Some(WordBytes(powered) + WordBytes(running)[..io.written2])
    ensures r.Some? && r != file ==> |r.value| <= 2 * WORD_SIZE
  {
    if powered == LAST_SAVED_POWERED && running == LAST_SAVED_RUNNING then file
    else if !io.openOk then file
    else
      var first := WordBytes(powered)[..io.written1];
      assert WordBytes(powered)[..WORD_SIZE] == WordBytes(powered);
      assert WordBytes(running)[..WORD_SIZE] == WordBytes(running);
      if io.written1 != WORD_SIZE then Some(first)
      else Some(first + WordBytes(running)[..io.written2])
  }

  /** What the file system reports during a load. */
  datatype ReadOutcome = ReadOutcome(mounted: bool, openOk: bool)

  const GoodRead := ReadOutcome(true, true)

  function Min(a: int, b: int): int { if a < b then a else b }

  /**
   * `loadDurationCounters`: reads the powered counter, then the running
   * counter, each with `readBytes`, which delivers what the file still holds up
   * to 4 bytes. A short first read returns before the running counter is read.
   */
  function Load(file: Option<seq<Byte>>, io: ReadOutcome, powered: Uint32, running: Uint32)
    : (r: (Uint32, Uint32))
    ensures file.None? || !io.mounted || !io.openOk ==> r == (powered, running)
    ensures file.Some? && io == GoodRead && |file.value| >= 2 * WORD_SIZE ==>
              r == (DecodeLE(file.value[..4]), DecodeLE(file.value[4..8]))
    ensures file.Some? && |file.value| < WORD_SIZE ==> r.1 == running
    // a file shorter than 8 bytes: a partial word overlays the low-order bytes of the variable
    ensures file.Some? && io == GoodRead && |file.value| < WORD_SIZE ==> r == (Overlay(powered, file.value), running)
    ensures file.Some? && io == GoodRead && WORD_SIZE <= |file.value| < 2 * WORD_SIZE ==>
              r == (DecodeLE(file.value[..WORD_SIZE]), Overlay(running, file.value[WORD_SIZE..]))
  {
    if !io.mounted || file.None? || !io.openOk then (powered, running)
    else
      var bs := file.value;
      var n1 := Min(WORD_SIZE, |bs|);
      var p := Overlay(powered, bs[..n1]);
      if n1 != WORD_SIZE then
        assert bs[..n1] == bs;
        (p, running)
      else
        var n2 := Min(WORD_SIZE, |bs| - WORD_SIZE);
        assert |bs| < 2 * WORD_SIZE ==> bs[WORD_SIZE..WORD_SIZE + n2] == bs[WORD_SIZE..];
        (p, Overlay(running, bs[WORD_SIZE..WORD_SIZE + n2]))
  }

  /** A complete save followed by a good load gives back both totals. */
  lemma SaveThenLoad(file: Option<seq<Byte>>, powered: Uint32, running: Uint32, p0: Uint32, r0: Uint32)
    requires powered != 0 || running != 0
    ensures Load(SaveCounters(file, powered, running, FullWrite), GoodRead, p0, r0) == (powered, running)
  {
    var bs := WordBytes(powered) + WordBytes(running);
    assert bs[..4] == WordBytes(powered);
    assert bs[4..8] == WordBytes(running);
  }

  /** The file as a complete save leaves it decodes to exactly what was saved. */
  lemma {:induction false} EightByteFileRoundTrip(bs: seq<Byte>, p0: Uint32, r0: Uint32)
    requires |bs| == 2 * WORD_SIZE
    ensures var r := Load(Some(bs), GoodRead, p0, r0);
            WordBytes(r.0) + WordBytes(r.1) == bs
  {
    var r := Load(Some(bs), GoodRead, p0, r0);
    EncodeDecode(bs[..4]);
    EncodeDecode(bs[4..8]);
    assert bs == bs[..4] + bs[4..8];
  }
}

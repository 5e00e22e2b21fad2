/** The text of a timestamp, and what writing it backwards leaves in a buffer of which only the milliseconds
    are rewritten while the second stays the same. */
module Timestamp {
  import opened Decimal


  /** std::tm, as far as the writer reads it. */
  datatype Tm = Tm(sec: int, min: int, hour: int, mday: int, mon: int, year: int)

  // ---- Numbers ------------------------------------------------------------------------------------

  const UINT64: int := 0x1_0000_0000_0000_0000

  /** Conversion of a signed count to uint64_t. */
  function ToUint64(n: int): (u: nat)
    ensures u < UINT64 && (0 <= n < UINT64 ==> u == n)
  {
    n % UINT64
  }

  /** Division that truncates towards zero, as duration_cast does. */
  function TruncDiv(a: int, b: int): int
    requires b > 0
  {
    if a >= 0 then a / b else -(-a / b)
  }

  const NANOS_PER_SECOND := 1_000_000_000
  const NANOS_PER_MILLI := 1_000_000

  function Seconds(ticks: int): int { TruncDiv(ticks, NANOS_PER_SECOND) }

  function Millis(ticks: int): int { TruncDiv(ticks - Seconds(ticks) * NANOS_PER_SECOND, NANOS_PER_MILLI) }

  /** The last `width` decimal digits of `n`. */
  function Digits(n: nat, width: nat): (s: string)
    ensures |s| == width
    ensures forall i :: 0 <= i < |s| ==> '0' <= s[i] <= '9'
    decreases width, n
  {
    if width == 0 then "" else Digits(n / 10, width - 1) + [Digit(n % 10)]
  }

  // ---- The whole format ---------------------------------------------------------------------------

  function DayPart(tm: Tm): (s: string)
    ensures |s| == 10
  {
    Digits(ToUint64(tm.year + 1900), 4) + "-" + Digits(ToUint64(tm.mon + 1), 2) + "-" + Digits(ToUint64(tm.mday), 2)
  }

  function ClockPart(tm: Tm): (s: string)
    ensures |s| == 9
  {
    " " + Digits(ToUint64(tm.hour), 2) + ":" + Digits(ToUint64(tm.min), 2) + ":" + Digits(ToUint64(tm.sec), 2)
  }

  function MilliPart(ms: int): (s: string)
    ensures |s| == 4
  {
    "." + Digits(ToUint64(ms), 3)
  }

  /** The timestamp of the instant `ticks` nanoseconds after the epoch, formatted from scratch. */
  function Format(localtime: int -> Tm, ticks: int): (s: string)
    ensures |s| == 23
  {
    DayPart(localtime(Seconds(ticks))) + ClockPart(localtime(Seconds(ticks))) + MilliPart(Millis(ticks))
  }

  // ---- Writing backwards ----------------------------------------------------------------------------

  lemma ClockBackwards(tm: Tm, rest: string)
    ensures ClockPart(tm) + rest ==
      Field(2, ' ', ToUint64(tm.hour)) + (Field(2, ':', ToUint64(tm.min)) + (Field(2, ':', ToUint64(tm.sec)) + rest))
  {
  }

  lemma DayBackwards(tm: Tm, rest: string)
    ensures DayPart(tm) + rest ==
      Field(4, ' ', ToUint64(tm.year + 1900))
        + (Field(2, '-', ToUint64(tm.mon + 1)) + (Field(2, '-', ToUint64(tm.mday)) + rest))
  {
  }

  /** What to_int writes. */
  function Field(width: nat, sep: char, num: nat): (s: string)
    ensures |s| == if width == 4 then 4 else width + 1
  {
    (if width == 4 then "" else [sep]) + Digits(num, width)
  }

  /** `buf` with `text` written at `left`. */
  function Put(buf: string, left: nat, text: string): (s: string)
    requires left + |text| <= |buf|
    ensures |s| == |buf|
  {
    buf[..left] + text + buf[left + |text|..]
  }

  lemma PutBefore(buf: string, left: nat, c: char, text: string)
    requires left + 1 + |text| <= |buf|
    ensures Put(buf, left + 1, text)[left := c] == Put(buf, left, [c] + text)
  {
  }

  lemma FieldBefore(width: nat, sep: char, num: nat, tail: string, text: string)
    requires Digits(num, width) + tail == text
    ensures Field(width, sep, num) + tail == if width == 4 then text else [sep] + text
  {
  }

  lemma DigitBefore(n: nat, width: nat, digits: string)
    requires width > 0
    ensures Digits(n, width) + digits == Digits(n / 10, width - 1) + ([Digit(n % 10)] + digits)
  {
  }

  /** What one call leaves in the buffer. */
  function Write(localtime: int -> Tm, lastSecond: int, buf: string, ticks: int): (s: string)
    requires |buf| == 33
    ensures |s| == 33
  {
    if lastSecond == Seconds(ticks) then Put(buf, 19, MilliPart(Millis(ticks))) else Put(buf, 0, Format(localtime, ticks))
  }
}

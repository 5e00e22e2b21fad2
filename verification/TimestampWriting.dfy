/** The timestamp writer: a buffer filled backwards in place, of which only the milliseconds are rewritten
    while the second stays the same. */
module TimestampWriting {
  import opened Decimal
  import opened Timestamp
  import opened TimestampLaws

  const WIDTH: nat := 23

  class TimestampWriter {
    const localtime: int -> Tm
    const buf: array<char>
    var lastSecond: int
    ghost var calls: seq<int>   // the instants asked for so far

    /** The buffer and the second are what the calls so far have left. */
    ghost predicate Valid()
      reads this, buf
    {
      buf.Length == 33 && After(localtime, calls) == Cache(lastSecond, buf[..])
    }

    /** Value-initialised: the buffer holds zeros, and the last second seen is second 0. */
    constructor (localtime: int -> Tm)
      ensures Valid() && fresh(buf) && this.localtime == localtime
      ensures calls == [] && lastSecond == 0 && forall i :: 0 <= i < buf.Length ==> buf[i] == '\0'
    {
      this.localtime := localtime;
      lastSecond := 0;
      buf := new char[33](_ => '\0');
      calls := [];
      new;
      assert buf[..] == Zeros();
    }

    /** p[--size] = c, where `text` was already written over `base` from `size` on */
    method WriteChar(c: char, size: nat, ghost base: string, ghost text: string) returns (left: nat)
      requires buf.Length == 33 && 0 < size && size + |text| <= |base| == buf.Length && buf[..] == Put(base, size, text)
      modifies buf
      ensures left == size - 1 && buf[..] == Put(base, left, [c] + text)
    {
      left := size - 1;
      buf[left] := c;
      PutBefore(base, left, c, text);
    }

    /** to_int: writes `width` digits of `num` before position `size`, and before them the separator
        unless the width is 4.  `tail` is what was already written over `base` from `size` on. */
    method WriteInt(width: nat, sep: char, num: nat, size: nat, ghost base: string, ghost tail: string)
      returns (left: nat)
      requires buf.Length == 33 && |Field(width, sep, num)| <= size && size + |tail| <= |base| == buf.Length
      requires buf[..] == Put(base, size, tail)
      modifies buf
      ensures left == size - |Field(width, sep, num)|
      ensures buf[..] == Put(base, left, Field(width, sep, num) + tail)
    {
      ghost var text := tail;
      var n := num;
      left := size;
      var i := 0;
      while i < width
        invariant 0 <= i <= width && left == size - i && |text| == |tail| + i
        invariant Digits(num, width) + tail == Digits(n, width - i) + text
        invariant buf[..] == Put(base, left, text)
      {
        left := WriteChar(Digit(n % 10), left, base, text);
        DigitBefore(n, width - i, text);
        text := [Digit(n % 10)] + text;
        n := n / 10;
        i := i + 1;
      }
      if width != 4 {
        left := WriteChar(sep, left, base, text);
      }
      FieldBefore(width, sep, num, tail, text);
    }

    /** get_timestamp, for the instant `ticks` nanoseconds after the epoch */
    method GetTimestamp(ticks: int)
      requires Valid()
      modifies this, buf
      ensures Valid() && calls == old(calls) + [ticks]
      ensures buf[..23] == Format(localtime, ticks) <==> Primed(calls)
      ensures forall i :: 23 <= i < 33 ==> buf[i] == '\0'
    {
      WriteTimestamp(ticks);
      calls := calls + [ticks];
      assert calls[..|calls| - 1] == old(calls);
      CacheAgrees(localtime, calls);
      assert buf[..23] == After(localtime, calls).buf[..23];
      forall i | 23 <= i < 33 ensures buf[i] == '\0' { assert buf[i] == After(localtime, calls).buf[i]; }
    }

    /** The body of get_timestamp. */
    method WriteTimestamp(ticks: int)
      requires buf.Length == 33
      modifies `lastSecond, buf
      ensures lastSecond == Seconds(ticks)
      ensures buf[..] == Write(localtime, old(lastSecond), old(buf[..]), ticks)
    {
      var seconds := Seconds(ticks);
      var ms := ToUint64(Millis(ticks));
      ghost var b := buf[..];
      var size := WIDTH;
      ghost var text := MilliPart(Millis(ticks));
      assert Field(3, '.', ms) + "" == text;
      if lastSecond == seconds {
        size := WriteInt(3, '.', ms, size, b, "");
        return;
      }
      lastSecond := seconds;
      var tm := localtime(seconds);
      size := WriteInt(3, '.', ms, size, b, "");
      size := WriteClock(tm, size, b, text);
      text := ClockPart(tm) + text;
      size := WriteDay(tm, size, b, text);
      assert DayPart(tm) + text == Format(localtime, ticks);
    }

    /** Hours, minutes and seconds, from the last to the first. */
    method WriteClock(tm: Tm, size: nat, ghost base: string, ghost tail: string) returns (left: nat)
      requires buf.Length == 33 && 9 <= size && size + |tail| <= |base| == buf.Length && buf[..] == Put(base, size, tail)
      modifies buf
      ensures left == size - 9 && buf[..] == Put(base, left, ClockPart(tm) + tail)
    {
      ghost var text := tail;
      left := WriteInt(2, ':', ToUint64(tm.sec), size, base, text);
      text := Field(2, ':', ToUint64(tm.sec)) + text;
      left := WriteInt(2, ':', ToUint64(tm.min), left, base, text);
      text := Field(2, ':', ToUint64(tm.min)) + text;
      left := WriteInt(2, ' ', ToUint64(tm.hour), left, base, text);
      ClockBackwards(tm, tail);
    }

    /** Year, month and day, from the last to the first. */
    method WriteDay(tm: Tm, size: nat, ghost base: string, ghost tail: string) returns (left: nat)
      requires buf.Length == 33 && 10 <= size && size + |tail| <= |base| == buf.Length && buf[..] == Put(base, size, tail)
      modifies buf
      ensures left == size - 10 && buf[..] == Put(base, left, DayPart(tm) + tail)
    {
      ghost var text := tail;
      left := WriteInt(2, '-', ToUint64(tm.mday), size, base, text);
      text := Field(2, '-', ToUint64(tm.mday)) + text;
      left := WriteInt(2, '-', ToUint64(tm.mon + 1), left, base, text);
      text := Field(2, '-', ToUint64(tm.mon + 1)) + text;
      left := WriteInt(4, ' ', ToUint64(tm.year + 1900), left, base, text);
      DayBackwards(tm, tail);
    }
  }
}

/** What the timestamp writer promises over any sequence of calls, and what its text tells. */
module TimestampLaws {
  import opened Decimal
  import opened Division
  import opened Timestamp

  // ---- The cache ----------------------------------------------------------------------------------

  datatype Cache = Cache(lastSecond: int, buf: string)

  function Zeros(): (s: string)
    ensures |s| == 33 && forall i :: 0 <= i < |s| ==> s[i] == '\0'
  {
    seq(33, _ => '\0')
  }

  /** The writer's state after calls at these instants, in this order. */
  function After(localtime: int -> Tm, calls: seq<int>): (c: Cache)
    ensures |c.buf| == 33
    ensures c.lastSecond == if calls == [] then 0 else Seconds(calls[|calls| - 1])
  {
    if calls == [] then Cache(0, Zeros())
    else
      var before := After(localtime, calls[..|calls| - 1]);
      var ticks := calls[|calls| - 1];
      Cache(Seconds(ticks), Write(localtime, before.lastSecond, before.buf, ticks))
  }

  /** Some call so far was outside second 0, the second the cache starts out with. */
  predicate Primed(calls: seq<int>) { exists i :: 0 <= i < |calls| && Seconds(calls[i]) != 0 }

  lemma PrimedLast(calls: seq<int>)
    requires calls != []
    ensures Primed(calls) <==> Primed(calls[..|calls| - 1]) || Seconds(calls[|calls| - 1]) != 0
  {
    var before := calls[..|calls| - 1];
    if Primed(calls) {
      var i :| 0 <= i < |calls| && Seconds(calls[i]) != 0;
      if i < |before| { assert Seconds(before[i]) != 0; }
    }
    if Primed(before) {
      var i :| 0 <= i < |before| && Seconds(before[i]) != 0;
      assert calls[i] == before[i];
    }
  }

  lemma {:induction false} CacheInvariant(localtime: int -> Tm, calls: seq<int>)
    ensures var c := After(localtime, calls);
      && c.buf[23..] == Zeros()[23..]
      && (Primed(calls) ==> c.buf[..19] == DayPart(localtime(c.lastSecond)) + ClockPart(localtime(c.lastSecond)))
      && (!Primed(calls) ==> c.buf[..19] == Zeros()[..19] && c.lastSecond == 0)
      && (calls != [] ==> c.buf[19..23] == MilliPart(Millis(calls[|calls| - 1])))
  {
    if calls != [] {
      CacheInvariant(localtime, calls[..|calls| - 1]);
      PrimedLast(calls);
      var before := After(localtime, calls[..|calls| - 1]);
      WriteParts(localtime, before.lastSecond, before.buf, calls[|calls| - 1]);
    }
  }

  lemma WriteParts(localtime: int -> Tm, lastSecond: int, buf: string, ticks: int)
    requires |buf| == 33
    ensures var s := Write(localtime, lastSecond, buf, ticks);
      && s[23..] == buf[23..] && s[19..23] == MilliPart(Millis(ticks))
      && s[..19] == if lastSecond == Seconds(ticks) then buf[..19]
                    else DayPart(localtime(Seconds(ticks))) + ClockPart(localtime(Seconds(ticks)))
  {
    var s := Write(localtime, lastSecond, buf, ticks);
    if lastSecond != Seconds(ticks) { assert s == Format(localtime, ticks) + buf[23..]; }
  }

  /** After any calls, the clock going forwards or back, the text is the one formatted from scratch,
      exactly when some call was outside second 0; the terminating zeros are never touched. */
  lemma CacheAgrees(localtime: int -> Tm, calls: seq<int>)
    requires calls != []
    ensures var c := After(localtime, calls);
      && (c.buf[..23] == Format(localtime, calls[|calls| - 1]) <==> Primed(calls))
      && forall i :: 23 <= i < 33 ==> c.buf[i] == '\0'
  {
    CacheInvariant(localtime, calls);
    LastSecondSeen(localtime, calls);
    Halves(localtime, After(localtime, calls).buf, calls[|calls| - 1], Primed(calls));
  }

  lemma LastSecondSeen(localtime: int -> Tm, calls: seq<int>)
    requires calls != []
    ensures After(localtime, calls).lastSecond == Seconds(calls[|calls| - 1])
  {
  }

  /** A buffer whose first 19 characters are the date and time, or zeros, read as a whole. */
  lemma Halves(localtime: int -> Tm, buf: string, ticks: int, dated: bool)
    requires |buf| == 33 && buf[23..] == Zeros()[23..] && buf[19..23] == MilliPart(Millis(ticks))
    requires dated ==> buf[..19] == DayPart(localtime(Seconds(ticks))) + ClockPart(localtime(Seconds(ticks)))
    requires !dated ==> buf[..19] == Zeros()[..19]
    ensures buf[..23] == Format(localtime, ticks) <==> dated
    ensures forall i :: 23 <= i < 33 ==> buf[i] == '\0'
  {
    assert buf[..23] == buf[..19] + buf[19..23];
    forall i | 23 <= i < 33 ensures buf[i] == '\0' { assert buf[i] == buf[23..][i - 23]; }
    if !dated {
      assert buf[..23][0] == buf[..19][0] == '\0';
      FirstIsDigit(localtime, ticks);
    }
  }

  lemma FirstIsDigit(localtime: int -> Tm, ticks: int)
    ensures Format(localtime, ticks)[0] >= '0'
  {
    var digits := Digits(ToUint64(localtime(Seconds(ticks)).year + 1900), 4);
    assert DayPart(localtime(Seconds(ticks)))[0] == digits[0];
  }

  /** The first call in second 0 leaves the date blank. */
  lemma FirstCallInSecondZero(localtime: int -> Tm)
    ensures After(localtime, [0]).buf[..19] == Zeros()[..19]
    ensures After(localtime, [0]).buf[..23] != Format(localtime, 0)
  {
    CacheInvariant(localtime, [0]);
    CacheAgrees(localtime, [0]);
  }

  /** The milliseconds shown are those of the instant, for instants from the epoch on. */
  lemma MillisInRange(ticks: int)
    requires ticks >= 0
    ensures 0 <= Millis(ticks) < 1000
    ensures Seconds(ticks) * 1_000_000_000 + Millis(ticks) * 1_000_000 <= ticks
    ensures ticks < Seconds(ticks) * 1_000_000_000 + (Millis(ticks) + 1) * 1_000_000
  {
    var rest := ticks - Seconds(ticks) * NANOS_PER_SECOND;
    assert rest == ticks % NANOS_PER_SECOND;
  }

  // ---- Reading back -------------------------------------------------------------------------------

  lemma {:induction false} DigitsReadBack(n: nat, width: nat)
    requires n < Power10(width)
    ensures ReadDigits(Digits(n, width)) == n
    decreases width
  {
    if width > 0 {
      DigitsReadBack(n / 10, width - 1);
      assert Digits(n, width)[..width - 1] == Digits(n / 10, width - 1);
    }
  }

  /** The ranges in which a timestamp is faithful: they cover the years 0 to 9999. */
  predicate InRange(tm: Tm, ms: int) {
    && 0 <= tm.year + 1900 <= 9999 && 0 <= tm.mon <= 11 && 0 <= tm.mday <= 99
    && 0 <= tm.hour <= 99 && 0 <= tm.min <= 99 && 0 <= tm.sec <= 99 && 0 <= ms <= 999
  }

  function Stamp(tm: Tm, ms: int): (s: string)
    ensures |s| == 23
  {
    DayPart(tm) + ClockPart(tm) + MilliPart(ms)
  }

  function ReadDay(s: string): (int, int, int)
    requires |s| == 10
  {
    (ReadDigits(s[..4]) - 1900, ReadDigits(s[5..7]) - 1, ReadDigits(s[8..10]))
  }

  function ReadClock(s: string): (int, int, int)
    requires |s| == 9
  {
    (ReadDigits(s[1..3]), ReadDigits(s[4..6]), ReadDigits(s[7..9]))
  }

  function ReadStamp(s: string): (Tm, int)
    requires |s| == 23
  {
    var (year, mon, mday) := ReadDay(s[..10]);
    var (hour, min, sec) := ReadClock(s[10..19]);
    (Tm(sec, min, hour, mday, mon, year), ReadDigits(s[20..23]))
  }

  lemma DaySlices(a: string, b: string, c: string)
    requires |a| == 4 && |b| == 2 && |c| == 2
    ensures var s := a + "-" + b + "-" + c; s[..4] == a && s[5..7] == b && s[8..10] == c
  {
  }

  lemma ClockSlices(a: string, b: string, c: string)
    requires |a| == 2 && |b| == 2 && |c| == 2
    ensures var s := " " + a + ":" + b + ":" + c; s[1..3] == a && s[4..6] == b && s[7..9] == c
  {
  }

  lemma SmallPowers()
    ensures Power10(2) == 100 && Power10(3) == 1000 && Power10(4) == 10000
  {
    assert Power10(2) == 100;
    assert Power10(3) == 1000;
  }

  lemma FieldReadBack(n: int, width: nat)
    requires 0 <= n < Power10(width) <= 10000
    ensures ReadDigits(Digits(ToUint64(n), width)) == n
  {
    DigitsReadBack(n, width);
  }

  lemma DayReadBack(tm: Tm, ms: int)
    requires InRange(tm, ms)
    ensures ReadDay(DayPart(tm)) == (tm.year, tm.mon, tm.mday)
  {
    SmallPowers();
    FieldReadBack(tm.year + 1900, 4);
    FieldReadBack(tm.mon + 1, 2);
    FieldReadBack(tm.mday, 2);
    DaySlices(Digits(ToUint64(tm.year + 1900), 4), Digits(ToUint64(tm.mon + 1), 2), Digits(ToUint64(tm.mday), 2));
  }

  lemma ClockReadBack(tm: Tm, ms: int)
    requires InRange(tm, ms)
    ensures ReadClock(ClockPart(tm)) == (tm.hour, tm.min, tm.sec)
  {
    SmallPowers();
    FieldReadBack(tm.hour, 2);
    FieldReadBack(tm.min, 2);
    FieldReadBack(tm.sec, 2);
    ClockSlices(Digits(ToUint64(tm.hour), 2), Digits(ToUint64(tm.min), 2), Digits(ToUint64(tm.sec), 2));
  }

  /** The 23 characters give back every field. */
  lemma StampReadBack(tm: Tm, ms: int)
    requires InRange(tm, ms)
    ensures ReadStamp(Stamp(tm, ms)) == (tm, ms)
  {
    var s := Stamp(tm, ms);
    DayReadBack(tm, ms);
    ClockReadBack(tm, ms);
    SmallPowers();
    DigitsReadBack(ToUint64(ms), 3);
    assert s[..10] == DayPart(tm) && s[10..19] == ClockPart(tm);
    assert s[20..23] == Digits(ToUint64(ms), 3);
  }

  // ---- Order --------------------------------------------------------------------------------------

  /** Byte-wise lexicographic order. */
  predicate TextLess(a: string, b: string)
    decreases |a|
  {
    if a == "" then b != ""
    else b != "" && (a[0] < b[0] || (a[0] == b[0] && TextLess(a[1..], b[1..])))
  }

  lemma {:induction false} TextLessConcat(a: string, x: string, b: string, y: string)
    requires |a| == |b|
    ensures TextLess(a + x, b + y) <==> TextLess(a, b) || (a == b && TextLess(x, y))
    decreases |a|
  {
    if a == "" {
      assert a + x == x && b + y == y;
    } else {
      assert (a + x)[1..] == a[1..] + x && (b + y)[1..] == b[1..] + y;
      TextLessConcat(a[1..], x, b[1..], y);
      assert a == [a[0]] + a[1..] && b == [b[0]] + b[1..];
    }
  }

  lemma {:induction false} DigitsLess(m: nat, n: nat, width: nat)
    requires m < Power10(width) && n < Power10(width)
    ensures TextLess(Digits(m, width), Digits(n, width)) <==> m < n
    ensures Digits(m, width) == Digits(n, width) <==> m == n
    decreases width
  {
    DigitsReadBack(m, width);
    DigitsReadBack(n, width);
    if width > 0 {
      DigitsLess(m / 10, n / 10, width - 1);
      var c, d := Digit(m % 10), Digit(n % 10);
      TextLessConcat(Digits(m / 10, width - 1), [c], Digits(n / 10, width - 1), [d]);
      assert TextLess([c], [d]) <==> c < d;
    }
  }

  /** One column of the timestamp: the separator before it, its width and its number. */
  datatype Column = Column(lead: string, width: nat, num: nat)

  function Columns(tm: Tm, ms: int): seq<Column>
    requires InRange(tm, ms)
  {
    [Column("", 4, tm.year + 1900), Column("-", 2, tm.mon + 1), Column("-", 2, tm.mday), Column(" ", 2, tm.hour),
     Column(":", 2, tm.min), Column(":", 2, tm.sec), Column(".", 3, ms)]
  }

  function ColumnText(c: Column): string { c.lead + Digits(c.num, c.width) }

  function TextOf(cols: seq<Column>): string {
    if cols == [] then "" else ColumnText(cols[0]) + TextOf(cols[1..])
  }

  predicate SameLayout(a: seq<Column>, b: seq<Column>) {
    |a| == |b| && forall i :: 0 <= i < |a| ==>
      && a[i].lead == b[i].lead && a[i].width == b[i].width
      && a[i].num < Power10(a[i].width) && b[i].num < Power10(b[i].width)
  }

  /** Order of tuples of numbers. */
  predicate NumsLess(a: seq<int>, b: seq<int>)
    requires |a| == |b|
  {
    a != [] && (a[0] < b[0] || (a[0] == b[0] && NumsLess(a[1..], b[1..])))
  }

  function Nums(cols: seq<Column>): (ns: seq<int>)
    ensures |ns| == |cols|
  {
    if cols == [] then [] else [cols[0].num] + Nums(cols[1..])
  }

  lemma {:induction false} NotLessItself(s: string)
    ensures !TextLess(s, s)
    decreases |s|
  {
    if s != "" { NotLessItself(s[1..]); }
  }

  lemma ColumnLess(x: Column, y: Column)
    requires x.lead == y.lead && x.width == y.width && x.num < Power10(x.width) && y.num < Power10(x.width)
    ensures |ColumnText(x)| == |ColumnText(y)|
    ensures TextLess(ColumnText(x), ColumnText(y)) <==> x.num < y.num
    ensures ColumnText(x) == ColumnText(y) <==> x.num == y.num
  {
    DigitsLess(x.num, y.num, x.width);
    TextLessConcat(x.lead, Digits(x.num, x.width), y.lead, Digits(y.num, x.width));
    NotLessItself(x.lead);
    assert ColumnText(x)[|x.lead|..] == Digits(x.num, x.width);
    assert ColumnText(y)[|y.lead|..] == Digits(y.num, y.width);
  }

  lemma {:induction false} ColumnsLess(a: seq<Column>, b: seq<Column>)
    requires SameLayout(a, b)
    ensures TextLess(TextOf(a), TextOf(b)) <==> NumsLess(Nums(a), Nums(b))
    decreases |a|
  {
    if a != [] {
      ColumnsLess(a[1..], b[1..]);
      ColumnLess(a[0], b[0]);
      TextLessConcat(ColumnText(a[0]), TextOf(a[1..]), ColumnText(b[0]), TextOf(b[1..]));
      assert Nums(a)[1..] == Nums(a[1..]) && Nums(b)[1..] == Nums(b[1..]);
    }
  }

  function Fields(tm: Tm, ms: int): seq<int> { [tm.year, tm.mon, tm.mday, tm.hour, tm.min, tm.sec, ms] }

  lemma TextFrom(cols: seq<Column>, i: nat)
    requires i < |cols|
    ensures TextOf(cols[i..]) == ColumnText(cols[i]) + TextOf(cols[i + 1..])
  {
    assert cols[i..][1..] == cols[i + 1..];
  }

  lemma JoinSeven(a: string, b: string, c: string, d: string, e: string, f: string, g: string)
    ensures (a + b + c) + (d + e + f) + g == a + (b + (c + (d + (e + (f + (g + ""))))))
  {
  }

  lemma DayColumns(a: string, b: string, c: string)
    ensures a + "-" + b + "-" + c == ("" + a) + ("-" + b) + ("-" + c)
  {
  }

  lemma ClockColumns(a: string, b: string, c: string)
    ensures " " + a + ":" + b + ":" + c == (" " + a) + (":" + b) + (":" + c)
  {
  }

  lemma StampParts(tm: Tm, ms: int)
    requires InRange(tm, ms)
    ensures var c := Columns(tm, ms);
      && DayPart(tm) == ColumnText(c[0]) + ColumnText(c[1]) + ColumnText(c[2])
      && ClockPart(tm) == ColumnText(c[3]) + ColumnText(c[4]) + ColumnText(c[5])
      && MilliPart(ms) == ColumnText(c[6])
  {
    var c := Columns(tm, ms);
    DayColumns(Digits(c[0].num, 4), Digits(c[1].num, 2), Digits(c[2].num, 2));
    ClockColumns(Digits(c[3].num, 2), Digits(c[4].num, 2), Digits(c[5].num, 2));
  }

  lemma TextOfSeven(c: seq<Column>)
    requires |c| == 7
    ensures TextOf(c) == ColumnText(c[0]) + (ColumnText(c[1]) + (ColumnText(c[2]) + (ColumnText(c[3])
      + (ColumnText(c[4]) + (ColumnText(c[5]) + (ColumnText(c[6]) + ""))))))
  {
    assert c[0..] == c && c[7..] == [];
    TextFrom(c, 0); TextFrom(c, 1); TextFrom(c, 2); TextFrom(c, 3); TextFrom(c, 4); TextFrom(c, 5); TextFrom(c, 6);
  }

  lemma StampIsColumns(tm: Tm, ms: int)
    requires InRange(tm, ms)
    ensures Stamp(tm, ms) == TextOf(Columns(tm, ms))
  {
    var c := Columns(tm, ms);
    StampParts(tm, ms);
    TextOfSeven(c);
    JoinSeven(ColumnText(c[0]), ColumnText(c[1]), ColumnText(c[2]), ColumnText(c[3]), ColumnText(c[4]),
      ColumnText(c[5]), ColumnText(c[6]));
  }

  /** Sorting timestamps as text sorts them by time: the order of the characters is the order of the
      tuples (year, month, day, hour, minute, second, millisecond). */
  lemma StampOrder(a: Tm, am: int, b: Tm, bm: int)
    requires InRange(a, am) && InRange(b, bm)
    ensures TextLess(Stamp(a, am), Stamp(b, bm)) <==> NumsLess(Fields(a, am), Fields(b, bm))
  {
    var x, y := Columns(a, am), Columns(b, bm);
    StampIsColumns(a, am);
    StampIsColumns(b, bm);
    SmallPowers();
    ColumnsLess(x, y);
    NumsAt(x);
    NumsAt(y);
    ShiftedLess(Fields(a, am), Fields(b, bm), Nums(x), Nums(y));
  }

  lemma {:induction false} NumsAt(cols: seq<Column>)
    ensures forall i :: 0 <= i < |cols| ==> Nums(cols)[i] == cols[i].num
  {
    if cols != [] { NumsAt(cols[1..]); }
  }

  /** Adding the same offsets to both tuples does not change their order. */
  lemma {:induction false} ShiftedLess(a: seq<int>, b: seq<int>, x: seq<int>, y: seq<int>)
    requires |a| == |b| == |x| == |y|
    requires forall i :: 0 <= i < |a| ==> x[i] - a[i] == y[i] - b[i]
    ensures NumsLess(a, b) <==> NumsLess(x, y)
  {
    if a != [] { ShiftedLess(a[1..], b[1..], x[1..], y[1..]); }
  }

  // ---- Outside the ranges ---------------------------------------------------------------------------

  /** A number too wide for its field shows its last digits. */
  lemma {:induction false} DigitsAreLast(n: nat, width: nat)
    ensures ReadDigits(Digits(n, width)) == n % Power10(width)
    decreases width
  {
    if width > 0 {
      DigitsAreLast(n / 10, width - 1);
      assert Digits(n, width)[..width - 1] == Digits(n / 10, width - 1);
      LastDigit(n, Power10(width - 1));
    }
  }

  lemma LastDigit(n: nat, p: nat)
    requires p > 0
    ensures n % (10 * p) == 10 * ((n / 10) % p) + n % 10
  {
    var (a, d) := (n / 10, n % 10);
    var (q, m) := (a / p, a % p);
    var r := 10 * m + d;
    assert a == q * p + m;
    assert n == q * (10 * p) + r;
    assert 0 <= r < 10 * p;
    Remainder(10 * p, q, r, n);
  }

  /** Where the separators stand, whatever the fields hold. */
  lemma Separators(localtime: int -> Tm, ticks: int)
    ensures var s := Format(localtime, ticks);
      s[4] == s[7] == '-' && s[10] == ' ' && s[13] == s[16] == ':' && s[19] == '.'
    ensures var s := Format(localtime, ticks);
      forall i :: 0 <= i < 23 && i !in {4, 7, 10, 13, 16, 19} ==> '0' <= s[i] <= '9'
  {
    var tm := localtime(Seconds(ticks));
    var day, clock := DayPart(tm), ClockPart(tm);
    DayShape(tm);
    ClockShape(tm);
    var s := Format(localtime, ticks);
    assert s[..10] == day && s[10..19] == clock && s[19..] == MilliPart(Millis(ticks));
    forall i | 0 <= i < 23 && i !in {4, 7, 10, 13, 16, 19} ensures '0' <= s[i] <= '9' {
      if i < 10 { assert s[i] == day[i]; } else if i < 19 { assert s[i] == clock[i - 10]; } else { assert s[i] == MilliPart(Millis(ticks))[i - 19]; }
    }
    assert s[4] == day[4] && s[7] == day[7] && s[10] == clock[0] && s[13] == clock[3] && s[16] == clock[6];
  }

  lemma DayShape(tm: Tm)
    ensures DayPart(tm)[4] == DayPart(tm)[7] == '-'
    ensures forall i :: 0 <= i < 10 && i != 4 && i != 7 ==> '0' <= DayPart(tm)[i] <= '9'
  {
  }

  lemma ClockShape(tm: Tm)
    ensures ClockPart(tm)[0] == ' ' && ClockPart(tm)[3] == ClockPart(tm)[6] == ':'
    ensures forall i :: 0 <= i < 9 && i != 0 && i != 3 && i != 6 ==> '0' <= ClockPart(tm)[i] <= '9'
  {
  }

  /** Before the epoch seconds and milliseconds are rounded up, to the epoch, and the milliseconds are not positive. */
  lemma MillisBeforeEpoch(ticks: int)
    requires ticks <= 0
    ensures Seconds(ticks) <= 0 && -1000 < Millis(ticks) <= 0
    ensures ticks <= Seconds(ticks) * 1_000_000_000 + Millis(ticks) * 1_000_000
    ensures Seconds(ticks) * 1_000_000_000 + (Millis(ticks) - 1) * 1_000_000 < ticks
  {
    if ticks < 0 {
      var q := -ticks / NANOS_PER_SECOND;
      assert Seconds(ticks) == -q;
      var rest := ticks - Seconds(ticks) * NANOS_PER_SECOND;
      assert rest == -(-ticks % NANOS_PER_SECOND);
    }
  }

  /** There a millisecond shows as its two's complement does: one before a full second is 615. */
  lemma OneBeforeEpoch()
    ensures Millis(-1_000_000) == -1 && MilliPart(-1) == ".615"
  {
    var n := ToUint64(-1);
    assert n == 18446744073709551615;
    assert Digits(n, 3) == Digits(n / 10, 2) + ['5'];
    assert Digits(n / 10, 2) == Digits(n / 100, 1) + ['1'];
    assert Digits(n / 100, 1) == Digits(n / 1000, 0) + ['6'];
  }
}

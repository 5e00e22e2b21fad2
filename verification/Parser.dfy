/** A parser for the printer's output.  The repository prints only; the parser is the independent
    definition against which the printer is shown to be unambiguous. */
module Parser {
  import opened Decimal
  import opened Printer

  datatype Parsed<+T> = Fail | Got(value: T, rest: string) {
    predicate IsFailure() { Fail? }

    function PropagateFailure<U>(): Parsed<U>
      requires Fail?
    {
      Fail
    }

    function Extract(): (T, string)
      requires Got?
    {
      (value, rest)
    }
  }

  function Keyword(s: string, word: string, v: Value): Parsed<Value> {
    if word <= s then Got(v, s[|word|..]) else Fail
  }

  /** Reads digits onto `acc`. */
  function Digits(s: string, acc: nat): (nat, string) {
    if s == "" || !IsDigit(s[0]) then (acc, s)
    else Digits(s[1..], acc * 10 + (s[0] as int - '0' as int))
  }

  /** Reads up to the next quote. */
  function Quoted(s: string): Parsed<string> {
    if s == "" then Fail
    else if s[0] == '"' then Got("", s[1..])
    else
      var (t, rest) :- Quoted(s[1..]);
      Got([s[0]] + t, rest)
  }

  function Parse(s: string): (r: Parsed<Value>)
    ensures r.Got? ==> |r.rest| < |s|
    decreases |s|, 1
  {
    if s == "" then Fail
    else if s[0] == '"' then
      QuotedShorter(s[1..]);
      var (t, rest) :- Quoted(s[1..]);
      Got(Str(t), rest)
    else if s[0] == '[' then
      var (vs, rest) :- ParseItems(s[1..], ']');
      Got(ListOf(vs), rest)
    else if s[0] == '(' then
      var (vs, rest) :- ParseItems(s[1..], ')');
      Got(Tuple(vs), rest)
    else if s[0] == '{' then
      var (es, rest) :- ParseEntries(s[1..]);
      Got(MapOf(es), rest)
    else if s[0] == 't' then Keyword(s, "true", Bool(true))
    else if s[0] == 'f' then Keyword(s, "false", Bool(false))
    else if s[0] == 'n' then Keyword(s, "nullopt", Nullopt)
    else if s[0] == '-' && |s| > 1 && IsDigit(s[1]) then
      DigitsShorter(s[1..], 0);
      var (n, rest) := Digits(s[1..], 0);
      Got(Num(-(n as int)), rest)
    else if IsDigit(s[0]) then
      DigitsShorter(s, 0);
      var (n, rest) := Digits(s, 0);
      Got(Num(n), rest)
    else Fail
  }

  function ParseItems(s: string, close: char): (r: Parsed<seq<Value>>)
    ensures r.Got? ==> |r.rest| < |s|
    decreases |s|, 2
  {
    if s == "" then Fail
    else if s[0] == close then Got([], s[1..])
    else
      var (v, rest) :- Parse(s);
      var (vs, end) :- ParseMore(rest, close);
      Got([v] + vs, end)
  }

  function ParseMore(s: string, close: char): (r: Parsed<seq<Value>>)
    ensures r.Got? ==> |r.rest| < |s|
    decreases |s|, 2
  {
    if s == "" then Fail
    else if s[0] == close then Got([], s[1..])
    else if ", " <= s then
      var (v, rest) :- Parse(s[2..]);
      var (vs, end) :- ParseMore(rest, close);
      Got([v] + vs, end)
    else Fail
  }

  function ParseEntry(s: string): (r: Parsed<Entry>)
    ensures r.Got? ==> |r.rest| < |s|
    decreases |s|, 2
  {
    var (k, rest) :- Parse(s);
    if ": " <= rest then
      var (v, end) :- Parse(rest[2..]);
      Got(Entry(k, v), end)
    else Fail
  }

  function ParseEntries(s: string): (r: Parsed<seq<Entry>>)
    ensures r.Got? ==> |r.rest| < |s|
    decreases |s|, 3
  {
    if s == "" then Fail
    else if s[0] == '}' then Got([], s[1..])
    else
      var (e, rest) :- ParseEntry(s);
      var (es, end) :- ParseMoreEntries(rest);
      Got([e] + es, end)
  }

  function ParseMoreEntries(s: string): (r: Parsed<seq<Entry>>)
    ensures r.Got? ==> |r.rest| < |s|
    decreases |s|, 3
  {
    if s == "" then Fail
    else if s[0] == '}' then Got([], s[1..])
    else if ", " <= s then
      var (e, rest) :- ParseEntry(s[2..]);
      var (es, end) :- ParseMoreEntries(rest);
      Got([e] + es, end)
    else Fail
  }

  lemma {:induction false} QuotedShorter(s: string)
    ensures Quoted(s).Got? ==> |Quoted(s).rest| < |s|
  {
    if s != "" && s[0] != '"' { QuotedShorter(s[1..]); }
  }

  lemma {:induction false} DigitsShorter(s: string, acc: nat)
    ensures |Digits(s, acc).1| <= |s|
    ensures s != "" && IsDigit(s[0]) ==> |Digits(s, acc).1| < |s|
    ensures !StartsWithDigit(Digits(s, acc).1)
  {
    if s != "" && IsDigit(s[0]) { DigitsShorter(s[1..], acc * 10 + (s[0] as int - '0' as int)); }
  }

  predicate StartsWithDigit(s: string) { s != "" && IsDigit(s[0]) }

  // ---- What printing forgets -----------------------------------------------------------------------

  /** Variants and optionals print like what they hold. */
  function Norm(v: Value): Value
    decreases v, 0
  {
    match v
    case MapOf(es) => MapOf(NormEntries(es))
    case ListOf(vs) => ListOf(NormAll(vs))
    case Tuple(vs) => Tuple(NormAll(vs))
    case Variant(w) => Norm(w)
    case Optional(o) => if o.Some? then Norm(o.value) else Nullopt
    case _ => v
  }

  function NormAll(vs: seq<Value>): seq<Value>
    decreases vs, 1
  {
    if vs == [] then [] else [Norm(vs[0])] + NormAll(vs[1..])
  }

  function NormEntry(e: Entry): Entry
    decreases e, 0
  {
    Entry(Norm(e.key), Norm(e.value))
  }

  function NormEntries(es: seq<Entry>): seq<Entry>
    decreases es, 1
  {
    if es == [] then [] else [NormEntry(es[0])] + NormEntries(es[1..])
  }

  /** No string in the value contains a quote. */
  predicate QuoteFree(v: Value)
    decreases v, 0
  {
    match v
    case Str(s) => '"' !in s
    case MapOf(es) => QuoteFreeEntries(es)
    case ListOf(vs) => QuoteFreeAll(vs)
    case Tuple(vs) => QuoteFreeAll(vs)
    case Variant(w) => QuoteFree(w)
    case Optional(o) => o.Some? ==> QuoteFree(o.value)
    case _ => true
  }

  predicate QuoteFreeAll(vs: seq<Value>)
    decreases vs, 1
  {
    vs == [] || (QuoteFree(vs[0]) && QuoteFreeAll(vs[1..]))
  }

  predicate QuoteFreeEntry(e: Entry)
    decreases e, 0
  {
    QuoteFree(e.key) && QuoteFree(e.value)
  }

  predicate QuoteFreeEntries(es: seq<Entry>)
    decreases es, 1
  {
    es == [] || (QuoteFreeEntry(es[0]) && QuoteFreeEntries(es[1..]))
  }

  // ---- Leaves --------------------------------------------------------------------------------------

  lemma {:induction false} QuotedBack(t: string, rest: string)
    requires '"' !in t
    ensures Quoted(t + "\"" + rest) == Got(t, rest)
  {
    var s := t + "\"" + rest;
    if t == "" {
      assert s == "\"" + rest;
    } else {
      assert s[1..] == t[1..] + "\"" + rest;
      QuotedBack(t[1..], rest);
      assert [t[0]] + t[1..] == t;
    }
  }

  lemma {:induction false} NatTextDigits(n: nat)
    ensures NatText(n) != "" && IsDigit(NatText(n)[0])
  {
    if n >= 10 { NatTextDigits(n / 10); }
  }

  lemma {:induction false} DigitsBack(n: nat, acc: nat, rest: string)
    ensures Digits(NatText(n) + rest, acc) == Digits(rest, acc * Power10(|NatText(n)|) + n)
    decreases n
  {
    if n < 10 {
      assert (NatText(n) + rest)[1..] == rest;
      assert Power10(1) == 10;
    } else {
      var d := Digit(n % 10);
      assert NatText(n) + rest == NatText(n / 10) + ([d] + rest);
      DigitsBack(n / 10, acc, [d] + rest);
      assert ([d] + rest)[1..] == rest;
      OneDigitMore(acc, Power10(|NatText(n / 10)|), n);
    }
  }

  lemma OneDigitMore(acc: nat, p: nat, n: nat)
    ensures (acc * p + n / 10) * 10 + n % 10 == acc * (10 * p) + n
  {
    assert (acc * p) * 10 == acc * (10 * p);
  }

  lemma NumBack(n: int, rest: string)
    requires !StartsWithDigit(rest)
    ensures Parse(NumText(n) + rest) == Got(Num(n), rest)
  {
    var m: nat := if n < 0 then -n else n;
    NatTextDigits(m);
    DigitsBack(m, 0, rest);
    assert Digits(NatText(m) + rest, 0) == (m, rest);
    if n < 0 {
      assert (NumText(n) + rest)[1..] == NatText(m) + rest;
    }
  }

  lemma StrBack(t: string, rest: string)
    requires '"' !in t
    ensures Parse(Text(Str(t)) + rest) == Got(Str(t), rest)
  {
    assert (Text(Str(t)) + rest)[1..] == t + "\"" + rest;
    QuotedBack(t, rest);
  }

  lemma WordBack(v: Value, rest: string)
    requires v.Bool? || v.Nullopt?
    ensures Parse(Text(v) + rest) == Got(v, rest)
  {
    assert (Text(v) + rest)[..|Text(v)|] == Text(v);
  }

  // ---- Round trip ----------------------------------------------------------------------------------

  /** What may follow the text of `v`: after a number, anything but a digit. */
  predicate Delimited(v: Value, rest: string) { Norm(v).Num? ==> !StartsWithDigit(rest) }

  lemma {:induction false} ParseBack(v: Value, rest: string)
    requires QuoteFree(v) && Delimited(v, rest)
    ensures Parse(Text(v) + rest) == Got(Norm(v), rest)
    decreases v, 0
  {
    match v
    case Str(t) => StrBack(t, rest);
    case Num(n) => NumBack(n, rest);
    case Bool(b) => WordBack(v, rest);
    case MapOf(es) =>
      EntriesBack(es, rest);
      BracesBack(Join(EntryTexts(es), ", "), rest, NormEntries(es));
    case ListOf(vs) =>
      ItemsBack(vs, ']', rest);
      BracketsBack(Join(Texts(vs), ", "), rest, NormAll(vs));
    case Variant(w) => ParseBack(w, rest);
    case Optional(o) =>
      if o.Some? { ParseBack(o.value, rest); } else { WordBack(Nullopt, rest); }
    case Nullopt => WordBack(v, rest);
    case Tuple(vs) =>
      ItemsBack(vs, ')', rest);
      ParenthesesBack(Join(Texts(vs), ", "), rest, NormAll(vs));
  }

  lemma BracketsBack(inner: string, rest: string, vs: seq<Value>)
    requires ParseItems(inner + ("]" + rest), ']') == Got(vs, rest)
    ensures Parse("[" + inner + "]" + rest) == Got(ListOf(vs), rest)
  {
    assert ("[" + inner + "]" + rest)[1..] == inner + ("]" + rest);
  }

  lemma ParenthesesBack(inner: string, rest: string, vs: seq<Value>)
    requires ParseItems(inner + (")" + rest), ')') == Got(vs, rest)
    ensures Parse("(" + inner + ")" + rest) == Got(Tuple(vs), rest)
  {
    assert ("(" + inner + ")" + rest)[1..] == inner + (")" + rest);
  }

  lemma BracesBack(inner: string, rest: string, es: seq<Entry>)
    requires ParseEntries(inner + ("}" + rest)) == Got(es, rest)
    ensures Parse("{" + inner + "}" + rest) == Got(MapOf(es), rest)
  {
    assert ("{" + inner + "}" + rest)[1..] == inner + ("}" + rest);
  }

  /** No text starts with a closing bracket. */
  lemma {:induction false} TextStart(v: Value)
    ensures Text(v) != "" && Text(v)[0] !in "]})"
    decreases v
  {
    match v
    case Num(n) => NatTextDigits(if n < 0 then -n else n);
    case Variant(w) => TextStart(w);
    case Optional(o) => if o.Some? { TextStart(o.value); }
    case _ =>
  }

  lemma {:induction false} ItemsBack(vs: seq<Value>, close: char, rest: string)
    requires QuoteFreeAll(vs) && close in "])"
    ensures ParseItems(Join(Texts(vs), ", ") + ([close] + rest), close) == Got(NormAll(vs), rest)
    decreases vs, 2
  {
    var s := Join(Texts(vs), ", ") + ([close] + rest);
    if vs == [] {
      assert s == [close] + rest;
    } else {
      TextStart(vs[0]);
      var tail := Tail(Texts(vs)[1..], [close] + rest);
      JoinTail(Texts(vs), [close] + rest);
      ParseBack(vs[0], tail);
      MoreBack(vs[1..], close, rest);
      assert Texts(vs)[1..] == Texts(vs[1..]);
    }
  }

  /** The texts of the remaining elements, each after a separator, and then `end`. */
  function Tail(texts: seq<string>, end: string): string {
    if texts == [] then end else ", " + texts[0] + Tail(texts[1..], end)
  }

  lemma {:induction false} JoinTail(texts: seq<string>, end: string)
    requires texts != []
    ensures Join(texts, ", ") + end == texts[0] + Tail(texts[1..], end)
  {
    if |texts| > 1 {
      JoinTail(texts[1..], end);
      assert Join(texts, ", ") + end == texts[0] + (", " + (Join(texts[1..], ", ") + end));
      assert Tail(texts[1..], end) == ", " + (texts[1] + Tail(texts[2..], end));
      assert texts[1..][1..] == texts[2..];
    }
  }

  lemma {:induction false} MoreBack(vs: seq<Value>, close: char, rest: string)
    requires QuoteFreeAll(vs) && close in "])"
    ensures ParseMore(Tail(Texts(vs), [close] + rest), close) == Got(NormAll(vs), rest)
    ensures !StartsWithDigit(Tail(Texts(vs), [close] + rest))
    decreases vs, 1
  {
    if vs != [] {
      var tail := Tail(Texts(vs[1..]), [close] + rest);
      MoreBack(vs[1..], close, rest);
      ParseBack(vs[0], tail);
      AnotherItem(Text(vs[0]), tail, close, rest, Norm(vs[0]), NormAll(vs[1..]));
      assert Texts(vs)[1..] == Texts(vs[1..]);
      TailSteps(Texts(vs), [close] + rest);
    }
  }

  lemma TailSteps(texts: seq<string>, end: string)
    requires texts != []
    ensures Tail(texts, end) == ", " + (texts[0] + Tail(texts[1..], end))
    ensures !StartsWithDigit(Tail(texts, end))
  {
  }

  lemma AnotherItem(text: string, tail: string, close: char, rest: string, v: Value, vs: seq<Value>)
    requires close in "])" && Parse(text + tail) == Got(v, tail) && ParseMore(tail, close) == Got(vs, rest)
    ensures ParseMore(", " + (text + tail), close) == Got([v] + vs, rest)
  {
    var s := ", " + (text + tail);
    assert s[..2] == ", " && s[2..] == text + tail;
  }

  lemma {:induction false} EntryBack(e: Entry, rest: string)
    requires QuoteFreeEntry(e) && !StartsWithDigit(rest)
    ensures ParseEntry(EntryText(e) + rest) == Got(NormEntry(e), rest)
    decreases e, 0
  {
    var after := ": " + (Text(e.value) + rest);
    assert EntryText(e) + rest == Text(e.key) + after;
    ParseBack(e.key, after);
    assert after[..2] == ": " && after[2..] == Text(e.value) + rest;
    ParseBack(e.value, rest);
  }

  lemma {:induction false} EntriesBack(es: seq<Entry>, rest: string)
    requires QuoteFreeEntries(es)
    ensures ParseEntries(Join(EntryTexts(es), ", ") + ("}" + rest)) == Got(NormEntries(es), rest)
    decreases es, 2
  {
    var s := Join(EntryTexts(es), ", ") + ("}" + rest);
    if es == [] {
      assert s == "}" + rest;
    } else {
      TextStart(es[0].key);
      var tail := Tail(EntryTexts(es)[1..], "}" + rest);
      JoinTail(EntryTexts(es), "}" + rest);
      assert EntryTexts(es)[1..] == EntryTexts(es[1..]);
      MoreEntriesBack(es[1..], rest);
      EntryBack(es[0], tail);
    }
  }

  lemma {:induction false} MoreEntriesBack(es: seq<Entry>, rest: string)
    requires QuoteFreeEntries(es)
    ensures ParseMoreEntries(Tail(EntryTexts(es), "}" + rest)) == Got(NormEntries(es), rest)
    ensures !StartsWithDigit(Tail(EntryTexts(es), "}" + rest))
    decreases es, 1
  {
    if es != [] {
      var tail := Tail(EntryTexts(es[1..]), "}" + rest);
      MoreEntriesBack(es[1..], rest);
      EntryBack(es[0], tail);
      AnotherEntry(EntryText(es[0]), tail, rest, NormEntry(es[0]), NormEntries(es[1..]));
      assert EntryTexts(es)[1..] == EntryTexts(es[1..]);
      TailSteps(EntryTexts(es), "}" + rest);
    }
  }

  lemma AnotherEntry(text: string, tail: string, rest: string, e: Entry, es: seq<Entry>)
    requires ParseEntry(text + tail) == Got(e, tail) && ParseMoreEntries(tail) == Got(es, rest)
    ensures ParseMoreEntries(", " + (text + tail)) == Got([e] + es, rest)
  {
    var s := ", " + (text + tail);
    assert s[..2] == ", " && s[2..] == text + tail;
  }

  // ---- What the parser can return ------------------------------------------------------------------

  lemma {:induction false} QuotedIsFree(s: string)
    ensures Quoted(s).Got? ==> '"' !in Quoted(s).value
  {
    if s != "" && s[0] != '"' { QuotedIsFree(s[1..]); }
  }

  /** The parser's values have no quotes in their strings, and a number ends where its digits do. */
  lemma {:induction false} ParseIsFree(s: string)
    ensures Parse(s).Got? ==> QuoteFree(Parse(s).value) && (Parse(s).value.Num? ==> !StartsWithDigit(Parse(s).rest))
    decreases |s|, 1
  {
    if s != "" {
      if s[0] == '"' { QuotedIsFree(s[1..]); }
      else if s[0] == '[' { ItemsAreFree(s[1..], ']'); }
      else if s[0] == '(' { ItemsAreFree(s[1..], ')'); }
      else if s[0] == '{' { EntriesAreFree(s[1..]); }
      else if s[0] == '-' && |s| > 1 && IsDigit(s[1]) { DigitsShorter(s[1..], 0); }
      else if IsDigit(s[0]) { DigitsShorter(s, 0); }
    }
  }

  lemma {:induction false} ItemsAreFree(s: string, close: char)
    ensures ParseItems(s, close).Got? ==> QuoteFreeAll(ParseItems(s, close).value)
    decreases |s|, 2
  {
    if s != "" && s[0] != close {
      ParseIsFree(s);
      var r := Parse(s);
      if r.Got? { MoreAreFree(r.rest, close); }
    }
  }

  lemma {:induction false} MoreAreFree(s: string, close: char)
    ensures ParseMore(s, close).Got? ==> QuoteFreeAll(ParseMore(s, close).value)
    decreases |s|, 2
  {
    if s != "" && s[0] != close && ", " <= s {
      ParseIsFree(s[2..]);
      var r := Parse(s[2..]);
      if r.Got? { MoreAreFree(r.rest, close); }
    }
  }

  lemma {:induction false} EntryIsFree(s: string)
    ensures ParseEntry(s).Got? ==> QuoteFreeEntry(ParseEntry(s).value)
    decreases |s|, 2
  {
    ParseIsFree(s);
    var r := Parse(s);
    if r.Got? && ": " <= r.rest { ParseIsFree(r.rest[2..]); }
  }

  lemma {:induction false} EntriesAreFree(s: string)
    ensures ParseEntries(s).Got? ==> QuoteFreeEntries(ParseEntries(s).value)
    decreases |s|, 3
  {
    if s != "" && s[0] != '}' {
      EntryIsFree(s);
      var r := ParseEntry(s);
      if r.Got? { MoreEntriesAreFree(r.rest); }
    }
  }

  lemma {:induction false} MoreEntriesAreFree(s: string)
    ensures ParseMoreEntries(s).Got? ==> QuoteFreeEntries(ParseMoreEntries(s).value)
    decreases |s|, 3
  {
    if s != "" && s[0] != '}' && ", " <= s {
      EntryIsFree(s[2..]);
      var r := ParseEntry(s[2..]);
      if r.Got? { MoreEntriesAreFree(r.rest); }
    }
  }

  lemma {:induction false} NormKeepsQuotes(v: Value)
    ensures QuoteFree(Norm(v)) <==> QuoteFree(v)
    decreases v, 0
  {
    match v
    case MapOf(es) => NormKeepsEntryQuotes(es);
    case ListOf(vs) => NormKeepsAllQuotes(vs);
    case Tuple(vs) => NormKeepsAllQuotes(vs);
    case Variant(w) => NormKeepsQuotes(w);
    case Optional(o) => if o.Some? { NormKeepsQuotes(o.value); }
    case _ =>
  }

  lemma {:induction false} NormKeepsAllQuotes(vs: seq<Value>)
    ensures QuoteFreeAll(NormAll(vs)) <==> QuoteFreeAll(vs)
    decreases vs, 1
  {
    if vs != [] {
      NormKeepsQuotes(vs[0]);
      NormKeepsAllQuotes(vs[1..]);
      assert NormAll(vs)[1..] == NormAll(vs[1..]);
    }
  }

  lemma {:induction false} NormKeepsEntryQuotes(es: seq<Entry>)
    ensures QuoteFreeEntries(NormEntries(es)) <==> QuoteFreeEntries(es)
    decreases es, 1
  {
    if es != [] {
      var e := es[0];
      assert QuoteFreeEntry(NormEntry(e)) <==> QuoteFreeEntry(e) by { NormKeepsOneEntry(e); }
      NormKeepsEntryQuotes(es[1..]);
      assert NormEntries(es)[1..] == NormEntries(es[1..]);
    }
  }

  lemma {:induction false} NormKeepsOneEntry(e: Entry)
    ensures QuoteFreeEntry(NormEntry(e)) <==> QuoteFreeEntry(e)
    decreases e, 0
  {
    NormKeepsQuotes(e.key);
    NormKeepsQuotes(e.value);
  }

  // ---- Main results --------------------------------------------------------------------------------

  /** Printing is unambiguous: whatever follows, the value is read back up to variants and optionals,
      exactly when no string in it contains a quote and a digit does not follow a number. */
  lemma Unambiguous(v: Value, rest: string)
    ensures Parse(Text(v) + rest) == Got(Norm(v), rest) <==> QuoteFree(v) && Delimited(v, rest)
  {
    if QuoteFree(v) && Delimited(v, rest) { ParseBack(v, rest); }
    ParseIsFree(Text(v) + rest);
    NormKeepsQuotes(v);
  }

  /** Values that differ in variants and optionals only print alike; and among all values that print like `v`, which
      has no quotes, they are exactly the others without quotes. */
  lemma SameText(v: Value, w: Value)
    ensures Norm(v) == Norm(w) ==> Text(v) == Text(w)
    ensures QuoteFree(v) ==> (Norm(v) == Norm(w) <==> Text(v) == Text(w) && QuoteFree(w))
  {
    NormText(v);
    NormText(w);
    NormKeepsQuotes(v);
    NormKeepsQuotes(w);
    if QuoteFree(v) && QuoteFree(w) {
      ParseBack(v, "");
      ParseBack(w, "");
      assert Text(v) + "" == Text(v) && Text(w) + "" == Text(w);
    }
  }

  lemma {:induction false} NormText(v: Value)
    ensures Text(Norm(v)) == Text(v)
    decreases v, 0
  {
    match v
    case MapOf(es) => NormEntryTexts(es);
    case ListOf(vs) => NormTexts(vs);
    case Tuple(vs) => NormTexts(vs);
    case Variant(w) => NormText(w);
    case Optional(o) => if o.Some? { NormText(o.value); }
    case _ =>
  }

  lemma {:induction false} NormTexts(vs: seq<Value>)
    ensures Texts(NormAll(vs)) == Texts(vs)
    decreases vs, 1
  {
    if vs != [] {
      NormText(vs[0]);
      NormTexts(vs[1..]);
      assert NormAll(vs)[1..] == NormAll(vs[1..]);
    }
  }

  lemma {:induction false} NormEntryText(e: Entry)
    ensures EntryText(NormEntry(e)) == EntryText(e)
    decreases e, 0
  {
    NormText(e.key);
    NormText(e.value);
  }

  lemma {:induction false} NormEntryTexts(es: seq<Entry>)
    ensures EntryTexts(NormEntries(es)) == EntryTexts(es)
    decreases es, 1
  {
    if es != [] {
      NormEntryText(es[0]);
      NormEntryTexts(es[1..]);
      assert NormEntries(es)[1..] == NormEntries(es[1..]);
    }
  }

  /** With a quote in a string the text no longer tells what was printed. */
  lemma QuotesAreAmbiguous()
    ensures var one, two := ListOf([Str("a\", \"b")]), ListOf([Str("a"), Str("b")]);
      Text(one) == Text(two) && Norm(one) != Norm(two)
  {
    var one, two := [Str("a\", \"b")], [Str("a"), Str("b")];
    assert Text(one[0]) == "\"a\", \"b\"" && Text(two[0]) == "\"a\"" && Text(two[1]) == "\"b\"";
    var ts := Texts(two);
    assert ts[1..] == [Text(two[1])];
    assert Join(ts, ", ") == "\"a\"" + ", " + "\"b\"";
    assert |NormAll(one)| == 1 by { assert one[1..] == []; }
    assert |NormAll(two)| > 1 by { assert two[1..] == [Str("b")] && NormAll([Str("b")]) != []; }
  }

  // ---- Lines ---------------------------------------------------------------------------------------

  /** Reads the arguments of print back from its line. */
  function ParseLine(s: string): Parsed<seq<Value>>
    decreases |s|
  {
    var (v, rest) :- Parse(s);
    if rest == "" then Fail
    else if rest[0] == '\n' then Got([v], rest[1..])
    else if rest[0] == ' ' then
      var (vs, end) :- ParseLine(rest[1..]);
      Got([v] + vs, end)
    else Fail
  }

  /** A printed line gives back its arguments one by one, whatever is printed after it. */
  lemma {:induction false} LineBack(args: seq<Value>, rest: string)
    requires args != [] && QuoteFreeAll(args)
    ensures ParseLine(Line(args) + rest) == Got(NormAll(args), rest)
    decreases |args|
  {
    var s := Line(args) + rest;
    if |args| == 1 {
      var after := "\n" + rest;
      assert s == Text(args[0]) + after;
      ParseBack(args[0], after);
      assert after[1..] == rest && args[1..] == [] && NormAll(args) == [Norm(args[0])];
    } else {
      var after := " " + (Line(args[1..]) + rest);
      assert Texts(args)[1..] == Texts(args[1..]);
      assert s == Text(args[0]) + after;
      ParseBack(args[0], after);
      assert after[1..] == Line(args[1..]) + rest;
      LineBack(args[1..], rest);
    }
  }

  lemma {:induction false} LineIsFree(s: string)
    ensures ParseLine(s).Got? ==> QuoteFreeAll(ParseLine(s).value)
    decreases |s|
  {
    ParseIsFree(s);
    var r := Parse(s);
    if r.Got? && r.rest != "" && r.rest[0] == ' ' { LineIsFree(r.rest[1..]); }
  }

  /** A line can be read back argument by argument exactly when no string in it contains a quote. */
  lemma LineUnambiguous(args: seq<Value>, rest: string)
    requires args != []
    ensures ParseLine(Line(args) + rest) == Got(NormAll(args), rest) <==> QuoteFreeAll(args)
  {
    if QuoteFreeAll(args) { LineBack(args, rest); }
    LineIsFree(Line(args) + rest);
    NormKeepsAllQuotes(args);
  }
}

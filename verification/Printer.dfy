/** The recursive pretty printer, and a parser that inverts it. */
module Printer {
  import opened Prelude
  import opened Decimal

  /** A printable value.  Maps carry their entries in iteration order; integers are of any width. */
  datatype Value =
    | Str(text: string)
    | Num(n: int)
    | Bool(b: bool)
    | MapOf(entries: seq<Entry>)
    | ListOf(items: seq<Value>)
    | Variant(held: Value)
    | Optional(inner: Option<Value>)
    | Nullopt
    | Tuple(parts: seq<Value>)

  datatype Entry = Entry(key: Value, value: Value)

  // ---- What is printed ---------------------------------------------------------------------------

  function NatText(n: nat): string {
    if n < 10 then [Digit(n)] else NatText(n / 10) + [Digit(n % 10)]
  }

  function NumText(n: int): string { if n < 0 then "-" + NatText(-n) else NatText(n) }

  lemma {:induction false} NatTextReads(n: nat)
    ensures Numeral(NatText(n)) && ReadDigits(NatText(n)) == n
    decreases n
  {
    if n < 10 {
      assert NatText(n)[..0] == "";
    } else {
      NatTextReads(n / 10);
      DigitAfter(NatText(n / 10), n % 10);
    }
  }

  lemma DigitAfter(t: string, d: nat)
    requires Numeral(t) && d < 10 && ReadDigits(t) > 0
    ensures Numeral(t + [Digit(d)]) && ReadDigits(t + [Digit(d)]) == 10 * ReadDigits(t) + d
  {
    assert (t + [Digit(d)])[..|t|] == t;
    assert |t| == 1 ==> t[..0] == "";
  }

  lemma {:induction false} NumeralIsNatText(s: string)
    requires Numeral(s)
    ensures ReadDigits(s) >= 0 && NatText(ReadDigits(s)) == s
    decreases |s|
  {
    var n := |s| - 1;
    var (t, d) := (s[..n], s[n] as int - '0' as int);
    assert s == t + [Digit(d)];
    if n == 0 {
      assert t == "" && ReadDigits(s) == d;
    } else {
      NumeralIsNatText(t);
      ReadsPositive(t);
      assert ReadDigits(s) / 10 == ReadDigits(t) && ReadDigits(s) % 10 == d;
    }
  }

  /** A natural number prints as the one text of digits that has its value and no zero in front of others. */
  lemma NatTextIs(n: nat, s: string)
    ensures s == NatText(n) <==> Numeral(s) && ReadDigits(s) == n
  {
    NatTextReads(n);
    if Numeral(s) { NumeralIsNatText(s); }
  }

  /** Any other integer prints as that, after a minus. */
  lemma NumTextIs(n: int, s: string)
    ensures s == NumText(n) <==>
            if n < 0 then s != "" && s[0] == '-' && Numeral(s[1..]) && ReadDigits(s[1..]) == -n
            else Numeral(s) && ReadDigits(s) == n
  {
    if n >= 0 {
      NatTextIs(n, s);
    } else {
      if s != "" { NatTextIs(-n, s[1..]); }
      NatTextIs(-n, NatText(-n));
      assert NumText(n)[1..] == NatText(-n);
      if s != "" && s[0] == '-' { assert s == "-" + s[1..]; }
    }
  }

  function Join(texts: seq<string>, sep: string): string {
    if texts == [] then ""
    else if |texts| == 1 then texts[0]
    else texts[0] + sep + Join(texts[1..], sep)
  }

  function Text(v: Value): string
    decreases v, 0
  {
    match v
    case Str(s) => "\"" + s + "\""
    case Num(n) => NumText(n)
    case Bool(b) => if b then "true" else "false"
    case MapOf(es) => "{" + Join(EntryTexts(es), ", ") + "}"
    case ListOf(vs) => "[" + Join(Texts(vs), ", ") + "]"
    case Variant(w) => Text(w)
    case Optional(o) => if o.Some? then Text(o.value) else "nullopt"
    case Nullopt => "nullopt"
    case Tuple(vs) => "(" + Join(Texts(vs), ", ") + ")"
  }

  function Texts(vs: seq<Value>): (ts: seq<string>)
    ensures |ts| == |vs|
    ensures forall i :: 0 <= i < |vs| ==> ts[i] == Text(vs[i])
    decreases vs, 1
  {
    if vs == [] then [] else [Text(vs[0])] + Texts(vs[1..])
  }

  function EntryTexts(es: seq<Entry>): (ts: seq<string>)
    ensures |ts| == |es|
    ensures forall i :: 0 <= i < |es| ==> ts[i] == EntryText(es[i])
    decreases es, 1
  {
    if es == [] then [] else [EntryText(es[0])] + EntryTexts(es[1..])
  }

  function EntryText(e: Entry): string
    decreases e, 0
  {
    Text(e.key) + ": " + Text(e.value)
  }

  // ---- The printer -------------------------------------------------------------------------------

  lemma {:induction false} JoinAppend(texts: seq<string>, t: string, sep: string)
    ensures Join(texts + [t], sep) == Join(texts, sep) + (if texts == [] then "" else sep) + t
  {
    if texts == [] {
      assert [] + [t] == [t];
    } else if |texts| == 1 {
      assert (texts + [t])[1..] == [t];
    } else {
      assert (texts + [t])[1..] == texts[1..] + [t];
      JoinAppend(texts[1..], t, sep);
    }
  }

  /** What one more turn of a separator loop prints, onto `base`. */
  lemma JoinNext(base: string, texts: seq<string>, i: nat, sep: string)
    requires i < |texts|
    ensures base + Join(texts[..i + 1], sep) == base + Join(texts[..i], sep) + (if i == 0 then "" else sep) + texts[i]
  {
    assert texts[..i + 1] == texts[..i] + [texts[i]];
    JoinAppend(texts[..i], texts[i], sep);
    Regroup(base, Join(texts[..i], sep), if i == 0 then "" else sep, texts[i]);
  }

  lemma Regroup(a: string, b: string, c: string, d: string)
    ensures a + (b + c + d) == a + b + c + d
  {
  }

  class Stream {
    var text: string

    constructor ()
      ensures text == ""
    {
      text := "";
    }

    method Put(s: string)
      modifies this
      ensures text == old(text) + s
    {
      text := text + s;
    }

    /** print_to */
    method PrintTo(v: Value)
      modifies this
      ensures text == old(text) + Text(v)
      decreases v, 0
    {
      match v {
        case Str(s) => Put("\"" + s + "\"");
        case Num(n) => Put(NumText(n));
        case Bool(b) => Put(if b then "true" else "false");
        case MapOf(es) => PrintEntries(es);
        case ListOf(vs) => PrintItems("[", vs, "]");
        case Variant(w) => PrintTo(w);
        case Optional(o) => if o.Some? { PrintTo(o.value); } else { Put("nullopt"); }
        case Nullopt => Put("nullopt");
        case Tuple(vs) => PrintItems("(", vs, ")");
      }
    }

    /** The elements of a container or a tuple, in brackets. */
    method PrintItems(open: string, vs: seq<Value>, close: string)
      modifies this
      ensures text == old(text) + open + Join(Texts(vs), ", ") + close
      decreases vs, 1
    {
      ghost var texts := Texts(vs);
      Put(open);
      ghost var base := text;
      assert base + Join(texts[..0], ", ") == base;
      var first := true;
      var i := 0;
      while i < |vs|
        invariant 0 <= i <= |vs| && (first <==> i == 0)
        invariant text == base + Join(texts[..i], ", ")
      {
        JoinNext(base, texts, i, ", ");
        if !first { Put(", "); }
        first := false;
        PrintTo(vs[i]);
        i := i + 1;
      }
      assert texts[..|vs|] == texts;
      Put(close);
    }

    /** The entries of a map, in braces. */
    method PrintEntries(es: seq<Entry>)
      modifies this
      ensures text == old(text) + "{" + Join(EntryTexts(es), ", ") + "}"
      decreases es, 1
    {
      ghost var texts := EntryTexts(es);
      Put("{");
      ghost var base := text;
      assert base + Join(texts[..0], ", ") == base;
      var first := true;
      var i := 0;
      while i < |es|
        invariant 0 <= i <= |es| && (first <==> i == 0)
        invariant text == base + Join(texts[..i], ", ")
      {
        JoinNext(base, texts, i, ", ");
        if !first { Put(", "); }
        first := false;
        PrintEntry(es[i]);
        i := i + 1;
      }
      assert texts[..|es|] == texts;
      Put("}");
    }

    method PrintEntry(e: Entry)
      modifies this
      ensures text == old(text) + EntryText(e)
      decreases e, 0
    {
      PrintTo(e.key);
      Put(": ");
      PrintTo(e.value);
    }

    /** print: all arguments on one line, separated by blanks */
    method PrintLine(args: seq<Value>)
      requires args != []
      modifies this
      ensures text == old(text) + Line(args)
    {
      ghost var texts, base := Texts(args), text;
      PrintTo(args[0]);
      JoinNext(base, texts, 0, " ");
      assert base + Join(texts[..0], " ") + "" == base;
      var i := 1;
      while i < |args|
        invariant 1 <= i <= |args|
        invariant text == base + Join(texts[..i], " ")
      {
        JoinNext(base, texts, i, " ");
        Put(" ");
        PrintTo(args[i]);
        i := i + 1;
      }
      assert texts[..|args|] == texts;
      Put("\n");
    }
  }

  /** P: the text of a value */
  method Pretty(v: Value) returns (s: string)
    ensures s == Text(v)
  {
    var out := new Stream();
    out.PrintTo(v);
    s := out.text;
  }

  function Line(args: seq<Value>): string { Join(Texts(args), " ") + "\n" }
}

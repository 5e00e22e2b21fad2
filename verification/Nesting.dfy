/** Brackets in printed text, outside string literals, are well nested. */
module Nesting {
  import opened Printer
  import opened Parser

  /** The brackets that are open, and whether a string literal is. */
  datatype Scanner = Open(stack: string, quoted: bool) | Crossed

  function Mate(c: char): char { if c == ']' then '[' else if c == ')' then '(' else '{' }

  function Feed(s: Scanner, c: char): Scanner {
    if s.Crossed? then s
    else if c == '"' then s.(quoted := !s.quoted)
    else if s.quoted then s
    else if c in "[({" then s.(stack := s.stack + [c])
    else if c in "])}" then
      if s.stack != "" && s.stack[|s.stack| - 1] == Mate(c) then s.(stack := s.stack[..|s.stack| - 1])
      else Crossed
    else s
  }

  function Scan(s: Scanner, text: string): Scanner
    decreases |text|
  {
    if text == "" then s else Scan(Feed(s, text[0]), text[1..])
  }

  lemma {:induction false} ScanAppend(s: Scanner, a: string, b: string)
    ensures Scan(s, a + b) == Scan(Scan(s, a), b)
    decreases |a|
  {
    if a == "" {
      assert a + b == b;
    } else {
      assert (a + b)[1..] == a[1..] + b;
      ScanAppend(Feed(s, a[0]), a[1..], b);
    }
  }

  predicate Plain(text: string) { forall i :: 0 <= i < |text| ==> text[i] !in "\"[({])}" }

  lemma {:induction false} ScanPlain(s: Scanner, text: string)
    requires Plain(text)
    ensures Scan(s, text) == s
  {
    if text != "" { ScanPlain(s, text[1..]); }
  }

  lemma {:induction false} ScanQuoted(s: Scanner, text: string)
    requires s.Open? && s.quoted && '"' !in text
    ensures Scan(s, text) == s
  {
    if text != "" { ScanQuoted(s, text[1..]); }
  }

  lemma {:induction false} NatTextPlain(n: nat)
    ensures Plain(NatText(n))
  {
    if n >= 10 { NatTextPlain(n / 10); }
  }

  lemma ScanBracketed(stack: string, open: char, inner: string, close: char)
    requires open in "[({" && close in "])}" && Mate(close) == open
    requires Scan(Open(stack + [open], false), inner) == Open(stack + [open], false)
    ensures Scan(Open(stack, false), [open] + inner + [close]) == Open(stack, false)
  {
    var s := Open(stack, false);
    ScanAppend(s, [open] + inner, [close]);
    ScanAppend(s, [open], inner);
    assert Scan(s, [open]) == Open(stack + [open], false) by { assert [open][1..] == ""; }
    assert Scan(Open(stack + [open], false), [close]) == s by {
      assert [close][1..] == "" && (stack + [open])[..|stack|] == stack;
    }
  }

  /** `text` leaves open exactly the brackets that were open before it, and no literal. */
  ghost predicate Nests(text: string) {
    forall stack: string {:trigger Scan(Open(stack, false), text)} :: Scan(Open(stack, false), text) == Open(stack, false)
  }

  /** Between quotes, `t` leaves the literal open and every bracket where it was. */
  ghost predicate Returns(t: string) {
    forall stack: string {:trigger Scan(Open(stack, true), t)} :: Scan(Open(stack, true), t) == Open(stack, true)
  }

  ghost predicate StringsReturn(v: Value)
    decreases v, 0
  {
    match v
    case Str(t) => Returns(t)
    case MapOf(es) => forall i :: 0 <= i < |es| ==> StringsReturn(es[i].key) && StringsReturn(es[i].value)
    case ListOf(vs) => forall i :: 0 <= i < |vs| ==> StringsReturn(vs[i])
    case Tuple(vs) => forall i :: 0 <= i < |vs| ==> StringsReturn(vs[i])
    case Variant(w) => StringsReturn(w)
    case Optional(o) => o.Some? ==> StringsReturn(o.value)
    case _ => true
  }

  /** The text of the value and of every value in it nests. */
  ghost predicate NestsThroughout(v: Value)
    decreases v, 0
  {
    && Nests(Text(v))
    && match v
       case MapOf(es) => forall i :: 0 <= i < |es| ==> NestsThroughout(es[i].key) && NestsThroughout(es[i].value)
       case ListOf(vs) => forall i :: 0 <= i < |vs| ==> NestsThroughout(vs[i])
       case Tuple(vs) => forall i :: 0 <= i < |vs| ==> NestsThroughout(vs[i])
       case Variant(w) => NestsThroughout(w)
       case Optional(o) => o.Some? ==> NestsThroughout(o.value)
       case _ => true
  }

  /** A string literal nests just when what is between the quotes returns. */
  lemma LiteralNests(t: string)
    ensures Nests(Text(Str(t))) <==> Returns(t)
  {
    forall stack: string
      ensures Scan(Open(stack, false), Text(Str(t))) == Open(stack, false) <==> Scan(Open(stack, true), t) == Open(stack, true)
    {
      LiteralOnStack(t, stack);
    }
  }

  lemma LiteralOnStack(t: string, stack: string)
    ensures Scan(Open(stack, false), Text(Str(t))) == Open(stack, false) <==> Scan(Open(stack, true), t) == Open(stack, true)
  {
    var s := Open(stack, false);
    ScanAppend(s, "\"" + t, "\"");
    ScanAppend(s, "\"", t);
    assert Scan(s, "\"") == Open(stack, true) by { assert "\""[1..] == ""; }
    var r := Scan(Open(stack, true), t);
    assert Scan(r, "\"") == Feed(r, '"') by { assert "\""[1..] == ""; }
  }

  lemma QuoteFreeReturns(t: string)
    requires '"' !in t
    ensures Returns(t)
  {
    forall stack: string ensures Scan(Open(stack, true), t) == Open(stack, true) { ScanQuoted(Open(stack, true), t); }
  }

  /** The text of a value leaves open exactly the brackets that were open before it. */
  lemma {:induction false} WellNested(v: Value, stack: string)
    requires StringsReturn(v)
    ensures Scan(Open(stack, false), Text(v)) == Open(stack, false)
    decreases v, 0
  {
    var s := Open(stack, false);
    match v
    case Str(t) => LiteralOnStack(t, stack);
    case Num(n) =>
      NatTextPlain(if n < 0 then -n else n);
      ScanPlain(s, Text(v));
    case Bool(b) => ScanPlain(s, Text(v));
    case MapOf(es) =>
      EntriesNested(es, stack + "{");
      ScanBracketed(stack, '{', Join(EntryTexts(es), ", "), '}');
    case ListOf(vs) =>
      ItemsNested(vs, stack + "[");
      ScanBracketed(stack, '[', Join(Texts(vs), ", "), ']');
    case Variant(w) => WellNested(w, stack);
    case Optional(o) => if o.Some? { WellNested(o.value, stack); } else { ScanPlain(s, "nullopt"); }
    case Nullopt => ScanPlain(s, "nullopt");
    case Tuple(vs) =>
      ItemsNested(vs, stack + "(");
      ScanBracketed(stack, '(', Join(Texts(vs), ", "), ')');
  }

  lemma {:induction false} ItemsNested(vs: seq<Value>, stack: string)
    requires forall i :: 0 <= i < |vs| ==> StringsReturn(vs[i])
    ensures Scan(Open(stack, false), Join(Texts(vs), ", ")) == Open(stack, false)
    decreases vs, 1
  {
    if vs != [] {
      WellNested(vs[0], stack);
      ItemsNested(vs[1..], stack);
      assert Texts(vs)[1..] == Texts(vs[1..]);
      JoinNested(Texts(vs), stack);
    }
  }

  lemma {:induction false} EntriesNested(es: seq<Entry>, stack: string)
    requires forall i :: 0 <= i < |es| ==> StringsReturn(es[i].key) && StringsReturn(es[i].value)
    ensures Scan(Open(stack, false), Join(EntryTexts(es), ", ")) == Open(stack, false)
    decreases es, 1
  {
    if es != [] {
      EntryNested(es[0], stack);
      EntriesNested(es[1..], stack);
      assert EntryTexts(es)[1..] == EntryTexts(es[1..]);
      JoinNested(EntryTexts(es), stack);
    }
  }

  lemma {:induction false} EntryNested(e: Entry, stack: string)
    requires StringsReturn(e.key) && StringsReturn(e.value)
    ensures Scan(Open(stack, false), EntryText(e)) == Open(stack, false)
    decreases e, 0
  {
    var s := Open(stack, false);
    WellNested(e.key, stack);
    WellNested(e.value, stack);
    ScanPlain(s, ": ");
    ScanAppend(s, Text(e.key) + ": ", Text(e.value));
    ScanAppend(s, Text(e.key), ": ");
  }

  lemma JoinNested(texts: seq<string>, stack: string)
    requires texts != [] && Scan(Open(stack, false), texts[0]) == Open(stack, false)
    requires Scan(Open(stack, false), Join(texts[1..], ", ")) == Open(stack, false)
    ensures Scan(Open(stack, false), Join(texts, ", ")) == Open(stack, false)
  {
    var s := Open(stack, false);
    if |texts| > 1 {
      ScanPlain(s, ", ");
      ScanAppend(s, texts[0] + ", ", Join(texts[1..], ", "));
      ScanAppend(s, texts[0], ", ");
    }
  }

  /** With a quote in a string, its brackets may count. */
  lemma QuoteBreaksNesting()
    ensures Scan(Open("", false), Text(Str("\"]"))) == Crossed
  {
    var t := Text(Str("\"]"));
    assert t == "\"\"]\"";
    assert Scan(Open("", false), t) == Scan(Open("", true), t[1..]) == Scan(Open("", false), t[1..][1..]);
    assert t[1..][1..] == "]\"";
    assert Scan(Open("", false), "]\"") == Scan(Crossed, "]\""[1..]);
    assert Scan(Crossed, "\"") == Scan(Crossed, "\""[1..]);
  }

  /** A value nests throughout just when all its strings return, as those without quotes do. */
  lemma {:induction false} NestsExactly(v: Value)
    ensures NestsThroughout(v) <==> StringsReturn(v)
    ensures QuoteFree(v) ==> NestsThroughout(v)
    decreases v
  {
    if QuoteFree(v) { QuoteFreeNests(v); }
    match v
    case Str(t) => LiteralNests(t);
    case MapOf(es) =>
      forall i | 0 <= i < |es|
        ensures NestsThroughout(es[i].key) && NestsThroughout(es[i].value)
                <==> StringsReturn(es[i].key) && StringsReturn(es[i].value)
      {
        assert es[i] in es;
        NestsExactly(es[i].key);
        NestsExactly(es[i].value);
      }
      OwnTextNests(v);
    case ListOf(vs) =>
      forall i | 0 <= i < |vs| ensures NestsThroughout(vs[i]) <==> StringsReturn(vs[i]) { NestsExactly(vs[i]); }
      OwnTextNests(v);
    case Tuple(vs) =>
      forall i | 0 <= i < |vs| ensures NestsThroughout(vs[i]) <==> StringsReturn(vs[i]) { NestsExactly(vs[i]); }
      OwnTextNests(v);
    case Variant(w) => NestsExactly(w); OwnTextNests(v);
    case Optional(o) =>
      if o.Some? { NestsExactly(o.value); }
      OwnTextNests(v);
    case _ => OwnTextNests(v);
  }

  lemma OwnTextNests(v: Value)
    ensures StringsReturn(v) ==> Nests(Text(v))
  {
    if StringsReturn(v) {
      forall stack: string ensures Scan(Open(stack, false), Text(v)) == Open(stack, false) { WellNested(v, stack); }
    }
  }

  lemma {:induction false} QuoteFreeNests(v: Value)
    requires QuoteFree(v)
    ensures StringsReturn(v)
    decreases v, 0
  {
    match v
    case Str(t) => QuoteFreeReturns(t);
    case MapOf(es) => QuoteFreeEntriesNest(es);
    case ListOf(vs) => QuoteFreeItemsNest(vs);
    case Tuple(vs) => QuoteFreeItemsNest(vs);
    case Variant(w) => QuoteFreeNests(w);
    case Optional(o) => if o.Some? { QuoteFreeNests(o.value); }
    case _ =>
  }

  lemma {:induction false} QuoteFreeItemsNest(vs: seq<Value>)
    requires QuoteFreeAll(vs)
    ensures forall i :: 0 <= i < |vs| ==> StringsReturn(vs[i])
    decreases vs, 1
  {
    if vs != [] {
      QuoteFreeNests(vs[0]);
      QuoteFreeItemsNest(vs[1..]);
      assert forall i :: 1 <= i < |vs| ==> vs[i] == vs[1..][i - 1];
    }
  }

  lemma {:induction false} QuoteFreeEntryNests(e: Entry)
    requires QuoteFreeEntry(e)
    ensures StringsReturn(e.key) && StringsReturn(e.value)
    decreases e, 0
  {
    QuoteFreeNests(e.key);
    QuoteFreeNests(e.value);
  }

  lemma {:induction false} QuoteFreeEntriesNest(es: seq<Entry>)
    requires QuoteFreeEntries(es)
    ensures forall i :: 0 <= i < |es| ==> StringsReturn(es[i].key) && StringsReturn(es[i].value)
    decreases es, 1
  {
    if es != [] {
      QuoteFreeEntryNests(es[0]);
      QuoteFreeEntriesNest(es[1..]);
      assert forall i :: 1 <= i < |es| ==> es[i] == es[1..][i - 1];
    }
  }
}

/** The two back ends say the same: the byte stream decodes to exactly what was inserted, and replaying
    what was decoded gives what the native console shows. What the console shows is then given by a
    reference that looks only at the history of manipulators, not at any state. */
module RangLaws {
  import opened Prelude
  import opened Rang
  import Printer
  import Parser

  // ---- A decoder ------------------------------------------------------------------------------------

  function FromStyleCode(n: nat): Style
    requires n < 10
  {
    [Reset, Bold, Dim, Italic, Underline, Blink, RBlink, Reversed, Conceal, Crossed][n]
  }

  function FromColorCode(n: nat): Color
    requires n < 8
  {
    [Black, Red, Green, Yellow, Blue, Magenta, Cyan, Gray][n]
  }

  /** The manipulator an SGR parameter stands for. */
  function FromCode(n: nat): Option<Manip> {
    if n < 10 then Some(Styled(FromStyleCode(n)))
    else if 30 <= n < 38 then Some(Fg(FromColorCode(n - 30)))
    else if n == 39 then Some(FgReset)
    else if 40 <= n < 48 then Some(Bg(FromColorCode(n - 40)))
    else if n == 49 then Some(BgReset)
    else if 90 <= n < 98 then Some(BrightFg(FromColorCode(n - 90)))
    else if 100 <= n < 108 then Some(BrightBg(FromColorCode(n - 100)))
    else None
  }

  lemma CodesAreDistinct(m: Manip, n: nat)
    ensures FromCode(n) == Some(m) <==> n == Code(m)
  {
    if m.Styled? { match m.style case _ => }
  }

  function Prepend(t: Token, ts: Option<seq<Token>>): Option<seq<Token>> {
    match ts case None => None case Some(r) => Some([t] + r)
  }

  /** Reads a byte stream. An escape that does not start a sequence with a known parameter is an error. */
  function Decode(s: string): Option<seq<Token>>
    decreases |s|
  {
    if s == "" then Some([])
    else if s[0] != ESC then Prepend(Ch(s[0]), Decode(s[1..]))
    else if |s| < 2 || s[1] != '[' then None
    else
      Parser.DigitsShorter(s[2..], 0);
      var (n, rest) := Parser.Digits(s[2..], 0);
      if rest == "" || rest[0] != 'm' || FromCode(n).None? then None
      else Prepend(Sgr(FromCode(n).value), Decode(rest[1..]))
  }

  predicate EscapeFree(items: seq<Item>) {
    forall i :: 0 <= i < |items| && items[i].Text? ==> ESC !in items[i].text
  }

  lemma DecodeSequence(m: Manip, rest: string)
    ensures Decode(Sequence(m) + rest) == Prepend(Sgr(m), Decode(rest))
  {
    var s := Sequence(m) + rest;
    var digits := Printer.NatText(Code(m));
    assert s[0] == ESC && s[1] == '[' && s[2..] == digits + ("m" + rest);
    Parser.DigitsBack(Code(m), 0, "m" + rest);
    assert Parser.Digits("m" + rest, Code(m)) == (Code(m), "m" + rest);
    assert ("m" + rest)[1..] == rest;
    CodesAreDistinct(m, Code(m));
  }

  lemma {:induction false} DecodeText(s: string, rest: string)
    requires ESC !in s
    ensures Decode(rest).None? ==> Decode(s + rest).None?
    ensures Decode(rest).Some? ==> Decode(s + rest) == Some(CharTokens(s) + Decode(rest).value)
    decreases |s|
  {
    if s == "" {
      assert s + rest == rest;
      assert CharTokens(s) == [];
      if Decode(rest).Some? { assert [] + Decode(rest).value == Decode(rest).value; }
    } else {
      assert (s + rest)[1..] == s[1..] + rest;
      DecodeText(s[1..], rest);
      assert CharTokens(s) == [Ch(s[0])] + CharTokens(s[1..]);
      if Decode(rest).Some? {
        assert [Ch(s[0])] + (CharTokens(s[1..]) + Decode(rest).value) == CharTokens(s) + Decode(rest).value;
      }
    }
  }

  /** Nothing the decoder accepts has an escape as a character. */
  lemma {:induction false} NoEscapeDecoded(s: string)
    ensures Decode(s).Some? ==> Ch(ESC) !in Decode(s).value
    decreases |s|
  {
    if s != "" {
      if s[0] != ESC {
        NoEscapeDecoded(s[1..]);
      } else if |s| >= 2 && s[1] == '[' {
        Parser.DigitsShorter(s[2..], 0);
        var (n, rest) := Parser.Digits(s[2..], 0);
        if rest != "" { NoEscapeDecoded(rest[1..]); }
      }
    }
  }

  lemma {:induction false} EscapeShows(items: seq<Item>)
    requires !EscapeFree(items)
    ensures Ch(ESC) in Tokens(items)
  {
    if items[0].Text? && ESC in items[0].text {
      var k :| 0 <= k < |items[0].text| && items[0].text[k] == ESC;
      assert CharTokens(items[0].text)[k] == Ch(ESC);
    } else {
      var i :| 0 <= i < |items| && items[i].Text? && ESC in items[i].text;
      assert items[1..][i - 1] == items[i];
      EscapeShows(items[1..]);
    }
  }

  lemma {:induction false} DecodeItems(items: seq<Item>)
    requires EscapeFree(items)
    ensures Decode(Emit(Bytes, items)) == Some(Tokens(items))
  {
    if items != [] {
      DecodeItems(items[1..]);
      match items[0]
      case Text(s) => DecodeText(s, Emit(Bytes, items[1..]));
      case Mod(m) => DecodeSequence(m, Emit(Bytes, items[1..]));
    }
  }

  /** The byte stream gives back exactly the interleaving that was inserted, just when no text has an escape. */
  lemma BytesDecode(items: seq<Item>)
    ensures Decode(Emit(Bytes, items)) == Some(Tokens(items)) <==> EscapeFree(items)
  {
    if EscapeFree(items) {
      DecodeItems(items);
    } else {
      EscapeShows(items);
      NoEscapeDecoded(Emit(Bytes, items));
    }
  }

  /** Text that holds a sequence of its own reads as a manipulator. */
  lemma ForgedSequence()
    ensures !EscapeFree([Text([ESC] + "[1m")])
    ensures Decode(Emit(Bytes, [Text([ESC] + "[1m")])) == Decode(Emit(Bytes, [Mod(Styled(Bold))])) == Some([Sgr(Styled(Bold))])
  {
    var t := [ESC] + "[1m";
    OneItem(Bytes, Text(t));
    OneItem(Bytes, Mod(Styled(Bold)));
    OneItem(Bytes, Mod(Styled(Bold)));
    assert t[0] == ESC;
    assert [Text(t)][0] == Text(t);
    assert Printer.NatText(1) == "1";
    assert Sequence(Styled(Bold)) == t;
    DecodeItems([Mod(Styled(Bold))]);
  }

  // ---- Stripping ------------------------------------------------------------------------------------

  /** What is left when the sequences are taken out. */
  function Plain(tokens: seq<Token>): string {
    if tokens == [] then ""
    else (if tokens[0].Ch? then [tokens[0].c] else "") + Plain(tokens[1..])
  }

  lemma {:induction false} PlainText(s: string, rest: seq<Token>)
    ensures Plain(CharTokens(s) + rest) == s + Plain(rest)
    decreases |s|
  {
    if s == "" {
      assert CharTokens(s) + rest == rest;
    } else {
      assert (CharTokens(s) + rest)[1..] == CharTokens(s[1..]) + rest;
      PlainText(s[1..], rest);
    }
  }

  lemma {:induction false} PlainIsSilent(b: Backend, items: seq<Item>)
    requires !b.Bytes?
    ensures Plain(Tokens(items)) == Emit(b, items)
  {
    if items != [] {
      PlainIsSilent(b, items[1..]);
      match items[0]
      case Text(s) => PlainText(s, Tokens(items[1..]));
      case Mod(m) => assert ([Sgr(m)] + Tokens(items[1..]))[1..] == Tokens(items[1..]);
    }
  }

  function Characters(cells: seq<Cell>): (s: string)
    ensures |s| == |cells|
  {
    seq(|cells|, i requires 0 <= i < |cells| => cells[i].0)
  }

  lemma FirstCharacter(cell: Cell, cells: seq<Cell>)
    ensures Characters([cell] + cells) == [cell.0] + Characters(cells)
  {
  }

  lemma {:induction false} ShownText(d: SGR, state: SGR, attr: bv16, tokens: seq<Token>)
    ensures Characters(Show(d, state, attr, tokens)) == Plain(tokens)
    decreases |tokens|
  {
    if tokens != [] {
      match tokens[0]
      case Ch(c) =>
        ShownText(d, state, attr, tokens[1..]);
        FirstCharacter((c, attr), Show(d, state, attr, tokens[1..]));
      case Sgr(m) => var s := SetSGR(d, m, state); ShownText(d, s, Attribute(s), tokens[1..]);
    }
  }

  /** The back ends agree. From the bytes alone one gets the uncoloured output by stripping, and everything
      the native console comes to show, its state and its attribute by replaying; just when no text has an escape. */
  lemma BackEndsAgree(d: SGR, v: View, items: seq<Item>)
    ensures var r := Decode(Emit(Bytes, items));
            (r.Some? && Plain(r.value) == Emit(Silent, items) == Emit(Console, items)
             && Given(Console, d, v, items) == Taken(Console, d, v, Plain(r.value), r.value))
            <==> EscapeFree(items)
  {
    BytesDecode(items);
    PlainIsSilent(Silent, items);
    PlainIsSilent(Console, items);
    if !EscapeFree(items) {
      EscapeShows(items);
      NoEscapeDecoded(Emit(Bytes, items));
      PlainHas(Tokens(items), ESC);
      if Decode(Emit(Bytes, items)).Some? { PlainHas(Decode(Emit(Bytes, items)).value, ESC); }
    }
  }

  lemma {:induction false} PlainHas(tokens: seq<Token>, c: char)
    ensures c in Plain(tokens) <==> Ch(c) in tokens
  {
    if tokens != [] {
      PlainHas(tokens[1..], c);
      assert tokens == [tokens[0]] + tokens[1..];
    }
  }

  // ---- Modes that change on the way -----------------------------------------------------------------

  /** Which way a manipulator goes, case by case. */
  lemma WhichWay(p: Platform, control: Control, winTerm: WinTerm)
    ensures BackendOf(p, control, winTerm).Bytes? <==>
            && (control.Force? || (control.AutoDetect? && p.supportsColor && p.isTerminal))
            && (!p.windows || winTerm.Ansi? || (winTerm.Auto? && p.supportsAnsi))
    ensures BackendOf(p, control, winTerm).Console? <==>
            && (control.Force? || (control.AutoDetect? && p.supportsColor && p.isTerminal))
            && p.windows && (winTerm.Native? || (winTerm.Auto? && !p.supportsAnsi)) && p.hasConsole
  {
  }

  /** The mode in force is the last one set, or the first if none was. */
  lemma {:induction false} LastControlRules(control: Control, cmds: seq<Command>)
    ensures (forall i :: 0 <= i < |cmds| ==> !cmds[i].SetControl?) ==> ControlAfter(control, cmds) == control
    ensures forall i :: (0 <= i < |cmds| && cmds[i].SetControl? && (forall j :: i < j < |cmds| ==> !cmds[j].SetControl?)) ==>
                          ControlAfter(control, cmds) == cmds[i].control
    decreases |cmds|
  {
    if cmds != [] {
      LastControlRules(if cmds[0].SetControl? then cmds[0].control else control, cmds[1..]);
      assert forall i :: 1 <= i < |cmds| ==> cmds[i] == cmds[1..][i - 1];
    }
  }

  lemma {:induction false} LastTermRules(winTerm: WinTerm, cmds: seq<Command>)
    ensures (forall i :: 0 <= i < |cmds| ==> !cmds[i].SetTerm?) ==> TermAfter(winTerm, cmds) == winTerm
    ensures forall i :: (0 <= i < |cmds| && cmds[i].SetTerm? && (forall j :: i < j < |cmds| ==> !cmds[j].SetTerm?)) ==>
                          TermAfter(winTerm, cmds) == cmds[i].winTerm
    decreases |cmds|
  {
    if cmds != [] {
      LastTermRules(if cmds[0].SetTerm? then cmds[0].winTerm else winTerm, cmds[1..]);
      assert forall i :: 1 <= i < |cmds| ==> cmds[i] == cmds[1..][i - 1];
    }
  }

  function Puts(cmds: seq<Command>): nat { if cmds == [] then 0 else (if cmds[0].Put? then 1 else 0) + Puts(cmds[1..]) }

  /** Every item goes the way of the modes in force when it comes. */
  lemma {:induction false} RouteIs(p: Platform, control: Control, winTerm: WinTerm, cmds: seq<Command>, i: nat)
    requires i < |cmds| && cmds[i].Put?
    ensures |Route(p, control, winTerm, cmds)| == Puts(cmds) > Puts(cmds[..i])
    ensures Route(p, control, winTerm, cmds)[Puts(cmds[..i])] ==
            (BackendOf(p, ControlAfter(control, cmds[..i]), TermAfter(winTerm, cmds[..i])), cmds[i].item)
    decreases |cmds|
  {
    RouteLength(p, control, winTerm, cmds);
    if i > 0 {
      var (c, w) := (if cmds[0].SetControl? then cmds[0].control else control, if cmds[0].SetTerm? then cmds[0].winTerm else winTerm);
      RouteIs(p, c, w, cmds[1..], i - 1);
      assert cmds[..i][0] == cmds[0] && cmds[..i][1..] == cmds[1..][..i - 1];
    }
  }

  lemma {:induction false} RouteLength(p: Platform, control: Control, winTerm: WinTerm, cmds: seq<Command>)
    ensures |Route(p, control, winTerm, cmds)| == Puts(cmds)
    decreases |cmds|
  {
    if cmds != [] {
      var (c, w) := (if cmds[0].SetControl? then cmds[0].control else control, if cmds[0].SetTerm? then cmds[0].winTerm else winTerm);
      RouteLength(p, c, w, cmds[1..]);
    }
  }

  /** The items that reach the bytes: all text, and the manipulators sent that way. */
  function ByteItems(route: seq<Routed>): seq<Item> {
    if route == [] then []
    else (if route[0].1.Text? || route[0].0.Bytes? then [route[0].1] else []) + ByteItems(route[1..])
  }

  lemma {:induction false} RouteIsEmit(route: seq<Routed>)
    ensures RouteBytes(route) == Emit(Bytes, ByteItems(route))
  {
    if route != [] {
      RouteIsEmit(route[1..]);
      var rest := ByteItems(route[1..]);
      if route[0].1.Text? || route[0].0.Bytes? {
        assert ([route[0].1] + rest)[1..] == rest;
      } else {
        assert [] + rest == rest;
      }
    }
  }

  /** Whatever the changes of mode, the bytes give back exactly the text and the manipulators that were sent into
      them, just when no text has an escape. */
  lemma RouteDecodes(route: seq<Routed>)
    ensures Decode(RouteBytes(route)) == Some(Tokens(ByteItems(route))) <==> EscapeFree(ByteItems(route))
  {
    RouteIsEmit(route);
    BytesDecode(ByteItems(route));
  }

  /** The items that reach a console, a sequence sent into the bytes being text to it. */
  function ConsoleItems(route: seq<Routed>): seq<Item> {
    if route == [] then []
    else [if route[0].0.Console? then route[0].1 else Text(ItemBytes(route[0].0, route[0].1))] + ConsoleItems(route[1..])
  }

  /** So the console's display, state and attribute have the histories given above, of those items. */
  lemma {:induction false} RouteIsTokens(route: seq<Routed>)
    ensures RouteTokens(route) == Tokens(ConsoleItems(route))
  {
    if route != [] {
      RouteIsTokens(route[1..]);
      assert ConsoleItems(route)[1..] == ConsoleItems(route[1..]);
    }
  }

  // ---- What the native state remembers --------------------------------------------------------------

  /** The intensity bit 8 and the bits red 4, green 2, blue 1 of a console colour. */
  function Nibble(c: Color, bright: bool): bv8 {
    var n := ColorCode(c);
    (if n % 2 == 1 then 4 else 0) | (if n / 2 % 2 == 1 then 2 else 0) | (if n / 4 == 1 then 1 else 0)
      | (if bright then 8 else 0)
  }

  /** The foreground a manipulator sets. */
  function FgSet(d: SGR, m: Manip): Option<bv8> {
    match m
    case Fg(c) => Some(Nibble(c, false))
    case BrightFg(c) => Some(Nibble(c, true))
    case FgReset => Some(d.fgColor)
    case Styled(s) => if s.Reset? then Some(d.fgColor) else None
    case _ => None
  }

  function BgSet(d: SGR, m: Manip): Option<bv8> {
    match m
    case Bg(c) => Some(Nibble(c, false))
    case BrightBg(c) => Some(Nibble(c, true))
    case BgReset => Some(d.bgColor)
    case Styled(s) => if s.Reset? then Some(d.bgColor) else None
    case _ => None
  }

  function FgSets(d: SGR): Manip -> Option<bv8> { m => FgSet(d, m) }

  function BgSets(d: SGR): Manip -> Option<bv8> { m => BgSet(d, m) }

  /** The last value set, or `initial` if none was. */
  ghost predicate IsLast(tokens: seq<Token>, sets: Manip -> Option<bv8>, initial: bv8, x: bv8) {
    || (x == initial && forall j :: 0 <= j < |tokens| && tokens[j].Sgr? ==> sets(tokens[j].manip) == None)
    || (exists i :: && 0 <= i < |tokens| && tokens[i].Sgr? && sets(tokens[i].manip) == Some(x)
                    && forall j :: i < j < |tokens| && tokens[j].Sgr? ==> sets(tokens[j].manip) == None)
  }

  const Clear: Token := Sgr(Styled(Reset))

  /** One of `styles` occurred, and no reset after it. */
  ghost predicate Since(tokens: seq<Token>, styles: set<Style>) {
    exists i :: && 0 <= i < |tokens| && tokens[i].Sgr? && tokens[i].manip.Styled? && tokens[i].manip.style in styles
                && forall j :: i < j < |tokens| ==> tokens[j] != Clear
  }

  lemma LastOneMore(ts: seq<Token>, t: Token, sets: Manip -> Option<bv8>, initial: bv8, x: bv8)
    requires IsLast(ts, sets, initial, x)
    ensures IsLast(ts + [t], sets, initial, if t.Sgr? then sets(t.manip).Or(x) else x)
  {
    var us := ts + [t];
    assert us[|ts|] == t && forall j :: 0 <= j < |ts| ==> us[j] == ts[j];
    if t.Sgr? && sets(t.manip).Some? {
    } else if !(x == initial && forall j :: 0 <= j < |ts| && ts[j].Sgr? ==> sets(ts[j].manip) == None) {
      var i :| && 0 <= i < |ts| && ts[i].Sgr? && sets(ts[i].manip) == Some(x)
               && forall j :: i < j < |ts| && ts[j].Sgr? ==> sets(ts[j].manip) == None;
      assert us[i].Sgr?;
    }
  }

  lemma SinceOneMore(ts: seq<Token>, t: Token, styles: set<Style>)
    requires Reset !in styles
    ensures Since(ts + [t], styles) <==>
            (t.Sgr? && t.manip.Styled? && t.manip.style in styles) || (t != Clear && Since(ts, styles))
  {
    var us := ts + [t];
    assert us[|ts|] == t && forall j :: 0 <= j < |ts| ==> us[j] == ts[j];
    if t != Clear && Since(ts, styles) {
      var i :| && 0 <= i < |ts| && ts[i].Sgr? && ts[i].manip.Styled? && ts[i].manip.style in styles
               && forall j :: i < j < |ts| ==> ts[j] != Clear;
      assert us[i] == ts[i];
    }
  }

  /** A start-up state. */
  predicate Fresh(d: SGR) { d.fgColor < 16 && d.bgColor < 16 && d.bold == 0 && d.underline == 0 && !d.inverse && !d.conceal }

  /** The state is what the history says. */
  ghost predicate Remembers(d: SGR, tokens: seq<Token>, s: SGR) {
    && IsLast(tokens, FgSets(d), d.fgColor, s.fgColor)
    && IsLast(tokens, BgSets(d), d.bgColor, s.bgColor)
    && s.bold == (if Since(tokens, {Bold}) then 0x08 else 0)
    && s.underline == (if Since(tokens, {Underline, Blink}) then 0x80 else 0)
    && (s.inverse <==> Since(tokens, {Reversed}))
    && (s.conceal <==> Since(tokens, {Conceal}))
  }

  lemma NibblesAreAttributes(c: Color)
    ensures Ansi2Attr(c) == Nibble(c, false) && 0x08 | Ansi2Attr(c) == Nibble(c, true)
    ensures Nibble(c, false) < 8 <= Nibble(c, true) < 16
  {
    match c case _ =>
  }

  /** What one manipulator does to the colours. */
  lemma OneColor(d: SGR, m: Manip, s: SGR)
    ensures SetSGR(d, m, s).fgColor == FgSet(d, m).Or(s.fgColor)
    ensures SetSGR(d, m, s).bgColor == BgSet(d, m).Or(s.bgColor)
  {
    match m
    case Fg(c) => NibblesAreAttributes(c);
    case BrightFg(c) => NibblesAreAttributes(c);
    case Bg(c) => NibblesAreAttributes(c);
    case BrightBg(c) => NibblesAreAttributes(c);
    case _ =>
  }

  /** What one manipulator does to the styles. */
  lemma OneStyle(d: SGR, m: Manip, s: SGR)
    requires Fresh(d)
    ensures var r := SetSGR(d, m, s);
            if m == Styled(Reset) then r == d
            else
              && r.bold == (if m == Styled(Bold) then 0x08 else s.bold)
              && r.underline == (if m == Styled(Underline) || m == Styled(Blink) then 0x80 else s.underline)
              && r.inverse == (m == Styled(Reversed) || s.inverse)
              && r.conceal == (m == Styled(Conceal) || s.conceal)
  {
    match m
    case Styled(style) => match style { case _ => }
    case _ =>
  }

  lemma RemembersOneMore(d: SGR, ts: seq<Token>, t: Token, s: SGR)
    requires Fresh(d) && Remembers(d, ts, s)
    ensures Remembers(d, ts + [t], if t.Sgr? then SetSGR(d, t.manip, s) else s)
  {
    LastOneMore(ts, t, FgSets(d), d.fgColor, s.fgColor);
    LastOneMore(ts, t, BgSets(d), d.bgColor, s.bgColor);
    SinceOneMore(ts, t, {Bold});
    SinceOneMore(ts, t, {Underline, Blink});
    SinceOneMore(ts, t, {Reversed});
    SinceOneMore(ts, t, {Conceal});
    if t.Sgr? { OneColor(d, t.manip, s); OneStyle(d, t.manip, s); }
  }

  /** After any text and manipulators, the native state is determined by the last foreground setting, the last
      background setting, and which styles occurred since the last reset. */
  lemma {:induction false} StateIsHistory(d: SGR, tokens: seq<Token>)
    requires Fresh(d)
    ensures Remembers(d, tokens, StateAfter(d, d, tokens))
    decreases |tokens|
  {
    if tokens != [] {
      var n := |tokens| - 1;
      var (ts, t) := (tokens[..n], tokens[n]);
      assert tokens == ts + [t];
      StateIsHistory(d, ts);
      StateOneMore(d, ts, t);
      RemembersOneMore(d, ts, t, StateAfter(d, d, ts));
    }
  }

  lemma StateOneMore(d: SGR, ts: seq<Token>, t: Token)
    ensures var s := StateAfter(d, d, ts);
            StateAfter(d, d, ts + [t]) == if t.Sgr? then SetSGR(d, t.manip, s) else s
  {
    ShowBoth(d, d, 0, ts, [t]);
  }

  // ---- The attribute --------------------------------------------------------------------------------

  /** Bold intensifies the foreground, underline and blink the background; reversed swaps the two, and
      conceal draws the foreground in what is then the background. */
  function Paint(fg: bv8, bg: bv8, bold: bool, underline: bool, reversed: bool, conceal: bool): bv16 {
    var f := (fg | (if bold then 8 else 0)) as bv16;
    var b := (bg | (if underline then 8 else 0)) as bv16;
    var (low, high) := if reversed then (b, f) else (f, b);
    (high << 4) | (if conceal then high else low)
  }

  lemma AttributeIsPaint(s: SGR)
    requires s.fgColor < 16 && s.bgColor < 16 && (s.bold == 0 || s.bold == 0x08) && (s.underline == 0 || s.underline == 0x80)
    ensures Attribute(s) == Paint(s.fgColor, s.bgColor, s.bold != 0, s.underline != 0, s.inverse, s.conceal)
    ensures Attribute(s) < 0x100
  {
  }

  lemma LastIsSmall(d: SGR, tokens: seq<Token>, x: bv8)
    requires Fresh(d)
    ensures IsLast(tokens, FgSets(d), d.fgColor, x) ==> x < 16
    ensures IsLast(tokens, BgSets(d), d.bgColor, x) ==> x < 16
  {
    forall c: Color ensures Nibble(c, false) < 16 && Nibble(c, true) < 16 { NibblesAreAttributes(c); }
  }

  predicate Coloured(tokens: seq<Token>) { exists i :: 0 <= i < |tokens| && tokens[i].Sgr? }

  lemma {:induction false} AttributeFollowsState(d: SGR, state: SGR, attr: bv16, tokens: seq<Token>)
    ensures AttributeAfter(d, state, attr, tokens)
            == if Coloured(tokens) then Attribute(StateAfter(d, state, tokens)) else attr
    ensures !Coloured(tokens) ==> StateAfter(d, state, tokens) == state
    decreases |tokens|
  {
    if tokens != [] {
      assert forall i :: 1 <= i < |tokens| ==> tokens[i] == tokens[1..][i - 1];
      assert Coloured(tokens) <==> tokens[0].Sgr? || Coloured(tokens[1..]);
      match tokens[0]
      case Ch(_) => AttributeFollowsState(d, state, attr, tokens[1..]);
      case Sgr(m) => var s := SetSGR(d, m, state); AttributeFollowsState(d, s, Attribute(s), tokens[1..]);
    }
  }

  /** Every character on a native console is drawn with the attribute its history asks for. */
  lemma EachCharacter(start: bv16, tokens: seq<Token>, i: nat)
    requires i < |tokens| && tokens[i].Ch?
    ensures var d := DefaultState(start);
            var (before, cells) := (tokens[..i], Show(d, d, start, tokens));
            && |Plain(before)| < |cells|
            && cells[|Plain(before)|] ==
               (tokens[i].c, if Coloured(before) then Attribute(StateAfter(d, d, before)) else start)
            && Remembers(d, before, StateAfter(d, d, before))
  {
    var d := DefaultState(start);
    DefaultIsFresh(start);
    var (before, after) := (tokens[..i], tokens[i..]);
    assert tokens == before + after && after[0] == tokens[i];
    ShowBoth(d, d, start, before, after);
    ShownText(d, d, start, before);
    AttributeFollowsState(d, d, start, before);
    StateIsHistory(d, before);
  }

  lemma DefaultIsFresh(start: bv16)
    ensures Fresh(DefaultState(start))
  {
  }

  /** The attribute set after any sequence with a manipulator in it, from the history alone. */
  lemma AttributeIsHistory(start: bv16, tokens: seq<Token>, fg: bv8, bg: bv8)
    requires Coloured(tokens)
    requires IsLast(tokens, FgSets(DefaultState(start)), DefaultState(start).fgColor, fg)
    requires IsLast(tokens, BgSets(DefaultState(start)), DefaultState(start).bgColor, bg)
    ensures AttributeAfter(DefaultState(start), DefaultState(start), start, tokens)
            == Paint(fg, bg, Since(tokens, {Bold}), Since(tokens, {Underline, Blink}),
                     Since(tokens, {Reversed}), Since(tokens, {Conceal}))
  {
    var d := DefaultState(start);
    DefaultIsFresh(start);
    StateIsHistory(d, tokens);
    var s := StateAfter(d, d, tokens);
    LastIsUnique(tokens, FgSets(d), d.fgColor, fg, s.fgColor);
    LastIsUnique(tokens, BgSets(d), d.bgColor, bg, s.bgColor);
    LastIsSmall(d, tokens, fg);
    LastIsSmall(d, tokens, bg);
    AttributeFollowsState(d, d, start, tokens);
    AttributeIsPaint(s);
  }

  lemma LastIsUnique(tokens: seq<Token>, sets: Manip -> Option<bv8>, initial: bv8, x: bv8, y: bv8)
    requires IsLast(tokens, sets, initial, x) && IsLast(tokens, sets, initial, y)
    ensures x == y
  {
  }

  function Swapped(a: bv16): bv16 { ((a & 0x0F) << 4) | ((a & 0xF0) >> 4) }

  /** Reversed swaps the nibbles; conceal copies the upper one, as it then is, into the lower. */
  lemma ReversedSwapsConcealCopies(s: SGR)
    requires s.fgColor < 16 && s.bgColor < 16 && (s.bold == 0 || s.bold == 0x08) && (s.underline == 0 || s.underline == 0x80)
    ensures Attribute(s.(inverse := true, conceal := false)) == Swapped(Attribute(s.(inverse := false, conceal := false)))
    ensures var shown := Attribute(s.(conceal := false));
            Attribute(s.(conceal := true)) == (shown & 0xF0) | ((shown & 0xF0) >> 4)
  {
  }

  /** The start-up state stands for exactly the low byte of the start-up attribute. */
  lemma DefaultIsLowByte(start: bv16)
    ensures Attribute(DefaultState(start)) == start & 0xFF
  {
  }

  /** A reset gives back the attribute the console had at start-up just when that used only its low byte. */
  lemma ResetRestores(start: bv16, state: SGR)
    ensures Attribute(SetSGR(DefaultState(start), Styled(Reset), state)) == start <==> start < 0x100
  {
  }
}

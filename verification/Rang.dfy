/** rang's manipulators, and the two ways they reach a terminal: escape sequences in the byte stream,
    or the attribute of a native console. */
module Rang {
  import Printer

  datatype Style = Reset | Bold | Dim | Italic | Underline | Blink | RBlink | Reversed | Conceal | Crossed
  datatype Color = Black | Red | Green | Yellow | Blue | Magenta | Cyan | Gray

  /** style, fg, bg, fgB and bgB */
  datatype Manip =
    | Styled(style: Style)
    | Fg(color: Color) | FgReset
    | Bg(color: Color) | BgReset
    | BrightFg(color: Color)
    | BrightBg(color: Color)

  function StyleCode(s: Style): nat {
    match s
    case Reset => 0
    case Bold => 1
    case Dim => 2
    case Italic => 3
    case Underline => 4
    case Blink => 5
    case RBlink => 6
    case Reversed => 7
    case Conceal => 8
    case Crossed => 9
  }

  function ColorCode(c: Color): (n: nat)
    ensures n < 8
  {
    match c
    case Black => 0
    case Red => 1
    case Green => 2
    case Yellow => 3
    case Blue => 4
    case Magenta => 5
    case Cyan => 6
    case Gray => 7
  }

  /** The value of the enumerator. */
  function Code(m: Manip): nat {
    match m
    case Styled(s) => StyleCode(s)
    case Fg(c) => 30 + ColorCode(c)
    case FgReset => 39
    case Bg(c) => 40 + ColorCode(c)
    case BgReset => 49
    case BrightFg(c) => 90 + ColorCode(c)
    case BrightBg(c) => 100 + ColorCode(c)
  }

  const ESC: char := 0x1B as char

  /** setWinColorAnsi */
  function Sequence(m: Manip): string { [ESC, '['] + Printer.NatText(Code(m)) + "m" }

  // ---- The native console ---------------------------------------------------------------------------

  datatype SGR = SGR(fgColor: bv8, bgColor: bv8, bold: bv8, underline: bv8, inverse: bool, conceal: bool)

  const FOREGROUND_INTENSITY: bv8 := 0x08
  const BACKGROUND_INTENSITY: bv8 := 0x80

  /** The state that stands for the console's attribute at start-up. */
  function DefaultState(attrib: bv16): SGR {
    SGR((attrib & 0x0F) as bv8, ((attrib & 0xF0) >> 4) as bv8, 0, 0, false, false)
  }

  /** Red and blue trade places between the two numberings. */
  function Ansi2Attr(c: Color): bv8 {
    match c
    case Black => 0
    case Red => 4
    case Green => 2
    case Yellow => 6
    case Blue => 1
    case Magenta => 5
    case Cyan => 3
    case Gray => 7
  }

  /** setWinSGR, with `d` the default state */
  function SetSGR(d: SGR, m: Manip, state: SGR): SGR {
    match m
    case Bg(c) => state.(bgColor := Ansi2Attr(c))
    case BgReset => state.(bgColor := d.bgColor)
    case Fg(c) => state.(fgColor := Ansi2Attr(c))
    case FgReset => state.(fgColor := d.fgColor)
    case BrightBg(c) => state.(bgColor := (BACKGROUND_INTENSITY >> 4) | Ansi2Attr(c))
    case BrightFg(c) => state.(fgColor := FOREGROUND_INTENSITY | Ansi2Attr(c))
    case Styled(s) =>
      match s
      case Reset => d
      case Bold => state.(bold := FOREGROUND_INTENSITY)
      case Underline => state.(underline := BACKGROUND_INTENSITY)
      case Blink => state.(underline := BACKGROUND_INTENSITY)
      case Reversed => state.(inverse := true)
      case Conceal => state.(conceal := true)
      case _ => state
  }

  /** SGR2Attr */
  function Attribute(state: SGR): bv16 {
    var fg, bg := state.fgColor as bv16, state.bgColor as bv16;
    var both := (FOREGROUND_INTENSITY | BACKGROUND_INTENSITY) as bv16;
    if state.conceal then
      if state.inverse then ((fg << 4) | fg) | (if state.bold != 0 then both else 0)
      else ((bg << 4) | bg) | (if state.underline != 0 then both else 0)
    else if state.inverse then
      ((fg << 4) | bg)
        | (if state.bold != 0 then BACKGROUND_INTENSITY as bv16 else 0)
        | (if state.underline != 0 then FOREGROUND_INTENSITY as bv16 else 0)
    else fg | (bg << 4) | (state.bold as bv16) | (state.underline as bv16)
  }

  // ---- Streams --------------------------------------------------------------------------------------

  datatype Control = Off | AutoDetect | Force
  datatype WinTerm = Auto | Ansi | Native

  /** What the platform calls answer for a stream. */
  datatype Platform = Platform(
    windows: bool, supportsColor: bool, isTerminal: bool, supportsAnsi: bool, hasConsole: bool, startAttribute: bv16)

  datatype Backend = Silent | Bytes | Console

  /** Which way a manipulator goes: operator<< and setColor. */
  function BackendOf(p: Platform, control: Control, winTerm: WinTerm): Backend {
    if control.Off? || (control.AutoDetect? && !(p.supportsColor && p.isTerminal)) then Silent
    else if !p.windows || winTerm.Ansi? || (winTerm.Auto? && p.supportsAnsi) then Bytes
    else if p.hasConsole then Console
    else Silent
  }

  datatype Item = Text(text: string) | Mod(manip: Manip)

  /** A character of the output, or a manipulator in force from there on. */
  datatype Token = Ch(c: char) | Sgr(manip: Manip)

  function CharTokens(s: string): seq<Token> { seq(|s|, i requires 0 <= i < |s| => Ch(s[i])) }

  function ItemTokens(item: Item): seq<Token> {
    match item
    case Text(s) => CharTokens(s)
    case Mod(m) => [Sgr(m)]
  }

  function Tokens(items: seq<Item>): seq<Token> {
    if items == [] then [] else ItemTokens(items[0]) + Tokens(items[1..])
  }

  function ItemBytes(b: Backend, item: Item): string {
    match item
    case Text(s) => s
    case Mod(m) => if b.Bytes? then Sequence(m) else ""
  }

  /** The bytes a stream receives. */
  function Emit(b: Backend, items: seq<Item>): string {
    if items == [] then "" else ItemBytes(b, items[0]) + Emit(b, items[1..])
  }

  /** A console cell: the character and the attribute it is drawn with. */
  type Cell = (char, bv16)

  /** What a console showing attribute `attr` in state `state` comes to show. */
  function Show(d: SGR, state: SGR, attr: bv16, tokens: seq<Token>): seq<Cell>
    decreases |tokens|
  {
    if tokens == [] then []
    else
      match tokens[0]
      case Ch(c) => [(c, attr)] + Show(d, state, attr, tokens[1..])
      case Sgr(m) => var s := SetSGR(d, m, state); Show(d, s, Attribute(s), tokens[1..])
  }

  function StateAfter(d: SGR, state: SGR, tokens: seq<Token>): SGR
    decreases |tokens|
  {
    if tokens == [] then state
    else
      match tokens[0]
      case Ch(_) => StateAfter(d, state, tokens[1..])
      case Sgr(m) => StateAfter(d, SetSGR(d, m, state), tokens[1..])
  }

  function AttributeAfter(d: SGR, state: SGR, attr: bv16, tokens: seq<Token>): bv16
    decreases |tokens|
  {
    if tokens == [] then attr
    else
      match tokens[0]
      case Ch(_) => AttributeAfter(d, state, attr, tokens[1..])
      case Sgr(m) => var s := SetSGR(d, m, state); AttributeAfter(d, s, Attribute(s), tokens[1..])
  }

  function Drawn(s: string, attr: bv16): seq<Cell> { seq(|s|, i requires 0 <= i < |s| => (s[i], attr)) }

  /** Characters are drawn one after another with the attribute in force and change nothing. */
  lemma {:induction false} ShowText(d: SGR, state: SGR, attr: bv16, s: string)
    ensures Show(d, state, attr, CharTokens(s)) == Drawn(s, attr)
    ensures StateAfter(d, state, CharTokens(s)) == state
    ensures AttributeAfter(d, state, attr, CharTokens(s)) == attr
    decreases |s|
  {
    if s != "" {
      assert CharTokens(s)[1..] == CharTokens(s[1..]);
      ShowText(d, state, attr, s[1..]);
      assert Drawn(s, attr) == [(s[0], attr)] + Drawn(s[1..], attr);
    }
  }

  /** A console shown `a` and then `b` takes up `b` in the state `a` left it in. */
  lemma {:induction false} ShowBoth(d: SGR, state: SGR, attr: bv16, a: seq<Token>, b: seq<Token>)
    ensures var s, t := StateAfter(d, state, a), AttributeAfter(d, state, attr, a);
            && Show(d, state, attr, a + b) == Show(d, state, attr, a) + Show(d, s, t, b)
            && StateAfter(d, state, a + b) == StateAfter(d, s, b)
            && AttributeAfter(d, state, attr, a + b) == AttributeAfter(d, s, t, b)
    decreases |a|
  {
    if a == [] {
      assert a + b == b;
    } else {
      assert (a + b)[1..] == a[1..] + b;
      match a[0]
      case Ch(_) => ShowBoth(d, state, attr, a[1..], b);
      case Sgr(m) => var s := SetSGR(d, m, state); ShowBoth(d, s, Attribute(s), a[1..], b);
    }
  }

  lemma {:induction false} OneMore(b: Backend, items: seq<Item>, item: Item)
    ensures Emit(b, items + [item]) == Emit(b, items) + ItemBytes(b, item)
    decreases |items|
  {
    if items == [] {
      assert items + [item] == [item];
      assert Emit(b, [item]) == ItemBytes(b, item) + Emit(b, []);
    } else {
      assert (items + [item])[1..] == items[1..] + [item];
      OneMore(b, items[1..], item);
      var (x, y, z) := (ItemBytes(b, items[0]), Emit(b, items[1..]), ItemBytes(b, item));
      assert x + (y + z) == (x + y) + z;
    }
  }

  lemma {:induction false} OneMoreToken(items: seq<Item>, item: Item)
    ensures Tokens(items + [item]) == Tokens(items) + ItemTokens(item)
    decreases |items|
  {
    if items == [] {
      assert items + [item] == [item];
      assert Tokens([item]) == ItemTokens(item) + Tokens([]);
    } else {
      assert (items + [item])[1..] == items[1..] + [item];
      OneMoreToken(items[1..], item);
      var (x, y, z) := (ItemTokens(items[0]), Tokens(items[1..]), ItemTokens(item));
      assert x + (y + z) == (x + y) + z;
    }
  }

  /** What can be observed of a stream: its bytes, what its console shows once flushed, and the state kept for it. */
  datatype View = View(written: string, display: seq<Cell>, state: SGR, attribute: bv16)

  /** The stream after it was given bytes `w` standing for `ts`. */
  function Taken(b: Backend, d: SGR, v: View, w: string, ts: seq<Token>): View {
    if b.Console? then
      View(v.written + w, v.display + Show(d, v.state, v.attribute, ts),
           StateAfter(d, v.state, ts), AttributeAfter(d, v.state, v.attribute, ts))
    else View(v.written + w, v.display + Drawn(w, v.attribute), v.state, v.attribute)
  }

  lemma Twice(b: Backend, d: SGR, v: View, w: string, ts: seq<Token>, x: string, t: seq<Token>)
    ensures Taken(b, d, v, w + x, ts + t) == Taken(b, d, Taken(b, d, v, w, ts), x, t)
  {
    ShowBoth(d, v.state, v.attribute, ts, t);
    DrawnBoth(w, x, v.attribute);
    assert v.written + (w + x) == (v.written + w) + x;
  }

  /** After `items`: the bytes are those of Emit, and a native console shows what Show says. */
  function Given(b: Backend, d: SGR, v: View, items: seq<Item>): View {
    Taken(b, d, v, Emit(b, items), Tokens(items))
  }

  lemma DrawnBoth(x: string, y: string, attr: bv16)
    ensures Drawn(x + y, attr) == Drawn(x, attr) + Drawn(y, attr)
  {
  }

  lemma OneItem(b: Backend, item: Item)
    ensures Tokens([item]) == ItemTokens(item) && Emit(b, [item]) == ItemBytes(b, item)
  {
    OneMore(b, [], item);
    OneMoreToken([], item);
    assert [] + [item] == [item];
  }

  /** What inserting a manipulator does, by the way it goes. */
  function Inserted(b: Backend, d: SGR, v: View, m: Manip): View {
    match b
    case Silent => v
    case Bytes => v.(written := v.written + Sequence(m), display := v.display + Drawn(Sequence(m), v.attribute))
    case Console => v.(state := SetSGR(d, m, v.state), attribute := Attribute(SetSGR(d, m, v.state)))
  }

  /** One item at a time. */
  lemma GivenItem(b: Backend, d: SGR, v: View, item: Item)
    ensures Given(b, d, v, [item]) ==
            match item
            case Text(s) => v.(written := v.written + s, display := v.display + Drawn(s, v.attribute))
            case Mod(m) => Inserted(b, d, v, m)
  {
    OneItem(b, item);
    match item
    case Text(s) => ShowText(d, v.state, v.attribute, s);
    case Mod(m) => assert Drawn("", v.attribute) == [];
  }

  lemma GivenOneMore(b: Backend, d: SGR, v: View, items: seq<Item>, item: Item)
    ensures Given(b, d, v, items + [item]) == Given(b, d, Given(b, d, v, items), [item])
  {
    OneMore(b, items, item);
    OneMoreToken(items, item);
    OneItem(b, item);
    Twice(b, d, v, Emit(b, items), Tokens(items), Emit(b, [item]), Tokens([item]));
  }

  // ---- Modes that change on the way -----------------------------------------------------------------

  /** What a program does with a stream: insert an item, or change one of the two modes. */
  datatype Command = Put(item: Item) | SetControl(control: Control) | SetTerm(winTerm: WinTerm)

  /** An item, and the way it goes. */
  type Routed = (Backend, Item)

  /** The items of `cmds`, each with the way that the modes in force when it comes give it. */
  function Route(p: Platform, control: Control, winTerm: WinTerm, cmds: seq<Command>): seq<Routed>
    decreases |cmds|
  {
    if cmds == [] then []
    else
      match cmds[0]
      case Put(item) => [(BackendOf(p, control, winTerm), item)] + Route(p, control, winTerm, cmds[1..])
      case SetControl(c) => Route(p, c, winTerm, cmds[1..])
      case SetTerm(w) => Route(p, control, w, cmds[1..])
  }

  /** The control mode in force after `cmds`. */
  function ControlAfter(control: Control, cmds: seq<Command>): Control
    decreases |cmds|
  {
    if cmds == [] then control
    else ControlAfter(if cmds[0].SetControl? then cmds[0].control else control, cmds[1..])
  }

  /** The terminal mode in force after `cmds`. */
  function TermAfter(winTerm: WinTerm, cmds: seq<Command>): WinTerm
    decreases |cmds|
  {
    if cmds == [] then winTerm
    else TermAfter(if cmds[0].SetTerm? then cmds[0].winTerm else winTerm, cmds[1..])
  }

  function RouteBytes(route: seq<Routed>): string {
    if route == [] then "" else ItemBytes(route[0].0, route[0].1) + RouteBytes(route[1..])
  }

  /** What a console is told: its own manipulators, and every byte. */
  function Told(r: Routed): seq<Token> { if r.0.Console? then ItemTokens(r.1) else CharTokens(ItemBytes(r.0, r.1)) }

  function RouteTokens(route: seq<Routed>): seq<Token> {
    if route == [] then [] else Told(route[0]) + RouteTokens(route[1..])
  }

  /** One item more, by whichever way. */
  lemma TakenItem(d: SGR, v: View, r: Routed)
    ensures Given(r.0, d, v, [r.1]) == Taken(Console, d, v, ItemBytes(r.0, r.1), Told(r))
  {
    OneItem(r.0, r.1);
    if !r.0.Console? || r.1.Text? {
      ShowText(d, v.state, v.attribute, ItemBytes(r.0, r.1));
    }
  }

  lemma TakenFirst(d: SGR, v: View, r: Routed, route: seq<Routed>)
    ensures Taken(Console, d, v, RouteBytes([r] + route), RouteTokens([r] + route))
            == Taken(Console, d, Given(r.0, d, v, [r.1]), RouteBytes(route), RouteTokens(route))
  {
    assert ([r] + route)[1..] == route;
    TakenItem(d, v, r);
    Twice(Console, d, v, ItemBytes(r.0, r.1), Told(r), RouteBytes(route), RouteTokens(route));
  }

  class OutputStream {
    const platform: Platform
    var control: Control
    var winTerm: WinTerm
    var written: string     // every byte the stream was given
    var screen: seq<Cell>   // what a native console shows: the bytes flushed to it
    var attribute: bv16     // the console's attribute
    var state: SGR          // current_state

    ghost predicate Valid()
      reads this
    {
      |screen| <= |written|
    }

    /** What the console will show once the stream is flushed. */
    function Display(): seq<Cell>
      reads this
      requires Valid()
    {
      screen + Drawn(written[|screen|..], attribute)
    }

    function Default(): SGR { DefaultState(platform.startAttribute) }

    function Via(): Backend
      reads this
    {
      BackendOf(platform, control, winTerm)
    }

    function Seen(): View
      reads this
      requires Valid()
    {
      View(written, Display(), state, attribute)
    }

    constructor (platform: Platform)
      ensures Valid() && this.platform == platform && written == "" && screen == []
      ensures control == AutoDetect && winTerm == Auto
      ensures state == Default() && attribute == platform.startAttribute
    {
      this.platform := platform;
      control, winTerm := AutoDetect, Auto;
      written, screen := "", [];
      attribute, state := platform.startAttribute, DefaultState(platform.startAttribute);
    }

    method SetControlMode(value: Control)
      modifies `control
      ensures control == value
    {
      control := value;
    }

    method SetWinTermMode(value: WinTerm)
      modifies `winTerm
      ensures winTerm == value
    {
      winTerm := value;
    }

    method Write(s: string)
      requires Valid()
      modifies `written
      ensures Valid() && written == old(written) + s
      ensures Display() == old(Display()) + Drawn(s, attribute)
    {
      written := written + s;
      assert written[|screen|..] == old(written)[|screen|..] + s;
    }

    method Flush()
      requires Valid()
      modifies `screen
      ensures Valid() && |screen| == |written| && screen == old(Display())
    {
      screen := screen + Drawn(written[|screen|..], attribute);
    }

    /** setWinColorNative: what is buffered goes out with the previous attribute first. */
    method SetColorNative(m: Manip)
      requires Valid()
      modifies `state, `screen, `attribute
      ensures Valid()
      ensures Seen() == Inserted(if platform.hasConsole then Console else Silent, Default(), old(Seen()), m)
    {
      if platform.hasConsole {
        state := SetSGR(Default(), m, state);
        Flush();
        attribute := Attribute(state);
        assert written[|screen|..] == [];
      }
    }

    method SetColorAnsi(m: Manip)
      requires Valid()
      modifies `written
      ensures Valid() && Seen() == Inserted(Bytes, Default(), old(Seen()), m)
    {
      Write(Sequence(m));
    }

    method SetColor(m: Manip)
      requires Valid() && (control.Force? || (control.AutoDetect? && platform.supportsColor && platform.isTerminal))
      modifies `written, `state, `screen, `attribute
      ensures Valid()
      ensures Seen() == Inserted(if !platform.windows || winTerm.Ansi? || (winTerm.Auto? && platform.supportsAnsi) then Bytes
                                 else if platform.hasConsole then Console else Silent, Default(), old(Seen()), m)
    {
      if !platform.windows {
        SetColorAnsi(m);
      } else if winTerm.Auto? {
        if platform.supportsAnsi { SetColorAnsi(m); } else { SetColorNative(m); }
      } else if winTerm.Ansi? {
        SetColorAnsi(m);
      } else {
        SetColorNative(m);
      }
    }

    /** operator<<: nothing when colours are off, or left to a stream that has none; otherwise the sequence in the bytes,
        or the state of the native console, by platform and terminal mode. */
    method Insert(m: Manip)
      requires Valid()
      modifies `written, `state, `screen, `attribute
      ensures Valid() && Seen() == Inserted(Via(), Default(), old(Seen()), m)
      ensures control.Off? || (control.AutoDetect? && !(platform.supportsColor && platform.isTerminal)) ==>
        Seen() == old(Seen())
      ensures control.Force? || (control.AutoDetect? && platform.supportsColor && platform.isTerminal) ==>
        if !platform.windows || winTerm.Ansi? || (winTerm.Auto? && platform.supportsAnsi) then
          Seen() == old(Seen()).(written := old(written) + Sequence(m), display := old(Display()) + Drawn(Sequence(m), attribute))
        else if platform.hasConsole then
          Seen() == old(Seen()).(state := SetSGR(Default(), m, old(state)), attribute := Attribute(SetSGR(Default(), m, old(state))))
        else Seen() == old(Seen())
    {
      match control {
        case AutoDetect => if platform.supportsColor && platform.isTerminal { SetColor(m); }
        case Force => SetColor(m);
        case Off =>
      }
    }

    /** Inserts one item, of either kind. */
    method InsertItem(item: Item)
      requires Valid()
      modifies `written, `state, `screen, `attribute
      ensures Valid() && Seen() == Given(Via(), Default(), old(Seen()), [item])
    {
      GivenItem(Via(), Default(), Seen(), item);
      match item {
        case Text(s) => Write(s);
        case Mod(m) => Insert(m);
      }
    }

    /** A chain of insertions, whatever the interleaving of text and manipulators. */
    method InsertAll(items: seq<Item>)
      requires Valid()
      modifies `written, `state, `screen, `attribute
      ensures Valid() && Seen() == Given(Via(), Default(), old(Seen()), items)
    {
      var i := 0;
      while i < |items|
        invariant 0 <= i <= |items| && Valid()
        invariant Seen() == Given(Via(), Default(), old(Seen()), items[..i])
      {
        assert items[..i + 1] == items[..i] + [items[i]];
        GivenOneMore(Via(), Default(), old(Seen()), items[..i], items[i]);
        InsertItem(items[i]);
        i := i + 1;
      }
      assert items[..i] == items;
    }

    /** Insertions and changes of mode in any order. Every byte is shown by the console; of the manipulators those
        that went to it change its state, and those that went into the bytes are shown as they are. */
    method Perform(cmds: seq<Command>)
      requires Valid()
      modifies this
      ensures Valid()
      ensures control == ControlAfter(old(control), cmds) && winTerm == TermAfter(old(winTerm), cmds)
      ensures var route := Route(platform, old(control), old(winTerm), cmds);
        Seen() == Taken(Console, Default(), old(Seen()), RouteBytes(route), RouteTokens(route))
    {
      var i := 0;
      while i < |cmds|
        invariant 0 <= i <= |cmds| && Valid()
        invariant Whole(cmds[i..]) == old(Whole(cmds))
        invariant ControlAfter(control, cmds[i..]) == ControlAfter(old(control), cmds)
        invariant TermAfter(winTerm, cmds[i..]) == TermAfter(old(winTerm), cmds)
      {
        assert cmds[i..] == [cmds[i]] + cmds[i + 1..];
        Do(cmds[i], cmds[i + 1..]);
        i := i + 1;
      }
      assert Whole([]).written == written + "" == written && Whole([]).display == Display() + [] == Display();
    }

    /** What is seen when `cmds` are done from here. */
    ghost function Whole(cmds: seq<Command>): View
      reads this
      requires Valid()
    {
      var route := Route(platform, control, winTerm, cmds);
      Taken(Console, Default(), Seen(), RouteBytes(route), RouteTokens(route))
    }

    /** Does one command, `rest` being what comes after it. */
    method Do(cmd: Command, ghost rest: seq<Command>)
      requires Valid()
      modifies this
      ensures Valid() && Whole(rest) == old(Whole([cmd] + rest))
      ensures control == (if cmd.SetControl? then cmd.control else old(control))
      ensures winTerm == (if cmd.SetTerm? then cmd.winTerm else old(winTerm))
    {
      assert ([cmd] + rest)[1..] == rest;
      match cmd {
        case Put(item) =>
          ghost var route := Route(platform, control, winTerm, rest);
          assert Route(platform, control, winTerm, [cmd] + rest) == [(Via(), item)] + route;
          TakenFirst(Default(), Seen(), (Via(), item), route);
          InsertItem(item);
        case SetControl(c) => SetControlMode(c);
        case SetTerm(w) => SetWinTermMode(w);
      }
    }
  }
}

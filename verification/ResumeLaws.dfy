/** When runs that call Task::resume break: exactly at the first use of a Task that it ran. */
module ResumeLaws {
  import opened Prelude
  import opened Direct
  import opened Frames
  import opened Resuming
  import opened ResumeSteps

  // ---- One event ------------------------------------------------------------------------------------

  /** Breaks exactly when the guard says so, and otherwise keeps the invariant. */
  ghost predicate Fair<C, V>(b: Body<C, V>, x: Noted<C, V>, e: Stimulus<C, V>) {
    var r := Resuming.Advance(b, x, e);
    && (r.Broken? <==> Trips(b, x, e))
    && (r.Ok? ==> Sound(r.value.machine, r.value.ledger))
  }

  lemma MakeFair<C, V>(b: Body<C, V>, x: Noted<C, V>, t: ThreadId)
    requires Sound(x.machine, x.ledger) && StackOf(x.machine, t) != []
    requires var f := Top(x.machine, t);
      && f in x.machine.frames && b.resumes(x.machine.frames[f].ctrl).None?
      && var act := b.program.code(x.machine.frames[f].ctrl); act.Make? || act.Move?
    ensures Fair(b, x, Run(t))
  {
    var (m, k, f) := (x.machine, x.ledger, Top(x.machine, t));
    TopSound(m, k, t);
    var act := b.program.code(m.frames[f].ctrl);
    CtrlSound(m, k, f, act.next);
    var o := SetCtrl(m, f, act.next);
    if act.Make? {
      if MakeTask(o, f, act.slot, act.body).Ok? {
        MakeSound(o, k, f, act.slot, act.body);
        PlaceSame(MakeTask(o, f, act.slot, act.body).value, Note(b, m, k, f), t);
      }
    } else if MoveTask(o, f, act.dst, act.src).Ok? {
      MoveSound(o, k, f, act.dst, act.src);
      PlaceSame(MoveTask(o, f, act.dst, act.src).value, Note(b, m, k, f), t);
    }
  }

  /** Noting the place of a frame that stays where it is changes nothing. */
  lemma PlaceSame<C, V>(n: Machine<C, V>, k: Ledger, t: ThreadId)
    requires Sound(n, k)
    ensures Sound(n, Place(k, n, t))
  {
    if StackOf(n, t) != [] {
      assert EntrySound(n, k, t, |StackOf(n, t)| - 1);
      assert Place(k, n, t).place == k.place;
      assert Place(k, n, t) == k;
    }
  }

  lemma DropFair<C, V>(b: Body<C, V>, x: Noted<C, V>, t: ThreadId)
    requires Sound(x.machine, x.ledger) && StackOf(x.machine, t) != []
    requires var f := Top(x.machine, t);
      && f in x.machine.frames && b.resumes(x.machine.frames[f].ctrl).None?
      && b.program.code(x.machine.frames[f].ctrl).Drop?
    ensures Fair(b, x, Run(t))
  {
    var (m, k, f) := (x.machine, x.ledger, Top(x.machine, t));
    TopSound(m, k, t);
    var act := b.program.code(m.frames[f].ctrl);
    var o := SetCtrl(m, f, act.next);
    CtrlSound(m, k, f, act.next);
    DropBreaks(o, k, f, {act.slot});
    if s :| s in {act.slot} && Spoiled(o, k, f, s) { assert s == act.slot; }
    if DropSlots(o, f, {act.slot}).Ok? {
      DropSound(o, k, f, {act.slot});
      PlaceSame(DropSlots(o, f, {act.slot}).value, k, t);
    }
  }

  lemma SpawnFair<C, V>(b: Body<C, V>, x: Noted<C, V>, t: ThreadId)
    requires Sound(x.machine, x.ledger) && StackOf(x.machine, t) != []
    requires var f := Top(x.machine, t);
      && f in x.machine.frames && b.resumes(x.machine.frames[f].ctrl).None?
      && b.program.code(x.machine.frames[f].ctrl).Spawn?
    ensures Fair(b, x, Run(t))
  {
    var (m, k, f) := (x.machine, x.ledger, Top(x.machine, t));
    TopSound(m, k, t);
    var act := b.program.code(m.frames[f].ctrl);
    var (o, s) := (SetCtrl(m, f, act.next), act.slot);
    CtrlSound(m, k, f, act.next);
    SpawnBreaks(b.program, o, k, t, f, s);
    if SpawnTask(b.program, o, t, f, s).Ok? {
      assert FrameSound(o, k, f) && SlotSound(o, k, f, s);
      var g := o.frames[f].slots[s];
      StartSound(o, k, t, f, s, g, false);
      assert SpawnTask(b.program, o, t, f, s).value == Started(o, t, f, s, g, false);
    }
  }

  lemma AwaitFair<C, V>(b: Body<C, V>, x: Noted<C, V>, t: ThreadId)
    requires Sound(x.machine, x.ledger) && StackOf(x.machine, t) != []
    requires var f := Top(x.machine, t);
      && f in x.machine.frames && b.resumes(x.machine.frames[f].ctrl).None?
      && b.program.code(x.machine.frames[f].ctrl).Await?
    ensures Fair(b, x, Run(t))
  {
    var (m, k, f) := (x.machine, x.ledger, Top(x.machine, t));
    TopSound(m, k, t);
    var s := b.program.code(m.frames[f].ctrl).slot;
    AwaitBreaks(b.program, m, k, t, f, s);
    if AwaitTask(b.program, m, t, f, s).Ok? {
      assert SlotSound(m, k, f, s);
      var g := m.frames[f].slots[s];
      var n := AwaitTask(b.program, m, t, f, s).value;
      if m.frames[g].point.Final? {
        var c := b.program.resume(m.frames[f].ctrl, m.frames[g].value.value);
        CtrlSound(m, k, f, c);
        PlaceSame(n, k, t);
      } else {
        CallSound(m, k, t, s, g);
        assert n == Called(m, t, f, s, g);
      }
    }
  }

  lemma ReturnFair<C, V>(b: Body<C, V>, x: Noted<C, V>, t: ThreadId)
    requires Sound(x.machine, x.ledger) && StackOf(x.machine, t) != []
    requires var f := Top(x.machine, t);
      && f in x.machine.frames && b.resumes(x.machine.frames[f].ctrl).None?
      && b.program.code(x.machine.frames[f].ctrl).Return?
    ensures Fair(b, x, Run(t))
  {
    var (m, k, f) := (x.machine, x.ledger, Top(x.machine, t));
    TopSound(m, k, t);
    var v := b.program.code(m.frames[f].ctrl).value;
    var scope := m.frames[f].slots.Keys;
    DropBreaks(m, k, f, scope);
    if DropSlots(m, f, scope).Ok? {
      DropSound(m, k, f, scope);
      FinalFair(b.program, DropSlots(m, f, scope).value, k, t, f, v);
    }
  }

  /** The final suspension of a frame whose Tasks are gone. */
  lemma FinalFair<C, V>(p: Program<C, V>, m: Machine<C, V>, k: Ledger, t: ThreadId, f: Id, v: V)
    requires Sound(m, k) && StackOf(m, t) != [] && Top(m, t) == f && f in m.frames && m.frames[f].slots == map[]
    ensures var r := FinalSuspend(p, m.(frames := m.frames[f := m.frames[f].(value := Some(v), point := Final)]), t, f);
      r.Ok? && Sound(r.value, Place(k, r.value, t))
  {
    TopSound(m, k, t);
    var r := FinalSuspend(p, m.(frames := m.frames[f := m.frames[f].(value := Some(v), point := Final)]), t, f);
    match m.frames[f].caller
    case None =>
      EndSound(m, k, t);
      assert r.value == Ended(m, t, Top(m, t));
    case Some(c) =>
      JoinSound(p, m, k, t, c, v);
      assert FrameSound(m, k, c);
      assert r.value == Returned(p, m, t, Top(m, t), c, v);
  }

  lemma ResumeFair<C, V>(b: Body<C, V>, x: Noted<C, V>, t: ThreadId)
    requires Sound(x.machine, x.ledger) && StackOf(x.machine, t) != []
    requires var f := Top(x.machine, t); f in x.machine.frames && b.resumes(x.machine.frames[f].ctrl).Some?
    ensures Fair(b, x, Run(t))
  {
    var (m, k, f) := (x.machine, x.ledger, Top(x.machine, t));
    TopSound(m, k, t);
    var (s, next) := b.resumes(m.frames[f].ctrl).value;
    var o := SetCtrl(m, f, next);
    CtrlSound(m, k, f, next);
    ResumeBreaks(b.program, o, k, t, f, s);
    if ResumeTask(b.program, o, t, f, s).Ok? {
      var g := o.frames[f].slots[s];
      StartSound(o, k, t, f, s, g, true);
      assert ResumeTask(b.program, o, t, f, s).value == Started(o, t, f, s, g, true);
    }
  }

  lemma ParkFair<C, V>(b: Body<C, V>, x: Noted<C, V>, t: ThreadId)
    requires Sound(x.machine, x.ledger) && StackOf(x.machine, t) != []
    requires var f := Top(x.machine, t);
      && f in x.machine.frames && b.resumes(x.machine.frames[f].ctrl).None?
      && b.program.code(x.machine.frames[f].ctrl).Callback?
    ensures Fair(b, x, Run(t))
  {
    ParkSound(x.machine, x.ledger, t, b.program.code(x.machine.frames[Top(x.machine, t)].ctrl).request);
  }

  lemma AdvanceFair<C, V>(b: Body<C, V>, x: Noted<C, V>, e: Stimulus<C, V>)
    requires Sound(x.machine, x.ledger)
    ensures Fair(b, x, e)
  {
    match e
    case Finish(t, f, v) => CompleteSound(b.program, x.machine, x.ledger, t, f, v);
    case Begin(t, body) => LaunchSound(b.program, x.machine, x.ledger, t, body);
    case Run(t) =>
      if StackOf(x.machine, t) != [] {
        TopSound(x.machine, x.ledger, t);
        var c := x.machine.frames[Top(x.machine, t)].ctrl;
        if b.resumes(c).Some? {
          ResumeFair(b, x, t);
        } else {
          match b.program.code(c)
          case Make(_, _, _) => MakeFair(b, x, t);
          case Move(_, _, _) => MakeFair(b, x, t);
          case Drop(_, _) => DropFair(b, x, t);
          case Spawn(_, _) => SpawnFair(b, x, t);
          case Await(_) => AwaitFair(b, x, t);
          case Callback(_) => ParkFair(b, x, t);
          case Return(_) => ReturnFair(b, x, t);
        }
      }
  }

  // ---- Runs -----------------------------------------------------------------------------------------

  lemma {:induction false} PlaySound<C, V>(b: Body<C, V>, es: seq<Stimulus<C, V>>)
    ensures Resuming.Play(b, es).Ok? ==> var x := Resuming.Play(b, es).value; Sound(x.machine, x.ledger)
  {
    if es != [] {
      PlaySound(b, es[..|es| - 1]);
      var x := Resuming.Play(b, es[..|es| - 1]);
      if x.Ok? { AdvanceFair(b, x.value, es[|es| - 1]); }
    }
  }

  /** Event `i` comes, and does what must not come next. */
  ghost predicate TripsAt<C, V>(b: Body<C, V>, es: seq<Stimulus<C, V>>, i: nat)
    requires i < |es|
  {
    var x := Resuming.Play(b, es[..i]);
    x.Ok? && Trips(b, x.value, es[i])
  }

  /** A run breaks if and only if one of its events resumes in place an empty or finished Task, or uses, destroys
      or resumes again a Task that was resumed in place. */
  lemma BreaksExactlyWhenTripped<C, V>(b: Body<C, V>, es: seq<Stimulus<C, V>>)
    ensures Resuming.Play(b, es).Broken? <==> exists i: nat :: i < |es| && TripsAt(b, es, i)
  {
    assert es[..|es|] == es;
    if HasBroken(b, es, |es|) {
      var i := TrippedBefore(b, es, |es|);
    }
    forall i: nat | i < |es| && TripsAt(b, es, i) ensures HasBroken(b, es, |es|) {
      NextBreaks(b, es, i);
      StaysBroken(b, es, i + 1, |es|);
    }
  }

  ghost predicate HasBroken<C, V>(b: Body<C, V>, es: seq<Stimulus<C, V>>, n: nat)
    requires n <= |es|
  {
    Resuming.Play(b, es[..n]).Broken?
  }

  lemma {:induction false} TrippedBefore<C, V>(b: Body<C, V>, es: seq<Stimulus<C, V>>, n: nat) returns (i: nat)
    requires n <= |es| && HasBroken(b, es, n)
    ensures i < n && TripsAt(b, es, i)
  {
    NothingYet(b, es);
    i := n - 1;
    NextBreaks(b, es, i);
    if HasBroken(b, es, i) { i := TrippedBefore(b, es, i); }
  }

  lemma NothingYet<C, V>(b: Body<C, V>, es: seq<Stimulus<C, V>>)
    ensures !HasBroken(b, es, 0)
  {
  }

  lemma {:induction false} StaysBroken<C, V>(b: Body<C, V>, es: seq<Stimulus<C, V>>, i: nat, n: nat)
    requires i <= n <= |es| && HasBroken(b, es, i)
    ensures HasBroken(b, es, n)
  {
    if i < n {
      StaysBroken(b, es, i, n - 1);
      assert es[..n][..n - 1] == es[..n - 1];
    }
  }

  /** A run is broken after an event just when that trips, or when it was broken before. */
  lemma NextBreaks<C, V>(b: Body<C, V>, es: seq<Stimulus<C, V>>, i: nat)
    requires i < |es|
    ensures HasBroken(b, es, i + 1) <==> HasBroken(b, es, i) || TripsAt(b, es, i)
  {
    assert es[..i + 1][..i] == es[..i];
    var r := Resuming.Play(b, es[..i]);
    if r.Ok? {
      PlaySound(b, es[..i]);
      AdvanceFair(b, r.value, es[i]);
    }
  }

  /** In every run, a frame that was resumed in place goes on without a caller, whatever happens to its Task, until
      its final awaiter destroys it. */
  lemma ResumedStaysOwnerless<C, V>(b: Body<C, V>, es: seq<Stimulus<C, V>>, g: Id)
    requires Resuming.Play(b, es).Ok? && g in Resuming.Play(b, es).value.ledger.resumed
    ensures var m := Resuming.Play(b, es).value.machine;
      if g in m.frames then Going(m, g) && m.frames[g].caller.None?
      else g in m.destroyed && m.destroyed[g] == FinalAwaiter
  {
    PlaySound(b, es);
    var x := Resuming.Play(b, es).value;
    assert g in x.machine.frames ==> FrameSound(x.machine, x.ledger, g);
  }

  /** How the first use of such a Task breaks: the destructor destroys the frame twice if it is gone, and midway if it
      is not; co_await finds it gone, or waiting for something else, or running. */
  lemma HowItBreaks<C, V>(b: Body<C, V>, es: seq<Stimulus<C, V>>, t: ThreadId, s: Slot)
    requires Resuming.Play(b, es).Ok? && StackOf(Resuming.Play(b, es).value.machine, t) != []
    ensures Top(Resuming.Play(b, es).value.machine, t) in Resuming.Play(b, es).value.machine.frames
    ensures var x := Resuming.Play(b, es).value;
      var (m, f) := (x.machine, Top(x.machine, t));
      Spoiled(m, x.ledger, f, s) ==>
        var g := m.frames[f].slots[s];
        && DropSlots(m, f, {s}) == Broken(if g in m.frames then DestroyedMidway else DestroyedTwice)
        && AwaitTask(b.program, m, t, f, s) ==
           Broken(if g !in m.frames then DanglingTask
                  else if m.frames[g].point.Executing? && g != f then ResumedRunning else NoValue)
  {
    PlaySound(b, es);
    var x := Resuming.Play(b, es).value;
    var (m, k) := (x.machine, x.ledger);
    TopSound(m, k, t);
    var f := Top(m, t);
    if Spoiled(m, k, f, s) {
      DropOneBreaks(m, k, f, s);
      AwaitOneBreaks(b.program, m, k, t, f, s);
    }
  }

  /** A program that never calls Task::resume never breaks. */
  lemma WithoutResume<C, V>(b: Body<C, V>, es: seq<Stimulus<C, V>>)
    requires forall c :: b.resumes(c).None?
    ensures !Resuming.Play(b, es).Broken?
  {
    BreaksExactlyWhenTripped(b, es);
    forall i: nat | i < |es| ensures !TripsAt(b, es, i) {
      NeverTrips(b, es[..i], es[i]);
    }
  }

  lemma NeverTrips<C, V>(b: Body<C, V>, es: seq<Stimulus<C, V>>, e: Stimulus<C, V>)
    requires forall c :: b.resumes(c).None?
    ensures Resuming.Play(b, es).Ok? ==> !Trips(b, Resuming.Play(b, es).value, e)
  {
    if Resuming.Play(b, es).Ok? {
      NoneResumed(b, es);
      NothingSpoiled(b, Resuming.Play(b, es).value, e);
    }
  }

  lemma NothingSpoiled<C, V>(b: Body<C, V>, x: Noted<C, V>, e: Stimulus<C, V>)
    requires (forall c :: b.resumes(c).None?) && x.ledger.resumed == {}
    ensures !Trips(b, x, e)
  {
  }

  lemma {:induction false} NoneResumed<C, V>(b: Body<C, V>, es: seq<Stimulus<C, V>>)
    requires (forall c :: b.resumes(c).None?) && Resuming.Play(b, es).Ok?
    ensures Resuming.Play(b, es).value.ledger.resumed == {}
  {
    if es != [] {
      NoneResumed(b, es[..|es| - 1]);
      NoMoreResumed(b, Resuming.Play(b, es[..|es| - 1]).value, es[|es| - 1]);
    }
  }

  lemma NoMoreResumed<C, V>(b: Body<C, V>, x: Noted<C, V>, e: Stimulus<C, V>)
    requires (forall c :: b.resumes(c).None?) && Resuming.Advance(b, x, e).Ok?
    ensures Resuming.Advance(b, x, e).value.ledger.resumed == x.ledger.resumed
  {
  }

  // ---- What the caller link decides -----------------------------------------------------------------

  /** A frame without Tasks returns while a Task of another frame holds it. If nobody awaits it, its final awaiter
      destroys it and the Task will destroy it again; if somebody does, the Task destroys it once. */
  lemma CallerDecides<C, V>(p: Program<C, V>, m: Machine<C, V>, t: ThreadId, g: Id, v: V, f: Id, s: Slot)
    requires StackOf(m, t) != [] && Top(m, t) == g && g in m.frames && m.frames[g].slots == map[]
    requires f in m.frames && f != g && s in m.frames[f].slots && m.frames[f].slots[s] == g
    requires ReturnValue(p, m, t, g, v).Ok?
    ensures var n := ReturnValue(p, m, t, g, v).value;
      && f in n.frames
      && (DropSlots(n, f, {s}) == Broken(DestroyedTwice) <==> m.frames[g].caller.None?)
      && (m.frames[g].caller.Some? ==>
            var o := DropSlots(n, f, {s});
            o.Ok? && g !in o.value.frames && g in o.value.destroyed && o.value.destroyed[g] == OwningTask)
  {
    assert DropSlots(m, g, m.frames[g].slots.Keys).value.frames == m.frames by {
      assert m.frames[g].slots.Keys * m.frames[g].slots.Keys == {} && m.frames[g].slots - {} == map[];
    }
    var n := ReturnValue(p, m, t, g, v).value;
    assert n.frames[f].slots == m.frames[f].slots;
    assert n.frames[f].slots.Keys * {s} == {s};
    assert (set u | u in {s} :: n.frames[f].slots[u]) == {g};
  }

  // ---- Three runs -----------------------------------------------------------------------------------

  /** Body 0 makes a Task of body 10, resumes it, does `use` with it and returns; body 10 does `inner`. */
  function Demo(inner: Action<int, int>, use: Action<int, int>): Body<int, int> {
    Body(
      Program(
        c => if c == 0 then Make(0, 10, 1) else if c == 2 then use else if c == 10 then inner else Return(0),
        (c, v) => c + 1),
      c => if c == 1 then Some((0, 2)) else None)
  }

  const DemoRun: seq<Stimulus<int, int>> := [Begin(0, 0), Run(0), Run(0), Run(0)]

  lemma PlayNext<C, V>(b: Body<C, V>, es: seq<Stimulus<C, V>>, e: Stimulus<C, V>)
    requires Resuming.Play(b, es).Ok?
    ensures Resuming.Play(b, es + [e]) == Resuming.Advance(b, Resuming.Play(b, es).value, e)
  {
    assert (es + [e])[..|es|] == es;
  }

  /** Up to where the Task was resumed: frame 1 executes on top of frame 0, which holds it. */
  lemma DemoStart(inner: Action<int, int>, use: Action<int, int>)
    ensures Resuming.Play(Demo(inner, use), DemoRun[..3]).Ok?
    ensures Resuming.Play(Demo(inner, use), DemoRun[..3]).value.machine ==
      Machine(map[0 := Frame(2, map[0 := 1], None, None, None, Executing), 1 := Frame(10, map[], None, None, None, Executing)],
              2, map[0 := [0, 1]], {}, map[])
  {
    var b := Demo(inner, use);
    assert DemoRun[..1] == [] + [Begin(0, 0)];
    assert DemoRun[..2] == DemoRun[..1] + [Run(0)];
    assert DemoRun[..3] == DemoRun[..2] + [Run(0)];
    PlayNext(b, [], Begin(0, 0));
    var x := Resuming.Play(b, DemoRun[..1]).value;
    assert x.machine == Machine(map[0 := Frame(0, map[], None, None, None, Executing)], 1, map[0 := [0]], {}, map[]);
    PlayNext(b, DemoRun[..1], Run(0));
    var y := Resuming.Play(b, DemoRun[..2]).value;
    assert y.machine ==
      Machine(map[0 := Frame(1, map[0 := 1], None, None, None, Executing), 1 := Frame(10, map[], None, None, None, Initial)],
              2, map[0 := [0]], {}, map[]);
    PlayNext(b, DemoRun[..2], Run(0));
    var z := Resuming.Play(b, DemoRun[..3]).value.machine;
    assert StackOf(y.machine, 0) == [0] && Top(y.machine, 0) == 0 && [0] + [1] == [0, 1];
    assert z.frames == map[0 := Frame(2, map[0 := 1], None, None, None, Executing), 1 := Frame(10, map[], None, None, None, Executing)];
    assert z.stacks == map[0 := [0, 1]];
  }

  /** The frame returns: the destructor destroys it again. */
  lemma DestroysTwice()
    ensures Resuming.Play(Demo(Return(7), Drop(0, 3)), DemoRun + [Run(0)]) == Broken(DestroyedTwice)
  {
    DemoReturned(Drop(0, 3));
    PlayNext(Demo(Return(7), Drop(0, 3)), DemoRun, Run(0));
    DropsGone(Resuming.Play(Demo(Return(7), Drop(0, 3)), DemoRun).value.machine, 3);
  }

  lemma DemoReturned(use: Action<int, int>)
    ensures Resuming.Play(Demo(Return(7), use), DemoRun).Ok?
    ensures var m := Resuming.Play(Demo(Return(7), use), DemoRun).value.machine;
      m.frames == map[0 := Frame(2, map[0 := 1], None, None, None, Executing)] && StackOf(m, 0) == [0]
  {
    var b := Demo(Return(7), use);
    DemoStart(Return(7), use);
    assert DemoRun == DemoRun[..3] + [Run(0)];
    PlayNext(b, DemoRun[..3], Run(0));
    var m := Resuming.Play(b, DemoRun[..3]).value.machine;
    assert StackOf(m, 0) == [0, 1] && Top(m, 0) == 1 && Below(m, 0) == [0];
    Gone(b, Resuming.Play(b, DemoRun[..3]).value, 0, 1, 7);
  }

  lemma Gone<C, V>(b: Body<C, V>, x: Noted<C, V>, t: ThreadId, f: Id, v: V)
    requires StackOf(x.machine, t) != [] && f == Top(x.machine, t) && f in x.machine.frames
    requires x.machine.frames[f].slots == map[] && x.machine.frames[f].caller.None?
    requires b.resumes(x.machine.frames[f].ctrl).None? && b.program.code(x.machine.frames[f].ctrl) == Return(v)
    ensures var (m, r) := (x.machine, Resuming.Advance(b, x, Run(t)));
      && r.Ok? && r.value.machine.frames == m.frames - {f}
      && r.value.machine.stacks == m.stacks[t := Below(m, t)]
  {
    var m := x.machine;
    var o := DropSlots(m, f, m.frames[f].slots.Keys);
    assert m.frames[f].slots.Keys == {} && m.frames[f].slots - {} == map[];
    assert o.Ok? && o.value.frames == m.frames;
  }

  lemma DropsGone(m: Machine<int, int>, next: int)
    requires 0 in m.frames && m.frames[0].slots == map[0 := 1] && 1 !in m.frames
    ensures DropSlots(SetCtrl(m, 0, next), 0, {0}) == Broken(DestroyedTwice)
  {
    var n := SetCtrl(m, 0, next);
    assert n.frames[0].slots.Keys * {0} == {0};
    assert 1 in (set s | s in n.frames[0].slots.Keys * {0} :: n.frames[0].slots[s]);
    assert 1 !in n.frames;
  }

  /** The frame waits for a completion: the destructor destroys it midway, ... */
  lemma DestroysMidway()
    ensures Resuming.Play(Demo(Callback(5), Drop(0, 3)), DemoRun + [Run(0)]) == Broken(DestroyedMidway)
  {
    var b := Demo(Callback(5), Drop(0, 3));
    DemoParked(Drop(0, 3));
    PlayNext(b, DemoRun, Run(0));
    DropsParked(Resuming.Play(b, DemoRun).value.machine, 3);
  }

  lemma DropsParked(m: Machine<int, int>, next: int)
    requires 0 in m.frames && m.frames[0].slots == map[0 := 1] && 1 in m.frames && m.frames[1].point.AtCallback?
    ensures DropSlots(SetCtrl(m, 0, next), 0, {0}) == Broken(DestroyedMidway)
  {
    var n := SetCtrl(m, 0, next);
    assert n.frames[0].slots.Keys * {0} == {0};
    assert (set s | s in n.frames[0].slots.Keys * {0} :: n.frames[0].slots[s]) == {1};
    assert 1 in n.frames && !Resting(n.frames[1]);
  }

  lemma DemoParked(use: Action<int, int>)
    ensures Resuming.Play(Demo(Callback(5), use), DemoRun).Ok?
    ensures var m := Resuming.Play(Demo(Callback(5), use), DemoRun).value.machine;
      && m.frames == map[0 := Frame(2, map[0 := 1], None, None, None, Executing),
                         1 := Frame(10, map[], None, None, None, AtCallback(5))]
      && StackOf(m, 0) == [0]
  {
    var b := Demo(Callback(5), use);
    DemoStart(Callback(5), use);
    assert DemoRun == DemoRun[..3] + [Run(0)];
    PlayNext(b, DemoRun[..3], Run(0));
    var m := Resuming.Play(b, DemoRun[..3]).value.machine;
    assert StackOf(m, 0) == [0, 1] && Top(m, 0) == 1 && Below(m, 0) == [0];
  }

  /** ... and co_await wakes it up without a value. */
  lemma AwaitsParked()
    ensures Resuming.Play(Demo(Callback(5), Await(0)), DemoRun + [Run(0)]) == Broken(NoValue)
  {
    DemoParked(Await(0));
    PlayNext(Demo(Callback(5), Await(0)), DemoRun, Run(0));
  }
}

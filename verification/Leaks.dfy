/** What a move assignment over a Task that still has a frame costs: the frame is never destroyed. */
module Leaks {
  import opened Prelude
  import opened Direct
  import opened Frames
  import opened Chains
  import opened Transfers
  import opened Runs
  import opened Coroutines

  /** Nothing can ever reach frame `g`: no Task holds it, no frame will return to it, it is on no stack, and no
      operation waits with its handle. */
  ghost predicate Leaked<C, V>(m: Machine<C, V>, g: Id) {
    && g in m.frames && g < m.next && Resting(m.frames[g]) && g !in m.pending
    && (forall f, s :: !Holds(m, f, s, g))
    && (forall f :: f in m.frames && !m.frames[f].point.Final? ==> m.frames[f].caller != Some(g))
    && (forall t :: t in m.stacks ==> g !in m.stacks[t])
    && (forall t, f :: t in m.stacks && f in m.stacks[t] && f in m.frames ==> m.frames[f].caller != Some(g))
  }

  /** Whatever happens next, it stays so. */
  lemma StaysLeaked<C, V>(p: Program<C, V>, m: Machine<C, V>, g: Id, e: Stimulus<C, V>)
    requires Leaked(m, g) && Advance(p, m, e).Ok?
    ensures Leaked(Advance(p, m, e).value, g)
  {
    match e
    case Run(t) => ActionLeaks(p, m, g, t);
    case Finish(t, f, v) => CompleteLeaks(p, m, g, t, f, v);
    case Begin(t, body) => LaunchLeaks(p, m, g, t, body);
  }

  lemma ActionLeaks<C, V>(p: Program<C, V>, m: Machine<C, V>, g: Id, t: ThreadId)
    requires Leaked(m, g) && Perform(p, m, t).Ok?
    ensures Leaked(Perform(p, m, t).value, g)
  {
    var f := Top(m, t);
    assert f in StackOf(m, t);
    match p.code(m.frames[f].ctrl)
    case Make(s, body, next) => CtrlLeaks(m, g, f, next); MakeLeaks(SetCtrl(m, f, next), g, f, s, body);
    case Move(d, s, next) => CtrlLeaks(m, g, f, next); MoveLeaks(SetCtrl(m, f, next), g, f, d, s);
    case Drop(s, next) => CtrlLeaks(m, g, f, next); DropLeaks(SetCtrl(m, f, next), g, f, {s});
    case Spawn(s, next) => CtrlLeaks(m, g, f, next); SpawnLeaks(p, SetCtrl(m, f, next), g, t, f, s);
    case Await(s) => AwaitLeaks(p, m, g, t, s);
    case Callback(q) => ParkLeaks(m, g, t, q);
    case Return(v) => ReturnLeaks(p, m, g, t, v);
  }

  lemma CtrlLeaks<C, V>(m: Machine<C, V>, g: Id, f: Id, c: C)
    requires Leaked(m, g) && f in m.frames && f != g
    ensures Leaked(SetCtrl(m, f, c), g)
  {
    forall x, u ensures !Holds(SetCtrl(m, f, c), x, u, g) { assert !Holds(m, x, u, g); }
  }

  lemma MakeLeaks<C, V>(m: Machine<C, V>, g: Id, f: Id, s: Slot, body: C)
    requires Leaked(m, g) && f in m.frames && f != g && MakeTask(m, f, s, body).Ok?
    ensures Leaked(MakeTask(m, f, s, body).value, g)
  {
    var n := MakeTask(m, f, s, body).value;
    forall x, u ensures !Holds(n, x, u, g) { assert !Holds(m, x, u, g); }
  }

  lemma MoveLeaks<C, V>(m: Machine<C, V>, g: Id, f: Id, d: Slot, s: Slot)
    requires Leaked(m, g) && f in m.frames && f != g && MoveTask(m, f, d, s).Ok?
    ensures Leaked(MoveTask(m, f, d, s).value, g)
  {
    var n := MoveTask(m, f, d, s).value;
    forall x, u ensures !Holds(n, x, u, g) { assert !Holds(m, x, u, g) && !Holds(m, x, s, g); }
  }

  lemma DropLeaks<C, V>(m: Machine<C, V>, g: Id, f: Id, scope: set<Slot>)
    requires Leaked(m, g) && f in m.frames && f != g && DropSlots(m, f, scope).Ok?
    ensures Leaked(DropSlots(m, f, scope).value, g)
  {
    var n := DropSlots(m, f, scope).value;
    forall s | s in m.frames[f].slots ensures m.frames[f].slots[s] != g { assert !Holds(m, f, s, g); }
    forall x, u ensures !Holds(n, x, u, g) { assert !Holds(m, x, u, g); }
  }

  /** Resuming another frame. */
  lemma ResumeLeaks<C, V>(p: Program<C, V>, m: Machine<C, V>, g: Id, f: Id)
    requires Leaked(m, g) && f != g && Resume(p, m, f).Ok?
    ensures Leaked(Resume(p, m, f).value, g)
  {
    ResumeTouchesOne(p, m, f);
    OneFrameLeaks(m, g, f, Resume(p, m, f).value.frames[f]);
  }

  lemma ResumeTouchesOne<C, V>(p: Program<C, V>, m: Machine<C, V>, f: Id)
    requires Resume(p, m, f).Ok?
    ensures f in m.frames && !m.frames[f].point.Final?
    ensures var n := Resume(p, m, f).value;
      && f in n.frames && n == m.(frames := m.frames[f := n.frames[f]])
      && n.frames[f].slots == m.frames[f].slots && n.frames[f].caller == m.frames[f].caller
  {
  }

  lemma OneFrameLeaks<C, V>(m: Machine<C, V>, g: Id, f: Id, a: Frame<C, V>)
    requires Leaked(m, g) && f in m.frames && f != g && !m.frames[f].point.Final?
    requires a.slots == m.frames[f].slots && a.caller == m.frames[f].caller
    ensures Leaked(m.(frames := m.frames[f := a]), g)
  {
    var n := m.(frames := m.frames[f := a]);
    forall x, u ensures !Holds(n, x, u, g) { assert !Holds(m, x, u, g); }
  }

  /** Another frame comes to the top of a stack. */
  lemma PushLeaks<C, V>(m: Machine<C, V>, g: Id, t: ThreadId, below: seq<Id>, f: Id)
    requires Leaked(m, g) && f != g && g !in below && f in m.frames && m.frames[f].caller != Some(g)
    requires forall x :: x in below ==> x in StackOf(m, t)
    ensures Leaked(m.(stacks := m.stacks[t := below + [f]]), g)
  {
    var n := m.(stacks := m.stacks[t := below + [f]]);
    forall x, u ensures !Holds(n, x, u, g) { assert !Holds(m, x, u, g); }
  }

  lemma SpawnLeaks<C, V>(p: Program<C, V>, m: Machine<C, V>, g: Id, t: ThreadId, f: Id, s: Slot)
    requires Leaked(m, g) && f in m.frames && f != g && SpawnTask(p, m, t, f, s).Ok?
    ensures Leaked(SpawnTask(p, m, t, f, s).value, g)
  {
    var a := m.frames[f];
    var o := m.(frames := m.frames[f := a.(slots := a.slots - {s})]);
    assert !Holds(m, f, s, g);
    forall x, u ensures !Holds(o, x, u, g) { assert !Holds(m, x, u, g); }
    PushLeaks(o, g, t, StackOf(m, t), a.slots[s]);
    ResumeLeaks(p, o.(stacks := m.stacks[t := StackOf(m, t) + [a.slots[s]]]), g, a.slots[s]);
  }

  lemma AwaitLeaks<C, V>(p: Program<C, V>, m: Machine<C, V>, g: Id, t: ThreadId, s: Slot)
    requires Leaked(m, g) && StackOf(m, t) != [] && Top(m, t) in m.frames && AwaitTask(p, m, t, Top(m, t), s).Ok?
    ensures Leaked(AwaitTask(p, m, t, Top(m, t), s).value, g)
  {
    var f := Top(m, t);
    assert f in StackOf(m, t);
    assert !Holds(m, f, s, g);
    var a := m.frames[f];
    var k := a.slots[s];
    if m.frames[k].point.Final? {
      CtrlLeaks(m, g, f, p.resume(a.ctrl, m.frames[k].value.value));
    } else {
      var suspended := m.frames[f := a.(point := AtTask(s, k))];
      var o := m.(frames := suspended[k := suspended[k].(caller := Some(f))]);
      forall x, u ensures !Holds(o, x, u, g) { assert !Holds(m, x, u, g); }
      PushLeaks(o, g, t, Below(m, t), k);
      ResumeLeaks(p, o.(stacks := m.stacks[t := Below(m, t) + [k]]), g, k);
    }
  }

  lemma ParkLeaks<C, V>(m: Machine<C, V>, g: Id, t: ThreadId, q: V)
    requires Leaked(m, g) && StackOf(m, t) != [] && Top(m, t) in m.frames
    ensures Leaked(AwaitCallback(m, t, Top(m, t), q), g)
  {
    var n := AwaitCallback(m, t, Top(m, t), q);
    assert Top(m, t) in StackOf(m, t);
    forall x, u ensures !Holds(n, x, u, g) { assert !Holds(m, x, u, g); }
  }

  lemma ReturnLeaks<C, V>(p: Program<C, V>, m: Machine<C, V>, g: Id, t: ThreadId, v: V)
    requires Leaked(m, g) && StackOf(m, t) != [] && Top(m, t) in m.frames
    requires ReturnValue(p, m, t, Top(m, t), v).Ok?
    ensures Leaked(ReturnValue(p, m, t, Top(m, t), v).value, g)
  {
    var f := Top(m, t);
    assert f in StackOf(m, t);
    var all := m.frames[f].slots.Keys;
    DropLeaks(m, g, f, all);
    FinalLeaks(p, DropSlots(m, f, all).value, g, t, v);
  }

  /** The final suspension of another frame. */
  lemma FinalLeaks<C, V>(p: Program<C, V>, m: Machine<C, V>, g: Id, t: ThreadId, v: V)
    requires Leaked(m, g) && StackOf(m, t) != [] && Top(m, t) in m.frames
    requires var f := Top(m, t);
      FinalSuspend(p, m.(frames := m.frames[f := m.frames[f].(value := Some(v), point := Final)]), t, f).Ok?
    ensures var f := Top(m, t);
      Leaked(FinalSuspend(p, m.(frames := m.frames[f := m.frames[f].(value := Some(v), point := Final)]), t, f).value, g)
  {
    var f := Top(m, t);
    var o := m.(frames := m.frames[f := m.frames[f].(value := Some(v), point := Final)]);
    assert f in StackOf(m, t);
    forall x, u ensures !Holds(o, x, u, g) { assert !Holds(m, x, u, g); }
    match m.frames[f].caller
    case None =>
      var n := FinalSuspend(p, o, t, f).value;
      forall x, u ensures !Holds(n, x, u, g) { assert !Holds(o, x, u, g); }
    case Some(c) =>
      PushLeaks(o, g, t, Below(m, t), c);
      ResumeLeaks(p, o.(stacks := m.stacks[t := Below(m, t) + [c]]), g, c);
  }

  lemma CompleteLeaks<C, V>(p: Program<C, V>, m: Machine<C, V>, g: Id, t: ThreadId, f: Id, v: V)
    requires Leaked(m, g) && Complete(p, m, t, f, v).Ok?
    ensures Leaked(Complete(p, m, t, f, v).value, g)
  {
    var n := Complete(p, m, t, f, v).value;
    forall x, u ensures !Holds(n, x, u, g) { assert !Holds(m, x, u, g); }
  }

  lemma LaunchLeaks<C, V>(p: Program<C, V>, m: Machine<C, V>, g: Id, t: ThreadId, body: C)
    requires Leaked(m, g) && Launch(p, m, t, body).Ok?
    ensures Leaked(Launch(p, m, t, body).value, g)
  {
    var n := Launch(p, m, t, body).value;
    forall x, u ensures !Holds(n, x, u, g) { assert !Holds(m, x, u, g); }
  }

  /** The machine after `es`, from `m`. */
  function PlayFrom<C, V>(p: Program<C, V>, m: Machine<C, V>, es: seq<Stimulus<C, V>>): Attempt<Machine<C, V>>
    decreases |es|
  {
    if es == [] then Ok(m)
    else
      var n :- Advance(p, m, es[0]);
      PlayFrom(p, n, es[1..])
  }

  /** A leaked frame is never destroyed: it is there, leaked, however the run goes on. */
  lemma {:induction false} LeakedForever<C, V>(p: Program<C, V>, m: Machine<C, V>, g: Id, es: seq<Stimulus<C, V>>)
    requires Leaked(m, g) && PlayFrom(p, m, es).Ok?
    ensures Leaked(PlayFrom(p, m, es).value, g)
    decreases |es|
  {
    if es != [] {
      StaysLeaked(p, m, g, es[0]);
      LeakedForever(p, Advance(p, m, es[0]).value, g, es[1..]);
    }
  }

  lemma NothingLeaked<C, V>(m: Machine<C, V>, h: History<C, V>, g: Id)
    requires Inv(m, h)
    ensures !Leaked(m, g)
  {
    if g in m.frames {
      assert FrameOk(m, h, g);
      if g != h.home[g] { assert Holds(m, h.owner[g].0, h.owner[g].1, g); }
    }
  }

  /** At any point of any run, a move assignment by the running frame leaks a frame just when it goes from one Task to
      another that still has one; and then it leaks that one. */
  lemma OverwriteLeaks<C(!new), V(!new)>(p: Program<C, V>, x: Execution<C, V>, t: ThreadId, d: Slot, s: Slot, g: Id)
    requires Executes(p, x) && StackOf(Last(x), t) != []
    ensures Top(Last(x), t) in Last(x).frames
    ensures var (m, f) := (Last(x), Top(Last(x), t));
      Leaked(Assign(m, f, d, s), g) <==> d != s && d in m.frames[f].slots && m.frames[f].slots[d] == g
  {
    var (m, h) := (Last(x), Past(x));
    EndsGood(p, x);
    TopRuns(m, h, t);
    var f := Top(m, t);
    var n := Assign(m, f, d, s);
    if d != s && d in m.frames[f].slots && m.frames[f].slots[d] == g {
      LosesHandle(m, h, t, f, d, s);
    } else if Leaked(n, g) {
      StillHeld(m, h, f, d, s, g);
      NothingLeaked(m, h, g);
      assert false;
    }
  }

  /** Any other frame is leaked afterwards only if it was before. */
  lemma StillHeld<C, V>(m: Machine<C, V>, h: History<C, V>, f: Id, d: Slot, s: Slot, g: Id)
    requires Inv(m, h) && f in m.frames && m.frames[f].point.Executing? && Leaked(Assign(m, f, d, s), g)
    requires !(d != s && d in m.frames[f].slots && m.frames[f].slots[d] == g)
    ensures Leaked(m, g)
  {
    var n := Assign(m, f, d, s);
    forall k, u ensures !Holds(m, k, u, g) {
      assert !Holds(n, k, u, g) && !Holds(n, k, d, g);
    }
    forall k | k in m.frames && !m.frames[k].point.Final? ensures m.frames[k].caller != Some(g) {
      assert k in n.frames && n.frames[k].caller == m.frames[k].caller;
    }
    forall u, k | u in m.stacks && k in m.stacks[u] && k in m.frames ensures m.frames[k].caller != Some(g) {
      assert k in n.frames && n.frames[k].caller == m.frames[k].caller;
    }
  }

  lemma LosesHandle<C, V>(m: Machine<C, V>, h: History<C, V>, t: ThreadId, f: Id, d: Slot, s: Slot)
    requires Inv(m, h) && f in h.home && RunsOn(m, h, t, f, h.home[f]) && d != s && d in m.frames[f].slots
    ensures Leaked(Assign(m, f, d, s), m.frames[f].slots[d])
  {
    var g, n := m.frames[f].slots[d], Assign(m, f, d, s);
    assert FrameOk(m, h, f) && SlotOk(m, h, f, d) && FrameOk(m, h, g);
    forall k, u ensures !Holds(n, k, u, g) {
      if k in m.frames && u in m.frames[k].slots {
        assert FrameOk(m, h, k) && SlotOk(m, h, k, u);
      }
      if s in m.frames[f].slots { assert SlotOk(m, h, f, s); }
    }
    forall k | k in n.frames && !n.frames[k].point.Final? ensures n.frames[k].caller != Some(g) {
      NoCallerAtRest(m, h, k, g);
    }
    forall u | u in n.stacks ensures g !in n.stacks[u] {
      forall i: nat | i < |n.stacks[u]| ensures n.stacks[u][i] != g { assert EntryOk(m, h, u, i); }
    }
    forall u, k | u in n.stacks && k in n.stacks[u] && k in n.frames ensures n.frames[k].caller != Some(g) {
      var i: nat :| i < |n.stacks[u]| && n.stacks[u][i] == k;
      assert EntryOk(m, h, u, i);
    }
  }

  /** An unfinished frame's caller waits for it. */
  lemma NoCallerAtRest<C, V>(m: Machine<C, V>, h: History<C, V>, k: Id, g: Id)
    requires Inv(m, h) && k in m.frames && !m.frames[k].point.Final? && g in m.frames && Resting(m.frames[g])
    ensures m.frames[k].caller != Some(g)
  {
    assert FrameOk(m, h, k);
    if !m.frames[k].point.Initial? {
      var r := h.home[k];
      var i := h.depth[k];
      assert RootOk(m, h, r) && LinkOk(m, h, r, i);
      if i > 0 { assert LinkOk(m, h, r, i - 1); }
    }
  }
}

/** Each action of a program that may call Task::resume: when it breaks, and that otherwise it keeps the invariant. */
module ResumeSteps {
  import opened Prelude
  import opened Direct
  import opened Frames
  import opened Resuming

  lemma TopSound<C, V>(m: Machine<C, V>, k: Ledger, t: ThreadId)
    requires Sound(m, k) && StackOf(m, t) != []
    ensures Top(m, t) in m.frames && m.frames[Top(m, t)].point.Executing? && FrameSound(m, k, Top(m, t))
    ensures forall u, i: nat :: u in m.stacks && i < |m.stacks[u]| && !(u == t && i == |m.stacks[t]| - 1) ==>
              m.stacks[u][i] != Top(m, t)
  {
    assert EntrySound(m, k, t, |m.stacks[t]| - 1);
    forall u, i: nat | u in m.stacks && i < |m.stacks[u]| && !(u == t && i == |m.stacks[t]| - 1)
      ensures m.stacks[u][i] != Top(m, t)
    {
      assert EntrySound(m, k, u, i);
    }
  }

  // ---- When an action breaks ------------------------------------------------------------------------

  /** A frame that was resumed in place cannot be resumed by anybody who holds its handle. */
  lemma SpoiledBreaks<C, V>(p: Program<C, V>, m: Machine<C, V>, k: Ledger, n: Machine<C, V>, g: Id)
    requires Sound(m, k) && g in k.resumed
    requires n.frames.Keys == m.frames.Keys && forall x :: x in m.frames ==> n.frames[x].value == m.frames[x].value
    requires g in m.frames ==> n.frames[g].point == m.frames[g].point && n.frames[g].result == m.frames[g].result
    ensures Resume(p, n, g).Broken?
  {
    if g in m.frames {
      assert FrameSound(m, k, g);
      if m.frames[g].point.AtTask? { assert FrameSound(m, k, m.frames[g].point.callee); }
    }
  }

  lemma DropBreaks<C, V>(m: Machine<C, V>, k: Ledger, f: Id, scope: set<Slot>)
    requires Sound(m, k) && f in m.frames && m.frames[f].point.Executing?
    ensures DropSlots(m, f, scope).Broken? <==> exists s :: s in scope && Spoiled(m, k, f, s)
    ensures !DropSlots(m, f, scope).Broken? ==> DropSlots(m, f, scope).Ok?
  {
    var slots := m.frames[f].slots;
    assert FrameSound(m, k, f);
    forall s | s in slots ensures SlotSound(m, k, f, s) { assert SlotSound(m, k, f, s); }
    if s :| s in scope && Spoiled(m, k, f, s) {
      var g := slots[s];
      assert s in slots.Keys * scope;
      assert g in (set u | u in slots.Keys * scope :: slots[u]);
      if g in m.frames { assert FrameSound(m, k, g); }
    } else {
      forall s | s in slots.Keys * scope
        ensures slots[s] in m.frames && Resting(m.frames[slots[s]]) && slots[s] != f
      {
        assert !Spoiled(m, k, f, s);
      }
    }
  }

  /** Dropping one Task: twice destroyed if its frame is gone, destroyed midway if it still goes on. */
  lemma DropOneBreaks<C, V>(m: Machine<C, V>, k: Ledger, f: Id, s: Slot)
    requires Sound(m, k) && f in m.frames && Spoiled(m, k, f, s)
    ensures DropSlots(m, f, {s}) == Broken(if m.frames[f].slots[s] in m.frames then DestroyedMidway else DestroyedTwice)
  {
    var slots := m.frames[f].slots;
    var g := slots[s];
    assert slots.Keys * {s} == {s};
    assert (set u | u in {s} :: slots[u]) == {g};
    if g in m.frames { assert FrameSound(m, k, g); }
  }

  lemma SpawnBreaks<C, V>(p: Program<C, V>, m: Machine<C, V>, k: Ledger, t: ThreadId, f: Id, s: Slot)
    requires Sound(m, k) && f in m.frames && m.frames[f].point.Executing?
    ensures SpawnTask(p, m, t, f, s).Broken? <==> Spoiled(m, k, f, s)
    ensures !SpawnTask(p, m, t, f, s).Disabled?
  {
    var a := m.frames[f];
    assert FrameSound(m, k, f);
    if s in a.slots {
      assert SlotSound(m, k, f, s);
      var g := a.slots[s];
      if g in k.resumed {
        if g in m.frames { assert FrameSound(m, k, g); }
        SpoiledBreaks(p, m, k, m.(frames := m.frames[f := a.(slots := a.slots - {s})],
                                  stacks := m.stacks[t := StackOf(m, t) + [g]]), g);
      }
    }
  }

  lemma ResumeBreaks<C, V>(p: Program<C, V>, m: Machine<C, V>, k: Ledger, t: ThreadId, f: Id, s: Slot)
    requires Sound(m, k) && f in m.frames && m.frames[f].point.Executing?
    ensures var slots := m.frames[f].slots;
      ResumeTask(p, m, t, f, s).Broken? <==> s !in slots || Spoiled(m, k, f, s) || IsFinished(m, slots[s])
    ensures !ResumeTask(p, m, t, f, s).Broken? ==> ResumeTask(p, m, t, f, s).Ok? && m.frames[m.frames[f].slots[s]].point.Initial?
  {
    var a := m.frames[f];
    assert FrameSound(m, k, f);
    if s in a.slots {
      assert SlotSound(m, k, f, s);
      var g := a.slots[s];
      if g in k.resumed { SpoiledBreaks(p, m, k, m.(stacks := m.stacks[t := StackOf(m, t) + [g]]), g); }
    }
  }

  lemma AwaitBreaks<C, V>(p: Program<C, V>, m: Machine<C, V>, k: Ledger, t: ThreadId, f: Id, s: Slot)
    requires Sound(m, k) && f in m.frames && m.frames[f].point.Executing? && StackOf(m, t) != []
    ensures AwaitTask(p, m, t, f, s).Broken? <==> Spoiled(m, k, f, s)
    ensures !AwaitTask(p, m, t, f, s).Disabled?
  {
    var a := m.frames[f];
    assert FrameSound(m, k, f);
    if s in a.slots {
      assert SlotSound(m, k, f, s);
      var g := a.slots[s];
      if g in m.frames { assert FrameSound(m, k, g); }
      if g in k.resumed && g in m.frames && g != f {
        var suspended := m.frames[f := a.(point := AtTask(s, g))];
        SpoiledBreaks(p, m, k, m.(frames := suspended[g := suspended[g].(caller := Some(f))],
                                  stacks := m.stacks[t := Below(m, t) + [g]]), g);
      }
    }
  }

  lemma AwaitOneBreaks<C, V>(p: Program<C, V>, m: Machine<C, V>, k: Ledger, t: ThreadId, f: Id, s: Slot)
    requires Sound(m, k) && f in m.frames && StackOf(m, t) != [] && Spoiled(m, k, f, s)
    ensures var g := m.frames[f].slots[s];
      AwaitTask(p, m, t, f, s) == Broken(if g !in m.frames then DanglingTask
                                         else if m.frames[g].point.Executing? && g != f then ResumedRunning else NoValue)
  {
    var g := m.frames[f].slots[s];
    if g in m.frames {
      assert FrameSound(m, k, g);
      if m.frames[g].point.AtTask? { assert FrameSound(m, k, m.frames[g].point.callee); }
    }
  }

  // ---- The invariant is kept ------------------------------------------------------------------------

  lemma CtrlSound<C, V>(m: Machine<C, V>, k: Ledger, f: Id, c: C)
    requires Sound(m, k) && f in m.frames
    ensures Sound(SetCtrl(m, f, c), k)
  {
    var n := SetCtrl(m, f, c);
    forall x | x in n.frames ensures FrameSound(n, k, x) {
      assert FrameSound(m, k, x);
      forall s | s in n.frames[x].slots ensures SlotSound(n, k, x, s) { assert SlotSound(m, k, x, s); }
    }
    forall t, i: nat | t in n.stacks && i < |n.stacks[t]| ensures EntrySound(n, k, t, i) {
      assert EntrySound(m, k, t, i);
    }
  }

  lemma NextIsNew<C, V>(m: Machine<C, V>, k: Ledger)
    requires Sound(m, k)
    ensures m.next !in m.frames && m.next !in k.resumed && m.next !in m.pending
  {
    assert m.next in m.frames ==> FrameSound(m, k, m.next);
  }

  lemma MakeSound<C, V>(m: Machine<C, V>, k: Ledger, f: Id, s: Slot, body: C)
    requires Sound(m, k) && f in m.frames && m.frames[f].point.Executing? && MakeTask(m, f, s, body).Ok?
    ensures Sound(MakeTask(m, f, s, body).value, k.(owner := k.owner[m.next := (f, s)]))
  {
    var n, j := MakeTask(m, f, s, body).value, k.(owner := k.owner[m.next := (f, s)]);
    assert FrameSound(m, k, f);
    NextIsNew(m, k);
    forall x | x in n.frames ensures FrameSound(n, j, x) {
      if x != m.next {
        assert FrameSound(m, k, x);
        if m.frames[x].point.AtTask? { assert FrameSound(m, k, m.frames[x].point.callee); }
        forall u | u in n.frames[x].slots ensures SlotSound(n, j, x, u) {
          if !(x == f && u == s) { assert SlotSound(m, k, x, u); }
        }
      }
    }
    forall t, i: nat | t in n.stacks && i < |n.stacks[t]| ensures EntrySound(n, j, t, i) {
      assert EntrySound(m, k, t, i);
      assert FrameSound(m, k, m.stacks[t][i]);
    }
  }

  lemma MoveSound<C, V>(m: Machine<C, V>, k: Ledger, f: Id, d: Slot, s: Slot)
    requires Sound(m, k) && f in m.frames && m.frames[f].point.Executing? && MoveTask(m, f, d, s).Ok?
    ensures var slots := m.frames[f].slots;
      Sound(MoveTask(m, f, d, s).value, if d != s && s in slots then k.(owner := k.owner[slots[s] := (f, d)]) else k)
  {
    var slots := m.frames[f].slots;
    if d != s && s in slots {
      var n, j := MoveTask(m, f, d, s).value, k.(owner := k.owner[slots[s] := (f, d)]);
      assert FrameSound(m, k, f) && SlotSound(m, k, f, s);
      forall x | x in n.frames ensures FrameSound(n, j, x) {
        assert FrameSound(m, k, x);
        forall u | u in n.frames[x].slots ensures SlotSound(n, j, x, u) {
          assert SlotSound(m, k, x, if x == f && u == d then s else u);
        }
      }
      forall t, i: nat | t in n.stacks && i < |n.stacks[t]| ensures EntrySound(n, j, t, i) {
        assert EntrySound(m, k, t, i);
      }
    }
  }

  lemma DropSound<C, V>(m: Machine<C, V>, k: Ledger, f: Id, scope: set<Slot>)
    requires Sound(m, k) && f in m.frames && m.frames[f].point.Executing? && DropSlots(m, f, scope).Ok?
    ensures Sound(DropSlots(m, f, scope).value, k)
  {
    var n := DropSlots(m, f, scope).value;
    var slots := m.frames[f].slots;
    var gone := set s | s in slots.Keys * scope :: slots[s];
    assert FrameSound(m, k, f);
    forall g | g in gone
      ensures g in m.frames && Resting(m.frames[g]) && g !in k.resumed
      ensures g in k.owner && k.owner[g].0 == f && k.owner[g].1 in scope
    {
      var s :| s in slots.Keys * scope && slots[s] == g;
      assert SlotSound(m, k, f, s) && FrameSound(m, k, g);
    }
    forall x | x in n.frames ensures FrameSound(n, k, x) {
      assert FrameSound(m, k, x);
      forall u | u in n.frames[x].slots ensures SlotSound(n, k, x, u) { assert SlotSound(m, k, x, u); }
    }
    forall t, i: nat | t in n.stacks && i < |n.stacks[t]| ensures EntrySound(n, k, t, i) {
      assert EntrySound(m, k, t, i);
    }
  }

  /** Frame `g`, from slot `s` of `f`, starts on top of thread `t`; the Task keeps the handle or not. */
  function Started<C, V>(m: Machine<C, V>, t: ThreadId, f: Id, s: Slot, g: Id, keep: bool): Machine<C, V>
    requires f in m.frames && g in m.frames
  {
    if keep then
      m.(frames := m.frames[g := m.frames[g].(point := Executing)], stacks := m.stacks[t := StackOf(m, t) + [g]])
    else Detached(m, t, f, s, g)
  }

  lemma StartSound<C, V>(m: Machine<C, V>, k: Ledger, t: ThreadId, f: Id, s: Slot, g: Id, keep: bool)
    requires Sound(m, k) && f in m.frames && m.frames[f].point.Executing?
    requires s in m.frames[f].slots && m.frames[f].slots[s] == g && g in m.frames && m.frames[g].point.Initial?
    ensures var j := if keep then k.(resumed := k.resumed + {g}) else k;
      Sound(Started(m, t, f, s, g, keep), Place(j, Started(m, t, f, s, g, keep), t))
  {
    var n := Started(m, t, f, s, g, keep);
    var j := Place(if keep then k.(resumed := k.resumed + {g}) else k, n, t);
    assert FrameSound(m, k, f) && SlotSound(m, k, f, s) && FrameSound(m, k, g);
    forall x | x in n.frames ensures FrameSound(n, j, x) {
      assert FrameSound(m, k, x);
      forall u | u in n.frames[x].slots ensures SlotSound(n, j, x, u) { assert SlotSound(m, k, x, u); }
    }
    forall u, i: nat | u in n.stacks && i < |n.stacks[u]| ensures EntrySound(n, j, u, i) {
      if !(u == t && i == |StackOf(m, t)|) { assert EntrySound(m, k, u, i); }
    }
  }

  lemma CallSound<C, V>(m: Machine<C, V>, k: Ledger, t: ThreadId, s: Slot, g: Id)
    requires Sound(m, k) && StackOf(m, t) != []
    requires var f := Top(m, t); f in m.frames && s in m.frames[f].slots && m.frames[f].slots[s] == g
    requires g in m.frames && m.frames[g].point.Initial? && g != Top(m, t)
    ensures var n := Called(m, t, Top(m, t), s, g); Sound(n, Place(k, n, t))
  {
    var f := Top(m, t);
    var n := Called(m, t, f, s, g);
    var j := Place(k, n, t);
    TopSound(m, k, t);
    assert SlotSound(m, k, f, s) && FrameSound(m, k, g);
    forall x | x in n.frames ensures FrameSound(n, j, x) {
      assert FrameSound(m, k, x);
      forall u | u in n.frames[x].slots ensures SlotSound(n, j, x, u) { assert SlotSound(m, k, x, u); }
    }
    forall u, i: nat | u in n.stacks && i < |n.stacks[u]| ensures EntrySound(n, j, u, i) {
      if !(u == t && i == |Below(m, t)|) { assert EntrySound(m, k, u, i); }
    }
  }

  lemma ParkSound<C, V>(m: Machine<C, V>, k: Ledger, t: ThreadId, q: V)
    requires Sound(m, k) && StackOf(m, t) != [] && Top(m, t) in m.frames
    ensures var n := AwaitCallback(m, t, Top(m, t), q); Sound(n, Place(k, n, t))
  {
    var f := Top(m, t);
    var n := AwaitCallback(m, t, f, q);
    var j := Place(k, n, t);
    TopSound(m, k, t);
    forall x | x in n.frames ensures FrameSound(n, j, x) {
      assert FrameSound(m, k, x);
      forall u | u in n.frames[x].slots ensures SlotSound(n, j, x, u) { assert SlotSound(m, k, x, u); }
    }
    BelowSound(m, k, n, t);
  }

  /** Popping a stack leaves the others, and what is below, where they were noted to be. */
  lemma BelowSound<C, V>(m: Machine<C, V>, k: Ledger, n: Machine<C, V>, t: ThreadId)
    requires Sound(m, k) && StackOf(m, t) != [] && n.stacks == m.stacks[t := Below(m, t)]
    requires forall x :: x in m.frames && x != Top(m, t) && m.frames[x].point.Executing? ==>
               x in n.frames && n.frames[x].point.Executing?
    ensures StacksSound(n, Place(k, n, t))
  {
    var j := Place(k, n, t);
    TopSound(m, k, t);
    forall u, i: nat | u in n.stacks && i < |n.stacks[u]| ensures EntrySound(n, j, u, i) {
      assert EntrySound(m, k, u, i);
      if StackOf(n, t) != [] { assert EntrySound(m, k, t, |StackOf(n, t)| - 1); }
    }
  }

  lemma EndSound<C, V>(m: Machine<C, V>, k: Ledger, t: ThreadId)
    requires Sound(m, k) && StackOf(m, t) != [] && Top(m, t) in m.frames && m.frames[Top(m, t)].caller.None?
    ensures Sound(Ended(m, t, Top(m, t)), Place(k, Ended(m, t, Top(m, t)), t))
  {
    var f, n := Top(m, t), Ended(m, t, Top(m, t));
    var j := Place(k, n, t);
    TopSound(m, k, t);
    forall x | x in n.frames ensures FrameSound(n, j, x) {
      assert FrameSound(m, k, x);
      forall u | u in n.frames[x].slots ensures SlotSound(n, j, x, u) { assert SlotSound(m, k, x, u); }
    }
    BelowSound(m, k, n, t);
  }

  lemma JoinSound<C, V>(p: Program<C, V>, m: Machine<C, V>, k: Ledger, t: ThreadId, c: Id, v: V)
    requires Sound(m, k) && StackOf(m, t) != [] && Top(m, t) in m.frames
    requires m.frames[Top(m, t)].slots == map[] && m.frames[Top(m, t)].caller == Some(c)
    ensures Awaits(m, c, Top(m, t)) && c != Top(m, t)
    ensures var n := Returned(p, m, t, Top(m, t), c, v); Sound(n, Place(k, n, t))
  {
    var f := Top(m, t);
    TopSound(m, k, t);
    var n := Returned(p, m, t, Top(m, t), c, v);
    var j := Place(k, n, t);
    assert FrameSound(m, k, c);
    forall x | x in n.frames ensures FrameSound(n, j, x) {
      assert FrameSound(m, k, x);
      forall u | u in n.frames[x].slots ensures SlotSound(n, j, x, u) { assert SlotSound(m, k, x, u); }
    }
    forall u, i: nat | u in n.stacks && i < |n.stacks[u]| ensures EntrySound(n, j, u, i) {
      if !(u == t && i == |Below(m, t)|) { assert EntrySound(m, k, u, i); }
    }
  }

  lemma CompleteSound<C, V>(p: Program<C, V>, m: Machine<C, V>, k: Ledger, t: ThreadId, f: Id, v: V)
    requires Sound(m, k)
    ensures !Complete(p, m, t, f, v).Broken? && !Complete(p, m, t, f, v).Misused?
    ensures Complete(p, m, t, f, v).Ok? ==> var n := Complete(p, m, t, f, v).value; Sound(n, Place(k, n, t))
  {
    if Complete(p, m, t, f, v).Ok? {
      var n := Complete(p, m, t, f, v).value;
      var j := Place(k, n, t);
      forall x | x in n.frames ensures FrameSound(n, j, x) {
        assert FrameSound(m, k, x);
        forall u | u in n.frames[x].slots ensures SlotSound(n, j, x, u) { assert SlotSound(m, k, x, u); }
      }
      forall u, i: nat | u in n.stacks && i < |n.stacks[u]| ensures EntrySound(n, j, u, i) {
        if u != t { assert EntrySound(m, k, u, i); }
      }
    }
  }

  lemma LaunchSound<C, V>(p: Program<C, V>, m: Machine<C, V>, k: Ledger, t: ThreadId, body: C)
    requires Sound(m, k)
    ensures !Launch(p, m, t, body).Broken? && !Launch(p, m, t, body).Misused?
    ensures Launch(p, m, t, body).Ok? ==> var n := Launch(p, m, t, body).value; Sound(n, Place(k, n, t))
  {
    if Launch(p, m, t, body).Ok? {
      var n := Launch(p, m, t, body).value;
      var j := Place(k, n, t);
      NextIsNew(m, k);
      forall x | x in n.frames ensures FrameSound(n, j, x) {
        if x != m.next {
          assert FrameSound(m, k, x);
          forall u | u in n.frames[x].slots ensures SlotSound(n, j, x, u) { assert SlotSound(m, k, x, u); }
        }
      }
      forall u, i: nat | u in n.stacks && i < |n.stacks[u]| ensures EntrySound(n, j, u, i) {
        if u != t { assert EntrySound(m, k, u, i); assert FrameSound(m, k, m.stacks[u][i]); }
      }
    }
  }
}

/** The runtime as the objects that change: promises, suspension points and Task handles are updated
    in place, one C++ operation after the other.  What the language leaves undefined is a precondition
    of the primitive that would run into it; the public operations meet all of them in every state. */
module Runtime {
  import opened Prelude
  import opened Direct
  import opened Frames
  import opened Chains
  import opened Transfers
  import opened Steps
  import opened Runs

  /** `n` is `m` after the destructors of the Tasks of `f` in `scope`. */
  ghost predicate Without<C, V>(m: Machine<C, V>, f: Id, scope: set<Slot>, n: Machine<C, V>)
    requires f in m.frames
  {
    && n.next == m.next && n.stacks == m.stacks && n.pending == m.pending
    && n.frames.Keys == m.frames.Keys - Dropped(m, f, scope)
    && (forall g :: g in n.frames && g != f ==> n.frames[g] == m.frames[g])
    && f in n.frames && n.frames[f] == m.frames[f].(slots := m.frames[f].slots - scope)
    && n.destroyed.Keys == m.destroyed.Keys + Dropped(m, f, scope)
    && (forall g :: g in n.destroyed ==>
          n.destroyed[g] == if g in Dropped(m, f, scope) then OwningTask else m.destroyed[g])
  }

  lemma AllDropped<C, V>(m: Machine<C, V>, f: Id, scope: set<Slot>, n: Machine<C, V>)
    requires f in m.frames && DropSlots(m, f, scope).Ok? && Without(m, f, m.frames[f].slots.Keys * scope, n)
    ensures DropSlots(m, f, scope) == Ok(n)
  {
    var o := DropSlots(m, f, scope).value;
    var slots := m.frames[f].slots.Keys * scope;
    assert Dropped(m, f, slots) == set s | s in slots :: m.frames[f].slots[s];
    assert m.frames[f].slots - slots == m.frames[f].slots - scope;
    assert o.frames == n.frames && o.destroyed == n.destroyed;
  }

  /** The next destructor finds its frame there and at rest. */
  lemma StillThere<C, V>(m: Machine<C, V>, f: Id, scope: set<Slot>, gone: set<Slot>, s: Slot, n: Machine<C, V>)
    requires f in m.frames && DropSlots(m, f, scope).Ok? && Without(m, f, gone, n)
    requires gone <= scope && s in m.frames[f].slots && s in scope && s !in gone
    ensures s in n.frames[f].slots && n.frames[f].slots[s] == m.frames[f].slots[s]
    ensures var g := m.frames[f].slots[s]; g in n.frames && Resting(n.frames[g]) && g != f
  {
    var slots := m.frames[f].slots;
    var kept := slots.Keys * scope;
    assert s in kept;
    forall u | u in slots && u in gone ensures slots[u] != slots[s] { assert u in kept; }
    assert slots[s] in set u | u in kept :: slots[u];
  }

  /** One more destructor. */
  lemma OneDropped<C, V>(m: Machine<C, V>, f: Id, gone: set<Slot>, s: Slot, n: Machine<C, V>, o: Machine<C, V>)
    requires f in m.frames && Without(m, f, gone, n) && s in m.frames[f].slots && s !in gone
    requires m.frames[f].slots[s] in n.frames && m.frames[f].slots[s] != f
    requires o.next == n.next && o.stacks == n.stacks && o.pending == n.pending
    requires var g := m.frames[f].slots[s];
      && o.frames == (n.frames - {g})[f := n.frames[f].(slots := n.frames[f].slots - {s})]
      && o.destroyed == n.destroyed[g := OwningTask]
    ensures Without(m, f, gone + {s}, o)
  {
    assert Dropped(m, f, gone + {s}) == Dropped(m, f, gone) + {m.frames[f].slots[s]};
    assert m.frames[f].slots - gone - {s} == m.frames[f].slots - (gone + {s});
  }

  class CoroutineRuntime<C(!new), V(!new)> {
    const program: Program<C, V>
    var frames: map<Id, Frame<C, V>>
    var next: Id
    var stacks: map<ThreadId, seq<Id>>
    var pending: set<Id>
    var destroyed: map<Id, Destroyer>
    ghost var history: History<C, V>

    function State(): Machine<C, V>
      reads this
    {
      Machine(frames, next, stacks, pending, destroyed)
    }

    ghost predicate Valid()
      reads this
    {
      Good(program, State(), history)
    }

    constructor (program: Program<C, V>)
      ensures this.program == program && State() == Empty() && history == NoHistory() && Valid()
    {
      this.program := program;
      frames, next, stacks, pending, destroyed := map[], 0, map[], {}, map[];
      history := NoHistory();
    }

    // ---- Primitives --------------------------------------------------------------------------------

    /** coroutine_handle::destroy */
    method Destroy(id: Id, destroyer: Destroyer)
      requires id in frames && Resting(frames[id])
      modifies `frames, `destroyed
      ensures frames == old(frames) - {id} && destroyed == old(destroyed)[id := destroyer]
    {
      frames := frames - {id};
      destroyed := destroyed[id := destroyer];
    }

    /** coroutine_handle::resume, up to the end of the await_resume it wakes up in */
    method ResumeHandle(id: Id)
      requires Resume(program, State(), id).Ok?
      modifies `frames
      ensures Ok(State()) == Resume(program, old(State()), id)
    {
      var a := frames[id];
      match a.point {
        case AtTask(_, callee) =>
          a := a.(ctrl := program.resume(a.ctrl, frames[callee].value.value));
        case AtCallback(_) =>
          a := a.(ctrl := program.resume(a.ctrl, a.result.value), result := None);
        case Initial =>
      }
      frames := frames[id := a.(point := Executing)];
    }

    /** ~Task */
    method DestroyTask(f: Id, s: Slot)
      requires f in frames && s in frames[f].slots
      requires var g := frames[f].slots[s]; g in frames && Resting(frames[g]) && g != f
      modifies `frames, `destroyed
      ensures var g := old(frames)[f].slots[s];
        && frames == (old(frames) - {g})[f := old(frames)[f].(slots := old(frames)[f].slots - {s})]
        && destroyed == old(destroyed)[g := OwningTask]
    {
      Destroy(frames[f].slots[s], OwningTask);
      frames := frames[f := frames[f].(slots := frames[f].slots - {s})];
    }

    /** ~Task for every Task of `f` in `scope`, one after the other, in any order */
    method DestroyTasks(f: Id, scope: set<Slot>)
      requires f in frames && DropSlots(State(), f, scope).Ok?
      modifies `frames, `destroyed
      ensures Ok(State()) == DropSlots(old(State()), f, scope)
    {
      ghost var before := State();
      var todo := frames[f].slots.Keys * scope;
      ghost var gone: set<Slot> := {};
      assert frames[f].slots - {} == frames[f].slots;
      while todo != {}
        invariant gone + todo == before.frames[f].slots.Keys * scope && gone !! todo
        invariant f in frames && Without(before, f, gone, State())
        decreases todo
      {
        ghost var midway := State();
        var s :| s in todo;
        StillThere(before, f, scope, gone, s, State());
        DestroyTask(f, s);
        todo := todo - {s};
        OneDropped(before, f, gone, s, midway, State());
        gone := gone + {s};
      }
      AllDropped(before, f, scope, State());
    }

    /** FinalAwaiter::await_suspend */
    method FinalAwait(t: ThreadId, f: Id)
      requires f in frames && StackOf(State(), t) != [] && FinalSuspend(program, State(), t, f).Ok?
      modifies `frames, `destroyed, `stacks
      ensures Ok(State()) == FinalSuspend(program, old(State()), t, f)
    {
      if frames[f].caller.Some? {
        var caller := frames[f].caller.value;
        stacks := stacks[t := Below(State(), t) + [caller]];
        ResumeHandle(caller);
      } else {
        Destroy(f, FinalAwaiter);
        stacks := stacks[t := Below(State(), t)];
      }
    }

    /** spawn: take() the handle and resume it; `goOn` is where the spawning frame goes on */
    method SpawnFrom(t: ThreadId, f: Id, s: Slot, goOn: C) returns (misuse: Option<Misuse>)
      requires f in frames
      requires var r := SpawnTask(program, SetCtrl(State(), f, goOn), t, f, s); r.Ok? || r.Misused?
      modifies `frames, `stacks
      ensures SpawnTask(program, SetCtrl(old(State()), f, goOn), t, f, s)
        == (if misuse.Some? then Misused(misuse.value) else Ok(State()))
      ensures misuse.Some? ==> State() == old(State())
    {
      var a := frames[f].(ctrl := goOn);
      misuse := None;
      if s !in a.slots {
        misuse := Some(TakeEmpty);
      } else {
        var g := a.slots[s];
        var known := frames[f := a];
        if g in known && known[g].point.Final? {
          misuse := Some(SpawnFinished);
        } else {
          frames := known[f := a.(slots := a.slots - {s})];
          stacks := stacks[t := StackOf(State(), t) + [g]];
          ResumeHandle(g);
        }
      }
    }

    /** co_await of a Task: await_ready, await_suspend and, when it is ready, await_resume */
    method AwaitOn(t: ThreadId, f: Id, s: Slot) returns (misuse: Option<Misuse>)
      requires f in frames && StackOf(State(), t) != []
      requires var r := AwaitTask(program, State(), t, f, s); r.Ok? || r.Misused?
      modifies `frames, `stacks
      ensures AwaitTask(program, old(State()), t, f, s)
        == (if misuse.Some? then Misused(misuse.value) else Ok(State()))
      ensures misuse.Some? ==> State() == old(State())
    {
      var a := frames[f];
      misuse := None;
      if s !in a.slots {
        misuse := Some(AwaitEmpty);
      } else {
        var g := a.slots[s];
        if frames[g].point.Final? {
          frames := frames[f := a.(ctrl := program.resume(a.ctrl, frames[g].value.value))];
        } else {
          frames := frames[f := a.(point := AtTask(s, g))];
          frames := frames[g := frames[g].(caller := Some(f))];
          stacks := stacks[t := Below(State(), t) + [g]];
          ResumeHandle(g);
        }
      }
    }

    /** A call of a coroutine: the frame is created suspended, its handle goes into the Task in `s`. */
    method MakeIn(f: Id, s: Slot, body: C, goOn: C) returns (misuse: Option<Misuse>)
      requires f in frames
      modifies `frames, `next
      ensures MakeTask(SetCtrl(old(State()), f, goOn), f, s, body)
        == (if misuse.Some? then Misused(misuse.value) else Ok(State()))
      ensures misuse.Some? ==> State() == old(State())
    {
      misuse := None;
      if s in frames[f].slots {
        misuse := Some(Overwrite);
      } else {
        frames := frames[f := frames[f].(ctrl := goOn)];
        var a := frames[f];
        frames := frames[next := Frame(body, map[], None, None, None, Initial)];
        frames := frames[f := a.(slots := a.slots[s := next])];
        next := next + 1;
      }
    }

    /** Task's move assignment, which leaves itself alone and does not destroy what the target held: `lost` is the
        frame whose handle is gone */
    method MoveIn(f: Id, d: Slot, s: Slot, goOn: C) returns (lost: Option<Id>)
      requires f in frames
      modifies `frames
      ensures State() == Assign(SetCtrl(old(State()), f, goOn), f, d, s)
      ensures var slots := old(frames)[f].slots; lost == if d != s && d in slots then Some(slots[d]) else None
    {
      frames := frames[f := frames[f].(ctrl := goOn)];
      lost := None;
      if d != s {
        var a := frames[f];
        if d in a.slots {
          lost := Some(a.slots[d]);
        }
        if s in a.slots {
          frames := frames[f := a.(slots := (a.slots - {s})[d := a.slots[s]])];
        } else {
          frames := frames[f := a.(slots := a.slots - {d})];
        }
      }
    }

    /** AsioCallbackAwaiter::await_suspend */
    method Park(t: ThreadId, f: Id, q: V)
      requires f in frames && StackOf(State(), t) != []
      modifies `frames, `stacks, `pending
      ensures State() == AwaitCallback(old(State()), t, f, q)
    {
      frames := frames[f := frames[f].(point := AtCallback(q), result := None)];
      stacks := stacks[t := Below(State(), t)];
      pending := pending + {f};
    }

    /** co_return: the value is stored, the locals are destroyed, and the frame suspends finally. */
    method ReturnFrom(t: ThreadId, f: Id, v: V)
      requires f in frames && StackOf(State(), t) != [] && ReturnValue(program, State(), t, f, v).Ok?
      modifies `frames, `destroyed, `stacks
      ensures Ok(State()) == ReturnValue(program, old(State()), t, f, v)
    {
      DestroyTasks(f, frames[f].slots.Keys);
      frames := frames[f := frames[f].(value := Some(v), point := Final)];
      FinalAwait(t, f);
    }

    /** One action of frame `f`, as its body says. */
    method Act(t: ThreadId, f: Id) returns (misuse: Option<Misuse>)
      requires StackOf(State(), t) != [] && f == Top(State(), t) && f in frames
      requires Perform(program, State(), t).Ok? || Perform(program, State(), t).Misused?
      modifies `frames, `next, `stacks, `pending, `destroyed
      ensures Perform(program, old(State()), t) == (if misuse.Some? then Misused(misuse.value) else Ok(State()))
      ensures misuse.Some? ==> State() == old(State())
    {
      misuse := None;
      match program.code(frames[f].ctrl) {
        case Make(s, body, goOn) => misuse := MakeIn(f, s, body, goOn);
        case Move(d, s, goOn) =>
          AssignIsMove(SetCtrl(State(), f, goOn), f, d, s);
          if d != s && d in frames[f].slots {
            misuse := Some(Overwrite);
          } else {
            var lost := MoveIn(f, d, s, goOn);
          }
        case Drop(s, goOn) =>
          frames := frames[f := frames[f].(ctrl := goOn)];
          DestroyTasks(f, {s});
        case Spawn(s, goOn) => misuse := SpawnFrom(t, f, s, goOn);
        case Await(s) => misuse := AwaitOn(t, f, s);
        case Callback(q) => Park(t, f, q);
        case Return(v) => ReturnFrom(t, f, v);
      }
    }

    // ---- What happens ------------------------------------------------------------------------------

    /** The frame on top of thread `t` performs its next action, or is found to misuse the library. */
    method RunThread(t: ThreadId) returns (misuse: Option<Misuse>)
      requires Valid() && StackOf(State(), t) != []
      modifies this
      ensures Perform(program, old(State()), t) == (if misuse.Some? then Misused(misuse.value) else Ok(State()))
      ensures misuse.Some? ==> State() == old(State())
      ensures Valid()
    {
      RunGood(program, State(), history, t);
      TopRuns(State(), history, t);
      ghost var after := if Perform(program, State(), t).Ok? then RecordRun(program, State(), history, t) else history;
      misuse := Act(t, Top(State(), t));
      history := after;
    }

    /** The completion handler of frame `f`'s operation runs in the event loop of thread `t`. */
    method CompleteOperation(t: ThreadId, f: Id, v: V)
      requires Valid() && StackOf(State(), t) == [] && f in pending
      modifies this
      ensures Ok(State()) == Complete(program, old(State()), t, f, v)
      ensures Valid()
    {
      AnswerGood(program, State(), history, t, f, v);
      ghost var after := Record(program, State(), history, Finish(t, f, v));
      frames := frames[f := frames[f].(result := Some(v))];
      pending := pending - {f};
      stacks := stacks[t := [f]];
      ResumeHandle(f);
      history := after;
    }

    /** spawn(f(...)) outside every coroutine */
    method LaunchRoot(t: ThreadId, body: C) returns (root: Id)
      requires Valid() && StackOf(State(), t) == []
      modifies this
      ensures root == old(next) && Ok(State()) == Launch(program, old(State()), t, body)
      ensures Valid()
    {
      LaunchGood(program, State(), history, t, body);
      ghost var after := Record(program, State(), history, Begin(t, body));
      root := next;
      frames := frames[root := Frame(body, map[], None, None, None, Initial)];
      next := next + 1;
      stacks := stacks[t := [root]];
      ResumeHandle(root);
      history := after;
    }
  }
}

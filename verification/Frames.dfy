/** The machine the coroutine runtime really is: frames with caller links, promises and suspension
    points, Task handles in the local slots of other frames, one stack of nested resumes per thread,
    and the external operations that hold a frame's handle.

    Every use of a handle that the language leaves undefined is an outcome of its own, `Broken`;
    uses the library asks its callers to avoid are `Misused`. */
module Frames {
  import opened Prelude
  import opened Direct

  type Id = nat
  type ThreadId = nat

  datatype Point<V> =
    | Initial                            // suspended at initial_suspend, never resumed
    | Executing                          // resumed and not suspended again
    | AtTask(slot: Slot, callee: Id)     // suspended in co_await of a Task
    | AtCallback(request: V)             // suspended in co_await of an AsioCallbackAwaiter
    | Final                              // suspended at final_suspend

  /** `caller` and `value` are the promise, `result` belongs to the callback awaiter,
      `slots` are the Task locals that are not empty. */
  datatype Frame<C, V> = Frame(
    ctrl: C, slots: map<Slot, Id>, caller: Option<Id>, value: Option<V>, result: Option<V>, point: Point<V>)

  datatype Destroyer = OwningTask | FinalAwaiter

  datatype Machine<C, V> = Machine(
    frames: map<Id, Frame<C, V>>,
    next: Id,
    stacks: map<ThreadId, seq<Id>>,
    pending: set<Id>,
    destroyed: map<Id, Destroyer>)

  datatype Breakage =
    | DestroyedTwice      // destroy() on a frame that is gone
    | DestroyedMidway     // destroy() on a frame that runs, waits, or still owns frames
    | ResumedDead         // a handle to a frame that is gone
    | ResumedRunning
    | ResumedFinished
    | DanglingTask        // a Task whose frame is gone
    | DanglingAwaiter     // a completion whose awaiter is gone
    | NoValue             // await_resume without a value

  datatype Attempt<+T> =
    | Ok(value: T)
    | Misused(misuse: Misuse)
    | Broken(breakage: Breakage)
    | Disabled
  {
    predicate IsFailure() { !Ok? }

    function PropagateFailure<U>(): (r: Attempt<U>)
      requires IsFailure()
    {
      match this
      case Misused(m) => Misused(m)
      case Broken(b) => Broken(b)
      case Disabled => Disabled
    }

    function Extract(): T
      requires Ok?
    {
      value
    }
  }

  function Empty<C, V>(): Machine<C, V> { Machine(map[], 0, map[], {}, map[]) }

  function StackOf<C, V>(m: Machine<C, V>, t: ThreadId): seq<Id> {
    if t in m.stacks then m.stacks[t] else []
  }

  /** The frame that thread `t` is executing. */
  function Top<C, V>(m: Machine<C, V>, t: ThreadId): Id
    requires StackOf(m, t) != []
  {
    StackOf(m, t)[|StackOf(m, t)| - 1]
  }

  function Below<C, V>(m: Machine<C, V>, t: ThreadId): seq<Id>
    requires StackOf(m, t) != []
  {
    StackOf(m, t)[..|StackOf(m, t)| - 1]
  }

  predicate Resting<C, V>(a: Frame<C, V>) {
    (a.point.Initial? || a.point.Final?) && a.slots == map[]
  }

  /** coroutine_handle::resume, with the await_resume of the point it wakes up at. */
  function Resume<C, V>(p: Program<C, V>, m: Machine<C, V>, id: Id): Attempt<Machine<C, V>> {
    if id !in m.frames then Broken(ResumedDead) else
    var a := m.frames[id];
    match a.point
    case Initial => Ok(m.(frames := m.frames[id := a.(point := Executing)]))
    case AtTask(_, callee) =>
      if callee !in m.frames then Broken(DanglingTask)
      else if m.frames[callee].value.None? then Broken(NoValue)
      else Ok(m.(frames := m.frames[id :=
        a.(point := Executing, ctrl := p.resume(a.ctrl, m.frames[callee].value.value))]))
    case AtCallback(_) =>
      if a.result.None? then Broken(NoValue)
      else Ok(m.(frames := m.frames[id :=
        a.(point := Executing, ctrl := p.resume(a.ctrl, a.result.value), result := None)]))
    case Executing => Broken(ResumedRunning)
    case Final => Broken(ResumedFinished)
  }

  /** Task destructors for the slots in `scope` of frame `f`. */
  function DropSlots<C, V>(m: Machine<C, V>, f: Id, scope: set<Slot>): Attempt<Machine<C, V>>
    requires f in m.frames
  {
    var a := m.frames[f];
    var slots := a.slots.Keys * scope;
    var gone := set s | s in slots :: a.slots[s];
    if (exists s, u :: s in slots && u in slots && s != u && a.slots[s] == a.slots[u])
       || !(gone <= m.frames.Keys) then Broken(DestroyedTwice)
    else if exists g :: g in gone && !Resting(m.frames[g]) then Broken(DestroyedMidway)
    else if f in gone then Broken(DestroyedMidway)
    else Ok(m.(
      frames := (m.frames - gone)[f := a.(slots := a.slots - scope)],
      destroyed := map g | g in m.destroyed.Keys + gone :: if g in gone then OwningTask else m.destroyed[g]))
  }

  function SetCtrl<C, V>(m: Machine<C, V>, f: Id, c: C): Machine<C, V>
    requires f in m.frames
  {
    m.(frames := m.frames[f := m.frames[f].(ctrl := c)])
  }

  function MakeTask<C, V>(m: Machine<C, V>, f: Id, s: Slot, body: C): Attempt<Machine<C, V>>
    requires f in m.frames
  {
    var a := m.frames[f];
    if s in a.slots then Misused(Overwrite)
    else Ok(m.(
      frames := m.frames[m.next := Frame(body, map[], None, None, None, Initial)][f := a.(slots := a.slots[s := m.next])],
      next := m.next + 1))
  }

  function MoveTask<C, V>(m: Machine<C, V>, f: Id, d: Slot, s: Slot): Attempt<Machine<C, V>>
    requires f in m.frames
  {
    var a := m.frames[f];
    if d == s then Ok(m)
    else if d in a.slots then Misused(Overwrite)
    else if s !in a.slots then Ok(m)
    else Ok(m.(frames := m.frames[f := a.(slots := (a.slots - {s})[d := a.slots[s]])]))
  }

  /** Task's move assignment as it is: the target takes the source's handle, or none, and what it held is not destroyed. */
  function Assign<C, V>(m: Machine<C, V>, f: Id, d: Slot, s: Slot): Machine<C, V>
    requires f in m.frames
  {
    var a := m.frames[f];
    if d == s then m
    else m.(frames := m.frames[f := a.(slots := if s in a.slots then (a.slots - {s})[d := a.slots[s]] else a.slots - {d})])
  }

  /** Where the target is empty, that is the move the discipline allows. */
  lemma AssignIsMove<C, V>(m: Machine<C, V>, f: Id, d: Slot, s: Slot)
    requires f in m.frames
    ensures MoveTask(m, f, d, s) == if d != s && d in m.frames[f].slots then Misused(Overwrite) else Ok(Assign(m, f, d, s))
  {
    var a := m.frames[f];
    if d != s && d !in a.slots && s !in a.slots {
      assert a.slots - {d} == a.slots;
      assert m.frames[f := a] == m.frames;
    }
  }

  /** spawn: take() the handle out of the Task, then resume() it on top of the spawning frame. */
  function SpawnTask<C, V>(p: Program<C, V>, m: Machine<C, V>, t: ThreadId, f: Id, s: Slot): Attempt<Machine<C, V>>
    requires f in m.frames
  {
    var a := m.frames[f];
    if s !in a.slots then Misused(TakeEmpty) else
    var g := a.slots[s];
    if g in m.frames && m.frames[g].point.Final? then Misused(SpawnFinished) else
    Resume(p, m.(frames := m.frames[f := a.(slots := a.slots - {s})],
                 stacks := m.stacks[t := StackOf(m, t) + [g]]), g)
  }

  /** co_await of the Task in slot `s`: await_ready, then await_suspend and the transfer it asks for. */
  function AwaitTask<C, V>(p: Program<C, V>, m: Machine<C, V>, t: ThreadId, f: Id, s: Slot): Attempt<Machine<C, V>>
    requires f in m.frames && StackOf(m, t) != []
  {
    var a := m.frames[f];
    if s !in a.slots then Misused(AwaitEmpty) else
    var g := a.slots[s];
    if g !in m.frames then Broken(DanglingTask)
    else if m.frames[g].point.Final? then
      if m.frames[g].value.None? then Broken(NoValue)
      else Ok(SetCtrl(m, f, p.resume(a.ctrl, m.frames[g].value.value)))
    else
      var suspended := m.frames[f := a.(point := AtTask(s, g))];
      Resume(p, m.(frames := suspended[g := suspended[g].(caller := Some(f))],
                   stacks := m.stacks[t := Below(m, t) + [g]]), g)
  }

  /** co_await of a callback awaiter: the frame suspends and resume() returns to whoever called it. */
  function AwaitCallback<C, V>(m: Machine<C, V>, t: ThreadId, f: Id, q: V): Machine<C, V>
    requires f in m.frames && StackOf(m, t) != []
  {
    m.(frames := m.frames[f := m.frames[f].(point := AtCallback(q), result := None)],
       stacks := m.stacks[t := Below(m, t)],
       pending := m.pending + {f})
  }

  /** FinalAwaiter::await_suspend of a frame that has stored its value. */
  function FinalSuspend<C, V>(p: Program<C, V>, m: Machine<C, V>, t: ThreadId, f: Id): Attempt<Machine<C, V>>
    requires f in m.frames && StackOf(m, t) != []
  {
    match m.frames[f].caller
    case Some(c) => Resume(p, m.(stacks := m.stacks[t := Below(m, t) + [c]]), c)
    case None =>
      if !Resting(m.frames[f]) then Broken(DestroyedMidway)
      else Ok(m.(frames := m.frames - {f}, destroyed := m.destroyed[f := FinalAwaiter],
                 stacks := m.stacks[t := Below(m, t)]))
  }

  // ---- What control transfers come to -----------------------------------------------------------

  /** Frame `f`, on top of thread `t`, has awaited frame `g` in slot `s`: `g` runs in its place. */
  function Called<C, V>(m: Machine<C, V>, t: ThreadId, f: Id, s: Slot, g: Id): Machine<C, V>
    requires StackOf(m, t) != [] && f in m.frames && g in m.frames
  {
    m.(frames := m.frames[f := m.frames[f].(point := AtTask(s, g))]
                         [g := m.frames[g].(caller := Some(f), point := Executing)],
       stacks := m.stacks[t := Below(m, t) + [g]])
  }

  /** Frame `g` was taken out of slot `s` of `f` and runs on top of thread `t`. */
  function Detached<C, V>(m: Machine<C, V>, t: ThreadId, f: Id, s: Slot, g: Id): Machine<C, V>
    requires f in m.frames && g in m.frames
  {
    m.(frames := m.frames[f := m.frames[f].(slots := m.frames[f].slots - {s})]
                         [g := m.frames[g].(point := Executing)],
       stacks := m.stacks[t := StackOf(m, t) + [g]])
  }

  /** Frame `f`, on top of thread `t`, has returned `v` to its caller `c`, which goes on in its place. */
  function Returned<C, V>(p: Program<C, V>, m: Machine<C, V>, t: ThreadId, f: Id, c: Id, v: V): Machine<C, V>
    requires StackOf(m, t) != [] && f in m.frames && c in m.frames
  {
    m.(frames := m.frames[f := m.frames[f].(value := Some(v), point := Final)]
                         [c := m.frames[c].(point := Executing, ctrl := p.resume(m.frames[c].ctrl, v))],
       stacks := m.stacks[t := Below(m, t) + [c]])
  }

  /** Frame `f`, on top of thread `t`, had no caller and was destroyed by its final awaiter. */
  function Ended<C, V>(m: Machine<C, V>, t: ThreadId, f: Id): Machine<C, V>
    requires StackOf(m, t) != []
  {
    m.(frames := m.frames - {f}, destroyed := m.destroyed[f := FinalAwaiter], stacks := m.stacks[t := Below(m, t)])
  }

  function ReturnValue<C, V>(p: Program<C, V>, m: Machine<C, V>, t: ThreadId, f: Id, v: V): Attempt<Machine<C, V>>
    requires f in m.frames && StackOf(m, t) != []
  {
    var n :- DropSlots(m, f, m.frames[f].slots.Keys);
    FinalSuspend(p, n.(frames := n.frames[f := n.frames[f].(value := Some(v), point := Final)]), t, f)
  }

  /** One action of the frame on top of thread `t`. */
  function Perform<C, V>(p: Program<C, V>, m: Machine<C, V>, t: ThreadId): Attempt<Machine<C, V>> {
    if StackOf(m, t) == [] then Disabled else
    var f := Top(m, t);
    if f !in m.frames then Broken(ResumedDead) else
    match p.code(m.frames[f].ctrl)
    case Make(s, body, next) => var n :- MakeTask(SetCtrl(m, f, next), f, s, body); Ok(n)
    case Move(d, s, next) => var n :- MoveTask(SetCtrl(m, f, next), f, d, s); Ok(n)
    case Drop(s, next) => var n :- DropSlots(SetCtrl(m, f, next), f, {s}); Ok(n)
    case Spawn(s, next) => SpawnTask(p, SetCtrl(m, f, next), t, f, s)
    case Await(s) => AwaitTask(p, m, t, f, s)
    case Callback(q) => Ok(AwaitCallback(m, t, f, q))
    case Return(v) => ReturnValue(p, m, t, f, v)
  }

  /** The completion handler of the operation frame `f` waits for: it stores the answer in the
      awaiter and resumes the frame, on a thread that is back in its event loop. */
  function Complete<C, V>(p: Program<C, V>, m: Machine<C, V>, t: ThreadId, f: Id, v: V): Attempt<Machine<C, V>> {
    if StackOf(m, t) != [] || f !in m.pending then Disabled
    else if f !in m.frames || !m.frames[f].point.AtCallback? then Broken(DanglingAwaiter)
    else Resume(p, m.(
      frames := m.frames[f := m.frames[f].(result := Some(v))],
      pending := m.pending - {f},
      stacks := m.stacks[t := [f]]), f)
  }

  /** spawn(f(...)) from outside every coroutine, as the server's constructor does. */
  function Launch<C, V>(p: Program<C, V>, m: Machine<C, V>, t: ThreadId, body: C): Attempt<Machine<C, V>> {
    if StackOf(m, t) != [] then Disabled
    else Resume(p, m.(
      frames := m.frames[m.next := Frame(body, map[], None, None, None, Initial)],
      next := m.next + 1,
      stacks := m.stacks[t := [m.next]]), m.next)
  }

  /** What the scheduler, the operating system and the main program may do. */
  datatype Stimulus<C, V> =
    | Run(thread: ThreadId)
    | Finish(thread: ThreadId, frame: Id, answer: V)
    | Begin(thread: ThreadId, body: C)

  function Advance<C, V>(p: Program<C, V>, m: Machine<C, V>, e: Stimulus<C, V>): Attempt<Machine<C, V>> {
    match e
    case Run(t) => Perform(p, m, t)
    case Finish(t, f, v) => Complete(p, m, t, f, v)
    case Begin(t, body) => Launch(p, m, t, body)
  }
}

/** Programs that also call Task::resume, which runs a Task's frame where it stands and leaves the handle in
    the Task. No such call is part of the discipline the other modules prove safe; here is exactly when a run
    that makes such calls breaks. */
module Resuming {
  import opened Prelude
  import opened Direct
  import opened Frames

  /** `resumes` says where a body calls resume() on the Task in a slot, and where it goes on; elsewhere it does
      what the program says. */
  datatype Body<!C, !V> = Body(program: Program<C, V>, resumes: C -> Option<(Slot, C)>)

  /** Task::resume: like spawn, but the Task keeps the handle. An empty Task has no frame to resume. */
  function ResumeTask<C, V>(p: Program<C, V>, m: Machine<C, V>, t: ThreadId, f: Id, s: Slot): Attempt<Machine<C, V>>
    requires f in m.frames
  {
    if s !in m.frames[f].slots then Broken(ResumedDead) else
    var g := m.frames[f].slots[s];
    Resume(p, m.(stacks := m.stacks[t := StackOf(m, t) + [g]]), g)
  }

  function Act<C, V>(b: Body<C, V>, m: Machine<C, V>, t: ThreadId): Attempt<Machine<C, V>> {
    if StackOf(m, t) == [] then Disabled else
    var f := Top(m, t);
    if f !in m.frames then Broken(ResumedDead) else
    match b.resumes(m.frames[f].ctrl)
    case Some(call) => ResumeTask(b.program, SetCtrl(m, f, call.1), t, f, call.0)
    case None => Perform(b.program, m, t)
  }

  /** Bookkeeping: the frames that were started by Task::resume, the slot that was last given each frame's
      handle, and the stack position at which each frame last executed. */
  datatype Ledger = Ledger(resumed: set<Id>, owner: map<Id, (Id, Slot)>, place: map<Id, (ThreadId, nat)>)

  datatype Noted<C, V> = Noted(machine: Machine<C, V>, ledger: Ledger)

  /** Notes which frame is on top of the thread now. */
  function Place<C, V>(k: Ledger, n: Machine<C, V>, t: ThreadId): Ledger {
    if StackOf(n, t) == [] then k else k.(place := k.place[Top(n, t) := (t, |StackOf(n, t)| - 1)])
  }

  /** Notes what the action of frame `f` does to handles. */
  function Note<C, V>(b: Body<C, V>, m: Machine<C, V>, k: Ledger, f: Id): Ledger
    requires f in m.frames
  {
    var a := m.frames[f];
    match b.resumes(a.ctrl)
    case Some(call) => if call.0 in a.slots then k.(resumed := k.resumed + {a.slots[call.0]}) else k
    case None =>
      match b.program.code(a.ctrl)
      case Make(s, _, _) => k.(owner := k.owner[m.next := (f, s)])
      case Move(d, s, _) => if d != s && s in a.slots then k.(owner := k.owner[a.slots[s] := (f, d)]) else k
      case _ => k
  }

  function Advance<C, V>(b: Body<C, V>, x: Noted<C, V>, e: Stimulus<C, V>): Attempt<Noted<C, V>> {
    var (m, k) := (x.machine, x.ledger);
    match e
    case Run(t) =>
      var n :- Act(b, m, t);
      Ok(Noted(n, Place(if StackOf(m, t) != [] && Top(m, t) in m.frames then Note(b, m, k, Top(m, t)) else k, n, t)))
    case _ =>
      var n :- Frames.Advance(b.program, m, e);
      Ok(Noted(n, Place(k, n, e.thread)))
  }

  function Play<C, V>(b: Body<C, V>, es: seq<Stimulus<C, V>>): Attempt<Noted<C, V>> {
    if es == [] then Ok(Noted(Empty(), Ledger({}, map[], map[])))
    else
      var x :- Play(b, es[..|es| - 1]);
      Advance(b, x, es[|es| - 1])
  }

  // ---- The guard ------------------------------------------------------------------------------------

  /** The Task in slot `s` holds a frame that Task::resume started. */
  predicate Spoiled<C, V>(m: Machine<C, V>, k: Ledger, f: Id, s: Slot)
    requires f in m.frames
  {
    s in m.frames[f].slots && m.frames[f].slots[s] in k.resumed
  }

  predicate IsFinished<C, V>(m: Machine<C, V>, g: Id) { g in m.frames && m.frames[g].point.Final? }

  /** What must not come next: the running frame resumes in place an empty Task, a finished one, or one it resumed
      before; or it awaits, spawns or destroys a Task that was resumed in place. A return destroys all its Tasks. */
  predicate Trips<C, V>(b: Body<C, V>, x: Noted<C, V>, e: Stimulus<C, V>) {
    var (m, k) := (x.machine, x.ledger);
    e.Run? && StackOf(m, e.thread) != [] && Top(m, e.thread) in m.frames &&
    var f := Top(m, e.thread);
    var a := m.frames[f];
    match b.resumes(a.ctrl)
    case Some(call) => call.0 !in a.slots || Spoiled(m, k, f, call.0) || IsFinished(m, a.slots[call.0])
    case None =>
      match b.program.code(a.ctrl)
      case Drop(s, _) => Spoiled(m, k, f, s)
      case Await(s) => Spoiled(m, k, f, s)
      case Spawn(s, _) => Spoiled(m, k, f, s)
      case Return(_) => exists s :: s in a.slots && Spoiled(m, k, f, s)
      case _ => false
  }

  // ---- The invariant --------------------------------------------------------------------------------

  /** `c` waits for `f`. */
  ghost predicate Awaits<C, V>(m: Machine<C, V>, c: Id, f: Id) {
    c in m.frames && m.frames[c].point.AtTask? && m.frames[c].point.callee == f
  }

  ghost predicate Going<C, V>(m: Machine<C, V>, f: Id) {
    f in m.frames && !m.frames[f].point.Initial? && !m.frames[f].point.Final?
  }

  ghost predicate SlotSound<C, V>(m: Machine<C, V>, k: Ledger, f: Id, s: Slot)
    requires f in m.frames && s in m.frames[f].slots
  {
    var g := m.frames[f].slots[s];
    && g < m.next && g in k.owner && k.owner[g] == (f, s)
    && (g in k.resumed || (g in m.frames && (Resting(m.frames[g]) || m.frames[f].point == AtTask(s, g))))
  }

  ghost predicate FrameSound<C, V>(m: Machine<C, V>, k: Ledger, f: Id)
    requires f in m.frames
  {
    var a := m.frames[f];
    && f < m.next && a.result.None? && (a.value.Some? <==> a.point.Final?)
    && (a.point.Initial? ==> a.caller.None?)
    && (a.point.Initial? || a.point.Final? ==> a.slots == map[])
    && (f in k.resumed ==> a.caller.None? && Going(m, f))
    && (a.caller.Some? && Going(m, f) ==> Awaits(m, a.caller.value, f))
    && (a.point.AtTask? ==>
          && a.point.slot in a.slots && a.slots[a.point.slot] == a.point.callee
          && Going(m, a.point.callee) && m.frames[a.point.callee].caller == Some(f))
    && (forall s {:trigger SlotSound(m, k, f, s)} :: s in a.slots ==> SlotSound(m, k, f, s))
  }

  ghost predicate EntrySound<C, V>(m: Machine<C, V>, k: Ledger, t: ThreadId, i: nat)
    requires t in m.stacks && i < |m.stacks[t]|
  {
    var f := m.stacks[t][i];
    && f in m.frames && m.frames[f].point.Executing?
    && f in k.place && k.place[f] == (t, i)
  }

  ghost predicate FramesSound<C, V>(m: Machine<C, V>, k: Ledger) {
    forall f {:trigger FrameSound(m, k, f)} :: f in m.frames ==> FrameSound(m, k, f)
  }

  ghost predicate StacksSound<C, V>(m: Machine<C, V>, k: Ledger) {
    forall t, i: nat {:trigger EntrySound(m, k, t, i)} :: t in m.stacks && i < |m.stacks[t]| ==> EntrySound(m, k, t, i)
  }

  ghost predicate PendingSound<C, V>(m: Machine<C, V>) {
    forall f :: f in m.pending ==> f in m.frames && m.frames[f].point.AtCallback?
  }

  /** A frame that was resumed in place goes on, or its final awaiter has destroyed it. */
  ghost predicate ResumedSound<C, V>(m: Machine<C, V>, k: Ledger) {
    forall g :: g in k.resumed ==> g < m.next && (g in m.frames || (g in m.destroyed && m.destroyed[g] == FinalAwaiter))
  }

  ghost predicate Sound<C, V>(m: Machine<C, V>, k: Ledger) {
    FramesSound(m, k) && StacksSound(m, k) && PendingSound(m) && ResumedSound(m, k)
  }
}

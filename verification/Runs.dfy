/** Runs of the machine: safety, and agreement with direct-style evaluation. */
module Runs {
  import opened Prelude
  import opened Direct
  import opened Frames
  import opened Chains
  import opened Transfers
  import opened Threads
  import opened Steps

  /** Root `r` has done so far exactly what the direct-style thread of its body does. */
  ghost predicate Tracks<C(!new), V(!new)>(p: Program<C, V>, m: Machine<C, V>, h: History<C, V>, r: Id)
    requires Inv(m, h) && r in h.roots
  {
    var root := h.roots[r];
    if root.chain == [] then
      root.result.Some? && exists th: Thread<C, V> ::
        Arrives(p, root.body, root.io, root.log, th) && Tick(p, th) == End(root.result.value)
    else
      && Arrives(p, root.body, root.io, root.log, ThreadOf(m, h, r))
      && (root.place.Parked? ==> p.code(ThreadOf(m, h, r).ctrl) == Callback(root.place.request))
  }

  ghost predicate Good<C(!new), V(!new)>(p: Program<C, V>, m: Machine<C, V>, h: History<C, V>) {
    Inv(m, h) && forall r {:trigger Tracks(p, m, h, r)} :: r in h.roots ==> Tracks(p, m, h, r)
  }

  ghost predicate SameMeaning<C, V>(m: Machine<C, V>, h: History<C, V>, n: Machine<C, V>, k: History<C, V>, x: Id)
    requires Inv(m, h) && Inv(n, k) && x in h.roots
  {
    && x in k.roots && k.roots[x] == h.roots[x]
    && (h.roots[x].chain != [] ==> ThreadOf(n, k, x) == ThreadOf(m, h, x))
  }

  ghost predicate OthersSame<C, V>(m: Machine<C, V>, h: History<C, V>, n: Machine<C, V>, k: History<C, V>, r: Id)
    requires Inv(m, h) && Inv(n, k)
  {
    forall x {:trigger SameMeaning(m, h, n, k, x)} :: x in h.roots && x != r ==> SameMeaning(m, h, n, k, x)
  }

  lemma Others<C, V>(m: Machine<C, V>, h: History<C, V>, n: Machine<C, V>, k: History<C, V>, touched: set<Id>, f: Id, r: Id)
    requires Inv(m, h) && Inv(n, k) && Touches(m, h, n, touched, f, r)
    requires f in m.frames && f in h.home && h.home[f] == r
    requires forall x :: x in h.roots && x != r ==> x in k.roots && k.roots[x] == h.roots[x]
    ensures OthersSame(m, h, n, k, r)
  {
    forall x | x in h.roots && x != r ensures SameMeaning(m, h, n, k, x) {
      if h.roots[x].chain != [] { OtherThread(m, h, n, k, touched, f, r, x); }
    }
  }

  lemma OthersTwice<C, V>(
    m: Machine<C, V>, h: History<C, V>, n: Machine<C, V>, k: History<C, V>, o: Machine<C, V>, l: History<C, V>, r: Id)
    requires Inv(m, h) && Inv(n, k) && Inv(o, l)
    requires OthersSame(m, h, n, k, r) && OthersSame(n, k, o, l, r)
    ensures OthersSame(m, h, o, l, r)
  {
    forall x | x in h.roots && x != r ensures SameMeaning(m, h, o, l, x) {
      assert SameMeaning(m, h, n, k, x) && SameMeaning(n, k, o, l, x);
    }
  }

  lemma StaysGood<C(!new), V(!new)>(
    p: Program<C, V>, m: Machine<C, V>, h: History<C, V>, n: Machine<C, V>, k: History<C, V>, r: Id)
    requires Good(p, m, h) && Inv(n, k) && OthersSame(m, h, n, k, r)
    requires forall x :: x in k.roots && (x == r || x !in h.roots) ==> Tracks(p, n, k, x)
    ensures Good(p, n, k)
  {
    forall x | x in k.roots ensures Tracks(p, n, k, x) {
      if x != r && x in h.roots { assert SameMeaning(m, h, n, k, x) && Tracks(p, m, h, x); }
    }
  }

  // ---- What the bookkeeping records for each stimulus --------------------------------------------

  ghost function RecordRun<C, V>(p: Program<C, V>, m: Machine<C, V>, h: History<C, V>, t: ThreadId): History<C, V>
    requires Inv(m, h) && Perform(p, m, t).Ok?
  {
    TopRuns(m, h, t);
    var f := Top(m, t);
    var r := h.home[f];
    RunningOwns(m, h, f);
    match p.code(m.frames[f].ctrl)
    case Make(s, _, next) => RecordMake(m, h, f, s)
    case Move(d, s, next) => RecordMove(m, h, f, d, s)
    case Drop(s, next) => h
    case Spawn(s, next) => RecordSpawn(m, h, t, f, s)
    case Await(s) =>
      var g := m.frames[f].slots[s];
      if m.frames[g].point.Final? then Note(h, r, [Joined(m.frames[g].value.value)]) else RecordCall(h, r, g)
    case Callback(q) => RecordPark(h, r, q)
    case Return(v) => if m.frames[f].caller.Some? then RecordJoin(h, r, v) else RecordFinish(h, r, v)
  }

  ghost function Record<C, V>(p: Program<C, V>, m: Machine<C, V>, h: History<C, V>, e: Stimulus<C, V>): History<C, V>
    requires Inv(m, h) && Advance(p, m, e).Ok?
  {
    match e
    case Run(t) => RecordRun(p, m, h, t)
    case Finish(t, f, v) => assert FrameOk(m, h, f); RecordAnswer(h, h.home[f], t, m.frames[f].point.request, v)
    case Begin(t, body) => NewRoot(h, m.next, body, t, 0)
  }

  // ---- One action of a running frame --------------------------------------------------------------

  /** The root's thread makes the move that direct style makes. */
  ghost predicate Moves<C, V>(
    p: Program<C, V>, m: Machine<C, V>, h: History<C, V>, n: Machine<C, V>, k: History<C, V>, r: Id)
    requires Inv(m, h) && Inv(n, k) && r in h.roots && h.roots[r].chain != []
  {
    && r in k.roots && k.roots[r].chain != [] && k.roots[r].place.OnStack?
    && k.roots[r].body == h.roots[r].body && k.roots[r].io == h.roots[r].io
    && h.roots[r].log <= k.roots[r].log
    && Tick(p, ThreadOf(m, h, r)) == Next(ThreadOf(n, k, r), k.roots[r].log[|h.roots[r].log|..])
    && OthersSame(m, h, n, k, r)
  }

  lemma MovesTracks<C(!new), V(!new)>(
    p: Program<C, V>, m: Machine<C, V>, h: History<C, V>, n: Machine<C, V>, k: History<C, V>, r: Id)
    requires Inv(m, h) && Inv(n, k) && r in h.roots && h.roots[r].chain != []
    requires Tracks(p, m, h, r) && Moves(p, m, h, n, k, r)
    ensures Tracks(p, n, k, r)
  {
    var root := h.roots[r];
    TickArrives(p, root.body, root.io, root.log, ThreadOf(m, h, r));
    assert k.roots[r].log == root.log + k.roots[r].log[|root.log|..];
  }

  ghost predicate Acting<C, V>(p: Program<C, V>, m: Machine<C, V>, h: History<C, V>, t: ThreadId, f: Id, r: Id) {
    Inv(m, h) && f in h.home && RunsOn(m, h, t, f, r)
  }

  lemma ActingThread<C, V>(p: Program<C, V>, m: Machine<C, V>, h: History<C, V>, t: ThreadId, f: Id, r: Id)
    requires Acting(p, m, h, t, f, r)
    ensures h.roots[r].chain != [] && ThreadOf(m, h, r).ctrl == m.frames[f].ctrl
    ensures ThreadOf(m, h, r).env == EnvOf(m, m.frames[f].slots)
    ensures ThreadOf(m, h, r).env.Keys == m.frames[f].slots.Keys
    ensures OwnsAtRest(m, f)
  {
    RunningOwns(m, h, f);
    RunningLeaf(m, h, f);
  }

  lemma NoteStep<C, V>(m: Machine<C, V>, h: History<C, V>, r: Id, log: seq<Direct.Event<C, V>>)
    requires Inv(m, h) && r in h.roots && h.roots[r].chain != []
    ensures Inv(m, Note(h, r, log)) && ThreadOf(m, Note(h, r, log), r) == ThreadOf(m, h, r)
    ensures OthersSame(m, h, m, Note(h, r, log), r)
  {
    KeepNote(m, h, r, log);
    forall x | x in h.roots && x != r ensures SameMeaning(m, h, m, Note(h, r, log), x) {}
  }

  // The transitions of Steps once more, now with what they leave alone.

  lemma CtrlStep<C, V>(m: Machine<C, V>, h: History<C, V>, t: ThreadId, f: Id, r: Id, c: C)
    requires Inv(m, h) && f in h.home && RunsOn(m, h, t, f, r)
    ensures h.roots[r].chain != []
    ensures Inv(SetCtrl(m, f, c), h) && RunsOn(SetCtrl(m, f, c), h, t, f, r)
    ensures ThreadOf(SetCtrl(m, f, c), h, r) == ThreadOf(m, h, r).(ctrl := c)
    ensures OthersSame(m, h, SetCtrl(m, f, c), h, r)
  {
    CtrlThread(m, h, t, f, r, c);
    Others(m, h, SetCtrl(m, f, c), h, {f}, f, r);
  }

  lemma MakeStep<C, V>(m: Machine<C, V>, h: History<C, V>, t: ThreadId, f: Id, r: Id, s: Slot, body: C, n: Machine<C, V>)
    requires Inv(m, h) && f in h.home && RunsOn(m, h, t, f, r) && MakeTask(m, f, s, body) == Ok(n)
    ensures h.roots[r].chain != [] && Inv(n, RecordMake(m, h, f, s))
    ensures var th := ThreadOf(m, h, r); ThreadOf(n, RecordMake(m, h, f, s), r) == th.(env := th.env[s := Thunk(body)])
    ensures OthersSame(m, h, n, RecordMake(m, h, f, s), r)
  {
    MakeThread(m, h, t, f, r, s, body, n);
    Others(m, h, n, RecordMake(m, h, f, s), {f}, f, r);
  }

  lemma DropStep<C, V>(m: Machine<C, V>, h: History<C, V>, t: ThreadId, f: Id, r: Id, scope: set<Slot>, n: Machine<C, V>)
    requires Inv(m, h) && f in h.home && RunsOn(m, h, t, f, r) && DropSlots(m, f, scope) == Ok(n)
    ensures h.roots[r].chain != [] && Inv(n, h) && RunsOn(n, h, t, f, r)
    ensures var th := ThreadOf(m, h, r); ThreadOf(n, h, r) == th.(env := th.env - scope)
    ensures OthersSame(m, h, n, h, r)
  {
    DropThread(m, h, t, f, r, scope, n);
    Others(m, h, n, h, {f} + Dropped(m, f, scope), f, r);
  }

  lemma JoinStep<C, V>(p: Program<C, V>, m: Machine<C, V>, h: History<C, V>, t: ThreadId, f: Id, r: Id, c: Id, v: V)
    requires Inv(m, h) && f in h.home && RunsOn(m, h, t, f, r) && Joins(m, h, t, f, c)
    ensures c in m.frames && h.roots[r].chain != []
    ensures m.frames[c].point.AtTask? && m.frames[c].point.callee == f && c != f
    ensures Inv(Returned(p, m, t, f, c, v), RecordJoin(h, r, v))
    ensures |h.roots[r].chain| > 1 && ThreadOf(m, h, r).konts != []
    ensures ThreadOf(Returned(p, m, t, f, c, v), RecordJoin(h, r, v), r) == Pop(p, ThreadOf(m, h, r), v)
    ensures OthersSame(m, h, Returned(p, m, t, f, c, v), RecordJoin(h, r, v), r)
  {
    JoinThread(p, m, h, t, f, r, c, v);
    CallerWaits(m, h, t, f, c);
    Others(m, h, Returned(p, m, t, f, c, v), RecordJoin(h, r, v), {f, c}, f, r);
  }

  lemma CallStep<C, V>(m: Machine<C, V>, h: History<C, V>, t: ThreadId, f: Id, r: Id, s: Slot, g: Id)
    requires Inv(m, h) && f in h.home && RunsOn(m, h, t, f, r) && Calls(m, h, t, f, s, g)
    ensures Inv(Called(m, t, f, s, g), RecordCall(h, r, g)) && h.roots[r].chain != []
    ensures var th := ThreadOf(m, h, r);
      ThreadOf(Called(m, t, f, s, g), RecordCall(h, r, g), r)
        == Thread(m.frames[g].ctrl, map[], th.konts + [Kont(th.ctrl, th.env - {s}, s)])
    ensures OthersSame(m, h, Called(m, t, f, s, g), RecordCall(h, r, g), r)
  {
    CallThread(m, h, t, f, r, s, g);
    Others(m, h, Called(m, t, f, s, g), RecordCall(h, r, g), {f, g}, f, r);
  }

  lemma CtrlNoteStep<C, V>(
    m: Machine<C, V>, h: History<C, V>, t: ThreadId, f: Id, r: Id, c: C, log: seq<Direct.Event<C, V>>)
    requires Inv(m, h) && f in h.home && RunsOn(m, h, t, f, r)
    ensures h.roots[r].chain != []
    ensures Inv(SetCtrl(m, f, c), Note(h, r, log)) && RunsOn(SetCtrl(m, f, c), Note(h, r, log), t, f, r)
    ensures ThreadOf(SetCtrl(m, f, c), Note(h, r, log), r) == ThreadOf(m, h, r).(ctrl := c)
    ensures OthersSame(m, h, SetCtrl(m, f, c), Note(h, r, log), r)
  {
    var n := SetCtrl(m, f, c);
    CtrlStep(m, h, t, f, r, c);
    NoteStep(n, h, r, log);
    OthersTwice(m, h, n, h, n, Note(h, r, log), r);
  }

  lemma MakeMoves<C, V>(
    p: Program<C, V>, m: Machine<C, V>, h: History<C, V>, t: ThreadId, f: Id, r: Id, s: Slot, body: C, next: C, n: Machine<C, V>)
    requires Acting(p, m, h, t, f, r) && p.code(m.frames[f].ctrl) == Make(s, body, next)
    requires MakeTask(SetCtrl(m, f, next), f, s, body) == Ok(n)
    ensures Inv(n, RecordMake(m, h, f, s)) && h.roots[r].chain != []
    ensures Moves(p, m, h, n, RecordMake(m, h, f, s), r)
  {
    var o, k := SetCtrl(m, f, next), RecordMake(m, h, f, s);
    ActingThread(p, m, h, t, f, r);
    CtrlStep(m, h, t, f, r, next);
    MakeStep(o, h, t, f, r, s, body, n);
    OthersTwice(m, h, o, h, n, k, r);
  }

  lemma MoveMoves<C, V>(
    p: Program<C, V>, m: Machine<C, V>, h: History<C, V>, t: ThreadId, f: Id, r: Id, d: Slot, s: Slot, next: C, n: Machine<C, V>)
    requires Acting(p, m, h, t, f, r) && p.code(m.frames[f].ctrl) == Action.Move(d, s, next)
    requires MoveTask(SetCtrl(m, f, next), f, d, s) == Ok(n)
    ensures Inv(n, RecordMove(m, h, f, d, s)) && h.roots[r].chain != []
    ensures Moves(p, m, h, n, RecordMove(m, h, f, d, s), r)
  {
    ActingThread(p, m, h, t, f, r);
    if d != s && s in m.frames[f].slots {
      MovedMoves(p, m, h, t, f, r, d, s, next, n);
    } else {
      CtrlStep(m, h, t, f, r, next);
    }
  }

  lemma MovedMoves<C, V>(
    p: Program<C, V>, m: Machine<C, V>, h: History<C, V>, t: ThreadId, f: Id, r: Id, d: Slot, s: Slot, next: C, n: Machine<C, V>)
    requires Acting(p, m, h, t, f, r) && p.code(m.frames[f].ctrl) == Action.Move(d, s, next)
    requires MoveTask(SetCtrl(m, f, next), f, d, s) == Ok(n) && d != s && s in m.frames[f].slots
    ensures Inv(n, RecordMove(m, h, f, d, s)) && h.roots[r].chain != []
    ensures Moves(p, m, h, n, RecordMove(m, h, f, d, s), r)
  {
    ActingThread(p, m, h, t, f, r);
    MovedStep(m, h, t, f, r, d, s, next, n);
    assert RecordMove(m, h, f, d, s).roots == h.roots;
  }

  lemma MovedStep<C, V>(
    m: Machine<C, V>, h: History<C, V>, t: ThreadId, f: Id, r: Id, d: Slot, s: Slot, next: C, n: Machine<C, V>)
    requires Inv(m, h) && f in h.home && RunsOn(m, h, t, f, r)
    requires MoveTask(SetCtrl(m, f, next), f, d, s) == Ok(n) && d != s && s in m.frames[f].slots
    ensures Inv(n, RecordMove(m, h, f, d, s)) && h.roots[r].chain != [] && s in ThreadOf(m, h, r).env
    ensures var th := ThreadOf(m, h, r);
      ThreadOf(n, RecordMove(m, h, f, d, s), r) == th.(ctrl := next, env := (th.env - {s})[d := th.env[s]])
    ensures OthersSame(m, h, n, RecordMove(m, h, f, d, s), r)
  {
    var o, k := SetCtrl(m, f, next), RecordMove(m, h, f, d, s);
    CtrlStep(m, h, t, f, r, next);
    MoveThread(o, h, t, f, r, d, s, n);
    Others(o, h, n, k, {f}, f, r);
    OthersTwice(m, h, o, h, n, k, r);
  }

  lemma DropMoves<C, V>(
    p: Program<C, V>, m: Machine<C, V>, h: History<C, V>, t: ThreadId, f: Id, r: Id, s: Slot, next: C, n: Machine<C, V>)
    requires Acting(p, m, h, t, f, r) && p.code(m.frames[f].ctrl) == Drop(s, next)
    requires DropSlots(SetCtrl(m, f, next), f, {s}) == Ok(n)
    ensures Inv(n, h) && h.roots[r].chain != []
    ensures Moves(p, m, h, n, h, r)
  {
    var o := SetCtrl(m, f, next);
    ActingThread(p, m, h, t, f, r);
    CtrlStep(m, h, t, f, r, next);
    DropStep(o, h, t, f, r, {s}, n);
    OthersTwice(m, h, o, h, n, h, r);
  }

  /** co_await of a Task that has finished: await_ready holds and the value is read again. */
  lemma ReadyMoves<C, V>(
    p: Program<C, V>, m: Machine<C, V>, h: History<C, V>, t: ThreadId, f: Id, r: Id, s: Slot)
    requires Acting(p, m, h, t, f, r) && p.code(m.frames[f].ctrl) == Await(s)
    requires s in m.frames[f].slots && m.frames[f].slots[s] in m.frames && m.frames[m.frames[f].slots[s]].point.Final?
    ensures var g := m.frames[f].slots[s];
      && m.frames[g].value.Some? && h.roots[r].chain != []
      && AwaitTask(p, m, t, f, s) == Ok(SetCtrl(m, f, p.resume(m.frames[f].ctrl, m.frames[g].value.value)))
      && Inv(AwaitTask(p, m, t, f, s).value, Note(h, r, [Joined(m.frames[g].value.value)]))
      && Moves(p, m, h, AwaitTask(p, m, t, f, s).value, Note(h, r, [Joined(m.frames[g].value.value)]), r)
  {
    ActingThread(p, m, h, t, f, r);
    var v := m.frames[m.frames[f].slots[s]].value.value;
    var c := p.resume(m.frames[f].ctrl, v);
    var n, k := SetCtrl(m, f, c), Note(h, r, [Joined(v)]);
    CtrlNoteStep(m, h, t, f, r, c, [Joined(v)]);
  }

  lemma CallMoves<C, V>(
    p: Program<C, V>, m: Machine<C, V>, h: History<C, V>, t: ThreadId, f: Id, r: Id, s: Slot)
    requires Acting(p, m, h, t, f, r) && p.code(m.frames[f].ctrl) == Await(s)
    requires s in m.frames[f].slots && m.frames[f].slots[s] in m.frames && m.frames[m.frames[f].slots[s]].point.Initial?
    ensures var g := m.frames[f].slots[s];
      && h.roots[r].chain != [] && g != f
      && Inv(Called(m, t, f, s, g), RecordCall(h, r, g))
      && Moves(p, m, h, Called(m, t, f, s, g), RecordCall(h, r, g), r)
  {
    var g := m.frames[f].slots[s];
    ActingThread(p, m, h, t, f, r);
    CallStep(m, h, t, f, r, s, g);
    TickCalls(p, ThreadOf(m, h, r), s, m.frames[g].ctrl);
  }

  lemma TickCalls<C, V>(p: Program<C, V>, th: Thread<C, V>, s: Slot, body: C)
    requires p.code(th.ctrl) == Await(s) && s in th.env && th.env[s] == Thunk(body)
    ensures Tick(p, th) == Next(Thread(body, map[], th.konts + [Kont(th.ctrl, th.env - {s}, s)]), [])
  {
  }

  lemma AwaitIsCalled<C, V>(p: Program<C, V>, m: Machine<C, V>, t: ThreadId, f: Id, s: Slot, g: Id)
    requires StackOf(m, t) != [] && f in m.frames && g in m.frames && f != g
    requires s in m.frames[f].slots && m.frames[f].slots[s] == g && m.frames[g].point.Initial?
    ensures AwaitTask(p, m, t, f, s) == Ok(Called(m, t, f, s, g))
  {
    assert AwaitTask(p, m, t, f, s).value.frames == Called(m, t, f, s, g).frames;
  }

  /** co_return into a caller: the locals are destroyed, then control goes back. */
  lemma ReturnMoves<C, V>(
    p: Program<C, V>, m: Machine<C, V>, h: History<C, V>, t: ThreadId, f: Id, r: Id, v: V, c: Id)
    requires Acting(p, m, h, t, f, r) && p.code(m.frames[f].ctrl) == Return(v)
    requires m.frames[f].caller == Some(c)
    ensures h.roots[r].chain != [] && ReturnValue(p, m, t, f, v).Ok?
    ensures Inv(ReturnValue(p, m, t, f, v).value, RecordJoin(h, r, v))
    ensures Moves(p, m, h, ReturnValue(p, m, t, f, v).value, RecordJoin(h, r, v), r)
  {
    ActingThread(p, m, h, t, f, r);
    var o := ReturnStep(p, m, h, t, f, r, v, c);
    ReturnIsReturned(p, m, t, f, v, c, o);
  }

  lemma ReturnStep<C, V>(
    p: Program<C, V>, m: Machine<C, V>, h: History<C, V>, t: ThreadId, f: Id, r: Id, v: V, c: Id) returns (o: Machine<C, V>)
    requires Inv(m, h) && f in h.home && RunsOn(m, h, t, f, r) && m.frames[f].caller == Some(c)
    ensures DropSlots(m, f, m.frames[f].slots.Keys) == Ok(o) && c in o.frames && c != f
    ensures o.frames[c].point.AtTask? && o.frames[c].point.callee == f && StackOf(o, t) == StackOf(m, t)
    ensures Inv(Returned(p, o, t, f, c, v), RecordJoin(h, r, v)) && h.roots[r].chain != []
    ensures ThreadOf(m, h, r).konts != []
    ensures ThreadOf(Returned(p, o, t, f, c, v), RecordJoin(h, r, v), r) == Pop(p, ThreadOf(m, h, r), v)
    ensures OthersSame(m, h, Returned(p, o, t, f, c, v), RecordJoin(h, r, v), r)
  {
    var all := m.frames[f].slots.Keys;
    DropIsClean(m, h, f, all);
    o := DropSlots(m, f, all).value;
    DropStep(m, h, t, f, r, all, o);
    assert o.frames[f].slots == map[];
    JoinStep(p, o, h, t, f, r, c, v);
    OthersTwice(m, h, o, h, Returned(p, o, t, f, c, v), RecordJoin(h, r, v), r);
    var th := ThreadOf(m, h, r);
    assert Pop(p, th.(env := th.env - all), v) == Pop(p, th, v);
  }

  lemma ReturnIsReturned<C, V>(p: Program<C, V>, m: Machine<C, V>, t: ThreadId, f: Id, v: V, c: Id, o: Machine<C, V>)
    requires StackOf(m, t) != [] && f in m.frames && DropSlots(m, f, m.frames[f].slots.Keys) == Ok(o)
    requires m.frames[f].caller == Some(c) && c in o.frames && c != f
    requires o.frames[c].point.AtTask? && o.frames[c].point.callee == f
    ensures ReturnValue(p, m, t, f, v) == Ok(Returned(p, o, t, f, c, v))
  {
  }

  /** spawn: the Task's body goes on as a root of its own. */
  lemma SpawnMoves<C(!new), V(!new)>(
    p: Program<C, V>, m: Machine<C, V>, h: History<C, V>, t: ThreadId, f: Id, r: Id, s: Slot, next: C, g: Id)
    requires Acting(p, m, h, t, f, r) && p.code(m.frames[f].ctrl) == Action.Spawn(s, next)
    requires s in m.frames[f].slots && m.frames[f].slots[s] == g && g in m.frames && m.frames[g].point.Initial?
    ensures h.roots[r].chain != []
    ensures Inv(Detached(SetCtrl(m, f, next), t, f, s, g), RecordSpawn(m, h, t, f, s))
    ensures Moves(p, m, h, Detached(SetCtrl(m, f, next), t, f, s, g), RecordSpawn(m, h, t, f, s), r)
  {
    ActingThread(p, m, h, t, f, r);
    SpawnStep(m, h, t, f, r, s, next, g);
    assert RecordSpawn(m, h, t, f, s).roots[r].log == h.roots[r].log + [Spawned(m.frames[g].ctrl)];
  }

  /** What spawn does to the spawning thread, to the new one and to the others. */
  lemma SpawnStep<C, V>(
    m: Machine<C, V>, h: History<C, V>, t: ThreadId, f: Id, r: Id, s: Slot, next: C, g: Id)
    requires Inv(m, h) && f in h.home && RunsOn(m, h, t, f, r)
    requires s in m.frames[f].slots && m.frames[f].slots[s] == g && g in m.frames && m.frames[g].point.Initial?
    ensures h.roots[r].chain != []
    ensures Inv(Detached(SetCtrl(m, f, next), t, f, s, g), RecordSpawn(m, h, t, f, s))
    ensures var th := ThreadOf(m, h, r);
      ThreadOf(Detached(SetCtrl(m, f, next), t, f, s, g), RecordSpawn(m, h, t, f, s), r) == th.(ctrl := next, env := th.env - {s})
    ensures RecordSpawn(m, h, t, f, s).roots.Keys == h.roots.Keys + {g} && g !in h.roots
    ensures ThreadOf(Detached(SetCtrl(m, f, next), t, f, s, g), RecordSpawn(m, h, t, f, s), g) == Call(m.frames[g].ctrl)
    ensures OthersSame(m, h, Detached(SetCtrl(m, f, next), t, f, s, g), RecordSpawn(m, h, t, f, s), r)
  {
    var log := [Direct.Event.Spawned(m.frames[g].ctrl)];
    var o, j := SetCtrl(m, f, next), Note(h, r, log);
    var n, k := Detached(o, t, f, s, g), RecordSpawn(m, h, t, f, s);
    CtrlNoteStep(m, h, t, f, r, next, log);
    assert k == Rooted(o, j, t, g);
    DetachStep(o, j, t, f, r, s, g);
    OthersTwice(m, h, o, j, n, k, r);
  }

  lemma DetachStep<C, V>(m: Machine<C, V>, h: History<C, V>, t: ThreadId, f: Id, r: Id, s: Slot, g: Id)
    requires Inv(m, h) && f in h.home && RunsOn(m, h, t, f, r) && Calls(m, h, t, f, s, g)
    ensures Inv(Detached(m, t, f, s, g), Rooted(m, h, t, g)) && h.roots[r].chain != [] && g !in h.roots
    ensures var th := ThreadOf(m, h, r); ThreadOf(Detached(m, t, f, s, g), Rooted(m, h, t, g), r) == th.(env := th.env - {s})
    ensures ThreadOf(Detached(m, t, f, s, g), Rooted(m, h, t, g), g) == Call(m.frames[g].ctrl)
    ensures OthersSame(m, h, Detached(m, t, f, s, g), Rooted(m, h, t, g), r)
  {
    DetachThread(m, h, t, f, r, s, g);
    Others(m, h, Detached(m, t, f, s, g), Rooted(m, h, t, g), {f, g}, f, r);
  }

  lemma SpawnIsDetached<C, V>(p: Program<C, V>, m: Machine<C, V>, t: ThreadId, f: Id, s: Slot, g: Id)
    requires f in m.frames && g in m.frames && f != g
    requires s in m.frames[f].slots && m.frames[f].slots[s] == g && m.frames[g].point.Initial?
    ensures SpawnTask(p, m, t, f, s) == Ok(Detached(m, t, f, s, g))
  {
    assert SpawnTask(p, m, t, f, s).value.frames == Detached(m, t, f, s, g).frames;
  }

  lemma ParkGood<C(!new), V(!new)>(p: Program<C, V>, m: Machine<C, V>, h: History<C, V>, t: ThreadId, f: Id, r: Id, q: V)
    requires Acting(p, m, h, t, f, r) && Good(p, m, h) && p.code(m.frames[f].ctrl) == Callback(q)
    ensures Good(p, AwaitCallback(m, t, f, q), RecordPark(h, r, q))
  {
    var n, k := AwaitCallback(m, t, f, q), RecordPark(h, r, q);
    ActingThread(p, m, h, t, f, r);
    ParkThread(m, h, t, f, r, q);
    Others(m, h, n, k, {f}, f, r);
    assert Tracks(p, m, h, r);
    StaysGood(p, m, h, n, k, r);
  }

  /** A root returns: its locals and then its own frame are destroyed. */
  lemma EndGood<C(!new), V(!new)>(p: Program<C, V>, m: Machine<C, V>, h: History<C, V>, t: ThreadId, f: Id, r: Id, v: V)
    requires Acting(p, m, h, t, f, r) && Good(p, m, h)
    requires p.code(m.frames[f].ctrl) == Return(v) && m.frames[f].caller == None
    ensures ReturnValue(p, m, t, f, v).Ok? && Good(p, ReturnValue(p, m, t, f, v).value, RecordFinish(h, r, v))
  {
    var all := m.frames[f].slots.Keys;
    ActingThread(p, m, h, t, f, r);
    DropIsClean(m, h, f, all);
    var o := DropSlots(m, f, all).value;
    DropStep(m, h, t, f, r, all, o);
    assert o.frames[f].slots == map[];
    var n, k := Ended(o, t, f), RecordFinish(h, r, v);
    EndStep(o, h, t, f, v);
    OthersTwice(m, h, o, h, n, k, r);
    assert ReturnValue(p, m, t, f, v) == Ok(n) by { EndIsEnded(p, m, t, f, v, o); }
    EndTracks(p, m, h, n, k, f, v);
    StaysGood(p, m, h, n, k, r);
  }

  lemma EndStep<C, V>(m: Machine<C, V>, h: History<C, V>, t: ThreadId, f: Id, v: V)
    requires Inv(m, h) && Ends(m, h, t, f)
    ensures h.home[f] == f && h.roots[f].chain == [f]
    ensures Inv(Ended(m, t, f), RecordFinish(h, f, v)) && OthersSame(m, h, Ended(m, t, f), RecordFinish(h, f, v), f)
  {
    NothingBeneath(m, h, t, f, f);
    KeepEnd(m, h, t, f, v);
    Others(m, h, Ended(m, t, f), RecordFinish(h, f, v), {f}, f, f);
  }

  lemma EndIsEnded<C, V>(p: Program<C, V>, m: Machine<C, V>, t: ThreadId, f: Id, v: V, o: Machine<C, V>)
    requires StackOf(m, t) != [] && f in m.frames && DropSlots(m, f, m.frames[f].slots.Keys) == Ok(o)
    requires m.frames[f].caller == None
    ensures ReturnValue(p, m, t, f, v) == Ok(Ended(o, t, f))
  {
    assert ReturnValue(p, m, t, f, v).value.frames == Ended(o, t, f).frames;
  }

  lemma EndTracks<C(!new), V(!new)>(
    p: Program<C, V>, m: Machine<C, V>, h: History<C, V>, n: Machine<C, V>, k: History<C, V>, r: Id, v: V)
    requires Inv(m, h) && Inv(n, k) && r in h.roots && h.roots[r].chain == [r] && Tracks(p, m, h, r)
    requires p.code(ThreadOf(m, h, r).ctrl) == Return(v) && k == RecordFinish(h, r, v)
    ensures Tracks(p, n, k, r)
  {
    var root := h.roots[r];
    assert ThreadOf(m, h, r).konts == [];
    assert Tick(p, ThreadOf(m, h, r)) == End(v);
  }

  lemma MovedGood<C(!new), V(!new)>(
    p: Program<C, V>, m: Machine<C, V>, h: History<C, V>, n: Machine<C, V>, k: History<C, V>, r: Id)
    requires Good(p, m, h) && Inv(n, k) && r in h.roots && h.roots[r].chain != [] && Moves(p, m, h, n, k, r)
    requires forall x :: x in k.roots && x !in h.roots ==> Tracks(p, n, k, x)
    ensures Good(p, n, k)
  {
    assert Tracks(p, m, h, r);
    MovesTracks(p, m, h, n, k, r);
    StaysGood(p, m, h, n, k, r);
  }

  /** Safety and agreement of one action: it breaks nothing, it is misused exactly where direct style
      is stuck, and otherwise every root still tracks its direct-style evaluation. */
  ghost predicate StepGood<C(!new), V(!new)>(p: Program<C, V>, m: Machine<C, V>, h: History<C, V>, t: ThreadId, r: Id)
    requires Inv(m, h) && r in h.roots && h.roots[r].chain != []
  {
    match Perform(p, m, t)
    case Ok(n) => Good(p, n, RecordRun(p, m, h, t)) && !Tick(p, ThreadOf(m, h, r)).Fault?
    case Misused(x) => Tick(p, ThreadOf(m, h, r)) == Fault(x)
    case Broken(_) => false
    case Disabled => false
  }

  lemma MakeGood<C(!new), V(!new)>(
    p: Program<C, V>, m: Machine<C, V>, h: History<C, V>, t: ThreadId, f: Id, r: Id, s: Slot, body: C, next: C)
    requires Good(p, m, h) && Acting(p, m, h, t, f, r) && p.code(m.frames[f].ctrl) == Make(s, body, next)
    ensures h.roots[r].chain != [] && StepGood(p, m, h, t, r)
  {
    ActingThread(p, m, h, t, f, r);
    var n := MakeTask(SetCtrl(m, f, next), f, s, body);
    if n.Ok? {
      MakeMoves(p, m, h, t, f, r, s, body, next, n.value);
      MovedGood(p, m, h, n.value, RecordMake(m, h, f, s), r);
    }
  }

  lemma MoveGood<C(!new), V(!new)>(
    p: Program<C, V>, m: Machine<C, V>, h: History<C, V>, t: ThreadId, f: Id, r: Id, d: Slot, s: Slot, next: C)
    requires Good(p, m, h) && Acting(p, m, h, t, f, r) && p.code(m.frames[f].ctrl) == Action.Move(d, s, next)
    ensures h.roots[r].chain != [] && StepGood(p, m, h, t, r)
  {
    ActingThread(p, m, h, t, f, r);
    var n := MoveTask(SetCtrl(m, f, next), f, d, s);
    if n.Ok? {
      MoveMoves(p, m, h, t, f, r, d, s, next, n.value);
      MovedGood(p, m, h, n.value, RecordMove(m, h, f, d, s), r);
    }
  }

  lemma DropGood<C(!new), V(!new)>(
    p: Program<C, V>, m: Machine<C, V>, h: History<C, V>, t: ThreadId, f: Id, r: Id, s: Slot, next: C)
    requires Good(p, m, h) && Acting(p, m, h, t, f, r) && p.code(m.frames[f].ctrl) == Drop(s, next)
    ensures h.roots[r].chain != [] && StepGood(p, m, h, t, r)
  {
    ActingThread(p, m, h, t, f, r);
    CtrlStep(m, h, t, f, r, next);
    DropIsClean(SetCtrl(m, f, next), h, f, {s});
    var n := DropSlots(SetCtrl(m, f, next), f, {s}).value;
    DropMoves(p, m, h, t, f, r, s, next, n);
    MovedGood(p, m, h, n, h, r);
  }

  lemma SpawnedGood<C(!new), V(!new)>(
    p: Program<C, V>, m: Machine<C, V>, h: History<C, V>, t: ThreadId, f: Id, r: Id, s: Slot, next: C, g: Id)
    requires Good(p, m, h) && Acting(p, m, h, t, f, r) && p.code(m.frames[f].ctrl) == Action.Spawn(s, next)
    requires s in m.frames[f].slots && m.frames[f].slots[s] == g && g in m.frames && m.frames[g].point.Initial?
    ensures Good(p, Detached(SetCtrl(m, f, next), t, f, s, g), RecordSpawn(m, h, t, f, s))
  {
    var n, k := Detached(SetCtrl(m, f, next), t, f, s, g), RecordSpawn(m, h, t, f, s);
    SpawnMoves(p, m, h, t, f, r, s, next, g);
    SpawnStep(m, h, t, f, r, s, next, g);
    assert Tracks(p, n, k, g) by { CallArrives(p, m.frames[g].ctrl); }
    MovedGood(p, m, h, n, k, r);
  }

  lemma SpawnGood<C(!new), V(!new)>(
    p: Program<C, V>, m: Machine<C, V>, h: History<C, V>, t: ThreadId, f: Id, r: Id, s: Slot, next: C)
    requires Good(p, m, h) && Acting(p, m, h, t, f, r) && p.code(m.frames[f].ctrl) == Action.Spawn(s, next)
    ensures h.roots[r].chain != [] && StepGood(p, m, h, t, r)
  {
    ActingThread(p, m, h, t, f, r);
    PerformSpawns(p, m, t, f, s, next);
    if s in m.frames[f].slots && m.frames[m.frames[f].slots[s]].point.Initial? {
      SpawnedGood(p, m, h, t, f, r, s, next, m.frames[f].slots[s]);
    }
  }

  lemma PerformSpawns<C, V>(p: Program<C, V>, m: Machine<C, V>, t: ThreadId, f: Id, s: Slot, next: C)
    requires StackOf(m, t) != [] && f == Top(m, t) && f in m.frames && OwnsAtRest(m, f)
    requires p.code(m.frames[f].ctrl) == Action.Spawn(s, next)
    ensures var slots := m.frames[f].slots;
      Perform(p, m, t) ==
        if s !in slots then Misused(TakeEmpty)
        else if m.frames[slots[s]].point.Final? then Misused(SpawnFinished)
        else Ok(Detached(SetCtrl(m, f, next), t, f, s, slots[s]))
  {
    if s in m.frames[f].slots && m.frames[m.frames[f].slots[s]].point.Initial? {
      SpawnIsDetached(p, SetCtrl(m, f, next), t, f, s, m.frames[f].slots[s]);
    }
  }

  lemma AwaitGood<C(!new), V(!new)>(
    p: Program<C, V>, m: Machine<C, V>, h: History<C, V>, t: ThreadId, f: Id, r: Id, s: Slot)
    requires Good(p, m, h) && Acting(p, m, h, t, f, r) && p.code(m.frames[f].ctrl) == Await(s)
    ensures h.roots[r].chain != [] && StepGood(p, m, h, t, r)
  {
    ActingThread(p, m, h, t, f, r);
    if s in m.frames[f].slots {
      var g := m.frames[f].slots[s];
      assert g in m.frames && Resting(m.frames[g]);
      if m.frames[g].point.Final? {
        ReadyMoves(p, m, h, t, f, r, s);
      } else {
        CallMoves(p, m, h, t, f, r, s);
        AwaitIsCalled(p, m, t, f, s, g);
      }
      MovedGood(p, m, h, AwaitTask(p, m, t, f, s).value, RecordRun(p, m, h, t), r);
    }
  }

  lemma ReturnGood<C(!new), V(!new)>(
    p: Program<C, V>, m: Machine<C, V>, h: History<C, V>, t: ThreadId, f: Id, r: Id, v: V)
    requires Good(p, m, h) && Acting(p, m, h, t, f, r) && p.code(m.frames[f].ctrl) == Return(v)
    ensures h.roots[r].chain != [] && StepGood(p, m, h, t, r)
  {
    ActingThread(p, m, h, t, f, r);
    if m.frames[f].caller.Some? {
      ReturnMoves(p, m, h, t, f, r, v, m.frames[f].caller.value);
      MovedGood(p, m, h, ReturnValue(p, m, t, f, v).value, RecordJoin(h, r, v), r);
    } else {
      EndGood(p, m, h, t, f, r, v);
    }
  }

  lemma RunGood<C(!new), V(!new)>(p: Program<C, V>, m: Machine<C, V>, h: History<C, V>, t: ThreadId)
    requires Good(p, m, h) && StackOf(m, t) != []
    ensures Top(m, t) in h.home && h.home[Top(m, t)] in h.roots && h.roots[h.home[Top(m, t)]].chain != []
    ensures StepGood(p, m, h, t, h.home[Top(m, t)])
  {
    TopRuns(m, h, t);
    var f := Top(m, t);
    var r := h.home[f];
    match p.code(m.frames[f].ctrl)
    case Make(s, body, next) => MakeGood(p, m, h, t, f, r, s, body, next);
    case Move(d, s, next) => MoveGood(p, m, h, t, f, r, d, s, next);
    case Drop(s, next) => DropGood(p, m, h, t, f, r, s, next);
    case Spawn(s, next) => SpawnGood(p, m, h, t, f, r, s, next);
    case Await(s) => AwaitGood(p, m, h, t, f, r, s);
    case Callback(q) => ActingThread(p, m, h, t, f, r); ParkGood(p, m, h, t, f, r, q);
    case Return(v) => ReturnGood(p, m, h, t, f, r, v);
  }

  // ---- Stimuli from outside -----------------------------------------------------------------------

  /** A completion finds its awaiter, and its answer is the one the waiting co_await produces. */
  lemma AnswerGood<C(!new), V(!new)>(p: Program<C, V>, m: Machine<C, V>, h: History<C, V>, t: ThreadId, f: Id, v: V)
    requires Good(p, m, h) && StackOf(m, t) == [] && f in m.pending
    ensures Complete(p, m, t, f, v).Ok?
    ensures Good(p, Complete(p, m, t, f, v).value, Record(p, m, h, Finish(t, f, v)))
  {
    assert FrameOk(m, h, f);
    var r, q := h.home[f], m.frames[f].point.request;
    var n, k := Answered(p, m, t, f, v), RecordAnswer(h, r, t, q, v);
    AnswerThread(p, m, h, t, f, r, q, v);
    CompleteIsAnswered(p, m, t, f, v);
    Others(m, h, n, k, {f}, f, r);
    assert Tracks(p, m, h, r);
    AnswerArrives(p, h.roots[r].body, h.roots[r].io, h.roots[r].log, ThreadOf(m, h, r), v);
    StaysGood(p, m, h, n, k, r);
  }

  lemma CompleteIsAnswered<C, V>(p: Program<C, V>, m: Machine<C, V>, t: ThreadId, f: Id, v: V)
    requires StackOf(m, t) == [] && f in m.pending && f in m.frames && m.frames[f].point.AtCallback?
    ensures Complete(p, m, t, f, v) == Ok(Answered(p, m, t, f, v))
  {
    assert Complete(p, m, t, f, v).value.frames == Answered(p, m, t, f, v).frames;
  }

  lemma LaunchGood<C(!new), V(!new)>(p: Program<C, V>, m: Machine<C, V>, h: History<C, V>, t: ThreadId, body: C)
    requires Good(p, m, h) && StackOf(m, t) == []
    ensures Launch(p, m, t, body).Ok?
    ensures Good(p, Launch(p, m, t, body).value, Record(p, m, h, Begin(t, body)))
  {
    var n, k := Launched(m, t, body), NewRoot(h, m.next, body, t, 0);
    var g := m.next;
    KeepLaunch(m, h, t, body);
    LaunchIsLaunched(p, m, t, body);
    LaunchOthers(m, h, t, body);
    LaunchTracks(p, n, k, g);
    StaysGood(p, m, h, n, k, g);
  }

  lemma LaunchIsLaunched<C, V>(p: Program<C, V>, m: Machine<C, V>, t: ThreadId, body: C)
    requires StackOf(m, t) == []
    ensures Launch(p, m, t, body) == Ok(Launched(m, t, body))
  {
    assert Launch(p, m, t, body).value.frames == Launched(m, t, body).frames;
  }

  /** A root that has just started is where its body begins. */
  lemma LaunchTracks<C(!new), V(!new)>(p: Program<C, V>, n: Machine<C, V>, k: History<C, V>, g: Id)
    requires Inv(n, k) && g in k.roots && k.roots[g].chain == [g] && g in n.frames && n.frames[g].slots == map[]
    requires k.roots[g].body == n.frames[g].ctrl && k.roots[g].io == [] && k.roots[g].log == [] && !k.roots[g].place.Parked?
    ensures Tracks(p, n, k, g)
  {
    FreshThread(n, k, g);
    CallArrives(p, k.roots[g].body);
  }

  lemma LaunchOthers<C, V>(m: Machine<C, V>, h: History<C, V>, t: ThreadId, body: C)
    requires Inv(m, h) && StackOf(m, t) == [] && Inv(Launched(m, t, body), NewRoot(h, m.next, body, t, 0))
    ensures m.next !in h.roots
    ensures OthersSame(m, h, Launched(m, t, body), NewRoot(h, m.next, body, t, 0), m.next)
  {
    var n, k := Launched(m, t, body), NewRoot(h, m.next, body, t, 0);
    assert m.next in h.roots ==> RootOk(m, h, m.next);
    forall x | x in h.roots && x != m.next ensures SameMeaning(m, h, n, k, x) {
      if h.roots[x].chain != [] { UntouchedThread(m, h, n, k, x); }
    }
  }

  /** If no frame changes, no root's thread does. */
  lemma UntouchedThread<C, V>(m: Machine<C, V>, h: History<C, V>, n: Machine<C, V>, k: History<C, V>, x: Id)
    requires Inv(m, h) && Inv(n, k) && x in h.roots && x in k.roots && k.roots[x].chain == h.roots[x].chain != []
    requires forall y :: y in m.frames ==> y in n.frames && n.frames[y] == m.frames[y]
    ensures ThreadOf(n, k, x) == ThreadOf(m, h, x)
  {
    var chain := h.roots[x].chain;
    assert Touches(m, h, n, {}, x, x);
    forall i: nat | i < |chain| ensures chain[i] in m.frames && Steady(m, n, chain[i]) {
      ChainWaits(m, h, x, i);
      StaysSteady(m, h, n, {}, n.next, x, chain[i]);
    }
    forall i | 0 <= i < |chain| - 1 ensures Waits(m, Callers(h, x)[i]) { ChainWaits(m, h, x, i); }
    SteadyKonts(m, n, Callers(h, x));
    ChainWaits(m, h, x, |chain| - 1);
    SteadyEnv(m, n, LeafOf(h, x));
  }

  // ---- Whole runs ---------------------------------------------------------------------------------

  /** Every stimulus: nothing breaks, and every root keeps tracking its direct-style evaluation. */
  lemma AdvanceGood<C(!new), V(!new)>(p: Program<C, V>, m: Machine<C, V>, h: History<C, V>, e: Stimulus<C, V>)
    requires Good(p, m, h)
    ensures !Advance(p, m, e).Broken?
    ensures Advance(p, m, e).Ok? ==> Good(p, Advance(p, m, e).value, Record(p, m, h, e))
  {
    match e
    case Run(t) => if StackOf(m, t) != [] { RunGood(p, m, h, t); }
    case Finish(t, f, v) => if StackOf(m, t) == [] && f in m.pending { AnswerGood(p, m, h, t, f, v); }
    case Begin(t, body) => if StackOf(m, t) == [] { LaunchGood(p, m, h, t, body); }
  }
}

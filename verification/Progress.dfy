/** What direct-style evaluation promises, the machine can be driven to. */
module Progress {
  import opened Prelude
  import opened Direct
  import opened Frames
  import opened Chains
  import opened Transfers
  import opened Threads
  import opened Steps
  import opened Runs
  import opened Roots
  import opened Coroutines

  // ---- Evaluation as steps of a thread --------------------------------------------------------------

  /** Where a thread comes to, what it consumes and what it logs, step by step. */
  function FollowFrom<C, V>(p: Program<C, V>, th: Thread<C, V>, steps: seq<Step<V>>): Option<Course<C, V>>
    decreases |steps|
  {
    if steps == [] then Some(Course(th, [], [])) else
    match (steps[0], Tick(p, th))
    case (Silent, Next(next, log)) =>
      (match FollowFrom(p, next, steps[1..])
       case None => None
       case Some(at) => Some(at.(log := log + at.log)))
    case (Told(v), Wait(q)) =>
      (match FollowFrom(p, Answer(p, th, v), steps[1..])
       case None => None
       case Some(at) => Some(at.(io := [v] + at.io, log := [Io(q, v)] + at.log)))
    case _ => None
  }

  lemma {:induction false} FollowBoth<C, V>(p: Program<C, V>, th: Thread<C, V>, a: seq<Step<V>>, b: seq<Step<V>>)
    requires FollowFrom(p, th, a).Some? && FollowFrom(p, FollowFrom(p, th, a).value.th, b).Some?
    ensures var u := FollowFrom(p, th, a).value;
            var w := FollowFrom(p, u.th, b).value;
            FollowFrom(p, th, a + b) == Some(Course(w.th, u.io + w.io, u.log + w.log))
    decreases |a|
  {
    if a == [] {
      assert a + b == b;
      var w := FollowFrom(p, th, b).value;
      assert [] + w.io == w.io && [] + w.log == w.log;
    } else {
      assert (a + b)[0] == a[0] && (a + b)[1..] == a[1..] + b;
      match Tick(p, th)
      case Next(next, log) =>
        FollowBoth(p, next, a[1..], b);
        var u := FollowFrom(p, next, a[1..]).value;
        var w := FollowFrom(p, u.th, b).value;
        Regroup(log, u.log, w.log);
      case Wait(q) =>
        var next := Answer(p, th, a[0].answer);
        FollowBoth(p, next, a[1..], b);
        var u := FollowFrom(p, next, a[1..]).value;
        var w := FollowFrom(p, u.th, b).value;
        Regroup([a[0].answer], u.io, w.io);
        Regroup([Direct.Event<C, V>.Io(q, a[0].answer)], u.log, w.log);
    }
  }

  lemma Regroup<T>(a: seq<T>, b: seq<T>, c: seq<T>)
    ensures a + (b + c) == (a + b) + c
  {
  }

  /** The thread at which evaluation stops with outcome `o`: back on the stack it started on, if it finishes. */
  ghost predicate StopsAt<C, V>(p: Program<C, V>, th: Thread<C, V>, at: Thread<C, V>, o: Outcome<V>) {
    if o.Finished? then at.konts == th.konts && p.code(at.ctrl) == Return(o.value)
    else !Tick(p, at).Next? && Stopped(Tick(p, at)) == o
  }

  /** Steps that lead where evaluation leads. */
  ghost predicate Leads<C, V>(p: Program<C, V>, th: Thread<C, V>, io: seq<V>, r: Result<C, V>, steps: seq<Step<V>>) {
    FollowFrom(p, th, steps).Some? && LeadsTo(p, th, io, r, FollowFrom(p, th, steps).value)
  }

  ghost predicate LeadsTo<C, V>(p: Program<C, V>, th: Thread<C, V>, io: seq<V>, r: Result<C, V>, at: Course<C, V>) {
    at.io + r.rest == io && at.log == r.log && StopsAt(p, th, at.th, r.outcome)
  }

  /** One step that leaves the stack alone, and then what evaluation does from there. */
  lemma OneThenLeads<C, V>(
    p: Program<C, V>, th: Thread<C, V>, first: Step<V>, next: Thread<C, V>, used: seq<V>, log: seq<Direct.Event<C, V>>,
    io: seq<V>, r: Result<C, V>, steps: seq<Step<V>>)
    requires FollowFrom(p, th, [first]) == Some(Course(next, used, log)) && next.konts == th.konts
    requires Leads(p, next, io, r, steps)
    ensures Leads(p, th, used + io, Prepend(log, r), [first] + steps)
  {
    FollowBoth(p, th, [first], steps);
    Composed(p, th, next, used, log, io, r, FollowFrom(p, next, steps).value);
  }

  lemma Composed<C, V>(
    p: Program<C, V>, th: Thread<C, V>, next: Thread<C, V>, used: seq<V>, log: seq<Direct.Event<C, V>>, io: seq<V>,
    r: Result<C, V>, at: Course<C, V>)
    requires next.konts == th.konts && LeadsTo(p, next, io, r, at)
    ensures LeadsTo(p, th, used + io, Prepend(log, r), Course(at.th, used + at.io, log + at.log))
  {
    assert used + (at.io + r.rest) == (used + at.io) + r.rest;
  }

  lemma SilentStep<C, V>(p: Program<C, V>, th: Thread<C, V>)
    requires Tick(p, th).Next?
    ensures FollowFrom(p, th, [Silent]) == Some(Course(Tick(p, th).th, [], Tick(p, th).log))
  {
    var one: seq<Step<V>> := [Silent];
    assert one[1..] == [];
    assert Tick(p, th).log + [] == Tick(p, th).log;
  }

  lemma ToldStep<C, V>(p: Program<C, V>, th: Thread<C, V>, v: V)
    requires Tick(p, th).Wait?
    ensures FollowFrom(p, th, [Told(v)]) == Some(Course(Answer(p, th, v), [v], [Io(Tick(p, th).request, v)]))
  {
    var q := Tick(p, th).request;
    assert [Told(v)][1..] == [];
    var event: seq<Direct.Event<C, V>> := [Io(q, v)];
    assert [v] + [] == [v] && event + [] == event;
  }

  /** Evaluation from any point of a body is steps of its thread, whatever calls are below. */
  lemma {:induction false} EvalLeads<C, V>(
    p: Program<C, V>, fuel: nat, th: Thread<C, V>, io: seq<V>) returns (steps: seq<Step<V>>)
    requires !Eval(p, fuel, th.ctrl, th.env, io).outcome.OutOfFuel?
    ensures Leads(p, th, io, Eval(p, fuel, th.ctrl, th.env, io), steps)
    decreases fuel, 1
  {
    var r := Eval(p, fuel, th.ctrl, th.env, io);
    steps := [];
    assert [] + io == io;
    match p.code(th.ctrl)
    case Return(v) =>
    case Callback(q) =>
      if io != [] { steps := ToldLeads(p, fuel, th, io); }
    case Await(s) =>
      if s in th.env && th.env[s].Thunk? {
        steps := CallLeads(p, fuel, th, s, io);
      } else if s in th.env {
        steps := SilentLeads(p, fuel, th, io);
      }
    case _ =>
      if !r.outcome.Stuck? || Tick(p, th).Next? {
        steps := SilentLeads(p, fuel, th, io);
      }
  }

  lemma {:induction false} ToldLeads<C, V>(
    p: Program<C, V>, fuel: nat, th: Thread<C, V>, io: seq<V>) returns (steps: seq<Step<V>>)
    requires fuel > 0 && Tick(p, th).Wait? && io != []
    requires !Eval(p, fuel, th.ctrl, th.env, io).outcome.OutOfFuel?
    ensures Leads(p, th, io, Eval(p, fuel, th.ctrl, th.env, io), steps)
    decreases fuel, 0
  {
    var q, v, next := Tick(p, th).request, io[0], Answer(p, th, io[0]);
    var rest := EvalLeads(p, fuel - 1, next, io[1..]);
    ToldStep(p, th, v);
    OneThenLeads(p, th, Told(v), next, [v], [Io(q, v)], io[1..], Eval(p, fuel - 1, next.ctrl, next.env, io[1..]), rest);
    assert [v] + io[1..] == io;
    steps := [Told(v)] + rest;
  }

  lemma {:induction false} SilentLeads<C, V>(
    p: Program<C, V>, fuel: nat, th: Thread<C, V>, io: seq<V>) returns (steps: seq<Step<V>>)
    requires fuel > 0 && Tick(p, th).Next? && Tick(p, th).th.konts == th.konts && !p.code(th.ctrl).Return?
    requires !(p.code(th.ctrl).Await? && p.code(th.ctrl).slot in th.env && th.env[p.code(th.ctrl).slot].Thunk?)
    requires !Eval(p, fuel, th.ctrl, th.env, io).outcome.OutOfFuel?
    ensures Leads(p, th, io, Eval(p, fuel, th.ctrl, th.env, io), steps)
    decreases fuel, 0
  {
    var next := Tick(p, th).th;
    var r := Eval(p, fuel - 1, next.ctrl, next.env, io);
    assert Prepend([], r) == r;
    assert Eval(p, fuel, th.ctrl, th.env, io) == Prepend(Tick(p, th).log, r);
    var rest := EvalLeads(p, fuel - 1, next, io);
    SilentStep(p, th);
    OneThenLeads(p, th, Silent, next, [], Tick(p, th).log, io, r, rest);
    assert [] + io == io;
    steps := [Silent] + rest;
  }

  /** A call: the callee's steps, its return, and the rest of the caller. */
  lemma {:induction false} CallLeads<C, V>(
    p: Program<C, V>, fuel: nat, th: Thread<C, V>, s: Slot, io: seq<V>) returns (steps: seq<Step<V>>)
    requires fuel > 0 && p.code(th.ctrl) == Await(s) && s in th.env && th.env[s].Thunk?
    requires !Eval(p, fuel, th.ctrl, th.env, io).outcome.OutOfFuel?
    ensures Leads(p, th, io, Eval(p, fuel, th.ctrl, th.env, io), steps)
    decreases fuel, 0
  {
    var inner := Tick(p, th).th;
    var call := Eval(p, fuel - 1, th.env[s].body, map[], io);
    var a := EvalLeads(p, fuel - 1, inner, io);
    SilentStep(p, th);
    FollowBoth(p, th, [Silent], a);
    var u := FollowFrom(p, inner, a).value;
    assert [] + u.io == u.io && [] + u.log == u.log;
    steps := [Silent] + a;
    if call.outcome.Finished? {
      var back := Thread(p.resume(th.ctrl, call.outcome.value), (th.env - {s})[s := Value(call.outcome.value)], th.konts);
      var b := EvalLeads(p, fuel - 1, back, call.rest);
      steps := steps + [Silent] + b;
      JoinLeads(p, th, s, io, call, [Silent] + a, u, Eval(p, fuel - 1, back.ctrl, back.env, call.rest), b);
    }
  }

  /** The callee has come to its return: it returns, and the caller goes on. */
  lemma JoinLeads<C, V>(
    p: Program<C, V>, th: Thread<C, V>, s: Slot, io: seq<V>, call: Result<C, V>, a: seq<Step<V>>, u: Course<C, V>,
    r: Result<C, V>, b: seq<Step<V>>)
    requires call.outcome.Finished? && FollowFrom(p, th, a) == Some(u) && u.log == call.log && u.io + call.rest == io
    requires u.th.konts == th.konts + [Kont(th.ctrl, th.env - {s}, s)] && p.code(u.th.ctrl) == Return(call.outcome.value)
    requires var v := call.outcome.value;
      Leads(p, Thread(p.resume(th.ctrl, v), (th.env - {s})[s := Value(v)], th.konts), call.rest, r, b)
    ensures Leads(p, th, io, Prepend(call.log + [Joined(call.outcome.value)], r), a + [Silent] + b)
  {
    var v := call.outcome.value;
    var back := Thread(p.resume(th.ctrl, v), (th.env - {s})[s := Value(v)], th.konts);
    var w := FollowFrom(p, back, b).value;
    JoinSteps(p, th, s, u.th, v, b, w);
    FollowBoth(p, th, a, [Silent] + b);
    assert a + [Silent] + b == a + ([Silent] + b);
    JoinAdds(io, call, u, r, w, [Joined(v)]);
  }

  lemma JoinSteps<C, V>(p: Program<C, V>, th: Thread<C, V>, s: Slot, at: Thread<C, V>, v: V, b: seq<Step<V>>, w: Course<C, V>)
    requires at.konts == th.konts + [Kont(th.ctrl, th.env - {s}, s)] && p.code(at.ctrl) == Return(v)
    requires FollowFrom(p, Thread(p.resume(th.ctrl, v), (th.env - {s})[s := Value(v)], th.konts), b) == Some(w)
    ensures FollowFrom(p, at, [Silent] + b) == Some(Course(w.th, w.io, [Joined(v)] + w.log))
  {
    assert at.konts[..|th.konts|] == th.konts;
    assert Tick(p, at).th == Thread(p.resume(th.ctrl, v), (th.env - {s})[s := Value(v)], th.konts);
    assert ([Silent] + b)[1..] == b;
  }

  lemma JoinAdds<C, V>(io: seq<V>, call: Result<C, V>, u: Course<C, V>, r: Result<C, V>, w: Course<C, V>, joined: seq<Direct.Event<C, V>>)
    requires u.io + call.rest == io && w.io + r.rest == call.rest && u.log == call.log && w.log == r.log
    ensures (u.io + w.io) + r.rest == io && u.log + (joined + w.log) == (call.log + joined) + r.log
  {
  }

  // ---- The machine follows --------------------------------------------------------------------------

  /** Root `r` is at `th`, its leaf on top of thread `t`, over `below`. */
  ghost predicate At<C, V>(m: Machine<C, V>, h: History<C, V>, t: ThreadId, below: seq<Id>, r: Id, th: Thread<C, V>) {
    && Inv(m, h) && r in h.roots && h.roots[r].chain != []
    && StackOf(m, t) == below + [LeafOf(h, r)] && ThreadOf(m, h, r) == th
  }

  /** What root `r` has done since: consumed `io` and logged `log`. */
  ghost predicate Did<C, V>(h: History<C, V>, k: History<C, V>, r: Id, io: seq<V>, log: seq<Direct.Event<C, V>>) {
    && r in h.roots && r in k.roots && k.roots[r].body == h.roots[r].body
    && k.roots[r].io == h.roots[r].io + io && k.roots[r].log == h.roots[r].log + log
  }

  lemma LeafActs<C, V>(p: Program<C, V>, m: Machine<C, V>, h: History<C, V>, t: ThreadId, below: seq<Id>, r: Id, th: Thread<C, V>)
    requires At(m, h, t, below, r, th)
    ensures StackOf(m, t) != [] && Top(m, t) == LeafOf(h, r) && Below(m, t) == below
    ensures Acting(p, m, h, t, LeafOf(h, r), r) && m.frames[LeafOf(h, r)].ctrl == th.ctrl
    ensures h.home[LeafOf(h, r)] == r
  {
    var f := LeafOf(h, r);
    TopRuns(m, h, t);
    assert RootOk(m, h, r) && LinkOk(m, h, r, |h.roots[r].chain| - 1);
    assert Below(m, t) == below;
  }

  /** An action that neither spawns nor waits nor ends the root takes the root one tick on. */
  lemma ActionMoves<C(!new), V(!new)>(
    p: Program<C, V>, m: Machine<C, V>, h: History<C, V>, t: ThreadId, below: seq<Id>, r: Id, th: Thread<C, V>)
    requires Good(p, m, h) && At(m, h, t, below, r, th) && Tick(p, th).Next? && !p.code(th.ctrl).Spawn?
    ensures Perform(p, m, t).Ok?
    ensures var n, k := Perform(p, m, t).value, RecordRun(p, m, h, t);
      && Inv(n, k) && Moves(p, m, h, n, k, r) && |StackOf(n, t)| == |StackOf(m, t)| && StackOf(n, t)[..|below|] == below
  {
    LeafActs(p, m, h, t, below, r, th);
    var f := LeafOf(h, r);
    RunGood(p, m, h, t);
    ActingThread(p, m, h, t, f, r);
    match p.code(m.frames[f].ctrl)
    case Make(_, _, _) => LocalOnwards(p, m, h, t, f, r);
    case Move(_, _, _) => LocalOnwards(p, m, h, t, f, r);
    case Drop(_, _) => LocalOnwards(p, m, h, t, f, r);
    case Await(s) => AwaitOnwards(p, m, h, t, f, r, s);
    case Return(v) => ReturnOnwards(p, m, h, t, f, r, v);
  }

  lemma LocalOnwards<C, V>(p: Program<C, V>, m: Machine<C, V>, h: History<C, V>, t: ThreadId, f: Id, r: Id)
    requires Acting(p, m, h, t, f, r) && Perform(p, m, t).Ok?
    requires var act := p.code(m.frames[f].ctrl); act.Make? || act.Move? || act.Drop?
    ensures h.roots[r].chain != []
    ensures var n, k := Perform(p, m, t).value, RecordRun(p, m, h, t);
      && Inv(n, k) && Moves(p, m, h, n, k, r) && StackOf(n, t) == StackOf(m, t)
  {
    var n := Perform(p, m, t).value;
    match p.code(m.frames[f].ctrl)
    case Make(s, body, next) => MakeMoves(p, m, h, t, f, r, s, body, next, n);
    case Move(d, s, next) => MoveMoves(p, m, h, t, f, r, d, s, next, n);
    case Drop(s, next) => DropMoves(p, m, h, t, f, r, s, next, n);
  }

  lemma AwaitOnwards<C, V>(p: Program<C, V>, m: Machine<C, V>, h: History<C, V>, t: ThreadId, f: Id, r: Id, s: Slot)
    requires Acting(p, m, h, t, f, r) && p.code(m.frames[f].ctrl) == Await(s) && s in m.frames[f].slots
    ensures h.roots[r].chain != [] && Perform(p, m, t).Ok?
    ensures var n, k := Perform(p, m, t).value, RecordRun(p, m, h, t);
      && Inv(n, k) && Moves(p, m, h, n, k, r)
      && |StackOf(n, t)| == |StackOf(m, t)| && StackOf(n, t)[..|Below(m, t)|] == Below(m, t)
  {
    ActingThread(p, m, h, t, f, r);
    var g := m.frames[f].slots[s];
    if m.frames[g].point.Final? {
      ReadyMoves(p, m, h, t, f, r, s);
    } else {
      CallMoves(p, m, h, t, f, r, s);
      AwaitIsCalled(p, m, t, f, s, g);
    }
  }

  lemma ReturnOnwards<C, V>(p: Program<C, V>, m: Machine<C, V>, h: History<C, V>, t: ThreadId, f: Id, r: Id, v: V)
    requires Acting(p, m, h, t, f, r) && p.code(m.frames[f].ctrl) == Return(v) && h.roots[r].chain != []
    requires LeafOf(h, r) == f && ThreadOf(m, h, r).konts != []
    ensures Perform(p, m, t).Ok?
    ensures var n, k := Perform(p, m, t).value, RecordRun(p, m, h, t);
      && Inv(n, k) && Moves(p, m, h, n, k, r)
      && |StackOf(n, t)| == |StackOf(m, t)| && StackOf(n, t)[..|Below(m, t)|] == Below(m, t)
  {
    var chain := h.roots[r].chain;
    assert RootOk(m, h, r) && LinkOk(m, h, r, |chain| - 1);
    var c := chain[|chain| - 2];
    ReturnMoves(p, m, h, t, f, r, v, c);
    var o := ReturnStep(p, m, h, t, f, r, v, c);
    ReturnIsReturned(p, m, t, f, v, c, o);
    assert StackOf(Returned(p, o, t, f, c, v), t) == Below(m, t) + [c];
  }

  // ---- Executions driven on -------------------------------------------------------------------------

  /** Between `x` and `y` only root `r` has changed, and roots may have been added. */
  ghost predicate OnlyRoot<C, V>(x: Execution<C, V>, y: Execution<C, V>, r: Id) {
    && Shaped(x) && Shaped(y) && Inv(Last(x), Past(x)) && Inv(Last(y), Past(y))
    && OthersSame(Last(x), Past(x), Last(y), Past(y), r)
  }

  /** Root `r` waits for a completion, at `th`. */
  ghost predicate Waiting<C, V>(m: Machine<C, V>, h: History<C, V>, r: Id, th: Thread<C, V>) {
    && Inv(m, h) && r in h.roots && h.roots[r].chain != [] && h.roots[r].place.Parked? && h.roots[r].result.None?
    && ThreadOf(m, h, r) == th && LeafOf(h, r) in m.pending
  }

  lemma StepOn<C(!new), V(!new)>(p: Program<C, V>, x: Execution<C, V>, t: ThreadId, below: seq<Id>, r: Id, th: Thread<C, V>)
    returns (y: Execution<C, V>)
    requires Executes(p, x) && At(Last(x), Past(x), t, below, r, th) && Tick(p, th).Next? && !p.code(th.ctrl).Spawn?
    ensures Executes(p, y) && x.events <= y.events && At(Last(y), Past(y), t, below, r, Tick(p, th).th)
    ensures Did(Past(x), Past(y), r, [], Tick(p, th).log) && OnlyRoot(x, y, r)
  {
    var m, h := Last(x), Past(x);
    EndsGood(p, x);
    ActionMoves(p, m, h, t, below, r, th);
    LeafActs(p, m, h, t, below, r, th);
    MovedOn(p, m, h, Perform(p, m, t).value, RecordRun(p, m, h, t), t, below, r, th);
    y := Longer(p, x, Run(t));
  }

  lemma MovedOn<C(!new), V(!new)>(
    p: Program<C, V>, m: Machine<C, V>, h: History<C, V>, n: Machine<C, V>, k: History<C, V>, t: ThreadId, below: seq<Id>,
    r: Id, th: Thread<C, V>)
    requires At(m, h, t, below, r, th) && Inv(n, k) && Moves(p, m, h, n, k, r) && Tick(p, th).Next?
    requires |StackOf(n, t)| == |below| + 1 && StackOf(n, t)[..|below|] == below && k.roots[r].place == OnStack(t, |below|)
    ensures At(n, k, t, below, r, Tick(p, th).th) && Did(h, k, r, [], Tick(p, th).log)
  {
    TopIsLeaf(n, k, t, below, r);
    assert h.roots[r].log + k.roots[r].log[|h.roots[r].log|..] == k.roots[r].log;
    assert h.roots[r].io + [] == h.roots[r].io;
  }

  /** A running root's leaf is on the stack, and if the rest of the stack is what it was, on top. */
  lemma TopIsLeaf<C, V>(n: Machine<C, V>, k: History<C, V>, t: ThreadId, below: seq<Id>, r: Id)
    requires Inv(n, k) && StackOf(n, t) != [] && |StackOf(n, t)| == |below| + 1 && StackOf(n, t)[..|below|] == below
    requires r in k.roots && k.roots[r].chain != [] && k.roots[r].place == OnStack(t, |below|)
    ensures StackOf(n, t) == below + [LeafOf(k, r)]
  {
    var leaf := LeafOf(k, r);
    assert RootOk(n, k, r) && LinkOk(n, k, r, |k.roots[r].chain| - 1);
    assert FrameOk(n, k, leaf);
  }

  lemma ParkOn<C(!new), V(!new)>(p: Program<C, V>, x: Execution<C, V>, t: ThreadId, below: seq<Id>, r: Id, th: Thread<C, V>)
    returns (y: Execution<C, V>)
    requires Executes(p, x) && At(Last(x), Past(x), t, below, r, th) && Tick(p, th).Wait?
    ensures Executes(p, y) && x.events <= y.events && Waiting(Last(y), Past(y), r, th) && StackOf(Last(y), t) == below
    ensures Did(Past(x), Past(y), r, [], []) && Past(y).roots[r].place == Parked(Tick(p, th).request) && OnlyRoot(x, y, r)
  {
    var m, h, f, q := Last(x), Past(x), LeafOf(Past(x), r), Tick(p, th).request;
    EndsGood(p, x);
    LeafActs(p, m, h, t, below, r, th);
    assert Perform(p, m, t) == Ok(AwaitCallback(m, t, f, q));
    assert RecordRun(p, m, h, t) == RecordPark(h, r, q);
    Parks(m, h, t, f, r, th, q);
    y := Longer(p, x, Run(t));
  }

  lemma Parks<C, V>(m: Machine<C, V>, h: History<C, V>, t: ThreadId, f: Id, r: Id, th: Thread<C, V>, q: V)
    requires Inv(m, h) && f in h.home && RunsOn(m, h, t, f, r) && h.roots[r].chain != [] && LeafOf(h, r) == f
    requires ThreadOf(m, h, r) == th
    ensures var n, k := AwaitCallback(m, t, f, q), RecordPark(h, r, q);
      && Waiting(n, k, r, th) && StackOf(n, t) == Below(m, t) && Did(h, k, r, [], []) && OthersSame(m, h, n, k, r)
  {
    ParkThread(m, h, t, f, r, q);
    Others(m, h, AwaitCallback(m, t, f, q), RecordPark(h, r, q), {f}, f, r);
    assert RootOk(m, h, r);
    assert h.roots[r].log + [] == h.roots[r].log && h.roots[r].io + [] == h.roots[r].io;
  }

  lemma AnswerOn<C(!new), V(!new)>(p: Program<C, V>, x: Execution<C, V>, t: ThreadId, r: Id, th: Thread<C, V>, v: V)
    returns (y: Execution<C, V>)
    requires Executes(p, x) && Waiting(Last(x), Past(x), r, th) && StackOf(Last(x), t) == []
    requires Tick(p, th).Wait? && Past(x).roots[r].place == Parked(Tick(p, th).request)
    ensures Executes(p, y) && x.events <= y.events && At(Last(y), Past(y), t, [], r, Answer(p, th, v))
    ensures Did(Past(x), Past(y), r, [v], [Io(Tick(p, th).request, v)]) && OnlyRoot(x, y, r)
  {
    var m, h, f, q := Last(x), Past(x), LeafOf(Past(x), r), Tick(p, th).request;
    EndsGood(p, x);
    Answers(p, m, h, t, r, th, q, v);
    y := Longer(p, x, Finish(t, f, v));
    assert Past(y) == RecordAnswer(h, r, t, q, v);
  }

  lemma Answers<C, V>(
    p: Program<C, V>, m: Machine<C, V>, h: History<C, V>, t: ThreadId, r: Id, th: Thread<C, V>, q: V, v: V)
    requires Waiting(m, h, r, th) && StackOf(m, t) == [] && h.roots[r].place == Parked(q)
    ensures var f := LeafOf(h, r);
      && f in m.frames && f in h.home && h.home[f] == r && m.frames[f].point == AtCallback(q)
      && Complete(p, m, t, f, v) == Ok(Answered(p, m, t, f, v))
      && var n, k := Answered(p, m, t, f, v), RecordAnswer(h, r, t, q, v);
      && At(n, k, t, [], r, Answer(p, th, v)) && Did(h, k, r, [v], [Io(q, v)]) && OthersSame(m, h, n, k, r)
  {
    var f := LeafOf(h, r);
    LeafWaits(m, h, r, q);
    CompleteIsAnswered(p, m, t, f, v);
    AnswerThread(p, m, h, t, f, r, q, v);
    Others(m, h, Answered(p, m, t, f, v), RecordAnswer(h, r, t, q, v), {f}, f, r);
  }

  lemma LeafWaits<C, V>(m: Machine<C, V>, h: History<C, V>, r: Id, q: V)
    requires Inv(m, h) && r in h.roots && h.roots[r].chain != [] && LeafOf(h, r) in m.pending && h.roots[r].place == Parked(q)
    ensures var f := LeafOf(h, r); f in m.frames && f in h.home && h.home[f] == r && m.frames[f].point == AtCallback(q)
  {
    assert RootOk(m, h, r) && LinkOk(m, h, r, |h.roots[r].chain| - 1) && FrameOk(m, h, LeafOf(h, r));
  }

  lemma EndOn<C(!new), V(!new)>(p: Program<C, V>, x: Execution<C, V>, t: ThreadId, below: seq<Id>, r: Id, th: Thread<C, V>)
    returns (y: Execution<C, V>)
    requires Executes(p, x) && At(Last(x), Past(x), t, below, r, th) && Tick(p, th).End?
    ensures Executes(p, y) && x.events <= y.events && StackOf(Last(y), t) == below
    ensures Did(Past(x), Past(y), r, [], []) && Past(y).roots[r].result == Some(Tick(p, th).value) && OnlyRoot(x, y, r)
  {
    var m, h, f, v := Last(x), Past(x), LeafOf(Past(x), r), Tick(p, th).value;
    EndsGood(p, x);
    LeafActs(p, m, h, t, below, r, th);
    assert RootOk(m, h, r) && LinkOk(m, h, r, |h.roots[r].chain| - 1);
    assert |h.roots[r].chain| == 1 && m.frames[f].caller == None;
    EndOthers(p, m, h, t, f, r, v);
    assert RecordRun(p, m, h, t) == RecordFinish(h, r, v);
    y := Longer(p, x, Run(t));
    assert h.roots[r].log + [] == h.roots[r].log && h.roots[r].io + [] == h.roots[r].io;
  }

  lemma EndOthers<C(!new), V(!new)>(p: Program<C, V>, m: Machine<C, V>, h: History<C, V>, t: ThreadId, f: Id, r: Id, v: V)
    requires Acting(p, m, h, t, f, r) && Good(p, m, h) && p.code(m.frames[f].ctrl) == Return(v) && m.frames[f].caller == None
    ensures ReturnValue(p, m, t, f, v).Ok? && StackOf(ReturnValue(p, m, t, f, v).value, t) == Below(m, t)
    ensures Inv(ReturnValue(p, m, t, f, v).value, RecordFinish(h, r, v))
    ensures OthersSame(m, h, ReturnValue(p, m, t, f, v).value, RecordFinish(h, r, v), r)
  {
    var all := m.frames[f].slots.Keys;
    ActingThread(p, m, h, t, f, r);
    DropIsClean(m, h, f, all);
    var o := DropSlots(m, f, all).value;
    DropStep(m, h, t, f, r, all, o);
    assert o.frames[f].slots == map[];
    EndStep(o, h, t, f, v);
    OthersTwice(m, h, o, h, Ended(o, t, f), RecordFinish(h, r, v), r);
    EndIsEnded(p, m, t, f, v, o);
  }

  lemma SpawnOn<C(!new), V(!new)>(p: Program<C, V>, x: Execution<C, V>, t: ThreadId, below: seq<Id>, r: Id, th: Thread<C, V>)
    returns (y: Execution<C, V>, g: Id)
    requires Executes(p, x) && At(Last(x), Past(x), t, below, r, th) && Tick(p, th).Next? && p.code(th.ctrl).Spawn?
    ensures Executes(p, y) && x.events <= y.events && Inv(Last(y), Past(y)) && |Tick(p, th).log| == 1 && Tick(p, th).log[0].Spawned?
    ensures g !in Past(x).roots && At(Last(y), Past(y), t, below + [LeafOf(Past(x), r)], g, Call(Tick(p, th).log[0].body))
    ensures Past(y).roots[g].io == [] && Past(y).roots[g].log == []
    ensures r in Past(y).roots && Past(y).roots[r].chain == Past(x).roots[r].chain && ThreadOf(Last(y), Past(y), r) == Tick(p, th).th
    ensures Did(Past(x), Past(y), r, [], Tick(p, th).log) && OnlyRoot(x, y, r)
  {
    var m, h, f := Last(x), Past(x), LeafOf(Past(x), r);
    EndsGood(p, x);
    LeafActs(p, m, h, t, below, r, th);
    ActingThread(p, m, h, t, f, r);
    var s, next := p.code(th.ctrl).slot, p.code(th.ctrl).next;
    PerformSpawns(p, m, t, f, s, next);
    g := m.frames[f].slots[s];
    assert RecordRun(p, m, h, t) == RecordSpawn(m, h, t, f, s);
    Splits(m, h, t, below, r, s, next, g);
    y := Longer(p, x, Run(t));
  }

  lemma Splits<C, V>(m: Machine<C, V>, h: History<C, V>, t: ThreadId, below: seq<Id>, r: Id, s: Slot, next: C, g: Id)
    requires Inv(m, h) && r in h.roots && h.roots[r].chain != [] && StackOf(m, t) == below + [LeafOf(h, r)]
    requires var f := LeafOf(h, r); f in h.home && RunsOn(m, h, t, f, r) && s in m.frames[f].slots && m.frames[f].slots[s] == g
    requires g in m.frames && m.frames[g].point.Initial?
    ensures var f := LeafOf(h, r);
      var n, k, th := Detached(SetCtrl(m, f, next), t, f, s, g), RecordSpawn(m, h, t, f, s), ThreadOf(m, h, r);
      && g !in h.roots && At(n, k, t, below + [f], g, Call(m.frames[g].ctrl)) && k.roots[g].io == [] && k.roots[g].log == []
      && r in k.roots && k.roots[r].chain == h.roots[r].chain
      && ThreadOf(n, k, r) == th.(ctrl := next, env := th.env - {s})
      && Did(h, k, r, [], [Direct.Event.Spawned(m.frames[g].ctrl)]) && OthersSame(m, h, n, k, r)
  {
    SpawnStep(m, h, t, LeafOf(h, r), r, s, next, g);
    assert h.roots[r].io + [] == h.roots[r].io;
  }

  // ---- The promise ----------------------------------------------------------------------------------

  /** Evaluation of `body` on `io` comes to `o`, finished or waiting, and so, without an answer, does every body it
      spawns, and those they spawn, `n` deep. A spawned body runs on the spawner's stack until it first stops, so
      that a spawner whose spawned body never does would not go on. */
  ghost predicate Comes<C(!new), V(!new)>(
    p: Program<C, V>, body: C, io: seq<V>, log: seq<Direct.Event<C, V>>, o: Outcome<V>, n: nat)
    decreases n, 2
  {
    Evaluates(p, body, io, Result(o, log, [])) && (o.Finished? || o.Blocked?) && Nested(p, log, n)
  }

  ghost predicate Nested<C(!new), V(!new)>(p: Program<C, V>, log: seq<Direct.Event<C, V>>, n: nat)
    decreases n, 1
  {
    forall i :: 0 <= i < |log| && log[i].Spawned? ==> n > 0 && Rests(p, log[i].body, n - 1)
  }

  ghost predicate Rests<C(!new), V(!new)>(p: Program<C, V>, body: C, n: nat)
    decreases n, 3
  {
    exists log, o :: Comes(p, body, [], log, o, n)
  }

  lemma OnlyRootTwice<C, V>(x: Execution<C, V>, y: Execution<C, V>, z: Execution<C, V>, r: Id)
    requires OnlyRoot(x, y, r) && OnlyRoot(y, z, r)
    ensures OnlyRoot(x, z, r)
  {
    OthersTwice(Last(x), Past(x), Last(y), Past(y), Last(z), Past(z), r);
  }

  lemma DidTwice<C, V>(
    h: History<C, V>, k: History<C, V>, l: History<C, V>, r: Id, io: seq<V>, log: seq<Direct.Event<C, V>>,
    more: seq<V>, rest: seq<Direct.Event<C, V>>)
    requires Did(h, k, r, io, log) && Did(k, l, r, more, rest)
    ensures Did(h, l, r, io + more, log + rest)
  {
  }

  /** Nothing has happened yet. */
  lemma NothingDone<C(!new), V(!new)>(p: Program<C, V>, x: Execution<C, V>, r: Id)
    requires Executes(p, x) && r in Past(x).roots
    ensures Did(Past(x), Past(x), r, [], []) && OnlyRoot(x, x, r)
  {
    EndsGood(p, x);
    var root := Past(x).roots[r];
    assert root.io + [] == root.io && root.log + [] == root.log;
    forall q | q in Past(x).roots && q != r ensures SameMeaning(Last(x), Past(x), Last(x), Past(x), q) {}
  }

  /** A spawned root ran and stopped: to the others, its spawner among them, nothing has happened. */
  lemma ChildDone<C, V>(x: Execution<C, V>, y: Execution<C, V>, z: Execution<C, V>, r: Id, g: Id)
    requires OnlyRoot(x, y, r) && OnlyRoot(y, z, g) && g !in Past(x).roots && r in Past(x).roots && r in Past(y).roots
    requires Past(y).roots[r].chain != []
    ensures OnlyRoot(x, z, r) && r in Past(z).roots && Past(z).roots[r] == Past(y).roots[r]
    ensures ThreadOf(Last(z), Past(z), r) == ThreadOf(Last(y), Past(y), r)
  {
    assert SameMeaning(Last(y), Past(y), Last(z), Past(z), r);
    forall q | q in Past(x).roots && q != r ensures SameMeaning(Last(x), Past(x), Last(z), Past(z), q) {
      assert SameMeaning(Last(x), Past(x), Last(y), Past(y), q);
      assert SameMeaning(Last(y), Past(y), Last(z), Past(z), q);
    }
  }

  /** The machine can be driven along any steps of a thread whose spawned bodies rest. */
  lemma {:induction false} Drive<C(!new), V(!new)>(
    p: Program<C, V>, x: Execution<C, V>, t: ThreadId, below: seq<Id>, r: Id, th: Thread<C, V>, steps: seq<Step<V>>,
    at: Course<C, V>, n: nat) returns (y: Execution<C, V>)
    requires Executes(p, x) && At(Last(x), Past(x), t, below, r, th)
    requires FollowFrom(p, th, steps) == Some(at) && (at.io != [] ==> below == []) && Nested(p, at.log, n)
    ensures Executes(p, y) && x.events <= y.events && At(Last(y), Past(y), t, below, r, at.th)
    ensures Did(Past(x), Past(y), r, at.io, at.log) && OnlyRoot(x, y, r)
    decreases n, 1, |steps|
  {
    NothingDone(p, x, r);
    if steps == [] {
      y := x;
    } else {
      match Tick(p, th)
      case Next(next, log) =>
        var rest := FollowFrom(p, next, steps[1..]).value;
        assert at.log == log + rest.log;
        NestedParts(p, log, rest.log, n);
        var z: Execution<C, V>;
        if p.code(th.ctrl).Spawn? { z := DriveSpawn(p, x, t, below, r, th, n); } else { z := StepOn(p, x, t, below, r, th); }
        y := Drive(p, z, t, below, r, next, steps[1..], rest, n);
        DidTwice(Past(x), Past(z), Past(y), r, [], log, rest.io, rest.log);
        assert [] + rest.io == rest.io;
        OnlyRootTwice(x, z, y, r);
      case Wait(q) =>
        var v := steps[0].answer;
        var next := Answer(p, th, v);
        var rest := FollowFrom(p, next, steps[1..]).value;
        NestedParts(p, [Io(q, v)], rest.log, n);
        var z := TellOn(p, x, t, r, th, v);
        y := Drive(p, z, t, [], r, next, steps[1..], rest, n);
        DidTwice(Past(x), Past(z), Past(y), r, [v], [Io(q, v)], rest.io, rest.log);
        OnlyRootTwice(x, z, y, r);
    }
  }

  /** Wait, and be answered. */
  lemma TellOn<C(!new), V(!new)>(p: Program<C, V>, x: Execution<C, V>, t: ThreadId, r: Id, th: Thread<C, V>, v: V)
    returns (z: Execution<C, V>)
    requires Executes(p, x) && At(Last(x), Past(x), t, [], r, th) && Tick(p, th).Wait?
    ensures Executes(p, z) && x.events <= z.events && At(Last(z), Past(z), t, [], r, Answer(p, th, v))
    ensures Did(Past(x), Past(z), r, [v], [Io(Tick(p, th).request, v)]) && OnlyRoot(x, z, r)
  {
    var event := Direct.Event<C, V>.Io(Tick(p, th).request, v);
    var w := ParkOn(p, x, t, [], r, th);
    z := AnswerOn(p, w, t, r, th, v);
    DidTwice(Past(x), Past(w), Past(z), r, [], [], [v], [event]);
    assert [] + [v] == [v] && [] + [event] == [event];
    OnlyRootTwice(x, w, z, r);
  }

  lemma NestedParts<C(!new), V(!new)>(p: Program<C, V>, a: seq<Direct.Event<C, V>>, b: seq<Direct.Event<C, V>>, n: nat)
    requires Nested(p, a + b, n)
    ensures Nested(p, a, n) && Nested(p, b, n)
  {
    assert forall i :: 0 <= i < |a| ==> (a + b)[i] == a[i];
    assert forall i :: 0 <= i < |b| ==> (a + b)[|a| + i] == b[i];
  }

  /** spawn, and the spawned body until it rests. */
  lemma {:induction false} DriveSpawn<C(!new), V(!new)>(
    p: Program<C, V>, x: Execution<C, V>, t: ThreadId, below: seq<Id>, r: Id, th: Thread<C, V>, n: nat)
    returns (z: Execution<C, V>)
    requires Executes(p, x) && At(Last(x), Past(x), t, below, r, th) && Tick(p, th).Next? && p.code(th.ctrl).Spawn?
    requires Nested(p, Tick(p, th).log, n)
    ensures Executes(p, z) && x.events <= z.events && At(Last(z), Past(z), t, below, r, Tick(p, th).th)
    ensures Did(Past(x), Past(z), r, [], Tick(p, th).log) && OnlyRoot(x, z, r)
    decreases n, 1, 0
  {
    var y, g := SpawnOn(p, x, t, below, r, th);
    var body := Tick(p, th).log[0].body;
    assert Rests(p, body, n - 1);
    var log, o :| Comes(p, body, [], log, o, n - 1);
    z := DriveToRest(p, y, t, below + [LeafOf(Past(x), r)], g, body, [], log, o, n - 1);
    ChildDone(x, y, z, r, g);
  }

  /** A root that has just started, driven until it finishes or waits. */
  lemma {:induction false} DriveToRest<C(!new), V(!new)>(
    p: Program<C, V>, x: Execution<C, V>, t: ThreadId, below: seq<Id>, r: Id, body: C, io: seq<V>,
    log: seq<Direct.Event<C, V>>, o: Outcome<V>, n: nat) returns (y: Execution<C, V>)
    requires Executes(p, x) && At(Last(x), Past(x), t, below, r, Call(body)) && Comes(p, body, io, log, o, n)
    requires io != [] ==> below == []
    ensures Executes(p, y) && x.events <= y.events && StackOf(Last(y), t) == below
    ensures Did(Past(x), Past(y), r, io, log) && OnlyRoot(x, y, r)
    ensures o.Finished? ==> Past(y).roots[r].result == Some(o.value)
    ensures o.Blocked? ==> Past(y).roots[r].place == Parked(o.request)
    decreases n, 2, 0
  {
    var th := Call<C, V>(body);
    var fuel: nat :| Eval(p, fuel, body, map[], io) == Result(o, log, []);
    var steps := EvalLeads(p, fuel, th, io);
    var at := FollowFrom(p, th, steps).value;
    assert at.io + [] == at.io;
    var z := Drive(p, x, t, below, r, th, steps, at, n);
    if o.Finished? {
      y := EndOn(p, z, t, below, r, at.th);
    } else {
      y := ParkOn(p, z, t, below, r, at.th);
    }
    DidTwice(Past(x), Past(z), Past(y), r, io, log, [], []);
    assert io + [] == io && log + [] == log;
    OnlyRootTwice(x, z, y, r);
  }

  /** Whatever direct-style evaluation of a body promises on some answers, some run delivers: launched on an idle
      machine, and given these answers as it asks for them, the body comes to the same result, or waits for the same
      request, with the same events. */
  lemma Delivers<C(!new), V(!new)>(
    p: Program<C, V>, t: ThreadId, body: C, io: seq<V>, log: seq<Direct.Event<C, V>>, o: Outcome<V>, n: nat)
    returns (x: Execution<C, V>)
    requires Comes(p, body, io, log, o, n)
    ensures Executes(p, x) && [Begin(t, body)] <= x.events && StackOf(Last(x), t) == []
    ensures 0 in Past(x).roots && var root := Past(x).roots[0];
      && root.body == body && root.io == io && root.log == log
      && (o.Finished? ==> root.result == Some(o.value))
      && (o.Blocked? ==> root.place == Parked(o.request))
  {
    var nothing: Execution<C, V> := Execution([], [Empty()], [NoHistory()]);
    var start := Longer(p, nothing, Begin(t, body));
    Launched0(p, nothing, start, t, body);
    x := DriveToRest(p, start, t, [], 0, body, io, log, o, n);
    assert [] + io == io && [] + log == log;
  }

  lemma Launched0<C(!new), V(!new)>(p: Program<C, V>, x: Execution<C, V>, y: Execution<C, V>, t: ThreadId, body: C)
    requires Executes(p, y) && y.events == [Begin(t, body)] && Last(y) == Launched(Empty(), t, body)
    requires Past(y) == NewRoot(NoHistory(), 0, body, t, 0)
    ensures At(Last(y), Past(y), t, [], 0, Call(body))
  {
    EndsGood(p, y);
    FreshThread(Last(y), Past(y), 0);
    assert [] + [0] == [0];
  }
}

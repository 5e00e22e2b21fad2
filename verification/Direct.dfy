/** Coroutine programs and their direct-style meaning.

    A coroutine body is an arbitrary automaton: `code` says what a control state does next and
    `resume` gives the control state that receives the value of a co_await.  Loops, recursion and
    branching on awaited values are all expressible, because both are arbitrary functions.

    `Eval` is the reference semantics: plain recursive evaluation in which a co_await is an ordinary
    call and an external operation reads the next element of a list.  `Thread` is the same evaluation
    with its call stack made explicit; `Reaches` relates the two. */
module Direct {
  import opened Prelude

  type Slot = nat

  /** What a running coroutine does next.  Slots are its local Task variables. */
  datatype Action<C, V> =
    | Make(slot: Slot, body: C, next: C)     // slot = f(...): a new frame, suspended initially
    | Move(dst: Slot, src: Slot, next: C)    // dst = std::move(src)
    | Drop(slot: Slot, next: C)              // end of the Task's scope
    | Spawn(slot: Slot, next: C)             // spawn(std::move(slot))
    | Await(slot: Slot)                      // co_await slot
    | Callback(request: V)                   // co_await AsioCallbackAwaiter{...}
    | Return(value: V)                       // co_return value

  datatype Program<!C, !V> = Program(code: C -> Action<C, V>, resume: (C, V) -> C)

  /** What the code relies on its callers never to do. */
  datatype Misuse =
    | AwaitEmpty       // co_await of a Task without a frame: only an assert stands in the way
    | Overwrite        // move assignment over a Task that still has a frame: the frame leaks
    | TakeEmpty        // take() of an empty Task: std::terminate
    | SpawnFinished    // spawn of a Task that was already awaited: resumes a finished coroutine

  /** A Task seen from direct style: a call not made yet, or the value it returned. */
  datatype Lazy<C, V> = Thunk(body: C) | Value(value: V)

  type Env<C, V> = map<Slot, Lazy<C, V>>

  datatype Event<C, V> =
    | Joined(value: V)                // a co_await of a Task produced this value
    | Io(request: V, answer: V)       // a co_await of an external operation produced `answer`
    | Spawned(body: C)                // a detached root was started

  datatype Outcome<V> = OutOfFuel | Stuck(misuse: Misuse) | Blocked(request: V) | Finished(value: V)

  /** `log` is everything that happened, `rest` the answers that were not consumed. */
  datatype Result<C, V> = Result(outcome: Outcome<V>, log: seq<Event<C, V>>, rest: seq<V>)

  function Prepend<C, V>(log: seq<Event<C, V>>, r: Result<C, V>): Result<C, V> {
    Result(r.outcome, log + r.log, r.rest)
  }

  lemma PrependTwice<C, V>(a: seq<Event<C, V>>, b: seq<Event<C, V>>, r: Result<C, V>)
    ensures Prepend(a, Prepend(b, r)) == Prepend(a + b, r)
  {
    assert a + (b + r.log) == (a + b) + r.log;
  }

  /** Direct-style evaluation of a body on the answers `io`. */
  function Eval<C, V>(p: Program<C, V>, fuel: nat, c: C, env: Env<C, V>, io: seq<V>): Result<C, V> {
    if fuel == 0 then Result(OutOfFuel, [], io) else
    match p.code(c)
    case Return(v) => Result(Finished(v), [], io)
    case Make(s, body, next) =>
      if s in env then Result(Stuck(Overwrite), [], io)
      else Eval(p, fuel - 1, next, env[s := Thunk(body)], io)
    case Move(d, s, next) =>
      if d == s then Eval(p, fuel - 1, next, env, io)
      else if d in env then Result(Stuck(Overwrite), [], io)
      else if s !in env then Eval(p, fuel - 1, next, env, io)
      else Eval(p, fuel - 1, next, (env - {s})[d := env[s]], io)
    case Drop(s, next) => Eval(p, fuel - 1, next, env - {s}, io)
    case Spawn(s, next) =>
      if s !in env then Result(Stuck(TakeEmpty), [], io)
      else if env[s].Value? then Result(Stuck(SpawnFinished), [], io)
      else Prepend([Spawned(env[s].body)], Eval(p, fuel - 1, next, env - {s}, io))
    case Await(s) =>
      if s !in env then Result(Stuck(AwaitEmpty), [], io)
      else if env[s].Value? then
        Prepend([Joined(env[s].value)], Eval(p, fuel - 1, p.resume(c, env[s].value), env, io))
      else
        var call := Eval(p, fuel - 1, env[s].body, map[], io);
        if !call.outcome.Finished? then call
        else
          var v := call.outcome.value;
          Prepend(call.log + [Joined(v)],
                  Eval(p, fuel - 1, p.resume(c, v), (env - {s})[s := Value(v)], call.rest))
    case Callback(q) =>
      if io == [] then Result(Blocked(q), [], io)
      else Prepend([Io(q, io[0])], Eval(p, fuel - 1, p.resume(c, io[0]), env, io[1..]))
  }

  /** A call that is waiting for the Task in `slot`; `env` is without that slot. */
  datatype Kont<C, V> = Kont(ctrl: C, env: Env<C, V>, slot: Slot)

  datatype Thread<C, V> = Thread(ctrl: C, env: Env<C, V>, konts: seq<Kont<C, V>>)

  function Call<C, V>(body: C): Thread<C, V> { Thread(body, map[], []) }

  function Pop<C, V>(p: Program<C, V>, th: Thread<C, V>, v: V): Thread<C, V>
    requires th.konts != []
  {
    var n := |th.konts| - 1;
    var k := th.konts[n];
    Thread(p.resume(k.ctrl, v), k.env[k.slot := Value(v)], th.konts[..n])
  }

  /** One move of a thread that needs no answer from outside. */
  datatype Ticked<C, V> =
    | Next(th: Thread<C, V>, log: seq<Event<C, V>>)
    | Wait(request: V)
    | End(value: V)
    | Fault(misuse: Misuse)

  function Tick<C, V>(p: Program<C, V>, th: Thread<C, V>): Ticked<C, V> {
    var env := th.env;
    match p.code(th.ctrl)
    case Return(v) =>
      if th.konts == [] then End(v) else Next(Pop(p, th, v), [Joined(v)])
    case Make(s, body, next) =>
      if s in env then Fault(Overwrite) else Next(th.(ctrl := next, env := env[s := Thunk(body)]), [])
    case Move(d, s, next) =>
      if d == s then Next(th.(ctrl := next), [])
      else if d in env then Fault(Overwrite)
      else if s !in env then Next(th.(ctrl := next), [])
      else Next(th.(ctrl := next, env := (env - {s})[d := env[s]]), [])
    case Drop(s, next) => Next(th.(ctrl := next, env := env - {s}), [])
    case Spawn(s, next) =>
      if s !in env then Fault(TakeEmpty)
      else if env[s].Value? then Fault(SpawnFinished)
      else Next(th.(ctrl := next, env := env - {s}), [Spawned(env[s].body)])
    case Await(s) =>
      if s !in env then Fault(AwaitEmpty)
      else if env[s].Value? then
        Next(th.(ctrl := p.resume(th.ctrl, env[s].value)), [Joined(env[s].value)])
      else Next(Thread(env[s].body, map[], th.konts + [Kont(th.ctrl, env - {s}, s)]), [])
    case Callback(q) => Wait(q)
  }

  function Answer<C, V>(p: Program<C, V>, th: Thread<C, V>, v: V): Thread<C, V> {
    th.(ctrl := p.resume(th.ctrl, v))
  }

  /** Evaluates the innermost call, then returns into its callers one by one. */
  function RunStack<C, V>(p: Program<C, V>, fuel: nat, th: Thread<C, V>, io: seq<V>): Result<C, V>
    decreases |th.konts|
  {
    var r := Eval(p, fuel, th.ctrl, th.env, io);
    if !r.outcome.Finished? || th.konts == [] then r
    else
      var v := r.outcome.value;
      Prepend(r.log + [Joined(v)], RunStack(p, fuel, Pop(p, th, v), r.rest))
  }

  ghost predicate Settles<C, V>(p: Program<C, V>, th: Thread<C, V>, io: seq<V>, r: Result<C, V>) {
    !r.outcome.OutOfFuel? && exists fuel: nat :: RunStack(p, fuel, th, io) == r
  }

  /** Direct-style evaluation of `body`, given enough fuel, ends in `r`. */
  ghost predicate Evaluates<C, V>(p: Program<C, V>, body: C, io: seq<V>, r: Result<C, V>) {
    !r.outcome.OutOfFuel? && exists fuel: nat :: Eval(p, fuel, body, map[], io) == r
  }

  /** A step of a thread: a move of its own, or an answer it was waiting for. */
  datatype Step<V> = Silent | Told(answer: V)

  /** Where a call has come to: its thread, the answers it consumed and what it logged. */
  datatype Course<C, V> = Course(th: Thread<C, V>, io: seq<V>, log: seq<Event<C, V>>)

  function Follow<C, V>(p: Program<C, V>, body: C, steps: seq<Step<V>>): Option<Course<C, V>> {
    if steps == [] then Some(Course(Call(body), [], [])) else
    match Follow(p, body, steps[..|steps| - 1])
    case None => None
    case Some(at) =>
      match (steps[|steps| - 1], Tick(p, at.th))
      case (Silent, Next(th, log)) => Some(Course(th, at.io, at.log + log))
      case (Told(v), Wait(q)) => Some(Course(Answer(p, at.th, v), at.io + [v], at.log + [Io(q, v)]))
      case _ => None
  }

  ghost predicate Arrives<C(!new), V(!new)>(p: Program<C, V>, body: C, io: seq<V>, log: seq<Event<C, V>>, th: Thread<C, V>) {
    exists steps: seq<Step<V>> :: Follow(p, body, steps) == Some(Course(th, io, log))
  }

  /** A call of `body` that consumed `io` and logged `log` has come to `th`: whatever `th` goes on
      to do on further answers is what direct-style evaluation of `body` does on all of them. */
  ghost predicate Reaches<C(!new), V(!new)>(
    p: Program<C, V>, body: C, io: seq<V>, log: seq<Event<C, V>>, th: Thread<C, V>)
  {
    forall more: seq<V>, r: Result<C, V> :: Settles(p, th, more, r) ==>
      Evaluates(p, body, io + more, Prepend(log, r))
  }

  lemma {:induction false} EvalFuel<C, V>(
    p: Program<C, V>, fuel: nat, more: nat, c: C, env: Env<C, V>, io: seq<V>)
    requires fuel <= more
    requires !Eval(p, fuel, c, env, io).outcome.OutOfFuel?
    ensures Eval(p, more, c, env, io) == Eval(p, fuel, c, env, io)
    decreases fuel
  {
    match p.code(c)
    case Return(v) =>
    case Make(s, body, next) =>
      if s !in env { EvalFuel(p, fuel - 1, more - 1, next, env[s := Thunk(body)], io); }
    case Move(d, s, next) =>
      if d == s || (d !in env && s !in env) {
        EvalFuel(p, fuel - 1, more - 1, next, env, io);
      } else if d !in env {
        EvalFuel(p, fuel - 1, more - 1, next, (env - {s})[d := env[s]], io);
      }
    case Drop(s, next) => EvalFuel(p, fuel - 1, more - 1, next, env - {s}, io);
    case Spawn(s, next) =>
      if s in env && env[s].Thunk? { EvalFuel(p, fuel - 1, more - 1, next, env - {s}, io); }
    case Await(s) =>
      if s in env {
        if env[s].Value? {
          EvalFuel(p, fuel - 1, more - 1, p.resume(c, env[s].value), env, io);
        } else {
          EvalFuel(p, fuel - 1, more - 1, env[s].body, map[], io);
          var call := Eval(p, fuel - 1, env[s].body, map[], io);
          if call.outcome.Finished? {
            var v := call.outcome.value;
            EvalFuel(p, fuel - 1, more - 1, p.resume(c, v), (env - {s})[s := Value(v)], call.rest);
          }
        }
      }
    case Callback(q) =>
      if io != [] { EvalFuel(p, fuel - 1, more - 1, p.resume(c, io[0]), env, io[1..]); }
  }

  /** Direct-style evaluation has at most one result. */
  lemma EvaluatesIsDeterministic<C, V>(p: Program<C, V>, body: C, io: seq<V>, r: Result<C, V>, q: Result<C, V>)
    requires Evaluates(p, body, io, r) && Evaluates(p, body, io, q)
    ensures r == q
  {
    var f: nat :| Eval(p, f, body, map[], io) == r;
    var g: nat :| Eval(p, g, body, map[], io) == q;
    EvalFuel(p, f, f + g, body, map[], io);
    EvalFuel(p, g, f + g, body, map[], io);
  }

  lemma {:induction false} StackFuel<C, V>(
    p: Program<C, V>, fuel: nat, more: nat, th: Thread<C, V>, io: seq<V>)
    requires fuel <= more
    requires !RunStack(p, fuel, th, io).outcome.OutOfFuel?
    ensures RunStack(p, more, th, io) == RunStack(p, fuel, th, io)
    decreases |th.konts|
  {
    EvalFuel(p, fuel, more, th.ctrl, th.env, io);
    var r := Eval(p, fuel, th.ctrl, th.env, io);
    if r.outcome.Finished? && th.konts != [] {
      StackFuel(p, fuel, more, Pop(p, th, r.outcome.value), r.rest);
    }
  }

  /** If one unit of fuel turns `th` into `next` at the top of the same stack, logging `log` and
      consuming `used`, then `th` settles whenever `next` does. */
  lemma SameStack<C, V>(
    p: Program<C, V>, fuel: nat, th: Thread<C, V>, next: Thread<C, V>,
    used: seq<V>, log: seq<Event<C, V>>, io: seq<V>)
    requires th.konts == next.konts
    requires Eval(p, fuel + 1, th.ctrl, th.env, used + io) == Prepend(log, Eval(p, fuel, next.ctrl, next.env, io))
    requires !RunStack(p, fuel, next, io).outcome.OutOfFuel?
    ensures RunStack(p, fuel + 1, th, used + io) == Prepend(log, RunStack(p, fuel, next, io))
  {
    var r := Eval(p, fuel, next.ctrl, next.env, io);
    if r.outcome.Finished? && th.konts != [] {
      var v := r.outcome.value;
      assert Pop(p, th, v) == Pop(p, next, v);
      StackFuel(p, fuel, fuel + 1, Pop(p, th, v), r.rest);
      var tail := RunStack(p, fuel, Pop(p, th, v), r.rest);
      PrependTwice(log, r.log + [Joined(v)], tail);
      assert (log + r.log) + [Joined(v)] == log + (r.log + [Joined(v)]);
    }
  }

  /** Pushing a call on the stack and evaluating it there is evaluating it in place. */
  lemma PushedCall<C, V>(p: Program<C, V>, fuel: nat, th: Thread<C, V>, s: Slot, io: seq<V>)
    requires p.code(th.ctrl) == Await(s) && s in th.env && th.env[s].Thunk?
    requires Tick(p, th).Next?
    requires !RunStack(p, fuel, Tick(p, th).th, io).outcome.OutOfFuel?
    ensures RunStack(p, fuel + 1, th, io) == RunStack(p, fuel, Tick(p, th).th, io)
  {
    var next := Tick(p, th).th;
    var call := Eval(p, fuel, th.env[s].body, map[], io);
    if call.outcome.Finished? {
      var v := call.outcome.value;
      var back := Pop(p, next, v);
      assert back == Thread(p.resume(th.ctrl, v), (th.env - {s})[s := Value(v)], th.konts);
      var r := Eval(p, fuel, back.ctrl, back.env, call.rest);
      var log := call.log + [Joined(v)];
      if r.outcome.Finished? && th.konts != [] {
        var w := r.outcome.value;
        assert Pop(p, back, w) == Pop(p, th, w);
        StackFuel(p, fuel, fuel + 1, Pop(p, th, w), r.rest);
        PrependTwice(log, r.log + [Joined(w)], RunStack(p, fuel, Pop(p, th, w), r.rest));
        assert (log + r.log) + [Joined(w)] == log + (r.log + [Joined(w)]);
      }
    }
  }

  lemma TickSettles<C, V>(p: Program<C, V>, th: Thread<C, V>, io: seq<V>, r: Result<C, V>)
    requires Tick(p, th).Next? && Settles(p, Tick(p, th).th, io, r)
    ensures Settles(p, th, io, Prepend(Tick(p, th).log, r))
  {
    var next, log := Tick(p, th).th, Tick(p, th).log;
    var fuel: nat :| RunStack(p, fuel, next, io) == r;
    assert [] + io == io;
    match p.code(th.ctrl)
    case Return(v) =>
      assert fuel != 0;
      assert [] + [Joined(v)] == log;
      assert RunStack(p, fuel, th, io) == Prepend(log, r);
    case Await(s) =>
      if th.env[s].Thunk? {
        PushedCall(p, fuel, th, s, io);
        assert Prepend([], r) == r;
        assert RunStack(p, fuel + 1, th, io) == Prepend(log, r);
      } else {
        SameStack(p, fuel, th, next, [], log, io);
        assert RunStack(p, fuel + 1, th, io) == Prepend(log, r);
      }
    case Callback(q) => assert false;
    case _ =>
      var e := Eval(p, fuel, next.ctrl, next.env, io);
      assert Prepend([], e) == e;
      SameStack(p, fuel, th, next, [], log, io);
      assert RunStack(p, fuel + 1, th, io) == Prepend(log, r);
  }

  /** A move of the thread keeps `Reaches`, with what it logged appended. */
  lemma TickReaches<C(!new), V(!new)>(
    p: Program<C, V>, body: C, io: seq<V>, log: seq<Event<C, V>>, th: Thread<C, V>)
    requires Reaches(p, body, io, log, th) && Tick(p, th).Next?
    ensures Reaches(p, body, io, log + Tick(p, th).log, Tick(p, th).th)
  {
    var next, step := Tick(p, th).th, Tick(p, th).log;
    forall more: seq<V>, r: Result<C, V> | Settles(p, next, more, r)
      ensures Evaluates(p, body, io + more, Prepend(log + step, r))
    {
      TickSettles(p, th, more, r);
      PrependTwice(log, step, r);
    }
  }

  /** So does an answer from outside. */
  lemma AnswerReaches<C(!new), V(!new)>(
    p: Program<C, V>, body: C, io: seq<V>, log: seq<Event<C, V>>, th: Thread<C, V>, v: V)
    requires Reaches(p, body, io, log, th) && Tick(p, th).Wait?
    ensures Reaches(p, body, io + [v], log + [Io(Tick(p, th).request, v)], Answer(p, th, v))
  {
    var next, step := Answer(p, th, v), [Io(Tick(p, th).request, v)];
    forall more: seq<V>, r: Result<C, V> | Settles(p, next, more, r)
      ensures Evaluates(p, body, (io + [v]) + more, Prepend(log + step, r))
    {
      var fuel: nat :| RunStack(p, fuel, next, more) == r;
      assert ([v] + more)[1..] == more;
      SameStack(p, fuel, th, next, [v], step, more);
      assert Settles(p, th, [v] + more, Prepend(step, r));
      assert (io + [v]) + more == io + ([v] + more);
      PrependTwice(log, step, r);
    }
  }

  lemma CallReaches<C(!new), V(!new)>(p: Program<C, V>, body: C)
    ensures Reaches(p, body, [], [], Call(body))
  {
    forall more: seq<V>, r: Result<C, V> | Settles(p, Call(body), more, r)
      ensures Evaluates(p, body, [] + more, Prepend([], r))
    {
      var fuel: nat :| RunStack(p, fuel, Call(body), more) == r;
      assert [] + more == more && Prepend([], r) == r;
      assert Eval(p, fuel, body, map[], more) == r;
    }
  }

  /** Where a thread stops, direct-style evaluation stops, in the same way and with the same log. */
  lemma StopReaches<C(!new), V(!new)>(
    p: Program<C, V>, body: C, io: seq<V>, log: seq<Event<C, V>>, th: Thread<C, V>)
    requires Reaches(p, body, io, log, th) && !Tick(p, th).Next?
    ensures Evaluates(p, body, io, Result(Stopped(Tick(p, th)), log, []))
  {
    var r := Result(Stopped(Tick(p, th)), [], []);
    assert RunStack(p, 1, th, []) == r;
    assert Settles(p, th, [], r);
    assert io + [] == io && Prepend(log, r) == Result(r.outcome, log, []);
  }

  function Stopped<C, V>(t: Ticked<C, V>): Outcome<V>
    requires !t.Next?
  {
    match t
    case Wait(q) => Blocked(q)
    case End(v) => Finished(v)
    case Fault(m) => Stuck(m)
  }

  // ---- Arriving -----------------------------------------------------------------------------------

  lemma CallArrives<C(!new), V(!new)>(p: Program<C, V>, body: C)
    ensures Arrives(p, body, [], [], Call(body))
  {
    assert Follow(p, body, []) == Some(Course(Call(body), [], []));
  }

  lemma TickArrives<C(!new), V(!new)>(p: Program<C, V>, body: C, io: seq<V>, log: seq<Event<C, V>>, th: Thread<C, V>)
    requires Arrives(p, body, io, log, th) && Tick(p, th).Next?
    ensures Arrives(p, body, io, log + Tick(p, th).log, Tick(p, th).th)
  {
    var steps: seq<Step<V>> :| Follow(p, body, steps) == Some(Course(th, io, log));
    assert (steps + [Silent])[..|steps|] == steps;
    assert Follow(p, body, steps + [Silent]) == Some(Course(Tick(p, th).th, io, log + Tick(p, th).log));
  }

  lemma AnswerArrives<C(!new), V(!new)>(p: Program<C, V>, body: C, io: seq<V>, log: seq<Event<C, V>>, th: Thread<C, V>, v: V)
    requires Arrives(p, body, io, log, th) && Tick(p, th).Wait?
    ensures Arrives(p, body, io + [v], log + [Io(Tick(p, th).request, v)], Answer(p, th, v))
  {
    var steps: seq<Step<V>> :| Follow(p, body, steps) == Some(Course(th, io, log));
    assert (steps + [Told(v)])[..|steps|] == steps;
    assert Follow(p, body, steps + [Told(v)]) ==
      Some(Course(Answer(p, th, v), io + [v], log + [Io(Tick(p, th).request, v)]));
  }

  /** Following a thread step by step is evaluating it in direct style. */
  lemma {:induction false} FollowReaches<C(!new), V(!new)>(p: Program<C, V>, body: C, steps: seq<Step<V>>)
    requires Follow(p, body, steps).Some?
    ensures var at := Follow(p, body, steps).value; Reaches(p, body, at.io, at.log, at.th)
  {
    if steps == [] {
      CallReaches(p, body);
    } else {
      var before := steps[..|steps| - 1];
      FollowReaches(p, body, before);
      var at := Follow(p, body, before).value;
      match steps[|steps| - 1]
      case Silent => TickReaches(p, body, at.io, at.log, at.th);
      case Told(v) => AnswerReaches(p, body, at.io, at.log, at.th, v);
    }
  }

  /** A thread that has stopped tells what direct-style evaluation on the same answers comes to. */
  lemma ArrivesEvaluates<C(!new), V(!new)>(
    p: Program<C, V>, body: C, io: seq<V>, log: seq<Event<C, V>>, th: Thread<C, V>)
    requires Arrives(p, body, io, log, th) && !Tick(p, th).Next?
    ensures Evaluates(p, body, io, Result(Stopped(Tick(p, th)), log, []))
  {
    var steps: seq<Step<V>> :| Follow(p, body, steps) == Some(Course(th, io, log));
    FollowReaches(p, body, steps);
    StopReaches(p, body, io, log, th);
  }
}

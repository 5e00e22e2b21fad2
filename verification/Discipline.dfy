/** A static discipline under which no run is ever misused. */
module Discipline {
  import opened Prelude
  import opened Direct
  import opened Frames
  import opened Chains
  import opened Transfers
  import opened Threads
  import opened Steps
  import opened Runs
  import opened Roots
  import opened Coroutines

  /** Which Task locals are not empty, and whether they have been awaited. */
  type Shape = map<Slot, bool>

  /** The shape of the locals at each control state; None where control never comes. */
  datatype Typing<!C> = Typing(at: C -> Option<Shape>)

  ghost predicate RespectsAt<C, V(!new)>(p: Program<C, V>, d: Typing<C>, c: C)
    requires d.at(c).Some?
  {
    var e := d.at(c).value;
    match p.code(c)
    case Make(s, body, next) => s !in e && d.at(body) == Some(map[]) && d.at(next) == Some(e[s := false])
    case Move(x, s, next) =>
      && (x == s || x !in e)
      && d.at(next) == Some(if x == s || s !in e then e else (e - {s})[x := e[s]])
    case Drop(s, next) => d.at(next) == Some(e - {s})
    case Spawn(s, next) => s in e && !e[s] && d.at(next) == Some(e - {s})
    case Await(s) => s in e && forall v :: d.at(p.resume(c, v)) == Some(e[s := true])
    case Callback(_) => forall v :: d.at(p.resume(c, v)) == Some(e)
    case Return(_) => true
  }

  /** Every control state does only what its shape allows, and leads to states of the right shape. */
  ghost predicate Respects<C(!new), V(!new)>(p: Program<C, V>, d: Typing<C>) {
    forall c {:trigger RespectsAt(p, d, c)} :: d.at(c).Some? ==> RespectsAt(p, d, c)
  }

  ghost predicate EnvFits<C, V>(d: Typing<C>, env: Env<C, V>, e: Shape) {
    && env.Keys == e.Keys
    && (forall s :: s in env ==> (env[s].Value? <==> e[s]))
    && (forall s :: s in env && env[s].Thunk? ==> d.at(env[s].body) == Some(map[]))
  }

  ghost predicate KontFits<C, V>(p: Program<C, V>, d: Typing<C>, k: Kont<C, V>) {
    && d.at(k.ctrl).Some? && p.code(k.ctrl) == Await(k.slot)
    && EnvFits(d, k.env, d.at(k.ctrl).value - {k.slot})
  }

  ghost predicate Fits<C, V>(p: Program<C, V>, d: Typing<C>, th: Thread<C, V>) {
    && d.at(th.ctrl).Some?
    && EnvFits(d, th.env, d.at(th.ctrl).value)
    && (forall i :: 0 <= i < |th.konts| ==> KontFits(p, d, th.konts[i]))
  }

  ghost predicate SpawnsFit<C, V>(d: Typing<C>, log: seq<Direct.Event<C, V>>) {
    forall i :: 0 <= i < |log| && log[i].Spawned? ==> d.at(log[i].body) == Some(map[])
  }

  /** A thread that fits its shape is not stuck, and goes on fitting. */
  lemma TickFits<C(!new), V(!new)>(p: Program<C, V>, d: Typing<C>, th: Thread<C, V>)
    requires Respects(p, d) && Fits(p, d, th)
    ensures !Tick(p, th).Fault?
    ensures Tick(p, th).Next? ==> Fits(p, d, Tick(p, th).th) && SpawnsFit(d, Tick(p, th).log)
  {
    assert RespectsAt(p, d, th.ctrl);
    if p.code(th.ctrl).Return? && th.konts != [] {
      var k := th.konts[|th.konts| - 1];
      assert KontFits(p, d, k) && RespectsAt(p, d, k.ctrl);
    }
  }

  lemma AnswerFits<C(!new), V(!new)>(p: Program<C, V>, d: Typing<C>, th: Thread<C, V>, v: V)
    requires Respects(p, d) && Fits(p, d, th) && Tick(p, th).Wait?
    ensures Fits(p, d, Answer(p, th, v))
  {
    assert RespectsAt(p, d, th.ctrl);
  }

  lemma {:induction false} FollowFits<C(!new), V(!new)>(p: Program<C, V>, d: Typing<C>, body: C, steps: seq<Step<V>>)
    requires Respects(p, d) && d.at(body) == Some(map[]) && Follow(p, body, steps).Some?
    ensures Fits(p, d, Follow(p, body, steps).value.th) && SpawnsFit(d, Follow(p, body, steps).value.log)
  {
    if steps != [] {
      FollowFits(p, d, body, steps[..|steps| - 1]);
      var at := Follow(p, body, steps[..|steps| - 1]).value;
      TickFits(p, d, at.th);
      match steps[|steps| - 1]
      case Silent =>
      case Told(v) => AnswerFits(p, d, at.th, v);
    }
  }

  lemma ArrivesFits<C(!new), V(!new)>(
    p: Program<C, V>, d: Typing<C>, body: C, io: seq<V>, log: seq<Direct.Event<C, V>>, th: Thread<C, V>)
    requires Respects(p, d) && d.at(body) == Some(map[]) && Arrives(p, body, io, log, th)
    ensures Fits(p, d, th) && SpawnsFit(d, log)
  {
    var steps: seq<Step<V>> :| Follow(p, body, steps) == Some(Course(th, io, log));
    FollowFits(p, d, body, steps);
  }

  ghost predicate Launches<C, V>(d: Typing<C>, es: seq<Stimulus<C, V>>) {
    forall i :: 0 <= i < |es| && es[i].Begin? ==> d.at(es[i].body) == Some(map[])
  }

  lemma RootFits<C(!new), V(!new)>(p: Program<C, V>, d: Typing<C>, m: Machine<C, V>, h: History<C, V>, q: Id)
    requires Respects(p, d) && Good(p, m, h) && q in h.roots && d.at(h.roots[q].body) == Some(map[])
    ensures SpawnsFit(d, h.roots[q].log)
    ensures h.roots[q].chain != [] ==> Fits(p, d, ThreadOf(m, h, q))
  {
    var root := h.roots[q];
    assert Tracks(p, m, h, q);
    if root.chain == [] {
      var th: Thread<C, V> :| Arrives(p, root.body, root.io, root.log, th) && Tick(p, th) == End(root.result.value);
      ArrivesFits(p, d, root.body, root.io, root.log, th);
    } else {
      ArrivesFits(p, d, root.body, root.io, root.log, ThreadOf(m, h, q));
    }
  }

  lemma {:induction false} RootsFit<C(!new), V(!new)>(
    p: Program<C, V>, d: Typing<C>, x: Execution<C, V>, i: nat, q: Id)
    requires Respects(p, d) && Launches(d, x.events) && Executes(p, x)
    requires i <= |x.events| && q in x.histories[i].roots
    ensures d.at(x.histories[i].roots[q].body) == Some(map[])
    decreases i
  {
    if i > 0 {
      var (h, k, e) := (x.histories[i - 1], x.histories[i], x.events[i - 1]);
      StepGrows(p, x, i - 1);
      if e.Begin? {
        if q in h.roots { assert QuietAt(h, k, q); RootsFit(p, d, x, i - 1, q); }
      } else if Quiet(h, k) {
        assert QuietAt(h, k, q);
        RootsFit(p, d, x, i - 1, q);
      } else {
        var o, g :| Spawns(h, k, o, g);
        assert q in h.roots && q != o ==> QuietAt(h, k, q);
        if q != g { RootsFit(p, d, x, i - 1, q); }
        RootsFit(p, d, x, i - 1, o);
        LogFits(p, d, x, i, o);
        assert k.roots[o].log[|h.roots[o].log|].Spawned?;
      }
    }
  }

  lemma LogFits<C(!new), V(!new)>(p: Program<C, V>, d: Typing<C>, x: Execution<C, V>, i: nat, q: Id)
    requires Respects(p, d) && Executes(p, x) && i <= |x.events| && q in x.histories[i].roots
    requires d.at(x.histories[i].roots[q].body) == Some(map[])
    ensures SpawnsFit(d, x.histories[i].roots[q].log)
  {
    AlwaysGood(p, x, i);
    RootFits(p, d, x.states[i], x.histories[i], q);
  }

  /** A program that respects a typing, launched at bodies it allows, is never misused: no empty Task
      is awaited or spawned, none is overwritten while it has a frame, none is spawned after it ran. */
  lemma {:induction false} NeverMisused<C(!new), V(!new)>(p: Program<C, V>, d: Typing<C>, es: seq<Stimulus<C, V>>)
    requires Respects(p, d) && Launches(d, es)
    ensures Play(p, es).Ok? || Play(p, es).Disabled?
  {
    NothingBreaks(p, es);
    if es != [] {
      var before, e := es[..|es| - 1], es[|es| - 1];
      assert Launches(d, before);
      NeverMisused(p, d, before);
      if Play(p, before).Ok? && e.Run? && StackOf(Play(p, before).value, e.thread) != [] {
        var x := ExecutionOf(p, before);
        NotMisused(p, d, x, e.thread);
      }
    }
  }

  lemma NotMisused<C(!new), V(!new)>(p: Program<C, V>, d: Typing<C>, x: Execution<C, V>, t: ThreadId)
    requires Respects(p, d) && Launches(d, x.events) && Executes(p, x) && StackOf(Last(x), t) != []
    ensures Perform(p, Last(x), t).Ok?
  {
    var m, h := Last(x), Past(x);
    EndsGood(p, x);
    RunGood(p, m, h, t);
    var r := h.home[Top(m, t)];
    RootsFit(p, d, x, |x.events|, r);
    RootFits(p, d, m, h, r);
    TickFits(p, d, ThreadOf(m, h, r));
  }
}

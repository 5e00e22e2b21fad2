/** The benchmark server as a program of the machine: the accept loop, the per-connection loop, and
    the three wrappers around callback operations. */
module Server {
  import opened Prelude
  import opened Direct
  import opened Frames
  import opened Chains
  import opened Threads
  import opened Runs
  import opened Roots
  import opened Coroutines
  import opened Discipline

  datatype Op = Accept | Read | Write | Nothing

  /** What passes through a co_await: a request to the operating system, or its answer, of which the
      server looks at the error code only. */
  datatype Message = Message(op: Op, connection: nat, error: bool, size: nat)

  function Request(op: Op, connection: nat): Message { Message(op, connection, false, 0) }

  /** Control states.  `Ask` and `Answered` are the body of async_accept, async_read_some and
      async_write; `n` counts the connections accepted so far. */
  datatype Ctrl =
    | Listen(n: nat)
    | Accepting(n: nat)
    | Accepted(n: nat, reply: Message)
    | Checked(n: nat, reply: Message)
    | Spawning(n: nat)
    | SpawnedOne(n: nat)
    | Process(k: nat)
    | Reading(k: nat)
    | HasRead(k: nat, reply: Message)
    | Judged(k: nat, reply: Message)
    | Writing(k: nat)
    | HasWritten(k: nat)
    | Ask(request: Message)
    | Answered(reply: Message)

  function Code(c: Ctrl): Action<Ctrl, Message> {
    match c
    case Listen(n) => Make(0, Ask(Request(Accept, n)), Accepting(n))
    case Accepting(n) => Await(0)
    case Accepted(n, reply) => Drop(0, Checked(n, reply))
    case Checked(n, reply) =>
      if reply.error then Return(Request(Nothing, 0)) else Make(0, Process(n), Spawning(n))
    case Spawning(n) => Spawn(0, SpawnedOne(n))
    case SpawnedOne(n) => Drop(0, Listen(n + 1))
    case Process(k) => Make(0, Ask(Request(Read, k)), Reading(k))
    case Reading(k) => Await(0)
    case HasRead(k, reply) => Drop(0, Judged(k, reply))
    case Judged(k, reply) =>
      if reply.error then Return(Request(Nothing, 0)) else Make(0, Ask(Request(Write, k)), Writing(k))
    case Writing(k) => Await(0)
    case HasWritten(k) => Drop(0, Process(k))
    case Ask(request) => Callback(request)
    case Answered(reply) => Return(reply)
  }

  function Resume(c: Ctrl, v: Message): Ctrl {
    match c
    case Accepting(n) => Accepted(n, v)
    case Reading(k) => HasRead(k, v)
    case Writing(k) => HasWritten(k)
    case Ask(_) => Answered(v)
    case _ => c
  }

  function Program(): Program<Ctrl, Message> { Direct.Program(Code, Resume) }

  // ---- The server is never misused ----------------------------------------------------------------

  const FRESH: Shape := map[0 := false]
  const AWAITED: Shape := map[0 := true]

  function ShapeAt(c: Ctrl): Option<Shape> {
    match c
    case Accepting(_) => Some(FRESH)
    case Spawning(_) => Some(FRESH)
    case Reading(_) => Some(FRESH)
    case Writing(_) => Some(FRESH)
    case Accepted(_, _) => Some(AWAITED)
    case HasRead(_, _) => Some(AWAITED)
    case HasWritten(_) => Some(AWAITED)
    case _ => Some(map[])
  }

  lemma ServerRespects()
    ensures Respects(Program(), Typing(ShapeAt))
  {
    var p, d := Program(), Typing(ShapeAt);
    assert FRESH - {0} == map[] && AWAITED - {0} == map[] && FRESH[0 := true] == AWAITED;
    var none: Shape := map[];
    assert none - {0} == none && none[0 := false] == FRESH;
    forall c | d.at(c).Some? ensures RespectsAt(p, d, c) {
      assert d.at(c) == ShapeAt(c) && p.code(c) == Code(c);
      assert forall v :: p.resume(c, v) == Resume(c, v);
    }
  }

  /** The runs of the server: whatever is launched from outside is the accept loop. */
  ghost predicate Serves(es: seq<Stimulus<Ctrl, Message>>) {
    forall i :: 0 <= i < |es| && es[i].Begin? ==> es[i].body == Listen(0)
  }

  lemma ServerNeverMisused(es: seq<Stimulus<Ctrl, Message>>)
    requires Serves(es)
    ensures Play(Program(), es).Ok? || Play(Program(), es).Disabled?
  {
    ServerRespects();
    NeverMisused(Program(), Typing(ShapeAt), es);
  }

  // ---- What a connection does ----------------------------------------------------------------------

  type Log = seq<Direct.Event<Ctrl, Message>>
  type ServerThread = Thread<Ctrl, Message>

  datatype Phase = WantsRead | WantsWrite | Closed | Wrong

  /** The automaton of (read that succeeds, write)* and one read that fails, on connection `k`. Values
      passed between the server's own coroutines are not events of the connection. */
  function PhaseOf(k: nat, log: Log): Phase {
    if log == [] then WantsRead else PhaseStep(k, PhaseOf(k, log[..|log| - 1]), log[|log| - 1])
  }

  function PhaseStep(k: nat, phase: Phase, e: Direct.Event<Ctrl, Message>): Phase {
    match e
    case Joined(_) => phase
    case Spawned(_) => Wrong
    case Io(q, a) =>
      if phase.WantsRead? && q == Request(Read, k) then if a.error then Closed else WantsWrite
      else if phase.WantsWrite? && q == Request(Write, k) then WantsRead
      else Wrong
  }

  lemma PhaseAppend(k: nat, log: Log, e: Direct.Event<Ctrl, Message>)
    ensures PhaseOf(k, log + [e]) == PhaseStep(k, PhaseOf(k, log), e)
  {
    assert (log + [e])[..|log|] == log;
  }

  function AfterRead(reply: Message): Phase { if reply.error then Closed else WantsWrite }

  /** Where the connection's coroutines are in each phase. */
  ghost predicate InSession(k: nat, phase: Phase, th: ServerThread) {
    if th.konts == [] then InProcess(k, phase, th.ctrl, th.env)
    else
      && |th.konts| == 1 && th.konts[0].slot == 0 && th.konts[0].env == map[]
      && InOperation(k, phase, th.ctrl, th.konts[0].ctrl)
  }

  ghost predicate InProcess(k: nat, phase: Phase, c: Ctrl, env: Env<Ctrl, Message>) {
    match c
    case Process(j) => j == k && phase.WantsRead? && env == map[]
    case Reading(j) => j == k && phase.WantsRead? && env == map[0 := Thunk(Ask(Request(Read, k)))]
    case HasRead(j, v) => j == k && phase == AfterRead(v) && env.Keys == {0}
    case Judged(j, v) => j == k && phase == AfterRead(v) && env == map[]
    case Writing(j) => j == k && phase.WantsWrite? && env == map[0 := Thunk(Ask(Request(Write, k)))]
    case HasWritten(j) => j == k && phase.WantsRead? && env.Keys == {0}
    case _ => false
  }

  ghost predicate InOperation(k: nat, phase: Phase, c: Ctrl, caller: Ctrl) {
    match c
    case Ask(q) =>
      || (phase.WantsRead? && q == Request(Read, k) && caller == Reading(k))
      || (phase.WantsWrite? && q == Request(Write, k) && caller == Writing(k))
    case Answered(v) =>
      || (phase == AfterRead(v) && caller == Reading(k))
      || (phase.WantsRead? && caller == Writing(k))
    case _ => false
  }

  lemma SessionTick(k: nat, phase: Phase, th: ServerThread)
    requires InSession(k, phase, th) && Tick(Program(), th).Next?
    ensures InSession(k, phase, Tick(Program(), th).th)
    ensures var log := Tick(Program(), th).log; log == [] || (|log| == 1 && log[0].Joined?)
  {
    assert Program().code(th.ctrl) == Code(th.ctrl);
    assert th.env.Keys == {0} ==> th.env - {0} == map[];
  }

  lemma SessionAnswer(k: nat, phase: Phase, th: ServerThread, v: Message)
    requires InSession(k, phase, th) && Tick(Program(), th).Wait?
    ensures InSession(k, PhaseStep(k, phase, Io(Tick(Program(), th).request, v)), Answer(Program(), th, v))
  {
    assert Program().code(th.ctrl) == Code(th.ctrl);
  }

  lemma {:induction false} SessionFollow(k: nat, steps: seq<Step<Message>>)
    requires Follow(Program(), Process(k), steps).Some?
    ensures var at := Follow(Program(), Process(k), steps).value; InSession(k, PhaseOf(k, at.log), at.th)
  {
    if steps != [] {
      var before := steps[..|steps| - 1];
      SessionFollow(k, before);
      var at := Follow(Program(), Process(k), before).value;
      match steps[|steps| - 1]
      case Silent =>
        SessionTick(k, PhaseOf(k, at.log), at.th);
        var log := Tick(Program(), at.th).log;
        assert at.log + [] == at.log;
        if log != [] { assert log == [log[0]]; PhaseAppend(k, at.log, log[0]); }
      case Told(v) =>
        SessionAnswer(k, PhaseOf(k, at.log), at.th, v);
        PhaseAppend(k, at.log, Io(Tick(Program(), at.th).request, v));
    }
  }

  lemma SessionArrives(k: nat, io: seq<Message>, log: Log, th: ServerThread)
    requires Arrives(Program(), Process(k), io, log, th)
    ensures InSession(k, PhaseOf(k, log), th)
  {
    var steps: seq<Step<Message>> :| Follow(Program(), Process(k), steps) == Some(Course(th, io, log));
    SessionFollow(k, steps);
  }

  // ---- What the accept loop does -------------------------------------------------------------------

  datatype LoopPhase = Ready(n: nat) | Taken(n: nat) | Ended(n: nat) | Astray

  /** The automaton of an accept loop that spawns the process of connection n after the n-th accept
      succeeds and before it asks for the next one, and ends with the first accept that fails. */
  function LoopOf(log: Log): LoopPhase {
    if log == [] then Ready(0) else LoopStep(LoopOf(log[..|log| - 1]), log[|log| - 1])
  }

  function LoopStep(phase: LoopPhase, e: Direct.Event<Ctrl, Message>): LoopPhase {
    match e
    case Joined(_) => phase
    case Spawned(body) => if phase.Taken? && body == Process(phase.n) then Ready(phase.n + 1) else Astray
    case Io(q, a) =>
      if phase.Ready? && q == Request(Accept, phase.n) then if a.error then Ended(phase.n) else Taken(phase.n)
      else Astray
  }

  lemma LoopAppend(log: Log, e: Direct.Event<Ctrl, Message>)
    ensures LoopOf(log + [e]) == LoopStep(LoopOf(log), e)
  {
    assert (log + [e])[..|log|] == log;
  }

  function AfterAccept(n: nat, reply: Message): LoopPhase { if reply.error then Ended(n) else Taken(n) }

  ghost predicate InLoop(phase: LoopPhase, th: ServerThread) {
    if th.konts == [] then InListen(phase, th.ctrl, th.env)
    else
      && |th.konts| == 1 && th.konts[0].slot == 0 && th.konts[0].env == map[] && th.konts[0].ctrl.Accepting?
      && match th.ctrl
         case Ask(q) => phase == Ready(th.konts[0].ctrl.n) && q == Request(Accept, th.konts[0].ctrl.n)
         case Answered(v) => phase == AfterAccept(th.konts[0].ctrl.n, v)
         case _ => false
  }

  ghost predicate InListen(phase: LoopPhase, c: Ctrl, env: Env<Ctrl, Message>) {
    match c
    case Listen(n) => phase == Ready(n) && env == map[]
    case Accepting(n) => phase == Ready(n) && env == map[0 := Thunk(Ask(Request(Accept, n)))]
    case Accepted(n, v) => phase == AfterAccept(n, v) && env.Keys == {0}
    case Checked(n, v) => phase == AfterAccept(n, v) && env == map[]
    case Spawning(n) => phase == Taken(n) && env == map[0 := Thunk(Process(n))]
    case SpawnedOne(n) => phase == Ready(n + 1) && env == map[]
    case _ => false
  }

  lemma LoopTick(phase: LoopPhase, th: ServerThread)
    requires InLoop(phase, th) && Tick(Program(), th).Next?
    ensures var log := Tick(Program(), th).log;
      if log == [] then InLoop(phase, Tick(Program(), th).th)
      else |log| == 1 && InLoop(LoopStep(phase, log[0]), Tick(Program(), th).th)
  {
    assert Program().code(th.ctrl) == Code(th.ctrl);
    assert th.env.Keys <= {0} ==> th.env - {0} == map[];
  }

  lemma LoopAnswer(phase: LoopPhase, th: ServerThread, v: Message)
    requires InLoop(phase, th) && Tick(Program(), th).Wait?
    ensures InLoop(LoopStep(phase, Io(Tick(Program(), th).request, v)), Answer(Program(), th, v))
  {
    assert Program().code(th.ctrl) == Code(th.ctrl);
  }

  lemma {:induction false} LoopFollow(steps: seq<Step<Message>>)
    requires Follow(Program(), Listen(0), steps).Some?
    ensures var at := Follow(Program(), Listen(0), steps).value; InLoop(LoopOf(at.log), at.th)
  {
    if steps != [] {
      var before := steps[..|steps| - 1];
      LoopFollow(before);
      var at := Follow(Program(), Listen(0), before).value;
      match steps[|steps| - 1]
      case Silent =>
        LoopTick(LoopOf(at.log), at.th);
        var log := Tick(Program(), at.th).log;
        assert at.log + [] == at.log;
        if log != [] { assert log == [log[0]]; LoopAppend(at.log, log[0]); }
      case Told(v) =>
        LoopAnswer(LoopOf(at.log), at.th, v);
        LoopAppend(at.log, Io(Tick(Program(), at.th).request, v));
    }
  }

  lemma LoopArrives(io: seq<Message>, log: Log, th: ServerThread)
    requires Arrives(Program(), Listen(0), io, log, th)
    ensures InLoop(LoopOf(log), th)
  {
    var steps: seq<Step<Message>> :| Follow(Program(), Listen(0), steps) == Some(Course(th, io, log));
    LoopFollow(steps);
  }

  type ServerRun = Execution<Ctrl, Message>

  // ---- Every run -----------------------------------------------------------------------------------

  /** The thread by which a root came to where it is, live or finished. */
  lemma SomeThread(x: ServerRun, i: nat, r: Id) returns (th: ServerThread)
    requires Executes(Program(), x) && i <= |x.events| && r in x.histories[i].roots
    ensures var root := x.histories[i].roots[r];
      && Arrives(Program(), root.body, root.io, root.log, th)
      && (root.result.Some? ==> Tick(Program(), th) == End(root.result.value))
      && (root.place.Parked? ==> Tick(Program(), th) == Wait(root.place.request))
  {
    var p, m, h := Program(), x.states[i], x.histories[i];
    var root := h.roots[r];
    AlwaysGood(p, x, i);
    assert Tracks(p, m, h, r) && RootOk(m, h, r);
    if root.chain == [] {
      th :| Arrives(p, root.body, root.io, root.log, th) && Tick(p, th) == End(root.result.value);
    } else {
      th := ThreadOf(m, h, r);
    }
  }

  lemma SessionStops(k: nat, phase: Phase, th: ServerThread)
    requires InSession(k, phase, th)
    ensures !phase.Wrong?
    ensures Tick(Program(), th).End? ==> phase.Closed?
    ensures Tick(Program(), th).Wait? ==> !phase.Closed?
    ensures Tick(Program(), th).Wait? ==>
      Tick(Program(), th).request == Request(if phase.WantsRead? then Read else Write, k)
  {
    assert Program().code(th.ctrl) == Code(th.ctrl);
  }

  lemma LoopStops(phase: LoopPhase, th: ServerThread)
    requires InLoop(phase, th)
    ensures !phase.Astray?
    ensures Tick(Program(), th).End? ==> phase.Ended?
    ensures Tick(Program(), th).Wait? ==> phase.Ready? && Tick(Program(), th).request == Request(Accept, phase.n)
  {
    assert Program().code(th.ctrl) == Code(th.ctrl);
  }

  /** In every run, the events of every connection are (read that succeeds, write)*, closed by at most
      one read that fails.  It waits for what its phase wants next, and ends only when closed. */
  lemma ConnectionTrace(x: ServerRun, i: nat, r: Id, k: nat)
    requires Executes(Program(), x) && i <= |x.events| && r in x.histories[i].roots
    requires x.histories[i].roots[r].body == Process(k)
    ensures var root := x.histories[i].roots[r];
      var phase := PhaseOf(k, root.log);
      && !phase.Wrong?
      && (root.result.Some? ==> phase.Closed?)
      && (root.place.Parked? ==> root.place.request == Request(if phase.WantsRead? then Read else Write, k) && !phase.Closed?)
  {
    var root := x.histories[i].roots[r];
    var th := SomeThread(x, i, r);
    SessionArrives(k, root.io, root.log, th);
    SessionStops(k, PhaseOf(k, root.log), th);
  }

  /** In every run, the accept loop spawns exactly one process per successful accept, in order, each
      before it asks for the next connection, and ends only because an accept failed. */
  lemma AcceptTrace(x: ServerRun, i: nat, r: Id)
    requires Executes(Program(), x) && i <= |x.events| && r in x.histories[i].roots
    requires x.histories[i].roots[r].body == Listen(0)
    ensures var root := x.histories[i].roots[r];
      var phase := LoopOf(root.log);
      && !phase.Astray?
      && (root.result.Some? ==> phase.Ended?)
      && (root.place.Parked? ==> phase.Ready? && root.place.request == Request(Accept, phase.n))
  {
    var root := x.histories[i].roots[r];
    var th := SomeThread(x, i, r);
    LoopArrives(root.io, root.log, th);
    LoopStops(LoopOf(root.log), th);
  }

  /** In every run of the server, every root is an accept loop or the process of a connection. */
  lemma {:induction false} ServerRoots(x: ServerRun, i: nat, q: Id)
    requires Serves(x.events) && Executes(Program(), x) && i <= |x.events| && q in x.histories[i].roots
    ensures x.histories[i].roots[q].body == Listen(0) || x.histories[i].roots[q].body.Process?
    decreases i
  {
    if i > 0 {
      var (h, k, e) := (x.histories[i - 1], x.histories[i], x.events[i - 1]);
      StepGrows(Program(), x, i - 1);
      if e.Begin? {
        if q in h.roots { assert QuietAt(h, k, q); ServerRoots(x, i - 1, q); }
      } else if Quiet(h, k) {
        assert QuietAt(h, k, q);
        ServerRoots(x, i - 1, q);
      } else {
        var o, g :| Roots.Spawns(h, k, o, g);
        assert q in h.roots && q != o ==> QuietAt(h, k, q);
        ServerRoots(x, i - 1, o);
        if q == g { SpawnedByServer(x, i, o, k.roots[g].body); } else { ServerRoots(x, i - 1, q); }
      }
    }
  }

  lemma SpawnedByServer(x: ServerRun, i: nat, q: Id, body: Ctrl)
    requires Executes(Program(), x) && i <= |x.events| && q in x.histories[i].roots
    requires var root := x.histories[i].roots[q];
      && (root.body == Listen(0) || root.body.Process?)
      && root.log != [] && root.log[|root.log| - 1] == Spawned(body)
    ensures body.Process?
  {
    var root := x.histories[i].roots[q];
    if root.body == Listen(0) { AcceptTrace(x, i, q); } else { ConnectionTrace(x, i, q, root.body.k); }
  }
}

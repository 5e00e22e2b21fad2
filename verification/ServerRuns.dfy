/** The server serves: on every list of answers a connection, and the accept loop, come to the stop that the answers
    call for, and to no other. */
module ServerRuns {
  import opened Prelude
  import opened Direct
  import opened Frames
  import opened Chains
  import opened Coroutines
  import opened Roots
  import opened Server
  import opened Connections
  import opened Progress
  import Pool

  type Answers = seq<Message>
  type Outcomes = Result<Ctrl, Message>

  // ---- What the answers call for --------------------------------------------------------------------

  /** An operation on `q` answered by `a`, and passed on by the coroutine that wraps it. */
  function Done(q: Message, a: Message): Log { [Io(q, a), Joined(a)] }

  /** A connection: reads and writes in turn, until a read fails or the answers are used up. */
  function Session(k: nat, io: Answers): Outcomes
    decreases |io|
  {
    var (read, write) := (Request(Read, k), Request(Write, k));
    if io == [] then Result(Blocked(read), [], [])
    else if io[0].error then Result(Finished(Request(Nothing, 0)), Done(read, io[0]), io[1..])
    else if |io| == 1 then Result(Blocked(write), Done(read, io[0]), [])
    else Prepend(Done(read, io[0]) + Done(write, io[1]), Session(k, io[2..]))
  }

  /** The accept loop, from connection `n` on: an accept, and then the process of that connection, until one fails. */
  function Accepts(n: nat, io: Answers): Outcomes
    decreases |io|
  {
    var accept := Request(Accept, n);
    if io == [] then Result(Blocked(accept), [], [])
    else if io[0].error then Result(Finished(Request(Nothing, 0)), Done(accept, io[0]), io[1..])
    else Prepend(Done(accept, io[0]) + [Spawned(Process(n))], Accepts(n + 1, io[1..]))
  }

  /** A read of the connection fails: every other answer is that of a read. */
  predicate ReadFailsAt(io: Answers, i: nat) { i < |io| && i % 2 == 0 && io[i].error }

  /** The first such one. */
  predicate FirstFailure(io: Answers, i: nat) { ReadFailsAt(io, i) && forall j: nat :: j < i ==> !ReadFailsAt(io, j) }

  /** A connection finishes just when a read fails, the first that does being the last answer it takes; otherwise it
      takes all answers and waits, for a read after pairs of answers and for a write after one more. */
  lemma {:induction false} SessionStopsWhere(k: nat, io: Answers)
    ensures var r := Session(k, io);
      if exists i: nat :: ReadFailsAt(io, i) then
        r.outcome.Finished? && exists i: nat :: FirstFailure(io, i) && r.rest == io[i + 1..]
      else r.outcome == Blocked(Request(if |io| % 2 == 0 then Read else Write, k)) && r.rest == []
    decreases |io|
  {
    if io == [] {
    } else if io[0].error {
      assert ReadFailsAt(io, 0) && FirstFailure(io, 0);
    } else if |io| > 1 {
      SessionStopsWhere(k, io[2..]);
      Shift(io);
      if i: nat :| FirstFailure(io[2..], i) && Session(k, io[2..]).rest == io[2..][i + 1..] {
        ShiftFirst(io, i);
      }
    }
  }

  lemma Shift(io: Answers)
    requires |io| > 1 && !io[0].error
    ensures forall i: nat :: ReadFailsAt(io[2..], i) <==> ReadFailsAt(io, i + 2)
    ensures (exists i: nat :: ReadFailsAt(io, i)) <==> exists i: nat :: ReadFailsAt(io[2..], i)
  {
    if i: nat :| ReadFailsAt(io, i) {
      assert i >= 2 && ReadFailsAt(io[2..], i - 2);
    }
  }

  lemma ShiftFirst(io: Answers, i: nat)
    requires |io| > 1 && !io[0].error && FirstFailure(io[2..], i)
    ensures FirstFailure(io, i + 2) && io[2..][i + 1..] == io[i + 3..]
  {
    Shift(io);
    forall j: nat | j < i + 2 ensures !ReadFailsAt(io, j) {
      if j >= 2 { assert !ReadFailsAt(io[2..], j - 2); }
    }
  }

  function SuccessesOf(io: Answers): seq<bool> { seq(|io|, i requires 0 <= i < |io| => !io[i].error) }

  /** The accept loop finishes just when an accept fails; it spawns one process for each accept before that, and
      otherwise waits for the next connection after as many accepts as there are answers. */
  lemma AcceptsStopWhere(n: nat, io: Answers)
    ensures var (r, m) := (Accepts(n, io), Pool.Accepted(SuccessesOf(io)));
      && m <= |io|
      && (if m < |io| then r.outcome.Finished? && r.rest == io[m + 1..]
          else r.outcome == Blocked(Request(Accept, n + m)) && r.rest == [])
      && SpawnsOf(r.log) == seq(m, i requires 0 <= i < m => Process(n + i))
  {
    AcceptsEnd(n, io);
    AcceptsSpawn(n, io);
  }

  lemma {:induction false} AcceptsEnd(n: nat, io: Answers)
    ensures var (r, m) := (Accepts(n, io), Pool.Accepted(SuccessesOf(io)));
      if m < |io| then r.outcome.Finished? && r.rest == io[m + 1..]
      else r.outcome == Blocked(Request(Accept, n + m)) && r.rest == []
    decreases |io|
  {
    if io != [] && io[0].error {
      assert !SuccessesOf(io)[0];
    } else if io != [] {
      AcceptsEnd(n + 1, io[1..]);
      OneMoreSuccess(io);
      var m := Pool.Accepted(SuccessesOf(io[1..]));
      assert m + 1 < |io| ==> io[1..][m + 1..] == io[m + 2..];
    }
  }

  lemma {:induction false} AcceptsSpawn(n: nat, io: Answers)
    ensures var m := Pool.Accepted(SuccessesOf(io));
      SpawnsOf(Accepts(n, io).log) == seq(m, i requires 0 <= i < m => Process(n + i))
    decreases |io|
  {
    if io != [] && io[0].error {
      assert !SuccessesOf(io)[0];
      DoneSpawnsNothing(Request(Accept, n), io[0]);
    } else if io != [] {
      AcceptsSpawn(n + 1, io[1..]);
      OneMoreSuccess(io);
      OneMoreProcess(n, io[0], Accepts(n + 1, io[1..]).log);
    }
  }

  lemma OneMoreSuccess(io: Answers)
    requires io != [] && !io[0].error
    ensures Pool.Accepted(SuccessesOf(io)) == 1 + Pool.Accepted(SuccessesOf(io[1..]))
  {
    assert SuccessesOf(io)[0] && SuccessesOf(io)[1..] == SuccessesOf(io[1..]);
  }

  lemma OneMoreProcess(n: nat, a: Message, log: Log)
    ensures SpawnsOf((Done(Request(Accept, n), a) + [Spawned(Process(n))]) + log) == [Process(n)] + SpawnsOf(log)
  {
    DoneSpawnsNothing(Request(Accept, n), a);
    SpawnsOneMore(Done(Request(Accept, n), a), Direct.Event.Spawned(Process(n)));
    SpawnsBoth(Done(Request(Accept, n), a) + [Spawned(Process(n))], log);
  }

  lemma DoneSpawnsNothing(q: Message, a: Message)
    ensures SpawnsOf(Done(q, a)) == []
  {
    SpawnsOneMore([Direct.Event<Ctrl, Message>.Io(q, a)], Joined(a));
    SpawnsOneMore([], Direct.Event<Ctrl, Message>.Io(q, a));
    assert [] + [Direct.Event<Ctrl, Message>.Io(q, a)] == [Io(q, a)];
    assert Done(q, a) == [Io(q, a)] + [Joined(a)];
  }

  lemma {:induction false} SpawnsBoth(a: Log, b: Log)
    ensures SpawnsOf(a + b) == SpawnsOf(a) + SpawnsOf(b)
    decreases |b|
  {
    if b == [] {
      assert a + b == a;
    } else {
      var n := |b| - 1;
      assert a + b == (a + b[..n]) + [b[n]] && b == b[..n] + [b[n]];
      SpawnsBoth(a, b[..n]);
      SpawnsOneMore(a + b[..n], b[n]);
    }
  }

  // ---- Evaluation -----------------------------------------------------------------------------------

  function Run(fuel: nat, c: Ctrl, env: Env<Ctrl, Message>, io: Answers): Outcomes { Eval(Server.Program(), fuel, c, env, io) }

  /** co_await of one of the three wrappers. */
  lemma Operation(fuel: nat, c: Ctrl, q: Message, io: Answers)
    requires fuel >= 3 && Code(c) == Await(0)
    ensures var env: Env<Ctrl, Message> := map[0 := Thunk(Ask(q))];
      Run(fuel, c, env, io) ==
        if io == [] then Result(Blocked(q), [], [])
        else Prepend(Done(q, io[0]), Run(fuel - 1, Server.Resume(c, io[0]), map[0 := Value(io[0])], io[1..]))
  {
    var env: Env<Ctrl, Message> := map[0 := Thunk(Ask(q))];
    var call := Run(fuel - 1, Ask(q), map[], io);
    if io != [] {
      var back := Run(fuel - 2, Answered(io[0]), map[], io[1..]);
      assert back == Result(Finished(io[0]), [], io[1..]);
      assert call == Prepend([Io(q, io[0])], back);
      assert call.log == [Io(q, io[0])];
      var none: Env<Ctrl, Message> := map[];
      assert env - {0} == none && none[0 := Value(io[0])] == map[0 := Value(io[0])];
      assert [Direct.Event<Ctrl, Message>.Io(q, io[0])] + [Joined(io[0])] == Done(q, io[0]);
    }
  }

  lemma {:induction false} SessionEvaluates(fuel: nat, k: nat, io: Answers)
    requires fuel >= 4 * |io| + 4
    ensures Run(fuel, Process(k), map[], io) == Session(k, io)
    decreases |io|
  {
    var (read, write) := (Request(Read, k), Request(Write, k));
    ProcessReads(fuel, k, io);
    if io != [] && !io[0].error {
      JudgedWrites(fuel - 3, k, io[0], io[1..]);
      if |io| > 1 {
        SessionEvaluates(fuel - 6, k, io[2..]);
        assert io[1..][1..] == io[2..] && io[1..][0] == io[1];
        PrependTwice(Done(read, io[0]), Done(write, io[1]), Session(k, io[2..]));
      }
    }
  }

  /** From the top of the loop to the check of the read's error code. */
  lemma ProcessReads(fuel: nat, k: nat, io: Answers)
    requires fuel >= 4
    ensures Run(fuel, Process(k), map[], io) ==
      if io == [] then Result(Blocked(Request(Read, k)), [], [])
      else if io[0].error then Result(Finished(Request(Nothing, 0)), Done(Request(Read, k), io[0]), io[1..])
      else Prepend(Done(Request(Read, k), io[0]), Run(fuel - 3, Judged(k, io[0]), map[], io[1..]))
  {
    var q := Request(Read, k);
    Operation(fuel - 1, Reading(k), q, io);
    assert Run(fuel, Process(k), map[], io) == Run(fuel - 1, Reading(k), map[0 := Thunk(Ask(q))], io);
    if io != [] {
      var kept: Env<Ctrl, Message> := map[0 := Value(io[0])];
      assert kept - {0} == map[];
      assert Run(fuel - 2, HasRead(k, io[0]), kept, io[1..]) == Run(fuel - 3, Judged(k, io[0]), map[], io[1..]);
    }
  }

  /** From a read that succeeded to the top of the loop. */
  lemma JudgedWrites(fuel: nat, k: nat, reply: Message, io: Answers)
    requires fuel >= 4 && !reply.error
    ensures Run(fuel, Judged(k, reply), map[], io) ==
      if io == [] then Result(Blocked(Request(Write, k)), [], [])
      else Prepend(Done(Request(Write, k), io[0]), Run(fuel - 3, Process(k), map[], io[1..]))
  {
    var q := Request(Write, k);
    Operation(fuel - 1, Writing(k), q, io);
    assert Run(fuel, Judged(k, reply), map[], io) == Run(fuel - 1, Writing(k), map[0 := Thunk(Ask(q))], io);
    if io != [] {
      var kept: Env<Ctrl, Message> := map[0 := Value(io[0])];
      assert kept - {0} == map[];
      assert Run(fuel - 2, HasWritten(k), kept, io[1..]) == Run(fuel - 3, Process(k), map[], io[1..]);
    }
  }

  lemma {:induction false} AcceptsEvaluates(fuel: nat, n: nat, io: Answers)
    requires fuel >= 6 * |io| + 4
    ensures Run(fuel, Listen(n), map[], io) == Accepts(n, io)
    decreases |io|
  {
    var accept := Request(Accept, n);
    ListenAccepts(fuel, n, io);
    if io != [] && !io[0].error {
      CheckedSpawns(fuel - 3, n, io[0], io[1..]);
      AcceptsEvaluates(fuel - 6, n + 1, io[1..]);
      PrependTwice(Done(accept, io[0]), [Spawned(Process(n))], Accepts(n + 1, io[1..]));
    }
  }

  /** From the top of the loop to the check of the accept's error code. */
  lemma ListenAccepts(fuel: nat, n: nat, io: Answers)
    requires fuel >= 4
    ensures Run(fuel, Listen(n), map[], io) ==
      if io == [] then Result(Blocked(Request(Accept, n)), [], [])
      else if io[0].error then Result(Finished(Request(Nothing, 0)), Done(Request(Accept, n), io[0]), io[1..])
      else Prepend(Done(Request(Accept, n), io[0]), Run(fuel - 3, Checked(n, io[0]), map[], io[1..]))
  {
    var q := Request(Accept, n);
    Operation(fuel - 1, Accepting(n), q, io);
    assert Run(fuel, Listen(n), map[], io) == Run(fuel - 1, Accepting(n), map[0 := Thunk(Ask(q))], io);
    if io != [] {
      var kept: Env<Ctrl, Message> := map[0 := Value(io[0])];
      assert kept - {0} == map[];
      assert Run(fuel - 2, Accepted(n, io[0]), kept, io[1..]) == Run(fuel - 3, Checked(n, io[0]), map[], io[1..]);
    }
  }

  /** From an accept that succeeded to the top of the loop. */
  lemma CheckedSpawns(fuel: nat, n: nat, reply: Message, io: Answers)
    requires fuel >= 4 && !reply.error
    ensures Run(fuel, Checked(n, reply), map[], io) == Prepend([Spawned(Process(n))], Run(fuel - 3, Listen(n + 1), map[], io))
  {
    var held: Env<Ctrl, Message> := map[0 := Thunk(Process(n))];
    var none: Env<Ctrl, Message> := map[];
    assert held - {0} == none && none - {0} == none;
    assert Run(fuel, Checked(n, reply), none, io) == Run(fuel - 1, Spawning(n), held, io);
    assert Run(fuel - 2, SpawnedOne(n), none, io) == Run(fuel - 3, Listen(n + 1), none, io);
  }

  /** Direct-style evaluation of a connection comes to what its answers call for. */
  lemma SessionComes(k: nat, io: Answers)
    ensures Evaluates(Server.Program(), Process(k), io, Session(k, io))
  {
    SessionEvaluates(4 * |io| + 4, k, io);
    SessionStopsWhere(k, io);
  }

  /** So does that of the accept loop. */
  lemma AcceptsCome(n: nat, io: Answers)
    ensures Evaluates(Server.Program(), Listen(n), io, Accepts(n, io))
  {
    AcceptsEvaluates(6 * |io| + 4, n, io);
    AcceptsStopWhere(n, io);
  }

  // ---- Every run, and some --------------------------------------------------------------------------

  /** Where a root of any run has come to, if it has stopped. */
  ghost predicate Stands(x: ServerRun, q: Id, r: Outcomes) {
    && Shaped(x) && q in Past(x).roots
    && var root := Past(x).roots[q];
       && (root.result.Some? ==> Result(Finished(root.result.value), root.log, []) == r)
       && (root.place.Parked? ==> Result(Blocked(root.place.request), root.log, []) == r)
  }

  /** In every run, a connection that has finished or waits stands exactly where its answers call for. */
  lemma ConnectionStands(x: ServerRun, q: Id, k: nat)
    requires Executes(Server.Program(), x) && q in Past(x).roots && Past(x).roots[q].body == Process(k)
    ensures Stands(x, q, Session(k, Past(x).roots[q].io))
  {
    var root := Past(x).roots[q];
    AgreesWithDirectStyle(Server.Program(), x, q);
    SessionComes(k, root.io);
    if root.result.Some? {
      EvaluatesIsDeterministic(Server.Program(), root.body, root.io, Result(Finished(root.result.value), root.log, []), Session(k, root.io));
    }
    if root.place.Parked? {
      EvaluatesIsDeterministic(Server.Program(), root.body, root.io, Result(Blocked(root.place.request), root.log, []), Session(k, root.io));
    }
  }

  /** In every run, so does the accept loop. */
  lemma AcceptLoopStands(x: ServerRun, q: Id)
    requires Executes(Server.Program(), x) && q in Past(x).roots && Past(x).roots[q].body == Listen(0)
    ensures Stands(x, q, Accepts(0, Past(x).roots[q].io))
  {
    var root := Past(x).roots[q];
    AgreesWithDirectStyle(Server.Program(), x, q);
    AcceptsCome(0, root.io);
    if root.result.Some? {
      EvaluatesIsDeterministic(Server.Program(), root.body, root.io, Result(Finished(root.result.value), root.log, []), Accepts(0, root.io));
    }
    if root.place.Parked? {
      EvaluatesIsDeterministic(Server.Program(), root.body, root.io, Result(Blocked(root.place.request), root.log, []), Accepts(0, root.io));
    }
  }

  /** Whatever the answers, there is a run in which the accept loop gets them and comes to its stop: it goes on
      accepting after every connection. */
  lemma AcceptLoopServes(t: ThreadId, io: Answers) returns (x: ServerRun)
    ensures Executes(Server.Program(), x) && 0 in Past(x).roots
    ensures var (root, r) := (Past(x).roots[0], Accepts(0, io));
      && root.body == Listen(0) && root.io + r.rest == io && root.log == r.log
      && (r.outcome.Finished? ==> root.result.Some?)
      && (r.outcome.Blocked? ==> root.place == Parked(r.outcome.request))
  {
    var used := AcceptsUse(0, io);
    var r := Accepts(0, used);
    AcceptsCome(0, used);
    AcceptsStopWhere(0, used);
    forall i | 0 <= i < |r.log| && r.log[i].Spawned? ensures Rests(Server.Program(), r.log[i].body, 0) {
      SpawnedAreProcesses(0, used, i);
      ProcessRests(r.log[i].body.k);
    }
    x := Delivers(Server.Program(), t, Listen(0), used, r.log, r.outcome, 1);
  }

  lemma {:induction false} SpawnedAreProcesses(n: nat, io: Answers, i: nat)
    requires i < |Accepts(n, io).log| && Accepts(n, io).log[i].Spawned?
    ensures Accepts(n, io).log[i].body.Process?
    decreases |io|
  {
    if io != [] && !io[0].error && i >= 3 { SpawnedAreProcesses(n + 1, io[1..], i - 3); }
  }

  /** A process that has no answer yet waits for its first read. */
  lemma ProcessRests(k: nat)
    ensures Rests(Server.Program(), Process(k), 0)
  {
    SessionComes(k, []);
    assert Comes(Server.Program(), Process(k), [], [], Blocked(Request(Read, k)), 0);
  }

  /** Whatever the answers, there is a run in which a connection gets them and comes to its stop. */
  lemma ConnectionServes(t: ThreadId, k: nat, io: Answers) returns (x: ServerRun)
    ensures Executes(Server.Program(), x) && 0 in Past(x).roots
    ensures var (root, r) := (Past(x).roots[0], Session(k, io));
      && root.body == Process(k) && root.io + r.rest == io && root.log == r.log
      && (r.outcome.Finished? ==> root.result.Some?)
      && (r.outcome.Blocked? ==> root.place == Parked(r.outcome.request))
  {
    var used := SessionUses(k, io);
    var r := Session(k, used);
    SessionComes(k, used);
    SessionStopsWhere(k, used);
    forall i | 0 <= i < |r.log| ensures !r.log[i].Spawned? { SessionSpawns(k, used, i); }
    x := Delivers(Server.Program(), t, Process(k), used, r.log, r.outcome, 0);
  }

  /** The answers that are used, and that the others do not matter. */
  lemma {:induction false} SessionUses(k: nat, io: Answers) returns (used: Answers)
    ensures var r := Session(k, io); used + r.rest == io && Session(k, used) == Result(r.outcome, r.log, [])
    decreases |io|
  {
    if io == [] || |io| == 1 {
      used := io;
    } else if io[0].error {
      used := io[..1];
    } else {
      var more := SessionUses(k, io[2..]);
      used := io[..2] + more;
      assert used[2..] == more;
    }
  }

  lemma {:induction false} AcceptsUse(n: nat, io: Answers) returns (used: Answers)
    ensures var r := Accepts(n, io); used + r.rest == io && Accepts(n, used) == Result(r.outcome, r.log, [])
    decreases |io|
  {
    if io == [] {
      used := io;
    } else if io[0].error {
      used := io[..1];
    } else {
      var more := AcceptsUse(n + 1, io[1..]);
      used := io[..1] + more;
      assert used[1..] == more;
    }
  }

  lemma {:induction false} SessionSpawns(k: nat, io: Answers, i: nat)
    requires i < |Session(k, io).log|
    ensures !Session(k, io).log[i].Spawned?
    decreases |io|
  {
    if |io| > 1 && !io[0].error && i >= 4 { SessionSpawns(k, io[2..], i - 4); }
  }
}

/** The server's connections and the processes that serve them correspond one to one. */
module Connections {
  import opened Direct
  import opened Frames
  import opened Chains
  import opened Roots
  import opened Coroutines
  import opened Server
  import Pool

  type ServerHistory = History<Ctrl, Message>

  function Processes(n: nat): seq<Ctrl> { seq(n, k requires 0 <= k < n => Process(k)) }

  /** An accept loop that has not gone astray has spawned the processes 0, 1, ..., in this order. */
  lemma {:induction false} LoopSpawns(log: Log)
    requires !LoopOf(log).Astray?
    ensures SpawnsOf(log) == Processes(LoopOf(log).n)
  {
    if log != [] { LoopSpawns(log[..|log| - 1]); }
  }

  /** The process of a connection spawns nothing. */
  lemma {:induction false} SessionSpawnsNothing(k: nat, log: Log)
    requires !PhaseOf(k, log).Wrong?
    ensures SpawnsOf(log) == []
  {
    if log != [] { SessionSpawnsNothing(k, log[..|log| - 1]); }
  }

  /** Root `q` serves connection `k`. */
  ghost predicate Serving(h: ServerHistory, q: Id, k: nat) { q in h.roots && h.roots[q].body == Process(k) }

  ghost predicate Served(h: ServerHistory, k: nat) { exists q :: Serving(h, q, k) }

  ghost predicate Accepts(h: ServerHistory, a: Id) { a in h.roots && h.roots[a].body == Listen(0) }

  /** Root `a` is the accept loop, all others are processes it spawned: the k-th spawn it logged is that of connection
      `k`, exactly one root serves it, and no root serves a connection without such a spawn. */
  ghost predicate Correspond(h: ServerHistory, a: Id) {
    && Accepts(h, a)
    && SpawnsOf(h.roots[a].log) == Processes(|SpawnsOf(h.roots[a].log)|)
    && (forall q :: q in h.roots && q != a ==> h.roots[q].body.Process?)
    && (forall q, k: nat :: Serving(h, q, k) ==> k < |SpawnsOf(h.roots[a].log)|)
    && (forall k: nat {:trigger Served(h, k)} :: k < |SpawnsOf(h.roots[a].log)| ==> Served(h, k))
    && (forall q, o, k: nat :: Serving(h, q, k) && Serving(h, o, k) ==> q == o)
  }

  lemma QuietCorrespond(h: ServerHistory, k: ServerHistory, a: Id)
    requires Correspond(h, a) && Quiet(h, k)
    ensures Correspond(k, a)
  {
    assert QuietAt(h, k, a);
    assert forall q :: q in h.roots ==> QuietAt(h, k, q);
    forall q, n: nat ensures Serving(h, q, n) <==> Serving(k, q, n) {
      assert q in h.roots ==> QuietAt(h, k, q);
    }
    forall n: nat | n < |SpawnsOf(k.roots[a].log)| ensures Served(k, n) {
      assert Served(h, n);
      var q :| Serving(h, q, n);
      assert Serving(k, q, n);
    }
  }

  lemma SpawnCorrespond(h: ServerHistory, k: ServerHistory, a: Id, g: Id)
    requires Correspond(h, a) && Roots.Spawns(h, k, a, g)
    requires SpawnsOf(k.roots[a].log) == Processes(|SpawnsOf(k.roots[a].log)|)
    ensures Correspond(k, a)
  {
    var n := |SpawnsOf(h.roots[a].log)|;
    SpawnsOneMore(h.roots[a].log, Direct.Event.Spawned(k.roots[g].body));
    assert SpawnsOf(k.roots[a].log)[n] == k.roots[g].body;
    assert k.roots[g].body == Process(n);
    forall q, c: nat ensures Serving(k, q, c) <==> Serving(h, q, c) || (q == g && c == n) {
      assert q in h.roots && q != a ==> QuietAt(h, k, q);
    }
    forall q | q in k.roots && q != a ensures k.roots[q].body.Process? {
      if q != g { assert QuietAt(h, k, q); }
    }
    assert Serving(k, g, n);
    forall c: nat | c < |SpawnsOf(k.roots[a].log)| ensures Served(k, c) {
      if c < n {
        assert Served(h, c);
        var q :| Serving(h, q, c);
        assert Serving(k, q, c);
      }
    }
  }

  /** Only the accept loop spawns. */
  lemma AcceptorSpawns(x: ServerRun, i: nat, a: Id, q: Id, g: Id)
    requires Executes(Server.Program(), x) && i < |x.events| && Correspond(x.histories[i], a)
    requires Roots.Spawns(x.histories[i], x.histories[i + 1], q, g)
    ensures q == a && var log := x.histories[i + 1].roots[a].log; SpawnsOf(log) == Processes(|SpawnsOf(log)|)
  {
    var (h, k) := (x.histories[i], x.histories[i + 1]);
    if q != a {
      ConnectionTrace(x, i + 1, q, k.roots[q].body.k);
      SessionSpawnsNothing(k.roots[q].body.k, k.roots[q].log);
      SpawnsOneMore(h.roots[q].log, Direct.Event.Spawned(k.roots[g].body));
      assert false;
    }
    AcceptTrace(x, i + 1, a);
    LoopSpawns(k.roots[a].log);
  }

  /** The accept loop is launched once. */
  predicate OneLoop(es: seq<Stimulus<Ctrl, Message>>) {
    forall i, j :: 0 <= i < j < |es| ==> !(es[i].Begin? && es[j].Begin?)
  }

  lemma FirstRoot(h: ServerHistory, k: ServerHistory, a: Id)
    requires h.roots == map[] && Adds(h, k, a) && k.roots[a].body == Listen(0)
    ensures Correspond(k, a)
  {
    assert k.roots.Keys == {a};
  }

  lemma StillCorrespond(x: ServerRun, i: nat, a: Id)
    requires Executes(Server.Program(), x) && i < |x.events| && !x.events[i].Begin? && Correspond(x.histories[i], a)
    ensures Correspond(x.histories[i + 1], a)
  {
    var (h, k) := (x.histories[i], x.histories[i + 1]);
    StepGrows(Server.Program(), x, i);
    if Quiet(h, k) {
      QuietCorrespond(h, k, a);
    } else {
      var q, g :| Roots.Spawns(h, k, q, g);
      AcceptorSpawns(x, i, a, q, g);
      SpawnCorrespond(h, k, a, g);
    }
  }

  /** In every run with one accept loop, connections, logged spawns and serving roots correspond one to one. */
  lemma {:induction false} OneRootPerConnection(x: ServerRun, i: nat)
    requires Serves(x.events) && OneLoop(x.events) && Executes(Server.Program(), x) && i <= |x.events|
    ensures if exists j :: 0 <= j < i && x.events[j].Begin? then exists a :: Correspond(x.histories[i], a)
            else x.histories[i].roots == map[]
  {
    if i > 0 {
      var (h, k, e) := (x.histories[i - 1], x.histories[i], x.events[i - 1]);
      OneRootPerConnection(x, i - 1);
      StepGrows(Server.Program(), x, i - 1);
      if e.Begin? {
        var g: Id :| Adds(h, k, g) && k.roots[g].body == e.body;
        assert h.roots == map[];
        FirstRoot(h, k, g);
      } else if exists j :: 0 <= j < i - 1 && x.events[j].Begin? {
        var a :| Correspond(h, a);
        StillCorrespond(x, i - 1, a);
      } else {
        assert Quiet(h, k);
        assert k.roots.Keys == {};
      }
    }
  }

  // ---- Spawns and accepted connections --------------------------------------------------------------

  /** Which of the answers an accept loop got were successes. */
  function Successes(log: Log): seq<bool> {
    if log == [] then []
    else
      var n := |log| - 1;
      Successes(log[..n]) + if log[n].Io? then [!log[n].answer.error] else []
  }

  /** Where the loop stands tells how many accepts succeeded before the first that failed. */
  lemma {:induction false} LoopAccepts(log: Log)
    requires !LoopOf(log).Astray?
    ensures var (phase, results) := (LoopOf(log), Successes(log));
      match phase
      case Ready(n) => |results| == n && Pool.Accepted(results) == n
      case Taken(n) => |results| == n + 1 && Pool.Accepted(results) == n + 1
      case Ended(n) => |results| == n + 1 && Pool.Accepted(results) == n
  {
    if log != [] {
      var before := log[..|log| - 1];
      LoopAccepts(before);
      Pool.AcceptedIs(Successes(log), if LoopOf(log).Taken? then LoopOf(log).n + 1 else LoopOf(log).n);
    }
  }

  /** Whenever the accept loop waits or has ended, it has spawned as many processes as the accepts before the first
      failure: as many as Pool.TcpServer.Listen, given the same results, places connections. */
  lemma SpawnsAreAccepted(x: ServerRun, i: nat, a: Id)
    requires Executes(Server.Program(), x) && i <= |x.events| && Accepts(x.histories[i], a)
    ensures var root := x.histories[i].roots[a];
      root.place.Parked? || root.result.Some? ==> |SpawnsOf(root.log)| == Pool.Accepted(Successes(root.log))
  {
    AcceptTrace(x, i, a);
    LoopSpawns(x.histories[i].roots[a].log);
    LoopAccepts(x.histories[i].roots[a].log);
  }
}

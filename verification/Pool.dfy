/** The pool of io contexts, handed out in turn, and where a server's connections land. */
module Pool {
  import opened Division

  // ---- Arithmetic of turns --------------------------------------------------------------------------

  /** How many of the calls numbered a, ..., a + w - 1 get context `c` of `n`. */
  function Share(n: nat, c: nat, a: nat, w: nat): nat
    requires n > 0
  {
    if w == 0 then 0 else Share(n, c, a, w - 1) + if (a + w - 1) % n == c then 1 else 0
  }

  lemma SameTurn(n: nat, c: nat, a: nat, w: nat)
    requires c < n
    ensures (a + w) % n == c <==> (c - a) % n == w % n
  {
    if (a + w) % n == c { TurnComes(n, c, a, w, (a + w) / n, w / n, w % n); }
    if (c - a) % n == w % n { TurnCame(n, c, a, w, (c - a) / n, w / n, w % n); }
  }

  lemma TurnComes(n: nat, c: nat, a: nat, w: nat, q: int, u: int, v: nat)
    requires c < n && a + w == q * n + c && w == u * n + v && v < n
    ensures (c - a) % n == v
  {
    assert c - a == (u - q) * n + v;
    Remainder(n, u - q, v, c - a);
  }

  lemma TurnCame(n: nat, c: nat, a: nat, w: nat, x: int, u: int, v: nat)
    requires c < n && c - a == x * n + v && w == u * n + v && v < n
    ensures (a + w) % n == c
  {
    assert a + w == (u - x) * n + c;
    Remainder(n, u - x, c, a + w);
  }

  lemma NextTurn(n: nat, w: nat)
    requires n > 0
    ensures (w + 1) / n == w / n + (if w % n == n - 1 then 1 else 0)
    ensures (w + 1) % n == if w % n == n - 1 then 0 else w % n + 1
  {
    var (q, r) := (w / n, w % n);
    if r == n - 1 {
      assert w + 1 == (q + 1) * n + 0;
      Remainder(n, q + 1, 0, w + 1);
    } else {
      assert w + 1 == q * n + (r + 1);
      Remainder(n, q, r + 1, w + 1);
    }
  }

  /** In any window of w calls a context gets its even share, rounded down, and one more just when its
      first turn in the window comes among the w mod n calls left over. */
  lemma {:induction false} EvenShare(n: nat, c: nat, a: nat, w: nat)
    requires c < n
    ensures Share(n, c, a, w) == w / n + if (c - a) % n < w % n then 1 else 0
  {
    if w > 0 {
      EvenShare(n, c, a, w - 1);
      NextTurn(n, w - 1);
      SameTurn(n, c, a, w - 1);
      var (x, q, r) := ((c - a) % n, (w - 1) / n, (w - 1) % n);
      assert Share(n, c, a, w - 1) == q + if x < r then 1 else 0;
      assert Share(n, c, a, w) == Share(n, c, a, w - 1) + if x == r then 1 else 0;
    }
  }

  lemma Ceiling(n: nat, w: nat, q: nat, r: nat)
    requires r < n && w == q * n + r
    ensures (w + n - 1) / n == if r == 0 then q else q + 1
  {
    if r == 0 {
      Remainder(n, q, n - 1, w + n - 1);
    } else {
      assert w + n - 1 == (q + 1) * n + (r - 1);
      Remainder(n, q + 1, r - 1, w + n - 1);
    }
  }

  function DownShare(n: nat, w: nat): nat
    requires n > 0
  {
    w / n
  }

  function UpShare(n: nat, w: nat): nat
    requires n > 0
  {
    (w + n - 1) / n
  }

  lemma Rounding(n: nat, w: nat)
    requires n > 0
    ensures UpShare(n, w) == DownShare(n, w) + if w % n == 0 then 0 else 1
  {
    Ceiling(n, w, w / n, w % n);
  }

  lemma DownOrUp(n: nat, c: nat, a: nat, w: nat)
    requires c < n
    ensures Share(n, c, a, w) == DownShare(n, w) || Share(n, c, a, w) == UpShare(n, w)
    ensures DownShare(n, w) <= UpShare(n, w) <= DownShare(n, w) + 1
  {
    Rounding(n, w);
    EvenShare(n, c, a, w);
  }

  /** A context's share of a window is the even share rounded down or up, so any two differ by at most one. */
  lemma FairShares(n: nat, c: nat, d: nat, a: nat, w: nat)
    requires c < n && d < n
    ensures Share(n, c, a, w) == DownShare(n, w) || Share(n, c, a, w) == UpShare(n, w)
    ensures -1 <= Share(n, c, a, w) - Share(n, d, a, w) <= 1
  {
    DownOrUp(n, c, a, w);
    DownOrUp(n, d, a, w);
  }

  // ---- The pool -------------------------------------------------------------------------------------

  class IOContext {
    var stopped: bool
    var guarded: bool   // some work guard keeps run from returning

    constructor ()
      ensures !stopped && !guarded
    {
      stopped, guarded := false, false;
    }
  }

  class IOContextPool {
    var nextContext: nat
    var contexts: seq<IOContext>
    var workGuards: seq<IOContext>
    ghost var calls: nat   // how often a context was handed out

    ghost predicate Valid()
      reads this
    {
      && nextContext == (if contexts == [] then 0 else calls % |contexts|)
      && (forall i, j :: 0 <= i < j < |contexts| ==> contexts[i] != contexts[j])
      && (workGuards == contexts || workGuards == [])
    }

    constructor (size: nat)
      ensures Valid() && calls == 0 && |contexts| == size && workGuards == contexts
      ensures forall i :: 0 <= i < size ==> fresh(contexts[i]) && contexts[i].guarded && !contexts[i].stopped
    {
      nextContext, contexts, workGuards, calls := 0, [], [], 0;
      new;
      for i := 0 to size
        invariant |contexts| == i && workGuards == contexts && calls == nextContext == 0
        invariant forall j :: 0 <= j < i ==> fresh(contexts[j]) && contexts[j].guarded && !contexts[j].stopped
        invariant forall j, k :: 0 <= j < k < i ==> contexts[j] != contexts[k]
      {
        var context := new IOContext();
        contexts := contexts + [context];
        context.guarded := true;
        workGuards := workGuards + [context];
      }
    }

    /** Call number k gets context k mod n. There must be one. */
    method GetIoContext() returns (context: IOContext)
      requires Valid() && contexts != []
      modifies `nextContext, `calls
      ensures Valid() && calls == old(calls) + 1
      ensures context == contexts[old(calls) % |contexts|]
    {
      NextTurn(|contexts|, calls);
      context := contexts[nextContext];
      nextContext := nextContext + 1;
      if nextContext == |contexts| {
        nextContext := 0;
      }
      calls := calls + 1;
    }

    /** Lets every context's run return. Stopping again does no harm. */
    method Stop()
      requires Valid()
      modifies `workGuards, contexts
      ensures Valid() && workGuards == []
      ensures forall i :: 0 <= i < |contexts| ==> contexts[i].stopped
      ensures old(workGuards) == contexts ==> forall i :: 0 <= i < |contexts| ==> !contexts[i].guarded
      ensures old(workGuards) == [] ==> forall i :: 0 <= i < |contexts| ==> contexts[i].guarded == old(contexts[i].guarded)
    {
      for i := 0 to |workGuards|
        invariant Valid() && workGuards == old(workGuards)
        invariant forall j :: 0 <= j < i ==> !workGuards[j].guarded
        invariant workGuards == [] ==> forall j :: 0 <= j < |contexts| ==> contexts[j].guarded == old(contexts[j].guarded)
        invariant forall j :: 0 <= j < |contexts| ==> contexts[j].stopped == old(contexts[j].stopped)
      {
        workGuards[i].guarded := false;
      }
      ghost var released := workGuards;
      workGuards := [];
      for i := 0 to |contexts|
        invariant Valid() && workGuards == []
        invariant forall j :: 0 <= j < i ==> contexts[j].stopped
        invariant released == contexts ==> forall j :: 0 <= j < |contexts| ==> !contexts[j].guarded
        invariant released == [] ==> forall j :: 0 <= j < |contexts| ==> contexts[j].guarded == old(contexts[j].guarded)
      {
        contexts[i].stopped := true;
      }
    }
  }

  // ---- The server -----------------------------------------------------------------------------------

  function CountOf(connections: seq<IOContext>, context: IOContext): nat {
    if connections == [] then 0
    else
      var n := |connections| - 1;
      CountOf(connections[..n], context) + if connections[n] == context then 1 else 0
  }

  /** Connections placed in turn from call number `first` on share as the calls do. */
  lemma {:induction false} CountIsShare(contexts: seq<IOContext>, connections: seq<IOContext>, first: nat, c: nat)
    requires c < |contexts| && forall i, j :: 0 <= i < j < |contexts| ==> contexts[i] != contexts[j]
    requires forall k :: 0 <= k < |connections| ==> connections[k] == contexts[(first + k) % |contexts|]
    ensures CountOf(connections, contexts[c]) == Share(|contexts|, c, first, |connections|)
  {
    if connections != [] {
      var n := |connections| - 1;
      CountIsShare(contexts, connections[..n], first, c);
      assert connections[n] == contexts[(first + n) % |contexts|];
    }
  }

  /** How many accepts succeed before the first that fails. */
  function Accepted(results: seq<bool>): (n: nat)
    ensures n <= |results| && (forall i :: 0 <= i < n ==> results[i]) && (n < |results| ==> !results[n])
  {
    if results == [] || !results[0] then 0 else 1 + Accepted(results[1..])
  }

  lemma AcceptedIs(results: seq<bool>, n: nat)
    requires n <= |results| && (forall i :: 0 <= i < n ==> results[i]) && (n < |results| ==> !results[n])
    ensures Accepted(results) == n
  {
  }

  predicate Fair(contexts: seq<IOContext>, connections: seq<IOContext>) {
    forall c, d :: 0 <= c < |contexts| && 0 <= d < |contexts| ==>
      -1 <= CountOf(connections, contexts[c]) - CountOf(connections, contexts[d]) <= 1
  }

  /** Placing in turn is fair, wherever it starts. */
  lemma InTurnIsFair(contexts: seq<IOContext>, connections: seq<IOContext>, first: nat)
    requires contexts != [] && forall i, j :: 0 <= i < j < |contexts| ==> contexts[i] != contexts[j]
    requires forall k :: 0 <= k < |connections| ==> connections[k] == contexts[(first + k) % |contexts|]
    ensures Fair(contexts, connections)
  {
    forall c, d | 0 <= c < |contexts| && 0 <= d < |contexts|
      ensures -1 <= CountOf(connections, contexts[c]) - CountOf(connections, contexts[d]) <= 1
    {
      CountIsShare(contexts, connections, first, c);
      CountIsShare(contexts, connections, first, d);
      FairShares(|contexts|, c, d, first, |connections|);
    }
  }

  class TcpServer {
    const pool: IOContextPool
    const acceptor: IOContext
    ghost const first: nat                // the number of the call that placed the acceptor
    var connections: seq<IOContext>       // the context of each accepted connection, in order

    ghost predicate Valid()
      reads this, pool
    {
      && pool.Valid() && pool.contexts != []
      && acceptor == pool.contexts[first % |pool.contexts|]
      && forall k :: 0 <= k < |connections| ==> connections[k] == pool.contexts[(first + 1 + k) % |pool.contexts|]
    }

    /** The acceptor takes a turn of its own. */
    constructor (pool: IOContextPool)
      requires pool.Valid() && pool.contexts != []
      modifies pool`nextContext, pool`calls
      ensures Valid() && this.pool == pool && connections == []
      ensures first == old(pool.calls) && pool.calls == first + 1
    {
      this.pool := pool;
      first := pool.calls;
      var context := pool.GetIoContext();
      acceptor := context;
      connections := [];
    }

    /** listen, up to the accept that has not completed: `results` says of each completed accept whether it
        succeeded. Connections differ in number between any two contexts by at most one. */
    method Listen(results: seq<bool>)
      requires Valid() && connections == [] && pool.calls == first + 1
      modifies `connections, pool`nextContext, pool`calls
      ensures Valid() && |connections| == Accepted(results)
      ensures pool.calls == first + 2 + |connections|
      ensures Fair(pool.contexts, connections)
    {
      var i := 0;
      while true
        invariant 0 <= i <= |results| && i == |connections|
        invariant Valid() && pool.calls == first + 1 + i
        invariant forall k :: 0 <= k < i ==> results[k]
        decreases |results| - i
      {
        var context := pool.GetIoContext();
        if i == |results| || !results[i] {
          break;
        }
        connections := connections + [context];
        i := i + 1;
      }
      AcceptedIs(results, i);
      InTurnIsFair(pool.contexts, connections, first + 1);
    }
  }
}

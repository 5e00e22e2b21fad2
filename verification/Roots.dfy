/** How the set of roots grows: only a launch adds one, or the spawn that its spawner has just logged. */
module Roots {
  import opened Direct
  import opened Frames
  import opened Chains
  import opened Transfers
  import opened Steps
  import opened Runs

  /** The bodies a root has spawned, in order. */
  function SpawnsOf<C, V>(log: seq<Direct.Event<C, V>>): seq<C> {
    if log == [] then []
    else
      var n := |log| - 1;
      SpawnsOf(log[..n]) + if log[n].Spawned? then [log[n].body] else []
  }

  lemma SpawnsOneMore<C, V>(log: seq<Direct.Event<C, V>>, e: Direct.Event<C, V>)
    ensures SpawnsOf(log + [e]) == SpawnsOf(log) + if e.Spawned? then [e.body] else []
  {
    assert (log + [e])[..|log|] == log;
  }

  /** Root `q` is what it was, and has spawned nothing. */
  ghost predicate QuietAt<C, V>(h: History<C, V>, k: History<C, V>, q: Id) {
    && q in h.roots && q in k.roots && k.roots[q].body == h.roots[q].body
    && SpawnsOf(k.roots[q].log) == SpawnsOf(h.roots[q].log)
  }

  ghost predicate Quiet<C, V>(h: History<C, V>, k: History<C, V>) {
    && k.roots.Keys == h.roots.Keys
    && forall q {:trigger QuietAt(h, k, q)} :: q in h.roots ==> QuietAt(h, k, q)
  }

  /** Root `x` is new. */
  ghost predicate Adds<C, V>(h: History<C, V>, k: History<C, V>, x: Id) {
    && x !in h.roots && k.roots.Keys == h.roots.Keys + {x} && k.roots[x].log == []
  }

  /** Root `q` has just logged that it spawned the body of root `x`, which is new; nothing else is. */
  ghost predicate Spawns<C, V>(h: History<C, V>, k: History<C, V>, q: Id, x: Id) {
    && Adds(h, k, x) && q in h.roots && k.roots[q].body == h.roots[q].body
    && k.roots[q].log == h.roots[q].log + [Spawned(k.roots[x].body)]
    && forall o {:trigger QuietAt(h, k, o)} :: o in h.roots && o != q ==> QuietAt(h, k, o)
  }

  lemma OneRootQuiet<C, V>(h: History<C, V>, k: History<C, V>, r: Id, log: seq<Direct.Event<C, V>>)
    requires r in h.roots && k.roots.Keys == h.roots.Keys && (forall q :: q in h.roots && q != r ==> k.roots[q] == h.roots[q])
    requires k.roots[r].body == h.roots[r].body && k.roots[r].log == h.roots[r].log + log
    requires |log| <= 1 && forall i :: 0 <= i < |log| ==> !log[i].Spawned?
    ensures Quiet(h, k)
  {
    if log == [] {
      assert h.roots[r].log + log == h.roots[r].log;
    } else {
      assert log == [log[0]];
      SpawnsOneMore(h.roots[r].log, log[0]);
    }
    forall q | q in h.roots ensures QuietAt(h, k, q) {}
  }

  lemma SameRootsQuiet<C, V>(h: History<C, V>, k: History<C, V>)
    requires k.roots == h.roots
    ensures Quiet(h, k)
  {
    forall q | q in h.roots ensures QuietAt(h, k, q) {}
  }

  lemma CallQuiet<C, V>(h: History<C, V>, r: Id, g: Id)
    requires r in h.roots
    ensures Quiet(h, RecordCall(h, r, g))
  {
    OneRootQuiet(h, RecordCall(h, r, g), r, []);
  }

  lemma ParkQuiet<C, V>(h: History<C, V>, r: Id, q: V)
    requires r in h.roots
    ensures Quiet(h, RecordPark(h, r, q))
  {
    OneRootQuiet(h, RecordPark(h, r, q), r, []);
  }

  lemma ReturnQuiet<C, V>(h: History<C, V>, r: Id, v: V)
    requires r in h.roots && h.roots[r].chain != []
    ensures Quiet(h, Note(h, r, [Joined(v)])) && Quiet(h, RecordJoin(h, r, v)) && Quiet(h, RecordFinish(h, r, v))
  {
    OneRootQuiet(h, Note(h, r, [Joined(v)]), r, [Joined(v)]);
    OneRootQuiet(h, RecordJoin(h, r, v), r, [Joined(v)]);
    OneRootQuiet(h, RecordFinish(h, r, v), r, []);
  }

  lemma AnswerQuiet<C, V>(h: History<C, V>, r: Id, t: ThreadId, q: V, v: V)
    requires r in h.roots
    ensures Quiet(h, RecordAnswer(h, r, t, q, v))
  {
    OneRootQuiet(h, RecordAnswer(h, r, t, q, v), r, [Io(q, v)]);
  }

  lemma SpawnAdds<C, V>(m: Machine<C, V>, h: History<C, V>, t: ThreadId, f: Id, s: Slot)
    requires Inv(m, h) && f in m.frames && f in h.home && h.home[f] in h.roots
    requires s in m.frames[f].slots && SlotOk(m, h, f, s)
    ensures Spawns(h, RecordSpawn(m, h, t, f, s), h.home[f], m.frames[f].slots[s])
  {
    var g, r, k := m.frames[f].slots[s], h.home[f], RecordSpawn(m, h, t, f, s);
    assert g in h.roots ==> RootOk(m, h, g);
    forall o | o in h.roots && o != r ensures QuietAt(h, k, o) {}
  }

  /** One action adds no root and logs no spawn, or does both. */
  lemma RunGrows<C, V>(p: Program<C, V>, m: Machine<C, V>, h: History<C, V>, t: ThreadId)
    requires Inv(m, h) && Perform(p, m, t).Ok?
    ensures Quiet(h, RecordRun(p, m, h, t)) || exists q, x :: Spawns(h, RecordRun(p, m, h, t), q, x)
  {
    TopRuns(m, h, t);
    var f := Top(m, t);
    var r := h.home[f];
    RunningOwns(m, h, f);
    RunningLeaf(m, h, f);
    match p.code(m.frames[f].ctrl)
    case Make(s, _, _) => SameRootsQuiet(h, RecordMake(m, h, f, s));
    case Move(d, s, _) => SameRootsQuiet(h, RecordMove(m, h, f, d, s));
    case Drop(_, _) => SameRootsQuiet(h, h);
    case Spawn(s, _) =>
      assert FrameOk(m, h, f) && SlotOk(m, h, f, s);
      SpawnAdds(m, h, t, f, s);
    case Await(s) =>
      var g := m.frames[f].slots[s];
      if m.frames[g].point.Final? { ReturnQuiet(h, r, m.frames[g].value.value); } else { CallQuiet(h, r, g); }
    case Callback(q) => ParkQuiet(h, r, q);
    case Return(v) => ReturnQuiet(h, r, v);
  }

  /** One stimulus: a launch adds the root it launches, a completion adds none, an action at most one. */
  lemma EventGrows<C, V>(p: Program<C, V>, m: Machine<C, V>, h: History<C, V>, e: Stimulus<C, V>)
    requires Inv(m, h) && Advance(p, m, e).Ok?
    ensures var k := Record(p, m, h, e);
      if e.Begin? then
        && Adds(h, k, m.next) && k.roots[m.next].body == e.body
        && forall q {:trigger QuietAt(h, k, q)} :: q in h.roots ==> QuietAt(h, k, q)
      else Quiet(h, k) || (e.Run? && exists q, x :: Spawns(h, k, q, x))
  {
    match e
    case Run(t) => RunGrows(p, m, h, t);
    case Finish(t, f, v) =>
      assert FrameOk(m, h, f);
      AnswerQuiet(h, h.home[f], t, m.frames[f].point.request, v);
    case Begin(t, body) =>
      var k := Record(p, m, h, e);
      assert m.next in h.roots ==> RootOk(m, h, m.next);
      forall q | q in h.roots ensures QuietAt(h, k, q) {}
  }
}

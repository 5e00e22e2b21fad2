/** What holds of every run of the coroutine runtime, for every program and every schedule. */
module Coroutines {
  import opened Prelude
  import opened Direct
  import opened Frames
  import opened Chains
  import opened Transfers
  import opened Threads
  import opened Steps
  import opened Runs
  import opened Roots

  /** The machine after the stimuli `es`, from nothing. */
  function Play<C, V>(p: Program<C, V>, es: seq<Stimulus<C, V>>): Attempt<Machine<C, V>> {
    if es == [] then Ok(Empty())
    else
      var m :- Play(p, es[..|es| - 1]);
      Advance(p, m, es[|es| - 1])
  }

  /** No handle is ever used after its frame is gone, no frame is resumed twice or after it finished,
      none is destroyed twice or while it waits, and no completion finds its awaiter gone. */
  lemma {:induction false} NothingBreaks<C(!new), V(!new)>(p: Program<C, V>, es: seq<Stimulus<C, V>>)
    ensures !Play(p, es).Broken?
  {
    if es != [] {
      var before := es[..|es| - 1];
      NothingBreaks(p, before);
      if Play(p, before).Ok? {
        var x := ExecutionOf(p, before);
        EndsGood(p, x);
        AdvanceGood(p, Last(x), Past(x), es[|es| - 1]);
      }
    }
  }

  // ---- Executions --------------------------------------------------------------------------------

  /** A run in full: the stimuli, and the machine with its bookkeeping before, between and after them. */
  datatype Execution<C, V> = Execution(
    events: seq<Stimulus<C, V>>, states: seq<Machine<C, V>>, histories: seq<History<C, V>>)

  predicate Shaped<C, V>(x: Execution<C, V>) { |x.states| == |x.histories| == |x.events| + 1 }

  function Last<C, V>(x: Execution<C, V>): Machine<C, V>
    requires Shaped(x)
  {
    x.states[|x.events|]
  }

  function Past<C, V>(x: Execution<C, V>): History<C, V>
    requires Shaped(x)
  {
    x.histories[|x.events|]
  }

  ghost predicate StepAt<C, V>(p: Program<C, V>, x: Execution<C, V>, i: nat)
    requires Shaped(x) && i < |x.events|
  {
    && Inv(x.states[i], x.histories[i])
    && Advance(p, x.states[i], x.events[i]) == Ok(x.states[i + 1])
    && x.histories[i + 1] == Record(p, x.states[i], x.histories[i], x.events[i])
  }

  ghost predicate Executes<C, V>(p: Program<C, V>, x: Execution<C, V>) {
    && Shaped(x) && x.states[0] == Empty() && x.histories[0] == NoHistory()
    && forall i: nat {:trigger StepAt(p, x, i)} :: i < |x.events| ==> StepAt(p, x, i)
  }

  /** Every state of an execution satisfies the invariant. */
  lemma {:induction false} AlwaysGood<C(!new), V(!new)>(p: Program<C, V>, x: Execution<C, V>, i: nat)
    requires Executes(p, x) && i <= |x.events|
    ensures Good(p, x.states[i], x.histories[i])
  {
    if i > 0 {
      AlwaysGood(p, x, i - 1);
      StaysGoodAt(p, x, i - 1);
    }
  }

  lemma StaysGoodAt<C(!new), V(!new)>(p: Program<C, V>, x: Execution<C, V>, i: nat)
    requires Executes(p, x) && i < |x.events| && Good(p, x.states[i], x.histories[i])
    ensures Good(p, x.states[i + 1], x.histories[i + 1])
  {
    assert StepAt(p, x, i);
    AdvanceGood(p, x.states[i], x.histories[i], x.events[i]);
  }

  lemma EndsGood<C(!new), V(!new)>(p: Program<C, V>, x: Execution<C, V>)
    requires Executes(p, x)
    ensures Good(p, Last(x), Past(x))
  {
    AlwaysGood(p, x, |x.events|);
  }

  /** The executions are exactly the runs that do not stop: each one's states are those of Play, ... */
  lemma {:induction false} ExecutionPlays<C, V>(p: Program<C, V>, x: Execution<C, V>, i: nat)
    requires Executes(p, x) && i <= |x.events|
    ensures Play(p, x.events[..i]) == Ok(x.states[i])
  {
    if i > 0 {
      ExecutionPlays(p, x, i - 1);
      NextPlays(p, x, i - 1);
    }
  }

  lemma NextPlays<C, V>(p: Program<C, V>, x: Execution<C, V>, i: nat)
    requires Executes(p, x) && i < |x.events| && Play(p, x.events[..i]) == Ok(x.states[i])
    ensures Play(p, x.events[..i + 1]) == Ok(x.states[i + 1])
  {
    assert StepAt(p, x, i);
    TakeOneMore(x.events, i);
    PlayNext(p, x.events[..i], x.events[i]);
  }

  lemma TakeOneMore<T>(es: seq<T>, i: nat)
    requires i < |es|
    ensures es[..i + 1] == es[..i] + [es[i]]
  {
  }

  lemma PlayNext<C, V>(p: Program<C, V>, es: seq<Stimulus<C, V>>, e: Stimulus<C, V>)
    ensures Play(p, es).Ok? ==> Play(p, es + [e]) == Advance(p, Play(p, es).value, e)
    ensures Play(p, es + [e]).Ok? ==> Play(p, es).Ok?
  {
    assert (es + [e])[..|es|] == es;
  }

  /** ... and every run that does not stop is one. */
  lemma {:induction false} ExecutionOf<C(!new), V(!new)>(p: Program<C, V>, es: seq<Stimulus<C, V>>)
    returns (x: Execution<C, V>)
    requires Play(p, es).Ok?
    ensures Executes(p, x) && x.events == es && Last(x) == Play(p, es).value
    decreases |es|
  {
    if es == [] {
      x := Execution([], [Empty()], [NoHistory()]);
    } else {
      var n := |es| - 1;
      PlayNext(p, es[..n], es[n]);
      assert es == es[..n] + [es[n]];
      var y := ExecutionOf(p, es[..n]);
      x := Longer(p, y, es[n]);
    }
  }

  lemma Longer<C(!new), V(!new)>(p: Program<C, V>, y: Execution<C, V>, e: Stimulus<C, V>) returns (x: Execution<C, V>)
    requires Executes(p, y) && Advance(p, Last(y), e).Ok?
    ensures Executes(p, x) && x.events == y.events + [e] && Last(x) == Advance(p, Last(y), e).value
    ensures Inv(Last(y), Past(y)) && Past(x) == Record(p, Last(y), Past(y), e)
  {
    EndsGood(p, y);
    var n := Advance(p, Last(y), e).value;
    x := Execution(y.events + [e], y.states + [n], y.histories + [Record(p, Last(y), Past(y), e)]);
    forall i: nat | i < |x.events| ensures StepAt(p, x, i) {
      if i < |y.events| { assert StepAt(p, y, i); }
    }
  }

  /** Between two states of an execution the roots grow as Roots.EventGrows says. */
  lemma StepGrows<C(!new), V(!new)>(p: Program<C, V>, x: Execution<C, V>, i: nat)
    requires Executes(p, x) && i < |x.events|
    ensures var (h, k, e) := (x.histories[i], x.histories[i + 1], x.events[i]);
      if e.Begin? then
        exists g: Id :: Adds(h, k, g) && k.roots[g].body == e.body
          && forall q {:trigger QuietAt(h, k, q)} :: q in h.roots ==> QuietAt(h, k, q)
      else Quiet(h, k) || exists q, g :: Spawns(h, k, q, g)
  {
    AlwaysGood(p, x, i);
    assert StepAt(p, x, i);
    EventGrows(p, x.states[i], x.histories[i], x.events[i]);
  }

  // ---- Lifetime ----------------------------------------------------------------------------------

  /** Every frame ever created is alive or destroyed, never both; the final awaiter destroys the
      spawned roots and the owning Task destroys every other frame. */
  lemma LiveOrDestroyed<C(!new), V(!new)>(p: Program<C, V>, x: Execution<C, V>, f: Id)
    requires Executes(p, x)
    ensures var (m, h) := (Last(x), Past(x));
      && (f < m.next <==> (f in m.frames || f in m.destroyed))
      && !(f in m.frames && f in m.destroyed)
      && (f in m.destroyed ==> (m.destroyed[f] == FinalAwaiter <==> f in h.roots))
  {
    EndsGood(p, x);
    assert IdsOk(Last(x), Past(x));
  }

  lemma AdvanceKeepsDestroyed<C(!new), V(!new)>(
    p: Program<C, V>, m: Machine<C, V>, h: History<C, V>, e: Stimulus<C, V>, f: Id)
    requires Good(p, m, h) && Advance(p, m, e).Ok? && f in m.destroyed
    ensures var n := Advance(p, m, e).value; f in n.destroyed && n.destroyed[f] == m.destroyed[f]
  {
    assert IdsOk(m, h);
    if e.Run? { PerformKeepsDestroyed(p, m, e.thread, f); }
  }

  lemma PerformKeepsDestroyed<C, V>(p: Program<C, V>, m: Machine<C, V>, t: ThreadId, f: Id)
    requires Perform(p, m, t).Ok? && f in m.destroyed && f !in m.frames
    ensures var n := Perform(p, m, t).value; f in n.destroyed && n.destroyed[f] == m.destroyed[f]
  {
    var g := Top(m, t);
    match p.code(m.frames[g].ctrl)
    case Drop(s, next) => DropKeepsDestroyed(SetCtrl(m, g, next), g, {s}, f);
    case Return(v) => DropKeepsDestroyed(m, g, m.frames[g].slots.Keys, f);
    case Spawn(s, next) => SpawnKeepsDestroyed(p, SetCtrl(m, g, next), t, g, s);
    case Await(s) => AwaitKeepsDestroyed(p, m, t, g, s);
    case _ =>
  }

  lemma SpawnKeepsDestroyed<C, V>(p: Program<C, V>, m: Machine<C, V>, t: ThreadId, g: Id, s: Slot)
    requires g in m.frames && SpawnTask(p, m, t, g, s).Ok?
    ensures SpawnTask(p, m, t, g, s).value.destroyed == m.destroyed
  {
  }

  lemma AwaitKeepsDestroyed<C, V>(p: Program<C, V>, m: Machine<C, V>, t: ThreadId, g: Id, s: Slot)
    requires g in m.frames && StackOf(m, t) != [] && AwaitTask(p, m, t, g, s).Ok?
    ensures AwaitTask(p, m, t, g, s).value.destroyed == m.destroyed
  {
  }

  lemma DropKeepsDestroyed<C, V>(m: Machine<C, V>, g: Id, scope: set<Slot>, f: Id)
    requires g in m.frames && DropSlots(m, g, scope).Ok? && f in m.destroyed && f !in m.frames
    ensures var n := DropSlots(m, g, scope).value; f in n.destroyed && n.destroyed[f] == m.destroyed[f] && f !in n.frames
  {
  }

  /** Destruction is final: nothing that runs later brings a frame back or destroys it again. */
  lemma {:induction false} DestroyedForGood<C(!new), V(!new)>(p: Program<C, V>, x: Execution<C, V>, i: nat, j: nat, f: Id)
    requires Executes(p, x) && i <= j <= |x.events| && f in x.states[i].destroyed
    ensures f in x.states[j].destroyed && x.states[j].destroyed[f] == x.states[i].destroyed[f]
    ensures f !in x.states[j].frames
    decreases j
  {
    if i < j {
      DestroyedForGood(p, x, i, j - 1, f);
      StepKeepsDestroyed(p, x, j - 1, f);
    }
    DestroyedIsGone(p, x, j, f);
  }

  lemma StepKeepsDestroyed<C(!new), V(!new)>(p: Program<C, V>, x: Execution<C, V>, i: nat, f: Id)
    requires Executes(p, x) && i < |x.events| && f in x.states[i].destroyed
    ensures f in x.states[i + 1].destroyed && x.states[i + 1].destroyed[f] == x.states[i].destroyed[f]
  {
    AlwaysGood(p, x, i);
    assert StepAt(p, x, i);
    AdvanceKeepsDestroyed(p, x.states[i], x.histories[i], x.events[i], f);
  }

  lemma DestroyedIsGone<C(!new), V(!new)>(p: Program<C, V>, x: Execution<C, V>, i: nat, f: Id)
    requires Executes(p, x) && i <= |x.events| && f in x.states[i].destroyed
    ensures f !in x.states[i].frames
  {
    AlwaysGood(p, x, i);
    assert IdsOk(x.states[i], x.histories[i]);
  }

  // ---- Ownership ---------------------------------------------------------------------------------

  predicate Holds<C, V>(m: Machine<C, V>, g: Id, s: Slot, f: Id) {
    g in m.frames && s in m.frames[g].slots && m.frames[g].slots[s] == f
  }

  /** Every live frame is a spawned root that no Task holds, or is held by exactly one Task. */
  lemma OneOwner<C(!new), V(!new)>(p: Program<C, V>, x: Execution<C, V>, f: Id)
    requires Executes(p, x) && f in Last(x).frames
    ensures var (m, h) := (Last(x), Past(x));
      if f in h.roots then forall g, s :: !Holds(m, g, s, f)
      else exists g, s :: Holds(m, g, s, f) && forall k, u :: Holds(m, k, u, f) ==> k == g && u == s
  {
    var m, h := Last(x), Past(x);
    EndsGood(p, x);
    if f in h.roots {
      forall g, s ensures !Holds(m, g, s, f) { RootIsFree(m, h, f, g, s); }
    } else {
      var o := HeldBy(m, h, f);
      forall k, u | Holds(m, k, u, f) ensures k == o.0 && u == o.1 { HolderIsOwner(m, h, f, k, u); }
    }
  }

  lemma HolderIsOwner<C, V>(m: Machine<C, V>, h: History<C, V>, f: Id, g: Id, s: Slot)
    requires Inv(m, h) && Holds(m, g, s, f)
    ensures f in h.owner && h.owner[f] == (g, s) && f in h.home && h.home[f] != f
  {
    assert FrameOk(m, h, g) && SlotOk(m, h, g, s);
  }

  lemma RootIsFree<C, V>(m: Machine<C, V>, h: History<C, V>, f: Id, g: Id, s: Slot)
    requires Inv(m, h) && f in h.roots
    ensures !Holds(m, g, s, f)
  {
    assert RootOk(m, h, f);
    if Holds(m, g, s, f) { HolderIsOwner(m, h, f, g, s); }
  }

  lemma HeldBy<C, V>(m: Machine<C, V>, h: History<C, V>, f: Id) returns (o: (Id, Slot))
    requires Inv(m, h) && f in m.frames && f !in h.roots
    ensures f in h.owner && o == h.owner[f] && Holds(m, o.0, o.1, f)
  {
    assert FrameOk(m, h, f);
    o := h.owner[f];
  }

  /** Nothing leaks: when a root has finished, every frame created beneath it has been destroyed. */
  lemma NothingLeaks<C(!new), V(!new)>(p: Program<C, V>, x: Execution<C, V>, r: Id, f: Id)
    requires Executes(p, x)
    requires r in Past(x).roots && Past(x).roots[r].result.Some?
    requires f in Past(x).home && Past(x).home[f] == r && f < Last(x).next
    ensures f in Last(x).destroyed
  {
    var m, h := Last(x), Past(x);
    EndsGood(p, x);
    assert RootOk(m, h, r);
    assert IdsOk(m, h) && (f in m.frames ==> FrameOk(m, h, f));
  }

  /** A frame that is destroyed has no live Tasks, so a destructor never cascades. */
  lemma OnlyStartedFramesOwn<C(!new), V(!new)>(p: Program<C, V>, x: Execution<C, V>, f: Id)
    requires Executes(p, x) && f in Last(x).frames
    requires Last(x).frames[f].point.Initial? || Last(x).frames[f].point.Final?
    ensures Last(x).frames[f].slots == map[]
  {
    EndsGood(p, x);
    assert FrameOk(Last(x), Past(x), f);
  }

  // ---- Chains ------------------------------------------------------------------------------------

  /** A live root's chain: it starts at the root, each frame waits for the next one and is its
      caller, none occurs twice, and the leaf executes or waits for a completion. */
  lemma ChainShape<C(!new), V(!new)>(p: Program<C, V>, x: Execution<C, V>, r: Id)
    requires Executes(p, x) && r in Past(x).roots && Past(x).roots[r].result.None?
    ensures var m, chain := Last(x), Past(x).roots[r].chain;
      && chain != [] && chain[0] == r
      && (forall i :: 0 <= i < |chain| ==> chain[i] in m.frames)
      && m.frames[r].caller == None
      && (forall i :: 0 <= i < |chain| - 1 ==>
            && m.frames[chain[i]].point.AtTask? && m.frames[chain[i]].point.callee == chain[i + 1]
            && m.frames[chain[i + 1]].caller == Some(chain[i]))
      && (forall i, j :: 0 <= i < j < |chain| ==> chain[i] != chain[j])
      && var leaf := m.frames[chain[|chain| - 1]];
         (leaf.point.Executing? || (leaf.point.AtCallback? && chain[|chain| - 1] in m.pending))
  {
    EndsGood(p, x);
    ChainIsLinked(Last(x), Past(x), r);
  }

  lemma ChainIsLinked<C, V>(m: Machine<C, V>, h: History<C, V>, r: Id)
    requires Inv(m, h) && r in h.roots && h.roots[r].result.None?
    ensures var chain := h.roots[r].chain;
      && chain != [] && chain[0] == r
      && (forall i :: 0 <= i < |chain| ==> chain[i] in m.frames)
      && m.frames[r].caller == None
      && (forall i :: 0 <= i < |chain| - 1 ==>
            && m.frames[chain[i]].point.AtTask? && m.frames[chain[i]].point.callee == chain[i + 1]
            && m.frames[chain[i + 1]].caller == Some(chain[i]))
      && (forall i, j :: 0 <= i < j < |chain| ==> chain[i] != chain[j])
      && var leaf := m.frames[chain[|chain| - 1]];
         (leaf.point.Executing? || (leaf.point.AtCallback? && chain[|chain| - 1] in m.pending))
  {
    var chain := h.roots[r].chain;
    assert RootOk(m, h, r);
    forall i | 0 <= i < |chain| ensures chain[i] in m.frames { LinkAt(m, h, r, i); }
    forall i | 0 <= i < |chain| - 1
      ensures m.frames[chain[i]].point.AtTask? && m.frames[chain[i]].point.callee == chain[i + 1]
      ensures m.frames[chain[i + 1]].caller == Some(chain[i])
    {
      LinkAt(m, h, r, i);
    }
    forall i: nat, j: nat | i < j < |chain| ensures chain[i] != chain[j] {
      LinkAt(m, h, r, i);
      LinkAt(m, h, r, j);
    }
    LeafAt(m, h, r);
    assert chain[|chain| - 1] == LeafOf(h, r);
  }

  lemma LinkAt<C, V>(m: Machine<C, V>, h: History<C, V>, r: Id, i: nat)
    requires Inv(m, h) && r in h.roots && i < |h.roots[r].chain|
    ensures var chain := h.roots[r].chain;
      && chain[i] in m.frames && chain[i] in h.depth && h.depth[chain[i]] == i
      && (i < |chain| - 1 ==>
            && m.frames[chain[i]].point.AtTask? && m.frames[chain[i]].point.callee == chain[i + 1]
            && chain[i + 1] in m.frames && m.frames[chain[i + 1]].caller == Some(chain[i]))
  {
    var chain := h.roots[r].chain;
    assert RootOk(m, h, r) && LinkOk(m, h, r, i) && FrameOk(m, h, chain[i]);
    if i < |chain| - 1 { assert LinkOk(m, h, r, i + 1); }
  }

  lemma LeafAt<C, V>(m: Machine<C, V>, h: History<C, V>, r: Id)
    requires Inv(m, h) && r in h.roots && h.roots[r].chain != []
    ensures LeafOf(h, r) in m.frames && r in m.frames && m.frames[r].caller == None
    ensures var leaf := m.frames[LeafOf(h, r)];
      leaf.point.Executing? || (leaf.point.AtCallback? && LeafOf(h, r) in m.pending)
  {
    assert RootOk(m, h, r) && LinkOk(m, h, r, |h.roots[r].chain| - 1) && LinkOk(m, h, r, 0);
    assert FrameOk(m, h, LeafOf(h, r));
  }

  /** The chains are disjoint, and together hold exactly the frames that were started and have not
      finished: a frame is in the chain of the root it was created beneath, and in no other. */
  lemma OneChain<C(!new), V(!new)>(p: Program<C, V>, x: Execution<C, V>, f: Id, r: Id)
    requires Executes(p, x) && f in Last(x).frames
    ensures var (m, h) := (Last(x), Past(x));
      f in h.home && (InChain(h, r, f) <==> Started(m, f) && r == h.home[f])
  {
    var m, h := Last(x), Past(x);
    EndsGood(p, x);
    assert FrameOk(m, h, f);
    if InChain(h, r, f) { ChainIsHome(m, h, f, r); }
    if Started(m, f) { HomeChain(m, h, f); }
  }

  ghost predicate InChain<C, V>(h: History<C, V>, r: Id, f: Id) { r in h.roots && f in h.roots[r].chain }

  lemma ChainIsHome<C, V>(m: Machine<C, V>, h: History<C, V>, f: Id, r: Id)
    requires Inv(m, h) && InChain(h, r, f)
    ensures f in m.frames && Started(m, f) && f in h.home && h.home[f] == r
  {
    assert RootOk(m, h, r);
    var i: nat :| i < |h.roots[r].chain| && h.roots[r].chain[i] == f;
    assert LinkOk(m, h, r, i);
  }

  lemma HomeChain<C, V>(m: Machine<C, V>, h: History<C, V>, f: Id)
    requires Inv(m, h) && f in m.frames && Started(m, f)
    ensures f in h.home && InChain(h, h.home[f], f)
  {
    assert FrameOk(m, h, f);
    assert h.roots[h.home[f]].chain[h.depth[f]] == f;
  }

  predicate AtEntry<C, V>(m: Machine<C, V>, f: Id, t: ThreadId, i: nat) {
    t in m.stacks && i < |m.stacks[t]| && m.stacks[t][i] == f
  }

  /** A frame executes on exactly one stack position, or on none; it waits for a completion exactly
      when the operating system holds its handle. */
  lemma OnePlace<C(!new), V(!new)>(p: Program<C, V>, x: Execution<C, V>, f: Id)
    requires Executes(p, x) && f in Last(x).frames
    ensures var m := Last(x);
      && (m.frames[f].point.AtCallback? <==> f in m.pending)
      && (if m.frames[f].point.Executing? then
            exists t, i :: AtEntry(m, f, t, i) && forall u, j :: AtEntry(m, f, u, j) ==> u == t && j == i
          else forall t, i :: !AtEntry(m, f, t, i))
  {
    var m, h := Last(x), Past(x);
    EndsGood(p, x);
    assert FrameOk(m, h, f);
    forall t, i | AtEntry(m, f, t, i) ensures m.frames[f].point.Executing? && h.roots[h.home[f]].place == OnStack(t, i) {
      assert EntryOk(m, h, t, i);
    }
    if m.frames[f].point.Executing? {
      var place := h.roots[h.home[f]].place;
      assert AtEntry(m, f, place.thread, place.index);
    }
  }

  // ---- Agreement with direct style ---------------------------------------------------------------

  /** A root that has finished, or waits for a completion, has produced at every co_await the values
      that plain recursive evaluation of its body produces on the same answers, and stops as it does. */
  lemma AgreesWithDirectStyle<C(!new), V(!new)>(p: Program<C, V>, x: Execution<C, V>, r: Id)
    requires Executes(p, x) && r in Past(x).roots
    ensures var root := Past(x).roots[r];
      && (root.result.Some? ==> Evaluates(p, root.body, root.io, Result(Finished(root.result.value), root.log, [])))
      && (root.place.Parked? ==> Evaluates(p, root.body, root.io, Result(Blocked(root.place.request), root.log, [])))
  {
    EndsGood(p, x);
    TrackedAgrees(p, Last(x), Past(x), r);
  }

  lemma TrackedAgrees<C(!new), V(!new)>(p: Program<C, V>, m: Machine<C, V>, h: History<C, V>, r: Id)
    requires Good(p, m, h) && r in h.roots
    ensures var root := h.roots[r];
      && (root.result.Some? ==> Evaluates(p, root.body, root.io, Result(Finished(root.result.value), root.log, [])))
      && (root.place.Parked? ==> Evaluates(p, root.body, root.io, Result(Blocked(root.place.request), root.log, [])))
  {
    var root := h.roots[r];
    assert RootOk(m, h, r) && Tracks(p, m, h, r);
    if root.chain == [] {
      var th: Thread<C, V> :| Arrives(p, root.body, root.io, root.log, th) && Tick(p, th) == End(root.result.value);
      ArrivesEvaluates(p, root.body, root.io, root.log, th);
    } else if root.place.Parked? {
      ArrivesEvaluates(p, root.body, root.io, root.log, ThreadOf(m, h, r));
    }
  }

  lemma ParkedLeaf<C, V>(m: Machine<C, V>, h: History<C, V>, r: Id)
    requires Inv(m, h) && r in h.roots && h.roots[r].chain != []
    ensures h.roots[r].place.Parked? <==> LeafOf(h, r) in m.pending
  {
    assert RootOk(m, h, r) && LinkOk(m, h, r, |h.roots[r].chain| - 1);
    assert FrameOk(m, h, LeafOf(h, r));
  }

  /** A live root waits for a completion exactly when its leaf is in the hands of the operating system. */
  lemma ParkedIsPending<C(!new), V(!new)>(p: Program<C, V>, x: Execution<C, V>, r: Id)
    requires Executes(p, x) && r in Past(x).roots && Past(x).roots[r].result.None?
    ensures Past(x).roots[r].chain != []
    ensures Past(x).roots[r].place.Parked? <==> LeafOf(Past(x), r) in Last(x).pending
  {
    EndsGood(p, x);
    assert RootOk(Last(x), Past(x), r);
    ParkedLeaf(Last(x), Past(x), r);
  }

  /** What a root does depends on its body and the answers it got, not on the schedule, the other
      roots, or the run it is part of. */
  lemma ScheduleDoesNotMatter<C(!new), V(!new)>(
    p: Program<C, V>, x: Execution<C, V>, r: Id, y: Execution<C, V>, q: Id)
    requires Executes(p, x) && r in Past(x).roots
    requires Executes(p, y) && q in Past(y).roots
    requires Past(x).roots[r].body == Past(y).roots[q].body
    requires Past(x).roots[r].io == Past(y).roots[q].io
    requires !Past(x).roots[r].place.OnStack? && !Past(y).roots[q].place.OnStack?
    ensures var a, b := Past(x).roots[r], Past(y).roots[q];
      a.log == b.log && a.result == b.result && a.place == b.place
  {
    var a, b := Past(x).roots[r], Past(y).roots[q];
    AgreesWithDirectStyle(p, x, r);
    AgreesWithDirectStyle(p, y, q);
    EndsGood(p, x);
    EndsGood(p, y);
    assert RootOk(Last(x), Past(x), r) && RootOk(Last(y), Past(y), q);
    var u := Result(if a.place.Parked? then Blocked(a.place.request) else Finished(a.result.value), a.log, []);
    var w := Result(if b.place.Parked? then Blocked(b.place.request) else Finished(b.result.value), b.log, []);
    EvaluatesIsDeterministic(p, a.body, a.io, u, w);
  }

  /** Where the machine reports a misuse, direct-style evaluation of the running root is stuck, for the same reason. */
  lemma MisuseIsStuck<C(!new), V(!new)>(p: Program<C, V>, x: Execution<C, V>, t: ThreadId)
    requires Executes(p, x) && StackOf(Last(x), t) != []
    ensures var (m, h) := (Last(x), Past(x));
      && Top(m, t) in h.home && h.home[Top(m, t)] in h.roots
      && var root := h.roots[h.home[Top(m, t)]];
         forall u :: Perform(p, m, t) == Misused(u) ==> Evaluates(p, root.body, root.io, Result(Stuck(u), root.log, []))
  {
    var m, h := Last(x), Past(x);
    EndsGood(p, x);
    RunGood(p, m, h, t);
    var r := h.home[Top(m, t)];
    assert Tracks(p, m, h, r);
    if Perform(p, m, t).Misused? {
      var root := h.roots[r];
      ArrivesEvaluates(p, root.body, root.io, root.log, ThreadOf(m, h, r));
    }
  }

  // ---- Completions -------------------------------------------------------------------------------

  /** An operation can complete just when it is outstanding and the thread is back in its event loop. Then its
      awaiter is alive, its frame is resumed once, with the answer as the value of its co_await, no other frame
      and no other root changes, and the operation is no longer outstanding. */
  lemma CompletionDelivers<C(!new), V(!new)>(p: Program<C, V>, x: Execution<C, V>, t: ThreadId, f: Id, v: V)
    requires Executes(p, x)
    ensures var m := Last(x); Advance(p, m, Finish(t, f, v)).Ok? <==> f in m.pending && StackOf(m, t) == []
    ensures Advance(p, Last(x), Finish(t, f, v)).Ok? ==>
      && Inv(Last(x), Past(x)) && f in Last(x).frames && f in Past(x).home
      && var (m, h, r) := (Last(x), Past(x), Past(x).home[f]);
         var n := Advance(p, m, Finish(t, f, v)).value;
         var k := Record(p, m, h, Finish(t, f, v));
      && m.frames[f].point.AtCallback? && f !in n.pending && StackOf(n, t) == [f]
      && n.frames == m.frames[f := m.frames[f].(point := Executing, ctrl := p.resume(m.frames[f].ctrl, v), result := None)]
      && r in h.roots && r in k.roots && k.roots[r].io == h.roots[r].io + [v]
      && k.roots[r].log == h.roots[r].log + [Io(m.frames[f].point.request, v)]
      && forall q :: q in h.roots && q != r ==> q in k.roots && k.roots[q] == h.roots[q]
  {
    var m, h := Last(x), Past(x);
    EndsGood(p, x);
    if f in m.pending && StackOf(m, t) == [] {
      AnswerGood(p, m, h, t, f, v);
      assert FrameOk(m, h, f);
      CompleteIsAnswered(p, m, t, f, v);
    }
  }
}

/** What every reachable state of the machine looks like.

    `History` is bookkeeping beside the machine: for every detached root its body, the answers its
    calls received, what they logged, and the frames of its call chain from the root to the leaf. */
module Chains {
  import opened Prelude
  import opened Direct
  import opened Frames

  datatype Place<V> = OnStack(thread: ThreadId, index: nat) | Parked(request: V) | Gone

  datatype Root<C, V> = Root(
    body: C, io: seq<V>, log: seq<Direct.Event<C, V>>, chain: seq<Id>, place: Place<V>, result: Option<V>)

  /** `home` is the root beneath which a frame was created, `owner` the Task that was last given the
      frame's handle, `depth` a started frame's position in its chain. */
  datatype History<C, V> = History(
    roots: map<Id, Root<C, V>>, home: map<Id, Id>, owner: map<Id, (Id, Slot)>, depth: map<Id, nat>)

  ghost predicate Leaf<C, V>(h: History<C, V>, f: Id)
    requires f in h.home && h.home[f] in h.roots
  {
    var chain := h.roots[h.home[f]].chain;
    f in h.depth && h.depth[f] + 1 == |chain| && chain[h.depth[f]] == f
  }

  ghost predicate PointOk<C, V>(m: Machine<C, V>, h: History<C, V>, f: Id)
    requires f in m.frames && f in h.home && h.home[f] in h.roots
  {
    var a := m.frames[f];
    var root := h.roots[h.home[f]];
    match a.point
    case Initial => a.slots == map[] && a.value.None? && a.caller.None? && f != h.home[f]
    case Final => a.slots == map[] && a.value.Some? && f != h.home[f]
    case Executing =>
      && Leaf(h, f)
      && root.place.OnStack?
      && root.place.index < |StackOf(m, root.place.thread)|
      && StackOf(m, root.place.thread)[root.place.index] == f
    case AtCallback(q) => Leaf(h, f) && root.place == Parked(q) && f in m.pending
    case AtTask(s, g) =>
      && f in h.depth && h.depth[f] + 1 < |root.chain|
      && root.chain[h.depth[f]] == f && root.chain[h.depth[f] + 1] == g
      && s in a.slots && a.slots[s] == g
  }

  ghost predicate SlotOk<C, V>(m: Machine<C, V>, h: History<C, V>, f: Id, s: Slot)
    requires f in m.frames && f in h.home && s in m.frames[f].slots
  {
    var g := m.frames[f].slots[s];
    && g in m.frames && g in h.home && h.home[g] == h.home[f] && g != h.home[g]
    && g in h.owner && h.owner[g] == (f, s)
    && (m.frames[g].point.Initial? || m.frames[g].point.Final? || m.frames[f].point == AtTask(s, g))
  }

  ghost predicate OwnerOk<C, V>(m: Machine<C, V>, h: History<C, V>, f: Id)
    requires f in m.frames
  {
    && f in h.owner
    && h.owner[f].0 in m.frames
    && h.owner[f].1 in m.frames[h.owner[f].0].slots
    && m.frames[h.owner[f].0].slots[h.owner[f].1] == f
  }

  ghost predicate FrameOk<C, V>(m: Machine<C, V>, h: History<C, V>, f: Id)
    requires f in m.frames
  {
    && f in h.home && h.home[f] in h.roots
    && h.roots[h.home[f]].chain != []
    && PointOk(m, h, f)
    && (f != h.home[f] ==> OwnerOk(m, h, f))
    && (forall s {:trigger SlotOk(m, h, f, s)} :: s in m.frames[f].slots ==> SlotOk(m, h, f, s))
  }

  ghost predicate LinkOk<C, V>(m: Machine<C, V>, h: History<C, V>, r: Id, i: nat)
    requires r in h.roots && i < |h.roots[r].chain|
  {
    var chain := h.roots[r].chain;
    var g := chain[i];
    && g in m.frames && g in h.home && h.home[g] == r
    && g in h.depth && h.depth[g] == i
    && !m.frames[g].point.Initial? && !m.frames[g].point.Final?
    && m.frames[g].caller == (if i == 0 then None else Some(chain[i - 1]))
  }

  ghost predicate RootOk<C, V>(m: Machine<C, V>, h: History<C, V>, r: Id)
    requires r in h.roots
  {
    var root := h.roots[r];
    && r < m.next && r in h.home && h.home[r] == r
    && (root.chain == [] <==> root.place.Gone?)
    && (root.chain == [] <==> root.result.Some?)
    && (root.chain == [] <==> r in m.destroyed)
    && (root.chain != [] ==> root.chain[0] == r)
    && (forall i: nat {:trigger LinkOk(m, h, r, i)} :: i < |root.chain| ==> LinkOk(m, h, r, i))
  }

  ghost predicate EntryOk<C, V>(m: Machine<C, V>, h: History<C, V>, t: ThreadId, i: nat)
    requires t in m.stacks && i < |m.stacks[t]|
  {
    var f := m.stacks[t][i];
    && f in m.frames && m.frames[f].point.Executing?
    && f in h.home && h.home[f] in h.roots
    && h.roots[h.home[f]].place == OnStack(t, i)
  }

  ghost predicate IdsOk<C, V>(m: Machine<C, V>, h: History<C, V>) {
    && (forall f :: f in m.frames ==> f < m.next && f !in m.destroyed)
    && (forall f :: f in m.destroyed ==> f < m.next)
    && (forall f: Id :: f < m.next ==> f in m.frames || f in m.destroyed)
    && (forall f :: f in m.destroyed ==> (m.destroyed[f] == FinalAwaiter <==> f in h.roots))
  }

  ghost predicate FramesOk<C, V>(m: Machine<C, V>, h: History<C, V>) {
    forall f {:trigger FrameOk(m, h, f)} :: f in m.frames ==> FrameOk(m, h, f)
  }

  ghost predicate RootsOk<C, V>(m: Machine<C, V>, h: History<C, V>) {
    forall r {:trigger RootOk(m, h, r)} :: r in h.roots ==> RootOk(m, h, r)
  }

  ghost predicate StacksOk<C, V>(m: Machine<C, V>, h: History<C, V>) {
    forall t, i: nat {:trigger EntryOk(m, h, t, i)} :: t in m.stacks && i < |m.stacks[t]| ==> EntryOk(m, h, t, i)
  }

  ghost predicate PendingOk<C, V>(m: Machine<C, V>) {
    forall f :: f in m.pending ==> f in m.frames && m.frames[f].point.AtCallback?
  }

  ghost predicate Inv<C, V>(m: Machine<C, V>, h: History<C, V>) {
    IdsOk(m, h) && FramesOk(m, h) && RootsOk(m, h) && StacksOk(m, h) && PendingOk(m)
  }

  // ---- How the history moves --------------------------------------------------------------------

  function NoHistory<C, V>(): History<C, V> { History(map[], map[], map[], map[]) }

  function Note<C, V>(h: History<C, V>, r: Id, log: seq<Direct.Event<C, V>>): History<C, V>
    requires r in h.roots
  {
    h.(roots := h.roots[r := h.roots[r].(log := h.roots[r].log + log)])
  }

  function NewRoot<C, V>(h: History<C, V>, g: Id, body: C, t: ThreadId, i: nat): History<C, V> {
    h.(roots := h.roots[g := Root(body, [], [], [g], OnStack(t, i), None)],
       home := h.home[g := g],
       depth := h.depth[g := 0])
  }

  function RecordMake<C, V>(m: Machine<C, V>, h: History<C, V>, f: Id, s: Slot): History<C, V>
    requires f in h.home
  {
    h.(home := h.home[m.next := h.home[f]], owner := h.owner[m.next := (f, s)])
  }

  function RecordMove<C, V>(m: Machine<C, V>, h: History<C, V>, f: Id, d: Slot, s: Slot): History<C, V>
    requires f in m.frames
  {
    var slots := m.frames[f].slots;
    if s in slots && d != s then h.(owner := h.owner[slots[s] := (f, d)]) else h
  }

  function RecordSpawn<C, V>(m: Machine<C, V>, h: History<C, V>, t: ThreadId, f: Id, s: Slot): History<C, V>
    requires f in m.frames && f in h.home && h.home[f] in h.roots
    requires s in m.frames[f].slots && m.frames[f].slots[s] in m.frames
  {
    var g := m.frames[f].slots[s];
    var body := m.frames[g].ctrl;
    NewRoot(Note(h, h.home[f], [Spawned(body)]), g, body, t, |StackOf(m, t)|)
  }

  function RecordCall<C, V>(h: History<C, V>, r: Id, g: Id): History<C, V>
    requires r in h.roots
  {
    var root := h.roots[r];
    h.(roots := h.roots[r := root.(chain := root.chain + [g])], depth := h.depth[g := |root.chain|])
  }

  function RecordPark<C, V>(h: History<C, V>, r: Id, q: V): History<C, V>
    requires r in h.roots
  {
    h.(roots := h.roots[r := h.roots[r].(place := Parked(q))])
  }

  function RecordJoin<C, V>(h: History<C, V>, r: Id, v: V): History<C, V>
    requires r in h.roots && h.roots[r].chain != []
  {
    var root := h.roots[r];
    h.(roots := h.roots[r := root.(chain := root.chain[..|root.chain| - 1], log := root.log + [Joined(v)])])
  }

  function RecordFinish<C, V>(h: History<C, V>, r: Id, v: V): History<C, V>
    requires r in h.roots
  {
    h.(roots := h.roots[r := h.roots[r].(chain := [], place := Gone, result := Some(v))])
  }

  function RecordAnswer<C, V>(h: History<C, V>, r: Id, t: ThreadId, q: V, v: V): History<C, V>
    requires r in h.roots
  {
    var root := h.roots[r];
    h.(roots := h.roots[r := root.(io := root.io + [v], log := root.log + [Io(q, v)], place := OnStack(t, 0))])
  }

  // ---- Every transition keeps the invariant ------------------------------------------------------

  ghost predicate Started<C, V>(m: Machine<C, V>, f: Id)
    requires f in m.frames
  {
    !m.frames[f].point.Initial? && !m.frames[f].point.Final?
  }

  /** `f` is as far along, and in the same chain, in both states. */
  ghost predicate SameStart<C, V>(m: Machine<C, V>, h: History<C, V>, n: Machine<C, V>, k: History<C, V>, f: Id)
    requires f in m.frames
  {
    && f in n.frames && n.frames[f].point == m.frames[f].point && n.frames[f].caller == m.frames[f].caller
    && (f in h.home ==> f in k.home && k.home[f] == h.home[f])
    && (f in h.depth ==> f in k.depth && k.depth[f] == h.depth[f])
  }

  ghost predicate SameRoot<C, V>(m: Machine<C, V>, h: History<C, V>, n: Machine<C, V>, k: History<C, V>, r: Id)
    requires r in h.roots
  {
    && r in k.roots
    && k.roots[r].chain == h.roots[r].chain
    && k.roots[r].place == h.roots[r].place
    && k.roots[r].result == h.roots[r].result
    && (r in m.destroyed <==> r in n.destroyed)
    && (r in h.home ==> r in k.home && k.home[r] == h.home[r])
  }

  /** The transitions of a running frame that touch neither a chain nor a stack. */
  ghost predicate LocalStep<C, V>(m: Machine<C, V>, h: History<C, V>, n: Machine<C, V>, k: History<C, V>) {
    && n.stacks == m.stacks && n.pending == m.pending && m.next <= n.next
    && k.roots.Keys == h.roots.Keys
    && (forall r {:trigger SameRoot(m, h, n, k, r)} :: r in h.roots ==> SameRoot(m, h, n, k, r))
    && (forall f {:trigger SameStart(m, h, n, k, f)} :: f in m.frames && Started(m, f) ==> SameStart(m, h, n, k, f))
  }

  lemma KeepRoot<C, V>(m: Machine<C, V>, h: History<C, V>, n: Machine<C, V>, k: History<C, V>, r: Id)
    requires Inv(m, h) && LocalStep(m, h, n, k) && r in k.roots
    ensures RootOk(n, k, r)
  {
    assert RootOk(m, h, r) && SameRoot(m, h, n, k, r);
    forall i: nat | i < |k.roots[r].chain| ensures LinkOk(n, k, r, i) {
      assert LinkOk(m, h, r, i);
      assert SameStart(m, h, n, k, k.roots[r].chain[i]);
    }
  }

  lemma KeepLocal<C, V>(m: Machine<C, V>, h: History<C, V>, n: Machine<C, V>, k: History<C, V>)
    requires Inv(m, h) && LocalStep(m, h, n, k) && IdsOk(n, k)
    requires FramesOk(n, k)
    ensures Inv(n, k)
  {
    assert RootsOk(n, k) by {
      forall r | r in k.roots ensures RootOk(n, k, r) { KeepRoot(m, h, n, k, r); }
    }
    assert StacksOk(n, k) by {
      forall t, i: nat | t in n.stacks && i < |n.stacks[t]| ensures EntryOk(n, k, t, i) {
        var f := m.stacks[t][i];
        assert EntryOk(m, h, t, i);
        assert SameStart(m, h, n, k, f);
        assert SameRoot(m, h, n, k, h.home[f]);
      }
    }
    forall f | f in n.pending ensures f in n.frames && n.frames[f].point.AtCallback? {
      assert SameStart(m, h, n, k, f);
    }
  }

  lemma KeepCtrl<C, V>(m: Machine<C, V>, h: History<C, V>, f: Id, c: C)
    requires Inv(m, h) && f in m.frames
    ensures Inv(SetCtrl(m, f, c), h)
  {
    var n := SetCtrl(m, f, c);
    assert FramesOk(n, h) by {
      forall g | g in n.frames ensures FrameOk(n, h, g) {
        assert FrameOk(m, h, g);
        forall s | s in n.frames[g].slots ensures SlotOk(n, h, g, s) { assert SlotOk(m, h, g, s); }
      }
    }
    KeepLocal(m, h, n, h);
  }

  lemma KeepNote<C, V>(m: Machine<C, V>, h: History<C, V>, r: Id, log: seq<Direct.Event<C, V>>)
    requires Inv(m, h) && r in h.roots
    ensures Inv(m, Note(h, r, log))
  {
    var k := Note(h, r, log);
    assert FramesOk(m, k) by {
      forall g | g in m.frames ensures FrameOk(m, k, g) {
        assert FrameOk(m, h, g);
        forall s | s in m.frames[g].slots ensures SlotOk(m, k, g, s) { assert SlotOk(m, h, g, s); }
      }
    }
    KeepLocal(m, h, m, k);
  }

  lemma MakeFrameOk<C, V>(m: Machine<C, V>, h: History<C, V>, f: Id, s: Slot, body: C, g: Id)
    requires Inv(m, h) && f in m.frames && m.frames[f].point.Executing?
    requires MakeTask(m, f, s, body).Ok? && f in h.home && g in MakeTask(m, f, s, body).value.frames
    ensures FrameOk(MakeTask(m, f, s, body).value, RecordMake(m, h, f, s), g)
  {
    var n, k := MakeTask(m, f, s, body).value, RecordMake(m, h, f, s);
    assert FrameOk(m, h, f) && RootOk(m, h, h.home[f]);
    if g != m.next {
      assert FrameOk(m, h, g);
    }
    forall u | u in n.frames[g].slots ensures SlotOk(n, k, g, u) {
      if g != f || u != s { assert SlotOk(m, h, g, u); }
    }
  }

  lemma MakeIdsOk<C, V>(m: Machine<C, V>, h: History<C, V>, f: Id, s: Slot, body: C)
    requires IdsOk(m, h) && f in m.frames && f in h.home && MakeTask(m, f, s, body).Ok?
    ensures IdsOk(MakeTask(m, f, s, body).value, RecordMake(m, h, f, s))
  {
    var n := MakeTask(m, f, s, body).value;
    assert n.frames.Keys == m.frames.Keys + {m.next};
  }

  lemma KeepMake<C, V>(m: Machine<C, V>, h: History<C, V>, f: Id, s: Slot, body: C)
    requires Inv(m, h) && f in m.frames && m.frames[f].point.Executing?
    requires MakeTask(m, f, s, body).Ok?
    ensures f in h.home && Inv(MakeTask(m, f, s, body).value, RecordMake(m, h, f, s))
  {
    assert FrameOk(m, h, f);
    var n, k := MakeTask(m, f, s, body).value, RecordMake(m, h, f, s);
    assert FramesOk(n, k) by {
      forall g | g in n.frames ensures FrameOk(n, k, g) { MakeFrameOk(m, h, f, s, body, g); }
    }
    forall r | r in h.roots ensures SameRoot(m, h, n, k, r) { assert RootOk(m, h, r); }
    forall g | g in m.frames && Started(m, g) ensures SameStart(m, h, n, k, g) { assert FrameOk(m, h, g); }
    MakeIdsOk(m, h, f, s, body);
    KeepLocal(m, h, n, k);
  }

  lemma KeepMove<C, V>(m: Machine<C, V>, h: History<C, V>, f: Id, d: Slot, s: Slot)
    requires Inv(m, h) && f in m.frames && m.frames[f].point.Executing?
    requires MoveTask(m, f, d, s).Ok?
    ensures Inv(MoveTask(m, f, d, s).value, RecordMove(m, h, f, d, s))
  {
    assert FrameOk(m, h, f);
    var n, k := MoveTask(m, f, d, s).value, RecordMove(m, h, f, d, s);
    if s in m.frames[f].slots && d != s {
      assert FramesOk(n, k) by {
        forall g | g in n.frames ensures FrameOk(n, k, g) { MoveFrameOk(m, h, f, d, s, g); }
      }
      KeepLocal(m, h, n, k);
    }
  }

  lemma MoveFrameOk<C, V>(m: Machine<C, V>, h: History<C, V>, f: Id, d: Slot, s: Slot, g: Id)
    requires Inv(m, h) && f in m.frames && m.frames[f].point.Executing? && g in m.frames
    requires MoveTask(m, f, d, s).Ok? && s in m.frames[f].slots && d != s
    ensures FrameOk(MoveTask(m, f, d, s).value, RecordMove(m, h, f, d, s), g)
  {
    var n, k := MoveTask(m, f, d, s).value, RecordMove(m, h, f, d, s);
    assert FrameOk(m, h, f) && FrameOk(m, h, g) && SlotOk(m, h, f, s);
    forall u | u in n.frames[g].slots ensures SlotOk(n, k, g, u) {
      if g != f || u != d { assert SlotOk(m, h, g, u); }
    }
  }

  /** The destructors of a running frame's Tasks find frames that are there, at rest and distinct. */
  lemma DropIsClean<C, V>(m: Machine<C, V>, h: History<C, V>, f: Id, scope: set<Slot>)
    requires Inv(m, h) && f in m.frames && m.frames[f].point.Executing?
    ensures DropSlots(m, f, scope).Ok?
  {
    assert FrameOk(m, h, f);
    var a := m.frames[f];
    forall s | s in a.slots ensures a.slots[s] in m.frames && Resting(m.frames[a.slots[s]]) && a.slots[s] != f {
      assert SlotOk(m, h, f, s);
      assert FrameOk(m, h, a.slots[s]);
    }
    forall s, u | s in a.slots && u in a.slots && s != u ensures a.slots[s] != a.slots[u] {
      assert SlotOk(m, h, f, s) && SlotOk(m, h, f, u);
    }
  }

  ghost function Dropped<C, V>(m: Machine<C, V>, f: Id, scope: set<Slot>): set<Id>
    requires f in m.frames
  {
    set s | s in m.frames[f].slots && s in scope :: m.frames[f].slots[s]
  }

  lemma DroppedFrame<C, V>(m: Machine<C, V>, h: History<C, V>, f: Id, scope: set<Slot>, g: Id)
    requires Inv(m, h) && f in m.frames && m.frames[f].point.Executing? && g in Dropped(m, f, scope)
    ensures g in m.frames && !Started(m, g) && g !in h.roots && g != f && m.frames[g].slots == map[]
    ensures g in h.owner && h.owner[g].0 == f && h.owner[g].1 in scope
  {
    var s :| s in m.frames[f].slots && s in scope && m.frames[f].slots[s] == g;
    assert FrameOk(m, h, f) && SlotOk(m, h, f, s) && FrameOk(m, h, g);
    assert g in h.roots ==> RootOk(m, h, g);
  }

  lemma DropFrameOk<C, V>(m: Machine<C, V>, h: History<C, V>, f: Id, scope: set<Slot>, n: Machine<C, V>, g: Id)
    requires Inv(m, h) && f in m.frames && m.frames[f].point.Executing?
    requires DropSlots(m, f, scope) == Ok(n) && g in n.frames
    ensures FrameOk(n, h, g)
  {
    assert FrameOk(m, h, g);
    assert forall s :: s in m.frames[f].slots && s in scope ==> m.frames[f].slots[s] in Dropped(m, f, scope);
    forall s | s in n.frames[g].slots ensures SlotOk(n, h, g, s) {
      assert SlotOk(m, h, g, s);
      var target := m.frames[g].slots[s];
      if target in Dropped(m, f, scope) { DroppedFrame(m, h, f, scope, target); }
    }
    if g != h.home[g] {
      var o := h.owner[g];
      if o.0 in Dropped(m, f, scope) { DroppedFrame(m, h, f, scope, o.0); }
    }
  }

  lemma KeepDrop<C, V>(m: Machine<C, V>, h: History<C, V>, f: Id, scope: set<Slot>, n: Machine<C, V>)
    requires Inv(m, h) && f in m.frames && m.frames[f].point.Executing?
    requires DropSlots(m, f, scope) == Ok(n)
    ensures Inv(n, h)
    ensures n.frames.Keys == m.frames.Keys - Dropped(m, f, scope)
  {
    assert n.frames.Keys == m.frames.Keys - Dropped(m, f, scope);
    forall g | g in Dropped(m, f, scope) ensures !Started(m, g) && g !in h.roots {
      DroppedFrame(m, h, f, scope, g);
    }
    assert FramesOk(n, h) by {
      forall g | g in n.frames ensures FrameOk(n, h, g) { DropFrameOk(m, h, f, scope, n, g); }
    }
    assert IdsOk(n, h);
    KeepLocal(m, h, n, h);
  }
}

/** The transitions that move control from one frame to another keep the invariant too. */
module Transfers {
  import opened Prelude
  import opened Direct
  import opened Frames
  import opened Chains

  /** `f` is the frame thread `t` executes, the leaf of the chain of root `r`. */
  ghost predicate RunsOn<C, V>(m: Machine<C, V>, h: History<C, V>, t: ThreadId, f: Id, r: Id) {
    && StackOf(m, t) != [] && f == Top(m, t) && f in m.frames && m.frames[f].point.Executing?
    && f in h.home && h.home[f] == r && r in h.roots && Leaf(h, f)
    && h.roots[r].place == OnStack(t, |StackOf(m, t)| - 1)
  }

  lemma TopRuns<C, V>(m: Machine<C, V>, h: History<C, V>, t: ThreadId)
    requires Inv(m, h) && StackOf(m, t) != []
    ensures Top(m, t) in h.home && RunsOn(m, h, t, Top(m, t), h.home[Top(m, t)])
  {
    assert EntryOk(m, h, t, |m.stacks[t]| - 1);
    assert FrameOk(m, h, Top(m, t));
  }

  lemma SameIds<C, V>(m: Machine<C, V>, h: History<C, V>, n: Machine<C, V>, k: History<C, V>)
    requires IdsOk(m, h)
    requires n.frames.Keys == m.frames.Keys && n.destroyed == m.destroyed && n.next == m.next
    requires h.roots.Keys <= k.roots.Keys && k.roots.Keys <= h.roots.Keys + m.frames.Keys
    ensures IdsOk(n, k)
  {
    forall f | f in n.frames ensures f < n.next && f !in n.destroyed { assert f in m.frames; }
    forall f: Id | f < n.next ensures f in n.frames || f in n.destroyed {
      assert f in m.frames || f in m.destroyed;
    }
    forall f | f in n.destroyed ensures n.destroyed[f] == FinalAwaiter <==> f in k.roots {
      assert f !in m.frames.Keys;
    }
  }

  // ---- co_await of a Task that has not run: its frame becomes the leaf ---------------------------

  ghost predicate Calls<C, V>(m: Machine<C, V>, h: History<C, V>, t: ThreadId, f: Id, s: Slot, g: Id) {
    && StackOf(m, t) != [] && f in h.home && RunsOn(m, h, t, f, h.home[f])
    && s in m.frames[f].slots && m.frames[f].slots[s] == g
    && g in m.frames && m.frames[g].point.Initial?
  }

  lemma CallerFrameOk<C, V>(m: Machine<C, V>, h: History<C, V>, t: ThreadId, f: Id, s: Slot, g: Id)
    requires Inv(m, h) && Calls(m, h, t, f, s, g)
    ensures FrameOk(Called(m, t, f, s, g), RecordCall(h, h.home[f], g), f)
  {
    var n, k := Called(m, t, f, s, g), RecordCall(h, h.home[f], g);
    assert FrameOk(m, h, f) && SlotOk(m, h, f, s);
    forall u | u in n.frames[f].slots ensures SlotOk(n, k, f, u) { assert SlotOk(m, h, f, u); }
  }

  lemma CalleeFrameOk<C, V>(m: Machine<C, V>, h: History<C, V>, t: ThreadId, f: Id, s: Slot, g: Id)
    requires Inv(m, h) && Calls(m, h, t, f, s, g)
    ensures FrameOk(Called(m, t, f, s, g), RecordCall(h, h.home[f], g), g)
  {
    var n := Called(m, t, f, s, g);
    assert FrameOk(m, h, f) && SlotOk(m, h, f, s) && FrameOk(m, h, g);
    assert StackOf(n, t) == Below(m, t) + [g];
  }

  lemma OtherFrameOk<C, V>(m: Machine<C, V>, h: History<C, V>, t: ThreadId, f: Id, s: Slot, g: Id, x: Id)
    requires Inv(m, h) && Calls(m, h, t, f, s, g) && x in m.frames && x != f && x != g
    ensures FrameOk(Called(m, t, f, s, g), RecordCall(h, h.home[f], g), x)
  {
    var n, k := Called(m, t, f, s, g), RecordCall(h, h.home[f], g);
    assert FrameOk(m, h, f) && SlotOk(m, h, f, s) && FrameOk(m, h, x);
    assert StackOf(n, t) == Below(m, t) + [g];
    forall u | u in n.frames[x].slots ensures SlotOk(n, k, x, u) { assert SlotOk(m, h, x, u); }
  }

  lemma CallRootOk<C, V>(m: Machine<C, V>, h: History<C, V>, t: ThreadId, f: Id, s: Slot, g: Id, r: Id)
    requires Inv(m, h) && Calls(m, h, t, f, s, g) && r in h.roots
    ensures RootOk(Called(m, t, f, s, g), RecordCall(h, h.home[f], g), r)
  {
    var n, k := Called(m, t, f, s, g), RecordCall(h, h.home[f], g);
    assert RootOk(m, h, r) && FrameOk(m, h, f) && SlotOk(m, h, f, s);
    forall i: nat | i < |k.roots[r].chain| ensures LinkOk(n, k, r, i) {
      assert i < |h.roots[r].chain| ==> LinkOk(m, h, r, i);
    }
  }

  lemma CallEntryOk<C, V>(m: Machine<C, V>, h: History<C, V>, t: ThreadId, f: Id, s: Slot, g: Id, u: ThreadId, i: nat)
    requires Inv(m, h) && Calls(m, h, t, f, s, g)
    requires u in Called(m, t, f, s, g).stacks && i < |Called(m, t, f, s, g).stacks[u]|
    ensures EntryOk(Called(m, t, f, s, g), RecordCall(h, h.home[f], g), u, i)
  {
    assert FrameOk(m, h, f) && SlotOk(m, h, f, s);
    assert u != t || i + 1 < |StackOf(m, t)| ==> EntryOk(m, h, u, i);
  }

  lemma KeepCall<C, V>(m: Machine<C, V>, h: History<C, V>, t: ThreadId, f: Id, s: Slot, g: Id)
    requires Inv(m, h) && Calls(m, h, t, f, s, g)
    ensures Inv(Called(m, t, f, s, g), RecordCall(h, h.home[f], g))
  {
    var n, k := Called(m, t, f, s, g), RecordCall(h, h.home[f], g);
    assert FramesOk(n, k) by {
      forall x | x in n.frames ensures FrameOk(n, k, x) {
        if x == f { CallerFrameOk(m, h, t, f, s, g); }
        else if x == g { CalleeFrameOk(m, h, t, f, s, g); }
        else { OtherFrameOk(m, h, t, f, s, g, x); }
      }
    }
    assert RootsOk(n, k) by {
      forall r | r in k.roots ensures RootOk(n, k, r) { CallRootOk(m, h, t, f, s, g, r); }
    }
    assert StacksOk(n, k) by {
      forall u, i: nat | u in n.stacks && i < |n.stacks[u]| ensures EntryOk(n, k, u, i) {
        CallEntryOk(m, h, t, f, s, g, u, i);
      }
    }
    SameIds(m, h, n, k);
    assert PendingOk(n);
  }

  // ---- spawn: a Task's frame becomes a root on top of the spawning frame -------------------------

  ghost function Rooted<C, V>(m: Machine<C, V>, h: History<C, V>, t: ThreadId, g: Id): History<C, V>
    requires g in m.frames
  {
    NewRoot(h, g, m.frames[g].ctrl, t, |StackOf(m, t)|)
  }

  lemma DetachFrameOk<C, V>(m: Machine<C, V>, h: History<C, V>, t: ThreadId, f: Id, s: Slot, g: Id, x: Id)
    requires Inv(m, h) && Calls(m, h, t, f, s, g) && x in m.frames && x != g
    ensures FrameOk(Detached(m, t, f, s, g), Rooted(m, h, t, g), x)
  {
    var n, k := Detached(m, t, f, s, g), Rooted(m, h, t, g);
    assert FrameOk(m, h, f) && SlotOk(m, h, f, s) && FrameOk(m, h, g) && FrameOk(m, h, x);
    assert g !in h.roots by { assert g in h.roots ==> RootOk(m, h, g); }
    forall u | u in n.frames[x].slots ensures SlotOk(n, k, x, u) { assert SlotOk(m, h, x, u); }
  }

  lemma DetachRootOk<C, V>(m: Machine<C, V>, h: History<C, V>, t: ThreadId, f: Id, s: Slot, g: Id, r: Id)
    requires Inv(m, h) && Calls(m, h, t, f, s, g) && r in Rooted(m, h, t, g).roots
    ensures RootOk(Detached(m, t, f, s, g), Rooted(m, h, t, g), r)
  {
    var n, k := Detached(m, t, f, s, g), Rooted(m, h, t, g);
    assert FrameOk(m, h, f) && SlotOk(m, h, f, s) && FrameOk(m, h, g);
    assert r != g ==> RootOk(m, h, r);
    forall i: nat | i < |k.roots[r].chain| ensures LinkOk(n, k, r, i) {
      assert r != g ==> LinkOk(m, h, r, i);
    }
  }

  lemma KeepDetach<C, V>(m: Machine<C, V>, h: History<C, V>, t: ThreadId, f: Id, s: Slot, g: Id)
    requires Inv(m, h) && Calls(m, h, t, f, s, g)
    ensures Inv(Detached(m, t, f, s, g), Rooted(m, h, t, g))
  {
    var n, k := Detached(m, t, f, s, g), Rooted(m, h, t, g);
    assert FrameOk(m, h, f) && SlotOk(m, h, f, s) && FrameOk(m, h, g);
    assert g !in h.roots by { assert g in h.roots ==> RootOk(m, h, g); }
    assert FramesOk(n, k) by {
      forall x | x in n.frames ensures FrameOk(n, k, x) {
        if x != g { DetachFrameOk(m, h, t, f, s, g, x); }
      }
    }
    assert RootsOk(n, k) by {
      forall r | r in k.roots ensures RootOk(n, k, r) { DetachRootOk(m, h, t, f, s, g, r); }
    }
    assert StacksOk(n, k) by {
      forall u, i: nat | u in n.stacks && i < |n.stacks[u]| ensures EntryOk(n, k, u, i) {
        assert u != t || i < |StackOf(m, t)| ==> EntryOk(m, h, u, i);
      }
    }
    SameIds(m, h, n, k);
    assert PendingOk(n);
  }

  // ---- co_await of a callback awaiter ------------------------------------------------------------

  lemma ParkFrameOk<C, V>(m: Machine<C, V>, h: History<C, V>, t: ThreadId, f: Id, q: V, x: Id)
    requires Inv(m, h) && f in h.home && RunsOn(m, h, t, f, h.home[f]) && x in m.frames
    ensures FrameOk(AwaitCallback(m, t, f, q), RecordPark(h, h.home[f], q), x)
  {
    var n, k := AwaitCallback(m, t, f, q), RecordPark(h, h.home[f], q);
    assert FrameOk(m, h, f) && FrameOk(m, h, x);
    forall u | u in n.frames[x].slots ensures SlotOk(n, k, x, u) { assert SlotOk(m, h, x, u); }
  }

  lemma KeepPark<C, V>(m: Machine<C, V>, h: History<C, V>, t: ThreadId, f: Id, q: V)
    requires Inv(m, h) && f in h.home && RunsOn(m, h, t, f, h.home[f])
    ensures Inv(AwaitCallback(m, t, f, q), RecordPark(h, h.home[f], q))
  {
    var n, k := AwaitCallback(m, t, f, q), RecordPark(h, h.home[f], q);
    assert FramesOk(n, k) by {
      forall x | x in n.frames ensures FrameOk(n, k, x) { ParkFrameOk(m, h, t, f, q, x); }
    }
    assert RootsOk(n, k) by {
      forall r | r in k.roots ensures RootOk(n, k, r) {
        assert RootOk(m, h, r);
        forall i: nat | i < |k.roots[r].chain| ensures LinkOk(n, k, r, i) { assert LinkOk(m, h, r, i); }
      }
    }
    assert StacksOk(n, k) by {
      forall u, i: nat | u in n.stacks && i < |n.stacks[u]| ensures EntryOk(n, k, u, i) {
        assert EntryOk(m, h, u, i);
      }
    }
    SameIds(m, h, n, k);
  }

  // ---- co_return into a waiting caller -----------------------------------------------------------

  ghost predicate Joins<C, V>(m: Machine<C, V>, h: History<C, V>, t: ThreadId, f: Id, c: Id) {
    && f in h.home && RunsOn(m, h, t, f, h.home[f])
    && m.frames[f].slots == map[] && m.frames[f].caller == Some(c)
  }

  lemma CallerWaits<C, V>(m: Machine<C, V>, h: History<C, V>, t: ThreadId, f: Id, c: Id)
    requires Inv(m, h) && Joins(m, h, t, f, c)
    ensures c in m.frames && c in h.home && h.home[c] == h.home[f] && c in h.depth && f != h.home[f] && c != f
    ensures h.depth[c] + 2 == |h.roots[h.home[f]].chain| && h.roots[h.home[f]].chain[h.depth[c]] == c
    ensures m.frames[c].point.AtTask? && m.frames[c].point.callee == f
  {
    var r := h.home[f];
    assert RootOk(m, h, r) && LinkOk(m, h, r, h.depth[f]);
    var i: nat := h.depth[f] - 1;
    assert LinkOk(m, h, r, i) && FrameOk(m, h, c) && LinkOk(m, h, r, 0);
  }

  lemma JoinFrameOk<C, V>(p: Program<C, V>, m: Machine<C, V>, h: History<C, V>, t: ThreadId, f: Id, c: Id, v: V, x: Id)
    requires Inv(m, h) && Joins(m, h, t, f, c) && c in m.frames && x in m.frames
    ensures FrameOk(Returned(p, m, t, f, c, v), RecordJoin(h, h.home[f], v), x)
  {
    var n, k := Returned(p, m, t, f, c, v), RecordJoin(h, h.home[f], v);
    CallerWaits(m, h, t, f, c);
    assert FrameOk(m, h, x);
    JoinSlotsOk(p, m, h, t, f, c, v, x);
    JoinPointOk(p, m, h, t, f, c, v, x);
  }

  lemma JoinSlotsOk<C, V>(p: Program<C, V>, m: Machine<C, V>, h: History<C, V>, t: ThreadId, f: Id, c: Id, v: V, x: Id)
    requires Inv(m, h) && Joins(m, h, t, f, c) && c in m.frames && x in m.frames && x in h.home
    requires c != f && m.frames[c].point.AtTask? && m.frames[c].point.callee == f
    ensures var n, k := Returned(p, m, t, f, c, v), RecordJoin(h, h.home[f], v);
      forall u {:trigger SlotOk(n, k, x, u)} :: u in n.frames[x].slots ==> SlotOk(n, k, x, u)
  {
    var n, k := Returned(p, m, t, f, c, v), RecordJoin(h, h.home[f], v);
    assert FrameOk(m, h, x);
    forall u | u in n.frames[x].slots ensures SlotOk(n, k, x, u) { assert SlotOk(m, h, x, u); }
  }

  lemma JoinPointOk<C, V>(p: Program<C, V>, m: Machine<C, V>, h: History<C, V>, t: ThreadId, f: Id, c: Id, v: V, x: Id)
    requires Inv(m, h) && Joins(m, h, t, f, c) && c in m.frames && x in m.frames
    ensures var n, k := Returned(p, m, t, f, c, v), RecordJoin(h, h.home[f], v);
      x in k.home && k.home[x] in k.roots && k.roots[k.home[x]].chain != [] && PointOk(n, k, x)
  {
    var n := Returned(p, m, t, f, c, v);
    CallerWaits(m, h, t, f, c);
    assert FrameOk(m, h, f) && FrameOk(m, h, c) && FrameOk(m, h, x);
    assert StackOf(n, t) == Below(m, t) + [c];
  }

  lemma JoinRootOk<C, V>(p: Program<C, V>, m: Machine<C, V>, h: History<C, V>, t: ThreadId, f: Id, c: Id, v: V, r: Id)
    requires Inv(m, h) && Joins(m, h, t, f, c) && c in m.frames && r in h.roots
    ensures RootOk(Returned(p, m, t, f, c, v), RecordJoin(h, h.home[f], v), r)
  {
    var n, k := Returned(p, m, t, f, c, v), RecordJoin(h, h.home[f], v);
    CallerWaits(m, h, t, f, c);
    assert RootOk(m, h, r);
    assert LinkOk(m, h, h.home[f], h.depth[f]);
    forall i: nat | i < |k.roots[r].chain| ensures LinkOk(n, k, r, i) { assert LinkOk(m, h, r, i); }
  }

  lemma KeepJoin<C, V>(p: Program<C, V>, m: Machine<C, V>, h: History<C, V>, t: ThreadId, f: Id, c: Id, v: V)
    requires Inv(m, h) && Joins(m, h, t, f, c) && c in m.frames
    ensures Inv(Returned(p, m, t, f, c, v), RecordJoin(h, h.home[f], v))
  {
    var n, k := Returned(p, m, t, f, c, v), RecordJoin(h, h.home[f], v);
    CallerWaits(m, h, t, f, c);
    assert FramesOk(n, k) by {
      forall x | x in n.frames ensures FrameOk(n, k, x) { JoinFrameOk(p, m, h, t, f, c, v, x); }
    }
    assert RootsOk(n, k) by {
      forall r | r in k.roots ensures RootOk(n, k, r) { JoinRootOk(p, m, h, t, f, c, v, r); }
    }
    assert StacksOk(n, k) by {
      forall u, i: nat | u in n.stacks && i < |n.stacks[u]| ensures EntryOk(n, k, u, i) {
        assert u != t || i + 1 < |StackOf(m, t)| ==> EntryOk(m, h, u, i);
      }
    }
    SameIds(m, h, n, k);
    assert PendingOk(n);
  }

  // ---- co_return of a root: the final awaiter destroys it ----------------------------------------

  ghost predicate Ends<C, V>(m: Machine<C, V>, h: History<C, V>, t: ThreadId, f: Id) {
    && f in h.home && RunsOn(m, h, t, f, h.home[f])
    && m.frames[f].slots == map[] && m.frames[f].caller == None
  }

  /** Only a frame in a chain owns others, and it owns frames of its own root. */
  lemma OwnerRuns<C, V>(m: Machine<C, V>, h: History<C, V>, x: Id)
    requires Inv(m, h) && x in m.frames && x in h.home && x != h.home[x]
    ensures x in h.owner && h.owner[x].0 in m.frames && Started(m, h.owner[x].0)
    ensures h.owner[x].1 in m.frames[h.owner[x].0].slots && m.frames[h.owner[x].0].slots[h.owner[x].1] == x
    ensures h.owner[x].0 in h.home && h.home[h.owner[x].0] == h.home[x] && h.home[x] in h.roots
    ensures h.owner[x].0 in h.depth && h.depth[h.owner[x].0] < |h.roots[h.home[x]].chain|
    ensures h.roots[h.home[x]].chain[h.depth[h.owner[x].0]] == h.owner[x].0
  {
    assert FrameOk(m, h, x);
    assert FrameOk(m, h, h.owner[x].0) && SlotOk(m, h, h.owner[x].0, h.owner[x].1);
  }

  /** A root that has dropped its Tasks has nothing beneath it. */
  lemma NothingBeneath<C, V>(m: Machine<C, V>, h: History<C, V>, t: ThreadId, f: Id, x: Id)
    requires Inv(m, h) && Ends(m, h, t, f) && x in m.frames && x in h.home && h.home[x] == h.home[f]
    ensures x == f == h.home[f] && h.roots[f].chain == [f]
  {
    var r := h.home[f];
    assert RootOk(m, h, r) && LinkOk(m, h, r, h.depth[f]);
    assert h.depth[f] == 0;
    assert FrameOk(m, h, x);
    if x != r { OwnerRuns(m, h, x); }
  }

  lemma EndFrameOk<C, V>(m: Machine<C, V>, h: History<C, V>, t: ThreadId, f: Id, v: V, x: Id)
    requires Inv(m, h) && Ends(m, h, t, f) && x in m.frames && x != f
    ensures FrameOk(Ended(m, t, f), RecordFinish(h, h.home[f], v), x)
  {
    var n, k := Ended(m, t, f), RecordFinish(h, h.home[f], v);
    assert FrameOk(m, h, f) && FrameOk(m, h, x);
    if h.home[x] == h.home[f] {
      NothingBeneath(m, h, t, f, x);
    } else {
      forall u | u in n.frames[x].slots ensures SlotOk(n, k, x, u) { assert SlotOk(m, h, x, u); }
    }
  }

  lemma EndIdsOk<C, V>(m: Machine<C, V>, h: History<C, V>, t: ThreadId, f: Id, v: V)
    requires IdsOk(m, h) && f in h.home && RunsOn(m, h, t, f, h.home[f]) && h.home[f] == f
    ensures IdsOk(Ended(m, t, f), RecordFinish(h, f, v))
  {
    var n := Ended(m, t, f);
    assert n.frames.Keys == m.frames.Keys - {f} && n.destroyed.Keys == m.destroyed.Keys + {f};
  }

  lemma KeepEnd<C, V>(m: Machine<C, V>, h: History<C, V>, t: ThreadId, f: Id, v: V)
    requires Inv(m, h) && Ends(m, h, t, f)
    ensures h.home[f] == f && Inv(Ended(m, t, f), RecordFinish(h, f, v))
  {
    NothingBeneath(m, h, t, f, f);
    var n, k := Ended(m, t, f), RecordFinish(h, f, v);
    assert FramesOk(n, k) by {
      forall x | x in n.frames ensures FrameOk(n, k, x) { EndFrameOk(m, h, t, f, v, x); }
    }
    assert RootsOk(n, k) by {
      forall r | r in k.roots ensures RootOk(n, k, r) {
        assert RootOk(m, h, r);
        forall i: nat | i < |k.roots[r].chain| ensures LinkOk(n, k, r, i) { assert LinkOk(m, h, r, i); }
      }
    }
    assert StacksOk(n, k) by {
      forall u, i: nat | u in n.stacks && i < |n.stacks[u]| ensures EntryOk(n, k, u, i) {
        assert EntryOk(m, h, u, i);
      }
    }
    EndIdsOk(m, h, t, f, v);
  }

  // ---- a completion ------------------------------------------------------------------------------

  ghost function Answered<C, V>(p: Program<C, V>, m: Machine<C, V>, t: ThreadId, f: Id, v: V): Machine<C, V>
    requires f in m.frames
  {
    m.(frames := m.frames[f := m.frames[f].(point := Executing, ctrl := p.resume(m.frames[f].ctrl, v), result := None)],
       pending := m.pending - {f},
       stacks := m.stacks[t := [f]])
  }

  lemma AnswerFrameOk<C, V>(
    p: Program<C, V>, m: Machine<C, V>, h: History<C, V>, t: ThreadId, f: Id, q: V, v: V, x: Id)
    requires Inv(m, h) && StackOf(m, t) == [] && f in m.pending && x in m.frames
    requires f in m.frames && f in h.home && h.home[f] in h.roots
    ensures FrameOk(Answered(p, m, t, f, v), RecordAnswer(h, h.home[f], t, q, v), x)
  {
    var n, k := Answered(p, m, t, f, v), RecordAnswer(h, h.home[f], t, q, v);
    assert FrameOk(m, h, f) && FrameOk(m, h, x);
    forall u | u in n.frames[x].slots ensures SlotOk(n, k, x, u) { assert SlotOk(m, h, x, u); }
  }

  lemma KeepAnswer<C, V>(p: Program<C, V>, m: Machine<C, V>, h: History<C, V>, t: ThreadId, f: Id, q: V, v: V)
    requires Inv(m, h) && StackOf(m, t) == [] && f in m.pending
    ensures f in m.frames && f in h.home && h.home[f] in h.roots
    ensures Inv(Answered(p, m, t, f, v), RecordAnswer(h, h.home[f], t, q, v))
  {
    assert FrameOk(m, h, f);
    var n, k := Answered(p, m, t, f, v), RecordAnswer(h, h.home[f], t, q, v);
    assert FramesOk(n, k) by {
      forall x | x in n.frames ensures FrameOk(n, k, x) { AnswerFrameOk(p, m, h, t, f, q, v, x); }
    }
    assert RootsOk(n, k) by {
      forall r | r in k.roots ensures RootOk(n, k, r) {
        assert RootOk(m, h, r);
        forall i: nat | i < |k.roots[r].chain| ensures LinkOk(n, k, r, i) { assert LinkOk(m, h, r, i); }
      }
    }
    assert StacksOk(n, k) by {
      forall u, i: nat | u in n.stacks && i < |n.stacks[u]| ensures EntryOk(n, k, u, i) {
        assert u != t ==> EntryOk(m, h, u, i);
      }
    }
    SameIds(m, h, n, k);
  }

  // ---- a root from outside -----------------------------------------------------------------------

  ghost function Launched<C, V>(m: Machine<C, V>, t: ThreadId, body: C): Machine<C, V> {
    m.(frames := m.frames[m.next := Frame(body, map[], None, None, None, Executing)],
       next := m.next + 1,
       stacks := m.stacks[t := [m.next]])
  }

  lemma LaunchFrameOk<C, V>(m: Machine<C, V>, h: History<C, V>, t: ThreadId, body: C, x: Id)
    requires Inv(m, h) && StackOf(m, t) == [] && x in m.frames
    ensures FrameOk(Launched(m, t, body), NewRoot(h, m.next, body, t, 0), x)
  {
    var n, k := Launched(m, t, body), NewRoot(h, m.next, body, t, 0);
    assert FrameOk(m, h, x) && RootOk(m, h, h.home[x]);
    forall u | u in n.frames[x].slots ensures SlotOk(n, k, x, u) { assert SlotOk(m, h, x, u); }
  }

  lemma LaunchIdsOk<C, V>(m: Machine<C, V>, h: History<C, V>, t: ThreadId, body: C)
    requires IdsOk(m, h)
    ensures IdsOk(Launched(m, t, body), NewRoot(h, m.next, body, t, 0))
  {
    assert Launched(m, t, body).frames.Keys == m.frames.Keys + {m.next};
  }

  lemma KeepLaunch<C, V>(m: Machine<C, V>, h: History<C, V>, t: ThreadId, body: C)
    requires Inv(m, h) && StackOf(m, t) == []
    ensures Inv(Launched(m, t, body), NewRoot(h, m.next, body, t, 0))
  {
    var n, k := Launched(m, t, body), NewRoot(h, m.next, body, t, 0);
    assert m.next !in h.roots by { assert m.next in h.roots ==> RootOk(m, h, m.next); }
    assert FramesOk(n, k) by {
      forall x | x in n.frames ensures FrameOk(n, k, x) {
        if x != m.next { LaunchFrameOk(m, h, t, body, x); }
      }
    }
    assert RootsOk(n, k) by {
      forall r | r in k.roots ensures RootOk(n, k, r) {
        assert r != m.next ==> RootOk(m, h, r);
        forall i: nat | i < |k.roots[r].chain| ensures LinkOk(n, k, r, i) { assert r != m.next ==> LinkOk(m, h, r, i); }
      }
    }
    assert StacksOk(n, k) by {
      forall u, i: nat | u in n.stacks && i < |n.stacks[u]| ensures EntryOk(n, k, u, i) {
        assert u != t ==> EntryOk(m, h, u, i);
      }
    }
    LaunchIdsOk(m, h, t, body);
  }
}

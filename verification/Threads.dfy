/** What a call chain of frames means in direct style, and how each transition of the machine moves it. */
module Threads {
  import opened Direct
  import opened Frames
  import opened Chains
  import opened Transfers

  function LazyOf<C, V>(m: Machine<C, V>, g: Id): Lazy<C, V>
    requires g in m.frames
  {
    var a := m.frames[g];
    if a.point.Final? && a.value.Some? then Value(a.value.value) else Thunk(a.ctrl)
  }

  function EnvOf<C, V>(m: Machine<C, V>, slots: map<Slot, Id>): Env<C, V> {
    map s | s in slots && slots[s] in m.frames :: LazyOf(m, slots[s])
  }

  predicate Waits<C, V>(m: Machine<C, V>, f: Id) {
    f in m.frames && m.frames[f].point.AtTask?
  }

  function KontOf<C, V>(m: Machine<C, V>, f: Id): Kont<C, V>
    requires Waits(m, f)
  {
    var a := m.frames[f];
    Kont(a.ctrl, EnvOf(m, a.slots - {a.point.slot}), a.point.slot)
  }

  function Konts<C, V>(m: Machine<C, V>, ids: seq<Id>): (ks: seq<Kont<C, V>>)
    requires forall i :: 0 <= i < |ids| ==> Waits(m, ids[i])
    ensures |ks| == |ids|
    ensures forall i :: 0 <= i < |ids| ==> ks[i] == KontOf(m, ids[i])
  {
    seq(|ids|, i requires 0 <= i < |ids| => KontOf(m, ids[i]))
  }

  lemma ChainWaits<C, V>(m: Machine<C, V>, h: History<C, V>, r: Id, i: nat)
    requires Inv(m, h) && r in h.roots && i < |h.roots[r].chain|
    ensures h.roots[r].chain[i] in m.frames && Started(m, h.roots[r].chain[i])
    ensures i + 1 < |h.roots[r].chain| <==> Waits(m, h.roots[r].chain[i])
  {
    assert RootOk(m, h, r) && LinkOk(m, h, r, i);
    assert FrameOk(m, h, h.roots[r].chain[i]);
  }

  ghost function LeafOf<C, V>(h: History<C, V>, r: Id): Id
    requires r in h.roots && h.roots[r].chain != []
  {
    h.roots[r].chain[|h.roots[r].chain| - 1]
  }

  ghost function Callers<C, V>(h: History<C, V>, r: Id): seq<Id>
    requires r in h.roots && h.roots[r].chain != []
  {
    h.roots[r].chain[..|h.roots[r].chain| - 1]
  }

  /** The direct-style thread a live root stands for. */
  ghost function ThreadOf<C, V>(m: Machine<C, V>, h: History<C, V>, r: Id): Thread<C, V>
    requires Inv(m, h) && r in h.roots && h.roots[r].chain != []
  {
    var n: nat := |h.roots[r].chain| - 1;
    ChainWaits(m, h, r, n);
    assert forall i :: 0 <= i < n ==> Waits(m, Callers(h, r)[i]) by {
      forall i | 0 <= i < n ensures Waits(m, Callers(h, r)[i]) { ChainWaits(m, h, r, i); }
    }
    var a := m.frames[LeafOf(h, r)];
    Thread(a.ctrl, EnvOf(m, a.slots), Konts(m, Callers(h, r)))
  }

  // ---- What a transition of one root leaves alone ------------------------------------------------

  ghost predicate Awaited<C, V>(a: Frame<C, V>, s: Slot) { a.point.AtTask? && a.point.slot == s }

  /** `y`, and the frames of its Tasks other than the one it awaits, are the same in both states. */
  ghost predicate Steady<C, V>(m: Machine<C, V>, n: Machine<C, V>, y: Id)
    requires y in m.frames
  {
    && y in n.frames && n.frames[y] == m.frames[y]
    && (forall s {:trigger Awaited(m.frames[y], s)} :: s in m.frames[y].slots && !Awaited(m.frames[y], s) ==>
          var g := m.frames[y].slots[s];
          g in m.frames && g in n.frames && n.frames[g] == m.frames[g])
  }

  /** Only frames in `touched` differ: frames of root `r`, each started or owned by `f`. */
  ghost predicate Touches<C, V>(m: Machine<C, V>, h: History<C, V>, n: Machine<C, V>, touched: set<Id>, f: Id, r: Id) {
    && (forall y :: y in m.frames && y !in touched ==> y in n.frames && n.frames[y] == m.frames[y])
    && (forall y :: y in touched ==> y in m.frames && y in h.home && h.home[y] == r)
    && (forall y :: y in touched && !Started(m, y) ==> y in h.owner && h.owner[y].0 == f)
  }

  lemma StaysSteady<C, V>(m: Machine<C, V>, h: History<C, V>, n: Machine<C, V>, touched: set<Id>, f: Id, r: Id, y: Id)
    requires Inv(m, h) && Touches(m, h, n, touched, f, r)
    requires y in m.frames && y !in touched && y != f
    ensures Steady(m, n, y)
  {
    forall s | s in m.frames[y].slots && !Awaited(m.frames[y], s)
      ensures m.frames[y].slots[s] in m.frames && m.frames[y].slots[s] !in touched
    {
      assert FrameOk(m, h, y) && SlotOk(m, h, y, s);
    }
  }

  lemma SteadyKont<C, V>(m: Machine<C, V>, n: Machine<C, V>, y: Id)
    requires y in m.frames && Steady(m, n, y) && Waits(m, y)
    ensures Waits(n, y) && KontOf(n, y) == KontOf(m, y)
  {
    var slots := m.frames[y].slots - {m.frames[y].point.slot};
    forall s | s in slots ensures slots[s] in m.frames && slots[s] in n.frames && LazyOf(n, slots[s]) == LazyOf(m, slots[s]) {
      assert !Awaited(m.frames[y], s);
    }
  }

  lemma SteadyEnv<C, V>(m: Machine<C, V>, n: Machine<C, V>, y: Id)
    requires y in m.frames && Steady(m, n, y) && !Waits(m, y)
    ensures EnvOf(n, n.frames[y].slots) == EnvOf(m, m.frames[y].slots)
  {
    var slots := m.frames[y].slots;
    forall s | s in slots ensures slots[s] in m.frames && slots[s] in n.frames && LazyOf(n, slots[s]) == LazyOf(m, slots[s]) {
      assert !Awaited(m.frames[y], s);
    }
  }

  lemma SteadyKonts<C, V>(m: Machine<C, V>, n: Machine<C, V>, ids: seq<Id>)
    requires forall i :: 0 <= i < |ids| ==> Waits(m, ids[i]) && Steady(m, n, ids[i])
    ensures forall i :: 0 <= i < |ids| ==> Waits(n, ids[i])
    ensures Konts(n, ids) == Konts(m, ids)
  {
    forall i | 0 <= i < |ids| ensures Waits(n, ids[i]) && KontOf(n, ids[i]) == KontOf(m, ids[i]) {
      SteadyKont(m, n, ids[i]);
    }
  }

  /** The callers of the leaf keep waiting as they were, for any transition made by that leaf. */
  lemma CallersKept<C, V>(m: Machine<C, V>, h: History<C, V>, n: Machine<C, V>, touched: set<Id>, f: Id, r: Id, ids: seq<Id>)
    requires Inv(m, h) && Touches(m, h, n, touched, f, r) && r in h.roots
    requires ids <= h.roots[r].chain && |ids| < |h.roots[r].chain|
    requires forall i :: 0 <= i < |ids| ==> ids[i] !in touched && ids[i] != f
    ensures forall i :: 0 <= i < |ids| ==> Waits(m, ids[i]) && Waits(n, ids[i])
    ensures Konts(n, ids) == Konts(m, ids)
  {
    forall i | 0 <= i < |ids| ensures Waits(m, ids[i]) && Steady(m, n, ids[i]) {
      assert ids[i] == h.roots[r].chain[i];
      ChainWaits(m, h, r, i);
      StaysSteady(m, h, n, touched, f, r, ids[i]);
    }
    SteadyKonts(m, n, ids);
  }

  /** Every other root means what it meant. */
  lemma OtherThread<C, V>(
    m: Machine<C, V>, h: History<C, V>, n: Machine<C, V>, k: History<C, V>, touched: set<Id>, f: Id, r: Id, x: Id)
    requires Inv(m, h) && Inv(n, k) && Touches(m, h, n, touched, f, r)
    requires f in m.frames && f in h.home && h.home[f] == r
    requires x in h.roots && x in k.roots && x != r
    requires k.roots[x].chain == h.roots[x].chain != []
    ensures ThreadOf(n, k, x) == ThreadOf(m, h, x)
  {
    var chain := h.roots[x].chain;
    forall i: nat | i < |chain| ensures chain[i] in m.frames && Steady(m, n, chain[i]) {
      assert RootOk(m, h, x) && LinkOk(m, h, x, i);
      StaysSteady(m, h, n, touched, f, r, chain[i]);
    }
    forall i | 0 <= i < |chain| - 1 ensures Waits(m, Callers(h, x)[i]) { ChainWaits(m, h, x, i); }
    SteadyKonts(m, n, Callers(h, x));
    ChainWaits(m, h, x, |chain| - 1);
    SteadyEnv(m, n, LeafOf(h, x));
  }
}

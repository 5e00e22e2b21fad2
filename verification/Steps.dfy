/** How each transition of the machine moves the direct-style thread of the root that makes it. */
module Steps {
  import opened Prelude
  import opened Direct
  import opened Frames
  import opened Chains
  import opened Transfers
  import opened Threads

  /** The Tasks of `f` hold distinct frames that never ran or have finished. */
  ghost predicate OwnsAtRest<C, V>(m: Machine<C, V>, f: Id)
    requires f in m.frames
  {
    var slots := m.frames[f].slots;
    && (forall s {:trigger slots[s]} :: s in slots ==>
          && slots[s] in m.frames && slots[s] != f && Resting(m.frames[slots[s]])
          && (m.frames[slots[s]].point.Final? <==> m.frames[slots[s]].value.Some?))
    && (forall s, u {:trigger slots[s], slots[u]} :: s in slots && u in slots && slots[s] == slots[u] ==> s == u)
  }

  lemma RunningOwns<C, V>(m: Machine<C, V>, h: History<C, V>, f: Id)
    requires Inv(m, h) && f in m.frames && !Waits(m, f)
    ensures OwnsAtRest(m, f)
  {
    var slots := m.frames[f].slots;
    assert FrameOk(m, h, f);
    forall s | s in slots
      ensures slots[s] in m.frames && slots[s] != f && Resting(m.frames[slots[s]])
      ensures m.frames[slots[s]].point.Final? <==> m.frames[slots[s]].value.Some?
    {
      assert SlotOk(m, h, f, s);
      assert FrameOk(m, h, slots[s]);
    }
    forall s, u | s in slots && u in slots && slots[s] == slots[u] ensures s == u {
      assert SlotOk(m, h, f, s) && SlotOk(m, h, f, u);
    }
  }

  lemma RunningLeaf<C, V>(m: Machine<C, V>, h: History<C, V>, f: Id)
    requires Inv(m, h) && f in m.frames && Started(m, f) && !Waits(m, f)
    ensures f in h.home && h.home[f] in h.roots
    ensures h.roots[h.home[f]].chain != [] && LeafOf(h, h.home[f]) == f
    ensures f !in Callers(h, h.home[f])
  {
    assert FrameOk(m, h, f);
    var chain := h.roots[h.home[f]].chain;
    forall i | 0 <= i < |chain| - 1 ensures chain[i] != f {
      assert RootOk(m, h, h.home[f]) && LinkOk(m, h, h.home[f], i);
    }
  }

  /** The konts of a root, after its leaf changed only itself and frames it owns. */
  lemma LeafKonts<C, V>(m: Machine<C, V>, h: History<C, V>, n: Machine<C, V>, touched: set<Id>, f: Id)
    requires Inv(m, h) && f in m.frames && Started(m, f) && !Waits(m, f) && f in h.home
    requires Touches(m, h, n, touched, f, h.home[f])
    requires forall y :: y in touched && Started(m, y) ==> y == f
    ensures h.home[f] in h.roots && h.roots[h.home[f]].chain != []
    ensures forall i :: 0 <= i < |Callers(h, h.home[f])| ==> Waits(n, Callers(h, h.home[f])[i])
    ensures Konts(n, Callers(h, h.home[f])) == ThreadOf(m, h, h.home[f]).konts
  {
    var r := h.home[f];
    RunningLeaf(m, h, f);
    forall i | 0 <= i < |Callers(h, r)| ensures Callers(h, r)[i] !in touched && Callers(h, r)[i] != f {
      ChainWaits(m, h, r, i);
      assert Callers(h, r)[i] in Callers(h, r);
    }
    CallersKept(m, h, n, touched, f, r, Callers(h, r));
  }

  /** A leaf that stays the leaf. */
  lemma LeafThread<C, V>(m: Machine<C, V>, h: History<C, V>, n: Machine<C, V>, k: History<C, V>, touched: set<Id>, f: Id)
    requires Inv(m, h) && f in m.frames && Started(m, f) && !Waits(m, f) && f in h.home
    requires Touches(m, h, n, touched, f, h.home[f])
    requires forall y :: y in touched && Started(m, y) ==> y == f
    requires h.home[f] in h.roots && h.home[f] in k.roots
    requires k.roots[h.home[f]].chain == h.roots[h.home[f]].chain
    requires Inv(n, k) && f in n.frames
    ensures h.roots[h.home[f]].chain != []
    ensures ThreadOf(m, h, h.home[f]).ctrl == m.frames[f].ctrl
    ensures ThreadOf(m, h, h.home[f]).env == EnvOf(m, m.frames[f].slots)
    ensures ThreadOf(n, k, h.home[f]) ==
      Thread(n.frames[f].ctrl, EnvOf(n, n.frames[f].slots), ThreadOf(m, h, h.home[f]).konts)
  {
    RunningLeaf(m, h, f);
    LeafKonts(m, h, n, touched, f);
  }

  // ---- Environments ------------------------------------------------------------------------------

  lemma MakeEnv<C, V>(m: Machine<C, V>, f: Id, s: Slot, body: C, n: Machine<C, V>)
    requires f in m.frames && OwnsAtRest(m, f) && m.next !in m.frames && MakeTask(m, f, s, body) == Ok(n)
    ensures EnvOf(n, n.frames[f].slots) == EnvOf(m, m.frames[f].slots)[s := Thunk(body)]
  {
  }

  lemma MoveEnv<C, V>(m: Machine<C, V>, f: Id, d: Slot, s: Slot, n: Machine<C, V>)
    requires f in m.frames && OwnsAtRest(m, f) && MoveTask(m, f, d, s) == Ok(n)
    requires d != s && s in m.frames[f].slots
    ensures var env: Env<C, V> := EnvOf(m, m.frames[f].slots);
      EnvOf(n, n.frames[f].slots) == (env - {s})[d := env[s]]
  {
  }

  lemma DropEnv<C, V>(m: Machine<C, V>, f: Id, scope: set<Slot>, n: Machine<C, V>)
    requires f in m.frames && OwnsAtRest(m, f) && DropSlots(m, f, scope) == Ok(n)
    ensures EnvOf(n, n.frames[f].slots) == EnvOf(m, m.frames[f].slots) - scope
  {
    var slots := m.frames[f].slots;
    forall s | s in slots && s !in scope ensures slots[s] in n.frames && n.frames[slots[s]] == m.frames[slots[s]] {}
  }

  /** `g`, in slot `s`, is the only frame of `f`'s Tasks that changes. */
  lemma EnvWithout<C, V>(m: Machine<C, V>, f: Id, s: Slot, n: Machine<C, V>)
    requires f in m.frames && OwnsAtRest(m, f) && s in m.frames[f].slots
    requires forall y :: y in m.frames && y != f && y != m.frames[f].slots[s] ==> y in n.frames && n.frames[y] == m.frames[y]
    ensures EnvOf(n, m.frames[f].slots - {s}) == EnvOf(m, m.frames[f].slots) - {s}
  {
    var slots := m.frames[f].slots;
    forall u | u in slots && u != s ensures slots[u] in n.frames && n.frames[slots[u]] == m.frames[slots[u]] {
      assert slots[u] != slots[s];
    }
  }

  lemma SameEnv<C, V>(m: Machine<C, V>, f: Id, n: Machine<C, V>)
    requires f in m.frames && OwnsAtRest(m, f)
    requires forall y :: y in m.frames && y != f ==> y in n.frames && n.frames[y] == m.frames[y]
    ensures EnvOf(n, m.frames[f].slots) == EnvOf(m, m.frames[f].slots)
  {
  }

  // ---- Transitions -------------------------------------------------------------------------------

  lemma CtrlThread<C, V>(m: Machine<C, V>, h: History<C, V>, t: ThreadId, f: Id, r: Id, c: C)
    requires Inv(m, h) && f in h.home && RunsOn(m, h, t, f, r)
    ensures h.roots[r].chain != []
    ensures Inv(SetCtrl(m, f, c), h) && RunsOn(SetCtrl(m, f, c), h, t, f, r)
    ensures ThreadOf(SetCtrl(m, f, c), h, r) == ThreadOf(m, h, r).(ctrl := c)
    ensures Touches(m, h, SetCtrl(m, f, c), {f}, f, r)
  {
    var n := SetCtrl(m, f, c);
    KeepCtrl(m, h, f, c);
    RunningOwns(m, h, f);
    SameEnv(m, f, n);
    LeafThread(m, h, n, h, {f}, f);
  }

  lemma MakeThread<C, V>(m: Machine<C, V>, h: History<C, V>, t: ThreadId, f: Id, r: Id, s: Slot, body: C, n: Machine<C, V>)
    requires Inv(m, h) && f in h.home && RunsOn(m, h, t, f, r) && MakeTask(m, f, s, body) == Ok(n)
    ensures h.roots[r].chain != []
    ensures Inv(n, RecordMake(m, h, f, s))
    ensures var th := ThreadOf(m, h, r); ThreadOf(n, RecordMake(m, h, f, s), r) == th.(env := th.env[s := Thunk(body)])
    ensures Touches(m, h, n, {f}, f, r)
  {
    KeepMake(m, h, f, s, body);
    RunningOwns(m, h, f);
    MakeEnv(m, f, s, body, n);
    LeafThread(m, h, n, RecordMake(m, h, f, s), {f}, f);
  }

  lemma MoveThread<C, V>(m: Machine<C, V>, h: History<C, V>, t: ThreadId, f: Id, r: Id, d: Slot, s: Slot, n: Machine<C, V>)
    requires Inv(m, h) && f in h.home && RunsOn(m, h, t, f, r) && MoveTask(m, f, d, s) == Ok(n)
    requires d != s && s in m.frames[f].slots
    ensures h.roots[r].chain != []
    ensures Inv(n, RecordMove(m, h, f, d, s))
    ensures s in ThreadOf(m, h, r).env
    ensures var th := ThreadOf(m, h, r);
      ThreadOf(n, RecordMove(m, h, f, d, s), r) == th.(env := (th.env - {s})[d := th.env[s]])
    ensures Touches(m, h, n, {f}, f, r)
  {
    RunningOwns(m, h, f);
    MoveEnv(m, f, d, s, n);
    MoveTouches(m, h, f, d, s, n);
    assert Inv(n, RecordMove(m, h, f, d, s)) by { KeepMove(m, h, f, d, s); }
    LeafThread(m, h, n, RecordMove(m, h, f, d, s), {f}, f);
  }

  lemma MoveTouches<C, V>(m: Machine<C, V>, h: History<C, V>, f: Id, d: Slot, s: Slot, n: Machine<C, V>)
    requires f in m.frames && Started(m, f) && f in h.home && MoveTask(m, f, d, s) == Ok(n)
    ensures Touches(m, h, n, {f}, f, h.home[f]) && f in n.frames && n.frames[f].ctrl == m.frames[f].ctrl
    ensures RecordMove(m, h, f, d, s).roots == h.roots
  {
  }

  lemma DropTouches<C, V>(m: Machine<C, V>, h: History<C, V>, f: Id, scope: set<Slot>, n: Machine<C, V>)
    requires Inv(m, h) && f in m.frames && m.frames[f].point.Executing? && f in h.home && DropSlots(m, f, scope) == Ok(n)
    ensures Touches(m, h, n, {f} + Dropped(m, f, scope), f, h.home[f])
    ensures forall y :: y in Dropped(m, f, scope) ==> y in m.frames && !Started(m, y)
  {
    forall y | y in Dropped(m, f, scope)
      ensures y in m.frames && !Started(m, y) && y in h.owner && h.owner[y].0 == f && y in h.home && h.home[y] == h.home[f]
    {
      DroppedFrame(m, h, f, scope, y);
      var s :| s in m.frames[f].slots && s in scope && m.frames[f].slots[s] == y;
      assert FrameOk(m, h, f) && SlotOk(m, h, f, s);
    }
  }

  lemma DropThread<C, V>(m: Machine<C, V>, h: History<C, V>, t: ThreadId, f: Id, r: Id, scope: set<Slot>, n: Machine<C, V>)
    requires Inv(m, h) && f in h.home && RunsOn(m, h, t, f, r) && DropSlots(m, f, scope) == Ok(n)
    ensures h.roots[r].chain != []
    ensures Inv(n, h) && RunsOn(n, h, t, f, r)
    ensures var th := ThreadOf(m, h, r); ThreadOf(n, h, r) == th.(env := th.env - scope)
    ensures Touches(m, h, n, {f} + Dropped(m, f, scope), f, r)
  {
    KeepDrop(m, h, f, scope, n);
    RunningOwns(m, h, f);
    DropEnv(m, f, scope, n);
    DropTouches(m, h, f, scope, n);
    LeafThread(m, h, n, h, {f} + Dropped(m, f, scope), f);
  }

  lemma ParkThread<C, V>(m: Machine<C, V>, h: History<C, V>, t: ThreadId, f: Id, r: Id, q: V)
    requires Inv(m, h) && f in h.home && RunsOn(m, h, t, f, r)
    ensures Inv(AwaitCallback(m, t, f, q), RecordPark(h, r, q)) && h.roots[r].chain != []
    ensures ThreadOf(AwaitCallback(m, t, f, q), RecordPark(h, r, q), r) == ThreadOf(m, h, r)
    ensures Touches(m, h, AwaitCallback(m, t, f, q), {f}, f, r)
  {
    var n := AwaitCallback(m, t, f, q);
    KeepPark(m, h, t, f, q);
    RunningOwns(m, h, f);
    SameEnv(m, f, n);
    LeafThread(m, h, n, RecordPark(h, r, q), {f}, f);
  }

  lemma AnswerThread<C, V>(p: Program<C, V>, m: Machine<C, V>, h: History<C, V>, t: ThreadId, f: Id, r: Id, q: V, v: V)
    requires Inv(m, h) && StackOf(m, t) == [] && f in m.pending && f in h.home && h.home[f] == r
    ensures f in m.frames && r in h.roots && h.roots[r].chain != []
    ensures m.frames[f].point.AtCallback? && ThreadOf(m, h, r).ctrl == m.frames[f].ctrl
    ensures Inv(Answered(p, m, t, f, v), RecordAnswer(h, r, t, q, v))
    ensures ThreadOf(Answered(p, m, t, f, v), RecordAnswer(h, r, t, q, v), r) == Answer(p, ThreadOf(m, h, r), v)
    ensures Touches(m, h, Answered(p, m, t, f, v), {f}, f, r)
  {
    var n := Answered(p, m, t, f, v);
    KeepAnswer(p, m, h, t, f, q, v);
    RunningOwns(m, h, f);
    SameEnv(m, f, n);
    LeafThread(m, h, n, RecordAnswer(h, r, t, q, v), {f}, f);
  }

  /** Starting the frame in slot `s`, whether by co_await or by spawn, touches it and its owner. */
  lemma StartTouches<C, V>(m: Machine<C, V>, h: History<C, V>, t: ThreadId, f: Id, s: Slot, g: Id, n: Machine<C, V>)
    requires Inv(m, h) && Calls(m, h, t, f, s, g)
    requires forall y :: y in m.frames && y != f && y != g ==> y in n.frames && n.frames[y] == m.frames[y]
    ensures Touches(m, h, n, {f, g}, f, h.home[f]) && !Started(m, g) && g != f && m.frames[g].slots == map[]
    ensures g !in h.roots
  {
    assert FrameOk(m, h, f) && SlotOk(m, h, f, s) && FrameOk(m, h, g);
    assert g in h.roots ==> RootOk(m, h, g);
  }

  lemma CallThread<C, V>(m: Machine<C, V>, h: History<C, V>, t: ThreadId, f: Id, r: Id, s: Slot, g: Id)
    requires Inv(m, h) && f in h.home && RunsOn(m, h, t, f, r) && Calls(m, h, t, f, s, g)
    ensures Inv(Called(m, t, f, s, g), RecordCall(h, r, g)) && h.roots[r].chain != []
    ensures var th := ThreadOf(m, h, r);
      ThreadOf(Called(m, t, f, s, g), RecordCall(h, r, g), r)
        == Thread(m.frames[g].ctrl, map[], th.konts + [Kont(th.ctrl, th.env - {s}, s)])
    ensures Touches(m, h, Called(m, t, f, s, g), {f, g}, f, r)
  {
    var n, k := Called(m, t, f, s, g), RecordCall(h, r, g);
    KeepCall(m, h, t, f, s, g);
    RunningOwns(m, h, f);
    RunningLeaf(m, h, f);
    StartTouches(m, h, t, f, s, g, n);
    EnvWithout(m, f, s, n);
    LeafKonts(m, h, n, {f, g}, f);
    CallKonts(m, h, n, k, r, f);
  }

  lemma CallKonts<C, V>(m: Machine<C, V>, h: History<C, V>, n: Machine<C, V>, k: History<C, V>, r: Id, f: Id)
    requires Inv(n, k) && r in h.roots && r in k.roots && h.roots[r].chain != [] && LeafOf(h, r) == f
    requires |k.roots[r].chain| == |h.roots[r].chain| + 1 && h.roots[r].chain <= k.roots[r].chain
    requires Waits(n, f) && forall i :: 0 <= i < |Callers(h, r)| ==> Waits(n, Callers(h, r)[i])
    ensures ThreadOf(n, k, r).konts == Konts(n, Callers(h, r)) + [KontOf(n, f)]
  {
    assert Callers(k, r) == Callers(h, r) + [f];
  }

  lemma DetachThread<C, V>(m: Machine<C, V>, h: History<C, V>, t: ThreadId, f: Id, r: Id, s: Slot, g: Id)
    requires Inv(m, h) && f in h.home && RunsOn(m, h, t, f, r) && Calls(m, h, t, f, s, g)
    ensures Inv(Detached(m, t, f, s, g), Rooted(m, h, t, g)) && h.roots[r].chain != []
    ensures g !in h.roots
    ensures var th := ThreadOf(m, h, r); ThreadOf(Detached(m, t, f, s, g), Rooted(m, h, t, g), r) == th.(env := th.env - {s})
    ensures ThreadOf(Detached(m, t, f, s, g), Rooted(m, h, t, g), g) == Call(m.frames[g].ctrl)
    ensures Touches(m, h, Detached(m, t, f, s, g), {f, g}, f, r)
  {
    var n, k := Detached(m, t, f, s, g), Rooted(m, h, t, g);
    assert Inv(n, k) by { KeepDetach(m, h, t, f, s, g); }
    RunningOwns(m, h, f);
    StartTouches(m, h, t, f, s, g, n);
    EnvWithout(m, f, s, n);
    LeafThread(m, h, n, k, {f, g}, f);
    FreshThread(n, k, g);
  }

  lemma FreshThread<C, V>(n: Machine<C, V>, k: History<C, V>, g: Id)
    requires Inv(n, k) && g in k.roots && k.roots[g].chain == [g] && g in n.frames && n.frames[g].slots == map[]
    ensures ThreadOf(n, k, g) == Call(n.frames[g].ctrl)
  {
    assert ThreadOf(n, k, g).konts == [];
  }

  lemma JoinEnv<C, V>(m: Machine<C, V>, h: History<C, V>, n: Machine<C, V>, f: Id, c: Id, s: Slot, v: V)
    requires Inv(m, h) && c in m.frames && f in m.frames && m.frames[c].point == AtTask(s, f) && Started(m, f) && c != f
    requires forall y :: y in m.frames && y != f && y != c ==> y in n.frames && n.frames[y] == m.frames[y]
    requires f in n.frames && n.frames[f].point.Final? && n.frames[f].value == Some(v)
    ensures EnvOf(n, m.frames[c].slots) == KontOf(m, c).env[s := Value(v)]
  {
    var slots := m.frames[c].slots;
    assert FrameOk(m, h, c) && SlotOk(m, h, c, s);
    forall u | u in slots && u != s
      ensures slots[u] in m.frames && slots[u] in n.frames && n.frames[slots[u]] == m.frames[slots[u]]
    {
      assert SlotOk(m, h, c, u);
    }
  }

  lemma JoinThread<C, V>(p: Program<C, V>, m: Machine<C, V>, h: History<C, V>, t: ThreadId, f: Id, r: Id, c: Id, v: V)
    requires Inv(m, h) && f in h.home && RunsOn(m, h, t, f, r) && Joins(m, h, t, f, c)
    ensures c in m.frames && h.roots[r].chain != []
    ensures Inv(Returned(p, m, t, f, c, v), RecordJoin(h, r, v))
    ensures |h.roots[r].chain| > 1 && ThreadOf(m, h, r).konts != []
    ensures ThreadOf(Returned(p, m, t, f, c, v), RecordJoin(h, r, v), r) == Pop(p, ThreadOf(m, h, r), v)
    ensures Touches(m, h, Returned(p, m, t, f, c, v), {f, c}, f, r)
  {
    CallerWaits(m, h, t, f, c);
    var n, k := Returned(p, m, t, f, c, v), RecordJoin(h, r, v);
    assert Inv(n, k) by { KeepJoin(p, m, h, t, f, c, v); }
    JoinTouches(p, m, h, t, f, c, v);
    JoinParts(p, m, h, t, f, c, v);
    JoinEnv(m, h, n, f, c, m.frames[c].point.slot, v);
    JoinPops(p, m, h, n, k, r, c, v);
  }

  /** The callers of the caller wait as they did. */
  lemma JoinParts<C, V>(p: Program<C, V>, m: Machine<C, V>, h: History<C, V>, t: ThreadId, f: Id, c: Id, v: V)
    requires Inv(m, h) && f in h.home && RunsOn(m, h, t, f, h.home[f]) && Joins(m, h, t, f, c)
    ensures Waits(m, c) && |h.roots[h.home[f]].chain| > 1
    ensures var (r, n) := (h.home[f], Returned(p, m, t, f, c, v));
      var ids := h.roots[r].chain[..|h.roots[r].chain| - 2];
      && h.roots[r].chain[|ids|] == c && RecordJoin(h, r, v).roots[r].chain == ids + [c]
      && (forall i :: 0 <= i < |ids| ==> Waits(m, ids[i]) && Waits(n, ids[i])) && Konts(n, ids) == Konts(m, ids)
  {
    CallerWaits(m, h, t, f, c);
    JoinTouches(p, m, h, t, f, c, v);
    JoinCallers(m, h, t, f, c, Returned(p, m, t, f, c, v));
  }

  /** The caller goes on with the frames of its Tasks as they were, and with the value. */
  lemma JoinPops<C, V>(
    p: Program<C, V>, m: Machine<C, V>, h: History<C, V>, n: Machine<C, V>, k: History<C, V>, r: Id, c: Id, v: V)
    requires Inv(m, h) && Inv(n, k) && r in h.roots && |h.roots[r].chain| > 1 && Waits(m, c)
    requires var ids := h.roots[r].chain[..|h.roots[r].chain| - 2];
      && h.roots[r].chain[|ids|] == c && r in k.roots && k.roots[r].chain == ids + [c]
      && (forall i :: 0 <= i < |ids| ==> Waits(m, ids[i]) && Waits(n, ids[i])) && Konts(n, ids) == Konts(m, ids)
    requires c in n.frames && n.frames[c].ctrl == p.resume(m.frames[c].ctrl, v)
    requires EnvOf(n, n.frames[c].slots) == KontOf(m, c).env[m.frames[c].point.slot := Value(v)]
    ensures ThreadOf(m, h, r).konts != [] && ThreadOf(n, k, r) == Pop(p, ThreadOf(m, h, r), v)
  {
    var ids := h.roots[r].chain[..|h.roots[r].chain| - 2];
    JoinKonts(m, h, r, c);
    ThreadIs(n, k, r, c, ids);
    PopIs(p, ThreadOf(m, h, r), Konts(m, ids), KontOf(m, c), v);
  }

  lemma JoinTouches<C, V>(p: Program<C, V>, m: Machine<C, V>, h: History<C, V>, t: ThreadId, f: Id, c: Id, v: V)
    requires Inv(m, h) && Joins(m, h, t, f, c) && c in m.frames
    ensures Touches(m, h, Returned(p, m, t, f, c, v), {f, c}, f, h.home[f])
  {
    CallerWaits(m, h, t, f, c);
  }

  lemma ThreadIs<C, V>(n: Machine<C, V>, k: History<C, V>, r: Id, leaf: Id, ids: seq<Id>)
    requires Inv(n, k) && r in k.roots && k.roots[r].chain == ids + [leaf]
    ensures leaf in n.frames && forall i :: 0 <= i < |ids| ==> Waits(n, ids[i])
    ensures ThreadOf(n, k, r) == Thread(n.frames[leaf].ctrl, EnvOf(n, n.frames[leaf].slots), Konts(n, ids))
  {
    assert Callers(k, r) == ids && LeafOf(k, r) == leaf;
    ChainWaits(n, k, r, |ids|);
    forall i | 0 <= i < |ids| ensures Waits(n, ids[i]) { ChainWaits(n, k, r, i); }
  }

  lemma PopIs<C, V>(p: Program<C, V>, th: Thread<C, V>, ks: seq<Kont<C, V>>, top: Kont<C, V>, v: V)
    requires th.konts == ks + [top]
    ensures Pop(p, th, v) == Thread(p.resume(top.ctrl, v), top.env[top.slot := Value(v)], ks)
  {
    assert (ks + [top])[..|ks|] == ks;
  }

  lemma JoinCallers<C, V>(m: Machine<C, V>, h: History<C, V>, t: ThreadId, f: Id, c: Id, n: Machine<C, V>)
    requires Inv(m, h) && Joins(m, h, t, f, c) && Touches(m, h, n, {f, c}, f, h.home[f])
    ensures |h.roots[h.home[f]].chain| > 1
    ensures var ids := h.roots[h.home[f]].chain[..|h.roots[h.home[f]].chain| - 2];
      && (forall i :: 0 <= i < |ids| ==> Waits(m, ids[i]) && Waits(n, ids[i]))
      && Konts(n, ids) == Konts(m, ids)
  {
    CallerWaits(m, h, t, f, c);
    var r := h.home[f];
    var ids := h.roots[r].chain[..|h.roots[r].chain| - 2];
    forall i | 0 <= i < |ids| ensures ids[i] != c && ids[i] != f {
      assert RootOk(m, h, r) && LinkOk(m, h, r, i);
    }
    CallersKept(m, h, n, {f, c}, f, r, ids);
  }

  lemma JoinKonts<C, V>(m: Machine<C, V>, h: History<C, V>, r: Id, c: Id)
    requires Inv(m, h) && r in h.roots && |h.roots[r].chain| > 1
    requires h.roots[r].chain[|h.roots[r].chain| - 2] == c
    ensures Waits(m, c)
    ensures var ids := h.roots[r].chain[..|h.roots[r].chain| - 2];
      && (forall i :: 0 <= i < |ids| ==> Waits(m, ids[i]))
      && ThreadOf(m, h, r).konts == Konts(m, ids) + [KontOf(m, c)]
  {
    var n: nat := |h.roots[r].chain| - 2;
    var ids := h.roots[r].chain[..n];
    assert Callers(h, r) == ids + [c];
    ChainWaits(m, h, r, n);
    forall i | 0 <= i < |ids| ensures Waits(m, ids[i]) { ChainWaits(m, h, r, i); }
  }
}

/** Two timers that re-arm themselves while a shared count is below a limit. */
module Timers {

  // ---- One callback at a time -----------------------------------------------------------------------

  /** The printer, with callbacks that do not overlap. */
  class Printer {
    const limit: nat
    var count: nat
    var expiry1: nat   // in seconds
    var expiry2: nat
    var waiting1: bool   // an async_wait of the timer is outstanding
    var waiting2: bool
    ghost var callbacks: nat

    /** Every callback that counted moved its timer on by a second; a chain ends only at the limit. */
    ghost predicate Valid()
      reads this
    {
      && count <= limit
      && expiry1 >= 1 && expiry2 >= 1 && count == (expiry1 - 1) + (expiry2 - 1)
      && (!waiting1 || !waiting2 ==> count == limit)
      && callbacks == count + (if waiting1 then 0 else 1) + (if waiting2 then 0 else 1)
    }

    constructor (limit: nat)
      ensures Valid() && this.limit == limit && count == 0 && waiting1 && waiting2 && callbacks == 0
      ensures expiry1 == expiry2 == 1
    {
      this.limit := limit;
      count, expiry1, expiry2 := 0, 1, 1;
      waiting1, waiting2, callbacks := true, true, 0;
    }

    method Print1()
      requires Valid() && waiting1
      modifies this
      ensures Valid() && callbacks == old(callbacks) + 1
      ensures waiting1 == (old(count) < limit) && waiting2 == old(waiting2) && expiry2 == old(expiry2)
      ensures count == old(count) + (if waiting1 then 1 else 0) && expiry1 == old(expiry1) + (if waiting1 then 1 else 0)
    {
      waiting1 := false;
      callbacks := callbacks + 1;
      if count < limit {
        count := count + 1;
        expiry1 := expiry1 + 1;
        waiting1 := true;
      }
    }

    method Print2()
      requires Valid() && waiting2
      modifies this
      ensures Valid() && callbacks == old(callbacks) + 1
      ensures waiting2 == (old(count) < limit) && waiting1 == old(waiting1) && expiry1 == old(expiry1)
      ensures count == old(count) + (if waiting2 then 1 else 0) && expiry2 == old(expiry2) + (if waiting2 then 1 else 0)
    {
      waiting2 := false;
      callbacks := callbacks + 1;
      if count < limit {
        count := count + 1;
        expiry2 := expiry2 + 1;
        waiting2 := true;
      }
    }

    /** run: whichever timer fires next, the loop ends, after exactly limit + 2 callbacks, with the count at the limit. */
    method Run()
      requires Valid()
      modifies this
      ensures Valid() && !waiting1 && !waiting2
      ensures count == limit && callbacks == limit + 2 && expiry1 + expiry2 == limit + 2
    {
      while waiting1 || waiting2
        invariant Valid()
        decreases limit + 2 - callbacks
      {
        if
        case waiting1 => Print1();
        case waiting2 => Print2();
      }
    }
  }

  // ---- Check and increment apart --------------------------------------------------------------------

  /** What a chain does next: wait for its timer and check, increment and re-arm, or nothing. */
  datatype Phase = Waiting | Passed | Stopped

  datatype State = State(count: nat, one: Phase, two: Phase, callbacks: nat)

  const Initial: State := State(0, Waiting, Waiting, 0)

  datatype Chain = One | Two

  function PhaseOf(s: State, who: Chain): Phase { if who.One? then s.one else s.two }

  function SetPhase(s: State, who: Chain, p: Phase): State { if who.One? then s.(one := p) else s.(two := p) }

  /** One step of a chain on its thread: the check, which starts a callback, or the increment. */
  function Step(limit: nat, s: State, who: Chain): State {
    match PhaseOf(s, who)
    case Waiting => SetPhase(s.(callbacks := s.callbacks + 1), who, if s.count < limit then Passed else Stopped)
    case Passed => SetPhase(s.(count := s.count + 1), who, Waiting)
    case Stopped => s
  }

  /** The state after the chains stepped in the order `turns`. */
  function After(limit: nat, turns: seq<Chain>): State {
    if turns == [] then Initial
    else var n := |turns| - 1; Step(limit, After(limit, turns[..n]), turns[n])
  }

  /** No turn goes to a chain that has stopped. */
  predicate Effective(limit: nat, turns: seq<Chain>) {
    forall k :: 0 <= k < |turns| ==> !PhaseOf(After(limit, turns[..k]), turns[k]).Stopped?
  }

  predicate Over(s: State) { s.one.Stopped? && s.two.Stopped? }

  /** Both chains have passed the check for the last number below the limit. */
  predicate Overlap(limit: nat, s: State) { s.one.Passed? && s.two.Passed? && s.count + 1 == limit }

  ghost predicate Overlapped(limit: nat, turns: seq<Chain>) {
    exists k :: 0 <= k <= |turns| && Overlap(limit, After(limit, turns[..k]))
  }

  function In(s: State, p: Phase): nat { (if s.one == p then 1 else 0) + (if s.two == p then 1 else 0) }

  /** What holds in every interleaving. */
  predicate Balanced(limit: nat, s: State, overlapped: bool) {
    && s.callbacks == s.count + In(s, Passed) + In(s, Stopped)
    && (In(s, Stopped) > 0 ==> s.count >= limit)
    && (if overlapped then s.count + In(s, Passed) == limit + 1 && (s.count < limit ==> Overlap(limit, s))
        else s.count + In(s, Passed) <= limit)
  }

  lemma StepBalanced(limit: nat, s: State, who: Chain, overlapped: bool)
    requires Balanced(limit, s, overlapped)
    ensures var t := Step(limit, s, who);
            && Balanced(limit, t, overlapped || Overlap(limit, t))
            && (!PhaseOf(s, who).Stopped? ==> t.callbacks + t.count == s.callbacks + s.count + 1)
  {
  }

  lemma {:induction false} StaysBalanced(limit: nat, turns: seq<Chain>)
    ensures Balanced(limit, After(limit, turns), Overlapped(limit, turns))
  {
    if turns == [] {
      assert turns[..0] == turns;
    } else {
      var n := |turns| - 1;
      assert turns[..n] + [turns[n]] == turns;
      StaysBalanced(limit, turns[..n]);
      OverlapLater(limit, turns[..n], turns[n]);
      StepBalanced(limit, After(limit, turns[..n]), turns[n], Overlapped(limit, turns[..n]));
    }
  }

  lemma {:induction false} StepsCounted(limit: nat, turns: seq<Chain>)
    requires Effective(limit, turns)
    ensures |turns| == After(limit, turns).callbacks + After(limit, turns).count
  {
    if turns != [] {
      var n := |turns| - 1;
      assert forall k :: 0 <= k < n ==> turns[..n][..k] == turns[..k];
      StepsCounted(limit, turns[..n]);
      StaysBalanced(limit, turns[..n]);
      StepBalanced(limit, After(limit, turns[..n]), turns[n], Overlapped(limit, turns[..n]));
    }
  }

  lemma OverlapLater(limit: nat, turns: seq<Chain>, who: Chain)
    ensures Overlapped(limit, turns + [who]) <==>
            Overlapped(limit, turns) || Overlap(limit, After(limit, turns + [who]))
  {
    var more := turns + [who];
    assert forall k :: 0 <= k <= |turns| ==> more[..k] == turns[..k];
    assert more[..|more|] == more;
  }

  /** When both chains have stopped, the count is the limit, or one more just when both once passed the check
      for the same last number; callbacks number two more than the count. */
  lemma FinalCount(limit: nat, turns: seq<Chain>)
    requires Over(After(limit, turns))
    ensures var s := After(limit, turns);
            && s.count == (if Overlapped(limit, turns) then limit + 1 else limit)
            && s.callbacks == s.count + 2
  {
    StaysBalanced(limit, turns);
  }

  /** Every interleaving ends: a chain that has not stopped moves within a bound that no run exceeds, and
      a run that is over took twice its final count and two more steps. */
  lemma AlwaysEnds(limit: nat, turns: seq<Chain>)
    requires Effective(limit, turns)
    ensures |turns| <= 2 * limit + 4
    ensures Over(After(limit, turns)) ==> |turns| == 2 * After(limit, turns).count + 2
  {
    StepsCounted(limit, turns);
    StaysBalanced(limit, turns);
  }

  /** One chain alone counts up. */
  function Alone(n: nat): seq<Chain> { if n == 0 then [] else Alone(n - 1) + [One, One] }

  lemma {:induction false} AloneCounts(limit: nat, n: nat)
    requires n <= limit
    ensures After(limit, Alone(n)) == State(n, Waiting, Waiting, n)
  {
    if n > 0 {
      AloneCounts(limit, n - 1);
      Twice(limit, Alone(n - 1), One, One);
    }
  }

  lemma Once(limit: nat, turns: seq<Chain>, a: Chain)
    ensures After(limit, turns + [a]) == Step(limit, After(limit, turns), a)
  {
    assert (turns + [a])[..|turns|] == turns;
  }

  lemma Twice(limit: nat, turns: seq<Chain>, a: Chain, b: Chain)
    ensures After(limit, turns + [a, b]) == Step(limit, Step(limit, After(limit, turns), a), b)
  {
    assert turns + [a, b] == (turns + [a]) + [b];
    Once(limit, turns, a);
    Once(limit, turns + [a], b);
  }

  lemma OneAfterTheOther(limit: nat)
    ensures var s := After(limit, Alone(limit) + [One, Two]); Over(s) && s.count == limit
  {
    AloneCounts(limit, limit);
    Twice(limit, Alone(limit), One, Two);
  }

  lemma SideBySide(limit: nat)
    requires limit > 0
    ensures var s := After(limit, Alone(limit - 1) + [One, Two] + [One, Two] + [One, Two]); Over(s) && s.count == limit + 1
  {
    var turns := Alone(limit - 1);
    AloneCounts(limit, limit - 1);
    Twice(limit, turns, One, Two);
    Twice(limit, turns + [One, Two], One, Two);
    Twice(limit, turns + [One, Two] + [One, Two], One, Two);
  }

  /** Either outcome can happen, the larger one whenever the limit is not zero. */
  lemma BothOutcomes(limit: nat)
    ensures exists turns :: Over(After(limit, turns)) && After(limit, turns).count == limit
    ensures (exists turns :: Over(After(limit, turns)) && After(limit, turns).count == limit + 1) <==> limit > 0
  {
    OneAfterTheOther(limit);
    if limit > 0 {
      SideBySide(limit);
    } else {
      forall turns | Over(After(limit, turns)) ensures After(limit, turns).count == 0 {
        FinalCount(limit, turns);
        NoOverlap(turns);
      }
    }
  }

  lemma NoOverlap(turns: seq<Chain>)
    ensures !Overlapped(0, turns)
  {
  }
}

/** Running a step over and over. */
module Iteration {

  function Iterate<S>(step: S -> S, s: S, n: nat): S {
    if n == 0 then s else step(Iterate(step, s, n - 1))
  }

  /** n steps are i steps and then n - i more. */
  lemma {:induction false} IterateSplits<S>(step: S -> S, s: S, i: nat, n: nat)
    requires i <= n
    ensures Iterate(step, s, n) == Iterate(step, Iterate(step, s, i), n - i)
  {
    if i < n {
      IterateSplits(step, s, i, n - 1);
    }
  }

  lemma {:induction false} IterateKeeps<S(!new)>(step: S -> S, s: S, n: nat, inv: S -> bool)
    requires inv(s)
    requires forall x :: inv(x) ==> inv(step(x))
    ensures inv(Iterate(step, s, n))
  {
    if n > 0 {
      IterateKeeps(step, s, n - 1, inv);
    }
  }

  /** What never rises, and never falls below a bound that every step keeps, stays at the bound once it is there. */
  lemma {:induction false} IterateStaysLow<S(!new)>(
    step: S -> S, s: S, j: nat, n: nat, inv: S -> bool, owed: S -> nat, residue: S -> nat)
    requires inv(s) && j <= n
    requires forall x :: inv(x) ==>
                           && inv(step(x)) && residue(x) <= owed(x)
                           && owed(step(x)) <= owed(x) && residue(step(x)) == residue(x)
    requires owed(Iterate(step, s, j)) == residue(s)
    ensures inv(Iterate(step, s, n)) && owed(Iterate(step, s, n)) == residue(s) == residue(Iterate(step, s, n))
  {
    if j < n {
      IterateStaysLow(step, s, j, n - 1, inv, owed, residue);
    } else {
      IterateKeepsValue(step, s, n, inv, residue);
    }
  }

  lemma {:induction false} IterateKeepsValue<S(!new), V>(step: S -> S, s: S, n: nat, inv: S -> bool, value: S -> V)
    requires inv(s)
    requires forall x :: inv(x) ==> inv(step(x)) && value(step(x)) == value(x)
    ensures inv(Iterate(step, s, n)) && value(Iterate(step, s, n)) == value(s)
  {
    if n > 0 {
      IterateKeepsValue(step, s, n - 1, inv, value);
    }
  }

  /** How many of the first n steps start from a good state. */
  ghost function GoodSteps<S>(step: S -> S, s: S, n: nat, good: S -> bool): nat {
    if n == 0 then 0
    else GoodSteps(step, s, n - 1, good) + if good(Iterate(step, s, n - 1)) then 1 else 0
  }

  lemma {:induction false} SomeStepIsGood<S>(step: S -> S, s: S, n: nat, good: S -> bool) returns (i: nat)
    requires GoodSteps(step, s, n, good) > 0
    ensures i < n && good(Iterate(step, s, i))
  {
    if good(Iterate(step, s, n - 1)) {
      i := n - 1;
    } else {
      i := SomeStepIsGood(step, s, n - 1, good);
    }
  }

  /** A measure that never falls, and rises with each good step, counts them. */
  lemma {:induction false} GoodStepsCount<S(!new)>(
    step: S -> S, s: S, n: nat, inv: S -> bool, good: S -> bool, measure: S -> int)
    requires inv(s)
    requires forall x :: inv(x) ==> inv(step(x)) && measure(step(x)) >= measure(x) + if good(x) then 1 else 0
    ensures inv(Iterate(step, s, n)) && measure(Iterate(step, s, n)) >= measure(s) + GoodSteps(step, s, n, good)
  {
    if n > 0 {
      GoodStepsCount(step, s, n - 1, inv, good, measure);
    }
  }

  function Before(ticks: set<nat>, clock: nat): set<nat> {
    set t | t in ticks && t < clock
  }

  lemma SubsetIsSmaller(a: set<nat>, b: set<nat>)
    requires a <= b
    ensures |a| <= |b|
  {
    assert b == a + (b - a);
  }

  /** Steps take disjoint stretches of time, so if a step is spoilt only by a bad tick within its own
      stretch, each bad tick spoils one step at most. */
  lemma {:induction false} BadTicksSpoilFewSteps<S(!new)>(
    step: S -> S, s: S, n: nat, inv: S -> bool, good: S -> bool, clock: S -> nat, bad: set<nat>)
    requires inv(s)
    requires forall x :: inv(x) ==>
                           && inv(step(x)) && clock(x) <= clock(step(x))
                           && (good(x) || exists t :: t in bad && clock(x) <= t < clock(step(x)))
    ensures inv(Iterate(step, s, n))
    ensures n <= GoodSteps(step, s, n, good) + |Before(bad, clock(Iterate(step, s, n)))|
  {
    if n > 0 {
      BadTicksSpoilFewSteps(step, s, n - 1, inv, good, clock, bad);
      var last := Iterate(step, s, n - 1);
      var past, now := Before(bad, clock(last)), Before(bad, clock(step(last)));
      assert past <= now;
      SubsetIsSmaller(past, now);
      if !good(last) {
        var t :| t in bad && clock(last) <= t < clock(step(last));
        assert t in now && t !in past;
        SubsetIsSmaller(past + {t}, now);
      }
    }
  }
}

// The states a bounded loop passes through.
module Iteration {

  // From s after n rounds; the loop is over after max rounds or where it stops.
  ghost function Iterate<S>(stops: (S, nat) -> bool, step: (S, nat) -> S, s: S, n: nat, max: nat): (run: seq<S>)
    ensures |run| >= 1 && run[0] == s
    ensures |run| == 1 || n + |run| - 1 <= max
    decreases max - n
  {
    if n >= max || stops(s, n) then [s] else [s] + Iterate(stops, step, step(s, n), n + 1, max)
  }

  ghost function Last<S>(run: seq<S>): S
    requires run != []
  {
    run[|run| - 1]
  }

  lemma LastOfIterate<S>(stops: (S, nat) -> bool, step: (S, nat) -> S, s: S, n: nat, max: nat)
    ensures n >= max || stops(s, n) ==> Last(Iterate(stops, step, s, n, max)) == s
    ensures n < max && !stops(s, n) ==>
      Last(Iterate(stops, step, s, n, max)) == Last(Iterate(stops, step, step(s, n), n + 1, max))
  {
  }

  // Consecutive states are steps, and the run ends exactly where the loop does.
  lemma {:induction false} IterateSteps<S>(stops: (S, nat) -> bool, step: (S, nat) -> S, s: S, n: nat, max: nat, k: nat)
    requires k < |Iterate(stops, step, s, n, max)|
    ensures var run := Iterate(stops, step, s, n, max);
      && (k < |run| - 1 <==> n + k < max && !stops(run[k], n + k))
      && (k < |run| - 1 ==> run[k + 1] == step(run[k], n + k))
    decreases k
  {
    if n < max && !stops(s, n) {
      var rest := Iterate(stops, step, step(s, n), n + 1, max);
      assert Iterate(stops, step, s, n, max) == [s] + rest;
      if k > 0 {
        IterateSteps(stops, step, step(s, n), n + 1, max, k - 1);
      }
    }
  }

  // What every step keeps holds in every state of the run.
  lemma {:induction false} IterateKeeps<S(!new)>(stops: (S, nat) -> bool, step: (S, nat) -> S, inv: (S, nat) -> bool,
                                                 s: S, n: nat, max: nat, k: nat)
    requires inv(s, n) && k < |Iterate(stops, step, s, n, max)|
    requires forall t, m: nat :: m < max && inv(t, m) && !stops(t, m) ==> inv(step(t, m), m + 1)
    ensures inv(Iterate(stops, step, s, n, max)[k], n + k)
    decreases k
  {
    if k > 0 {
      IterateKeeps(stops, step, inv, s, n, max, k - 1);
      IterateSteps(stops, step, s, n, max, k - 1);
    }
  }
}

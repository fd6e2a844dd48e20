// Calls that start in batches: every call waits for the batches before its own, and within a batch
// any order is possible (executeApprovedToolCalls, internal/agent/executor.go). Some calls switch a
// mode on or off. Which calls can run while it is on?
module Staging {
  import opened GreedyCuts

  // The batch of every call; batches are contiguous.
  predicate IsStaging(stage: seq<nat>) {
    forall a, b :: 0 <= a <= b < |stage| ==> stage[a] <= stage[b]
  }

  function StagesOf<T>(batches: seq<seq<T>>): (stage: seq<nat>)
    ensures |stage| == |Flatten(batches)| && forall a :: 0 <= a < |stage| ==> stage[a] < |batches|
    ensures IsStaging(stage)
  {
    if batches == [] then []
    else
      var n := |batches| - 1;
      FlattenConcat(batches[..n], [batches[n]]);
      assert batches[..n] + [batches[n]] == batches && Flatten([batches[n]]) == batches[n];
      StagesOf(batches[..n]) + seq(|batches[n]|, _ => n)
  }

  // Each call at most once, and only after all calls of earlier batches.
  predicate IsOrder(stage: seq<nat>, order: seq<nat>) {
    && (forall p :: 0 <= p < |order| ==> order[p] < |stage|)
    && (forall p, q :: 0 <= p < q < |order| ==> order[p] != order[q])
    && (forall p, c :: 0 <= p < |order| && 0 <= c < |stage| && stage[c] < stage[order[p]] ==> c in order[..p])
  }

  datatype Switch = On | Off | Neutral

  predicate AreCalls(order: seq<nat>, n: nat) {
    forall p :: 0 <= p < |order| ==> order[p] < n
  }

  // Whether the mode, off at first, is on after these calls.
  predicate IsOn(kinds: seq<Switch>, order: seq<nat>)
    requires AreCalls(order, |kinds|)
  {
    order != []
    && match kinds[order[|order| - 1]]
       case On => true
       case Off => false
       case Neutral => IsOn(kinds, order[..|order| - 1])
  }

  // Call i runs right after these calls, with the mode on.
  predicate Meets(stage: seq<nat>, kinds: seq<Switch>, order: seq<nat>, i: nat)
    requires |kinds| == |stage|
  {
    AreCalls(order, |stage|) && IsOrder(stage, order + [i]) && IsOn(kinds, order)
  }

  // Call j can switch the mode on for call i: it starts no later, and nothing that switches the
  // mode off lies in a batch strictly between.
  predicate SwitchesOnFor(stage: seq<nat>, kinds: seq<Switch>, j: nat, i: nat)
    requires |kinds| == |stage| && i < |stage|
  {
    && j < |stage| && j != i && kinds[j] == On && stage[j] <= stage[i]
    && forall k :: 0 <= k < |stage| && kinds[k] == Off ==> !(stage[j] < stage[k] < stage[i])
  }

  // The mode is on exactly when the last switch was an on.
  lemma {:induction false} OnSince(kinds: seq<Switch>, order: seq<nat>)
    requires AreCalls(order, |kinds|)
    ensures IsOn(kinds, order) <==>
      exists q :: 0 <= q < |order| && kinds[order[q]] == On && forall m :: q < m < |order| ==> kinds[order[m]] != Off
  {
    if order != [] {
      var front := order[..|order| - 1];
      OnSince(kinds, front);
      assert forall p :: 0 <= p < |front| ==> front[p] == order[p];
      if kinds[order[|order| - 1]] == On {
        assert kinds[order[|order| - 1]] == On;
      } else if IsOn(kinds, order) {
        var q :| 0 <= q < |front| && kinds[front[q]] == On && forall m :: q < m < |front| ==> kinds[front[m]] != Off;
        assert kinds[order[q]] == On && forall m :: q < m < |order| ==> kinds[order[m]] != Off;
      }
    }
  }

  // Calls of different batches keep the order of their batches.
  lemma EarlierFirst(stage: seq<nat>, order: seq<nat>, p: nat, q: nat)
    requires IsOrder(stage, order) && p < |order| && q < |order| && stage[order[p]] < stage[order[q]]
    ensures p < q
  {
    assert order[p] in order[..q];
  }

  lemma MeetingNeedsSwitch(stage: seq<nat>, kinds: seq<Switch>, order: seq<nat>, i: nat)
    requires |kinds| == |stage| && i < |stage| && Meets(stage, kinds, order, i)
    ensures exists j: nat :: SwitchesOnFor(stage, kinds, j, i)
  {
    var run, p := order + [i], |order|;
    assert forall m :: 0 <= m < p ==> run[m] == order[m];
    assert run[p] == i;
    OnSince(kinds, order);
    var q :| 0 <= q < p && kinds[order[q]] == On && forall m :: q < m < p ==> kinds[order[m]] != Off;
    var j := order[q];
    assert run[q] == j;
    if stage[j] > stage[i] {
      EarlierFirst(stage, run, p, q);
    }
    forall k | 0 <= k < |stage| && kinds[k] == Off ensures !(stage[j] < stage[k] < stage[i]) {
      if stage[j] < stage[k] < stage[i] {
        assert k in run[..p];
        var m :| 0 <= m < p && run[m] == k;
        EarlierFirst(stage, run, q, m);
      }
    }
    assert SwitchesOnFor(stage, kinds, j, i);
  }

  // The first call of a batch not before s.
  function FirstFrom(stage: seq<nat>, s: nat): (n: nat)
    ensures n <= |stage|
    ensures forall a :: 0 <= a < n ==> stage[a] < s
    ensures n < |stage| ==> stage[n] >= s
  {
    if stage == [] || stage[0] >= s then 0 else 1 + FirstFrom(stage[1..], s)
  }

  function PlaceOf(c: nat, j: nat, n: nat): nat
    requires j < n
  {
    if c < j || n <= c then c else if c == j then n - 1 else c - 1
  }

  // All calls before position n but j, then j, then those from n to before m, in list order.
  function Delayed(j: nat, n: nat, m: nat): (order: seq<nat>)
    requires j < n <= m
    ensures |order| == m
    ensures forall p :: 0 <= p < m ==>
      order[p] == if p < j || n <= p then p else if p == n - 1 then j else p + 1
  {
    seq(m, p requires 0 <= p < m => if p < j || n <= p then p else if p == n - 1 then j else p + 1)
  }

  lemma DelayedBounds(stage: seq<nat>, j: nat, i: nat, n: nat, m: nat)
    requires IsStaging(stage) && i < |stage| && j < |stage| && stage[j] < stage[i]
    requires n == FirstFrom(stage, stage[j] + 1) && m == FirstFrom(stage, stage[i])
    ensures j < n <= m <= i
    ensures forall a :: 0 <= a < |stage| ==> (a < n <==> stage[a] <= stage[j]) && (a < m <==> stage[a] < stage[i])
  {
  }

  lemma DelayedIsOrder(stage: seq<nat>, j: nat, i: nat, n: nat, m: nat)
    requires IsStaging(stage) && i < |stage| && j < n <= m <= i
    requires forall a :: 0 <= a < |stage| ==> (a < n <==> stage[a] <= stage[j]) && (a < m <==> stage[a] < stage[i])
    ensures IsOrder(stage, Delayed(j, n, m) + [i])
  {
    var order := Delayed(j, n, m);
    var run := order + [i];
    assert forall p :: 0 <= p < m ==> run[p] == order[p];
    assert run[m] == i;
    forall p, c | 0 <= p < |run| && 0 <= c < |stage| && stage[c] < stage[run[p]] ensures c in run[..p] {
      assert run[..p][PlaceOf(c, j, n)] == c;
    }
  }

  // An order in which j comes last of its batch and i first of a later one.
  lemma DelayedMeets(stage: seq<nat>, kinds: seq<Switch>, j: nat, i: nat, n: nat, m: nat)
    requires IsStaging(stage) && |kinds| == |stage| && i < |stage|
    requires SwitchesOnFor(stage, kinds, j, i) && stage[j] < stage[i]
    requires n == FirstFrom(stage, stage[j] + 1) && m == FirstFrom(stage, stage[i])
    ensures j < n <= m <= i && Meets(stage, kinds, Delayed(j, n, m), i)
  {
    DelayedBounds(stage, j, i, n, m);
    var order := Delayed(j, n, m);
    DelayedIsOrder(stage, j, i, n, m);
    forall p | n - 1 < p < m ensures kinds[order[p]] != Off {
      assert order[p] == p && stage[j] < stage[p] < stage[i];
    }
    assert order[n - 1] == j;
    OnSince(kinds, order);
  }

  lemma FrontIsOrder(stage: seq<nat>, j: nat, i: nat, n: nat, run: seq<nat>)
    requires IsStaging(stage) && i < |stage| && j < |stage| && j != i && stage[j] == stage[i]
    requires forall c :: 0 <= c < |stage| ==> (c < n <==> stage[c] < stage[i])
    requires |run| == n + 2 && run[n] == j && run[n + 1] == i && forall p :: 0 <= p < n ==> run[p] == p
    ensures IsOrder(stage, run)
  {
    assert n <= j && n <= i;
    forall p, c | 0 <= p < |run| && 0 <= c < |stage| && stage[c] < stage[run[p]] ensures c in run[..p] {
      assert run[..p][c] == c;
    }
  }

  // An order in which j and then i come first of their batch.
  lemma SameBatchMeets(stage: seq<nat>, kinds: seq<Switch>, j: nat, i: nat, n: nat)
    requires IsStaging(stage) && |kinds| == |stage| && i < |stage|
    requires SwitchesOnFor(stage, kinds, j, i) && stage[j] == stage[i] && n == FirstFrom(stage, stage[i])
    ensures Meets(stage, kinds, seq(n, p => p) + [j], i)
  {
    var order := seq(n, p => p) + [j];
    FrontIsOrder(stage, j, i, n, order + [i]);
    assert order[|order| - 1] == j;
  }

  // A call can run with the mode on exactly when some call can switch it on for it.
  lemma MeetsExactly(stage: seq<nat>, kinds: seq<Switch>, i: nat)
    requires IsStaging(stage) && |kinds| == |stage| && i < |stage|
    ensures (exists order :: Meets(stage, kinds, order, i)) <==> exists j: nat :: SwitchesOnFor(stage, kinds, j, i)
  {
    forall order | Meets(stage, kinds, order, i) ensures exists j: nat :: SwitchesOnFor(stage, kinds, j, i) {
      MeetingNeedsSwitch(stage, kinds, order, i);
    }
    if exists j: nat :: SwitchesOnFor(stage, kinds, j, i) {
      var j: nat :| SwitchesOnFor(stage, kinds, j, i);
      var m := FirstFrom(stage, stage[i]);
      if stage[j] == stage[i] {
        SameBatchMeets(stage, kinds, j, i, m);
      } else {
        DelayedMeets(stage, kinds, j, i, FirstFrom(stage, stage[j] + 1), m);
      }
    }
  }

  // ---- Orders go on to the end -------------------------------------------------------------

  // The first call not yet run.
  function Missing(order: seq<nat>, c: nat, n: nat): (m: nat)
    requires c <= n && forall a :: 0 <= a < c ==> a in order
    ensures c <= m <= n && (forall a :: 0 <= a < m ==> a in order) && (m < n ==> m !in order)
    decreases n - c
  {
    if c == n || c !in order then c else Missing(order, c + 1, n)
  }

  function Below(n: nat): (all: set<nat>)
    ensures |all| == n && forall c: nat :: c in all <==> c < n
  {
    if n == 0 then {} else Below(n - 1) + {n - 1}
  }

  function Used(order: seq<nat>): (used: set<nat>)
    ensures forall c :: c in used <==> c in order
    ensures (forall p, q :: 0 <= p < q < |order| ==> order[p] != order[q]) ==> |used| == |order|
  {
    if order == [] then {}
    else
      var front, last := order[..|order| - 1], order[|order| - 1];
      assert order == front + [last];
      Used(front) + {last}
  }

  lemma {:induction false} SubsetCardinal(a: set<nat>, b: set<nat>)
    requires a <= b
    ensures |a| <= |b|
  {
    if a != {} {
      var x :| x in a;
      SubsetCardinal(a - {x}, b - {x});
    }
  }

  lemma OrderBound(order: seq<nat>, n: nat)
    requires AreCalls(order, n) && forall p, q :: 0 <= p < q < |order| ==> order[p] != order[q]
    ensures |order| <= n
    ensures (forall c: nat :: c < n ==> c in order) ==> |order| == n
  {
    SubsetCardinal(Used(order), Below(n));
    if forall c: nat :: c < n ==> c in order {
      SubsetCardinal(Below(n), Used(order));
    }
  }

  lemma OneMoreCall(stage: seq<nat>, order: seq<nat>, m: nat)
    requires IsStaging(stage) && IsOrder(stage, order) && m < |stage| && m !in order
    requires forall a :: 0 <= a < m ==> a in order
    ensures IsOrder(stage, order + [m])
  {
    var longer := order + [m];
    assert forall p :: 0 <= p < |order| ==> longer[p] == order[p] && longer[..p] == order[..p];
    assert longer[..|order|] == order;
  }

  // Every order extends to one that runs all calls.
  lemma OrdersExtend(stage: seq<nat>, order: seq<nat>)
    requires IsStaging(stage) && IsOrder(stage, order)
    ensures exists rest :: IsOrder(stage, order + rest) && |order + rest| == |stage|
    decreases |stage| - |order|
  {
    OrderBound(order, |stage|);
    if |order| < |stage| {
      var m := Missing(order, 0, |stage|);
      OneMoreCall(stage, order, m);
      OrderBound(order + [m], |stage|);
      OrdersExtend(stage, order + [m]);
      var rest :| IsOrder(stage, order + [m] + rest) && |order + [m] + rest| == |stage|;
      assert order + ([m] + rest) == order + [m] + rest;
    } else {
      assert order + [] == order;
    }
  }
}

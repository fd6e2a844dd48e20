// Mapping, selecting and collecting over lists.
module Lists {
  import opened Wrappers

  function Select<T>(ms: seq<Option<T>>, p: T -> bool): seq<T> {
    if ms == [] then []
    else
      var last := ms[|ms| - 1];
      Select(ms[..|ms| - 1], p) + if last.Some? && p(last.value) then [last.value] else []
  }

  lemma SelectNext<T>(ms: seq<Option<T>>, i: nat, p: T -> bool)
    requires i < |ms|
    ensures ms[i].Some? && p(ms[i].value) ==> Select(ms[..i + 1], p) == Select(ms[..i], p) + [ms[i].value]
    ensures !(ms[i].Some? && p(ms[i].value)) ==> Select(ms[..i + 1], p) == Select(ms[..i], p)
  {
    assert ms[..i + 1][..i] == ms[..i];
  }

  // Selecting by a stronger condition.
  lemma {:induction false} SelectFewer<T>(ms: seq<Option<T>>, p: T -> bool, q: T -> bool)
    requires forall i :: 0 <= i < |ms| && ms[i].Some? && p(ms[i].value) ==> q(ms[i].value)
    ensures |Select(ms, p)| <= |Select(ms, q)|
    ensures |Select(ms, p)| == |Select(ms, q)| ==> Select(ms, p) == Select(ms, q)
    ensures (forall i :: 0 <= i < |Select(ms, q)| ==> p(Select(ms, q)[i])) ==> Select(ms, p) == Select(ms, q)
  {
    if ms != [] {
      var front, all := ms[..|ms| - 1], Select(ms, q);
      SelectFewer(front, p, q);
      assert forall i :: 0 <= i < |Select(front, q)| ==> all[i] == Select(front, q)[i];
      assert all == Select(front, q) || p(all[|all| - 1]) == p(ms[|ms| - 1].value);
    }
  }

  lemma {:induction false} SelectedSatisfy<T>(ms: seq<Option<T>>, p: T -> bool)
    ensures forall i :: 0 <= i < |Select(ms, p)| ==> p(Select(ms, p)[i]) && Some(Select(ms, p)[i]) in ms
  {
    if ms != [] {
      SelectedSatisfy(ms[..|ms| - 1], p);
    }
  }

  function MapEach<S, T>(xs: seq<S>, f: S -> T): (out: seq<T>)
    ensures |out| == |xs| && forall i :: 0 <= i < |out| ==> out[i] == f(xs[i])
  {
    seq(|xs|, i requires 0 <= i < |xs| => f(xs[i]))
  }

  method ForEach<S, T>(xs: seq<S>, f: S -> T) returns (out: seq<T>)
    ensures out == MapEach(xs, f)
  {
    out := [];
    for i := 0 to |xs|
      invariant out == MapEach(xs, f)[..i]
    {
      out := out + [f(xs[i])];
    }
  }

  lemma MapEachSnoc<S, T>(xs: seq<S>, x: S, f: S -> T)
    ensures MapEach(xs + [x], f) == MapEach(xs, f) + [f(x)]
  {
  }

  lemma OneMore<T>(xs: seq<T>, i: nat)
    requires i < |xs|
    ensures xs[..i + 1] == xs[..i] + [xs[i]] && xs[..i + 1][..i] == xs[..i]
  {
  }

  lemma Associate<T>(a: seq<T>, b: seq<T>, c: seq<T>)
    ensures (a + b) + c == a + (b + c)
  {
  }

  // What f finds in each element, one after another.
  function Collect<S, T>(xs: seq<S>, f: S -> seq<T>): seq<T> {
    if xs == [] then [] else Collect(xs[..|xs| - 1], f) + f(xs[|xs| - 1])
  }

  lemma {:induction false} CollectMembers<S, T(!new)>(xs: seq<S>, f: S -> seq<T>, y: T)
    ensures y in Collect(xs, f) <==> exists i :: 0 <= i < |xs| && y in f(xs[i])
  {
    if xs != [] {
      CollectMembers(xs[..|xs| - 1], f, y);
    }
  }

  lemma {:induction false} CollectConcat<S, T>(a: seq<S>, b: seq<S>, f: S -> seq<T>)
    ensures Collect(a + b, f) == Collect(a, f) + Collect(b, f)
    decreases |b|
  {
    if b == [] {
      assert a + b == a;
    } else {
      assert (a + b)[..|a + b| - 1] == a + b[..|b| - 1];
      CollectConcat(a, b[..|b| - 1], f);
    }
  }

  lemma CollectFramed<S, T>(all: seq<S>, first: S, xs: seq<S>, last: S, f: S -> seq<T>)
    requires all == [first] + xs + [last] && f(first) == [] && f(last) == []
    ensures Collect(all, f) == Collect(xs, f)
  {
    CollectConcat([first] + xs, [last], f);
    CollectConcat([first], xs, f);
    assert [first][..0] == [] && [last][..0] == [];
  }

  lemma {:induction false} CollectMatches<R, S, T>(xs: seq<R>, ys: seq<S>, f: R -> seq<T>, g: S -> seq<T>)
    requires |xs| == |ys| && forall i :: 0 <= i < |xs| ==> f(xs[i]) == g(ys[i])
    ensures Collect(xs, f) == Collect(ys, g)
  {
    if xs != [] {
      CollectMatches(xs[..|xs| - 1], ys[..|ys| - 1], f, g);
    }
  }

  lemma MapEachFirst<S, T>(xs: seq<S>, f: S -> T)
    requires xs != []
    ensures MapEach(xs, f) == [f(xs[0])] + MapEach(xs[1..], f)
  {
  }

  lemma MapEachConcat<S, T>(a: seq<S>, b: seq<S>, f: S -> T)
    ensures MapEach(a + b, f) == MapEach(a, f) + MapEach(b, f)
  {
  }

  // Mapping what was collected is collecting what was mapped.
  lemma {:induction false} MapOfCollect<R, S, T>(xs: seq<R>, f: R -> seq<S>, g: S -> T, h: R -> seq<T>)
    requires forall i :: 0 <= i < |xs| ==> MapEach(f(xs[i]), g) == h(xs[i])
    ensures MapEach(Collect(xs, f), g) == Collect(xs, h)
  {
    if xs != [] {
      MapOfCollect(xs[..|xs| - 1], f, g, h);
      MapEachConcat(Collect(xs[..|xs| - 1], f), f(xs[|xs| - 1]), g);
    }
  }

  // What holds of the empty list and survives appending one element holds of every list.
  lemma {:induction false} SnocInduction<T(!new)>(p: seq<T> -> bool, xs: seq<T>)
    requires p([])
    requires forall front, last :: p(front) ==> p(front + [last])
    ensures p(xs)
  {
    if xs != [] {
      var front, last := xs[..|xs| - 1], xs[|xs| - 1];
      SnocInduction(p, front);
      assert p(front + [last]);
      assert front + [last] == xs;
    }
  }
}

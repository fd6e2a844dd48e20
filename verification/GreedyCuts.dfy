// Cutting a list into contiguous batches of pairwise compatible members, for any compatibility
// test: a cut that closes a batch only when the next member does not fit is shortest possible.
module GreedyCuts {

  predicate CanJoin<T>(ok: (T, T) -> bool, candidate: T, current: seq<T>) {
    forall i :: 0 <= i < |current| ==> ok(candidate, current[i])
  }

  predicate Compatible<T>(ok: (T, T) -> bool, batch: seq<T>) {
    forall i, j :: 0 <= i < j < |batch| ==> ok(batch[j], batch[i])
  }

  function Flatten<T>(parts: seq<seq<T>>): seq<T> {
    if parts == [] then [] else parts[0] + Flatten(parts[1..])
  }

  lemma {:induction false} FlattenConcat<T>(a: seq<seq<T>>, b: seq<seq<T>>)
    ensures Flatten(a + b) == Flatten(a) + Flatten(b)
  {
    if a == [] {
      assert a + b == b;
    } else {
      assert (a + b)[1..] == a[1..] + b;
      FlattenConcat(a[1..], b);
    }
  }

  predicate AllCompatible<T(==)>(ok: (T, T) -> bool, batches: seq<seq<T>>) {
    forall k :: 0 <= k < |batches| ==> batches[k] != [] && Compatible(ok, batches[k])
  }

  // A cut of the list into contiguous, nonempty, pairwise compatible batches.
  predicate IsCut<T(==)>(ok: (T, T) -> bool, batches: seq<seq<T>>, calls: seq<T>) {
    && Flatten(batches) == calls
    && AllCompatible(ok, batches)
  }

  ghost predicate Closed<T>(ok: (T, T) -> bool, batches: seq<seq<T>>)
    requires AllCompatible(ok, batches)
  {
    forall j, k :: 0 <= j < k < |batches| && k == j + 1 ==> !CanJoin(ok, batches[k][0], batches[j])
  }

  // A cut whose batches close only when the next member does not fit.
  ghost predicate IsGreedyCut<T>(ok: (T, T) -> bool, batches: seq<seq<T>>, calls: seq<T>) {
    IsCut(ok, batches, calls) && Closed(ok, batches)
  }

  lemma CloseBatch<T>(ok: (T, T) -> bool, batches: seq<seq<T>>, current: seq<T>)
    requires AllCompatible(ok, batches) && Closed(ok, batches)
    requires current != [] && Compatible(ok, current)
    requires batches != [] ==> !CanJoin(ok, current[0], batches[|batches| - 1])
    ensures AllCompatible(ok, batches + [current]) && Closed(ok, batches + [current])
  {
  }

  lemma FlattenSnoc<T>(batches: seq<seq<T>>, current: seq<T>)
    ensures Flatten(batches + [current]) == Flatten(batches) + current
  {
    FlattenConcat(batches, [current]);
    assert Flatten([current]) == current;
  }

  // The state of the cutting loop after the given calls: closed batches and an open one.
  ghost predicate Building<T>(ok: (T, T) -> bool, batches: seq<seq<T>>, current: seq<T>, calls: seq<T>) {
    && Flatten(batches) + current == calls && (current == [] ==> batches == [])
    && AllCompatible(ok, batches) && Closed(ok, batches) && Compatible(ok, current)
    && (current != [] && batches != [] ==> !CanJoin(ok, current[0], batches[|batches| - 1]))
  }

  lemma CallJoins<T>(ok: (T, T) -> bool, batches: seq<seq<T>>, current: seq<T>, calls: seq<T>, call: T)
    requires Building(ok, batches, current, calls) && (current == [] || CanJoin(ok, call, current))
    ensures Building(ok, batches, current + [call], calls + [call])
  {
  }

  lemma CallStartsBatch<T>(ok: (T, T) -> bool, batches: seq<seq<T>>, current: seq<T>, calls: seq<T>, call: T)
    requires Building(ok, batches, current, calls) && current != [] && !CanJoin(ok, call, current)
    ensures Building(ok, batches + [current], [call], calls + [call])
  {
    FlattenSnoc(batches, current);
    CloseBatch(ok, batches, current);
  }

  lemma LastBatchCloses<T>(ok: (T, T) -> bool, batches: seq<seq<T>>, current: seq<T>, calls: seq<T>)
    requires Building(ok, batches, current, calls)
    ensures IsGreedyCut(ok, if current == [] then batches else batches + [current], calls)
  {
    if current != [] {
      FlattenSnoc(batches, current);
      CloseBatch(ok, batches, current);
    }
  }

  // A member that lies in the same compatible batch as those before it could have joined them.
  lemma JoinsInside<T>(ok: (T, T) -> bool, first: seq<T>, rest: seq<T>, k: nat, batch: seq<T>, call: T)
    requires Compatible(ok, first) && k <= |first|
    requires batch + [call] <= (first + rest)[k..]
    ensures k + |batch| < |first| ==> CanJoin(ok, call, batch)
  {
    var n := k + |batch|;
    if n < |first| {
      assert (batch + [call])[|batch|] == (first + rest)[k..][|batch|] == first[n];
      assert forall i :: 0 <= i < |batch| ==> (batch + [call])[i] == batch[i] && (first + rest)[k..][i] == first[k + i];
    }
  }

  // No cut of a list has fewer batches than a greedy cut of any of its suffixes.
  lemma {:induction false} GreedyIsMinimal<T>(ok: (T, T) -> bool, greedy: seq<seq<T>>, cut: seq<seq<T>>,
                                              calls: seq<T>, k: nat)
    requires k <= |calls|
    requires IsCut(ok, cut, calls)
    requires IsGreedyCut(ok, greedy, calls[k..])
    ensures |greedy| <= |cut|
    decreases |cut|
  {
    if greedy != [] && cut != [] {
      var first, rest := cut[0], calls[|cut[0]|..];
      assert calls == first + rest && IsCut(ok, cut[1..], rest);
      var batch, later := greedy[0], greedy[1..];
      var next := k + |batch|;
      assert calls[k..] == batch + Flatten(later);
      if |first| <= k {
        assert calls[k..] == rest[k - |first|..];
        GreedyIsMinimal(ok, greedy, cut[1..], rest, k - |first|);
      } else if later != [] {
        assert Flatten(later) == calls[next..] == [later[0][0]] + Flatten(later)[1..];
        JoinsInside(ok, first, rest, k, batch, later[0][0]);
        assert calls[next..] == rest[next - |first|..];
        assert IsGreedyCut(ok, later, calls[next..]);
        GreedyIsMinimal(ok, later, cut[1..], rest, next - |first|);
      }
    } else if greedy != [] {
      assert calls == [];
    }
  }

  // Optimality over all cuts of the whole list.
  lemma GreedyIsOptimal<T(!new)>(ok: (T, T) -> bool, greedy: seq<seq<T>>, calls: seq<T>)
    requires IsGreedyCut(ok, greedy, calls)
    ensures forall cut :: IsCut(ok, cut, calls) ==> |greedy| <= |cut|
  {
    assert calls[0..] == calls;
    forall cut | IsCut(ok, cut, calls) ensures |greedy| <= |cut| {
      GreedyIsMinimal(ok, greedy, cut, calls, 0);
    }
  }
}

// Keeping the last item filed under each key, in the order in which the keys first appear.
module LatestByKey {
  import opened Lists
  import opened Wrappers

  // The keys in the order in which they first appear.
  function FirstKeys<T>(es: seq<T>, keyOf: T -> string): seq<string> {
    if es == [] then []
    else
      var front, key := FirstKeys(es[..|es| - 1], keyOf), keyOf(es[|es| - 1]);
      if key in front then front else front + [key]
  }

  // The last item filed under a key.
  function Latest<T>(es: seq<T>, keyOf: T -> string, key: string): (m: Option<T>)
    ensures m.Some? <==> key in FirstKeys(es, keyOf)
  {
    if es == [] then None
    else if keyOf(es[|es| - 1]) == key then Some(es[|es| - 1])
    else Latest(es[..|es| - 1], keyOf, key)
  }

  function LatestPerKey<T>(es: seq<T>, keyOf: T -> string): (out: seq<T>)
    ensures |out| == |FirstKeys(es, keyOf)|
    ensures forall i :: 0 <= i < |out| ==> Some(out[i]) == Latest(es, keyOf, FirstKeys(es, keyOf)[i])
  {
    var keys := FirstKeys(es, keyOf);
    seq(|keys|, i requires 0 <= i < |keys| => Latest(es, keyOf, keys[i]).value)
  }

  // A map that holds exactly the latest item of each key.
  ghost predicate Files<T(!new)>(latest: map<string, T>, es: seq<T>, keyOf: T -> string) {
    forall key :: if key in latest then Latest(es, keyOf, key) == Some(latest[key]) else Latest(es, keyOf, key).None?
  }

  lemma FileOne<T(!new)>(latest: map<string, T>, es: seq<T>, keyOf: T -> string, m: T)
    requires Files(latest, es, keyOf)
    ensures Files(latest[keyOf(m) := m], es + [m], keyOf)
    ensures FirstKeys(es + [m], keyOf)
         == if keyOf(m) in latest then FirstKeys(es, keyOf) else FirstKeys(es, keyOf) + [keyOf(m)]
  {
  }

  method LatestInOrder<T(!new)>(ms: seq<Option<T>>, eligible: T -> bool, keyOf: T -> string) returns (out: seq<T>)
    ensures out == LatestPerKey(Select(ms, eligible), keyOf)
  {
    var latestByKey: map<string, T> := map[];
    var order: seq<string> := [];
    for i := 0 to |ms|
      invariant order == FirstKeys(Select(ms[..i], eligible), keyOf)
      invariant Files(latestByKey, Select(ms[..i], eligible), keyOf)
    {
      ghost var es := Select(ms[..i], eligible);
      SelectNext(ms, i, eligible);
      if ms[i].None? || !eligible(ms[i].value) {
        continue;
      }
      var key := keyOf(ms[i].value);
      FileOne(latestByKey, es, keyOf, ms[i].value);
      if key !in latestByKey {
        order := order + [key];
      }
      latestByKey := latestByKey[key := ms[i].value];
    }
    assert ms[..|ms|] == ms;
    ghost var es := Select(ms, eligible);
    out := [];
    for i := 0 to |order|
      invariant out == LatestPerKey(es, keyOf)[..i]
    {
      assert Latest(es, keyOf, order[i]) == Some(LatestPerKey(es, keyOf)[i]);
      out := out + [latestByKey[order[i]]];
    }
  }

  // ---- What is kept ------------------------------------------------------------------------

  // Where a key is first filed, |es| if it never is.
  function FirstIndex<T>(es: seq<T>, keyOf: T -> string, key: string): (n: nat)
    ensures n <= |es|
    ensures n < |es| ==> keyOf(es[n]) == key
    ensures forall k :: 0 <= k < n ==> keyOf(es[k]) != key
  {
    if es == [] then 0
    else
      var n := FirstIndex(es[..|es| - 1], keyOf, key);
      if n < |es| - 1 || keyOf(es[|es| - 1]) == key then n else |es|
  }

  // No later item has the same key.
  predicate LastWithKey<T>(es: seq<T>, keyOf: T -> string, j: int) {
    0 <= j < |es| && forall k :: j < k < |es| ==> keyOf(es[k]) != keyOf(es[j])
  }

  lemma {:induction false} LatestIsLast<T>(es: seq<T>, keyOf: T -> string, key: string) returns (j: nat)
    requires key in FirstKeys(es, keyOf)
    ensures LastWithKey(es, keyOf, j) && keyOf(es[j]) == key && Latest(es, keyOf, key) == Some(es[j])
  {
    if keyOf(es[|es| - 1]) == key {
      j := |es| - 1;
    } else {
      j := LatestIsLast(es[..|es| - 1], keyOf, key);
    }
  }

  lemma {:induction false} KeysAreThoseFiled<T>(es: seq<T>, keyOf: T -> string, j: nat)
    requires j < |es|
    ensures keyOf(es[j]) in FirstKeys(es, keyOf)
  {
    if j < |es| - 1 {
      KeysAreThoseFiled(es[..|es| - 1], keyOf, j);
    }
  }

  lemma {:induction false} FirstKeysInOrder<T>(es: seq<T>, keyOf: T -> string)
    ensures forall key :: key in FirstKeys(es, keyOf) <==> FirstIndex(es, keyOf, key) < |es|
    ensures forall i, k :: 0 <= i < k < |FirstKeys(es, keyOf)| ==>
      FirstIndex(es, keyOf, FirstKeys(es, keyOf)[i]) < FirstIndex(es, keyOf, FirstKeys(es, keyOf)[k])
  {
    if es != [] {
      FirstKeysInOrder(es[..|es| - 1], keyOf);
    }
  }

  // Exactly the last item of every key is kept, each once, in the order in which the keys first
  // appear.
  ghost predicate KeepsLast<T(!new)>(es: seq<T>, keyOf: T -> string, out: seq<T>) {
    && (forall i :: 0 <= i < |out| ==> exists j :: LastWithKey(es, keyOf, j) && out[i] == es[j])
    && (forall j :: LastWithKey(es, keyOf, j) ==> es[j] in out)
    && (forall i, k :: 0 <= i < k < |out| ==>
          FirstIndex(es, keyOf, keyOf(out[i])) < FirstIndex(es, keyOf, keyOf(out[k])) < |es|)
  }

  lemma LatestPerKeyKeepsLast<T(!new)>(es: seq<T>, keyOf: T -> string)
    ensures KeepsLast(es, keyOf, LatestPerKey(es, keyOf))
  {
    var out, keys := LatestPerKey(es, keyOf), FirstKeys(es, keyOf);
    FirstKeysInOrder(es, keyOf);
    forall i | 0 <= i < |out|
      ensures keyOf(out[i]) == keys[i] && exists j :: LastWithKey(es, keyOf, j) && out[i] == es[j]
    {
      var j := LatestIsLast(es, keyOf, keys[i]);
    }
    forall j | LastWithKey(es, keyOf, j) ensures es[j] in out {
      KeysAreThoseFiled(es, keyOf, j);
      var i :| 0 <= i < |keys| && keys[i] == keyOf(es[j]);
      var last := LatestIsLast(es, keyOf, keys[i]);
      assert out[i] == es[last];
    }
  }

  predicate DistinctKeys<T>(es: seq<T>, keyOf: T -> string) {
    forall i, j :: 0 <= i < j < |es| ==> keyOf(es[i]) != keyOf(es[j])
  }

  lemma {:induction false} KeysOfDistinct<T>(es: seq<T>, keyOf: T -> string)
    ensures |FirstKeys(es, keyOf)| <= |es|
    ensures |FirstKeys(es, keyOf)| == |es| <==> DistinctKeys(es, keyOf)
    ensures DistinctKeys(es, keyOf) ==> forall i :: 0 <= i < |es| ==> FirstKeys(es, keyOf)[i] == keyOf(es[i])
  {
    if es != [] {
      var front, key := es[..|es| - 1], keyOf(es[|es| - 1]);
      KeysOfDistinct(front, keyOf);
      if key in FirstKeys(front, keyOf) {
        var j := LatestIsLast(front, keyOf, key);
        assert keyOf(es[j]) == key;
      } else {
        forall j | 0 <= j < |front| ensures keyOf(es[j]) != key {
          KeysAreThoseFiled(front, keyOf, j);
        }
        assert DistinctKeys(front, keyOf) <==> DistinctKeys(es, keyOf);
      }
    }
  }

  // Nothing is dropped exactly when no two items share a key.
  lemma DistinctAreLatest<T>(es: seq<T>, keyOf: T -> string)
    ensures |LatestPerKey(es, keyOf)| <= |es|
    ensures |LatestPerKey(es, keyOf)| == |es| <==> DistinctKeys(es, keyOf)
    ensures DistinctKeys(es, keyOf) ==> LatestPerKey(es, keyOf) == es
  {
    KeysOfDistinct(es, keyOf);
    if DistinctKeys(es, keyOf) {
      forall i | 0 <= i < |es| ensures LatestPerKey(es, keyOf)[i] == es[i] {
        var j := LatestIsLast(es, keyOf, FirstKeys(es, keyOf)[i]);
        assert keyOf(es[j]) == keyOf(es[i]);
      }
    }
  }

}

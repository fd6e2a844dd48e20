// Go's string order and sort.Strings.
module Ordering {

  // Strict lexicographic order; on valid UTF-8 byte order and code point order are the same.
  predicate Below(a: string, b: string) {
    b != [] && (a == [] || a[0] < b[0] || (a[0] == b[0] && Below(a[1..], b[1..])))
  }

  lemma {:induction false} BelowIsTotal(a: string, b: string)
    ensures a == b || Below(a, b) || Below(b, a)
    ensures !(Below(a, b) && Below(b, a)) && !Below(a, a)
  {
    if a != [] && b != [] {
      BelowIsTotal(a[1..], b[1..]);
      assert a == [a[0]] + a[1..] && b == [b[0]] + b[1..];
    }
    if a != [] {
      BelowIsTotal(a[1..], a[1..]);
    }
  }

  lemma {:induction false} BelowIsTransitive(a: string, b: string, c: string)
    requires Below(a, b) && Below(b, c)
    ensures Below(a, c)
  {
    if a != [] && a[0] == b[0] == c[0] {
      BelowIsTransitive(a[1..], b[1..], c[1..]);
    }
  }

  predicate Sorted(s: seq<string>) {
    forall i, j :: 0 <= i < j < |s| ==> !Below(s[j], s[i])
  }

  predicate StrictlySorted(s: seq<string>) {
    forall i, j :: 0 <= i < j < |s| ==> Below(s[i], s[j])
  }

  function Insert(x: string, s: seq<string>): seq<string> {
    if s == [] || !Below(s[0], x) then [x] + s else [s[0]] + Insert(x, s[1..])
  }

  // sort.Strings
  function Sort(s: seq<string>): seq<string> {
    if s == [] then [] else Insert(s[0], Sort(s[1..]))
  }

  lemma NoneBelow(x: string, s: seq<string>)
    requires Sorted(s) && s != [] && !Below(s[0], x)
    ensures forall j :: 0 <= j < |s| ==> !Below(s[j], x)
  {
    forall j | 0 <= j < |s| ensures !Below(s[j], x) {
      BelowIsTotal(s[j], s[0]);
      BelowIsTotal(x, s[0]);
      if Below(s[j], x) && x != s[0] {
        BelowIsTransitive(s[j], x, s[0]);
      }
    }
  }

  lemma {:induction false} InsertPermutes(x: string, s: seq<string>)
    ensures multiset(Insert(x, s)) == multiset(s) + multiset{x}
    ensures forall y :: y in Insert(x, s) <==> y == x || y in s
  {
    if s != [] && Below(s[0], x) {
      InsertPermutes(x, s[1..]);
      assert s == [s[0]] + s[1..];
    }
  }

  lemma {:induction false} InsertSorts(x: string, s: seq<string>)
    requires Sorted(s)
    ensures Sorted(Insert(x, s))
    decreases |s|
  {
    if s != [] && Below(s[0], x) {
      var rest := Insert(x, s[1..]);
      InsertSorts(x, s[1..]);
      InsertPermutes(x, s[1..]);
      BelowIsTotal(s[0], x);
      forall j | 0 <= j < |rest| ensures !Below(rest[j], s[0]) {
        assert rest[j] in rest;
      }
    } else if s != [] {
      NoneBelow(x, s);
    }
  }

  // Sorting yields a sorted permutation.
  lemma {:induction false} SortSorts(s: seq<string>)
    ensures Sorted(Sort(s)) && multiset(Sort(s)) == multiset(s)
  {
    if s != [] {
      SortSorts(s[1..]);
      InsertSorts(s[0], Sort(s[1..]));
      InsertPermutes(s[0], Sort(s[1..]));
      assert s == [s[0]] + s[1..];
    }
  }

  lemma {:induction false} SortedStays(s: seq<string>)
    requires Sorted(s)
    ensures Sort(s) == s
  {
    if s != [] {
      SortedStays(s[1..]);
    }
  }

  lemma StrictIsSorted(s: seq<string>)
    requires StrictlySorted(s)
    ensures Sorted(s)
  {
    forall i, j | 0 <= i < j < |s| ensures !Below(s[j], s[i]) {
      BelowIsTotal(s[i], s[j]);
    }
  }

  predicate NoDuplicates(s: seq<string>) {
    forall i, j :: 0 <= i < j < |s| ==> s[i] != s[j]
  }

  lemma StrictMeansNoDuplicates(s: seq<string>)
    ensures StrictlySorted(s) <==> Sorted(s) && NoDuplicates(s)
  {
    if StrictlySorted(s) {
      StrictIsSorted(s);
      forall i, j | 0 <= i < j < |s| ensures s[i] != s[j] {
        BelowIsTotal(s[i], s[j]);
      }
    } else {
      var i, j :| 0 <= i < j < |s| && !Below(s[i], s[j]);
      BelowIsTotal(s[i], s[j]);
    }
  }

  lemma HeadsMeet(a: seq<string>, b: seq<string>)
    requires StrictlySorted(a) && StrictlySorted(b) && a != [] && b != []
    requires a[0] in b && b[0] in a
    ensures a[0] == b[0]
  {
    BelowIsTotal(a[0], b[0]);
  }

  lemma TailHolds(a: seq<string>, x: string)
    requires StrictlySorted(a) && a != []
    ensures x in a[1..] <==> x in a && x != a[0]
  {
    BelowIsTotal(a[0], x);
    assert a == [a[0]] + a[1..];
  }

  // A set of strings has only one strictly sorted listing.
  lemma {:induction false} OneListing(a: seq<string>, b: seq<string>)
    requires StrictlySorted(a) && StrictlySorted(b)
    requires forall x :: x in a <==> x in b
    ensures a == b
  {
    assert b != [] ==> b[0] in a;
    assert a != [] ==> a[0] in b;
    if a != [] {
      HeadsMeet(a, b);
      forall x ensures x in a[1..] <==> x in b[1..] {
        TailHolds(a, x);
        TailHolds(b, x);
      }
      OneListing(a[1..], b[1..]);
      assert a == [a[0]] + a[1..] && b == [b[0]] + b[1..];
    }
  }
}

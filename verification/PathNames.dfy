// Lexical path processing as Go's path and path/filepath packages define it on Unix:
// Clean, IsAbs and Rel (for absolute arguments, the only ones the scheduler passes).
module PathNames {
  import opened Text

  // One name of a cleaned path.
  predicate IsName(part: string) {
    part != "" && part != "." && '/' !in part
  }

  predicate AreNames(parts: seq<string>) {
    forall x :: x in parts ==> IsName(x) && x != ".."
  }

  function PushPart(rooted: bool, acc: seq<string>, part: string): seq<string> {
    if part == "" || part == "." then acc
    else if part != ".." then acc + [part]
    else if acc != [] && acc[|acc| - 1] != ".." then acc[..|acc| - 1]
    else if rooted then acc
    else acc + [part]
  }

  function Resolve(rooted: bool, acc: seq<string>, parts: seq<string>): seq<string>
    decreases |parts|
  {
    if parts == [] then acc else Resolve(rooted, PushPart(rooted, acc, parts[0]), parts[1..])
  }

  predicate IsAbs(p: string) {
    p != "" && p[0] == '/'
  }

  // The names of the cleaned path, outermost first.
  function Components(p: string): seq<string> {
    Resolve(IsAbs(p), [], Split(p, '/'))
  }

  function Rooted(parts: seq<string>): string {
    "/" + Join(parts, '/')
  }

  function Clean(p: string): string {
    var parts := Components(p);
    if IsAbs(p) then Rooted(parts)
    else if parts == [] then "."
    else Join(parts, '/')
  }

  function Climb(n: nat): seq<string> {
    seq(n, _ => "..")
  }

  function CommonPrefix(a: seq<string>, b: seq<string>): (k: nat)
    ensures k <= |a| && k <= |b| && a[..k] == b[..k]
    ensures k < |a| && k < |b| ==> a[k] != b[k]
    ensures k == |a| <==> a <= b
  {
    if a == [] || b == [] || a[0] != b[0] then 0
    else
      var k := CommonPrefix(a[1..], b[1..]);
      assert a == [a[0]] + a[1..] && b == [b[0]] + b[1..];
      1 + k
  }

  // filepath.Rel for two absolute paths: climb out of what base has left after the common
  // prefix, then descend into what targ has left.
  function Rel(base: string, targ: string): string
    requires IsAbs(base) && IsAbs(targ)
  {
    if Clean(base) == Clean(targ) then "."
    else
      var b, t := Components(base), Components(targ);
      var k := CommonPrefix(b, t);
      Join(Climb(|b| - k) + t[k..], '/')
  }

  // Cleaned name lists: parent steps only at the front, and none in a rooted list.
  predicate IsResolved(rooted: bool, parts: seq<string>) {
    && (forall x :: x in parts ==> IsName(x))
    && (forall j :: 0 <= j < |parts| && parts[j] == ".." ==> !rooted && forall i :: 0 <= i < j ==> parts[i] == "..")
  }

  lemma PushResolves(rooted: bool, acc: seq<string>, part: string)
    requires IsResolved(rooted, acc) && '/' !in part
    ensures IsResolved(rooted, PushPart(rooted, acc, part))
  {
  }

  lemma {:induction false} ResolveResolves(rooted: bool, acc: seq<string>, parts: seq<string>)
    requires IsResolved(rooted, acc) && forall x :: x in parts ==> '/' !in x
    ensures IsResolved(rooted, Resolve(rooted, acc, parts))
    decreases |parts|
  {
    if parts != [] {
      assert parts[0] in parts;
      PushResolves(rooted, acc, parts[0]);
      ResolveResolves(rooted, PushPart(rooted, acc, parts[0]), parts[1..]);
    }
  }

  lemma {:induction false} ResolvedStays(rooted: bool, acc: seq<string>, parts: seq<string>)
    requires IsResolved(rooted, acc + parts)
    ensures Resolve(rooted, acc, parts) == acc + parts
    decreases |parts|
  {
    if parts != [] {
      var all, n := acc + parts, |acc|;
      assert all[n] == parts[0] && IsName(all[n]);
      assert parts[0] == ".." && n > 0 ==> all[n - 1] == "..";
      assert acc + [parts[0]] + parts[1..] == all;
      ResolvedStays(rooted, acc + [parts[0]], parts[1..]);
    } else {
      assert acc + parts == acc;
    }
  }

  // Cleaning leaves genuine names, with parent steps only at the front of a relative path.
  lemma ComponentsAreResolved(p: string)
    ensures IsResolved(IsAbs(p), Components(p))
  {
    JoinSplit(p, '/');
    ResolveResolves(IsAbs(p), [], Split(p, '/'));
  }

  lemma ComponentsAreNames(p: string)
    requires IsAbs(p)
    ensures AreNames(Components(p))
  {
    ComponentsAreResolved(p);
  }

  lemma ComponentsOfRooted(parts: seq<string>)
    requires IsResolved(true, parts)
    ensures Components(Rooted(parts)) == parts
  {
    var text := Rooted(parts);
    SplitAt("", '/', Join(parts, '/'));
    assert text == "" + ['/'] + Join(parts, '/');
    if parts == [] {
      assert Split(text, '/') == ["", ""];
      assert Resolve(true, [], ["", ""]) == Resolve(true, [], [""]) == Resolve(true, [], []);
    } else {
      SplitJoin(parts, '/');
      assert Split(text, '/') == [""] + parts && ([""] + parts)[1..] == parts;
      assert [] + parts == parts;
      ResolvedStays(true, [], parts);
      assert Resolve(true, [], [""] + parts) == Resolve(true, [], parts);
    }
  }

  lemma JoinOfNames(parts: seq<string>)
    requires parts != [] && forall x :: x in parts ==> IsName(x)
    ensures Join(parts, '/') != "" && !IsAbs(Join(parts, '/')) && Join(parts, '/')[0] == parts[0][0]
  {
    assert IsName(parts[0]) && parts[0][0] in parts[0];
  }

  lemma ComponentsOfRelative(parts: seq<string>)
    requires IsResolved(false, parts) && parts != []
    ensures Components(Join(parts, '/')) == parts
  {
    JoinOfNames(parts);
    SplitJoin(parts, '/');
    assert [] + parts == parts;
    ResolvedStays(false, [], parts);
  }

  // Cleaning loses nothing that a second cleaning could find: the same names, rooted or not.
  lemma CleanIsIdempotent(p: string)
    ensures IsAbs(Clean(p)) == IsAbs(p)
    ensures Components(Clean(p)) == Components(p)
    ensures Clean(Clean(p)) == Clean(p)
  {
    var parts := Components(p);
    ComponentsAreResolved(p);
    if IsAbs(p) {
      ComponentsOfRooted(parts);
    } else if parts != [] {
      JoinOfNames(parts);
      ComponentsOfRelative(parts);
    } else {
      SplitSeparatorFree(".", '/');
      assert Resolve(false, [], ["."]) == Resolve(false, [], []) == [];
    }
  }

  lemma {:induction false} ResolveConcat(rooted: bool, acc: seq<string>, a: seq<string>, b: seq<string>)
    ensures Resolve(rooted, acc, a + b) == Resolve(rooted, Resolve(rooted, acc, a), b)
    decreases |a|
  {
    if a == [] {
      assert a + b == b;
    } else {
      assert (a + b)[0] == a[0] && (a + b)[1..] == a[1..] + b;
      ResolveConcat(rooted, PushPart(rooted, acc, a[0]), a[1..], b);
    }
  }

  // One more step: a name descends, nothing and "." stay, and ".." climbs, where a rooted path
  // stays at its root and a relative one goes on above its start.
  lemma ComponentsOfChild(p: string, step: string)
    requires p != "" && '/' !in step
    ensures var names := Components(p);
      Components(p + "/" + step) ==
        if step == "" || step == "." then names
        else if step != ".." then names + [step]
        else if names == [] || names[|names| - 1] == ".." then if IsAbs(p) then names else names + [".."]
        else names[..|names| - 1]
  {
    var child := p + "/" + step;
    assert child == p + ['/'] + step && IsAbs(child) == IsAbs(p);
    SplitConcat(p, '/', step);
    SplitSeparatorFree(step, '/');
    ResolveConcat(IsAbs(p), [], Split(p, '/'), [step]);
    var names := Components(p);
    ComponentsAreResolved(p);
    assert Resolve(IsAbs(p), names, [step]) == Resolve(IsAbs(p), PushPart(IsAbs(p), names, step), [][..])
        == PushPart(IsAbs(p), names, step);
    if IsAbs(p) && names != [] {
      assert names[|names| - 1] in names && names[|names| - 1] != "..";
    }
  }

  // ---- What cleaning does to lengths and characters ----------------------------------------

  // The length of the parts with one separator each.
  function Weight(parts: seq<string>): nat {
    if parts == [] then 0 else |parts[0]| + 1 + Weight(parts[1..])
  }

  lemma {:induction false} WeightSnoc(parts: seq<string>, last: string)
    ensures Weight(parts + [last]) == Weight(parts) + |last| + 1
  {
    if parts == [] {
      assert parts + [last] == [last];
    } else {
      assert (parts + [last])[1..] == parts[1..] + [last];
      WeightSnoc(parts[1..], last);
    }
  }

  lemma PushWeighs(rooted: bool, acc: seq<string>, part: string)
    ensures Weight(PushPart(rooted, acc, part)) <= Weight(acc) + |part| + 1
  {
    WeightSnoc(acc, part);
    if acc != [] {
      WeightSnoc(acc[..|acc| - 1], acc[|acc| - 1]);
      assert acc[..|acc| - 1] + [acc[|acc| - 1]] == acc;
    }
  }

  lemma {:induction false} ResolveWeighs(rooted: bool, acc: seq<string>, parts: seq<string>)
    ensures Weight(Resolve(rooted, acc, parts)) <= Weight(acc) + Weight(parts)
    decreases |parts|
  {
    if parts != [] {
      PushWeighs(rooted, acc, parts[0]);
      ResolveWeighs(rooted, PushPart(rooted, acc, parts[0]), parts[1..]);
    }
  }

  lemma {:induction false} JoinWeighs(parts: seq<string>)
    requires parts != []
    ensures |Join(parts, '/')| + 1 == Weight(parts)
  {
    if |parts| > 1 {
      JoinWeighs(parts[1..]);
    }
  }

  // Cleaning never lengthens a path.
  lemma CleanShortens(p: string)
    requires p != ""
    ensures |Clean(p)| <= |p|
  {
    var parts := Components(p);
    JoinSplit(p, '/');
    JoinWeighs(Split(p, '/'));
    ResolveWeighs(IsAbs(p), [], Split(p, '/'));
    if parts != [] {
      JoinWeighs(parts);
    }
    if IsAbs(p) {
      assert Split(p, '/') == [""] + Split(p[1..], '/');
      ResolveWeighs(true, [], Split(p[1..], '/'));
      JoinSplit(p[1..], '/');
      JoinWeighs(Split(p[1..], '/'));
    }
  }

  predicate Lacks(parts: seq<string>, c: char) {
    forall x :: x in parts ==> c !in x
  }

  lemma {:induction false} SplitLacks(s: string, sep: char, c: char)
    requires c !in s
    ensures Lacks(Split(s, sep), c)
  {
    if s != [] {
      SplitLacks(s[1..], sep, c);
    }
  }

  lemma {:induction false} ResolveLacks(rooted: bool, acc: seq<string>, parts: seq<string>, c: char)
    requires Lacks(acc, c) && Lacks(parts, c)
    ensures Lacks(Resolve(rooted, acc, parts), c)
    decreases |parts|
  {
    if parts != [] {
      assert parts[0] in parts;
      ResolveLacks(rooted, PushPart(rooted, acc, parts[0]), parts[1..], c);
    }
  }

  lemma {:induction false} JoinLacks(parts: seq<string>, sep: char, c: char)
    requires Lacks(parts, c) && c != sep
    ensures c !in Join(parts, sep)
  {
    if parts != [] {
      assert parts[0] in parts;
      if |parts| > 1 {
        JoinLacks(parts[1..], sep, c);
      }
    }
  }

  lemma CleanLacks(p: string, c: char)
    requires c !in p && c != '/' && c != '.'
    ensures c !in Clean(p)
  {
    SplitLacks(p, '/', c);
    ResolveLacks(IsAbs(p), [], Split(p, '/'), c);
    JoinLacks(Components(p), '/', c);
  }

  lemma EqualCleanMeansEqualComponents(p: string, q: string)
    requires IsAbs(p) && IsAbs(q)
    ensures Clean(p) == Clean(q) <==> Components(p) == Components(q)
  {
    CleanIsIdempotent(p);
    CleanIsIdempotent(q);
  }

  // What the two string tests on Rel's result decide.
  lemma {:induction false} ParentTest(parts: seq<string>)
    requires parts != []
    requires forall x :: x in parts ==> IsName(x)
    ensures Join(parts, '/') != "."
    ensures (Join(parts, '/') == ".." || "../" <= Join(parts, '/')) <==> parts[0] == ".."
  {
    var head, text := parts[0], Join(parts, '/');
    assert IsName(head);
    assert forall i :: 0 <= i < |head| ==> head[i] in head && head[i] != '/';
    assert "../"[2] == '/';
    if |parts| > 1 {
      assert text == head + ['/'] + Join(parts[1..], '/');
      assert text[|head|] == '/';
      assert forall i :: 0 <= i < |head| ==> text[i] == head[i] && head[i] in head;
      if "../" <= text {
        assert text[0] == '.' && text[1] == '.' && text[2] == '/';
        assert |head| == 2;
        assert head == "..";
      }
      if head == ".." {
        assert text[..3] == "../";
      }
    }
  }

  lemma ListPrefixGivesSlashPrefix(p: string, s: string)
    ensures Split(s, '/') <= Split(p, '/') ==> p == s || s + "/" <= p
  {
    var ps, ss := Split(p, '/'), Split(s, '/');
    JoinSplit(p, '/');
    JoinSplit(s, '/');
    if ss <= ps && ss != ps {
      var more := ps[|ss|..];
      assert ss + more == ps;
      JoinConcat(ss, '/', more);
    }
  }

  // Writing names with '/' between them turns "same path or below it" on strings into the
  // prefix order on name lists, for all strings.
  lemma SlashPrefixIsListPrefix(p: string, s: string)
    ensures (p == s || s + "/" <= p) <==> Split(s, '/') <= Split(p, '/')
  {
    if s + "/" <= p {
      var r := p[|s| + 1..];
      assert p == s + ['/'] + r;
      SplitConcat(s, '/', r);
    }
    ListPrefixGivesSlashPrefix(p, s);
  }
}

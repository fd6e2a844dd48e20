// Scope paths of the completion contract: normalisation, sorted path sets, scope matching and the
// delta of changed files (cmd/elnath/runtime_completion_observability.go and
// cmd/elnath/runtime_completion_diff.go).
module ScopePaths {
  import opened Ordering
  import opened PathNames
  import opened Text

  // The text handed to path.Clean: slashes turned, one leading "./" and one leading "/" dropped.
  function Stripped(p: string): string {
    TrimPrefix(TrimPrefix(ReplaceChar(TrimSpace(p), '\\', '/'), "./"), "/")
  }

  // normalizeCompletionScopePath; path.Clean is the same lexical cleaning as filepath.Clean.
  function NormalizeScopePath(p: string): string {
    if TrimSpace(p) == "" then ""
    else
      var clean := Clean(Stripped(p));
      if clean == "." then "" else clean
  }

  // ---- Canonical paths ---------------------------------------------------------------------

  predicate Canonical(p: string) {
    p != "" && NormalizeScopePath(p) == p
  }

  predicate AllCanonical(paths: seq<string>) {
    forall i :: 0 <= i < |paths| ==> Canonical(paths[i])
  }

  lemma {:induction false} TrimLeftLength(s: string)
    ensures |TrimLeft(s)| <= |s| && (|TrimLeft(s)| == |s| ==> TrimLeft(s) == s)
  {
    if s != [] && IsSpace(s[0]) {
      TrimLeftLength(s[1..]);
    }
  }

  lemma TrimSpaceLength(s: string)
    ensures |TrimSpace(s)| <= |s| && (|TrimSpace(s)| == |s| ==> TrimSpace(s) == s)
  {
    TrimLeftLength(s);
    TrimRightKeepsHead(TrimLeft(s));
  }

  // Stripping shortens, unless there was nothing to strip.
  lemma StrippedLength(p: string)
    ensures |Stripped(p)| <= |p|
    ensures |Stripped(p)| == |p| ==>
      TrimSpace(p) == p && !("./" <= Stripped(p)) && !IsAbs(Stripped(p)) && Stripped(p) == ReplaceChar(p, '\\', '/')
  {
    TrimSpaceLength(p);
  }

  lemma StrippedLacksBackslash(p: string)
    ensures '\\' !in Stripped(p)
  {
    var turned := ReplaceChar(TrimSpace(p), '\\', '/');
    assert forall i :: 0 <= i < |turned| ==> turned[i] != '\\';
  }

  // A normal form has no backslash, is not ".", and is never longer than the path.
  lemma NormalFormShape(p: string)
    ensures '\\' !in NormalizeScopePath(p) && NormalizeScopePath(p) != "."
    ensures |NormalizeScopePath(p)| <= |Stripped(p)|
  {
    StrippedLacksBackslash(p);
    if Stripped(p) != "" {
      CleanLacks(Stripped(p), '\\');
      CleanShortens(Stripped(p));
    } else {
      assert Split("", '/') == [""] && Resolve(false, [], [""]) == Resolve(false, [], []) == [];
    }
  }

  lemma ReplaceNothing(s: string, from: char, to: char)
    requires from !in s
    ensures ReplaceChar(s, from, to) == s
  {
  }

  lemma DotPrefixSplits(p: string)
    ensures "./" <= p ==> Split(p, '/')[0] == "."
  {
    if "./" <= p {
      assert p == "." + ['/'] + p[2..];
      SplitAt(".", '/', p[2..]);
    }
  }

  // The prefix "./" never survives cleaning.
  lemma CleanDropsDot(p: string)
    requires !IsAbs(p) && Clean(p) == p && p != "."
    ensures !("./" <= p) && p != ""
  {
    var parts := Components(p);
    ComponentsAreResolved(p);
    JoinOfNames(parts);
    SplitJoin(parts, '/');
    DotPrefixSplits(p);
    assert IsName(parts[0]);
  }

  // The fixed points of normalisation, exactly: cleaned relative paths without backslash or outer
  // blanks.
  lemma CanonicalExactly(p: string)
    ensures Canonical(p) <==> p != "." && p != "" && Trimmed(p) && '\\' !in p && !IsAbs(p) && Clean(p) == p
  {
    TrimSpaceTrims(p);
    NormalFormShape(p);
    StrippedLength(p);
    if Canonical(p) {
      ReplaceNothing(p, '\\', '/');
    }
    if p != "." && p != "" && Trimmed(p) && '\\' !in p && !IsAbs(p) && Clean(p) == p {
      ReplaceNothing(p, '\\', '/');
      CleanDropsDot(p);
    }
  }

  // ---- When normalising twice changes nothing ----------------------------------------------

  predicate StartsBlank(s: string) {
    s != "" && IsSpace(s[0])
  }

  predicate EndsBlank(s: string) {
    s != "" && IsSpace(s[|s| - 1])
  }

  predicate Unpadded(parts: seq<string>) {
    parts == [] || (!StartsBlank(parts[0]) && !EndsBlank(parts[|parts| - 1]))
  }

  // What a caller can check beforehand: the stripped path is relative, and its cleaned names
  // neither begin nor end with a blank.
  predicate SettlesAtOnce(p: string) {
    TrimSpace(p) == "" || (!IsAbs(Stripped(p)) && Unpadded(Components(Stripped(p))))
  }

  predicate AllSettle(paths: seq<string>) {
    forall i :: 0 <= i < |paths| ==> SettlesAtOnce(paths[i])
  }

  lemma {:induction false} JoinEnds(parts: seq<string>)
    requires parts != [] && forall x :: x in parts ==> IsName(x)
    ensures EndsBlank(Join(parts, '/')) <==> EndsBlank(parts[|parts| - 1])
  {
    assert IsName(parts[0]);
    if |parts| > 1 {
      JoinOfNames(parts[1..]);
      JoinEnds(parts[1..]);
    }
  }

  lemma JoinIsTrimmed(parts: seq<string>)
    requires parts != [] && forall x :: x in parts ==> IsName(x)
    ensures Trimmed(Join(parts, '/')) <==> Unpadded(parts)
  {
    JoinOfNames(parts);
    JoinEnds(parts);
    assert IsName(parts[0]) && IsName(parts[|parts| - 1]);
  }

  lemma CleanIsDot(p: string)
    ensures Clean(p) == "." <==> !IsAbs(p) && Components(p) == []
  {
    ComponentsAreResolved(p);
    if !IsAbs(p) && Components(p) != [] {
      ParentTest(Components(p));
    }
  }

  // Normalisation is idempotent on exactly these paths.
  lemma IdempotentExactly(p: string)
    ensures NormalizeScopePath(NormalizeScopePath(p)) == NormalizeScopePath(p) <==> SettlesAtOnce(p)
  {
    var t, q := Stripped(p), NormalizeScopePath(p);
    TrimSpaceTrims("");
    if TrimSpace(p) != "" {
      CleanIsDot(t);
      if Clean(t) != "." {
        ComponentsAreResolved(t);
        CleanIsIdempotent(t);
        NormalFormShape(p);
        CanonicalExactly(q);
        if !IsAbs(t) {
          JoinIsTrimmed(Components(t));
          JoinOfNames(Components(t));
        }
      }
    }
  }

  lemma CleanName(name: string)
    requires IsName(name) && name != ".."
    ensures Clean(name) == name && Clean("/" + name) == "/" + name
  {
    assert Join([name], '/') == name;
    ComponentsOfRelative([name]);
    ComponentsOfRooted([name]);
    JoinOfNames([name]);
  }

  lemma SlashStrips(rest: string)
    requires rest != "" && !IsSpace(rest[|rest| - 1]) && '\\' !in rest
    ensures Stripped("/" + rest) == rest && TrimSpace("/" + rest) != ""
  {
    var p := "/" + rest;
    assert p[0] == '/' && p[|p| - 1] == rest[|rest| - 1] && p[1..] == rest;
    TrimSpaceTrims(p);
    ReplaceNothing(p, '\\', '/');
  }

  lemma BlankStrips(name: string)
    requires name != "" && Trimmed(name) && '\\' !in name && name[0] != '.' && name[0] != '/'
    ensures Stripped(" " + name) == name && TrimSpace(" " + name) == name && Stripped(name) == name
  {
    assert (" " + name)[0] == ' ' && (" " + name)[1..] == name;
    assert TrimLeft(" " + name) == TrimLeft(name);
    TrimSpaceTrims(name);
    ReplaceNothing(name, '\\', '/');
  }

  lemma {:induction false} TurnKeepsTrimLeft(s: string)
    ensures TrimLeft(ReplaceChar(s, '\\', '/')) == ReplaceChar(TrimLeft(s), '\\', '/')
  {
    if s != [] {
      assert ReplaceChar(s, '\\', '/')[1..] == ReplaceChar(s[1..], '\\', '/');
      TurnKeepsTrimLeft(s[1..]);
    }
  }

  lemma {:induction false} TurnKeepsTrimRight(s: string)
    ensures TrimRight(ReplaceChar(s, '\\', '/')) == ReplaceChar(TrimRight(s), '\\', '/')
  {
    if s != [] {
      var n := |s| - 1;
      assert ReplaceChar(s, '\\', '/')[..n] == ReplaceChar(s[..n], '\\', '/');
      TurnKeepsTrimRight(s[..n]);
    }
  }

  // Either kind of slash will do, and blanks around a path do not matter.
  lemma SlashesAreAlike(p: string)
    ensures NormalizeScopePath(ReplaceChar(p, '\\', '/')) == NormalizeScopePath(p)
    ensures NormalizeScopePath(TrimSpace(p)) == NormalizeScopePath(p)
  {
    TrimSpaceTrims(p);
    TrimSpaceTrims(TrimSpace(p));
    TurnKeepsTrimLeft(p);
    TurnKeepsTrimRight(TrimLeft(p));
    var turned := ReplaceChar(TrimSpace(p), '\\', '/');
    assert TrimSpace(ReplaceChar(p, '\\', '/')) == turned;
    assert '\\' !in turned;
    ReplaceNothing(turned, '\\', '/');
  }

  lemma DotStrips(q: string)
    requires q != "" && !IsSpace(q[|q| - 1]) && '\\' !in q && !IsAbs(q)
    ensures Stripped("./" + q) == q && TrimSpace("./" + q) != ""
  {
    var p := "./" + q;
    assert p[0] == '.' && p[|p| - 1] == q[|q| - 1] && p[2..] == q;
    TrimSpaceTrims(p);
    ReplaceNothing(p, '\\', '/');
  }

  // A relative path stands for its cleaned names, with or without a leading "/" or "./".
  lemma RelativeIsCleaned(q: string)
    requires q != "" && Trimmed(q) && '\\' !in q && !IsAbs(q) && !("./" <= q)
    ensures var clean := if Clean(q) == "." then "" else Clean(q);
      NormalizeScopePath(q) == clean && NormalizeScopePath("/" + q) == clean && NormalizeScopePath("./" + q) == clean
  {
    TrimSpaceTrims(q);
    ReplaceNothing(q, '\\', '/');
    SlashStrips(q);
    DotStrips(q);
  }

  // Two ways to miss it: a second leading slash is stripped only the second time ...
  lemma DoubleSlashDoesNotSettle()
    ensures NormalizeScopePath("/" + ("/" + "a")) == "/" + "a" && NormalizeScopePath("/" + "a") == "a"
  {
    CleanName("a");
    SlashStrips("/" + "a");
    SlashStrips("a");
  }

  // ... and so is a blank that the first slash hid.
  lemma HiddenBlankDoesNotSettle()
    ensures NormalizeScopePath("/" + (" " + "a")) == " " + "a" && NormalizeScopePath(" " + "a") == "a"
  {
    var padded := " " + "a";
    assert |padded| == 2 && padded[0] == ' ' && padded[1] == 'a';
    CleanName(padded);
    CleanName("a");
    SlashStrips(padded);
    BlankStrips("a");
  }

  // ---- Sorted path sets --------------------------------------------------------------------

  function NonEmptyImages(paths: seq<string>, f: string -> string): set<string> {
    if paths == [] then {}
    else
      var last := f(paths[|paths| - 1]);
      NonEmptyImages(paths[..|paths| - 1], f) + if last == "" then {} else {last}
  }

  // The non-empty normal forms of a list of paths.
  function NormalSet(paths: seq<string>): set<string> {
    NonEmptyImages(paths, NormalizeScopePath)
  }

  lemma {:induction false} ImagesAre(paths: seq<string>, f: string -> string, y: string)
    ensures y in NonEmptyImages(paths, f) <==> y != "" && exists i :: 0 <= i < |paths| && f(paths[i]) == y
  {
    if paths != [] {
      var front := paths[..|paths| - 1];
      ImagesAre(front, f, y);
      assert forall i :: 0 <= i < |front| ==> paths[i] == front[i];
    }
  }

  // A normal form is listed exactly when some path has it and it is not empty.
  lemma NormalSetIs(paths: seq<string>, y: string)
    ensures y in NormalSet(paths) <==> y != "" && exists p :: p in paths && NormalizeScopePath(p) == y
  {
    ImagesAre(paths, NormalizeScopePath, y);
  }

  function AddPath(x: string, s: seq<string>): seq<string> {
    if x == "" || x in s then s else Insert(x, s)
  }

  // The strictly sorted listing of NormalSet(paths).
  function NormalizeScopePaths(paths: seq<string>): seq<string> {
    if paths == [] then []
    else AddPath(NormalizeScopePath(paths[|paths| - 1]), NormalizeScopePaths(paths[..|paths| - 1]))
  }

  lemma HeadIsUnique(s: seq<string>)
    requires s != [] && NoDuplicates(s)
    ensures s[0] !in s[1..] && NoDuplicates(s[1..])
  {
  }

  lemma ConsKeepsDistinct(x: string, s: seq<string>)
    requires NoDuplicates(s) && x !in s
    ensures NoDuplicates([x] + s)
  {
    assert forall j :: 0 <= j < |s| ==> s[j] in s;
  }

  lemma {:induction false} InsertKeepsDistinct(x: string, s: seq<string>)
    requires NoDuplicates(s) && x !in s
    ensures NoDuplicates(Insert(x, s))
  {
    if s != [] && Below(s[0], x) {
      HeadIsUnique(s);
      InsertKeepsDistinct(x, s[1..]);
      InsertPermutes(x, s[1..]);
      ConsKeepsDistinct(s[0], Insert(x, s[1..]));
    } else {
      ConsKeepsDistinct(x, s);
    }
  }

  lemma InsertStrict(x: string, s: seq<string>)
    requires StrictlySorted(s) && x !in s
    ensures StrictlySorted(Insert(x, s))
    ensures forall y :: y in Insert(x, s) <==> y == x || y in s
  {
    StrictMeansNoDuplicates(s);
    InsertSorts(x, s);
    InsertPermutes(x, s);
    InsertKeepsDistinct(x, s);
    StrictMeansNoDuplicates(Insert(x, s));
  }

  lemma AddSorts(x: string, s: seq<string>)
    requires StrictlySorted(s)
    ensures StrictlySorted(AddPath(x, s))
    ensures forall y :: y in AddPath(x, s) <==> y in s || (y == x && x != "")
  {
    if x != "" && x !in s {
      InsertStrict(x, s);
    }
  }

  // Always sorted, without duplicates, and exactly the non-empty normal forms.
  lemma {:induction false} NormalizedListing(paths: seq<string>)
    ensures StrictlySorted(NormalizeScopePaths(paths))
    ensures forall y :: y in NormalizeScopePaths(paths) <==> y in NormalSet(paths)
  {
    if paths != [] {
      var front, last := paths[..|paths| - 1], NormalizeScopePath(paths[|paths| - 1]);
      NormalizedListing(front);
      AddSorts(last, NormalizeScopePaths(front));
    }
  }

  lemma {:induction false} SortKeepsDistinct(s: seq<string>)
    requires NoDuplicates(s)
    ensures NoDuplicates(Sort(s))
    ensures forall y :: y in Sort(s) <==> y in s
  {
    if s != [] {
      SortKeepsDistinct(s[1..]);
      assert s[0] !in s[1..];
      InsertKeepsDistinct(s[0], Sort(s[1..]));
      InsertPermutes(s[0], Sort(s[1..]));
      assert s == [s[0]] + s[1..];
    }
  }

  // Whatever order a map is walked in, sorting its keys gives the one listing.
  method ListSorted(seen: set<string>) returns (out: seq<string>)
    ensures StrictlySorted(out) && forall y :: y in out <==> y in seen
  {
    var rest := seen;
    var keys: seq<string> := [];
    while rest != {}
      invariant NoDuplicates(keys)
      invariant forall y :: y in seen <==> y in keys || y in rest
      invariant forall y :: y in keys ==> y !in rest
      decreases |rest|
    {
      var p :| p in rest;
      rest := rest - {p};
      keys := keys + [p];
    }
    out := Sort(keys);
    SortSorts(keys);
    SortKeepsDistinct(keys);
    StrictMeansNoDuplicates(out);
    assert forall y :: y in out <==> y in multiset(out);
    assert forall y :: y in keys <==> y in multiset(keys);
  }

  // The one strictly sorted listing of a set.
  ghost function Listing(s: set<string>): (out: seq<string>)
    ensures StrictlySorted(out) && forall y :: y in out <==> y in s
  {
    if s == {} then []
    else
      var x :| x in s;
      InsertStrict(x, Listing(s - {x}));
      Insert(x, Listing(s - {x}))
  }

  method CollectNormal(paths: seq<string>) returns (seen: set<string>)
    ensures seen == NormalSet(paths)
  {
    seen := {};
    for i := 0 to |paths|
      invariant seen == NormalSet(paths[..i])
    {
      assert paths[..i + 1][..i] == paths[..i];
      var normalized := NormalizeScopePath(paths[i]);
      if normalized != "" {
        seen := seen + {normalized};
      }
    }
    assert paths[..|paths|] == paths;
  }

  lemma OnlyListing(out: seq<string>, paths: seq<string>)
    requires StrictlySorted(out) && forall y :: y in out <==> y in NormalSet(paths)
    ensures out == NormalizeScopePaths(paths)
  {
    NormalizedListing(paths);
    OneListing(out, NormalizeScopePaths(paths));
  }

  method NormalizeCompletionScopePaths(paths: seq<string>) returns (out: seq<string>)
    ensures out == NormalizeScopePaths(paths) && StrictlySorted(out)
    ensures forall y :: y in out <==> y != "" && exists p :: p in paths && NormalizeScopePath(p) == y
  {
    forall y ensures y in NormalSet(paths) <==> y != "" && exists p :: p in paths && NormalizeScopePath(p) == y {
      NormalSetIs(paths, y);
    }
    var seen := CollectNormal(paths);
    out := ListSorted(seen);
    OnlyListing(out, paths);
  }

  lemma {:induction false} ImagesOfConcat(a: seq<string>, b: seq<string>, f: string -> string)
    ensures NonEmptyImages(a + b, f) == NonEmptyImages(a, f) + NonEmptyImages(b, f)
  {
    if b == [] {
      assert a + b == a;
    } else {
      assert (a + b)[..|a + b| - 1] == a + b[..|b| - 1];
      ImagesOfConcat(a, b[..|b| - 1], f);
    }
  }

  lemma {:induction false} ImagesOfFixed(paths: seq<string>, f: string -> string)
    requires forall i :: 0 <= i < |paths| ==> f(paths[i]) == paths[i] != ""
    ensures forall y :: y in NonEmptyImages(paths, f) <==> y in paths
  {
    if paths != [] {
      ImagesOfFixed(paths[..|paths| - 1], f);
    }
  }

  // Canonical paths stand for themselves.
  lemma CanonicalSet(paths: seq<string>)
    requires AllCanonical(paths)
    ensures forall y :: y in NormalSet(paths) <==> y in paths
  {
    ImagesOfFixed(paths, NormalizeScopePath);
  }

  function MergeScopePaths(a: seq<string>, b: seq<string>): seq<string> {
    if a == [] then NormalizeScopePaths(b)
    else if b == [] then NormalizeScopePaths(a)
    else NormalizeScopePaths(a + b)
  }

  // Merging lists the union.
  lemma MergeIsUnion(a: seq<string>, b: seq<string>)
    ensures StrictlySorted(MergeScopePaths(a, b))
    ensures forall y :: y in MergeScopePaths(a, b) <==> y in NormalSet(a) || y in NormalSet(b)
  {
    NormalizedListing(a);
    NormalizedListing(b);
    NormalizedListing(a + b);
    ImagesOfConcat(a, b, NormalizeScopePath);
  }

  // ---- Scope matching ----------------------------------------------------------------------

  predicate PathMatchesScope(path: string, scope: string) {
    var p, s := NormalizeScopePath(path), NormalizeScopePath(scope);
    p != "" && s != "" && (p == s || s + "/" <= p)
  }

  // A path matches a scope exactly when the scope's names are a prefix of the path's.
  lemma MatchesByNames(path: string, scope: string)
    ensures PathMatchesScope(path, scope) <==>
      var p, s := NormalizeScopePath(path), NormalizeScopePath(scope);
      p != "" && s != "" && Split(s, '/') <= Split(p, '/')
  {
    SlashPrefixIsListPrefix(NormalizeScopePath(path), NormalizeScopePath(scope));
  }

  predicate Any(xs: seq<string>, f: string -> bool) {
    exists i :: 0 <= i < |xs| && f(xs[i])
  }

  function Matches(path: string): string -> bool {
    scope => PathMatchesScope(path, scope)
  }

  predicate MatchesSome(p: string, scopes: seq<string>) {
    Any(scopes, Matches(p))
  }

  predicate PathAllowed(p: string, allowed: seq<string>) {
    allowed == [] || MatchesSome(p, allowed)
  }

  // What drifts: a forbidden path, or one outside every allowed scope when there is any.
  predicate Drifts(p: string, allowed: seq<string>, forbidden: seq<string>) {
    MatchesSome(p, forbidden) || !PathAllowed(p, allowed)
  }

  method FindAny(xs: seq<string>, f: string -> bool) returns (found: bool)
    ensures found <==> Any(xs, f)
  {
    for i := 0 to |xs|
      invariant forall k :: 0 <= k < i ==> !f(xs[k])
    {
      if f(xs[i]) {
        return true;
      }
    }
    found := false;
  }

  function Filter(paths: seq<string>, p: string -> bool): seq<string> {
    if paths == [] then []
    else
      var last := paths[|paths| - 1];
      Filter(paths[..|paths| - 1], p) + if p(last) then [last] else []
  }

  function DriftTest(allowed: seq<string>, forbidden: seq<string>): string -> bool {
    p => Drifts(p, allowed, forbidden)
  }

  function Drifting(paths: seq<string>, allowed: seq<string>, forbidden: seq<string>): seq<string> {
    Filter(paths, DriftTest(allowed, forbidden))
  }

  function OutOfScopePaths(mutated: seq<string>, allowed: seq<string>, forbidden: seq<string>): seq<string> {
    if mutated == [] || (allowed == [] && forbidden == []) then [] else Sort(Drifting(mutated, allowed, forbidden))
  }

  lemma {:induction false} FilterMembers(paths: seq<string>, p: string -> bool)
    ensures forall y :: y in Filter(paths, p) <==> y in paths && p(y)
  {
    if paths != [] {
      FilterMembers(paths[..|paths| - 1], p);
      assert paths == paths[..|paths| - 1] + [paths[|paths| - 1]];
    }
  }

  lemma {:induction false} FilterKeepsOrder(paths: seq<string>, p: string -> bool)
    requires StrictlySorted(paths)
    ensures StrictlySorted(Filter(paths, p))
  {
    if paths != [] {
      var front := paths[..|paths| - 1];
      FilterKeepsOrder(front, p);
      FilterMembers(front, p);
      assert forall i :: 0 <= i < |Filter(front, p)| ==> Filter(front, p)[i] in front;
    }
  }

  lemma SortedFilter(paths: seq<string>, p: string -> bool)
    ensures forall y :: y in Sort(Filter(paths, p)) <==> y in paths && p(y)
    ensures Sorted(Sort(Filter(paths, p)))
    ensures StrictlySorted(paths) ==> StrictlySorted(Filter(paths, p)) && Sort(Filter(paths, p)) == Filter(paths, p)
  {
    var out := Filter(paths, p);
    FilterMembers(paths, p);
    SortSorts(out);
    assert forall y :: y in Sort(out) <==> y in multiset(Sort(out));
    assert forall y :: y in out <==> y in multiset(out);
    if StrictlySorted(paths) {
      FilterKeepsOrder(paths, p);
      StrictIsSorted(out);
      SortedStays(out);
    }
  }

  lemma {:induction false} FilterNothing(paths: seq<string>, p: string -> bool)
    requires forall y :: !p(y)
    ensures Filter(paths, p) == []
  {
    if paths != [] {
      FilterNothing(paths[..|paths| - 1], p);
    }
  }

  lemma NothingDrifts(mutated: seq<string>)
    ensures Sort(Drifting(mutated, [], [])) == []
  {
    assert forall y :: !Any([], Matches(y));
    FilterNothing(mutated, DriftTest([], []));
  }

  // The scope is one of those the path matches.
  lemma MatchesSomeScope(p: string, scopes: seq<string>)
    ensures MatchesSome(p, scopes) <==> exists scope :: scope in scopes && PathMatchesScope(p, scope)
  {
    if MatchesSome(p, scopes) {
      var i :| 0 <= i < |scopes| && Matches(p)(scopes[i]);
      assert scopes[i] in scopes && PathMatchesScope(p, scopes[i]);
    }
    forall scope | scope in scopes && PathMatchesScope(p, scope) ensures MatchesSome(p, scopes) {
      var i :| 0 <= i < |scopes| && scopes[i] == scope;
      assert Matches(p)(scopes[i]);
    }
  }

  // Out of scope are exactly the mutated paths that match a forbidden scope, or no allowed one
  // where there is any, in order.
  lemma OutOfScopeIsFilter(mutated: seq<string>, allowed: seq<string>, forbidden: seq<string>)
    ensures var out := OutOfScopePaths(mutated, allowed, forbidden);
      && (forall y :: y in out <==>
            y in mutated && ((exists scope :: scope in forbidden && PathMatchesScope(y, scope))
                             || (allowed != [] && forall scope :: scope in allowed ==> !PathMatchesScope(y, scope))))
      && (forall y :: y in out <==> y in mutated && Drifts(y, allowed, forbidden))
      && Sorted(out)
      && (StrictlySorted(mutated) ==> StrictlySorted(out) && out == Drifting(mutated, allowed, forbidden))
  {
    forall y
      ensures Drifts(y, allowed, forbidden) <==>
        ((exists scope :: scope in forbidden && PathMatchesScope(y, scope))
         || (allowed != [] && forall scope :: scope in allowed ==> !PathMatchesScope(y, scope)))
    {
      MatchesSomeScope(y, forbidden);
      MatchesSomeScope(y, allowed);
    }
    SortedFilter(mutated, DriftTest(allowed, forbidden));
    NothingDrifts(mutated);
    assert mutated == [] ==> Sort(Drifting(mutated, allowed, forbidden)) == [];
    assert OutOfScopePaths(mutated, allowed, forbidden) == Sort(Drifting(mutated, allowed, forbidden));
  }

  // Some path is out of scope exactly when some path of the set is forbidden or not allowed.
  lemma OutOfScopeExists(paths: set<string>, allowed: seq<string>, forbidden: seq<string>)
    ensures OutOfScopePaths(Listing(paths), allowed, forbidden) != [] <==>
      exists y :: y in paths && ((exists scope :: scope in forbidden && PathMatchesScope(y, scope))
                                 || (allowed != [] && forall scope :: scope in allowed ==> !PathMatchesScope(y, scope)))
  {
    var out := OutOfScopePaths(Listing(paths), allowed, forbidden);
    OutOfScopeIsFilter(Listing(paths), allowed, forbidden);
    assert forall i :: 0 <= i < |out| ==> out[i] in out;
    if out != [] {
      assert out[0] in paths;
    }
  }

  method CollectDrifting(mutated: seq<string>, allowed: seq<string>, forbidden: seq<string>)
    returns (out: seq<string>)
    ensures out == Drifting(mutated, allowed, forbidden)
  {
    ghost var drifts := DriftTest(allowed, forbidden);
    out := [];
    for i := 0 to |mutated|
      invariant out == Filter(mutated[..i], drifts)
    {
      assert mutated[..i + 1][..i] == mutated[..i];
      var isForbidden := FindAny(forbidden, Matches(mutated[i]));
      var isAllowed := FindAny(allowed, Matches(mutated[i]));
      if isForbidden || !(allowed == [] || isAllowed) {
        out := out + [mutated[i]];
      }
    }
    assert mutated[..|mutated|] == mutated;
  }

  method OutOfScopeMutatingPaths(mutated: seq<string>, allowed: seq<string>, forbidden: seq<string>)
    returns (out: seq<string>)
    ensures out == OutOfScopePaths(mutated, allowed, forbidden)
    ensures forall y :: y in out <==>
      y in mutated && ((exists scope :: scope in forbidden && PathMatchesScope(y, scope))
                       || (allowed != [] && forall scope :: scope in allowed ==> !PathMatchesScope(y, scope)))
    ensures Sorted(out) && (StrictlySorted(mutated) ==> StrictlySorted(out))
  {
    OutOfScopeIsFilter(mutated, allowed, forbidden);
    if mutated == [] || (allowed == [] && forbidden == []) {
      return [];
    }
    var drifting := CollectDrifting(mutated, allowed, forbidden);
    out := Sort(drifting);
  }

  // ---- Changed files -----------------------------------------------------------------------

  datatype Snapshot = Snapshot(available: bool, workDir: string, files: seq<string>)

  function NewFiles(files: seq<string>, seen: set<string>): seq<string> {
    if files == [] then []
    else
      var last := NormalizeScopePath(files[|files| - 1]);
      NewFiles(files[..|files| - 1], seen) + if last == "" || last in seen then [] else [last]
  }

  predicate SnapshotsMatch(before: Snapshot, after: Snapshot) {
    before.available && after.available && before.workDir == after.workDir
  }

  function ChangedFilesDelta(before: Snapshot, after: Snapshot): seq<string> {
    if SnapshotsMatch(before, after) then Sort(NewFiles(after.files, NormalSet(before.files))) else []
  }

  method CompletionChangedFilesDelta(before: Snapshot, after: Snapshot) returns (changed: seq<string>)
    ensures changed == ChangedFilesDelta(before, after)
  {
    if !before.available || !after.available || before.workDir != after.workDir {
      return [];
    }
    var seen := CollectNormal(before.files);
    changed := [];
    for i := 0 to |after.files|
      invariant changed == NewFiles(after.files[..i], seen)
    {
      assert after.files[..i + 1][..i] == after.files[..i];
      var normalized := NormalizeScopePath(after.files[i]);
      if normalized == "" {
        continue;
      }
      if normalized in seen {
        continue;
      }
      changed := changed + [normalized];
    }
    assert after.files[..|after.files|] == after.files;
    changed := Sort(changed);
  }

  lemma {:induction false} NewFilesAreNew(files: seq<string>, seen: set<string>)
    ensures forall y :: y in NewFiles(files, seen) <==> y in NormalSet(files) && y !in seen
  {
    if files != [] {
      NewFilesAreNew(files[..|files| - 1], seen);
    }
  }

  // The delta of two comparable snapshots is exactly what is there after and was not before.
  lemma DeltaIsDifference(before: Snapshot, after: Snapshot)
    ensures Sorted(ChangedFilesDelta(before, after))
    ensures forall y :: y in ChangedFilesDelta(before, after) <==>
      (before.available && after.available && before.workDir == after.workDir
       && y in NormalSet(after.files) && y !in NormalSet(before.files))
  {
    var files := NewFiles(after.files, NormalSet(before.files));
    NewFilesAreNew(after.files, NormalSet(before.files));
    SortSorts(files);
    assert forall y :: y in Sort(files) <==> y in multiset(Sort(files));
    assert forall y :: y in files <==> y in multiset(files);
  }

  // ---- Incremental scope checking ----------------------------------------------------------

  datatype Scope = Scope(mutated: seq<string>, outOfScope: seq<string>, allowed: seq<string>, forbidden: seq<string>)

  // The path fields of withCompletionRetryChangedFiles.
  function WithChangedFiles(s: Scope, changed: seq<string>): Scope {
    var files := NormalizeScopePaths(changed);
    if files == [] then s
    else
      var mutated := MergeScopePaths(s.mutated, files);
      s.(mutated := mutated,
         outOfScope := MergeScopePaths(s.outOfScope, OutOfScopePaths(mutated, s.allowed, s.forbidden)))
  }

  // The list of paths is sorted and canonical, and what is out of scope was computed from it.
  ghost predicate UpToDate(s: Scope) {
    && StrictlySorted(s.mutated) && AllCanonical(s.mutated)
    && s.outOfScope == OutOfScopePaths(s.mutated, s.allowed, s.forbidden)
  }

  lemma CanonicalSubset(a: seq<string>, b: seq<string>)
    requires AllCanonical(b) && forall y :: y in a ==> y in b
    ensures AllCanonical(a)
  {
    forall i | 0 <= i < |a| ensures Canonical(a[i]) {
      assert a[i] in b;
    }
  }

  lemma MergedFiles(mutated: seq<string>, files: seq<string>)
    requires AllCanonical(mutated) && AllCanonical(files)
    ensures StrictlySorted(MergeScopePaths(mutated, files)) && AllCanonical(MergeScopePaths(mutated, files))
    ensures forall y :: y in MergeScopePaths(mutated, files) <==> y in mutated || y in files
  {
    MergeIsUnion(mutated, files);
    CanonicalSet(mutated);
    CanonicalSet(files);
    CanonicalSubset(MergeScopePaths(mutated, files), mutated + files);
  }

  lemma MergedOutOfScope(s: Scope, mutated: seq<string>)
    requires UpToDate(s) && StrictlySorted(mutated) && AllCanonical(mutated)
    requires forall y :: y in s.mutated ==> y in mutated
    ensures var out := OutOfScopePaths(mutated, s.allowed, s.forbidden);
      MergeScopePaths(s.outOfScope, out) == out
  {
    var out := OutOfScopePaths(mutated, s.allowed, s.forbidden);
    OutOfScopeIsFilter(s.mutated, s.allowed, s.forbidden);
    OutOfScopeIsFilter(mutated, s.allowed, s.forbidden);
    CanonicalSubset(s.outOfScope, s.mutated);
    CanonicalSubset(out, mutated);
    MergedFiles(s.outOfScope, out);
    OneListing(MergeScopePaths(s.outOfScope, out), out);
  }

  // The record a recomputation gives: s with the changed files added to its mutated paths.
  ghost predicate RecomputedFrom(s: Scope, changed: seq<string>, t: Scope) {
    && UpToDate(t) && t.allowed == s.allowed && t.forbidden == s.forbidden
    && forall y :: y in t.mutated <==> y in s.mutated || y in NormalSet(changed)
  }

  lemma CanonicalFilesAreMerged(s: Scope, changed: seq<string>)
    requires UpToDate(s) && AllCanonical(NormalizeScopePaths(changed))
    ensures RecomputedFrom(s, changed, WithChangedFiles(s, changed))
  {
    var files := NormalizeScopePaths(changed);
    NormalizedListing(changed);
    assert files == [] || files[0] in files;
    if files != [] {
      var mutated := MergeScopePaths(s.mutated, files);
      MergedFiles(s.mutated, files);
      MergedOutOfScope(s, mutated);
    } else {
      assert forall y :: y !in files;
    }
  }

  lemma ListsCanonical(list: seq<string>, elements: set<string>)
    requires (forall y :: y in list ==> y in elements) && forall y :: y in elements ==> Canonical(y)
    ensures AllCanonical(list)
  {
    forall i | 0 <= i < |list| ensures Canonical(list[i]) {
      assert list[i] in list;
    }
  }

  // The normal forms of a list are canonical exactly when its paths settle at once.
  lemma SettledAreCanonical(paths: seq<string>)
    ensures AllCanonical(NormalizeScopePaths(paths)) <==> AllSettle(paths)
    ensures AllSettle(paths) ==> forall y :: y in NormalSet(paths) ==> Canonical(y)
  {
    var normal := NormalizeScopePaths(paths);
    NormalizedListing(paths);
    forall i | 0 <= i < |paths|
      ensures NormalizeScopePath(paths[i]) in NormalSet(paths) || NormalizeScopePath(paths[i]) == ""
      ensures SettlesAtOnce(paths[i]) <==> NormalizeScopePath(paths[i]) == "" || Canonical(NormalizeScopePath(paths[i]))
    {
      ImagesAre(paths, NormalizeScopePath, NormalizeScopePath(paths[i]));
      IdempotentExactly(paths[i]);
      TrimSpaceTrims("");
    }
    forall y | y in NormalSet(paths)
      ensures y != "" && exists i :: 0 <= i < |paths| && NormalizeScopePath(paths[i]) == y
    {
      ImagesAre(paths, NormalizeScopePath, y);
    }
    if AllSettle(paths) {
      ListsCanonical(normal, NormalSet(paths));
    }
  }

  // Adding changed files to an up-to-date scope record gives the record a recomputation from all
  // mutated paths would give exactly when the changed paths settle at once.
  lemma IncrementalIsRecomputed(s: Scope, changed: seq<string>)
    requires UpToDate(s)
    ensures RecomputedFrom(s, changed, WithChangedFiles(s, changed)) <==> AllSettle(changed)
  {
    SettledAreCanonical(changed);
    NormalizedListing(changed);
    var t := WithChangedFiles(s, changed);
    if AllSettle(changed) {
      CanonicalFilesAreMerged(s, changed);
    } else if RecomputedFrom(s, changed, t) {
      CanonicalSubset(NormalizeScopePaths(changed), t.mutated);
    }
  }

  // The delta of two snapshots has canonical normal forms when the later files settle at once.
  lemma DeltaIsCanonical(before: Snapshot, after: Snapshot)
    requires AllSettle(after.files)
    ensures AllCanonical(NormalizeScopePaths(ChangedFilesDelta(before, after)))
  {
    var delta := ChangedFilesDelta(before, after);
    SettledAreCanonical(after.files);
    DeltaIsDifference(before, after);
    ListsCanonical(delta, NormalSet(after.files));
    CanonicalSet(delta);
    NormalizedListing(delta);
    CanonicalSubset(NormalizeScopePaths(delta), delta);
  }
}

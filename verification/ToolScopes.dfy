// Scopes of tool calls and the scheduler's test for overlapping paths
// (internal/agent/executor.go, internal/tools/scope.go).
module ToolScopes {
  import opened PathNames

  datatype ToolScope = ToolScope(readPaths: seq<string>, writePaths: seq<string>, network: bool, persistent: bool)

  function ConservativeScope(): ToolScope {
    ToolScope([], [], true, true)
  }

  predicate IsConservativeScope(scope: ToolScope) {
    |scope.readPaths| == 0 && |scope.writePaths| == 0 && scope.network && scope.persistent
  }

  predicate HasPathPrefix(path: string, prefix: string)
    requires IsAbs(path) && IsAbs(prefix)
  {
    var rel := Rel(prefix, path);
    if rel == "." then true
    else if rel == ".." then false
    else !("../" <= rel)
  }

  predicate PathsIntersect(pathA: string, pathB: string) {
    if pathA == "" || pathB == "" then true
    else
      var a, b := Clean(pathA), Clean(pathB);
      if !IsAbs(a) || !IsAbs(b) then true
      else if a == b then true
      else HasPathPrefix(a, b) || HasPathPrefix(b, a)
  }

  predicate AnyPairIntersects(pathsA: seq<string>, pathsB: seq<string>) {
    exists a, b :: a in pathsA && b in pathsB && PathsIntersect(a, b)
  }

  predicate ScopeDisjoint(a: ToolScope, b: ToolScope) {
    if IsConservativeScope(a) || IsConservativeScope(b) then false
    else
      && !AnyPairIntersects(a.writePaths, b.writePaths)
      && !AnyPairIntersects(a.writePaths, b.readPaths)
      && !AnyPairIntersects(a.readPaths, b.writePaths)
  }

  // ---- What the string test decides --------------------------------------------------------

  lemma HasPathPrefixIsListPrefix(path: string, prefix: string)
    requires IsAbs(path) && IsAbs(prefix)
    ensures HasPathPrefix(path, prefix) <==> Components(prefix) <= Components(path)
  {
    var b, t := Components(prefix), Components(path);
    ComponentsAreNames(prefix);
    ComponentsAreNames(path);
    EqualCleanMeansEqualComponents(prefix, path);
    if b != t {
      var k := CommonPrefix(b, t);
      var parts := Climb(|b| - k) + t[k..];
      assert k == |b| ==> t[..k] == b;
      assert k == |t| ==> t[..k] == t;
      assert forall x :: x in t[k..] ==> x in t;
      assert forall x :: x in Climb(|b| - k) ==> x == ".." && IsName(x);
      ParentTest(parts);
      assert k < |b| ==> parts[0] == "..";
      assert k == |b| ==> parts[0] == t[k] && t[k] in t;
    }
  }

  // For absolute paths the test is exact: one cleaned name list is a prefix of the other.
  lemma PathsIntersectExactly(p: string, q: string)
    requires IsAbs(p) && IsAbs(q)
    ensures PathsIntersect(p, q)
       <==> Components(p) <= Components(q) || Components(q) <= Components(p)
  {
    CleanIsIdempotent(p);
    CleanIsIdempotent(q);
    EqualCleanMeansEqualComponents(p, q);
    HasPathPrefixIsListPrefix(Clean(p), Clean(q));
    HasPathPrefixIsListPrefix(Clean(q), Clean(p));
  }

  // Anything that is not an absolute path fails closed.
  lemma RelativePathsIntersectEverything(p: string, q: string)
    requires !IsAbs(p)
    ensures PathsIntersect(p, q) && PathsIntersect(q, p)
  {
    CleanIsIdempotent(p);
  }

  lemma PathsIntersectSymmetric(p: string, q: string)
    ensures PathsIntersect(p, q) == PathsIntersect(q, p)
  {
  }

  // A location is the name list of an absolute path. A relative entry of a scope covers
  // everything, because nothing is known about it.
  predicate Covers(path: string, location: seq<string>) {
    !IsAbs(path) || Components(path) <= location
  }

  lemma PrefixesAreComparable(a: seq<string>, b: seq<string>, whole: seq<string>)
    ensures a <= whole && b <= whole ==> a <= b || b <= a
  {
  }

  // A negative answer separates: no location lies under both paths.
  lemma DisjointPathsShareNoLocation(p: string, q: string, location: seq<string>)
    requires !PathsIntersect(p, q)
    ensures !(Covers(p, location) && Covers(q, location))
  {
    if !IsAbs(p) {
      RelativePathsIntersectEverything(p, q);
      assert false;
    } else if !IsAbs(q) {
      RelativePathsIntersectEverything(q, p);
      assert false;
    } else {
      PathsIntersectExactly(p, q);
      PrefixesAreComparable(Components(p), Components(q), location);
    }
  }

  predicate MayWrite(scope: ToolScope, location: seq<string>) {
    IsConservativeScope(scope) || exists p :: p in scope.writePaths && Covers(p, location)
  }

  predicate MayTouch(scope: ToolScope, location: seq<string>) {
    || MayWrite(scope, location)
    || exists p :: p in scope.readPaths && Covers(p, location)
  }

  // Disjoint scopes: what one call may write, the other may not even read.
  lemma DisjointScopesSeparate(a: ToolScope, b: ToolScope, location: seq<string>)
    requires ScopeDisjoint(a, b)
    ensures !(MayWrite(a, location) && MayTouch(b, location))
    ensures !(MayTouch(a, location) && MayWrite(b, location))
  {
    forall p, q | p in a.writePaths && q in b.writePaths + b.readPaths
      ensures !(Covers(p, location) && Covers(q, location))
    {
      DisjointPathsShareNoLocation(p, q, location);
    }
    forall p, q | p in a.readPaths && q in b.writePaths
      ensures !(Covers(p, location) && Covers(q, location))
    {
      DisjointPathsShareNoLocation(p, q, location);
    }
    if MayWrite(a, location) {
      var p :| p in a.writePaths && Covers(p, location);
      assert forall q :: q in b.writePaths ==> q in b.writePaths + b.readPaths && !Covers(q, location);
      assert forall q :: q in b.readPaths ==> q in b.writePaths + b.readPaths && !Covers(q, location);
    }
    if MayWrite(b, location) {
      var q :| q in b.writePaths && Covers(q, location);
      assert q in b.writePaths + b.readPaths;
    }
  }

  // A positive answer is never for nothing: some location lies under both paths.
  lemma PathsIntersectMeans(p: string, q: string)
    ensures PathsIntersect(p, q) <==> exists location :: Covers(p, location) && Covers(q, location)
  {
    if PathsIntersect(p, q) {
      var below := !IsAbs(p) || (IsAbs(q) && Components(p) <= Components(q));
      var location := if below then Components(q) else Components(p);
      if IsAbs(p) && IsAbs(q) {
        PathsIntersectExactly(p, q);
      }
      assert Covers(p, location) && Covers(q, location);
    } else {
      forall location ensures !(Covers(p, location) && Covers(q, location)) {
        DisjointPathsShareNoLocation(p, q, location);
      }
    }
  }

  // No location that one scope may write may be read or written under the other.
  ghost predicate Separate(a: ToolScope, b: ToolScope) {
    forall location ::
      && !(MayWrite(a, location) && MayTouch(b, location))
      && !(MayTouch(a, location) && MayWrite(b, location))
  }

  // Scopes are disjoint exactly when neither is conservative and no location is in conflict.
  lemma ScopeDisjointExactly(a: ToolScope, b: ToolScope)
    ensures ScopeDisjoint(a, b) <==> !IsConservativeScope(a) && !IsConservativeScope(b) && Separate(a, b)
  {
    if ScopeDisjoint(a, b) {
      forall location
        ensures !(MayWrite(a, location) && MayTouch(b, location))
        ensures !(MayTouch(a, location) && MayWrite(b, location))
      {
        DisjointScopesSeparate(a, b, location);
      }
    } else if !IsConservativeScope(a) && !IsConservativeScope(b) {
      var p, q :| PathsIntersect(p, q)
               && ((p in a.writePaths && (q in b.writePaths || q in b.readPaths))
                   || (p in a.readPaths && q in b.writePaths));
      PathsIntersectMeans(p, q);
      var location :| Covers(p, location) && Covers(q, location);
      assert MayTouch(a, location) && MayTouch(b, location);
      assert MayWrite(a, location) || MayWrite(b, location);
    }
  }

  lemma ScopeDisjointSymmetric(a: ToolScope, b: ToolScope)
    ensures ScopeDisjoint(a, b) == ScopeDisjoint(b, a)
  {
    forall p, q ensures PathsIntersect(p, q) == PathsIntersect(q, p) {
      PathsIntersectSymmetric(p, q);
    }
  }
}

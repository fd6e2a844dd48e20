// The parts of Go's strings package the repository relies on: splitting and joining at one
// character, trimming, whitespace fields, cutting at the first separator and substring search.
module Text {

  // ---- Split and Join at a single separator character -------------------------------------

  function Split(s: string, sep: char): (parts: seq<string>)
    ensures |parts| >= 1
  {
    if s == [] then [""]
    else
      var rest := Split(s[1..], sep);
      if s[0] == sep then [""] + rest else [[s[0]] + rest[0]] + rest[1..]
  }

  function Join(parts: seq<string>, sep: char): string {
    if parts == [] then ""
    else if |parts| == 1 then parts[0]
    else parts[0] + [sep] + Join(parts[1..], sep)
  }

  function Concat(parts: seq<string>): string {
    if parts == [] then "" else parts[0] + Concat(parts[1..])
  }

  lemma {:induction false} ConcatSnoc(parts: seq<string>, last: string)
    ensures Concat(parts + [last]) == Concat(parts) + last
  {
    if parts == [] {
      assert parts + [last] == [last];
      assert Concat([last]) == last + Concat([]) == last;
    } else {
      ConcatSnoc(parts[1..], last);
      assert (parts + [last])[0] == parts[0] && (parts + [last])[1..] == parts[1..] + [last];
    }
  }

  lemma {:induction false} SplitSeparatorFree(a: string, sep: char)
    requires sep !in a
    ensures Split(a, sep) == [a]
  {
    if a != [] {
      SplitSeparatorFree(a[1..], sep);
      assert a == [a[0]] + a[1..];
    }
  }

  lemma {:induction false} SplitAt(a: string, sep: char, b: string)
    requires sep !in a
    ensures Split(a + [sep] + b, sep) == [a] + Split(b, sep)
  {
    if a == [] {
      assert (a + [sep] + b)[1..] == b;
    } else {
      assert (a + [sep] + b)[1..] == a[1..] + [sep] + b;
      SplitAt(a[1..], sep, b);
      assert a == [a[0]] + a[1..];
    }
  }

  lemma {:induction false} SplitJoin(parts: seq<string>, sep: char)
    requires parts != []
    requires forall x :: x in parts ==> sep !in x
    ensures Split(Join(parts, sep), sep) == parts
  {
    if |parts| == 1 {
      SplitSeparatorFree(parts[0], sep);
    } else {
      SplitAt(parts[0], sep, Join(parts[1..], sep));
      SplitJoin(parts[1..], sep);
    }
  }

  lemma {:induction false} JoinSplit(s: string, sep: char)
    ensures Join(Split(s, sep), sep) == s
    ensures forall x :: x in Split(s, sep) ==> sep !in x
  {
    if s != [] {
      var rest := Split(s[1..], sep);
      JoinSplit(s[1..], sep);
      if s[0] == sep {
        assert ([""] + rest)[1..] == rest;
      } else {
        var parts := [[s[0]] + rest[0]] + rest[1..];
        assert parts[1..] == rest[1..];
        if |rest| > 1 {
          assert Join(parts, sep) == [s[0]] + rest[0] + [sep] + Join(rest[1..], sep) == [s[0]] + Join(rest, sep);
        }
      }
    }
  }

  lemma {:induction false} SplitConcat(a: string, sep: char, b: string)
    ensures Split(a + [sep] + b, sep) == Split(a, sep) + Split(b, sep)
  {
    if a == [] {
      assert (a + [sep] + b)[1..] == b;
    } else {
      assert (a + [sep] + b)[1..] == a[1..] + [sep] + b;
      SplitConcat(a[1..], sep, b);
    }
  }

  lemma {:induction false} JoinConcat(a: seq<string>, sep: char, b: seq<string>)
    requires a != [] && b != []
    ensures Join(a + b, sep) == Join(a, sep) + [sep] + Join(b, sep)
  {
    assert (a + b)[1..] == a[1..] + b;
    if |a| > 1 {
      JoinConcat(a[1..], sep, b);
    }
  }

  // ---- Whitespace --------------------------------------------------------------------------

  // unicode.IsSpace: the White_Space property.
  predicate IsSpace(c: char) {
    var n := c as int;
    || 9 <= n <= 13 || n == 0x20 || n == 0x85 || n == 0xA0 || n == 0x1680
    || 0x2000 <= n <= 0x200A || n == 0x2028 || n == 0x2029 || n == 0x202F || n == 0x205F || n == 0x3000
  }

  predicate NoSpace(s: string) {
    forall i :: 0 <= i < |s| ==> !IsSpace(s[i])
  }

  // A word survives as one whitespace field.
  predicate IsWord(s: string) {
    s != "" && NoSpace(s)
  }

  function TrimLeft(s: string): string {
    if s != [] && IsSpace(s[0]) then TrimLeft(s[1..]) else s
  }

  function TrimRight(s: string): string {
    if s != [] && IsSpace(s[|s| - 1]) then TrimRight(s[..|s| - 1]) else s
  }

  function TrimSpace(s: string): string {
    TrimRight(TrimLeft(s))
  }

  predicate Trimmed(s: string) {
    s == [] || (!IsSpace(s[0]) && !IsSpace(s[|s| - 1]))
  }

  lemma {:induction false} TrimRightKeepsHead(s: string)
    ensures TrimRight(s) <= s
    ensures s != [] && !IsSpace(s[0]) ==> TrimRight(s) != []
    ensures TrimRight(s) == [] || !IsSpace(TrimRight(s)[|TrimRight(s)| - 1])
  {
    if s != [] && IsSpace(s[|s| - 1]) {
      TrimRightKeepsHead(s[..|s| - 1]);
    }
  }

  lemma {:induction false} TrimLeftEnds(s: string)
    ensures TrimLeft(s) == [] || !IsSpace(TrimLeft(s)[0])
    ensures forall c :: c in TrimLeft(s) ==> c in s
  {
    if s != [] && IsSpace(s[0]) {
      TrimLeftEnds(s[1..]);
    }
  }

  // TrimSpace always yields a trimmed string, introduces no character, and fixes trimmed ones.
  lemma TrimSpaceTrims(s: string)
    ensures Trimmed(TrimSpace(s))
    ensures Trimmed(s) ==> TrimSpace(s) == s
    ensures forall c :: c in TrimSpace(s) ==> c in s
  {
    TrimLeftEnds(s);
    TrimRightKeepsHead(TrimLeft(s));
  }

  lemma {:induction false} TrimLeftCuts(s: string) returns (i: nat)
    ensures i <= |s| && TrimLeft(s) == s[i..] && forall k :: 0 <= k < i ==> IsSpace(s[k])
  {
    i := 0;
    if s != [] && IsSpace(s[0]) {
      var n := TrimLeftCuts(s[1..]);
      assert s[1..][n..] == s[n + 1..];
      i := n + 1;
    }
  }

  lemma {:induction false} TrimRightCuts(s: string)
    ensures TrimRight(s) <= s && forall k :: |TrimRight(s)| <= k < |s| ==> IsSpace(s[k])
  {
    if s != [] && IsSpace(s[|s| - 1]) {
      TrimRightCuts(s[..|s| - 1]);
    }
  }

  // It cuts off blanks at both ends and nothing else.
  lemma TrimSpaceCuts(s: string) returns (i: nat, j: nat)
    ensures i <= j <= |s| && TrimSpace(s) == s[i..j]
    ensures forall k :: 0 <= k < i || j <= k < |s| ==> IsSpace(s[k])
  {
    i := TrimLeftCuts(s);
    TrimRightCuts(s[i..]);
    j := i + |TrimSpace(s)|;
    assert s[i..][..j - i] == s[i..j];
    assert forall k :: j <= k < |s| ==> s[k] == s[i..][k - i];
  }

  lemma {:induction false} TrimRightSuffix(a: string, b: string)
    requires TrimRight(b) != []
    ensures TrimRight(a + b) == a + TrimRight(b)
  {
    if b != [] && IsSpace(b[|b| - 1]) {
      assert (a + b)[..|a + b| - 1] == a + b[..|b| - 1];
      TrimRightSuffix(a, b[..|b| - 1]);
    }
  }

  // ---- Fields ------------------------------------------------------------------------------

  function WordLen(s: string): (n: nat)
    ensures n <= |s|
  {
    if s == [] || IsSpace(s[0]) then 0 else 1 + WordLen(s[1..])
  }

  // strings.Fields: the maximal whitespace-free runs.
  function Fields(s: string): seq<string> {
    if s == [] then []
    else if IsSpace(s[0]) then Fields(s[1..])
    else [s[..WordLen(s)]] + Fields(s[WordLen(s)..])
  }

  lemma {:induction false} WordLenOf(w: string, rest: string)
    requires NoSpace(w)
    requires rest == [] || IsSpace(rest[0])
    ensures WordLen(w + rest) == |w|
  {
    if w == [] {
      assert w + rest == rest;
    } else {
      assert (w + rest)[1..] == w[1..] + rest;
      WordLenOf(w[1..], rest);
    }
  }

  lemma FieldsWord(w: string, rest: string)
    requires IsWord(w)
    requires rest == [] || IsSpace(rest[0])
    ensures Fields(w + rest) == [w] + Fields(rest)
  {
    WordLenOf(w, rest);
    assert (w + rest)[..|w|] == w && (w + rest)[|w|..] == rest;
  }

  lemma FieldsBlank(s: string)
    ensures Fields(" " + s) == Fields(s)
  {
  }

  // Tokens written one after another, each preceded by a blank.
  function Spaced(tokens: seq<string>): string {
    if tokens == [] then "" else " " + (tokens[0] + Spaced(tokens[1..]))
  }

  lemma Assoc(a: string, b: string, c: string)
    ensures (a + b) + c == a + (b + c)
  {
  }

  lemma {:induction false} SpacedConcat(a: seq<string>, b: seq<string>)
    ensures Spaced(a + b) == Spaced(a) + Spaced(b)
  {
    if a == [] {
      assert a + b == b;
    } else {
      SpacedConcat(a[1..], b);
      assert (a + b)[0] == a[0] && (a + b)[1..] == a[1..] + b;
      var rest := Spaced(a[1..]);
      Assoc(a[0], rest, Spaced(b));
      Assoc(" ", a[0] + rest, Spaced(b));
    }
  }

  lemma {:induction false} FieldsSpaced(tokens: seq<string>, tail: string)
    requires forall t :: t in tokens ==> IsWord(t)
    requires tail == [] || IsSpace(tail[0])
    ensures Fields(Spaced(tokens) + tail) == tokens + Fields(tail)
  {
    if tokens == [] {
      assert Spaced(tokens) + tail == tail;
    } else {
      var word, rest := tokens[0], Spaced(tokens[1..]) + tail;
      FieldsSpaced(tokens[1..], tail);
      Assoc(word, Spaced(tokens[1..]), tail);
      Assoc(" ", word + Spaced(tokens[1..]), tail);
      FieldsWord(word, rest);
      FieldsBlank(word + rest);
      assert tokens == [word] + tokens[1..];
    }
  }

  lemma {:induction false} WordLenSpec(s: string)
    requires s != [] && !IsSpace(s[0])
    ensures 0 < WordLen(s) <= |s|
    ensures IsWord(s[..WordLen(s)])
    ensures WordLen(s) == |s| || IsSpace(s[WordLen(s)])
  {
    if |s| > 1 && !IsSpace(s[1]) {
      WordLenSpec(s[1..]);
      assert s[..WordLen(s)] == [s[0]] + s[1..][..WordLen(s) - 1];
    }
  }

  lemma {:induction false} FieldsTrailingSpace(s: string, c: char)
    requires IsSpace(c)
    ensures Fields(s + [c]) == Fields(s)
    decreases |s|
  {
    if s == [] {
      assert (s + [c])[1..] == [];
    } else if IsSpace(s[0]) {
      assert (s + [c])[1..] == s[1..] + [c];
      FieldsTrailingSpace(s[1..], c);
    } else {
      var n := WordLen(s);
      WordLenSpec(s);
      var w, rest := s[..n], s[n..];
      assert s == w + rest && s + [c] == w + (rest + [c]);
      FieldsWord(w, rest + [c]);
      FieldsTrailingSpace(rest, c);
    }
  }

  lemma {:induction false} FieldsTrimRight(s: string)
    ensures Fields(TrimRight(s)) == Fields(s)
  {
    if s != [] && IsSpace(s[|s| - 1]) {
      assert s == s[..|s| - 1] + [s[|s| - 1]];
      FieldsTrailingSpace(s[..|s| - 1], s[|s| - 1]);
      FieldsTrimRight(s[..|s| - 1]);
    }
  }

  lemma {:induction false} FieldsAppendWord(s: string, w: string)
    requires IsWord(w)
    ensures Fields(s + (" " + w)) == Fields(s) + [w]
    decreases |s|
  {
    if s == [] {
      assert s + (" " + w) == " " + w;
      FieldsBlank(w);
      FieldsWord(w, "");
      assert w + "" == w;
    } else if IsSpace(s[0]) {
      assert (s + (" " + w))[1..] == s[1..] + (" " + w);
      FieldsAppendWord(s[1..], w);
    } else {
      var n := WordLen(s);
      WordLenSpec(s);
      assert s == s[..n] + s[n..];
      Assoc(s[..n], s[n..], " " + w);
      FieldsWord(s[..n], s[n..] + (" " + w));
      FieldsWord(s[..n], s[n..]);
      FieldsAppendWord(s[n..], w);
    }
  }

  lemma {:induction false} SpacedLacks(tokens: seq<string>, c: char)
    requires c != ' ' && forall t :: t in tokens ==> c !in t
    ensures c !in Spaced(tokens)
  {
    if tokens != [] {
      assert tokens[0] in tokens;
      SpacedLacks(tokens[1..], c);
    }
  }

  lemma {:induction false} ConcatLacks(parts: seq<string>, c: char)
    requires forall i :: 0 <= i < |parts| ==> c !in parts[i]
    ensures c !in Concat(parts)
  {
    if parts != [] {
      ConcatLacks(parts[1..], c);
    }
  }

  lemma WordsLackNewlines(s: string)
    requires NoSpace(s)
    ensures '\n' !in s
  {
  }

  // ---- Searching ---------------------------------------------------------------------------

  // strings.Index, with |s| standing for "not found".
  function Find(s: string, marker: string): (n: nat)
    ensures n <= |s|
  {
    if marker <= s || s == [] then 0 else 1 + Find(s[1..], marker)
  }

  predicate Contains(s: string, marker: string) {
    marker <= s || (s != [] && Contains(s[1..], marker))
  }

  lemma NoStraddle(a: string, b: string, marker: string)
    requires a != [] && !(marker <= a)
    requires b == [] || b[0] !in marker[1..]
    ensures !(marker <= a + b)
  {
    if b == [] {
      assert a + b == a;
    } else if |marker| <= |a| {
      assert (a + b)[..|marker|] == a[..|marker|];
    } else {
      assert (a + b)[|a|] == b[0] && marker[|a|] == marker[1..][|a| - 1];
    }
  }

  // An occurrence that starts inside a and runs into b would have to match b's first character
  // with a later character of the marker.
  lemma {:induction false} FindPast(a: string, b: string, marker: string)
    requires marker != [] && !Contains(a, marker)
    requires b == [] || b[0] !in marker[1..]
    ensures Find(a + b, marker) == |a| + Find(b, marker)
    ensures Contains(a + b, marker) <==> Contains(b, marker)
  {
    if a == [] {
      assert a + b == b;
    } else {
      assert (a + b)[1..] == a[1..] + b;
      FindPast(a[1..], b, marker);
      NoStraddle(a, b, marker);
    }
  }

  lemma {:induction false} ContainsMeansFound(s: string, marker: string)
    requires marker != []
    ensures Contains(s, marker) <==> Find(s, marker) < |s|
    ensures Contains(s, marker) ==> marker <= s[Find(s, marker)..]
  {
    if s != [] && !(marker <= s) {
      ContainsMeansFound(s[1..], marker);
      assert Contains(s, marker) ==> s[1..][Find(s[1..], marker)..] == s[Find(s, marker)..];
    }
  }

  // A marker is absent wherever one of its characters is.
  lemma {:induction false} ContainsNeedsCharacters(s: string, marker: string, c: char)
    requires c in marker && c !in s
    ensures !Contains(s, marker)
  {
    if s != [] {
      ContainsNeedsCharacters(s[1..], marker, c);
    }
  }

  // ---- Cut ---------------------------------------------------------------------------------

  // Position of the first c, |s| if there is none.
  function IndexOf(s: string, c: char): (n: nat)
    ensures n <= |s|
    ensures c !in s[..n]
    ensures n < |s| ==> s[n] == c
  {
    if s == [] || s[0] == c then 0
    else
      var n := IndexOf(s[1..], c);
      assert s[..1 + n] == [s[0]] + s[1..][..n];
      1 + n
  }

  lemma {:induction false} IndexOfAt(a: string, c: char, b: string)
    requires c !in a
    ensures IndexOf(a + [c] + b, c) == |a|
  {
    if a == [] {
      assert (a + [c] + b)[0] == c;
    } else {
      assert (a + [c] + b)[1..] == a[1..] + [c] + b;
      IndexOfAt(a[1..], c, b);
    }
  }

  // From a + c + b with c absent from a, both parts can be read back.
  lemma CutIsInjective(a: string, b: string, x: string, y: string, c: char)
    requires c !in a && c !in x
    requires a + [c] + b == x + [c] + y
    ensures a == x && b == y
  {
    var s := a + [c] + b;
    IndexOfAt(a, c, b);
    IndexOfAt(x, c, y);
    assert a == s[..|a|] == x && b == s[|a| + 1..] == y;
  }

  // ---- Replacing and prefixes --------------------------------------------------------------

  function ReplaceChar(s: string, from: char, to: char): (r: string)
    ensures |r| == |s|
    ensures forall i :: 0 <= i < |s| ==> r[i] == if s[i] == from then to else s[i]
  {
    seq(|s|, i requires 0 <= i < |s| => if s[i] == from then to else s[i])
  }

  function TrimPrefix(s: string, prefix: string): string {
    if prefix <= s then s[|prefix|..] else s
  }

  // ---- Bytes -------------------------------------------------------------------------------

  // The length of a character in UTF-8.
  function Utf8Width(c: char): (n: nat)
    ensures 1 <= n <= 4
  {
    var code := c as int;
    if code < 0x80 then 1 else if code < 0x800 then 2 else if code < 0x10000 then 3 else 4
  }

  function ByteLength(s: string): nat {
    if s == [] then 0 else Utf8Width(s[0]) + ByteLength(s[1..])
  }

  // How many leading characters fit whole in n bytes.
  function WholeCharacters(s: string, n: nat): (k: nat)
    ensures k <= |s|
  {
    if s == [] || Utf8Width(s[0]) > n then 0 else 1 + WholeCharacters(s[1..], n - Utf8Width(s[0]))
  }

  // What reading a byte outside any character yields.
  const STRAY_BYTE := '\U{FFFD}'

  // s[:n] on the bytes of a longer text. A character that straddles the cut leaves stray bytes.
  function CutBytes(s: string, n: nat): string {
    var kept := s[..WholeCharacters(s, n)];
    kept + seq(if ByteLength(kept) <= n then n - ByteLength(kept) else 0, _ => STRAY_BYTE)
  }

  lemma {:induction false} WholeCharactersFit(s: string, n: nat)
    ensures var k := WholeCharacters(s, n);
      && ByteLength(s[..k]) <= n
      && (if k < |s| then n < ByteLength(s[..k]) + Utf8Width(s[k]) else ByteLength(s) <= n)
  {
    if s != [] && Utf8Width(s[0]) <= n {
      WholeCharactersFit(s[1..], n - Utf8Width(s[0]));
      var k := WholeCharacters(s, n);
      assert s[..k] == [s[0]] + s[1..][..k - 1];
    }
  }

  lemma {:induction false} AsciiBytes(s: string)
    requires forall i :: 0 <= i < |s| ==> s[i] < 128 as char
    ensures ByteLength(s) == |s|
  {
    if s != [] {
      AsciiBytes(s[1..]);
    }
  }
}

// fmt's %d and %+d, and strconv.Atoi on 64-bit integers.
module Decimal {
  import opened Text
  import opened Wrappers

  const MIN_INT: int := -0x8000_0000_0000_0000
  const MAX_INT: int := 0x7FFF_FFFF_FFFF_FFFF

  // Go's int on a 64-bit platform.
  type Int = n: int | MIN_INT <= n <= MAX_INT

  // Go's wrapping addition.
  function Add(a: Int, b: Int): Int {
    var s := a + b;
    if s > MAX_INT then s - 0x1_0000_0000_0000_0000
    else if s < MIN_INT then s + 0x1_0000_0000_0000_0000
    else s
  }

  predicate IsDigit(c: char) {
    '0' <= c <= '9'
  }

  function DigitValue(c: char): nat
    requires IsDigit(c)
  {
    c as int - '0' as int
  }

  function Digits(n: nat): (s: string)
    ensures s != []
    ensures forall c :: c in s ==> IsDigit(c)
  {
    var d := [(48 + n % 10) as char];
    if n < 10 then d else Digits(n / 10) + d
  }

  function Format(n: int): string {
    if n < 0 then "-" + Digits(-n) else Digits(n)
  }

  function FormatSigned(n: int): string {
    if n < 0 then Format(n) else "+" + Format(n)
  }

  function DigitsValue(s: string): nat
    requires forall c :: c in s ==> IsDigit(c)
  {
    if s == [] then 0 else 10 * DigitsValue(s[..|s| - 1]) + DigitValue(s[|s| - 1])
  }

  function Atoi(s: string): Option<Int> {
    var body := if s != [] && (s[0] == '-' || s[0] == '+') then s[1..] else s;
    if body == [] || exists c :: c in body && !IsDigit(c) then None
    else
      var n: int := if s[0] == '-' then 0 - DigitsValue(body) else DigitsValue(body);
      if MIN_INT <= n <= MAX_INT then Some(n) else None
  }

  // parseCompletionReceiptInt: anything that is not a number counts as zero.
  function ParseReceiptInt(raw: string): Int {
    Atoi(TrimSpace(raw)).GetOr(0)
  }

  lemma {:induction false} DigitsRoundTrip(n: nat)
    ensures DigitsValue(Digits(n)) == n
  {
    if n >= 10 {
      DigitsRoundTrip(n / 10);
      var d := [(48 + n % 10) as char];
      assert (Digits(n / 10) + d)[..|Digits(n)| - 1] == Digits(n / 10);
    } else {
      assert Digits(n)[..0] == [];
    }
  }

  // A printed number is one word, without '=' or ':'.
  lemma FormatShape(n: int)
    ensures IsWord(Format(n)) && IsWord(FormatSigned(n))
    ensures forall c :: c in Format(n) ==> IsDigit(c) || c == '-'
    ensures ':' !in Format(n) && '\n' !in Format(n) && '\n' !in FormatSigned(n)
  {
    var d := Digits(if n < 0 then -n else n);
    assert forall i :: 0 <= i < |d| ==> d[i] in d && IsDigit(d[i]);
  }

  lemma UnsignedReads(digits: string)
    requires digits != [] && forall c :: c in digits ==> IsDigit(c)
    ensures Atoi(digits) == if DigitsValue(digits) <= MAX_INT then Some(DigitsValue(digits)) else None
  {
    assert digits[0] in digits && IsDigit(digits[0]);
  }

  lemma SignedReads(sign: char, digits: string)
    requires digits != [] && (forall c :: c in digits ==> IsDigit(c)) && (sign == '+' || sign == '-')
    ensures var n: int := if sign == '-' then 0 - DigitsValue(digits) else DigitsValue(digits);
      Atoi([sign] + digits) == if MIN_INT <= n <= MAX_INT then Some(n) else None
  {
    assert ([sign] + digits)[1..] == digits;
  }

  // A number is read digit by digit, with one sign or none; out of range it is none.
  lemma AtoiReads(digits: string)
    requires digits != [] && forall c :: c in digits ==> IsDigit(c)
    ensures var n: int := DigitsValue(digits);
      && Atoi(digits) == (if n <= MAX_INT then Some(n) else None)
      && Atoi("+" + digits) == (if n <= MAX_INT then Some(n) else None)
      && Atoi("-" + digits) == (if -n >= MIN_INT then Some(-n) else None)
  {
    UnsignedReads(digits);
    SignedReads('+', digits);
    SignedReads('-', digits);
  }

  lemma DigitsAdd(digits: string, c: char)
    requires (forall d :: d in digits ==> IsDigit(d)) && IsDigit(c)
    ensures DigitsValue(digits + [c]) == 10 * DigitsValue(digits) + (c as int - '0' as int)
  {
    assert (digits + [c])[..|digits|] == digits;
  }

  // What is no number counts as zero: nothing, a sign alone, or a character that is no
  // digit.
  lemma NoNumberIsZero(raw: string, i: nat)
    requires var text := TrimSpace(raw);
      || text == "" || text == "+" || text == "-"
      || (i < |text| && !IsDigit(text[i]) && (i > 0 || (text[0] != '+' && text[0] != '-')))
    ensures ParseReceiptInt(raw) == 0
  {
    var text := TrimSpace(raw);
    var body := if text != [] && (text[0] == '-' || text[0] == '+') then text[1..] else text;
    if i < |text| && !IsDigit(text[i]) && body != [] {
      assert body == text || (i > 0 && body[i - 1] == text[i]);
      assert text[i] in body;
    }
  }

  // A printed delta always shows its sign, and reads back.
  lemma SignedReadsBack(n: Int)
    ensures FormatSigned(n) != "" && FormatSigned(n)[0] == if n < 0 then '-' else '+'
    ensures Atoi(FormatSigned(n)) == Some(n)
  {
    if n >= 0 {
      DigitsRoundTrip(n);
      AtoiReads(Digits(n));
    } else {
      var m: int := n;
      DigitsRoundTrip(-m);
      AtoiReads(Digits(-m));
    }
  }

  // Reading a printed 64-bit integer gives it back.
  lemma ParsePrintedInt(n: Int)
    ensures ParseReceiptInt(Format(n)) == n
  {
    FormatShape(n);
    TrimSpaceTrims(Format(n));
    if n < 0 {
      var m: int := n;
      DigitsRoundTrip(-m);
      assert Format(n)[1..] == Digits(-m);
    } else {
      DigitsRoundTrip(n);
      assert IsDigit(Digits(n)[0]);
    }
  }
}

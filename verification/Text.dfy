/** Text as the launcher reads it: ASCII case, white space, order and numbers. */
module Text {
  import opened Wrappers

  function LowerChar(c: char): char {
    if 'A' <= c <= 'Z' then c - 'A' + 'a' else c
  }

  /** to_ascii_lowercase; two texts are equal ignoring ASCII case exactly if these agree. */
  function Lower(s: string): string {
    seq(|s|, i requires 0 <= i < |s| => LowerChar(s[i]))
  }

  predicate SameIgnoringCase(a: string, b: string) {
    Lower(a) == Lower(b)
  }

  /** They do where each two characters are the same, or the capital and the small form of one ASCII letter. */
  lemma {:induction false} SameIgnoringCaseIff(a: string, b: string)
    ensures SameIgnoringCase(a, b) <==> |a| == |b| && forall i | 0 <= i < |a| ::
              a[i] == b[i] || ('A' <= a[i] <= 'Z' && b[i] as int == a[i] as int + 32)
              || ('A' <= b[i] <= 'Z' && a[i] as int == b[i] as int + 32)
  {
    assert |Lower(a)| == |a| && |Lower(b)| == |b|;
    if |a| == |b| {
      forall i | 0 <= i < |a|
        ensures Lower(a)[i] == Lower(b)[i] <==>
                  a[i] == b[i] || ('A' <= a[i] <= 'Z' && b[i] as int == a[i] as int + 32)
                  || ('A' <= b[i] <= 'Z' && a[i] as int == b[i] as int + 32)
      {
        LowerCharIs(a[i]);
        LowerCharIs(b[i]);
      }
      assert Lower(a) == Lower(b) <==> forall i | 0 <= i < |a| :: Lower(a)[i] == Lower(b)[i];
    }
  }

  lemma {:induction false} LowerCharIs(c: char)
    ensures LowerChar(c) as int == if 'A' <= c <= 'Z' then c as int + 32 else c as int
  {
  }

  predicate IsDigit(c: char) {
    '0' <= c <= '9'
  }

  predicate IsAlphanumeric(c: char) {
    IsDigit(c) || 'a' <= LowerChar(c) <= 'z'
  }

  predicate IsHexDigit(c: char) {
    IsDigit(c) || 'a' <= LowerChar(c) <= 'f'
  }

  /** The characters with the Unicode White_Space property. */
  predicate IsWhiteSpace(c: char) {
    || '\t' <= c <= '\r' || c == ' ' || c == '\U{0085}' || c == '\U{00A0}' || c == '\U{1680}'
    || '\U{2000}' <= c <= '\U{200A}' || c == '\U{2028}' || c == '\U{2029}' || c == '\U{202F}'
    || c == '\U{205F}' || c == '\U{3000}'
  }

  function TrimStart(s: string, space: char -> bool): string {
    if s != [] && space(s[0]) then TrimStart(s[1..], space) else s
  }

  function TrimEnd(s: string, space: char -> bool): string {
    if s != [] && space(s[|s| - 1]) then TrimEnd(s[..|s| - 1], space) else s
  }

  function TrimBy(s: string, space: char -> bool): string {
    TrimEnd(TrimStart(s, space), space)
  }

  /** Neither end of a text is white space. */
  predicate IsTrimmed(s: string, space: char -> bool) {
    s == [] || (!space(s[0]) && !space(s[|s| - 1]))
  }

  lemma {:induction false} TrimmedStays(s: string, space: char -> bool)
    requires IsTrimmed(s, space)
    ensures TrimBy(s, space) == s
  {
  }

  lemma {:induction false} TrimStartTrims(s: string, space: char -> bool)
    ensures |TrimStart(s, space)| <= |s|
    ensures TrimStart(s, space) == [] || !space(TrimStart(s, space)[0])
    decreases |s|
  {
    if s != [] && space(s[0]) {
      TrimStartTrims(s[1..], space);
    }
  }

  lemma {:induction false} TrimEndTrims(s: string, space: char -> bool)
    ensures TrimEnd(s, space) <= s
    ensures TrimEnd(s, space) == [] || !space(TrimEnd(s, space)[|TrimEnd(s, space)| - 1])
    decreases |s|
  {
    if s != [] && space(s[|s| - 1]) {
      TrimEndTrims(s[..|s| - 1], space);
    }
  }

  lemma {:induction false} TrimByTrims(s: string, space: char -> bool)
    ensures IsTrimmed(TrimBy(s, space), space) && |TrimBy(s, space)| <= |s|
  {
    TrimStartTrims(s, space);
    TrimEndTrims(TrimStart(s, space), space);
  }

  /** What is trimmed is white space at both ends, and all of it. */
  lemma {:induction false} TrimmedIs(s: string, space: char -> bool) returns (left: nat, right: nat)
    ensures left <= right <= |s| && TrimBy(s, space) == s[left..right] && IsTrimmed(s[left..right], space)
    ensures forall i | 0 <= i < left || right <= i < |s| :: space(s[i])
  {
    TrimByTrims(s, space);
    left := StartOf(s, space);
    right := EndOf(s[left..], space);
    right := left + right;
    assert forall i | right <= i < |s| :: s[i] == s[left..][i - left];
    hide TrimStart, TrimEnd;
  }

  lemma {:induction false} StartOf(s: string, space: char -> bool) returns (n: nat)
    ensures n <= |s| && TrimStart(s, space) == s[n..] && forall i | 0 <= i < n :: space(s[i])
  {
    n := 0;
    if s != [] && space(s[0]) {
      var m := StartOf(s[1..], space);
      n := m + 1;
      assert forall i | 0 < i < n :: s[i] == s[1..][i - 1];
    }
  }

  lemma {:induction false} EndOf(s: string, space: char -> bool) returns (n: nat)
    ensures n <= |s| && TrimEnd(s, space) == s[..n] && forall i | n <= i < |s| :: space(s[i])
  {
    n := |s|;
    if s != [] && space(s[|s| - 1]) {
      var shorter := s[..|s| - 1];
      n := EndOf(shorter, space);
      assert forall i | n <= i < |shorter| :: s[i] == shorter[i];
    }
  }

  function Trim(s: string): string {
    TrimBy(s, IsWhiteSpace)
  }

  /** The order of texts by their characters, which for UTF-8 is the order of their bytes. */
  predicate AtMost(a: string, b: string) {
    a == [] || (b != [] && (a[0] < b[0] || (a[0] == b[0] && AtMost(a[1..], b[1..]))))
  }

  lemma {:induction false} AtMostTotal(a: string, b: string)
    ensures AtMost(a, b) || AtMost(b, a)
    ensures AtMost(a, b) && AtMost(b, a) ==> a == b
    ensures a == b ==> AtMost(a, b)
  {
    if a != [] && b != [] && a[0] == b[0] {
      AtMostTotal(a[1..], b[1..]);
      assert a == [a[0]] + a[1..] && b == [b[0]] + b[1..];
    }
  }

  /** Two texts agree up to a place where the first ends or has the smaller character. */
  predicate IsAtMostAt(a: string, b: string, n: nat) {
    && n <= |a| && n <= |b| && (forall i | 0 <= i < n :: a[i] == b[i])
    && (n == |a| || (n < |b| && a[n] < b[n]))
  }

  lemma {:induction false} IsAtMostFurther(a: string, b: string, n: nat)
    requires a != [] && b != [] && a[0] == b[0]
    ensures IsAtMostAt(a, b, n + 1) <==> IsAtMostAt(a[1..], b[1..], n)
    ensures !IsAtMostAt(a, b, 0)
  {
    assert forall i | 0 < i <= n && i < |a| && i < |b| :: a[i] == a[1..][i - 1] && b[i] == b[1..][i - 1];
  }

  /** One text is the start of the other, or smaller at the first character in which they differ. */
  lemma {:induction false} AtMostIff(a: string, b: string)
    ensures AtMost(a, b) <==> exists n: nat :: IsAtMostAt(a, b, n)
  {
    if a != [] && b != [] && a[0] == b[0] {
      AtMostIff(a[1..], b[1..]);
      IsAtMostFurther(a, b, 0);
      hide IsAtMostAt;
      if n: nat :| IsAtMostAt(a[1..], b[1..], n) {
        IsAtMostFurther(a, b, n);
      }
      if n: nat :| IsAtMostAt(a, b, n) {
        assert n > 0;
        IsAtMostFurther(a, b, n - 1);
      }
    } else if AtMost(a, b) {
      assert IsAtMostAt(a, b, 0);
    }
  }

  lemma {:induction false} AtMostTransitive(a: string, b: string, c: string)
    requires AtMost(a, b) && AtMost(b, c)
    ensures AtMost(a, c)
  {
    if a != [] && a[0] == b[0] && b[0] == c[0] {
      AtMostTransitive(a[1..], b[1..], c[1..]);
    }
  }

  const U64_LIMIT: nat := 0x1_0000_0000_0000_0000

  function DigitValue(c: char): nat
    requires IsDigit(c)
  {
    c as int - '0' as int
  }

  predicate AllDigits(s: string) {
    forall i | 0 <= i < |s| :: IsDigit(s[i])
  }

  function Digits(s: string): nat
    requires AllDigits(s)
  {
    if s == [] then 0 else 10 * Digits(s[..|s| - 1]) + DigitValue(s[|s| - 1])
  }

  /** Rust's u64 parser: decimal digits after at most one plus sign, below two to the power 64. */
  function ParseU64(s: string): Option<nat> {
    var digits := if s != [] && s[0] == '+' then s[1..] else s;
    if digits != [] && AllDigits(digits) && Digits(digits) < U64_LIMIT then Some(Digits(digits)) else None
  }
}

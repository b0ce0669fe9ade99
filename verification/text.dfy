/**
 * The string primitives the application code leans on: JavaScript's `\s` and `\d`
 * character classes, `String.prototype.includes`, `trim`, `parseInt` and `String(n)`.
 * Strings are sequences of characters; every literal the application searches for is
 * in the Basic Multilingual Plane, so a character here is one UTF-16 code unit there.
 */
module Text {
  import opened Wrappers

  /** The characters JavaScript's `\s` matches; `trim` and `parseInt` skip exactly this set. */
  predicate IsSpace(c: char) {
    || c == '\t' || c == '\n' || c == '\U{000B}' || c == '\U{000C}' || c == '\r' || c == ' '
    || c == '\U{00A0}' || c == '\U{1680}' || ('\U{2000}' <= c <= '\U{200A}')
    || c == '\U{2028}' || c == '\U{2029}' || c == '\U{202F}' || c == '\U{205F}'
    || c == '\U{3000}' || c == '\U{FEFF}'
  }

  /** JavaScript's `\d` in a regular expression without the `u` flag: ASCII digits only. */
  predicate IsDigit(c: char) {
    '0' <= c <= '9'
  }

  /** The three character classes the application's regular expressions repeat with `*` or `+`. */
  datatype CharClass = Space | Digit | Newline

  predicate InClass(c: char, cls: CharClass) {
    match cls
    case Space => IsSpace(c)
    case Digit => IsDigit(c)
    case Newline => c == '\n'
  }

  predicate AllSpace(s: string) {
    forall k :: 0 <= k < |s| ==> IsSpace(s[k])
  }

  predicate AllDigits(s: string) {
    forall k :: 0 <= k < |s| ==> IsDigit(s[k])
  }

  /**
   * The length of the longest run of `cls` characters starting at `i`: what a greedy
   * `\s*`, `\d+` or `\n*` consumes there.
   */
  function Span(s: string, i: nat, cls: CharClass): (n: nat)
    requires i <= |s|
    ensures i + n <= |s|
    ensures forall k :: i <= k < i + n ==> InClass(s[k], cls)
    ensures i + n == |s| || !InClass(s[i + n], cls)
    decreases |s| - i
  {
    if i < |s| && InClass(s[i], cls) then 1 + Span(s, i + 1, cls) else 0
  }

  // ---------------------------------------------------------------- substring search

  /** Characters `j..` of `pat` sit in `s` from index `i + j` on. */
  predicate MatchFrom(s: string, i: nat, pat: string, j: nat)
    decreases |pat| - j
  {
    j >= |pat| || (i + j < |s| && s[i + j] == pat[j] && MatchFrom(s, i, pat, j + 1))
  }

  /** `pat` occurs in `s` at index `i`. */
  predicate MatchesAt(s: string, i: nat, pat: string) {
    i + |pat| <= |s| && MatchFrom(s, i, pat, 0)
  }

  lemma {:induction false} MatchFromIff(s: string, i: nat, pat: string, j: nat)
    requires j <= |pat|
    ensures MatchFrom(s, i, pat, j) <==>
      (j == |pat| || (i + |pat| <= |s| && forall k :: j <= k < |pat| ==> s[i + k] == pat[k]))
    decreases |pat| - j
  {
    if j < |pat| {
      MatchFromIff(s, i, pat, j + 1);
    }
  }

  /** `pat` is the slice of `s` that starts at `i`. */
  ghost predicate OccursAt(s: string, i: nat, pat: string) {
    i + |pat| <= |s| && s[i..i + |pat|] == pat
  }

  /** The character-by-character test agrees with slice equality. */
  lemma MatchesAtIff(s: string, i: nat, pat: string)
    ensures MatchesAt(s, i, pat) <==> OccursAt(s, i, pat)
  {
    MatchFromIff(s, i, pat, 0);
    if OccursAt(s, i, pat) {
      forall k | 0 <= k < |pat| ensures s[i + k] == pat[k] {
        assert s[i..i + |pat|][k] == s[i + k];
      }
    }
    if MatchesAt(s, i, pat) {
      var slice := s[i..i + |pat|];
      forall k | 0 <= k < |pat| ensures slice[k] == pat[k] {
        assert slice[k] == s[i + k];
      }
      assert slice == pat;
    }
  }

  predicate ContainsFrom(s: string, pat: string, i: nat)
    decreases |s| - i
  {
    i + |pat| <= |s| && (MatchesAt(s, i, pat) || ContainsFrom(s, pat, i + 1))
  }

  /** `s.includes(pat)`. */
  predicate Contains(s: string, pat: string) {
    ContainsFrom(s, pat, 0)
  }

  lemma {:induction false} ContainsFromIff(s: string, pat: string, i: nat)
    ensures ContainsFrom(s, pat, i) <==> exists k :: i <= k && MatchesAt(s, k, pat)
    decreases |s| - i
  {
    if i + |pat| <= |s| {
      ContainsFromIff(s, pat, i + 1);
      if exists k :: i <= k && MatchesAt(s, k, pat) {
        var k :| i <= k && MatchesAt(s, k, pat);
        if k != i {
          assert i + 1 <= k;
        }
      }
    } else {
      forall k | i <= k
        ensures !MatchesAt(s, k, pat)
      {
        MatchesAtIff(s, k, pat);
      }
    }
  }

  /** `s.includes(pat)` holds exactly when `pat` is a slice of `s`. */
  lemma ContainsIff(s: string, pat: string)
    ensures Contains(s, pat) <==> exists i: nat :: OccursAt(s, i, pat)
  {
    ContainsFromIff(s, pat, 0);
    if Contains(s, pat) {
      var k: nat :| MatchesAt(s, k, pat);
      MatchesAtIff(s, k, pat);
    }
    if exists i: nat :: OccursAt(s, i, pat) {
      var i: nat :| OccursAt(s, i, pat);
      MatchesAtIff(s, i, pat);
    }
  }

  /** A pattern with a character that never appears in `s` is not contained in it. */
  lemma AbsentChar(s: string, pat: string, j: nat)
    requires j < |pat| && pat[j] !in s
    ensures !Contains(s, pat)
  {
    ContainsFromIff(s, pat, 0);
    if Contains(s, pat) {
      var k :| 0 <= k && MatchesAt(s, k, pat);
      MatchFromIff(s, k, pat, 0);
    }
  }

  /** A pattern placed at a known index is contained. */
  lemma ContainsAt(s: string, i: nat, pat: string)
    requires OccursAt(s, i, pat)
    ensures Contains(s, pat)
  {
    ContainsIff(s, pat);
  }

  predicate AnyFrom(s: string, pats: seq<string>, k: nat)
    decreases |pats| - k
  {
    k < |pats| && (Contains(s, pats[k]) || AnyFrom(s, pats, k + 1))
  }

  /** `pats.some(p => s.includes(p))`, and equally the regular expression `/p0|p1|.../.test(s)`. */
  predicate ContainsAny(s: string, pats: seq<string>) {
    AnyFrom(s, pats, 0)
  }

  lemma {:induction false} AnyFromIff(s: string, pats: seq<string>, from: nat)
    ensures AnyFrom(s, pats, from) <==> exists k :: from <= k < |pats| && Contains(s, pats[k])
    decreases |pats| - from
  {
    if from < |pats| {
      AnyFromIff(s, pats, from + 1);
    }
  }

  /** Some entry of `pats` occurs in `s`. */
  lemma ContainsAnyIff(s: string, pats: seq<string>)
    ensures ContainsAny(s, pats) <==> exists k :: 0 <= k < |pats| && Contains(s, pats[k])
  {
    AnyFromIff(s, pats, 0);
  }

  /** Some entry of `pats` is a slice of `s`: the occurrence-level reading of `ContainsAny`. */
  ghost predicate Mentions(s: string, pats: seq<string>) {
    exists k: nat, i: nat :: k < |pats| && OccursAt(s, i, pats[k])
  }

  lemma ContainsAnyMentions(s: string, pats: seq<string>)
    ensures ContainsAny(s, pats) <==> Mentions(s, pats)
  {
    ContainsAnyIff(s, pats);
    forall k | 0 <= k < |pats|
      ensures Contains(s, pats[k]) <==> exists i: nat :: OccursAt(s, i, pats[k])
    {
      ContainsIff(s, pats[k]);
    }
  }

  /**
   * The index of the first entry of `pats`, at or after `from` in list order, that occurs
   * in `s` (a `for ... of` loop returning on the first `includes` hit).
   */
  function FirstContained(s: string, pats: seq<string>, from: nat): (r: Option<nat>)
    requires from <= |pats|
    ensures r.Some? ==>
      && from <= r.value < |pats|
      && Contains(s, pats[r.value])
      && forall j :: from <= j < r.value ==> !Contains(s, pats[j])
    ensures r.None? <==> forall j :: from <= j < |pats| ==> !Contains(s, pats[j])
    decreases |pats| - from
  {
    if from == |pats| then None
    else if Contains(s, pats[from]) then Some(from)
    else FirstContained(s, pats, from + 1)
  }

  /** The maximal run of digits starting at `i`: what a greedy `(\d+)` captures there. */
  function DigitRun(s: string, i: nat): (r: string)
    requires i <= |s|
    ensures |r| == Span(s, i, Digit) && r == s[i..i + |r|] && AllDigits(r)
  {
    var r := s[i..i + Span(s, i, Digit)];
    assert forall k :: 0 <= k < |r| ==> r[k] == s[i + k];
    r
  }

  // ---------------------------------------------------------------- trim

  /** The number of whitespace characters at the end of `s`. */
  function TrailingSpaces(s: string): (n: nat)
    ensures n <= |s|
    ensures forall k :: |s| - n <= k < |s| ==> IsSpace(s[k])
    ensures n == |s| || !IsSpace(s[|s| - n - 1])
  {
    if |s| > 0 && IsSpace(s[|s| - 1]) then 1 + TrailingSpaces(s[..|s| - 1]) else 0
  }

  /** Neither end of `s` is whitespace. */
  predicate IsTrimmed(s: string) {
    |s| == 0 || (!IsSpace(s[0]) && !IsSpace(s[|s| - 1]))
  }

  /**
   * `s.trim()`: the slice of `s` left once the whitespace at both ends is removed.
   * The witness `a` is where the slice starts.
   */
  function Trim(s: string): (r: string)
    ensures IsTrimmed(r)
    ensures exists a: nat :: a + |r| <= |s| && r == s[a..a + |r|] && AllSpace(s[..a]) && AllSpace(s[a + |r|..])
  {
    var a := Span(s, 0, Space);
    var rest := s[a..];
    var r := rest[..|rest| - TrailingSpaces(rest)];
    assert r == s[a..a + |r|];
    assert AllSpace(s[..a]) by {
      forall k | 0 <= k < a ensures IsSpace(s[..a][k]) {
        assert InClass(s[k], Space);
      }
    }
    assert AllSpace(s[a + |r|..]) by {
      var tail := s[a + |r|..];
      forall k | 0 <= k < |tail| ensures IsSpace(tail[k]) {
        assert tail[k] == rest[|r| + k];
      }
    }
    assert |r| > 0 ==> !IsSpace(r[0]) by {
      if |r| > 0 {
        assert r[0] == s[a];
      }
    }
    r
  }

  /** `!s.trim()`: nothing but whitespace. */
  predicate Blank(s: string) {
    Trim(s) == []
  }

  /** `trim()` leaves a string that is already trimmed alone. */
  lemma TrimOfTrimmed(s: string)
    requires IsTrimmed(s)
    ensures Trim(s) == s
  {
    var r := Trim(s);
    var a: nat :| a + |r| <= |s| && r == s[a..a + |r|] && AllSpace(s[..a]) && AllSpace(s[a + |r|..]);
  }

  /** `s.trim()` is empty exactly when `s` is blank, which is when `!s.trim()` holds. */
  lemma TrimEmptyIff(s: string)
    ensures Trim(s) == "" <==> AllSpace(s)
  {
    var r := Trim(s);
    var a: nat :| a + |r| <= |s| && r == s[a..a + |r|] && AllSpace(s[..a]) && AllSpace(s[a + |r|..]);
    if r == "" {
      forall k | 0 <= k < |s| ensures IsSpace(s[k]) {
        if k < a {
          assert s[k] == s[..a][k];
        } else {
          assert s[k] == s[a..][k - a];
        }
      }
    }
  }

  // ---------------------------------------------------------------- numbers

  function DigitValue(c: char): nat
    requires IsDigit(c)
  {
    (c as int) - ('0' as int)
  }

  function DigitChar(d: nat): (c: char)
    requires d < 10
    ensures IsDigit(c) && DigitValue(c) == d
  {
    (('0' as int) + d) as char
  }

  /** The value of a string of decimal digits, as `parseInt` reads it (leading zeros allowed). */
  function DecimalValue(ds: string): nat
    requires AllDigits(ds)
  {
    if |ds| == 0 then 0 else 10 * DecimalValue(ds[..|ds| - 1]) + DigitValue(ds[|ds| - 1])
  }

  /** `String(n)` for a non-negative integer: its decimal numeral without leading zeros. */
  function NatToDecimal(n: nat): (r: string)
    ensures |r| > 0 && AllDigits(r)
    ensures |r| == 1 || r[0] != '0'
    ensures DecimalValue(r) == n
  {
    if n < 10 then [DigitChar(n)]
    else
      var prefix := NatToDecimal(n / 10);
      var r := prefix + [DigitChar(n % 10)];
      assert r[..|r| - 1] == prefix;
      r
  }

  /** `String(n)` for any integer. */
  function IntToString(n: int): (r: string)
    ensures |r| > 0
    ensures n >= 0 ==> AllDigits(r) && DecimalValue(r) == n
    ensures n < 0 ==> r[0] == '-' && AllDigits(r[1..]) && DecimalValue(r[1..]) == -n
  {
    if n >= 0 then NatToDecimal(n) else "-" + NatToDecimal(-n)
  }

  /**
   * `parseInt(s)` (radix 10): skip leading whitespace, read an optional sign and then the
   * longest run of digits; `None` stands for `NaN` when no digit follows.
   */
  function ParseInt(s: string): (r: Option<int>)
    ensures r.Some? <==>
      var i := Span(s, 0, Space);
      var j := if i < |s| && (s[i] == '+' || s[i] == '-') then i + 1 else i;
      j < |s| && IsDigit(s[j])
  {
    var i := Span(s, 0, Space);
    var negative := i < |s| && s[i] == '-';
    var j := if i < |s| && (s[i] == '+' || s[i] == '-') then i + 1 else i;
    var d := Span(s, j, Digit);
    if d == 0 then None
    else
      var v: int := DecimalValue(s[j..j + d]);
      Some(if negative then -v else v)
  }

  /** A run of digits to the end of the text is spanned whole. */
  lemma {:induction false} SpanAllDigits(s: string, i: nat)
    requires i <= |s| && forall k :: i <= k < |s| ==> IsDigit(s[k])
    ensures Span(s, i, Digit) == |s| - i
    decreases |s| - i
  {
    if i < |s| {
      SpanAllDigits(s, i + 1);
    }
  }

  /** `parseInt(String(n)) === n`: the numeral of an integer reads back as that integer. */
  lemma ParseIntOfString(n: int)
    ensures ParseInt(IntToString(n)) == Some(n)
  {
    var s := IntToString(n);
    if n >= 0 {
      assert !IsSpace(s[0]);
      SpanAllDigits(s, 0);
      assert s[0..|s|] == s;
    } else {
      assert !IsSpace(s[0]);
      SpanAllDigits(s, 1);
      assert s[1..1 + (|s| - 1)] == s[1..];
    }
  }
}

/** String helpers standing in for Go's `strings`, `strconv` and `fmt` verbs. */
module Text {
  import opened Wrappers

  /** ASCII lower-casing of one character. */
  function Lower(c: char): char {
    if 'A' <= c <= 'Z' then (c as int + 32) as char else c
  }

  /** `strings.ToLower`, restricted to ASCII letters. */
  function ToLower(s: string): (r: string)
    ensures |r| == |s|
    ensures forall i :: 0 <= i < |s| ==> r[i] == Lower(s[i])
  {
    seq(|s|, i requires 0 <= i < |s| => Lower(s[i]))
  }

  predicate IsPrefix(p: string, s: string) {
    |p| <= |s| && s[..|p|] == p
  }

  /** `strings.Contains(s, sub)`. */
  predicate Contains(s: string, sub: string)
    decreases |s|
  {
    IsPrefix(sub, s) || (|s| > 0 && Contains(s[1..], sub))
  }

  /** The position of the first `c` in `s`, if any. */
  function IndexOf(s: string, c: char): (r: Option<nat>)
    ensures r.None? <==> c !in s
    ensures r.Some? ==> r.value < |s| && s[r.value] == c && c !in s[..r.value]
    decreases |s|
  {
    if |s| == 0 then None
    else if s[0] == c then Some(0)
    else
      var rest := IndexOf(s[1..], c);
      if rest.None? then None
      else
        assert s[..rest.value + 1] == [s[0]] + s[1..][..rest.value];
        Some(rest.value + 1)
  }

  /** Strings that start with different fixed prefixes never collide. */
  lemma PrefixesDiffer(p: string, q: string, x: string, y: string, i: nat)
    requires i < |p| && i < |q| && p[i] != q[i]
    ensures p + x != q + y
  {
    assert (p + x)[i] == p[i];
    assert (q + y)[i] == q[i];
  }

  /** A fixed prefix can be cancelled. */
  lemma PrefixCancel(p: string, x: string, y: string)
    requires p + x == p + y
    ensures x == y
  {
    assert x == (p + x)[|p|..];
    assert y == (p + y)[|p|..];
  }

  /**
   * When the text after the last separator contains no separator, a string
   * `a + sep + u` determines both `a` and `u`.
   */
  lemma SplitAtLastSeparator(a: string, u: string, b: string, v: string, sep: char)
    requires sep !in u && sep !in v
    requires a + [sep] + u == b + [sep] + v
    ensures a == b && u == v
  {
    var s := a + [sep] + u;
    var t := b + [sep] + v;
    assert s[|a|] == sep && t[|b|] == sep;
    assert forall j :: |a| < j < |s| ==> s[j] == u[j - |a| - 1];
    assert forall j :: |b| < j < |t| ==> t[j] == v[j - |b| - 1];
    assert |a| == |b|;
    assert a == s[..|a|] && b == t[..|b|];
    assert u == s[|a| + 1..] && v == t[|b| + 1..];
  }

  /**
   * When the text before the first separator contains no separator, a string
   * `a + sep + u` determines both `a` and `u`.
   */
  lemma SplitAtFirstSeparator(a: string, u: string, b: string, v: string, sep: char)
    requires sep !in a && sep !in b
    requires a + [sep] + u == b + [sep] + v
    ensures a == b && u == v
  {
    var s := a + [sep] + u;
    var t := b + [sep] + v;
    assert s[|a|] == sep && t[|b|] == sep;
    assert forall j :: 0 <= j < |a| ==> s[j] == a[j];
    assert forall j :: 0 <= j < |b| ==> t[j] == b[j];
    assert |a| == |b|;
    assert a == s[..|a|] && b == t[..|b|];
    assert u == s[|a| + 1..] && v == t[|b| + 1..];
  }

  // ---- decimal formatting (`%d`, `strconv.Itoa`, template literals) ----

  function DigitChar(d: int): char
    requires 0 <= d < 10
  {
    ('0' as int + d) as char
  }

  function DigitValue(c: char): int {
    c as int - '0' as int
  }

  predicate IsDigit(c: char) {
    '0' <= c <= '9'
  }

  /** Decimal representation of a natural number, without leading zeros. */
  function NatToString(n: nat): (r: string)
    ensures |r| >= 1
    ensures forall i :: 0 <= i < |r| ==> IsDigit(r[i])
    ensures n >= 10 ==> |r| >= 2
    decreases n
  {
    if n < 10 then [DigitChar(n)] else NatToString(n / 10) + [DigitChar(n % 10)]
  }

  /** Decimal representation of an integer, with a leading '-' when negative. */
  function IntToString(x: int): (r: string)
    ensures |r| >= 1
    ensures x < 0 <==> r[0] == '-'
    ensures forall i :: 0 <= i < |r| ==> IsDigit(r[i]) || (i == 0 && r[i] == '-')
  {
    if x < 0 then "-" + NatToString(-x) else NatToString(x)
  }

  /** Reads back a string of digits. */
  function ParseDigits(s: string): int
    decreases |s|
  {
    if |s| == 0 then 0 else 10 * ParseDigits(s[..|s| - 1]) + DigitValue(s[|s| - 1])
  }

  /** Reads back an optionally negative decimal number. */
  function ParseInt(s: string): int {
    if |s| > 0 && s[0] == '-' then -ParseDigits(s[1..]) else ParseDigits(s)
  }

  lemma {:induction false} ParseNatToString(n: nat)
    ensures ParseDigits(NatToString(n)) == n
    decreases n
  {
    if n >= 10 {
      var s := NatToString(n);
      assert s == NatToString(n / 10) + [DigitChar(n % 10)];
      assert s[..|s| - 1] == NatToString(n / 10);
      ParseNatToString(n / 10);
    }
  }

  /** Formatting an integer and reading it back gives the integer. */
  lemma IntToStringRoundTrip(x: int)
    ensures ParseInt(IntToString(x)) == x
  {
    if x < 0 {
      var s := IntToString(x);
      assert s[1..] == NatToString(-x);
      ParseNatToString(-x);
    } else {
      ParseNatToString(x);
    }
  }

  lemma IntToStringInjective(x: int, y: int)
    requires IntToString(x) == IntToString(y)
    ensures x == y
  {
    IntToStringRoundTrip(x);
    IntToStringRoundTrip(y);
  }

  lemma NoColonInInt(x: int)
    ensures ':' !in IntToString(x)
  {
    var s := IntToString(x);
    forall i | 0 <= i < |s|
      ensures s[i] != ':'
    {
      assert IsDigit(s[i]) || s[i] == '-';
    }
  }

  /**
   * `fmt.Sprintf("%s:%d", a, x)` is injective: the number after the last
   * colon, and the text before it, are both recoverable.
   */
  lemma ColonIntInjective(a: string, x: int, b: string, y: int)
    requires a + ":" + IntToString(x) == b + ":" + IntToString(y)
    ensures a == b && x == y
  {
    NoColonInInt(x);
    NoColonInInt(y);
    SplitAtLastSeparator(a, IntToString(x), b, IntToString(y), ':');
    IntToStringInjective(x, y);
  }
}

/** String helpers with the semantics of the Java and Python operations the
    system uses: substring search, decimal rendering of integers, and the
    rendering of a possibly-null string by string concatenation. */
module Text {
  import opened Wrappers

  /** `s.contains(t)` in Java, `t in s` in Python: t occurs in s at some
      offset. Case-sensitive; the empty string occurs in every string. */
  predicate Contains(s: string, t: string)
    decreases |s|
  {
    |t| <= |s| && (s[..|t|] == t || Contains(s[1..], t))
  }

  /** An occurrence at offset i is enough for Contains. */
  lemma {:induction false} ContainsAt(s: string, t: string, i: nat)
    requires i + |t| <= |s| && s[i..i + |t|] == t
    ensures Contains(s, t)
    decreases i
  {
    if i == 0 {
      assert s[..|t|] == t;
    } else {
      assert s[1..][i - 1..i - 1 + |t|] == s[i..i + |t|];
      ContainsAt(s[1..], t, i - 1);
    }
  }

  /** A pattern placed between any two strings is contained in the result. */
  lemma ContainsMiddle(a: string, t: string, b: string)
    ensures Contains(a + t + b, t)
  {
    assert (a + t + b)[|a|..|a| + |t|] == t;
    ContainsAt(a + t + b, t, |a|);
  }

  /** A string cannot contain a pattern holding a character it lacks. */
  lemma {:induction false} MissingCharNotContained(s: string, t: string, c: char)
    requires c in t && c !in s
    ensures !Contains(s, t)
    decreases |s|
  {
    if |t| <= |s| {
      var k :| 0 <= k < |t| && t[k] == c;
      assert s[..|t|][k] != t[k];
      assert c !in s[1..];
      MissingCharNotContained(s[1..], t, c);
    }
  }

  /** Java's `"" + o` for a String reference: a null renders as "null". */
  function JavaString(o: Option<string>): string {
    match o
    case Some(s) => s
    case None => "null"
  }

  /** Java's rendering of a boolean. */
  function BoolToString(b: bool): string {
    if b then "true" else "false"
  }

  function DigitChar(d: nat): char
    requires d < 10
  {
    "0123456789"[d]
  }

  predicate IsDigit(c: char) {
    '0' <= c <= '9'
  }

  /** Decimal rendering of a natural number, most significant digit first,
      without leading zeros. */
  function NatToString(n: nat): (s: string)
    ensures |s| >= 1
    ensures forall i :: 0 <= i < |s| ==> IsDigit(s[i])
    decreases n
  {
    if n < 10 then [DigitChar(n)] else NatToString(n / 10) + [DigitChar(n % 10)]
  }

  /** `String.valueOf(int)` in Java and `str(int)` in Python. */
  function IntToString(i: int): string {
    if i < 0 then "-" + NatToString(-i) else NatToString(i)
  }

  ghost function DigitValue(c: char): int {
    c as int - '0' as int
  }

  /** The number a string of decimal digits denotes. */
  ghost function DecimalValue(s: string): int
    decreases |s|
  {
    if s == [] then 0 else DecimalValue(s[..|s| - 1]) * 10 + DigitValue(s[|s| - 1])
  }

  /** Reading back the rendering of n gives n. */
  lemma {:induction false} NatToStringRoundTrip(n: nat)
    ensures DecimalValue(NatToString(n)) == n
    decreases n
  {
    var s := NatToString(n);
    if n >= 10 {
      NatToStringRoundTrip(n / 10);
      assert s[..|s| - 1] == NatToString(n / 10);
      assert s[|s| - 1] == DigitChar(n % 10);
    }
  }

  /** Distinct integers render as distinct strings, so a string-keyed count
      per integer (an HTTP status code, say) never merges two of them. */
  lemma IntToStringInjective(a: int, b: int)
    requires IntToString(a) == IntToString(b)
    ensures a == b
  {
    if a < 0 {
      NegativeRendering(a);
    } else {
      NonNegativeRendering(a);
    }
    if b < 0 {
      NegativeRendering(b);
    } else {
      NonNegativeRendering(b);
    }
  }

  /** A negative number renders as a sign followed by its magnitude. */
  lemma NegativeRendering(i: int)
    requires i < 0
    ensures |IntToString(i)| >= 1 && IntToString(i)[0] == '-'
    ensures DecimalValue(IntToString(i)[1..]) == -i
  {
    var n: nat := -i;
    var digits := NatToString(n);
    NatToStringRoundTrip(n);
    var s := IntToString(i);
    assert s == "-" + digits;
    assert s[1..] == digits;
  }

  /** A non-negative number renders as its digits, with no sign. */
  lemma NonNegativeRendering(i: int)
    requires i >= 0
    ensures |IntToString(i)| >= 1 && IntToString(i)[0] != '-'
    ensures DecimalValue(IntToString(i)) == i
  {
    assert IsDigit(NatToString(i)[0]);
    NatToStringRoundTrip(i);
  }
}

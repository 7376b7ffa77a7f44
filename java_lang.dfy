/**
 * The parts of Java's semantics the model depends on: `null` as an option,
 * 32-bit `int` arithmetic, the `(int)` cast of a `double` quotient, and the
 * `String` methods `equalsIgnoreCase` and `hashCode`.
 */
module JavaLang {

  /** A reference or value that may be `null`. */
  datatype Option<+T> = None | Some(value: T)

  const INT_MIN: int := -0x8000_0000
  const INT_MAX: int := 0x7fff_ffff
  const TWO_TO_32: int := 0x1_0000_0000

  /** True if `x` fits in a Java `int`. */
  predicate IsInt(x: int) {
    INT_MIN <= x <= INT_MAX
  }

  function Abs(x: int): nat {
    if x < 0 then -x else x
  }

  /**
   * The Java `int` that an exact integer result wraps around to: the unique
   * two's-complement value congruent to `x` modulo 2^32.
   */
  function WrapInt(x: int): (r: int)
    ensures IsInt(r)
    ensures (r - x) % TWO_TO_32 == 0
    ensures IsInt(x) ==> r == x
  {
    var m := x % TWO_TO_32;
    if m > INT_MAX then m - TWO_TO_32 else m
  }

  /** The quotient `n / d` rounded toward zero, as Java's `(int)` cast of a `double` rounds. */
  function TruncatedQuotient(n: int, d: int): (r: int)
    requires d != 0
    ensures Abs(r) * Abs(d) <= Abs(n) < (Abs(r) + 1) * Abs(d)
    ensures r > 0 ==> (n > 0) == (d > 0)
    ensures r < 0 ==> (n > 0) != (d > 0)
  {
    var a, b := Abs(n), Abs(d);
    var q := a / b;
    DivisionBounds(a, b);
    assert n == 0 ==> q == 0;
    assert q >= 0;
    var r := if (n < 0) == (d < 0) then q else -q;
    assert Abs(r) == q;
    r
  }

  lemma DivisionBounds(a: nat, b: nat)
    requires b > 0
    ensures (a / b) * b <= a < (a / b + 1) * b
    ensures a == 0 ==> a / b == 0
  {
    assert a == (a / b) * b + a % b;
  }

  /** The Java `int` closest to `x`: Java's narrowing of an out-of-range `double` saturates. */
  function ClampToInt(x: int): (r: int)
    ensures IsInt(r)
    ensures IsInt(x) ==> r == x
    ensures x > INT_MAX ==> r == INT_MAX
    ensures x < INT_MIN ==> r == INT_MIN
  {
    if x > INT_MAX then INT_MAX else if x < INT_MIN then INT_MIN else x
  }

  /**
   * `(int) ((double) n / (double) d)` for integers `n` and `d` that a `double`
   * represents exactly: a zero divisor gives an infinity (clamped to the `int`
   * range) or, for `0 / 0`, NaN (which becomes 0).
   */
  function IntOfQuotient(n: int, d: int): (r: int)
    ensures IsInt(r)
    ensures d == 0 && n > 0 ==> r == INT_MAX
    ensures d == 0 && n < 0 ==> r == INT_MIN
    ensures d == 0 && n == 0 ==> r == 0
    ensures d != 0 && IsInt(TruncatedQuotient(n, d)) ==> r == TruncatedQuotient(n, d)
    ensures d != 0 && TruncatedQuotient(n, d) > INT_MAX ==> r == INT_MAX
    ensures d != 0 && TruncatedQuotient(n, d) < INT_MIN ==> r == INT_MIN
  {
    if d == 0 then
      (if n > 0 then INT_MAX else if n < 0 then INT_MIN else 0)
    else
      ClampToInt(TruncatedQuotient(n, d))
  }

  // ---------------------------------------------------------------------------
  // String.equalsIgnoreCase, with the case mapping restricted to ASCII letters

  function ToUpperCase(c: char): char {
    if 'a' <= c <= 'z' then (c as int - 32) as char else c
  }

  function ToLowerCase(c: char): char {
    if 'A' <= c <= 'Z' then (c as int + 32) as char else c
  }

  /** The per-character test of `String.regionMatches(true, ...)`. */
  predicate CharsEqualIgnoreCase(c1: char, c2: char) {
    || c1 == c2
    || ToUpperCase(c1) == ToUpperCase(c2)
    || ToLowerCase(ToUpperCase(c1)) == ToLowerCase(ToUpperCase(c2))
  }

  /** `a.equalsIgnoreCase(b)` for a non-null `b`. */
  predicate EqualsIgnoreCase(a: string, b: string) {
    |a| == |b| && forall i :: 0 <= i < |a| ==> CharsEqualIgnoreCase(a[i], b[i])
  }

  function UpperCased(s: string): (r: string)
    ensures |r| == |s|
    ensures forall i :: 0 <= i < |s| ==> r[i] == ToUpperCase(s[i])
  {
    seq(|s|, i requires 0 <= i < |s| => ToUpperCase(s[i]))
  }

  /** `equalsIgnoreCase` holds exactly when the upper-cased strings are equal. */
  lemma EqualsIgnoreCaseIffUpperCasedEqual(a: string, b: string)
    ensures EqualsIgnoreCase(a, b) <==> UpperCased(a) == UpperCased(b)
  {
    if EqualsIgnoreCase(a, b) {
      forall i | 0 <= i < |a|
        ensures UpperCased(a)[i] == UpperCased(b)[i]
      {
        assert CharsEqualIgnoreCase(a[i], b[i]);
      }
    }
    if UpperCased(a) == UpperCased(b) {
      forall i | 0 <= i < |a|
        ensures CharsEqualIgnoreCase(a[i], b[i])
      {
        assert UpperCased(a)[i] == UpperCased(b)[i];
      }
    }
  }

  /** `equalsIgnoreCase` is an equivalence relation, so a case-insensitive lookup is well defined. */
  lemma EqualsIgnoreCaseIsEquivalence(a: string, b: string, c: string)
    ensures EqualsIgnoreCase(a, a)
    ensures EqualsIgnoreCase(a, b) ==> EqualsIgnoreCase(b, a)
    ensures EqualsIgnoreCase(a, b) && EqualsIgnoreCase(b, c) ==> EqualsIgnoreCase(a, c)
  {
    EqualsIgnoreCaseIffUpperCasedEqual(a, a);
    EqualsIgnoreCaseIffUpperCasedEqual(a, b);
    EqualsIgnoreCaseIffUpperCasedEqual(b, a);
    EqualsIgnoreCaseIffUpperCasedEqual(b, c);
    EqualsIgnoreCaseIffUpperCasedEqual(a, c);
  }

  // ---------------------------------------------------------------------------
  // String.hashCode

  function Pow31(n: nat): nat {
    if n == 0 then 1 else 31 * Pow31(n - 1)
  }

  /** The documented value of `String.hashCode` before wrap-around: the sum of `s[i] * 31^(n-1-i)`. */
  function HashPolynomial(s: string): int
    decreases |s|
  {
    if s == [] then 0 else s[0] as int * Pow31(|s| - 1) + HashPolynomial(s[1..])
  }

  /** `String.hashCode`, computed as Java does, `h = 31 * h + c` in `int` arithmetic. */
  function StringHashCode(s: string): (h: int)
    ensures IsInt(h)
    ensures (h - HashPolynomial(s)) % TWO_TO_32 == 0
    decreases |s|
  {
    if s == [] then 0
    else
      var prefix := s[..|s| - 1];
      var h := StringHashCode(prefix);
      HashStepPreservesCongruence(prefix, s[|s| - 1], h);
      assert prefix + [s[|s| - 1]] == s;
      WrapInt(31 * h + s[|s| - 1] as int)
  }

  lemma {:induction false} HashPolynomialAppend(s: string, c: char)
    ensures HashPolynomial(s + [c]) == 31 * HashPolynomial(s) + c as int
    decreases |s|
  {
    if s == [] {
      assert HashPolynomial([c]) == c as int * Pow31(0) + HashPolynomial([]);
    } else {
      var t := s + [c];
      assert t[1..] == s[1..] + [c];
      HashPolynomialAppend(s[1..], c);
      calc {
        HashPolynomial(t);
        t[0] as int * Pow31(|t| - 1) + HashPolynomial(t[1..]);
        s[0] as int * (31 * Pow31(|s| - 1)) + 31 * HashPolynomial(s[1..]) + c as int;
        { MulAssociates(s[0] as int, 31, Pow31(|s| - 1)); }
        31 * (s[0] as int * Pow31(|s| - 1) + HashPolynomial(s[1..])) + c as int;
        31 * HashPolynomial(s) + c as int;
      }
    }
  }

  lemma MulAssociates(a: int, b: int, c: int)
    ensures a * (b * c) == b * (a * c)
  {
  }

  lemma HashStepPreservesCongruence(prefix: string, c: char, h: int)
    requires (h - HashPolynomial(prefix)) % TWO_TO_32 == 0
    ensures (WrapInt(31 * h + c as int) - HashPolynomial(prefix + [c])) % TWO_TO_32 == 0
  {
    HashPolynomialAppend(prefix, c);
    var k := (h - HashPolynomial(prefix)) / TWO_TO_32;
    assert h - HashPolynomial(prefix) == TWO_TO_32 * k;
    var w := WrapInt(31 * h + c as int);
    var j := (w - (31 * h + c as int)) / TWO_TO_32;
    assert w - (31 * h + c as int) == TWO_TO_32 * j;
    assert w - HashPolynomial(prefix + [c]) == TWO_TO_32 * (j + 31 * k);
  }
}

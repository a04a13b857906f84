/**
 * The few JavaScript primitives the game's logic relies on, stated once:
 * IEEE special values that the source's divisions can produce, first-match
 * `String.prototype.replace` with a string pattern, ASCII `toLowerCase`,
 * number-to-decimal-string conversion and `Array.prototype.indexOf`.
 */
module Prelude {

  datatype Option<+T> = None | Some(value: T)

  /** A JavaScript number as the source's divisions can produce it. */
  datatype JsNumber = Finite(value: real) | PositiveInfinity | NegativeInfinity | NaN

  /** `a / b` on two integers, with JavaScript's results for a zero divisor. */
  function Divide(a: int, b: int): (r: JsNumber)
    ensures b != 0 ==> r.Finite? && r.value * b as real == a as real
    ensures b == 0 ==> (r.NaN? <==> a == 0)
    ensures b == 0 && a > 0 ==> r.PositiveInfinity?
    ensures b == 0 && a < 0 ==> r.NegativeInfinity?
  {
    if b != 0 then Finite(a as real / b as real)
    else if a > 0 then PositiveInfinity
    else if a < 0 then NegativeInfinity
    else NaN
  }

  /** `x >= k` for a JavaScript number and a finite bound: false on NaN. */
  predicate AtLeast(x: JsNumber, k: real)
  {
    match x
    case Finite(v) => v >= k
    case PositiveInfinity => true
    case NegativeInfinity => false
    case NaN => false
  }

  function Max(a: int, b: int): (m: int)
    ensures m >= a && m >= b && (m == a || m == b)
  {
    if a >= b then a else b
  }

  /** `Math.max` on the fractional scores; Dafny has no generic numeric type to share one definition with `Max`. */
  function MaxReal(a: real, b: real): (m: real)
    ensures m >= a && m >= b && (m == a || m == b)
  {
    if a >= b then a else b
  }

  /** Index of the first occurrence of `c` in `s`, if any. */
  function FirstIndex(s: string, c: char): (r: Option<nat>)
    ensures r.None? <==> c !in s
    ensures r.Some? ==> r.value < |s| && s[r.value] == c && c !in s[..r.value]
  {
    if |s| == 0 then None
    else if s[0] == c then Some(0)
    else match FirstIndex(s[1..], c)
      case None => None
      case Some(i) =>
        assert s[1..][..i] == s[1..i + 1];
        assert s[..i + 1] == [s[0]] + s[1..i + 1];
        Some(i + 1)
  }

  /** `s.replace(c, r)` with a one-character string pattern: only the first match is replaced. */
  function ReplaceFirst(s: string, c: char, r: string): (t: string)
    ensures c !in s ==> t == s
    ensures c in s ==> t == s[..FirstIndex(s, c).value] + r + s[FirstIndex(s, c).value + 1..]
    ensures |t| == if c in s then |s| - 1 + |r| else |s|
  {
    match FirstIndex(s, c)
    case None => s
    case Some(i) => s[..i] + r + s[i + 1..]
  }

  /** Searching past a prefix free of the pattern shifts the match by the prefix length. */
  lemma {:induction false} FirstIndexSkipsPrefix(u: string, v: string, c: char)
    requires c !in u
    ensures FirstIndex(u + v, c) == match FirstIndex(v, c) case None => None case Some(i) => Some(|u| + i)
  {
    if |u| > 0 {
      assert (u + v)[1..] == u[1..] + v;
      FirstIndexSkipsPrefix(u[1..], v, c);
    } else {
      assert u + v == v;
    }
  }

  /** Regrouping a concatenation of four strings. */
  lemma ConcatAssociative(a: string, b: string, c: string, d: string)
    ensures a + (b + c + d) == a + b + c + d
  {
  }

  /** Cutting u + v inside v around index i of v. */
  lemma SliceAroundInSuffix(u: string, v: string, i: nat)
    requires i < |v|
    ensures (u + v)[..|u| + i] == u + v[..i]
    ensures (u + v)[|u| + i + 1..] == v[i + 1..]
  {
  }

  /** Replacing in a prefix that does not contain the pattern leaves that prefix alone. */
  lemma ReplaceFirstSkipsPrefix(u: string, v: string, c: char, r: string)
    requires c !in u
    ensures ReplaceFirst(u + v, c, r) == u + ReplaceFirst(v, c, r)
  {
    FirstIndexSkipsPrefix(u, v, c);
    var w := u + v;
    match FirstIndex(v, c)
    case None =>
      assert ReplaceFirst(w, c, r) == w;
      assert ReplaceFirst(v, c, r) == v;
    case Some(i) =>
      var before, after := v[..i], v[i + 1..];
      assert ReplaceFirst(v, c, r) == before + r + after;
      assert ReplaceFirst(w, c, r) == w[..|u| + i] + r + w[|u| + i + 1..];
      SliceAroundInSuffix(u, v, i);
      ConcatAssociative(u, before, r, after);
  }

  /** A character other than the pattern, and absent from the replacement, is in the result exactly when it was in the input. */
  lemma ReplaceFirstKeepsOthers(s: string, c: char, r: string, d: char)
    requires d != c && d !in r
    ensures d in ReplaceFirst(s, c, r) <==> d in s
  {
    if c in s {
      var k := FirstIndex(s, c).value;
      assert s == s[..k] + [s[k]] + s[k + 1..];
      assert ReplaceFirst(s, c, r) == s[..k] + r + s[k + 1..];
    }
  }

  /** Replacing in a one-character string: the character itself, or the replacement when it matches. */
  lemma ReplaceFirstSingle(d: char, c: char, r: string)
    ensures ReplaceFirst([d], c, r) == if d == c then r else [d]
  {
    if d == c {
      assert FirstIndex([d], c) == Some(0);
    }
  }

  /** Replacing in a string whose only candidate is its last character. */
  lemma ReplaceFirstAtEnd(u: string, d: char, c: char, r: string)
    requires c !in u
    ensures ReplaceFirst(u + [d], c, r) == u + (if d == c then r else [d])
  {
    ReplaceFirstSkipsPrefix(u, [d], c, r);
    ReplaceFirstSingle(d, c, r);
  }

  function LowerChar(ch: char): (l: char)
    ensures 'A' <= ch <= 'Z' ==> 'a' <= l <= 'z' && l as int == ch as int + 32
    ensures !('A' <= ch <= 'Z') ==> l == ch
  {
    if 'A' <= ch <= 'Z' then (ch as int + 32) as char else ch
  }

  /** `s.toLowerCase()`, on the ASCII letters the game's pitch names use. */
  function ToLower(s: string): (t: string)
    ensures |t| == |s|
    ensures forall i :: 0 <= i < |s| ==> t[i] == LowerChar(s[i])
  {
    seq(|s|, i requires 0 <= i < |s| => LowerChar(s[i]))
  }

  /** Lower-casing distributes over concatenation. */
  lemma ToLowerAppend(u: string, v: string)
    ensures ToLower(u + v) == ToLower(u) + ToLower(v)
  {
    var w, l := u + v, ToLower(u) + ToLower(v);
    forall i | 0 <= i < |w|
      ensures ToLower(w)[i] == l[i]
    {
      if i < |u| {
        assert w[i] == u[i];
      } else {
        assert w[i] == v[i - |u|];
      }
    }
  }

  /** Lower-casing neither adds nor removes a character outside A..Z. */
  lemma ToLowerKeepsNonLetters(s: string, c: char)
    requires !('A' <= c <= 'Z') && !('a' <= c <= 'z')
    ensures c in ToLower(s) <==> c in s
  {
    var t := ToLower(s);
    if c in t {
      var i :| 0 <= i < |t| && t[i] == c;
      assert s[i] == c;
    }
    if c in s {
      var i :| 0 <= i < |s| && s[i] == c;
      assert t[i] == c;
    }
  }

  function DigitChar(d: nat): (c: char)
    requires d < 10
    ensures '0' <= c <= '9' && c as int - '0' as int == d
  {
    ('0' as int + d) as char
  }

  /** The decimal text JavaScript gives a non-negative integer. */
  function NatToString(n: nat): (s: string)
    ensures |s| > 0 && (|s| == 1 <==> n < 10)
    ensures forall i :: 0 <= i < |s| ==> '0' <= s[i] <= '9'
    decreases n
  {
    if n < 10 then [DigitChar(n)] else NatToString(n / 10) + [DigitChar(n % 10)]
  }

  /** Different numbers print differently: the last digit and the text before it determine the number. */
  lemma {:induction false} NatToStringInjective(n: nat, m: nat)
    requires NatToString(n) == NatToString(m)
    ensures n == m
    decreases n
  {
    var s := NatToString(n);
    if n >= 10 && m >= 10 {
      assert s == NatToString(n / 10) + [DigitChar(n % 10)];
      assert s == NatToString(m / 10) + [DigitChar(m % 10)];
      assert s[..|s| - 1] == NatToString(n / 10) && s[..|s| - 1] == NatToString(m / 10);
      NatToStringInjective(n / 10, m / 10);
      assert DigitChar(n % 10) == s[|s| - 1] == DigitChar(m % 10);
    } else if n < 10 && m < 10 {
      assert DigitChar(n) == s[0] == DigitChar(m);
    }
  }

  /** The decimal text JavaScript gives an integer (template literals, string concatenation). */
  function IntToString(n: int): (s: string)
    ensures |s| > 0
    ensures n >= 0 <==> s[0] != '-'
    ensures forall i :: 0 <= i < |s| ==> ('0' <= s[i] <= '9' || (i == 0 && s[i] == '-'))
  {
    if n < 0 then "-" + NatToString(-n) else NatToString(n)
  }

  /** The text of an integer gives the integer back: two integers print alike only when they are equal. */
  lemma IntToStringInjective(n: int, m: int)
    ensures IntToString(n) == IntToString(m) <==> n == m
  {
    if IntToString(n) == IntToString(m) {
      if n < 0 && m < 0 {
        assert IntToString(n)[1..] == NatToString(-n) && IntToString(m)[1..] == NatToString(-m);
        NatToStringInjective(-n, -m);
      } else if n >= 0 && m >= 0 {
        NatToStringInjective(n, m);
      }
    }
  }

  /** `parseInt` of a one-character string: a digit's value, NaN otherwise. */
  function ParseDigit(c: char): (d: Option<nat>)
    ensures d.Some? <==> '0' <= c <= '9'
    ensures d.Some? ==> d.value < 10 && DigitChar(d.value) == c
  {
    if '0' <= c <= '9' then Some(c as int - '0' as int) else None
  }

  /** `xs.indexOf(x)`: the first index holding `x`, or -1. */
  function IndexOf<T(==)>(xs: seq<T>, x: T): (k: int)
    ensures -1 <= k < |xs|
    ensures k == -1 <==> x !in xs
    ensures k >= 0 ==> xs[k] == x && x !in xs[..k]
  {
    if |xs| == 0 then -1
    else if xs[0] == x then 0
    else
      var k := IndexOf(xs[1..], x);
      if k == -1 then -1
      else
        assert xs[1..][..k] == xs[1..k + 1];
        assert xs[..k + 1] == [xs[0]] + xs[1..k + 1];
        k + 1
  }
}

/**
 * The handful of Python `str` operations the bot relies on: `strip`, `lstrip`, `lower`,
 * `startswith`, `in` (substring), `split()`, digit tests, and `str(int)`.
 */
module Text {

  /** Python's `str.isspace`: the characters `str.strip()` and `str.split()` treat as whitespace. */
  predicate IsSpace(c: char)
  {
    ('\t' <= c <= '\r') || ('\U{1c}' <= c <= '\U{1f}') || c == ' ' || c == '\U{85}' || c == '\U{a0}'
    || c == '\U{1680}' || ('\U{2000}' <= c <= '\U{200a}') || c == '\U{2028}' || c == '\U{2029}'
    || c == '\U{202f}' || c == '\U{205f}' || c == '\U{3000}'
  }

  predicate NoSpace(s: string)
  {
    forall i | 0 <= i < |s| :: !IsSpace(s[i])
  }

  /** `s.lstrip()`: drops leading whitespace and nothing else. */
  function StripLeft(s: string): (r: string)
    ensures |r| <= |s| && r == s[|s| - |r|..]
    ensures r == [] || !IsSpace(r[0])
    ensures forall i | 0 <= i < |s| - |r| :: IsSpace(s[i])
    decreases |s|
  {
    if s != [] && IsSpace(s[0]) then StripLeft(s[1..]) else s
  }

  /** `s.rstrip()`: drops trailing whitespace and nothing else. */
  function StripRight(s: string): (r: string)
    ensures |r| <= |s| && r == s[..|r|]
    ensures r == [] || !IsSpace(r[|r| - 1])
    ensures forall i | |r| <= i < |s| :: IsSpace(s[i])
    decreases |s|
  {
    if s != [] && IsSpace(s[|s| - 1]) then StripRight(s[..|s| - 1]) else s
  }

  /** `s.strip()`. */
  function Strip(s: string): (r: string)
    ensures |r| <= |s|
    ensures r == [] || (!IsSpace(r[0]) && !IsSpace(r[|r| - 1]))
    ensures NoSpace(s) ==> r == s
  {
    StripRight(StripLeft(s))
  }

  /**
   * `strip()` removes exactly the leading and the trailing whitespace: the result is the infix
   * of `s` that starts after the leading run of whitespace and is followed only by whitespace.
   */
  lemma {:induction false} StripTrims(s: string)
    ensures var a := |s| - |StripLeft(s)|;
      && a + |Strip(s)| <= |s| && Strip(s) == s[a..a + |Strip(s)|]
      && (forall i | 0 <= i < a :: IsSpace(s[i]))
      && (forall i | a + |Strip(s)| <= i < |s| :: IsSpace(s[i]))
  {
    var l := StripLeft(s);
    var r := StripRight(l);
    var a := |s| - |l|;
    assert l == s[a..];
    assert r == l[..|r|];
    forall i | a + |r| <= i < |s| ensures IsSpace(s[i]) {
      assert s[i] == l[i - a];
    }
  }

  /** `s.lstrip(c)` for a single character `c`: drops every leading copy of `c`. */
  function StripLeading(s: string, c: char): (r: string)
    ensures |r| <= |s| && r == s[|s| - |r|..]
    ensures r == [] || r[0] != c
    ensures forall i | 0 <= i < |s| - |r| :: s[i] == c
    decreases |s|
  {
    if s != [] && s[0] == c then StripLeading(s[1..], c) else s
  }

  /** `str.lower` on ASCII letters; every other character is left alone. */
  function LowerChar(c: char): char
  {
    if 'A' <= c <= 'Z' then (c as int + 32) as char else c
  }

  function Lower(s: string): (r: string)
    ensures |r| == |s| && forall i | 0 <= i < |s| :: r[i] == LowerChar(s[i])
  {
    seq(|s|, i requires 0 <= i < |s| => LowerChar(s[i]))
  }

  /** `str.upper` on ASCII letters. */
  function UpperChar(c: char): char
  {
    if 'a' <= c <= 'z' then (c as int - 32) as char else c
  }

  function Upper(s: string): (r: string)
    ensures |r| == |s| && forall i | 0 <= i < |s| :: r[i] == UpperChar(s[i])
  {
    seq(|s|, i requires 0 <= i < |s| => UpperChar(s[i]))
  }

  /** `s.startswith(p)`. */
  predicate StartsWith(s: string, p: string)
  {
    |p| <= |s| && s[..|p|] == p
  }

  /** `sub in s`. */
  predicate Contains(s: string, sub: string)
    decreases |s|
  {
    StartsWith(s, sub) || (s != [] && Contains(s[1..], sub))
  }

  /** Length of the leading run of non-whitespace characters. */
  function WordLength(t: string): (n: nat)
    ensures n <= |t| && NoSpace(t[..n]) && (n < |t| ==> IsSpace(t[n]))
    ensures t != [] && !IsSpace(t[0]) ==> n >= 1
  {
    if t == [] || IsSpace(t[0]) then 0 else 1 + WordLength(t[1..])
  }

  /** Every part is a non-empty word without whitespace. */
  predicate AllWords(parts: seq<string>)
  {
    forall i | 0 <= i < |parts| :: parts[i] != [] && NoSpace(parts[i])
  }

  /** `s.split()`: the maximal runs of non-whitespace characters, in order. */
  function Split(s: string): (parts: seq<string>)
    ensures AllWords(parts)
    decreases |s|
  {
    var t := StripLeft(s);
    if t == [] then []
    else
      var n := WordLength(t);
      var w := t[..n];
      var rest := Split(t[n..]);
      AllWordsCons(w, rest);
      [w] + rest
  }

  predicate AllSpace(s: string)
  {
    forall i | 0 <= i < |s| :: IsSpace(s[i])
  }

  /** `lstrip()` of whitespace followed by a text that does not start with whitespace is that text. */
  lemma {:induction false} StripLeftSpaces(sp: string, u: string)
    requires AllSpace(sp) && (u == [] || !IsSpace(u[0]))
    ensures StripLeft(sp + u) == u
    decreases |sp|
  {
    if sp == [] {
      assert sp + u == u;
    } else {
      assert (sp + u)[0] == sp[0];
      assert (sp + u)[1..] == sp[1..] + u;
      StripLeftSpaces(sp[1..], u);
    }
  }

  /** A word followed by nothing or by whitespace is one whole leading run. */
  lemma {:induction false} WordLengthOf(w: string, t: string)
    requires NoSpace(w) && (t == [] || IsSpace(t[0]))
    ensures WordLength(w + t) == |w|
    decreases |w|
  {
    if w == [] {
      assert w + t == t;
    } else {
      assert (w + t)[0] == w[0];
      assert (w + t)[1..] == w[1..] + t;
      WordLengthOf(w[1..], t);
    }
  }

  /** A text of whitespace only splits into no parts. */
  lemma {:induction false} SplitSpaces(sp: string)
    requires AllSpace(sp)
    ensures Split(sp) == []
  {
    StripLeftSpaces(sp, []);
    assert sp + [] == sp;
  }

  /**
   * `split()` skips leading whitespace, takes the maximal run of non-whitespace as the next
   * part, and goes on after it: with `SplitSpaces` this fixes every split.
   */
  lemma {:induction false} SplitWord(sp: string, w: string, t: string)
    requires AllSpace(sp) && w != [] && NoSpace(w) && (t == [] || IsSpace(t[0]))
    ensures Split(sp + w + t) == [w] + Split(t)
  {
    var s := sp + w + t;
    assert s == sp + (w + t);
    assert (w + t)[0] == w[0];
    StripLeftSpaces(sp, w + t);
    WordLengthOf(w, t);
    assert (w + t)[..|w|] == w && (w + t)[|w|..] == t;
  }

  lemma {:induction false} AllWordsCons(w: string, rest: seq<string>)
    requires w != [] && NoSpace(w) && AllWords(rest)
    ensures AllWords([w] + rest)
  {
    forall i | 0 <= i < |[w] + rest| ensures ([w] + rest)[i] != [] && NoSpace(([w] + rest)[i]) {
      if i > 0 { assert ([w] + rest)[i] == rest[i - 1]; }
    }
  }

  predicate IsDigit(c: char)
  {
    '0' <= c <= '9'
  }

  predicate AllDigits(s: string)
  {
    forall i | 0 <= i < |s| :: IsDigit(s[i])
  }

  /** The number a string of decimal digits denotes (0 for the empty string). */
  function DigitsValue(s: string): nat
    requires AllDigits(s)
  {
    if s == [] then 0 else 10 * DigitsValue(s[..|s| - 1]) + (s[|s| - 1] as int - '0' as int)
  }

  function Pow10(n: nat): (p: nat)
    ensures p >= 1
  {
    if n == 0 then 1 else 10 * Pow10(n - 1)
  }

  function DigitChar(d: nat): (c: char)
    requires d < 10
    ensures IsDigit(c) && c as int - '0' as int == d
  {
    ('0' as int + d) as char
  }

  /** `str(n)` for a natural number. */
  function NatToString(n: nat): (s: string)
    ensures s != [] && AllDigits(s)
  {
    if n < 10 then [DigitChar(n)] else NatToString(n / 10) + [DigitChar(n % 10)]
  }

  /** `str(i)` for any integer. */
  function IntToString(i: int): (s: string)
    ensures s != []
  {
    if i < 0 then "-" + NatToString(-i) else NatToString(i)
  }

  /** Reading back what `str` wrote gives the number again. */
  lemma {:induction false} NatToStringValue(n: nat)
    ensures DigitsValue(NatToString(n)) == n
  {
    if n >= 10 {
      NatToStringValue(n / 10);
      var s := NatToString(n);
      assert s[..|s| - 1] == NatToString(n / 10);
    }
  }
}

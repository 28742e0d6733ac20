/** Character classes and the small pieces of JavaScript text handling the
    server and the client rely on: `String.prototype.trim`, the regular
    expression classes `\s` and `\d`, and `parseInt(s, 10)`. */
module Text {
  import opened Common

  /** ECMAScript WhiteSpace and LineTerminator code points: the characters
      that `trim()` removes and that `\s` matches. */
  predicate IsSpace(c: char) {
    if c <= ' ' then c == ' ' || ('\t' <= c <= '\r')
    else '\U{A0}' <= c && IsWideSpace(c)
  }

  /** The white space characters from U+00A0 up. */
  predicate IsWideSpace(c: char) {
    || c == '\U{A0}' || c == '\U{1680}' || ('\U{2000}' <= c <= '\U{200A}')
    || c == '\U{2028}' || c == '\U{2029}' || c == '\U{202F}' || c == '\U{205F}'
    || c == '\U{3000}' || c == '\U{FEFF}'
  }

  /** The regular expression class `\d`. */
  predicate IsDigit(c: char) {
    '0' <= c <= '9'
  }

  predicate AllSpace(s: string) {
    forall i :: 0 <= i < |s| ==> IsSpace(s[i])
  }

  predicate AllDigits(s: string) {
    forall i :: 0 <= i < |s| ==> IsDigit(s[i])
  }

  /** The end of the run of white space that starts at `i`. */
  function SpaceEnd(s: string, i: nat): (j: nat)
    requires i <= |s|
    ensures i <= j <= |s|
    ensures forall k :: i <= k < j ==> IsSpace(s[k])
    ensures j == |s| || !IsSpace(s[j])
    decreases |s| - i
  {
    if i < |s| && IsSpace(s[i]) then SpaceEnd(s, i + 1) else i
  }

  /** The start of the run of white space that ends at `j`. */
  function SpaceStart(s: string, j: nat): (i: nat)
    requires j <= |s|
    ensures i <= j
    ensures forall k :: i <= k < j ==> IsSpace(s[k])
    ensures i == 0 || !IsSpace(s[i - 1])
  {
    if j > 0 && IsSpace(s[j - 1]) then SpaceStart(s, j - 1) else j
  }

  /** The end of the run of decimal digits that starts at `i`. */
  function DigitEnd(s: string, i: nat): (j: nat)
    requires i <= |s|
    ensures i <= j <= |s|
    ensures forall k :: i <= k < j ==> IsDigit(s[k])
    ensures j == |s| || !IsDigit(s[j])
    decreases |s| - i
  {
    if i < |s| && IsDigit(s[i]) then DigitEnd(s, i + 1) else i
  }

  /** The runs are fixed by where they stop: a run of white space from `i`
      to a character that is not, and so on. */
  lemma SpaceEndAt(s: string, i: nat, j: nat)
    requires i <= j <= |s| && (forall k :: i <= k < j ==> IsSpace(s[k]))
    requires j == |s| || !IsSpace(s[j])
    ensures SpaceEnd(s, i) == j
  {
  }

  lemma SpaceStartAt(s: string, i: nat, j: nat)
    requires i <= j <= |s| && (forall k :: i <= k < j ==> IsSpace(s[k]))
    requires i == 0 || !IsSpace(s[i - 1])
    ensures SpaceStart(s, j) == i
  {
  }

  lemma DigitEndAt(s: string, i: nat, j: nat)
    requires i <= j <= |s| && (forall k :: i <= k < j ==> IsDigit(s[k]))
    requires j == |s| || !IsDigit(s[j])
    ensures DigitEnd(s, i) == j
  {
  }

  /** Digits followed by a non-digit or the end, after any prefix, form
      the run that `DigitEnd` finds. */
  lemma DigitEndOf(p: string, d: string, rest: string)
    requires AllDigits(d) && (rest == [] || !IsDigit(rest[0]))
    ensures DigitEnd(p + d + rest, |p|) == |p| + |d|
  {
    var s := p + d + rest;
    forall k | |p| <= k < |p| + |d| ensures IsDigit(s[k]) { assert s[k] == d[k - |p|]; }
    if rest != [] { assert s[|p| + |d|] == rest[0]; }
    DigitEndAt(s, |p|, |p| + |d|);
  }

  /** `s.trim()`: the text between the leading and the trailing white space. */
  function Trim(s: string): (r: string)
    ensures r == [] || (!IsSpace(r[0]) && !IsSpace(r[|r| - 1]))
  {
    var a := SpaceEnd(s, 0);
    if a == |s| then [] else s[a..SpaceStart(s, |s|)]
  }

  /** Trimming removes exactly the white space added around a text that
      neither starts nor ends with white space. */
  lemma TrimPadded(p: string, t: string, q: string)
    requires AllSpace(p) && AllSpace(q)
    requires t == [] || (!IsSpace(t[0]) && !IsSpace(t[|t| - 1]))
    ensures Trim(p + t + q) == t
  {
    var s := p + t + q;
    var a := SpaceEnd(s, 0);
    if t == [] {
      assert forall k :: 0 <= k < |s| ==> IsSpace(s[k]) by {
        forall k | 0 <= k < |s| ensures IsSpace(s[k]) {
          if k < |p| { assert s[k] == p[k]; } else { assert s[k] == q[k - |p|]; }
        }
      }
    } else {
      assert s[|p|] == t[0];
      assert forall k :: 0 <= k < |p| ==> IsSpace(s[k]) by {
        forall k | 0 <= k < |p| ensures s[k] == p[k] { }
      }
      assert a == |p|;
      var e := |p| + |t|;
      assert s[e - 1] == t[|t| - 1];
      assert forall k :: e <= k < |s| ==> IsSpace(s[k]) by {
        forall k | e <= k < |s| ensures s[k] == q[k - e] { }
      }
      assert SpaceStart(s, |s|) == e;
      assert s[|p|..e] == t;
    }
  }

  /** Trimming only removes white space: the input is the result with white
      space around it. */
  lemma TrimShape(s: string)
    ensures exists p, q :: AllSpace(p) && AllSpace(q) && s == p + Trim(s) + q
  {
    var a := SpaceEnd(s, 0);
    if a == |s| {
      assert s == s + Trim(s) + [];
      assert AllSpace([]);
    } else {
      var b := SpaceStart(s, |s|);
      assert AllSpace(s[..a]) by {
        forall k | 0 <= k < a ensures s[..a][k] == s[k] { }
      }
      assert AllSpace(s[b..]) by {
        forall k | 0 <= k < |s| - b ensures s[b..][k] == s[b + k] { }
      }
      assert s == s[..a] + Trim(s) + s[b..];
    }
  }

  /** The value of a digit character. */
  function DigitValue(c: char): (v: nat)
    requires IsDigit(c)
    ensures v < 10
  {
    (c - '0') as nat
  }

  /** The digit character of a value below ten. */
  function DigitChar(v: nat): (c: char)
    requires v < 10
    ensures IsDigit(c) && DigitValue(c) == v
  {
    ('0' as int + v) as char
  }

  /** The number a string of decimal digits denotes. */
  function DigitsValue(d: string): nat
    requires AllDigits(d)
  {
    if d == [] then 0 else DigitsValue(d[..|d| - 1]) * 10 + DigitValue(d[|d| - 1])
  }

  /** The shortest decimal text of a natural number. */
  function NatText(m: nat): (d: string)
    ensures d != [] && AllDigits(d)
  {
    if m < 10 then [DigitChar(m)] else NatText(m / 10) + [DigitChar(m % 10)]
  }

  /** The decimal text of an integer, as JavaScript writes it. */
  function IntText(n: int): (t: string) {
    if n < 0 then "-" + NatText(-n) else NatText(n)
  }

  lemma {:induction false} NatTextValue(m: nat)
    ensures DigitsValue(NatText(m)) == m
  {
    if m >= 10 {
      var d := NatText(m);
      assert d[..|d| - 1] == NatText(m / 10);
      NatTextValue(m / 10);
    }
  }

  /** `parseInt(s, 10)`: leading white space, an optional sign, then as many
      decimal digits as there are; `None` stands for `NaN` (no digit). */
  function ParseInt10(s: string): Option<int> {
    var a := SpaceEnd(s, 0);
    var signed := a < |s| && (s[a] == '-' || s[a] == '+');
    var i := if signed then a + 1 else a;
    var j := DigitEnd(s, i);
    if j == i then None
    else
      var m: int := DigitsValue(s[i..j]);
      Some(if signed && s[a] == '-' then -m else m)
  }

  /** A digit string that runs to the end of the text is read whole. */
  lemma DigitsToEnd(s: string, i: nat, d: string)
    requires i <= |s| && s[i..] == d && AllDigits(d)
    ensures DigitEnd(s, i) == |s| && s[i..|s|] == d
  {
    assert forall k :: i <= k < |s| ==> IsDigit(s[k]) by {
      forall k | i <= k < |s| ensures s[k] == d[k - i] { }
    }
  }

  /** `parseInt` reads a digit string, with or without a minus sign
      before it, as the number it spells. */
  lemma ParseSignedDigits(s: string, negative: bool, d: string)
    requires d != [] && AllDigits(d)
    requires s == (if negative then "-" else "") + d
    ensures ParseInt10(s) == Some(if negative then -(DigitsValue(d) as int) else DigitsValue(d))
  {
    var i := if negative then 1 else 0;
    if negative { assert s[0] == '-'; } else { assert s == d; }
    assert s[i..] == d;
    assert s[i] == d[0];
    assert SpaceEnd(s, 0) == 0;
    DigitsToEnd(s, i, d);
    var signed := 0 < |s| && (s[0] == '-' || s[0] == '+');
    assert signed == negative;
    assert DigitsValue(s[i..DigitEnd(s, i)]) == DigitsValue(d);
  }

  /** `parseInt(String(n), 10) === n` for every integer. */
  lemma ParseIntText(n: int)
    ensures ParseInt10(IntText(n)) == Some(n)
  {
    var m := if n < 0 then -n else n;
    NatTextValue(m);
    ParseSignedDigits(IntText(n), n < 0, NatText(m));
  }
}

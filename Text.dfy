/** The pieces of JavaScript's string library that the widgets rely on:
    `String(n)` for an integer `n`, `padStart`, the truncating `%`
    operator, and `String.prototype.trim`.  Each is given together with a
    partner (a parser that undoes it, or a characterisation of its result)
    so that the widgets' display code can be reasoned about. */
module Text {

  datatype Option<+T> = None | Some(value: T)

  predicate IsDigit(c: char) { '0' <= c <= '9' }

  predicate AllDigits(s: string) { forall i :: 0 <= i < |s| ==> IsDigit(s[i]) }

  function DigitValue(c: char): (d: nat)
    requires IsDigit(c)
    ensures d < 10
  {
    (c as int) - ('0' as int)
  }

  function DigitChar(d: nat): (c: char)
    requires d < 10
    ensures IsDigit(c) && DigitValue(c) == d
  {
    (('0' as int) + d) as char
  }

  /** `String(n)` for a non-negative integer: its decimal digits, most
      significant first, with no leading zero unless `n` is 0. */
  function NatToString(n: nat): (r: string)
    ensures |r| >= 1 && AllDigits(r)
    ensures |r| == 1 <==> n < 10
    ensures |r| > 1 ==> r[0] != '0'
    decreases n
  {
    if n < 10 then [DigitChar(n)] else NatToString(n / 10) + [DigitChar(n % 10)]
  }

  /** The value of a string of decimal digits (the inverse of NatToString). */
  function ParseNat(s: string): nat
    requires AllDigits(s)
  {
    if s == [] then 0 else ParseNat(s[..|s| - 1]) * 10 + DigitValue(s[|s| - 1])
  }

  lemma {:induction false} ParseNatToString(n: nat)
    ensures ParseNat(NatToString(n)) == n
  {
    if n >= 10 {
      var s := NatToString(n);
      assert s[..|s| - 1] == NatToString(n / 10);
      ParseNatToString(n / 10);
    }
  }

  /** `String(i)` for any integer: a minus sign before the digits of a
      negative number; the digits never start with a redundant zero. */
  function IntToString(i: int): (r: string)
    ensures i >= 0 ==> |r| >= 1 && AllDigits(r) && ParseNat(r) == i && (|r| > 1 ==> r[0] != '0')
    ensures i < 0 ==> |r| >= 2 && r[0] == '-' && AllDigits(r[1..]) && ParseNat(r[1..]) == -i
                      && (|r| > 2 ==> r[1] != '0')
  {
    ParseNatToString(if i < 0 then -i else i);
    if i < 0 then "-" + NatToString(-i) else NatToString(i)
  }

  /** `String(i)` has no `/` in it. */
  lemma NoSlashInNumber(i: int)
    ensures '/' !in IntToString(i)
  {
    var s := IntToString(i);
    if i < 0 {
      assert s == [s[0]] + s[1..];
      assert forall k :: 0 <= k < |s| - 1 ==> IsDigit(s[1..][k]);
    }
  }

  /** `String(i)` determines `i`. */
  lemma IntToStringInjective(i: int, j: int)
    requires IntToString(i) == IntToString(j)
    ensures i == j
  {
  }

  /** `s.padStart(width, fill)` for a one-character fill string: `fill`
      repeated in front of `s` until the result is `width` long; a string
      already that long is returned unchanged. */
  function PadStart(s: string, width: nat, fill: char): (r: string)
    ensures |r| == if |s| >= width then |s| else width
    ensures r[|r| - |s|..] == s
    ensures forall i :: 0 <= i < |r| - |s| ==> r[i] == fill
  {
    if |s| >= width then s else seq(width - |s|, _ => fill) + s
  }

  /** The two-character, zero-padded form of a number below 100
      (`String(k).padStart(2, "0")`), and its value read back. */
  lemma TwoDigits(k: nat)
    requires k < 100
    ensures |PadStart(NatToString(k), 2, '0')| == 2
    ensures AllDigits(PadStart(NatToString(k), 2, '0'))
    ensures ParseNat(PadStart(NatToString(k), 2, '0')) == k
  {
    var d := NatToString(k);
    var p := PadStart(d, 2, '0');
    ParseNatToString(k);
    if k < 10 {
      assert p == ['0'] + d;
      assert p[..1] == ['0'];
      assert ParseNat(p[..1]) == ParseNat([]) * 10 + 0;
    } else {
      assert p == d;
    }
  }

  /** Digits with no redundant leading zero are the `String()` of their
      value. */
  lemma {:induction false} CanonicalDigits(a: string)
    requires |a| >= 1 && AllDigits(a) && (|a| > 1 ==> a[0] != '0')
    ensures NatToString(ParseNat(a)) == a
  {
    var d := DigitValue(a[|a| - 1]);
    if |a| == 1 {
      assert ParseNat(a) == ParseNat([]) * 10 + d;
    } else {
      var p := a[..|a| - 1];
      CanonicalDigits(p);
      LeadingDigitPositive(p);
      var q := ParseNat(p);
      var n := q * 10 + d;
      assert n / 10 == q && n % 10 == d;
      assert a == p + [a[|a| - 1]];
    }
  }

  /** Digits that start with a non-zero digit have a positive value. */
  lemma {:induction false} LeadingDigitPositive(a: string)
    requires |a| >= 1 && AllDigits(a) && a[0] != '0'
    ensures ParseNat(a) >= 1
  {
    if |a| > 1 {
      LeadingDigitPositive(a[..|a| - 1]);
    }
  }

  /** Two digits are the two-character padded form of their value. */
  lemma TwoDigitsUnique(b: string)
    requires |b| == 2 && AllDigits(b)
    ensures PadStart(NatToString(ParseNat(b)), 2, '0') == b
  {
    if b[0] == '0' {
      var c := b[1..];
      assert ParseNat(b[..1]) == 0;
      assert ParseNat(c) == DigitValue(b[1]) == ParseNat(b);
      CanonicalDigits(c);
      assert PadStart(c, 2, '0') == ['0'] + c == b;
    } else {
      CanonicalDigits(b);
    }
  }

  /** JavaScript's `a / b` truncated toward zero (`Math.trunc(a / b)`). */
  function JsQuot(a: int, b: int): int
    requires b > 0
  {
    if a >= 0 then a / b else -((-a) / b)
  }

  /** JavaScript's `a % b` on integers: the remainder left by the division
      truncated toward zero, which takes the sign of `a` (Dafny's own `%`
      never returns a negative remainder). */
  function JsRem(a: int, b: int): (r: int)
    requires b > 0
    ensures a == JsQuot(a, b) * b + r
    ensures a >= 0 ==> 0 <= r < b
    ensures a < 0 ==> -b < r <= 0
  {
    if a >= 0 then a % b else -((-a) % b)
  }

  /** The characters `String.prototype.trim` removes: ECMAScript's
      WhiteSpace (tab, vertical tab, form feed, space, no-break space, the
      byte-order mark and the Unicode space separators) and
      LineTerminator (line feed, carriage return, line and paragraph
      separators). */
  predicate IsJsWhitespace(c: char) {
    c == '\t' || c == '\n' || c == '\U{000B}' || c == '\U{000C}' || c == '\r' || c == ' '
    || c == '\U{00A0}' || c == '\U{1680}' || ('\U{2000}' <= c <= '\U{200A}')
    || c == '\U{2028}' || c == '\U{2029}' || c == '\U{202F}' || c == '\U{205F}'
    || c == '\U{3000}' || c == '\U{FEFF}'
  }

  predicate AllWhitespace(s: string) { forall i :: 0 <= i < |s| ==> IsJsWhitespace(s[i]) }

  /** `s` without its leading whitespace: a suffix of `s`, everything cut
      off is whitespace, and what is left does not start with whitespace. */
  function TrimStart(s: string): (r: string)
    ensures |r| <= |s| && r == s[|s| - |r|..]
    ensures AllWhitespace(s[..|s| - |r|])
    ensures r != [] ==> !IsJsWhitespace(r[0])
  {
    if s != [] && IsJsWhitespace(s[0]) then TrimStart(s[1..]) else s
  }

  /** `s` without its trailing whitespace: a prefix of `s`, everything cut
      off is whitespace, and what is left does not end with whitespace. */
  function TrimEnd(s: string): (r: string)
    ensures |r| <= |s| && r == s[..|r|]
    ensures AllWhitespace(s[|r|..])
    ensures r != [] ==> !IsJsWhitespace(r[|r| - 1])
  {
    if s != [] && IsJsWhitespace(s[|s| - 1]) then TrimEnd(s[..|s| - 1]) else s
  }

  /** `s.trim()`: whitespace cut off both ends (TrimmedMiddle says what is
      left is a slice of `s` with only whitespace around it). */
  function Trim(s: string): (r: string)
    ensures |r| <= |s|
    ensures r != [] ==> !IsJsWhitespace(r[0]) && !IsJsWhitespace(r[|r| - 1])
  {
    var t := TrimStart(s);
    var u := TrimEnd(t);
    TrimmedMiddle(s, t, u);
    u
  }

  /** Cutting whitespace off the front of `s` (giving `t`) and then off the
      back of `t` (giving `u`) leaves a slice of `s` with whitespace on
      either side of it and none at its ends. */
  lemma TrimmedMiddle(s: string, t: string, u: string)
    requires |t| <= |s| && t == s[|s| - |t|..] && AllWhitespace(s[..|s| - |t|])
    requires t != [] ==> !IsJsWhitespace(t[0])
    requires |u| <= |t| && u == t[..|u|] && AllWhitespace(t[|u|..])
    requires u != [] ==> !IsJsWhitespace(u[|u| - 1])
    ensures var k := |s| - |t|;
            k + |u| <= |s| && u == s[k..k + |u|]
            && AllWhitespace(s[..k]) && AllWhitespace(s[k + |u|..])
    ensures u != [] ==> !IsJsWhitespace(u[0]) && !IsJsWhitespace(u[|u| - 1])
  {
    var k := |s| - |t|;
    assert s[k + |u|..] == t[|u|..];
    if u != [] {
      assert u[0] == t[0];
    }
  }

  /** `s.trim()` is the empty string exactly when `s` consists of
      whitespace only. */
  lemma TrimEmptyIffBlank(s: string)
    ensures Trim(s) == [] <==> AllWhitespace(s)
  {
    var t := TrimStart(s);
    var u := TrimEnd(t);
    if t == [] {
      assert s[..|s|] == s;
    } else {
      assert t[0] == s[|s| - |t|];
    }
  }
}

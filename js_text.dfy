/**
 * The few JavaScript string operations the bot relies on, with their
 * ECMAScript meaning: `trim`, `toLowerCase` (on the characters that matter
 * here), `startsWith`, `includes`, `replace(/\D/g, '')` and `parseInt`
 * without a radix.
 */
module JsText {
  import opened Wrappers

  /** The WhiteSpace and LineTerminator code points that `String.prototype.trim` removes. */
  predicate IsJsWhiteSpace(c: char) {
    var n := c as int;
    n == 0x09 || n == 0x0A || n == 0x0B || n == 0x0C || n == 0x0D || n == 0x20
    || n == 0xA0 || n == 0x1680 || (0x2000 <= n <= 0x200A) || n == 0x2028 || n == 0x2029
    || n == 0x202F || n == 0x205F || n == 0x3000 || n == 0xFEFF
  }

  /** Drops leading white space: the result is the longest suffix that does not start with it. */
  function TrimStart(s: string): (r: string)
    ensures |r| <= |s| && r == s[|s| - |r|..]
    ensures r == [] || !IsJsWhiteSpace(r[0])
    ensures forall i :: 0 <= i < |s| - |r| ==> IsJsWhiteSpace(s[i])
  {
    if |s| > 0 && IsJsWhiteSpace(s[0]) then TrimStart(s[1..]) else s
  }

  /** Drops trailing white space: the result is the longest prefix that does not end with it. */
  function TrimEnd(s: string): (r: string)
    ensures |r| <= |s| && r == s[..|r|]
    ensures r == [] || !IsJsWhiteSpace(r[|r| - 1])
    ensures forall i :: |r| <= i < |s| ==> IsJsWhiteSpace(s[i])
  {
    if |s| > 0 && IsJsWhiteSpace(s[|s| - 1]) then TrimEnd(s[..|s| - 1]) else s
  }

  /** `s.trim()`. */
  function Trim(s: string): (r: string)
    ensures |r| <= |s|
    ensures r == [] || (!IsJsWhiteSpace(r[0]) && !IsJsWhiteSpace(r[|r| - 1]))
    ensures exists i :: TrimmedAt(s, r, i)
  {
    TrimBothEnds(s);
    TrimEnd(TrimStart(s))
  }

  lemma TrimBothEnds(s: string)
    ensures TrimmedAt(s, TrimEnd(TrimStart(s)), |s| - |TrimStart(s)|)
  {
    TrimmedWithin(s, TrimStart(s), TrimEnd(TrimStart(s)));
  }

  /** A prefix `r` of a suffix `t` of `s`, with white space dropped around it, sits in `s` at the suffix's start. */
  lemma TrimmedWithin(s: string, t: string, r: string)
    requires |t| <= |s| && t == s[|s| - |t|..]
    requires forall k :: 0 <= k < |s| - |t| ==> IsJsWhiteSpace(s[k])
    requires |r| <= |t| && r == t[..|r|]
    requires forall k :: |r| <= k < |t| ==> IsJsWhiteSpace(t[k])
    ensures TrimmedAt(s, r, |s| - |t|)
  {
    var i := |s| - |t|;
    assert r == s[i..i + |r|];
    forall k | i + |r| <= k < |s|
      ensures IsJsWhiteSpace(s[k])
    {
      assert s[k] == t[k - i];
    }
  }

  /** `r` is the part of `s` from index `i` on, with only white space around it. */
  predicate TrimmedAt(s: string, r: string, i: int) {
    && 0 <= i <= |s| - |r| && r == s[i..i + |r|]
    && (forall k :: 0 <= k < i ==> IsJsWhiteSpace(s[k]))
    && (forall k :: i + |r| <= k < |s| ==> IsJsWhiteSpace(s[k]))
  }

  /** Trimming a string that has no white space at either end leaves it as it is. */
  lemma TrimNoop(s: string)
    requires s == [] || (!IsJsWhiteSpace(s[0]) && !IsJsWhiteSpace(s[|s| - 1]))
    ensures Trim(s) == s
  {
  }

  /** Trimming twice is trimming once. */
  lemma TrimIdempotent(s: string)
    ensures Trim(Trim(s)) == Trim(s)
  {
    TrimNoop(Trim(s));
  }

  /** Lower-cases one character (ASCII letters; every other character is kept). */
  function LowerChar(c: char): char {
    if 'A' <= c <= 'Z' then (c as int + 32) as char else c
  }

  /** `s.toLowerCase()` restricted to ASCII letters: same length, lowered position by position. */
  function ToLower(s: string): (r: string)
    ensures |r| == |s|
    ensures forall i :: 0 <= i < |s| ==> r[i] == LowerChar(s[i])
  {
    if s == [] then [] else [LowerChar(s[0])] + ToLower(s[1..])
  }

  /** `s.startsWith(p)`. */
  predicate StartsWith(s: string, p: string) {
    |p| <= |s| && s[..|p|] == p
  }

  /** `s.includes(p)`: `p` occurs somewhere in `s`. */
  predicate Includes(s: string, p: string)
    decreases |s|
  {
    StartsWith(s, p) || (|s| > 0 && Includes(s[1..], p))
  }

  /** `p` occurs in `s` starting at position `i`. */
  predicate OccursAt(s: string, p: string, i: int) {
    0 <= i <= |s| - |p| && s[i..i + |p|] == p
  }

  /** `Includes` holds exactly when `p` occurs at some position of `s`. */
  lemma {:induction false} IncludesAt(s: string, p: string)
    ensures Includes(s, p) <==> exists i :: OccursAt(s, p, i)
    decreases |s|
  {
    if StartsWith(s, p) {
      assert OccursAt(s, p, 0);
    } else if |s| > 0 {
      IncludesAt(s[1..], p);
      if exists i :: OccursAt(s, p, i) {
        var i :| OccursAt(s, p, i);
        assert i != 0;
        assert s[1..][i - 1..i - 1 + |p|] == s[i..i + |p|];
        assert OccursAt(s[1..], p, i - 1);
      }
      if exists i :: OccursAt(s[1..], p, i) {
        var i :| OccursAt(s[1..], p, i);
        assert s[i + 1..i + 1 + |p|] == s[1..][i..i + |p|];
        assert OccursAt(s, p, i + 1);
      }
    } else {
      assert forall i :: !OccursAt(s, p, i);
    }
  }

  /** The class `\d` of a JavaScript regular expression without the `u` flag. */
  predicate IsDigit(c: char) {
    '0' <= c <= '9'
  }

  predicate AllDigits(s: string) {
    forall i :: 0 <= i < |s| ==> IsDigit(s[i])
  }

  /** `s.replace(/\D/g, '')`: keeps the decimal digits of `s`, in order. */
  function StripNonDigits(s: string): (r: string)
    ensures AllDigits(r)
    ensures |r| <= |s|
  {
    if s == [] then []
    else if IsDigit(s[0]) then [s[0]] + StripNonDigits(s[1..])
    else StripNonDigits(s[1..])
  }

  /** Stripping distributes over concatenation. */
  lemma {:induction false} StripNonDigitsAppend(a: string, b: string)
    ensures StripNonDigits(a + b) == StripNonDigits(a) + StripNonDigits(b)
  {
    if a == [] {
      assert a + b == b;
    } else {
      assert (a + b)[1..] == a[1..] + b;
      StripNonDigitsAppend(a[1..], b);
    }
  }

  /** A string of digits is left as it is, so stripping is idempotent. */
  lemma {:induction false} StripNonDigitsOfDigits(s: string)
    requires AllDigits(s)
    ensures StripNonDigits(s) == s
  {
    if s != [] {
      StripNonDigitsOfDigits(s[1..]);
    }
  }

  /** Nothing but the digits survives: stripping a string with no digit leaves nothing. */
  lemma {:induction false} StripNonDigitsNoDigits(s: string)
    requires forall i :: 0 <= i < |s| ==> !IsDigit(s[i])
    ensures StripNonDigits(s) == []
  {
    if s != [] {
      StripNonDigitsNoDigits(s[1..]);
    }
  }

  // ---- parseInt ----

  /** The value of `c` as a digit of radix up to 36, or 36 when it is no such digit. */
  function DigitValue(c: char): (d: nat)
    ensures d <= 36
    ensures d < 10 <==> IsDigit(c)
  {
    if '0' <= c <= '9' then c as int - '0' as int
    else if 'a' <= c <= 'z' then c as int - 'a' as int + 10
    else if 'A' <= c <= 'Z' then c as int - 'A' as int + 10
    else 36
  }

  /** Length of the longest prefix of `s` made of digits of `radix`. */
  function DigitPrefixLength(s: string, radix: nat): (n: nat)
    ensures n <= |s|
    ensures forall i :: 0 <= i < n ==> DigitValue(s[i]) < radix
    ensures n < |s| ==> DigitValue(s[n]) >= radix
  {
    if |s| > 0 && DigitValue(s[0]) < radix then 1 + DigitPrefixLength(s[1..], radix) else 0
  }

  /** The number a string of radix digits denotes, most significant digit first. */
  function DigitsValue(z: string, radix: nat): nat {
    if z == [] then 0 else DigitsValue(z[..|z| - 1], radix) * radix + DigitValue(z[|z| - 1])
  }

  /**
   * The digits part of `parseInt`: a `0x`/`0X` prefix selects radix 16 (radix
   * 10 otherwise), and the longest run of digits of that radix that follows is
   * the number; no digit at all is NaN (`None`).
   */
  function ParseUnsigned(u: string): Option<nat> {
    var hex := |u| >= 2 && u[0] == '0' && (u[1] == 'x' || u[1] == 'X');
    var radix := if hex then 16 else 10;
    var v := if hex then u[2..] else u;
    var z := v[..DigitPrefixLength(v, radix)];
    if z == [] then None else Some(DigitsValue(z, radix))
  }

  /**
   * `parseInt(s)` with no radix, as ECMAScript defines it: leading white
   * space is skipped and one `-` or `+` is read before the digits part.
   * JavaScript's `-0` is represented by 0, and digit strings too long for a
   * double are not rounded.
   */
  function ParseInt(s: string): Option<int> {
    var t := TrimStart(s);
    var sign := if |t| > 0 && t[0] == '-' then -1 else 1;
    var u := if |t| > 0 && (t[0] == '-' || t[0] == '+') then t[1..] else t;
    match ParseUnsigned(u)
    case None => None
    case Some(n) => Some(sign * n)
  }

  /** The decimal rendering of a natural number, as template literals print it. */
  function DecimalString(n: nat): (r: string)
    ensures |r| > 0 && AllDigits(r)
    ensures r[0] == '0' ==> n == 0
  {
    if n < 10 then [('0' as int + n) as char]
    else DecimalString(n / 10) + [('0' as int + n % 10) as char]
  }

  lemma {:induction false} DecimalStringValue(n: nat)
    ensures DigitsValue(DecimalString(n), 10) == n
  {
    var d := DecimalString(n);
    if n < 10 {
      assert d[..|d| - 1] == [];
    } else {
      assert d[..|d| - 1] == DecimalString(n / 10);
      DecimalStringValue(n / 10);
    }
  }

  /** The digits part reads back a decimal number followed by anything that is not a digit. */
  lemma ParseUnsignedDecimal(n: nat, rest: string)
    requires rest == [] || (!IsDigit(rest[0]) && (n == 0 ==> rest[0] != 'x' && rest[0] != 'X'))
    ensures ParseUnsigned(DecimalString(n) + rest) == Some(n)
  {
    var d := DecimalString(n);
    var s := d + rest;
    assert s[..|d|] == d;
    assert DigitPrefixLength(s, 10) == |d|;
    DecimalStringValue(n);
    if |d| >= 2 {
      assert s[0] == d[0] != '0';
    } else if |s| >= 2 {
      assert s[1] == rest[0];
    }
  }

  /** Nothing is skipped before a character that is not white space. */
  lemma TrimStartNoop(s: string)
    requires s == [] || !IsJsWhiteSpace(s[0])
    ensures TrimStart(s) == s
  {
  }

  /** A leading `-` is read once, before the digits part, and negates it. */
  lemma ParseIntMinus(u: string, v: nat)
    requires ParseUnsigned(u) == Some(v)
    ensures ParseInt("-" + u) == Some(-(v as int))
  {
    var t := "-" + u;
    TrimStartNoop(t);
    assert t[0] == '-';
    assert t[1..] == u;
  }

  /** A leading `+` is read once, before the digits part. */
  lemma ParseIntPlus(u: string, v: nat)
    requires ParseUnsigned(u) == Some(v)
    ensures ParseInt("+" + u) == Some(v)
  {
    var t := "+" + u;
    TrimStartNoop(t);
    assert t[0] == '+' && t[0] != '-';
    assert t[1..] == u;
  }

  /** Without a sign, `parseInt` is its digits part. */
  lemma ParseIntUnsigned(u: string)
    requires u == [] || (!IsJsWhiteSpace(u[0]) && u[0] != '-' && u[0] != '+')
    ensures ParseInt(u) == match ParseUnsigned(u)
                           case None => None
                           case Some(n) => Some(n)
  {
    TrimStartNoop(u);
  }

  /**
   * `parseInt` reads back a decimal number, signed or not, whatever follows it,
   * provided what follows does not begin with a digit (nor, after "0", with
   * the `x` of a hex prefix).
   */
  lemma ParseIntDecimal(n: nat, rest: string)
    requires rest == [] || (!IsDigit(rest[0]) && (n == 0 ==> rest[0] != 'x' && rest[0] != 'X'))
    ensures ParseInt(DecimalString(n) + rest) == Some(n)
    ensures ParseInt("-" + (DecimalString(n) + rest)) == Some(-(n as int))
    ensures ParseInt("+" + (DecimalString(n) + rest)) == Some(n)
  {
    var s := DecimalString(n) + rest;
    ParseUnsignedDecimal(n, rest);
    assert IsDigit(s[0]);
    ParseIntUnsigned(s);
    ParseIntMinus(s, n);
    ParseIntPlus(s, n);
  }

  /** `parseInt` also reads hexadecimal: "0x100" is 256. */
  lemma ParseIntHexExample()
    ensures ParseInt("0x100") == Some(256)
  {
    ParseIntUnsigned("0x100");
    Hex100();
  }

  lemma Hex100()
    ensures ParseUnsigned("0x100") == Some(256)
  {
    assert "0x100"[2..] == "100";
    assert DigitPrefixLength("100", 16) == 3;
    assert "100"[..3] == "100";
    assert "100"[..2] == "10" && "10"[..1] == "1" && "1"[..0] == "";
    assert DigitsValue("100", 16) == 256;
  }
}

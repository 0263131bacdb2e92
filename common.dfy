/**
 * Shared vocabulary of the model: optional values, ASCII string helpers,
 * left folds over sequences, first-appearance grouping (the iteration order
 * of a Python `defaultdict`) and a stable descending sort (Python's
 * `list.sort(key=..., reverse=True)`).
 */
module Common {

  datatype Option<T> = None | Some(value: T)

  // ---------------------------------------------------------------- strings

  function LowerChar(c: char): char
  {
    if 'A' <= c <= 'Z' then (c as int + 32) as char else c
  }

  function UpperChar(c: char): char
  {
    if 'a' <= c <= 'z' then (c as int - 32) as char else c
  }

  /** `str.lower()` restricted to ASCII letters. */
  function Lower(s: string): string
  {
    seq(|s|, i requires 0 <= i < |s| => LowerChar(s[i]))
  }

  /** `str.upper()` restricted to ASCII letters. */
  function Upper(s: string): string
  {
    seq(|s|, i requires 0 <= i < |s| => UpperChar(s[i]))
  }

  lemma LowerOfUpper(s: string)
    ensures Lower(Upper(s)) == Lower(s)
  {
    assert forall i :: 0 <= i < |s| ==> LowerChar(UpperChar(s[i])) == LowerChar(s[i]);
  }

  lemma LowerTwice(s: string)
    ensures Lower(Lower(s)) == Lower(s)
  {
  }

  predicate StartsWith(s: string, prefix: string)
  {
    |prefix| <= |s| && s[..|prefix|] == prefix
  }

  predicate EndsWith(s: string, suffix: string)
  {
    |suffix| <= |s| && s[|s| - |suffix|..] == suffix
  }

  /** Python's `sub in s` for strings. */
  predicate Contains(s: string, sub: string)
    decreases |s|
  {
    StartsWith(s, sub) || (|s| > 0 && Contains(s[1..], sub))
  }

  /** Python's `any(sub in s for sub in subs)`. */
  predicate ContainsAny(s: string, subs: seq<string>)
  {
    exists i :: 0 <= i < |subs| && Contains(s, subs[i])
  }

  /**
   * The `for sub in subs: if sub in s: return ...` scan, front to back; it
   * answers the `any(...)` question.
   */
  function ScanContains(s: string, subs: seq<string>): (r: bool)
    ensures r <==> ContainsAny(s, subs)
  {
    if subs == [] then false
    else if Contains(s, subs[0]) then true
    else
      var r := ScanContains(s, subs[1..]);
      assert forall i :: 1 <= i < |subs| ==> subs[i] == subs[1..][i - 1];
      r
  }

  /** `str.isspace()` for one character: the characters `str.strip()` removes and `\s` matches. */
  predicate IsSpace(c: char)
  {
    var n := c as int;
    (9 <= n <= 13) || (28 <= n <= 32) || n == 0x85 || n == 0xA0 || n == 0x1680
    || (0x2000 <= n <= 0x200A) || n == 0x2028 || n == 0x2029 || n == 0x202F || n == 0x205F || n == 0x3000
  }

  /** Leading blanks dropped. */
  function StripStart(s: string): (r: string)
    ensures |r| <= |s|
    ensures r == [] || !IsSpace(r[0])
  {
    if s != [] && IsSpace(s[0]) then StripStart(s[1..]) else s
  }

  /** Trailing blanks dropped. */
  function StripEnd(s: string): (r: string)
    ensures |r| <= |s|
    ensures r == [] || !IsSpace(r[|r| - 1])
  {
    if s != [] && IsSpace(s[|s| - 1]) then StripEnd(s[..|s| - 1]) else s
  }

  /** `str.strip()`: the text without the blanks at either end. */
  function Strip(s: string): (r: string)
    ensures |r| <= |s|
    ensures r == [] || (!IsSpace(r[0]) && !IsSpace(r[|r| - 1]))
    ensures (forall i :: 0 <= i < |s| ==> !IsSpace(s[i])) ==> r == s
  {
    var r := StripEnd(StripStart(s));
    assert r == [] || !IsSpace(r[0]) by {
      if r != [] {
        StripEndPrefix(StripStart(s));
      }
    }
    r
  }

  lemma {:induction false} StripEndPrefix(s: string)
    ensures StripEnd(s) == s[..|StripEnd(s)|]
    decreases |s|
  {
    if s != [] && IsSpace(s[|s| - 1]) {
      StripEndPrefix(s[..|s| - 1]);
    }
  }

  /** A non-blank character survives `strip()`. */
  lemma {:induction false} StripKeeps(s: string, c: char)
    requires c in s && !IsSpace(c)
    ensures c in Strip(s)
  {
    StripStartKeeps(s, c);
    StripEndKeeps(StripStart(s), c);
  }

  lemma {:induction false} StripStartKeeps(s: string, c: char)
    requires c in s && !IsSpace(c)
    ensures c in StripStart(s)
    decreases |s|
  {
    if s != [] && IsSpace(s[0]) {
      assert c in s[1..] by {
        var i :| 0 <= i < |s| && s[i] == c;
        assert i > 0 && s[1..][i - 1] == c;
      }
      StripStartKeeps(s[1..], c);
    }
  }

  lemma {:induction false} StripEndKeeps(s: string, c: char)
    requires c in s && !IsSpace(c)
    ensures c in StripEnd(s)
    decreases |s|
  {
    if s != [] && IsSpace(s[|s| - 1]) {
      assert c in s[..|s| - 1] by {
        var i :| 0 <= i < |s| && s[i] == c;
        assert i < |s| - 1 && s[..|s| - 1][i] == c;
      }
      StripEndKeeps(s[..|s| - 1], c);
    }
  }

  /** Blanks in front do not reach past `StripStart`. */
  lemma {:induction false} StripStartBlanks(a: string, t: string)
    requires forall i :: 0 <= i < |a| ==> IsSpace(a[i])
    ensures StripStart(a + t) == StripStart(t)
    decreases |a|
  {
    if a != [] {
      assert (a + t)[0] == a[0] && (a + t)[1..] == a[1..] + t;
      assert IsSpace((a + t)[0]);
      assert StripStart(a + t) == StripStart(a[1..] + t);
      assert forall i :: 0 <= i < |a[1..]| ==> a[1..][i] == a[i + 1];
      StripStartBlanks(a[1..], t);
    } else {
      assert a + t == t;
    }
  }

  /** Blanks behind do not reach past `StripEnd`. */
  lemma {:induction false} StripEndBlanks(t: string, b: string)
    requires forall i :: 0 <= i < |b| ==> IsSpace(b[i])
    ensures StripEnd(t + b) == StripEnd(t)
    decreases |b|
  {
    if b != [] {
      assert (t + b)[|t + b| - 1] == b[|b| - 1] && (t + b)[..|t + b| - 1] == t + b[..|b| - 1];
      assert IsSpace((t + b)[|t + b| - 1]);
      assert StripEnd(t + b) == StripEnd(t + b[..|b| - 1]);
      assert forall i :: 0 <= i < |b| - 1 ==> b[..|b| - 1][i] == b[i];
      StripEndBlanks(t, b[..|b| - 1]);
    } else {
      assert t + b == t;
    }
  }

  /** Text that starts with a non-blank keeps its tail when leading blanks go. */
  lemma {:induction false} StripStartAppend(t: string, b: string)
    ensures StripStart(t + b) == if StripStart(t) == [] then StripStart(b) else StripStart(t) + b
    decreases |t|
  {
    if t == [] {
      assert t + b == b;
    } else if IsSpace(t[0]) {
      assert (t + b)[1..] == t[1..] + b;
      StripStartAppend(t[1..], b);
    }
  }

  /** `(a + s + b).strip() == s.strip()` when `a` and `b` are blanks. */
  lemma StripBlanks(a: string, s: string, b: string)
    requires forall i :: 0 <= i < |a| ==> IsSpace(a[i])
    requires forall i :: 0 <= i < |b| ==> IsSpace(b[i])
    ensures Strip(a + s + b) == Strip(s)
  {
    assert a + s + b == a + (s + b);
    StripStartBlanks(a, s + b);
    StripStartAppend(s, b);
    if StripStart(s) == [] {
      assert StripStart(b) == [] by {
        StripStartBlanks(b, []);
        assert b + [] == b;
      }
    } else {
      StripEndBlanks(StripStart(s), b);
    }
  }

  /** An ASCII digit `0`-`9`. */
  predicate IsDigit(c: char)
  {
    '0' <= c <= '9'
  }

  /** Non-empty and all ASCII digits. */
  predicate IsDigits(s: string)
  {
    |s| > 0 && forall i :: 0 <= i < |s| ==> IsDigit(s[i])
  }

  function DigitChar(d: nat): char
    requires d < 10
  {
    ('0' as int + d) as char
  }

  /**
   * The code points of the zero of each run of ten Unicode decimal digits
   * (general category Nd of Unicode 15.0) past the ASCII run, in increasing
   * order.
   */
  const DECIMAL_ZEROS: seq<int> := DECIMAL_ZEROS_LOW + DECIMAL_ZEROS_MIDDLE + DECIMAL_ZEROS_HIGH

  /** The runs up to U+1C50, from U+A620 to U+11066, and past it; three displays, since a long one cannot be indexed far in proofs. */
  const DECIMAL_ZEROS_LOW: seq<int> := [
    0x660, 0x6F0, 0x7C0, 0x966, 0x9E6, 0xA66, 0xAE6, 0xB66, 0xBE6, 0xC66, 0xCE6,
    0xD66, 0xDE6, 0xE50, 0xED0, 0xF20, 0x1040, 0x1090, 0x17E0, 0x1810, 0x1946, 0x19D0,
    0x1A80, 0x1A90, 0x1B50, 0x1BB0, 0x1C40, 0x1C50]
  const DECIMAL_ZEROS_MIDDLE: seq<int> := [
    0xA620, 0xA8D0, 0xA900, 0xA9D0, 0xA9F0, 0xAA50, 0xABF0, 0xFF10, 0x104A0, 0x10D30, 0x11066]
  const DECIMAL_ZEROS_HIGH: seq<int> := [
    0x110F0, 0x11136, 0x111D0, 0x112F0, 0x11450, 0x114D0, 0x11650, 0x116C0, 0x11730, 0x118E0, 0x11950,
    0x11C50, 0x11D50, 0x11DA0, 0x11F50, 0x16A60, 0x16AC0, 0x16B50, 0x1D7CE, 0x1D7D8, 0x1D7E2, 0x1D7EC,
    0x1D7F6, 0x1E140, 0x1E2F0, 0x1E4F0, 0x1E950, 0x1FBF0]

  function DecimalIn(n: int, zeros: seq<int>): (r: Option<nat>)
    ensures r.Some? ==> r.value < 10
  {
    if zeros == [] then None
    else if zeros[0] <= n < zeros[0] + 10 then Some(n - zeros[0])
    else DecimalIn(n, zeros[1..])
  }

  /**
   * The value of a Unicode decimal digit, None for any other character:
   * the digits `int()` and `float()` read and the pattern `\d` matches.
   */
  function DecimalValue(c: char): (r: Option<nat>)
    ensures r.Some? ==> r.value < 10
    ensures IsDigit(c) ==> r == Some(c as int - '0' as int)
    ensures c as int < 0x660 && !IsDigit(c) ==> r.None?
  {
    var n := c as int;
    if n < 0x660 then (if IsDigit(c) then Some(n - '0' as int) else None)
    else DecimalIn(n, DECIMAL_ZEROS)
  }

  predicate IsDecimal(c: char)
  {
    DecimalValue(c).Some?
  }

  /** `str.isdecimal()`: non-empty and all Unicode decimal digits. */
  predicate IsDecimals(s: string)
  {
    |s| > 0 && forall i :: 0 <= i < |s| ==> IsDecimal(s[i])
  }

  /** The characters, past the decimal digits, for which `str.isdigit()` holds (superscripts, circled digits and the like), as inclusive ranges. */
  const DIGIT_ONLY_RANGES: seq<(int, int)> := [
    (0xB2, 0xB3), (0xB9, 0xB9), (0x1369, 0x1371), (0x19DA, 0x19DA), (0x2070, 0x2070), (0x2074, 0x2079),
    (0x2080, 0x2089), (0x2460, 0x2468), (0x2474, 0x247C), (0x2488, 0x2490), (0x24EA, 0x24EA),
    (0x24F5, 0x24FD), (0x24FF, 0x24FF), (0x2776, 0x277E), (0x2780, 0x2788), (0x278A, 0x2792),
    (0x10A40, 0x10A43), (0x10E60, 0x10E68), (0x11052, 0x1105A), (0x1F100, 0x1F10A)]

  predicate InRanges(n: int, ranges: seq<(int, int)>)
  {
    exists i :: 0 <= i < |ranges| && ranges[i].0 <= n <= ranges[i].1
  }

  /** `str.isdigit()` for one character: a decimal digit or one of the compatibility digits. */
  predicate IsDigitLike(c: char)
  {
    IsDecimal(c) || InRanges(c as int, DIGIT_ONLY_RANGES)
  }

  /** `str.isdigit()`: non-empty and all characters digit-like. */
  predicate IsDigitLikes(s: string)
  {
    |s| > 0 && forall i :: 0 <= i < |s| ==> IsDigitLike(s[i])
  }

  /** Decimal text is digit text. */
  lemma DecimalsAreDigitLike(s: string)
    requires IsDecimals(s)
    ensures IsDigitLikes(s)
  {
  }

  /** `'²'.isdigit()` holds although `²` is no decimal digit. */
  lemma SuperscriptTwo()
    ensures IsDigitLikes("²") && !IsDecimals("²")
  {
    assert DIGIT_ONLY_RANGES[0].0 <= '²' as int <= DIGIT_ONLY_RANGES[0].1;
    assert IsDigitLike("²"[0]);
    assert !IsDecimal("²"[0]);
  }

  /** A decimal digit as its ASCII digit; any other character as it is. */
  function AsciiDigit(c: char): (r: char)
    ensures IsDecimal(c) <==> IsDigit(r)
    ensures !IsDecimal(c) ==> r == c
  {
    match DecimalValue(c)
    case Some(d) => DigitChar(d)
    case None => c
  }

  /** Every decimal digit of the text replaced by its ASCII digit, as `int()` and `float()` read text. */
  function AsciiDigits(s: string): (r: string)
    ensures |r| == |s|
    ensures forall i :: 0 <= i < |s| ==> r[i] == AsciiDigit(s[i])
  {
    seq(|s|, i requires 0 <= i < |s| => AsciiDigit(s[i]))
  }

  /** Text free of non-ASCII decimal digits reads as it is. */
  lemma AsciiDigitsPlain(s: string)
    requires forall i :: 0 <= i < |s| ==> IsDigit(s[i]) || s[i] as int < 0x660
    ensures AsciiDigits(s) == s
  {
  }

  /** Decimal value of a string of ASCII digits. */
  function DigitsValue(s: string): nat
    requires forall i :: 0 <= i < |s| ==> IsDigit(s[i])
  {
    if s == [] then 0
    else
      assert IsDigit(s[|s| - 1]);
      DigitsValue(s[..|s| - 1]) * 10 + (s[|s| - 1] as int - '0' as int)
  }

  /** A leading zero does not change the value of a digit string. */
  lemma {:induction false} DigitsValueLeadingZero(s: string)
    requires forall i :: 0 <= i < |s| ==> IsDigit(s[i])
    ensures DigitsValue("0" + s) == DigitsValue(s)
  {
    if s != [] {
      var init := s[..|s| - 1];
      assert ("0" + s)[..|"0" + s| - 1] == "0" + init;
      DigitsValueLeadingZero(init);
    }
  }

  /** The value of decimal text (`int()` of a string that `str.isdecimal()` accepts). */
  function DecimalsValue(s: string): nat
    requires IsDecimals(s)
  {
    DigitsValue(AsciiDigits(s))
  }

  /** Leading blanks dropped leave a suffix. */
  lemma {:induction false} StripStartSuffix(s: string)
    ensures StripStart(s) == s[|s| - |StripStart(s)|..]
    decreases |s|
  {
    if s != [] && IsSpace(s[0]) {
      StripStartSuffix(s[1..]);
    }
  }

  /** Without a '-' in the text, what `int()` reads is not negative. */
  lemma ParseIntUnsigned(s: string)
    requires '-' !in s
    ensures ParseInt(s).Some? ==> ParseInt(s).value >= 0
  {
    var w := StripStart(s);
    var u := Strip(s);
    StripStartSuffix(s);
    StripEndPrefix(w);
  }

  /** `int("²")` raises: a superscript digit is no decimal digit. */
  lemma ParseIntOfSuperscript()
    ensures ParseInt("²") == None
  {
    var s := "²";
    assert !IsSpace(s[0]) && !IsDecimal(s[0]);
    assert Strip(s) == s;
    assert AsciiDigits(s) == s;
    assert !IsNumeral(s);
  }

  /** `int("٣")`, the Arabic-Indic three, is 3: the digit is read as its ASCII digit. */
  lemma ParseIntOfArabicIndic()
    ensures ParseInt("٣") == Some(3)
  {
    var c := "٣"[0];
    assert !IsSpace(c);
    assert c as int == 0x663 && DECIMAL_ZEROS[0] == 0x660;
    assert DecimalIn(c as int, DECIMAL_ZEROS) == Some(3);
    ParseIntOfDecimalDigit(c, 3);
    assert [c] == "٣";
  }

  /** A non-blank Unicode decimal digit on its own is read as its value. */
  lemma ParseIntOfDecimalDigit(c: char, v: nat)
    requires DecimalValue(c) == Some(v) && !IsSpace(c)
    ensures ParseInt([c]) == Some(v)
  {
    DecimalDigitText(c, v);
    SignedNumeralOfDigitChar(v);
  }

  /** Stripped and mapped, a non-blank decimal digit is its ASCII digit. */
  lemma DecimalDigitText(c: char, v: nat)
    requires DecimalValue(c) == Some(v) && !IsSpace(c)
    ensures v < 10 && AsciiDigits(Strip([c])) == [DigitChar(v)]
  {
    var s := [c];
    assert Strip(s) == s by {
      assert forall i :: 0 <= i < |s| ==> !IsSpace(s[i]);
    }
    assert AsciiDigit(c) == DigitChar(v);
  }

  /** One ASCII digit reads as its value. */
  lemma SignedNumeralOfDigitChar(v: nat)
    requires v < 10
    ensures SignedNumeral([DigitChar(v)]) == Some(v)
  {
    var t := [DigitChar(v)];
    assert IsDigits(t) && t[0] != '-' && t[0] != '+';
    SignedNumeralOfSign("", t);
    assert "" + t == t;
    UnsignedNumeralOfDigits(t);
    assert DigitsValue(t) == v;
  }

  /** ASCII digits are decimal digits worth their usual value. */
  lemma DecimalsValueOfDigits(s: string)
    requires IsDigits(s)
    ensures IsDecimals(s) && DecimalsValue(s) == DigitsValue(s)
  {
    AsciiDigitsPlain(s);
  }

  /** `str(n)` for a natural number. */
  function NatToString(n: nat): (r: string)
    ensures IsDigits(r)
  {
    if n < 10 then [DigitChar(n)] else NatToString(n / 10) + [DigitChar(n % 10)]
  }

  /** `str(i)` for an integer. */
  function IntToString(i: int): string
  {
    if i < 0 then "-" + NatToString(-i) else NatToString(i)
  }

  lemma {:induction false} DigitsValueOfNatToString(n: nat)
    ensures DigitsValue(NatToString(n)) == n
  {
    if n >= 10 {
      var s := NatToString(n);
      assert s[..|s| - 1] == NatToString(n / 10);
      DigitsValueOfNatToString(n / 10);
    }
  }

  /**
   * `digit (["_"] digit)*`: ASCII digits with single underscores between
   * them, the numerals `int()` and `float()` accept.
   */
  predicate IsNumeral(s: string)
  {
    && |s| > 0 && IsDigit(s[0]) && IsDigit(s[|s| - 1])
    && (forall i :: 0 <= i < |s| ==> IsDigit(s[i]) || s[i] == '_')
    && (forall i, j :: 0 <= i < |s| && 0 <= j < |s| && j == i + 1 ==> IsDigit(s[i]) || IsDigit(s[j]))
  }

  /** The text without its underscores. */
  function Unscored(s: string): string
  {
    if s == [] then []
    else (if s[0] == '_' then [] else [s[0]]) + Unscored(s[1..])
  }

  /** Dropping the underscores of digits and underscores leaves digits alone. */
  lemma {:induction false} UnscoredDigits(s: string)
    requires forall i :: 0 <= i < |s| ==> IsDigit(s[i]) || s[i] == '_'
    ensures forall i :: 0 <= i < |Unscored(s)| ==> IsDigit(Unscored(s)[i])
  {
    if s != [] {
      assert forall i :: 0 <= i < |s[1..]| ==> s[1..][i] == s[i + 1];
      UnscoredDigits(s[1..]);
    }
  }

  /** Text without underscores is left as it is. */
  lemma {:induction false} UnscoredUnchanged(s: string)
    requires forall i :: 0 <= i < |s| ==> s[i] != '_'
    ensures Unscored(s) == s
  {
    if s != [] {
      assert forall i :: 0 <= i < |s[1..]| ==> s[1..][i] == s[i + 1];
      UnscoredUnchanged(s[1..]);
      assert [s[0]] + s[1..] == s;
    }
  }

  /** The value of a numeral: its digits without the underscores. */
  function NumeralValue(s: string): nat
    requires IsNumeral(s)
  {
    assert forall i :: 0 <= i < |s| ==> IsDigit(s[i]) || s[i] == '_';
    UnscoredDigits(s);
    DigitsValue(Unscored(s))
  }

  /** A numeral and its value, or None. */
  function UnsignedNumeral(u: string): (r: Option<nat>)
    ensures r.Some? <==> IsNumeral(u)
  {
    if IsNumeral(u) then Some(NumeralValue(u)) else None
  }

  /** The value of an optional `-` or `+` before an unsigned value. */
  function Signed(negative: bool, v: Option<nat>): Option<int>
  {
    match v
    case None => None
    case Some(n) => Some(if negative then -(n as int) else n as int)
  }

  /** An optional sign and a numeral, the form `int()` reads once the blanks are gone. */
  function SignedNumeral(t: string): Option<int>
  {
    var signed := |t| > 0 && (t[0] == '-' || t[0] == '+');
    Signed(signed && t[0] == '-', UnsignedNumeral(if signed then t[1..] else t))
  }

  /**
   * Python's `int(s)` on a string: blanks at either end are dropped, every
   * Unicode decimal digit reads as its ASCII digit, and what remains must be
   * an optional sign and decimal digits with single underscores between
   * them; anything else raises (here: None).
   */
  function ParseInt(s: string): Option<int>
  {
    SignedNumeral(AsciiDigits(Strip(s)))
  }

  predicate PlainChar(c: char)
  {
    IsDigit(c) || c == '-' || c == '+' || c == '.' || c == '_' || c == 'e' || c == 'E'
  }

  /** Text of ASCII digits, signs, dots and underscores passes `strip()` and the digit mapping unchanged. */
  lemma PlainText(s: string)
    requires forall i :: 0 <= i < |s| ==> PlainChar(s[i])
    ensures Strip(s) == s && AsciiDigits(s) == s
  {
    assert forall i :: 0 <= i < |s| ==> !IsSpace(s[i]);
    AsciiDigitsPlain(s);
  }

  /** Plain ASCII digits read as their decimal value. */
  lemma ParseIntOfDigits(s: string)
    requires IsDigits(s)
    ensures ParseInt(s) == Some(DigitsValue(s))
  {
    assert ParseInt(s) == SignedNumeral(s) by {
      PlainText(s);
    }
    assert IsDigit(s[0]);
    SignedNumeralOfSign("", s);
    assert "" + s == s;
    UnsignedNumeralOfDigits(s);
  }

  /** A minus sign before plain ASCII digits negates their value. */
  lemma ParseIntOfNegative(d: string, n: int)
    requires IsDigits(d) && ParseInt(d) == Some(n)
    ensures ParseInt("-" + d) == Some(-n)
  {
    DigitsRead(d, n);
    NegativePlain(d);
    SignedNumeralOfNegative(d, n as nat);
  }

  /** What `int()` reads for plain digits is their unsigned numeral. */
  lemma DigitsRead(d: string, n: int)
    requires IsDigits(d) && ParseInt(d) == Some(n)
    ensures n >= 0 && UnsignedNumeral(d) == Some(n as nat)
  {
    assert SignedNumeral(d) == Some(n) by {
      assert forall k :: 0 <= k < |d| ==> PlainChar(d[k]);
      ParseIntPlain(d);
    }
    UnsignedOfSigned(d, n);
  }

  lemma UnsignedOfSigned(d: string, n: int)
    requires IsDigits(d) && SignedNumeral(d) == Some(n)
    ensures n >= 0 && UnsignedNumeral(d) == Some(n as nat)
  {
    assert IsDigit(d[0]);
    SignedNumeralOfSign("", d);
    assert "" + d == d;
  }

  lemma NegativePlain(d: string)
    requires IsDigits(d)
    ensures Strip("-" + d) == "-" + d && AsciiDigits("-" + d) == "-" + d
  {
    var s := "-" + d;
    forall k | 0 <= k < |s|
      ensures PlainChar(s[k])
    {
      if k > 0 {
        assert s[k] == d[k - 1];
      }
    }
    PlainText(s);
  }

  lemma SignedNumeralOfNegative(d: string, n: nat)
    requires UnsignedNumeral(d) == Some(n)
    ensures SignedNumeral("-" + d) == Some(-(n as int))
  {
    SignedNumeralOfSign("-", d);
  }

  /** A leading sign only chooses the sign of the value after it. */
  lemma SignedNumeralOfSign(sign: string, u: string)
    requires sign == "-" || sign == "+" || (sign == "" && (u == [] || (u[0] != '-' && u[0] != '+')))
    ensures SignedNumeral(sign + u) == Signed(sign == "-", UnsignedNumeral(u))
  {
    var t := sign + u;
    if sign == "" {
      assert t == u;
    } else {
      assert t[0] == sign[0] && t[1..] == u;
    }
  }

  /** Plain ASCII digits form a numeral of their decimal value. */
  lemma UnsignedNumeralOfDigits(d: string)
    requires IsDigits(d)
    ensures UnsignedNumeral(d) == Some(DigitsValue(d))
  {
    assert IsNumeral(d);
    UnscoredOfDigits(d);
  }

  lemma UnsignedNumeralOfNatToString(n: nat)
    ensures UnsignedNumeral(NatToString(n)) == Some(n)
  {
    DigitsValueOfNatToString(n);
    UnsignedNumeralOfDigits(NatToString(n));
  }

  lemma ParseIntOfIntToString(i: int)
    ensures ParseInt(IntToString(i)) == Some(i)
  {
    IntTextPlain(i);
    SignedNumeralOfInt(i);
  }

  /** The text of an integer passes `strip()` and the digit mapping unchanged. */
  lemma IntTextPlain(i: int)
    ensures Strip(IntToString(i)) == IntToString(i) && AsciiDigits(IntToString(i)) == IntToString(i)
  {
    if i < 0 {
      NegativePlain(NatToString(-i));
    } else {
      PlainText(NatToString(i));
    }
  }

  /** The text of an integer, sign and digits, reads back as that integer. */
  lemma SignedNumeralOfInt(i: int)
    ensures SignedNumeral(IntToString(i)) == Some(i)
  {
    if i < 0 {
      UnsignedNumeralOfNatToString(-i);
      SignedNumeralOfNegative(NatToString(-i), -i);
    } else {
      var d := NatToString(i);
      UnsignedNumeralOfNatToString(i);
      assert d[0] != '-' && d[0] != '+';
      SignedNumeralOfSign("", d);
      UnsignedNumeralOfDigits(d);
      assert "" + d == d;
    }
  }

  /** Blanks around the text do not change what `int()` reads. */
  lemma ParseIntBlanks(a: string, s: string, b: string)
    requires forall i :: 0 <= i < |a| ==> IsSpace(a[i])
    requires forall i :: 0 <= i < |b| ==> IsSpace(b[i])
    ensures ParseInt(a + s + b) == ParseInt(s)
  {
    StripBlanks(a, s, b);
  }

  /** A single underscore between digit runs is ignored. */
  lemma ParseIntUnderscore(a: string, b: string)
    requires IsDigits(a) && IsDigits(b)
    ensures ParseInt(a + "_" + b) == Some(DigitsValue(a + b))
  {
    var s := a + "_" + b;
    assert AsciiDigits(Strip(s)) == s by {
      PlainJoined(a, b);
      PlainText(s);
    }
    NumeralJoined(a, b);
    SignedNumeralOfNumeral(s);
    UnscoredJoin(a, b);
  }

  /** A numeral without a sign reads as the value of its digits. */
  lemma SignedNumeralOfNumeral(s: string)
    requires IsNumeral(s)
    ensures SignedNumeral(s) == Some(NumeralValue(s))
  {
    assert s[0] != '-' && s[0] != '+';
  }

  /** Digits, an underscore and digits are plain text. */
  lemma PlainJoined(a: string, b: string)
    requires IsDigits(a) && IsDigits(b)
    ensures forall i :: 0 <= i < |a + "_" + b| ==> PlainChar((a + "_" + b)[i])
  {
    var s := a + "_" + b;
    forall i | 0 <= i < |s|
      ensures PlainChar(s[i])
    {
      if i < |a| { assert s[i] == a[i]; }
      else if i > |a| { assert s[i] == b[i - |a| - 1]; }
    }
  }

  /** Digits, an underscore and digits form a numeral. */
  lemma NumeralJoined(a: string, b: string)
    requires IsDigits(a) && IsDigits(b)
    ensures IsNumeral(a + "_" + b)
  {
    var s := a + "_" + b;
    forall i | 0 <= i < |s|
      ensures IsDigit(s[i]) || (s[i] == '_' && 0 < i < |s| - 1 && IsDigit(s[i - 1]) && IsDigit(s[i + 1]))
    {
      if i < |a| { assert s[i] == a[i]; }
      else if i == |a| { assert s[i - 1] == a[|a| - 1] && s[i + 1] == b[0]; }
      else { assert s[i] == b[i - |a| - 1]; }
    }
  }

  lemma UnscoredJoin(a: string, b: string)
    requires IsDigits(a) && IsDigits(b)
    ensures Unscored(a + "_" + b) == a + b
  {
    var x := a + "_";
    assert Unscored(x) == a by {
      UnscoredConcat(a, "_");
      UnscoredOfDigits(a);
      assert Unscored("_") == [];
    }
    UnscoredConcat(x, b);
    UnscoredOfDigits(b);
  }

  lemma UnscoredOfDigits(a: string)
    requires IsDigits(a)
    ensures Unscored(a) == a
  {
    assert forall i :: 0 <= i < |a| ==> a[i] != '_';
    UnscoredUnchanged(a);
  }

  lemma {:induction false} UnscoredConcat(x: string, y: string)
    ensures Unscored(x + y) == Unscored(x) + Unscored(y)
    decreases |x|
  {
    if x == [] {
      assert x + y == y;
    } else {
      var h := if x[0] == '_' then [] else [x[0]];
      assert Unscored(x + y) == h + Unscored(x[1..] + y) by {
        assert (x + y)[0] == x[0] && (x + y)[1..] == x[1..] + y;
      }
      UnscoredConcat(x[1..], y);
      assert Unscored(x) == h + Unscored(x[1..]);
      assert h + (Unscored(x[1..]) + Unscored(y)) == (h + Unscored(x[1..])) + Unscored(y);
    }
  }

  /** Text `int()` accepts holds only blanks, a sign, decimal digits and underscores. */
  lemma ParseIntCharacters(s: string, c: char)
    requires ParseInt(s).Some? && c in s
    ensures IsSpace(c) || c == '-' || c == '+' || IsDecimal(c) || c == '_'
  {
    if !IsSpace(c) && !IsDecimal(c) {
      StripKeeps(s, c);
      var t := AsciiDigits(Strip(s));
      var k :| 0 <= k < |Strip(s)| && Strip(s)[k] == c;
      assert t[k] == c;
      if |t| > 0 && (t[0] == '-' || t[0] == '+') && k > 0 {
        assert t[1..][k - 1] == c;
      }
    }
  }

  /** The text of an integer holds no character other than a sign and digits. */
  lemma IntToStringFree(i: int, c: char)
    requires c != '-' && !IsDigit(c)
    ensures c !in IntToString(i)
  {
    var n: nat := if i < 0 then -i else i;
    assert IsDigits(NatToString(n));
    if i < 0 {
      assert forall k :: 1 <= k < |IntToString(i)| ==> IntToString(i)[k] == NatToString(n)[k - 1];
    }
  }

  predicate AllDigits(s: string)
  {
    forall i :: 0 <= i < |s| ==> IsDigit(s[i])
  }

  function Pow10(n: nat): (r: nat)
    ensures r >= 1
  {
    if n == 0 then 1 else 10 * Pow10(n - 1)
  }

  /** The value of `whole.fraction`. */
  function PointValue(whole: string, fraction: string): real
    requires AllDigits(whole) && AllDigits(fraction)
  {
    DigitsValue(whole) as real + DigitsValue(fraction) as real / Pow10(|fraction|) as real
  }

  lemma {:induction false} DigitsValueBelow(s: string)
    requires AllDigits(s)
    ensures DigitsValue(s) < Pow10(|s|)
  {
    if s != [] {
      var p := s[..|s| - 1];
      DigitsValueBelow(p);
      assert DigitsValue(s) == DigitsValue(p) * 10 + (s[|s| - 1] as int - '0' as int);
      assert Pow10(|s|) == 10 * Pow10(|p|);
    }
  }

  lemma ProperFraction(f: real, d: real)
    requires 0.0 <= f < d
    ensures 0.0 <= f / d < 1.0
  {
    assert (f / d) * d == f;
  }

  /** The fraction adds less than one: `whole <= whole.fraction < whole + 1`. */
  lemma PointValueBounds(whole: string, fraction: string)
    requires AllDigits(whole) && AllDigits(fraction)
    ensures DigitsValue(whole) as real <= PointValue(whole, fraction) < DigitsValue(whole) as real + 1.0
  {
    DigitsValueBelow(fraction);
    ProperFraction(DigitsValue(fraction) as real, Pow10(|fraction|) as real);
  }

  /** The digits of a numeral, or of nothing. */
  lemma NumeralDigits(s: string)
    requires s == [] || IsNumeral(s)
    ensures AllDigits(Unscored(s))
  {
    assert forall i :: 0 <= i < |s| ==> IsDigit(s[i]) || s[i] == '_';
    UnscoredDigits(s);
  }

  /** An empty part or a numeral. */
  predicate OptionalNumeral(s: string)
  {
    s == [] || IsNumeral(s)
  }

  /**
   * The mantissa of a `float()` numeral, `digits`, `digits.`, `.digits` or
   * `digits.digits`, each digit run allowing single underscores.
   */
  function Mantissa(m: string): Option<real>
  {
    var parts := Split(m, '.');
    if |parts| == 1 && IsNumeral(parts[0]) then Some(NumeralValue(parts[0]) as real)
    else if |parts| == 2 && OptionalNumeral(parts[0]) && OptionalNumeral(parts[1]) && |parts[0]| + |parts[1]| > 0 then
      NumeralDigits(parts[0]);
      NumeralDigits(parts[1]);
      Some(PointValue(Unscored(parts[0]), Unscored(parts[1])))
    else None
  }

  /** `x * 10 ** e`. */
  function Scaled(x: real, e: int): real
  {
    if e >= 0 then x * Pow10(e) as real else x / Pow10(-e) as real
  }

  /** The position of the first exponent marker `e` or `E`, or the length. */
  function ExponentAt(u: string): (k: nat)
    ensures k <= |u|
    ensures forall i :: 0 <= i < k ==> u[i] != 'e' && u[i] != 'E'
    ensures k < |u| ==> u[k] == 'e' || u[k] == 'E'
  {
    if u == [] || u[0] == 'e' || u[0] == 'E' then 0 else 1 + ExponentAt(u[1..])
  }

  /** An unsigned `float()` numeral: a mantissa and an optional `e`/`E` exponent with its own sign. */
  function UnsignedFloat(u: string): Option<real>
  {
    var k := ExponentAt(u);
    if k == |u| then Mantissa(u)
    else
      match (Mantissa(u[..k]), SignedNumeral(u[k + 1..]))
      case (Some(x), Some(e)) => Some(Scaled(x, e))
      case _ => None
  }

  /**
   * Python's `float(s)` on a string: blanks at either end are dropped and
   * Unicode decimal digits read as ASCII digits, as for `int()`; then an
   * optional sign, a mantissa and an optional exponent. The special values
   * `inf`, `infinity` and `nan` are not modelled and give None, as a
   * malformed numeral (which raises) does; numbers are exact reals, without
   * rounding or overflow to infinity.
   */
  function ParseFloat(s: string): Option<real>
  {
    var t := AsciiDigits(Strip(s));
    if |t| > 0 && (t[0] == '-' || t[0] == '+') then SignedReal(t[0] == '-', UnsignedFloat(t[1..]))
    else UnsignedFloat(t)
  }

  /** The value of an optional `-` or `+` before an unsigned real. */
  function SignedReal(negative: bool, v: Option<real>): Option<real>
  {
    match v
    case None => None
    case Some(x) => Some(if negative then -x else x)
  }

  /** `s.split(sep)`. */
  function Split(s: string, sep: char): (r: seq<string>)
    ensures |r| > 0
    decreases |s|
  {
    if s == [] then [""]
    else if s[0] == sep then [""] + Split(s[1..], sep)
    else var rest := Split(s[1..], sep); [[s[0]] + rest[0]] + rest[1..]
  }

  lemma {:induction false} SplitPiece(a: string, sep: char, rest: string)
    requires sep !in a
    ensures Split(a + [sep] + rest, sep) == [a] + Split(rest, sep)
    decreases |a|
  {
    if a == [] {
      assert a + [sep] + rest == [sep] + rest;
    } else {
      assert (a + [sep] + rest)[1..] == a[1..] + [sep] + rest;
      assert (a + [sep] + rest)[0] == a[0] != sep;
      SplitPiece(a[1..], sep, rest);
      assert a == [a[0]] + a[1..];
    }
  }

  lemma {:induction false} SplitNone(a: string, sep: char)
    requires sep !in a
    ensures Split(a, sep) == [a]
    decreases |a|
  {
    if a != [] {
      SplitNone(a[1..], sep);
      assert a == [a[0]] + a[1..];
    }
  }

  /** Splitting text joined by `sep` splits each side. */
  lemma {:induction false} SplitJoin(a: string, sep: char, b: string)
    ensures Split(a + [sep] + b, sep) == Split(a, sep) + Split(b, sep)
    decreases |a|
  {
    if a == [] {
      assert a + [sep] + b == [sep] + b;
    } else {
      assert (a + [sep] + b)[1..] == a[1..] + [sep] + b;
      assert (a + [sep] + b)[0] == a[0];
      SplitJoin(a[1..], sep, b);
    }
  }

  /**
   * Python's `s.split(sep, n)`: at most `n` splits, from the left, the
   * remainder kept whole in the last piece.
   */
  function SplitAtMost(s: string, sep: char, n: nat): (r: seq<string>)
    ensures |r| > 0
    decreases |s|
  {
    if n == 0 then [s]
    else if s == [] then [""]
    else if s[0] == sep then [""] + SplitAtMost(s[1..], sep, n - 1)
    else var rest := SplitAtMost(s[1..], sep, n); [[s[0]] + rest[0]] + rest[1..]
  }

  /** A first piece free of `sep` is split off whole, and one split is used up. */
  lemma {:induction false} SplitAtMostPiece(a: string, sep: char, rest: string, n: nat)
    requires sep !in a
    ensures SplitAtMost(a + [sep] + rest, sep, n + 1) == [a] + SplitAtMost(rest, sep, n)
    decreases |a|
  {
    if a == [] {
      assert a + [sep] + rest == [sep] + rest;
    } else {
      assert (a + [sep] + rest)[1..] == a[1..] + [sep] + rest;
      assert (a + [sep] + rest)[0] == a[0] != sep;
      SplitAtMostPiece(a[1..], sep, rest, n);
      assert a == [a[0]] + a[1..];
    }
  }

  /** With no `e` or `E` in the text there is no exponent. */
  lemma ExponentAtNone(u: string)
    requires forall i :: 0 <= i < |u| ==> u[i] != 'e' && u[i] != 'E'
    ensures ExponentAt(u) == |u|
  {
  }

  /** The first `e` after an exponent-free mantissa starts the exponent. */
  lemma {:induction false} ExponentAtMarker(m: string, x: string)
    requires forall i :: 0 <= i < |m| ==> m[i] != 'e' && m[i] != 'E'
    ensures ExponentAt(m + "e" + x) == |m|
    decreases |m|
  {
    if m == [] {
      assert (m + "e" + x)[0] == 'e';
    } else {
      assert (m + "e" + x)[0] == m[0];
      assert (m + "e" + x)[1..] == m[1..] + "e" + x;
      ExponentAtMarker(m[1..], x);
    }
  }

  lemma MantissaOfDigits(d: string)
    requires IsDigits(d)
    ensures Mantissa(d) == Some(DigitsValue(d) as real)
  {
    assert '.' !in d;
    SplitNone(d, '.');
    assert IsNumeral(d);
    UnscoredOfDigits(d);
  }

  lemma MantissaOfPoint(whole: string, fraction: string)
    requires IsDigits(whole) && AllDigits(fraction)
    ensures Mantissa(whole + "." + fraction) == Some(PointValue(whole, fraction))
  {
    var s := whole + "." + fraction;
    assert Split(s, '.') == [whole, fraction] by {
      assert '.' !in whole;
      assert '.' !in fraction;
      SplitPiece(whole, '.', fraction);
      SplitNone(fraction, '.');
      assert s == whole + ['.'] + fraction;
    }
    assert IsNumeral(whole);
    assert OptionalNumeral(fraction);
    UnscoredOfDigits(whole);
    assert forall i :: 0 <= i < |fraction| ==> fraction[i] != '_';
    UnscoredUnchanged(fraction);
  }

  /** Plain text that starts with a digit is read without sign. */
  lemma ParseFloatPlain(s: string)
    requires forall k :: 0 <= k < |s| ==> PlainChar(s[k])
    requires |s| > 0 && IsDigit(s[0])
    ensures ParseFloat(s) == UnsignedFloat(s)
  {
    PlainText(s);
  }

  lemma UnsignedFloatOfDigits(d: string)
    requires IsDigits(d)
    ensures UnsignedFloat(d) == Some(DigitsValue(d) as real)
  {
    MantissaOfDigits(d);
    ExponentAtNone(d);
  }

  /** Plain text after a minus sign is read as the negated unsigned numeral. */
  lemma ParseFloatMinus(u: string)
    requires forall k :: 0 <= k < |u| ==> PlainChar(u[k])
    ensures ParseFloat("-" + u) == SignedReal(true, UnsignedFloat(u))
  {
    var s := "-" + u;
    assert forall k :: 1 <= k < |s| ==> s[k] == u[k - 1];
    assert forall k :: 0 <= k < |s| ==> PlainChar(s[k]);
    PlainText(s);
    assert s[0] == '-' && s[1..] == u;
  }

  lemma UnsignedFloatOfNatToString(n: nat)
    ensures UnsignedFloat(NatToString(n)) == Some(n as real)
  {
    DigitsValueOfNatToString(n);
    UnsignedFloatOfDigits(NatToString(n));
  }

  /** `float(str(i)) == i`. */
  lemma ParseFloatOfIntToString(i: int)
    ensures ParseFloat(IntToString(i)) == Some(i as real)
  {
    if i < 0 {
      ParseFloatOfNegativeNat(-i);
      assert IntToString(i) == "-" + NatToString(-i);
    } else {
      ParseFloatOfNat(i);
      assert IntToString(i) == NatToString(i);
    }
  }

  lemma ParseFloatOfNat(n: nat)
    ensures ParseFloat(NatToString(n)) == Some(n as real)
  {
    var d := NatToString(n);
    assert forall k :: 0 <= k < |d| ==> PlainChar(d[k]);
    ParseFloatPlain(d);
    UnsignedFloatOfNatToString(n);
  }

  lemma ParseFloatOfNegativeNat(n: nat)
    ensures ParseFloat("-" + NatToString(n)) == Some(-(n as real))
  {
    var d := NatToString(n);
    assert forall k :: 0 <= k < |d| ==> PlainChar(d[k]);
    ParseFloatMinus(d);
    UnsignedFloatOfNatToString(n);
  }

  /** A numeral with a fraction part denotes whole part plus fraction over a power of ten. */
  lemma ParseFloatFraction(whole: string, fraction: string)
    requires IsDigits(whole) && AllDigits(fraction)
    ensures ParseFloat(whole + "." + fraction) == Some(PointValue(whole, fraction))
  {
    var s := whole + "." + fraction;
    assert forall k :: 0 <= k < |s| ==> PlainChar(s[k]) && s[k] != 'e' && s[k] != 'E' by {
      forall k | 0 <= k < |s|
        ensures PlainChar(s[k]) && s[k] != 'e' && s[k] != 'E'
      {
        if k < |whole| { assert s[k] == whole[k]; }
        else if k > |whole| { assert s[k] == fraction[k - |whole| - 1]; }
      }
    }
    PlainText(s);
    ExponentAtNone(s);
    MantissaOfPoint(whole, fraction);
    assert s[0] == whole[0];
  }

  /** An exponent after a mantissa scales it by a power of ten. */
  lemma UnsignedFloatExponent(m: string, x: string)
    requires forall i :: 0 <= i < |m| ==> m[i] != 'e' && m[i] != 'E'
    requires Mantissa(m).Some? && SignedNumeral(x).Some?
    ensures UnsignedFloat(m + "e" + x) == Some(Scaled(Mantissa(m).value, SignedNumeral(x).value))
  {
    var s := m + "e" + x;
    ExponentAtMarker(m, x);
    assert s[..|m|] == m && s[|m| + 1..] == x;
  }

  lemma PointTextPlain(whole: string, fraction: string)
    requires IsDigits(whole) && AllDigits(fraction)
    ensures var m := whole + "." + fraction;
            forall k :: 0 <= k < |m| ==> PlainChar(m[k]) && m[k] != 'e' && m[k] != 'E'
  {
    var m := whole + "." + fraction;
    forall k | 0 <= k < |m|
      ensures PlainChar(m[k]) && m[k] != 'e' && m[k] != 'E'
    {
      if k < |whole| { assert m[k] == whole[k]; }
      else if k > |whole| { assert m[k] == fraction[k - |whole| - 1]; }
    }
  }

  lemma PlainJoin(m: string, x: string)
    requires forall k :: 0 <= k < |m| ==> PlainChar(m[k])
    requires forall k :: 0 <= k < |x| ==> PlainChar(x[k])
    ensures forall k :: 0 <= k < |m + "e" + x| ==> PlainChar((m + "e" + x)[k])
  {
    var s := m + "e" + x;
    forall k | 0 <= k < |s|
      ensures PlainChar(s[k])
    {
      if k < |m| { assert s[k] == m[k]; }
      else if k > |m| { assert s[k] == x[k - |m| - 1]; }
    }
  }

  /** An exponent scales the mantissa: `float("w.fe-x") == w.f / 10 ** x`, and `e+x` or `ex` multiply. */
  lemma ParseFloatExponent(whole: string, fraction: string, sign: string, exp: string, e: int)
    requires IsDigits(whole) && AllDigits(fraction) && IsDigits(exp)
    requires sign == "" || sign == "+" || sign == "-"
    requires ParseInt(sign + exp) == Some(e)
    ensures ParseFloat((whole + "." + fraction) + "e" + (sign + exp)) == Some(Scaled(PointValue(whole, fraction), e))
  {
    ExponentText(sign, exp, e);
    ParseFloatExponentParts(whole, fraction, sign + exp, e);
  }

  lemma ExponentText(sign: string, exp: string, e: int)
    requires IsDigits(exp)
    requires sign == "" || sign == "+" || sign == "-"
    requires ParseInt(sign + exp) == Some(e)
    ensures forall k :: 0 <= k < |sign + exp| ==> PlainChar((sign + exp)[k])
    ensures SignedNumeral(sign + exp) == Some(e)
  {
    ExponentPlain(sign, exp);
    ParseIntPlain(sign + exp);
  }

  lemma ExponentPlain(sign: string, exp: string)
    requires IsDigits(exp)
    requires sign == "" || sign == "+" || sign == "-"
    ensures forall k :: 0 <= k < |sign + exp| ==> PlainChar((sign + exp)[k])
  {
    var x := sign + exp;
    forall k | 0 <= k < |x|
      ensures PlainChar(x[k])
    {
      if k >= |sign| { assert x[k] == exp[k - |sign|]; }
    }
  }

  /** On text of numeral characters alone `int()` reads the signed numeral as it is. */
  lemma ParseIntPlain(s: string)
    requires forall k :: 0 <= k < |s| ==> PlainChar(s[k])
    ensures ParseInt(s) == SignedNumeral(s)
  {
    PlainText(s);
  }

  lemma ParseFloatExponentParts(whole: string, fraction: string, x: string, e: int)
    requires IsDigits(whole) && AllDigits(fraction)
    requires forall k :: 0 <= k < |x| ==> PlainChar(x[k])
    requires SignedNumeral(x) == Some(e)
    ensures ParseFloat((whole + "." + fraction) + "e" + x) == Some(Scaled(PointValue(whole, fraction), e))
  {
    var m := whole + "." + fraction;
    PointTextPlain(whole, fraction);
    PlainJoin(m, x);
    assert (m + "e" + x)[0] == whole[0];
    ParseFloatPlain(m + "e" + x);
    MantissaOfPoint(whole, fraction);
    UnsignedFloatExponent(m, x);
  }

  // ---------------------------------------------------------------- record values

  /** A field value of a log record: text, an integer, or null. */
  datatype Value = VNone | VStr(s: string) | VInt(n: int)

  type Record = map<string, Value>

  /** `record.get(field, default)`. */
  function Get(record: Record, field: string, default: Value): Value
  {
    if field in record then record[field] else default
  }

  /** Python truthiness of a field value. */
  predicate Truthy(v: Value)
  {
    match v
    case VNone => false
    case VStr(s) => s != ""
    case VInt(n) => n != 0
  }

  /** `str(value)`. */
  function RawText(v: Value): string
  {
    match v
    case VStr(s) => s
    case VInt(n) => IntToString(n)
    case VNone => "None"
  }

  /** Epoch numbers above this are read as milliseconds (`value / 1000 if value > 10**12`). */
  const MILLISECONDS_ABOVE := 1_000_000_000_000

  /** The seconds an epoch number stands for. */
  function EpochSeconds(n: int): (r: real)
    ensures n > MILLISECONDS_ABOVE ==> r * 1000.0 == n as real
    ensures n <= MILLISECONDS_ABOVE ==> r == n as real
  {
    if n > MILLISECONDS_ABOVE then n as real / 1000.0 else n as real
  }

  /**
   * The epoch seconds `datetime.fromtimestamp` accepts with the local
   * zone at UTC: from 0001-01-02 00:00:00 (it probes one day earlier) up
   * to, not including, the year 10000. Anything else raises.
   */
  const MIN_EPOCH := -62_135_510_400
  const END_EPOCH := 253_402_300_800

  predicate InEpochRange(t: real)
  {
    MIN_EPOCH as real <= t < END_EPOCH as real
  }

  /** A parsed JSON, TOML or YAML document (floating-point and date values are not modelled). */
  datatype Json = JNull | JBool(b: bool) | JInt(i: int) | JStr(s: string) | JList(items: seq<Json>) | JObj(fields: map<string, Json>)

  /** Python truthiness of a parsed value. */
  predicate JTruthy(j: Json)
  {
    match j
    case JNull => false
    case JBool(b) => b
    case JInt(i) => i != 0
    case JStr(s) => s != ""
    case JList(items) => items != []
    case JObj(fields) => fields != map[]
  }

  /** `obj.get(key, default)` on a dict. */
  function JGet(fields: map<string, Json>, key: string, default: Json): Json
  {
    if key in fields then fields[key] else default
  }

  /** The fields the selection queries write into each record they return. */
  const ANNOTATION_KEYS: set<string> := {"_source", "_selection_type", "_selection_value"}

  /** The three fields `get_logs_for_selection` writes into each record it returns. */
  function Annotate(record: Record, source: string, selectionType: string, selectionValue: string): (r: Record)
    ensures r.Keys == record.Keys + ANNOTATION_KEYS
    ensures r["_source"] == VStr(source)
    ensures r["_selection_type"] == VStr(selectionType)
    ensures r["_selection_value"] == VStr(selectionValue)
    ensures forall f :: f in record && f !in ANNOTATION_KEYS ==> r[f] == record[f]
  {
    record["_source" := VStr(source)]["_selection_type" := VStr(selectionType)]["_selection_value" := VStr(selectionValue)]
  }

  function Annotator(source: string, selectionType: string, selectionValue: string): Record -> Record
  {
    (r: Record) => Annotate(r, source, selectionType, selectionValue)
  }

  // ---------------------------------------------------------------- folds

  function Filter<T(==)>(s: seq<T>, p: T -> bool): (r: seq<T>)
    ensures |r| <= |s|
  {
    if s == [] then []
    else
      var f := Filter(s[..|s| - 1], p);
      if p(s[|s| - 1]) then f + [s[|s| - 1]] else f
  }

  lemma {:induction false} FilterConcat<T>(a: seq<T>, b: seq<T>, p: T -> bool)
    ensures Filter(a + b, p) == Filter(a, p) + Filter(b, p)
    decreases |b|
  {
    if b != [] {
      assert (a + b)[..|a + b| - 1] == a + b[..|b| - 1];
      FilterConcat(a, b[..|b| - 1], p);
    } else {
      assert a + b == a;
    }
  }

  lemma {:induction false} FilterMember<T>(s: seq<T>, p: T -> bool, x: T)
    ensures x in Filter(s, p) <==> x in s && p(x)
  {
    if s != [] {
      var q := s[..|s| - 1];
      FilterMember(q, p, x);
      assert s == q + [s[|s| - 1]];
    }
  }

  /** Reordering a sequence does not change how many of its elements pass a filter. */
  lemma {:induction false} FilterCountPermuted<T>(s: seq<T>, t: seq<T>, p: T -> bool)
    requires multiset(s) == multiset(t)
    ensures |Filter(s, p)| == |Filter(t, p)|
    decreases |s|
  {
    if s == [] {
      assert |t| == |multiset(t)| == 0;
    } else {
      var x := s[|s| - 1];
      var q := s[..|s| - 1];
      assert s == q + [x];
      FilterSnoc(q, x, p);
      assert multiset(q) == multiset(s) - multiset{x};
      assert x in multiset(t);
      var j :| 0 <= j < |t| && t[j] == x;
      MultisetRemove(t, j);
      FilterCountPermuted(q, t[..j] + t[j + 1..], p);
      FilterCountRemove(t, j, p);
    }
  }

  lemma FilterCountRemove<T>(t: seq<T>, j: int, p: T -> bool)
    requires 0 <= j < |t|
    ensures |Filter(t, p)| == |Filter(t[..j] + t[j + 1..], p)| + (if p(t[j]) then 1 else 0)
  {
    FilterCountSplice(t[..j], t[j], t[j + 1..], p);
    assert t == t[..j] + [t[j]] + t[j + 1..];
  }

  lemma MultisetRemove<T>(t: seq<T>, j: int)
    requires 0 <= j < |t|
    ensures multiset(t[..j] + t[j + 1..]) == multiset(t) - multiset{t[j]}
  {
    assert t == t[..j] + [t[j]] + t[j + 1..];
  }

  lemma FilterCountSplice<T>(a: seq<T>, x: T, b: seq<T>, p: T -> bool)
    ensures |Filter(a + [x] + b, p)| == |Filter(a + b, p)| + (if p(x) then 1 else 0)
  {
    FilterConcat(a, [x], p);
    FilterConcat(a + [x], b, p);
    FilterConcat(a, b, p);
    assert [x][..0] == [];
  }

  /** One more element of a prefix, as a loop over `s` sees it. */
  lemma PrefixSnoc<T>(s: seq<T>, i: int)
    requires 0 <= i < |s|
    ensures s[..i + 1] == s[..i] + [s[i]] && s[..i + 1][..i] == s[..i]
  {
  }

  lemma PrefixWhole<T>(s: seq<T>)
    ensures s[..|s|] == s
  {
  }

  /**
   * Python's slice `s[:n]`: the first `n` elements, or all but the last
   * `-n` when `n` is negative.
   */
  function Take<T>(s: seq<T>, n: int): (r: seq<T>)
    ensures n >= 0 ==> |r| == if n < |s| then n else |s|
    ensures n < 0 ==> |r| == if |s| + n > 0 then |s| + n else 0
    ensures r == s[..|r|]
  {
    if n >= 0 then (if n < |s| then s[..n] else s)
    else if |s| + n > 0 then s[..|s| + n] else []
  }

  lemma TakeOfTake<T>(s: seq<T>, m: int, n: int)
    requires 0 <= n <= m
    ensures Take(Take(s, m), n) == Take(s, n)
  {
  }

  /** `[f(x) for x in s]`. */
  function MapSeq<A, B>(s: seq<A>, f: A -> B): (r: seq<B>)
    ensures |r| == |s|
  {
    if s == [] then [] else MapSeq(s[..|s| - 1], f) + [f(s[|s| - 1])]
  }

  lemma {:induction false} MapSeqPointwise<A, B>(s: seq<A>, f: A -> B)
    ensures forall i :: 0 <= i < |s| ==> MapSeq(s, f)[i] == f(s[i])
  {
    if s != [] {
      var p := s[..|s| - 1];
      MapSeqPointwise(p, f);
      assert forall i :: 0 <= i < |p| ==> p[i] == s[i];
    }
  }

  lemma MapSeqSnoc<A, B>(s: seq<A>, x: A, f: A -> B)
    ensures MapSeq(s + [x], f) == MapSeq(s, f) + [f(x)]
  {
    assert (s + [x])[..|s + [x]| - 1] == s;
  }

  /** `y in [f(x) for x in s]` exactly when some `x` of `s` maps to `y`. */
  lemma MapSeqMember<A, B>(s: seq<A>, f: A -> B, y: B)
    ensures y in MapSeq(s, f) <==> exists x :: x in s && y == f(x)
  {
    MapSeqPointwise(s, f);
    if y in MapSeq(s, f) {
      var i :| 0 <= i < |s| && MapSeq(s, f)[i] == y;
      assert s[i] in s;
    }
    if exists x :: x in s && y == f(x) {
      var x :| x in s && y == f(x);
      var i :| 0 <= i < |s| && s[i] == x;
      assert MapSeq(s, f)[i] == y;
    }
  }

  /** A loop that appends `f(x)` for each `x` of `s`, in order. */
  method MapInOrder<A, B>(s: seq<A>, f: A -> B) returns (r: seq<B>)
    ensures r == MapSeq(s, f)
  {
    r := [];
    for i := 0 to |s|
      invariant r == MapSeq(s[..i], f)
    {
      assert s[..i + 1][..i] == s[..i];
      r := r + [f(s[i])];
    }
    assert s[..|s|] == s;
  }

  /** `[f(x) for x in s]` where `f` may raise (None): None as soon as one element does. */
  function Collected<A, B>(s: seq<A>, f: A -> Option<B>): (r: Option<seq<B>>)
    ensures r.None? <==> exists i :: 0 <= i < |s| && f(s[i]).None?
    ensures r.Some? ==> |r.value| == |s| && forall i :: 0 <= i < |s| ==> f(s[i]) == Some(r.value[i])
  {
    if s == [] then Some([])
    else
      var p := Collected(s[..|s| - 1], f);
      var y := f(s[|s| - 1]);
      assert forall i :: 0 <= i < |s| - 1 ==> s[..|s| - 1][i] == s[i];
      if p.Some? && y.Some? then Some(p.value + [y.value]) else None
  }

  /** The loop that appends `f(x)` for each `x` of `s` and stops at the first that raises. */
  method Collect<A, B>(s: seq<A>, f: A -> Option<B>) returns (r: Option<seq<B>>)
    ensures r == Collected(s, f)
  {
    var out: seq<B> := [];
    for i := 0 to |s|
      invariant Collected(s[..i], f) == Some(out)
    {
      assert s[..i + 1][..i] == s[..i];
      var y := f(s[i]);
      if y.None? {
        return None;
      }
      out := out + [y.value];
    }
    assert s[..|s|] == s;
    return Some(out);
  }

  /** `[f(i) for i in range(n)]`: none for `n` below one. */
  function Tabulated<T>(n: int, f: nat -> T): (r: seq<T>)
    ensures |r| == if n > 0 then n else 0
    ensures forall i :: 0 <= i < |r| ==> r[i] == f(i)
  {
    if n <= 0 then [] else Tabulated(n - 1, f) + [f(n - 1)]
  }

  /** The `for i in range(n): out.append(f(i))` loop. */
  method Tabulate<T>(n: int, f: nat -> T) returns (r: seq<T>)
    ensures r == Tabulated(n, f)
  {
    r := [];
    var i := 0;
    while i < n
      invariant 0 <= i <= (if n > 0 then n else 0)
      invariant r == Tabulated(i, f)
    {
      r := r + [f(i)];
      i := i + 1;
    }
  }

  /** How many elements of `s` equal `x` (`Counter(s)[x]`). */
  function Count<T(==)>(s: seq<T>, x: T): (r: nat)
    ensures r <= |s|
  {
    if s == [] then 0 else Count(s[..|s| - 1], x) + (if s[|s| - 1] == x then 1 else 0)
  }

  lemma {:induction false} CountConcat<T>(a: seq<T>, b: seq<T>, x: T)
    ensures Count(a + b, x) == Count(a, x) + Count(b, x)
    decreases |b|
  {
    if b == [] {
      assert a + b == a;
    } else {
      assert (a + b)[..|a + b| - 1] == a + b[..|b| - 1];
      CountConcat(a, b[..|b| - 1], x);
    }
  }

  lemma QuotientNonNegative(x: real, y: real)
    requires x >= 0.0 && y > 0.0
    ensures x / y >= 0.0
  {
    assert (x / y) * y == x;
  }

  lemma QuotientZero(x: real, y: real)
    requires y > 0.0
    ensures x / y == 0.0 <==> x == 0.0
  {
    assert (x / y) * y == x;
  }

  function SumInt<T(==)>(s: seq<T>, f: T -> int): int
  {
    if s == [] then 0 else SumInt(s[..|s| - 1], f) + f(s[|s| - 1])
  }

  function SumReal<T(==)>(s: seq<T>, f: T -> real): real
  {
    if s == [] then 0.0 else SumReal(s[..|s| - 1], f) + f(s[|s| - 1])
  }

  lemma {:induction false} SumIntConstant<T>(s: seq<T>, f: T -> int, c: int)
    requires forall i :: 0 <= i < |s| ==> f(s[i]) == c
    ensures SumInt(s, f) == c * |s|
  {
    if s != [] {
      SumIntConstant(s[..|s| - 1], f, c);
    }
  }

  lemma {:induction false} SumIntNonNegative<T>(s: seq<T>, f: T -> int)
    requires forall i :: 0 <= i < |s| ==> f(s[i]) >= 0
    ensures SumInt(s, f) >= 0
  {
    if s != [] {
      SumIntNonNegative(s[..|s| - 1], f);
    }
  }

  /** A sum of values that are each `c` times another is `c` times the other sum. */
  lemma {:induction false} SumIntScaled<T>(s: seq<T>, f: T -> int, g: T -> int, c: int)
    requires forall i :: 0 <= i < |s| ==> g(s[i]) == c * f(s[i])
    ensures SumInt(s, g) == c * SumInt(s, f)
  {
    if s != [] {
      SumIntScaled(s[..|s| - 1], f, g, c);
    }
  }

  /** A sum of values between `lo` and `hi` lies between `|s| * lo` and `|s| * hi`. */
  lemma {:induction false} SumRealBounds<T>(s: seq<T>, f: T -> real, lo: real, hi: real)
    requires forall i :: 0 <= i < |s| ==> lo <= f(s[i]) <= hi
    ensures |s| as real * lo <= SumReal(s, f) <= |s| as real * hi
  {
    if s != [] {
      var p := s[..|s| - 1];
      assert forall i :: 0 <= i < |p| ==> p[i] == s[i];
      SumRealBounds(p, f, lo, hi);
      var n := |p| as real;
      assert |s| as real == n + 1.0;
      assert (n + 1.0) * lo == n * lo + lo && (n + 1.0) * hi == n * hi + hi;
    }
  }

  lemma {:induction false} SumRealNonNegative<T>(s: seq<T>, f: T -> real)
    requires forall i :: 0 <= i < |s| ==> f(s[i]) >= 0.0
    ensures SumReal(s, f) >= 0.0
  {
    if s != [] {
      var p := s[..|s| - 1];
      assert forall i :: 0 <= i < |p| ==> p[i] == s[i];
      SumRealNonNegative(p, f);
    }
  }

  /** The mean of values that all lie in [lo, hi] lies in [lo, hi]. */
  lemma MeanRealBetween<T>(s: seq<T>, f: T -> real, lo: real, hi: real)
    requires |s| > 0 && forall i :: 0 <= i < |s| ==> lo <= f(s[i]) <= hi
    ensures lo <= SumReal(s, f) / |s| as real <= hi
  {
    SumRealBounds(s, f, lo, hi);
    QuotientBetween(SumReal(s, f), |s| as real, lo, hi);
  }

  lemma QuotientBetween(sum: real, n: real, lo: real, hi: real)
    requires n > 0.0 && n * lo <= sum <= n * hi
    ensures lo <= sum / n <= hi
  {
    var q := sum / n;
    assert q * n == sum;
    assert (q - lo) * n >= 0.0 && (hi - q) * n >= 0.0;
  }

  /** Smallest value of `f` over a non-empty sequence (`min(...)`). */
  function MinReal<T(==)>(s: seq<T>, f: T -> real): (r: real)
    requires |s| > 0
    ensures forall i :: 0 <= i < |s| ==> r <= f(s[i])
    ensures exists i :: 0 <= i < |s| && r == f(s[i])
  {
    if |s| == 1 then f(s[0])
    else
      var m := MinReal(s[..|s| - 1], f);
      assert forall i :: 0 <= i < |s| - 1 ==> s[..|s| - 1][i] == s[i];
      if f(s[|s| - 1]) < m then f(s[|s| - 1]) else m
  }

  /** Largest value of `f` over a non-empty sequence (`max(...)`). */
  function MaxReal<T(==)>(s: seq<T>, f: T -> real): (r: real)
    requires |s| > 0
    ensures forall i :: 0 <= i < |s| ==> f(s[i]) <= r
    ensures exists i :: 0 <= i < |s| && r == f(s[i])
  {
    if |s| == 1 then f(s[0])
    else
      var m := MaxReal(s[..|s| - 1], f);
      assert forall i :: 0 <= i < |s| - 1 ==> s[..|s| - 1][i] == s[i];
      if f(s[|s| - 1]) > m then f(s[|s| - 1]) else m
  }

  // ---------------------------------------------------------------- grouping

  predicate NoDup<K(==)>(ks: seq<K>)
  {
    forall i, j :: 0 <= i < j < |ks| ==> ks[i] != ks[j]
  }

  /** The distinct elements of `s` in order of first appearance. */
  function Distinct<T(==,!new)>(s: seq<T>): (r: seq<T>)
    ensures NoDup(r)
    ensures forall x :: x in r <==> x in s
    ensures |r| <= |s|
  {
    if s == [] then []
    else
      var d := Distinct(s[..|s| - 1]);
      assert s == s[..|s| - 1] + [s[|s| - 1]];
      if s[|s| - 1] in d then d else d + [s[|s| - 1]]
  }

  /**
   * The distinct keys of `s` in order of first appearance: the key order of
   * a `defaultdict` filled by one pass over `s`.
   */
  function KeysOf<T(==), K(==)>(s: seq<T>, key: T -> K): (r: seq<K>)
    ensures NoDup(r)
    ensures |r| <= |s|
  {
    if s == [] then []
    else
      var d := KeysOf(s[..|s| - 1], key);
      if key(s[|s| - 1]) in d then d else d + [key(s[|s| - 1])]
  }

  /** The members of `s` with key `k`, in input order (one `defaultdict` bucket). */
  function GroupOf<T(==), K(==)>(s: seq<T>, key: T -> K, k: K): (r: seq<T>)
    ensures |r| <= |s|
    ensures forall i :: 0 <= i < |r| ==> key(r[i]) == k
  {
    if s == [] then []
    else
      var g := GroupOf(s[..|s| - 1], key, k);
      if key(s[|s| - 1]) == k then g + [s[|s| - 1]] else g
  }

  /**
   * `step` applied to the bucket of each key of `keys`, in key order, and
   * the results concatenated: the shape of a loop over `groups.items()`.
   */
  function FlatMapGroups<T(==), K(==), R>(s: seq<T>, key: T -> K, keys: seq<K>, step: (K, seq<T>) -> seq<R>): seq<R>
  {
    if keys == [] then []
    else
      var k := keys[|keys| - 1];
      FlatMapGroups(s, key, keys[..|keys| - 1], step) + step(k, GroupOf(s, key, k))
  }

  /**
   * The loop step of a per-group pass: `acc` holds the output of the first
   * `j` keys and `found` the output for the next one, read from the group map.
   */
  lemma FlatMapGroupsAppend<T, K, R>(s: seq<T>, key: T -> K, keys: seq<K>, step: (K, seq<T>) -> seq<R>,
                                     groups: map<K, seq<T>>, j: int, acc: seq<R>, found: seq<R>)
    requires 0 <= j < |keys| && keys[j] in groups && groups[keys[j]] == GroupOf(s, key, keys[j])
    requires acc == FlatMapGroups(s, key, keys[..j], step) && found == step(keys[j], groups[keys[j]])
    ensures acc + found == FlatMapGroups(s, key, keys[..j + 1], step)
  {
    FlatMapGroupsStep(s, key, keys, step, j);
  }

  /** One more key appends that key's step output. */
  lemma FlatMapGroupsStep<T, K, R>(s: seq<T>, key: T -> K, keys: seq<K>, step: (K, seq<T>) -> seq<R>, j: int)
    requires 0 <= j < |keys|
    ensures FlatMapGroups(s, key, keys[..j + 1], step)
         == FlatMapGroups(s, key, keys[..j], step) + step(keys[j], GroupOf(s, key, keys[j]))
  {
    assert keys[..j + 1][..j] == keys[..j];
  }

  lemma {:induction false} KeysOfMember<T, K>(s: seq<T>, key: T -> K, k: K)
    ensures k in KeysOf(s, key) <==> exists i :: 0 <= i < |s| && key(s[i]) == k
  {
    if s != [] {
      var p := s[..|s| - 1];
      KeysOfMember(p, key, k);
      assert forall i :: 0 <= i < |p| ==> p[i] == s[i];
      if k in KeysOf(p, key) {
        var i :| 0 <= i < |p| && key(p[i]) == k;
        assert key(s[i]) == k;
      }
    }
  }

  lemma {:induction false} GroupOfMember<T, K>(s: seq<T>, key: T -> K, k: K, i: int)
    requires 0 <= i < |s| && key(s[i]) == k
    ensures s[i] in GroupOf(s, key, k)
  {
    if i < |s| - 1 {
      var p := s[..|s| - 1];
      assert p[i] == s[i];
      GroupOfMember(p, key, k, i);
    }
  }

  lemma {:induction false} GroupOfWithin<T, K>(s: seq<T>, key: T -> K, k: K, x: T)
    requires x in GroupOf(s, key, k)
    ensures x in s
  {
    var p := s[..|s| - 1];
    if x in GroupOf(p, key, k) {
      GroupOfWithin(p, key, k, x);
      assert p == s[..|s| - 1];
    }
  }

  lemma GroupOfNonEmpty<T, K>(s: seq<T>, key: T -> K, k: K)
    requires k in KeysOf(s, key)
    ensures |GroupOf(s, key, k)| > 0
  {
    KeysOfMember(s, key, k);
    var i :| 0 <= i < |s| && key(s[i]) == k;
    GroupOfMember(s, key, k, i);
  }

  lemma {:induction false} GroupOfAbsent<T, K>(s: seq<T>, key: T -> K, k: K)
    requires k !in KeysOf(s, key)
    ensures GroupOf(s, key, k) == []
  {
    if s != [] {
      GroupOfAbsent(s[..|s| - 1], key, k);
    }
  }

  lemma KeysOfSnoc<T, K>(p: seq<T>, x: T, key: T -> K)
    ensures KeysOf(p + [x], key)
         == if key(x) in KeysOf(p, key) then KeysOf(p, key) else KeysOf(p, key) + [key(x)]
  {
    assert (p + [x])[..|p + [x]| - 1] == p;
  }

  lemma GroupOfSnoc<T, K>(p: seq<T>, x: T, key: T -> K, k: K)
    ensures GroupOf(p + [x], key, k)
         == if key(x) == k then GroupOf(p, key, k) + [x] else GroupOf(p, key, k)
  {
    assert (p + [x])[..|p + [x]| - 1] == p;
  }

  lemma FilterSnoc<T>(p: seq<T>, x: T, f: T -> bool)
    ensures Filter(p + [x], f) == if f(x) then Filter(p, f) + [x] else Filter(p, f)
  {
    assert (p + [x])[..|p + [x]| - 1] == p;
  }

  /** Sum over the keys `ks` of the `f`-sum of each key's group. */
  function SumOverGroups<T(==), K(==)>(ks: seq<K>, s: seq<T>, key: T -> K, f: T -> int): int
  {
    if ks == [] then 0
    else SumOverGroups(ks[..|ks| - 1], s, key, f) + SumInt(GroupOf(s, key, ks[|ks| - 1]), f)
  }

  lemma {:induction false} SumOverGroupsSnoc<T, K>(ks: seq<K>, p: seq<T>, x: T, key: T -> K, f: T -> int)
    requires NoDup(ks)
    ensures SumOverGroups(ks, p + [x], key, f)
         == SumOverGroups(ks, p, key, f) + (if key(x) in ks then f(x) else 0)
  {
    if ks != [] {
      var init, last := ks[..|ks| - 1], ks[|ks| - 1];
      assert NoDup(init);
      SumOverGroupsSnoc(init, p, x, key, f);
      GroupOfSnoc(p, x, key, last);
      var g := GroupOf(p, key, last);
      if key(x) == last {
        assert (g + [x])[..|g + [x]| - 1] == g;
        assert SumInt(g + [x], f) == SumInt(g, f) + f(x);
        assert key(x) !in init;
      }
      assert key(x) in ks <==> key(x) in init || key(x) == last;
    }
  }

  lemma SumOverGroupsAppend<T, K>(ks: seq<K>, k: K, s: seq<T>, key: T -> K, f: T -> int)
    ensures SumOverGroups(ks + [k], s, key, f) == SumOverGroups(ks, s, key, f) + SumInt(GroupOf(s, key, k), f)
  {
    assert (ks + [k])[..|ks + [k]| - 1] == ks;
  }

  /**
   * Partition: summing `f` group by group over all keys gives the sum of
   * `f` over the whole sequence.
   */
  lemma {:induction false} SumOverAllGroups<T, K>(s: seq<T>, key: T -> K, f: T -> int)
    ensures SumOverGroups(KeysOf(s, key), s, key, f) == SumInt(s, f)
  {
    if s != [] {
      var p, x := s[..|s| - 1], s[|s| - 1];
      assert s == p + [x];
      var kp := KeysOf(p, key);
      SumOverAllGroups(p, key, f);
      SumOverGroupsSnoc(kp, p, x, key, f);
      KeysOfSnoc(p, x, key);
      if key(x) !in kp {
        SumOverGroupsAppend(kp, key(x), s, key, f);
        GroupOfAbsent(p, key, key(x));
        GroupOfSnoc(p, x, key, key(x));
        assert GroupOf(s, key, key(x)) == [x];
        assert SumInt([x], f) == f(x) by {
          assert [x][..0] == [];
        }
      }
    }
  }

  /** `groups` holds exactly the buckets of `s` by `key`, and `keys` their insertion order. */
  ghost predicate Grouped<T, K(!new)>(s: seq<T>, key: T -> K, keys: seq<K>, groups: map<K, seq<T>>)
  {
    && keys == KeysOf(s, key)
    && (forall k :: k in groups <==> k in keys)
    && (forall k {:trigger groups[k]} :: k in groups ==> groups[k] == GroupOf(s, key, k))
  }

  lemma GroupedSnoc<T, K(!new)>(s: seq<T>, x: T, key: T -> K, keys: seq<K>, groups: map<K, seq<T>>)
    requires Grouped(s, key, keys, groups)
    ensures key(x) in groups ==> Grouped(s + [x], key, keys, groups[key(x) := groups[key(x)] + [x]])
    ensures key(x) !in groups ==> Grouped(s + [x], key, keys + [key(x)], groups[key(x) := [x]])
  {
    var k := key(x);
    KeysOfSnoc(s, x, key);
    forall k' | k' in groups
      ensures GroupOf(s + [x], key, k') == if k' == k then groups[k'] + [x] else groups[k']
    {
      GroupOfSnoc(s, x, key, k');
    }
    if k !in groups {
      GroupOfAbsent(s, key, k);
      GroupOfSnoc(s, x, key, k);
    }
  }

  /**
   * One pass of `for x in s: if p(x): groups[key(x)].append(x)`: returns the
   * bucket keys in insertion order and the buckets.
   */
  method GroupWhere<T(==), K(==,!new)>(s: seq<T>, p: T -> bool, key: T -> K)
    returns (keys: seq<K>, groups: map<K, seq<T>>)
    ensures keys == KeysOf(Filter(s, p), key)
    ensures forall k :: k in groups <==> k in keys
    ensures forall i :: 0 <= i < |keys| ==> keys[i] in groups && groups[keys[i]] == GroupOf(Filter(s, p), key, keys[i])
  {
    keys, groups := [], map[];
    var i := 0;
    while i < |s|
      invariant 0 <= i <= |s|
      invariant Grouped(Filter(s[..i], p), key, keys, groups)
    {
      var x := s[i];
      assert s[..i + 1] == s[..i] + [x];
      FilterSnoc(s[..i], x, p);
      if p(x) {
        GroupedSnoc(Filter(s[..i], p), x, key, keys, groups);
        var k := key(x);
        if k in groups {
          groups := groups[k := groups[k] + [x]];
        } else {
          keys := keys + [k];
          groups := groups[k := [x]];
        }
      }
      i := i + 1;
    }
    assert s[..i] == s;
  }

  /** `acc = init; for x in s: acc = step(acc, x)`. */
  function FoldLeft<T, A>(s: seq<T>, step: (A, T) -> A, init: A): A
  {
    if s == [] then init else step(FoldLeft(s[..|s| - 1], step, init), s[|s| - 1])
  }

  lemma FoldLeftSnoc<T, A>(p: seq<T>, x: T, step: (A, T) -> A, init: A)
    ensures FoldLeft(p + [x], step, init) == step(FoldLeft(p, step, init), x)
  {
    assert (p + [x])[..|p + [x]| - 1] == p;
  }

  /** `if t and (not first or t < first): first = t`. */
  function Earlier(first: Option<real>, t: Option<real>): Option<real>
  {
    if t.Some? && (first.None? || t.value < first.value) then t else first
  }

  /** `if t and (not last or t > last): last = t`. */
  function Later(last: Option<real>, t: Option<real>): Option<real>
  {
    if t.Some? && (last.None? || t.value > last.value) then t else last
  }

  /** Folding `Earlier` finds the smallest present time, if any is present. */
  lemma {:induction false} EarliestFold(ts: seq<Option<real>>)
    ensures var r := FoldLeft(ts, Earlier, None);
            && (r.Some? <==> exists i :: 0 <= i < |ts| && ts[i].Some?)
            && (r.Some? ==> exists i :: 0 <= i < |ts| && ts[i] == r)
            && (forall i :: 0 <= i < |ts| && ts[i].Some? ==> r.Some? && r.value <= ts[i].value)
  {
    if ts != [] {
      var p := ts[..|ts| - 1];
      EarliestFold(p);
      assert forall i :: 0 <= i < |p| ==> p[i] == ts[i];
      var q := FoldLeft(p, Earlier, None);
      if q.Some? && FoldLeft(ts, Earlier, None) == q {
        var i :| 0 <= i < |p| && p[i] == q;
        assert ts[i] == q;
      }
    }
  }

  /** Folding `Later` finds the largest present time, if any is present. */
  lemma {:induction false} LatestFold(ts: seq<Option<real>>)
    ensures var r := FoldLeft(ts, Later, None);
            && (r.Some? <==> exists i :: 0 <= i < |ts| && ts[i].Some?)
            && (r.Some? ==> exists i :: 0 <= i < |ts| && ts[i] == r)
            && (forall i :: 0 <= i < |ts| && ts[i].Some? ==> r.Some? && r.value >= ts[i].value)
  {
    if ts != [] {
      var p := ts[..|ts| - 1];
      LatestFold(p);
      assert forall i :: 0 <= i < |p| ==> p[i] == ts[i];
      var q := FoldLeft(p, Later, None);
      if q.Some? && FoldLeft(ts, Later, None) == q {
        var i :| 0 <= i < |p| && p[i] == q;
        assert ts[i] == q;
      }
    }
  }

  /**
   * `accs` holds, for each key of `s` in insertion order `keys`, the fold of
   * `step` over that key's bucket: a `defaultdict(lambda: init)` whose entry
   * `accs[key(x)]` is updated by `step` for each `x` of `s`.
   */
  ghost predicate Folded<T, K(!new), A>(s: seq<T>, key: T -> K, step: (A, T) -> A, init: A, keys: seq<K>, accs: map<K, A>)
  {
    && keys == KeysOf(s, key)
    && (forall k :: k in accs <==> k in keys)
    && (forall k {:trigger accs[k]} :: k in accs ==> accs[k] == FoldLeft(GroupOf(s, key, k), step, init))
  }

  /** Adding an element whose key already has an accumulator steps that accumulator. */
  lemma FoldedSnocPresent<T, K(!new), A>(s: seq<T>, x: T, key: T -> K, step: (A, T) -> A, init: A, keys: seq<K>, accs: map<K, A>)
    requires Folded(s, key, step, init, keys, accs) && key(x) in accs
    ensures Folded(s + [x], key, step, init, keys, accs[key(x) := step(accs[key(x)], x)])
  {
    var k := key(x);
    var accs' := accs[k := step(accs[k], x)];
    assert KeysOf(s + [x], key) == keys by {
      KeysOfSnoc(s, x, key);
      assert k in keys;
    }
    assert forall k' :: k' in accs' <==> k' in keys;
    forall k' | k' in accs'
      ensures accs'[k'] == FoldLeft(GroupOf(s + [x], key, k'), step, init)
    {
      GroupOfSnoc(s, x, key, k');
      if k' == k {
        FoldLeftSnoc(GroupOf(s, key, k), x, step, init);
      } else {
        assert accs'[k'] == accs[k'];
      }
    }
  }

  /** Adding an element with a new key appends the key and starts its accumulator. */
  lemma FoldedSnocAbsent<T, K(!new), A>(s: seq<T>, x: T, key: T -> K, step: (A, T) -> A, init: A, keys: seq<K>, accs: map<K, A>)
    requires Folded(s, key, step, init, keys, accs) && key(x) !in accs
    ensures Folded(s + [x], key, step, init, keys + [key(x)], accs[key(x) := step(init, x)])
  {
    var k := key(x);
    var accs' := accs[k := step(init, x)];
    KeysOfSnoc(s, x, key);
    forall k' | k' in accs'
      ensures accs'[k'] == FoldLeft(GroupOf(s + [x], key, k'), step, init)
    {
      GroupOfSnoc(s, x, key, k');
      if k' == k {
        GroupOfAbsent(s, key, k);
        FoldLeftSnoc([], x, step, init);
      }
    }
  }

  /** `comm = comms[key(e)]` followed by the update of `comm` by `e`. */
  method Absorb<T(==), K(==,!new), A>(ghost done: seq<T>, e: T, key: T -> K, step: (A, T) -> A, init: A,
                                      keys: seq<K>, accs: map<K, A>)
    returns (keys': seq<K>, accs': map<K, A>)
    requires Folded(done, key, step, init, keys, accs)
    ensures Folded(done + [e], key, step, init, keys', accs')
  {
    var k := key(e);
    if k in accs {
      FoldedSnocPresent(done, e, key, step, init, keys, accs);
      keys', accs' := keys, accs[k := step(accs[k], e)];
    } else {
      FoldedSnocAbsent(done, e, key, step, init, keys, accs);
      keys', accs' := keys + [k], accs[k := step(init, e)];
    }
  }

  /**
   * One pass of `for x in s: if counted(x): accs[key(x)] = step(accs[key(x)], x)`
   * over a `defaultdict(lambda: init)`, where a counted element that
   * `rejected` holds of raises: the pass stops there with `raised`.
   */
  method FoldGroupsUnlessRaised<T(==), K(==,!new), A>(s: seq<T>, counted: T -> bool, rejected: T -> bool,
                                                      key: T -> K, step: (A, T) -> A, init: A)
    returns (raised: bool, keys: seq<K>, accs: map<K, A>)
    ensures raised <==> exists i :: 0 <= i < |s| && counted(s[i]) && rejected(s[i])
    ensures !raised ==> Folded(Filter(s, counted), key, step, init, keys, accs)
  {
    keys, accs := [], map[];
    for i := 0 to |s|
      invariant forall j :: 0 <= j < i ==> !(counted(s[j]) && rejected(s[j]))
      invariant keys == FoldedState(Filter(s[..i], counted), key, step, init).0
      invariant accs == FoldedState(Filter(s[..i], counted), key, step, init).1
    {
      var x := s[i];
      if counted(x) && rejected(x) {
        return true, keys, accs;
      }
      assert s[..i + 1] == s[..i] + [x];
      FilterSnoc(s[..i], x, counted);
      if counted(x) {
        FoldedStateSnoc(Filter(s[..i], counted), x, key, step, init);
        var k := key(x);
        if k in accs {
          accs := accs[k := step(accs[k], x)];
        } else {
          keys, accs := keys + [k], accs[k := step(init, x)];
        }
      }
    }
    assert s[..|s|] == s;
    FoldedStateFolded(Filter(s, counted), key, step, init);
    raised := false;
  }

  /** The keys and accumulators after one more element: the `defaultdict` update. */
  function AbsorbStep<T, K(==), A>(st: (seq<K>, map<K, A>), x: T, key: T -> K, step: (A, T) -> A, init: A): (seq<K>, map<K, A>)
  {
    var k := key(x);
    if k in st.1 then (st.0, st.1[k := step(st.1[k], x)]) else (st.0 + [k], st.1[k := step(init, x)])
  }

  /** The keys and accumulators after a pass over `s`. */
  function FoldedState<T, K(==), A>(s: seq<T>, key: T -> K, step: (A, T) -> A, init: A): (seq<K>, map<K, A>)
  {
    if s == [] then ([], map[]) else AbsorbStep(FoldedState(s[..|s| - 1], key, step, init), s[|s| - 1], key, step, init)
  }

  lemma FoldedStateSnoc<T, K, A>(p: seq<T>, x: T, key: T -> K, step: (A, T) -> A, init: A)
    ensures FoldedState(p + [x], key, step, init) == AbsorbStep(FoldedState(p, key, step, init), x, key, step, init)
  {
    assert (p + [x])[..|p + [x]| - 1] == p;
  }

  /** The state a pass computes is the one `Folded` describes. */
  lemma {:induction false} FoldedStateFolded<T, K(!new), A>(s: seq<T>, key: T -> K, step: (A, T) -> A, init: A)
    ensures Folded(s, key, step, init, FoldedState(s, key, step, init).0, FoldedState(s, key, step, init).1)
  {
    if s != [] {
      var p, x := s[..|s| - 1], s[|s| - 1];
      assert s == p + [x];
      FoldedStateFolded(p, key, step, init);
      var st := FoldedState(p, key, step, init);
      if key(x) in st.1 {
        FoldedSnocPresent(p, x, key, step, init, st.0, st.1);
      } else {
        FoldedSnocAbsent(p, x, key, step, init, st.0, st.1);
      }
    }
  }

  /** The per-group step that emits from a bucket's folded accumulator. */
  function FoldedEmitter<K, T, A, R>(emit: (K, A) -> seq<R>, step: (A, T) -> A, init: A): (K, seq<T>) -> seq<R>
  {
    (k: K, g: seq<T>) => emit(k, FoldLeft(g, step, init))
  }

  /** `for key, acc in accs.items(): out += emit(key, acc)`, over accumulators `Folded` describes. */
  method EmitFolded<T(==), K(==,!new), A, R>(ghost s: seq<T>, key: T -> K, step: (A, T) -> A, init: A,
                                            keys: seq<K>, accs: map<K, A>, emit: (K, A) -> seq<R>)
    returns (out: seq<R>)
    requires Folded(s, key, step, init, keys, accs)
    ensures out == FlatMapGroups(s, key, keys, FoldedEmitter(emit, step, init))
  {
    out := [];
    for j := 0 to |keys|
      invariant out == FlatMapGroups(s, key, keys[..j], FoldedEmitter(emit, step, init))
    {
      FlatMapGroupsStep(s, key, keys, FoldedEmitter(emit, step, init), j);
      out := out + emit(keys[j], accs[keys[j]]);
    }
    assert keys[..|keys|] == keys;
  }

  /** A pass whose step yields exactly one output per group yields one per key. */
  lemma {:induction false} FlatMapGroupsSingletons<T, K, R>(s: seq<T>, key: T -> K, keys: seq<K>, step: (K, seq<T>) -> seq<R>)
    requires forall k, g :: |step(k, g)| == 1
    ensures |FlatMapGroups(s, key, keys, step)| == |keys|
  {
    if keys != [] {
      FlatMapGroupsSingletons(s, key, keys[..|keys| - 1], step);
    }
  }

  /** Every output of a per-group pass comes from the group of one of its keys. */
  lemma {:induction false} FlatMapGroupsMember<T, K, R>(s: seq<T>, key: T -> K, keys: seq<K>, step: (K, seq<T>) -> seq<R>, y: R)
    ensures y in FlatMapGroups(s, key, keys, step) <==>
              exists j :: 0 <= j < |keys| && y in step(keys[j], GroupOf(s, key, keys[j]))
  {
    if keys != [] {
      var p := keys[..|keys| - 1];
      FlatMapGroupsMember(s, key, p, step, y);
      assert forall j :: 0 <= j < |p| ==> p[j] == keys[j];
      if y in step(keys[|keys| - 1], GroupOf(s, key, keys[|keys| - 1])) {
      } else if y in FlatMapGroups(s, key, p, step) {
        var j :| 0 <= j < |p| && y in step(p[j], GroupOf(s, key, p[j]));
        assert y in step(keys[j], GroupOf(s, key, keys[j]));
      }
    }
  }

  /** `counts[key(x)] += 1` for each `x` of `s`: a `defaultdict(int)` or `Counter` filled in one pass. */
  function Tally<T(==), K(==)>(s: seq<T>, key: T -> K): map<K, int>
  {
    if s == [] then map[]
    else
      var m := Tally(s[..|s| - 1], key);
      var k := key(s[|s| - 1]);
      m[k := (if k in m then m[k] else 0) + 1]
  }

  /** Key `k` has a tally entry exactly when it is a key, and the entry is its bucket's size. */
  lemma {:induction false} TallyAt<T, K>(s: seq<T>, key: T -> K, k: K)
    ensures k in Tally(s, key) <==> k in KeysOf(s, key)
    ensures k in Tally(s, key) ==> Tally(s, key)[k] == |GroupOf(s, key, k)|
  {
    if s != [] {
      var p := s[..|s| - 1];
      TallyAt(p, key, k);
      if k == key(s[|s| - 1]) && k !in Tally(p, key) {
        GroupOfAbsent(p, key, k);
      }
    }
  }

  lemma TallyCounts<T, K>(s: seq<T>, key: T -> K)
    ensures forall k :: k in Tally(s, key) <==> k in KeysOf(s, key)
    ensures forall k | k in Tally(s, key) :: Tally(s, key)[k] == |GroupOf(s, key, k)|
  {
    var m := Tally(s, key);
    forall k
      ensures k in m <==> k in KeysOf(s, key)
    {
      TallyAt(s, key, k);
    }
    forall k | k in m
      ensures m[k] == |GroupOf(s, key, k)|
    {
      TallyAt(s, key, k);
    }
  }

  lemma TallySnoc<T, K>(s: seq<T>, x: T, key: T -> K)
    ensures Tally(s + [x], key)
         == Tally(s, key)[key(x) := (if key(x) in Tally(s, key) then Tally(s, key)[key(x)] else 0) + 1]
  {
    assert (s + [x])[..|s + [x]| - 1] == s;
  }

  /** Sum of `m[k]` over the keys `ks`. */
  function SumAt<K>(ks: seq<K>, m: map<K, int>): int
    requires forall i :: 0 <= i < |ks| ==> ks[i] in m
  {
    if ks == [] then 0 else SumAt(ks[..|ks| - 1], m) + m[ks[|ks| - 1]]
  }

  lemma {:induction false} SumAtGroups<T, K>(ks: seq<K>, s: seq<T>, key: T -> K, m: map<K, int>)
    requires forall i :: 0 <= i < |ks| ==> ks[i] in m && m[ks[i]] == |GroupOf(s, key, ks[i])|
    ensures SumAt(ks, m) == SumOverGroups(ks, s, key, _ => 1)
  {
    if ks != [] {
      SumAtGroups(ks[..|ks| - 1], s, key, m);
      SumIntConstant(GroupOf(s, key, ks[|ks| - 1]), _ => 1, 1);
    }
  }

  /** The tally's counts, summed over all its keys, add up to the number of elements. */
  lemma TallyTotal<T, K>(s: seq<T>, key: T -> K)
    ensures forall i :: 0 <= i < |KeysOf(s, key)| ==> KeysOf(s, key)[i] in Tally(s, key)
    ensures SumAt(KeysOf(s, key), Tally(s, key)) == |s|
  {
    var ks, m := KeysOf(s, key), Tally(s, key);
    forall i | 0 <= i < |ks|
      ensures ks[i] in m && m[ks[i]] == |GroupOf(s, key, ks[i])|
    {
      TallyAt(s, key, ks[i]);
    }
    SumAtGroups(ks, s, key, m);
    SumOverAllGroups(s, key, _ => 1);
    SumIntConstant(s, _ => 1, 1);
  }

  // ---------------------------------------------------------------- sorting

  /** A sort key: compared on `major` first, then on `minor`. */
  datatype Rank = Rank(major: real, minor: real)

  predicate Above(a: Rank, b: Rank)
  {
    a.major > b.major || (a.major == b.major && a.minor > b.minor)
  }

  /** Inserts `x` before the first element whose key is not above `x`'s key. */
  function InsertDesc<T(==)>(x: T, s: seq<T>, key: T -> Rank): (r: seq<T>)
    ensures multiset(r) == multiset([x] + s)
  {
    if s == [] || !Above(key(s[0]), key(x)) then [x] + s
    else
      assert s == [s[0]] + s[1..];
      [s[0]] + InsertDesc(x, s[1..], key)
  }

  /** Stable descending sort (insertion sort, Python's `sort(reverse=True)`). */
  function SortDesc<T(==)>(s: seq<T>, key: T -> Rank): (r: seq<T>)
    ensures multiset(r) == multiset(s)
  {
    if s == [] then []
    else
      assert s == [s[0]] + s[1..];
      InsertDesc(s[0], SortDesc(s[1..], key), key)
  }

  predicate SortedDesc<T(==)>(s: seq<T>, key: T -> Rank)
  {
    forall i, j :: 0 <= i < j < |s| ==> !Above(key(s[j]), key(s[i]))
  }

  lemma {:induction false} InsertDescSorted<T>(x: T, s: seq<T>, key: T -> Rank)
    requires SortedDesc(s, key)
    ensures SortedDesc(InsertDesc(x, s, key), key)
    ensures |InsertDesc(x, s, key)| == |s| + 1
    ensures forall i :: 0 <= i < |InsertDesc(x, s, key)| ==>
              InsertDesc(x, s, key)[i] == x || InsertDesc(x, s, key)[i] in s
  {
    if s != [] && Above(key(s[0]), key(x)) {
      var tail := s[1..];
      SortedDescTail(s, key);
      InsertDescSorted(x, tail, key);
      var t := InsertDesc(x, tail, key);
      assert InsertDesc(x, s, key) == [s[0]] + t;
      SortedDescCons(x, s, t, key);
    }
  }

  lemma SortedDescTail<T>(s: seq<T>, key: T -> Rank)
    requires s != [] && SortedDesc(s, key)
    ensures SortedDesc(s[1..], key)
  {
    var tail := s[1..];
    forall i, j | 0 <= i < j < |tail| ensures !Above(key(tail[j]), key(tail[i])) {
      assert tail[i] == s[i + 1] && tail[j] == s[j + 1];
    }
  }

  /** Putting the head of `s` back in front of a sorted mix of `x` and the tail of `s`. */
  lemma SortedDescCons<T>(x: T, s: seq<T>, t: seq<T>, key: T -> Rank)
    requires s != [] && Above(key(s[0]), key(x)) && SortedDesc(s, key) && SortedDesc(t, key)
    requires forall i :: 0 <= i < |t| ==> t[i] == x || t[i] in s[1..]
    ensures SortedDesc([s[0]] + t, key)
    ensures forall i :: 0 <= i < |[s[0]] + t| ==> ([s[0]] + t)[i] == x || ([s[0]] + t)[i] in s
  {
    var r := [s[0]] + t;
    forall i, j | 0 <= i < j < |r| ensures !Above(key(r[j]), key(r[i])) {
      assert r[j] == t[j - 1];
      if i == 0 {
        if t[j - 1] != x {
          var k :| 0 <= k < |s[1..]| && s[1..][k] == t[j - 1];
          assert s[k + 1] == r[j];
        }
      } else {
        assert r[i] == t[i - 1];
      }
    }
    forall i | 0 <= i < |r| ensures r[i] == x || r[i] in s {
      if i > 0 {
        assert r[i] == t[i - 1];
      }
    }
  }

  lemma {:induction false} SortDescSorted<T>(s: seq<T>, key: T -> Rank)
    ensures SortedDesc(SortDesc(s, key), key)
    ensures |SortDesc(s, key)| == |s|
  {
    if s != [] {
      SortDescSorted(s[1..], key);
      InsertDescSorted(s[0], SortDesc(s[1..], key), key);
    }
  }

  /**
   * `sorted(s, reverse=True)[:n]`: drawn from `s`, still sorted, and no
   * element left out ranks above one that was kept.
   */
  lemma TopOfSorted<T>(s: seq<T>, key: T -> Rank, n: int)
    ensures var r := Take(SortDesc(s, key), n);
            && (forall x :: x in r ==> x in s)
            && SortedDesc(r, key)
            && forall x, y :: x in r && y in s && y !in r ==> !Above(key(y), key(x))
  {
    var t := SortDesc(s, key);
    var r := Take(t, n);
    SortDescSorted(s, key);
    forall x | x in r ensures x in s {
      assert x in multiset(t);
    }
    forall x, y | x in r && y in s && y !in r ensures !Above(key(y), key(x)) {
      assert y in multiset(t);
      var i :| 0 <= i < |r| && r[i] == x;
      var j :| 0 <= j < |t| && t[j] == y;
      assert t[i] == x;
      assert i < j;
    }
  }

  /** The elements of `s` whose key is `v`, in order. */
  function KeyedAs<T(==), K(==)>(s: seq<T>, key: T -> K, v: K): (r: seq<T>)
    ensures |r| <= |s|
  {
    if s == [] then [] else (if key(s[0]) == v then [s[0]] else []) + KeyedAs(s[1..], key, v)
  }

  /** Picking out one key's elements distributes over concatenation. */
  lemma {:induction false} KeyedAsAppend<T, K>(a: seq<T>, b: seq<T>, key: T -> K, v: K)
    ensures KeyedAs(a + b, key, v) == KeyedAs(a, key, v) + KeyedAs(b, key, v)
  {
    if a != [] {
      KeyedAsAppend(a[1..], b, key, v);
      assert (a + b)[0] == a[0] && (a + b)[1..] == a[1..] + b;
    } else {
      assert a + b == b;
    }
  }

  lemma {:induction false} KeyedAsInsertDesc<T>(x: T, s: seq<T>, key: T -> Rank, v: Rank)
    ensures KeyedAs(InsertDesc(x, s, key), key, v) == KeyedAs([x] + s, key, v)
  {
    assert ([x] + s)[0] == x && ([x] + s)[1..] == s;
    if s != [] && Above(key(s[0]), key(x)) {
      KeyedAsInsertDesc(x, s[1..], key, v);
      var r := InsertDesc(x, s, key);
      assert r[0] == s[0] && r[1..] == InsertDesc(x, s[1..], key);
      assert ([x] + s[1..])[0] == x && ([x] + s[1..])[1..] == s[1..];
    }
  }

  /**
   * Stability: the elements sharing any one key keep their relative input
   * order.
   */
  lemma {:induction false} SortDescStable<T>(s: seq<T>, key: T -> Rank, v: Rank)
    ensures KeyedAs(SortDesc(s, key), key, v) == KeyedAs(s, key, v)
  {
    if s != [] {
      SortDescStable(s[1..], key, v);
      KeyedAsInsertDesc(s[0], SortDesc(s[1..], key), key, v);
      assert ([s[0]] + SortDesc(s[1..], key))[1..] == SortDesc(s[1..], key);
    }
  }

  /** Stable ascending sort on a real key (`sort(key=...)`). */
  function SortAsc<T(==)>(s: seq<T>, key: T -> real): (r: seq<T>)
    ensures multiset(r) == multiset(s)
  {
    SortDesc(s, x => Rank(-key(x), 0.0))
  }

  lemma SortAscSorted<T>(s: seq<T>, key: T -> real)
    ensures |SortAsc(s, key)| == |s|
    ensures forall i, j :: 0 <= i < j < |SortAsc(s, key)| ==>
              key(SortAsc(s, key)[i]) <= key(SortAsc(s, key)[j])
  {
    SortDescSorted(s, x => Rank(-key(x), 0.0));
  }

  /** Rank on a single real key. */
  function ByReal(k: real): Rank
  {
    Rank(k, 0.0)
  }

  // ---------------------------------------------------------------- sorting on a text key

  /** Python's `<` on strings: character by character, a proper prefix first. */
  predicate StrBefore(a: string, b: string)
  {
    if a == [] then b != []
    else if b == [] then false
    else if a[0] != b[0] then a[0] < b[0]
    else StrBefore(a[1..], b[1..])
  }

  lemma {:induction false} StrBeforeIrreflexive(a: string)
    ensures !StrBefore(a, a)
  {
    if a != [] {
      StrBeforeIrreflexive(a[1..]);
    }
  }

  lemma {:induction false} StrBeforeTransitive(a: string, b: string, c: string)
    requires StrBefore(a, b) && StrBefore(b, c)
    ensures StrBefore(a, c)
  {
    if a != [] && a[0] == b[0] && b[0] == c[0] {
      StrBeforeTransitive(a[1..], b[1..], c[1..]);
    }
  }

  lemma {:induction false} StrBeforeTotal(a: string, b: string)
    ensures a == b || StrBefore(a, b) || StrBefore(b, a)
  {
    if a != [] && b != [] && a[0] == b[0] {
      StrBeforeTotal(a[1..], b[1..]);
      assert a == [a[0]] + a[1..] && b == [b[0]] + b[1..];
    }
  }

  lemma StrBeforeAsymmetric(a: string, b: string)
    requires StrBefore(a, b)
    ensures !StrBefore(b, a)
  {
    if StrBefore(b, a) {
      StrBeforeTransitive(a, b, a);
      StrBeforeIrreflexive(a);
    }
  }

  /** Inserts `x` before the first element whose key is not after `x`'s key. */
  function InsertByTextDesc<T(==)>(x: T, s: seq<T>, key: T -> string): (r: seq<T>)
    ensures multiset(r) == multiset([x] + s)
  {
    if s == [] || !StrBefore(key(x), key(s[0])) then [x] + s
    else
      assert s == [s[0]] + s[1..];
      [s[0]] + InsertByTextDesc(x, s[1..], key)
  }

  /** `sort(key=key, reverse=True)` on a text key: stable insertion sort. */
  function SortByTextDesc<T(==)>(s: seq<T>, key: T -> string): (r: seq<T>)
    ensures multiset(r) == multiset(s)
  {
    if s == [] then []
    else
      assert s == [s[0]] + s[1..];
      InsertByTextDesc(s[0], SortByTextDesc(s[1..], key), key)
  }

  predicate SortedByTextDesc<T>(s: seq<T>, key: T -> string)
  {
    forall i, j :: 0 <= i < j < |s| ==> !StrBefore(key(s[i]), key(s[j]))
  }

  /** An element not below the head of a sorted list is not below any of it. */
  lemma NotBelowSorted<T>(x: T, s: seq<T>, key: T -> string)
    requires s != [] && SortedByTextDesc(s, key) && !StrBefore(key(x), key(s[0]))
    ensures SortedByTextDesc([x] + s, key)
  {
    var r := [x] + s;
    forall i, j | 0 <= i < j < |r| ensures !StrBefore(key(r[i]), key(r[j])) {
      if i == 0 && j > 1 {
        assert r[j] == s[j - 1];
        if StrBefore(key(x), key(s[j - 1])) {
          StrBeforeTotal(key(x), key(s[0]));
          if StrBefore(key(s[0]), key(x)) {
            StrBeforeTransitive(key(s[0]), key(x), key(s[j - 1]));
          }
        }
      } else if i > 0 {
        assert r[i] == s[i - 1] && r[j] == s[j - 1];
      }
    }
  }

  lemma {:induction false} InsertByTextSorted<T>(x: T, s: seq<T>, key: T -> string)
    requires SortedByTextDesc(s, key)
    ensures SortedByTextDesc(InsertByTextDesc(x, s, key), key)
    ensures |InsertByTextDesc(x, s, key)| == |s| + 1
    ensures forall i :: 0 <= i < |InsertByTextDesc(x, s, key)| ==>
              InsertByTextDesc(x, s, key)[i] == x || InsertByTextDesc(x, s, key)[i] in s
  {
    if s == [] {
    } else if !StrBefore(key(x), key(s[0])) {
      NotBelowSorted(x, s, key);
    } else {
      var tail := s[1..];
      assert SortedByTextDesc(tail, key) by {
        forall i, j | 0 <= i < j < |tail| ensures !StrBefore(key(tail[i]), key(tail[j])) {
          assert tail[i] == s[i + 1] && tail[j] == s[j + 1];
        }
      }
      InsertByTextSorted(x, tail, key);
      var t := InsertByTextDesc(x, tail, key);
      assert InsertByTextDesc(x, s, key) == [s[0]] + t;
      StrBeforeAsymmetric(key(x), key(s[0]));
      HeadAboveSorted(x, s, t, key);
    }
  }

  /** Putting the head of `s` back in front of a sorted mix of `x` and the tail of `s`. */
  lemma HeadAboveSorted<T>(x: T, s: seq<T>, t: seq<T>, key: T -> string)
    requires s != [] && !StrBefore(key(s[0]), key(x)) && SortedByTextDesc(s, key) && SortedByTextDesc(t, key)
    requires forall i :: 0 <= i < |t| ==> t[i] == x || t[i] in s[1..]
    ensures SortedByTextDesc([s[0]] + t, key)
    ensures forall i :: 0 <= i < |[s[0]] + t| ==> ([s[0]] + t)[i] == x || ([s[0]] + t)[i] in s
  {
    var r := [s[0]] + t;
    forall i, j | 0 <= i < j < |r| ensures !StrBefore(key(r[i]), key(r[j])) {
      assert r[j] == t[j - 1];
      if i == 0 {
        if t[j - 1] != x {
          var k :| 0 <= k < |s[1..]| && s[1..][k] == t[j - 1];
          assert s[k + 1] == r[j];
        }
      } else {
        assert r[i] == t[i - 1];
      }
    }
    forall i | 0 <= i < |r| ensures r[i] == x || r[i] in s {
      if i > 0 {
        assert r[i] == t[i - 1];
      }
    }
  }

  lemma {:induction false} SortByTextSorted<T>(s: seq<T>, key: T -> string)
    ensures SortedByTextDesc(SortByTextDesc(s, key), key)
    ensures |SortByTextDesc(s, key)| == |s|
  {
    if s != [] {
      SortByTextSorted(s[1..], key);
      InsertByTextSorted(s[0], SortByTextDesc(s[1..], key), key);
    }
  }

  lemma {:induction false} KeyedAsInsert<T>(x: T, s: seq<T>, key: T -> string, v: string)
    ensures KeyedAs(InsertByTextDesc(x, s, key), key, v) == KeyedAs([x] + s, key, v)
  {
    assert ([x] + s)[0] == x && ([x] + s)[1..] == s;
    if s != [] && StrBefore(key(x), key(s[0])) {
      KeyedAsInsert(x, s[1..], key, v);
      var r := InsertByTextDesc(x, s, key);
      assert r[0] == s[0] && r[1..] == InsertByTextDesc(x, s[1..], key);
      assert ([x] + s[1..])[0] == x && ([x] + s[1..])[1..] == s[1..];
      if key(x) == v && key(s[0]) == v {
        StrBeforeIrreflexive(v);
      }
    }
  }

  /** Stability: the elements sharing any one key keep their input order. */
  lemma {:induction false} SortByTextStable<T>(s: seq<T>, key: T -> string, v: string)
    ensures KeyedAs(SortByTextDesc(s, key), key, v) == KeyedAs(s, key, v)
  {
    if s != [] {
      SortByTextStable(s[1..], key, v);
      KeyedAsInsert(s[0], SortByTextDesc(s[1..], key), key, v);
      assert ([s[0]] + SortByTextDesc(s[1..], key))[1..] == SortByTextDesc(s[1..], key);
    }
  }
}

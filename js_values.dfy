/** The slice of JavaScript value semantics the core leans on: `undefined`,
    numbers that may be NaN, the `x || d` default, `<` against NaN,
    `Array.prototype.findIndex`, the decimal cases of `Number(string)`, and
    `parseInt(string)` with its decimal and `0x` hexadecimal forms. */
module JsValues {
  import opened JsText

  /** A value that may be `undefined`. */
  datatype Option<T> = None | Some(value: T)

  /** A JavaScript number: NaN or a finite value (held exactly). */
  datatype JsNumber = NaN | Num(value: real)

  /** Truthiness of a number: NaN and 0 are falsy. */
  predicate IsTruthy(n: JsNumber) { n.Num? && n.value != 0.0 }

  /** `n || d` for a number `n`. */
  function OrDefault(n: JsNumber, d: real): (r: JsNumber)
    ensures r.Num?
    ensures IsTruthy(n) ==> r == n
    ensures !IsTruthy(n) ==> r == Num(d)
  {
    if IsTruthy(n) then n else Num(d)
  }

  /** `x < n`: every comparison with NaN is false. */
  predicate LessThan(x: real, n: JsNumber) { n.Num? && x < n.value }

  /** `Array.prototype.findIndex`: the first index whose element satisfies `p`, or -1. */
  function FindIndex<T>(s: seq<T>, p: T -> bool): (r: int)
    ensures -1 <= r < |s|
    ensures r == -1 <==> forall j :: 0 <= j < |s| ==> !p(s[j])
    ensures r != -1 ==> p(s[r]) && forall j :: 0 <= j < r ==> !p(s[j])
  {
    if s == [] then -1
    else if p(s[0]) then 0
    else
      var k := FindIndex(s[1..], p);
      if k == -1 then -1 else k + 1
  }

  // ---- decimal digits ----

  predicate AllDigits(s: string) { forall i :: 0 <= i < |s| ==> IsDigit(s[i]) }

  function DigitValue(c: char): (d: nat)
    requires IsDigit(c)
    ensures d < 10
  {
    c as int - '0' as int
  }

  function DigitChar(d: nat): (c: char)
    requires d < 10
    ensures IsDigit(c) && DigitValue(c) == d
  {
    ('0' as int + d) as char
  }

  /** The value of a string of decimal digits, most significant first. */
  function DigitsValue(s: string): nat
    requires AllDigits(s)
  {
    if s == [] then 0 else DigitsValue(s[..|s| - 1]) * 10 + DigitValue(s[|s| - 1])
  }

  function Pow10(n: nat): (r: nat)
    ensures r >= 1
  {
    if n == 0 then 1 else 10 * Pow10(n - 1)
  }

  /** The shortest decimal spelling of `n`, as `String(n)` writes it. */
  function NatToDecimal(n: nat): (s: string)
    ensures s != [] && AllDigits(s)
  {
    if n < 10 then [DigitChar(n)] else NatToDecimal(n / 10) + [DigitChar(n % 10)]
  }

  // ---- Number(string) ----

  /** The index of the first `c` in `s`, or `|s|` when `s` has none. */
  function IndexOf(s: string, c: char): (k: nat)
    ensures k <= |s|
    ensures forall j :: 0 <= j < k ==> s[j] != c
    ensures k < |s| ==> s[k] == c
  {
    if s == [] || s[0] == c then 0 else 1 + IndexOf(s[1..], c)
  }

  /** The value of `whole.frac`. */
  function DecimalValue(whole: string, frac: string): (v: real)
    requires AllDigits(whole) && AllDigits(frac)
    ensures v >= 0.0
  {
    DigitsValue(whole) as real + DigitsValue(frac) as real / Pow10(|frac|) as real
  }

  /** An unsigned decimal literal `digits[.digits]` (either side may be empty, not both). */
  function UnsignedDecimal(s: string): (r: JsNumber)
    ensures r.Num? ==> r.value >= 0.0
  {
    var k := IndexOf(s, '.');
    var whole := s[..k];
    var frac := if k < |s| then s[k + 1..] else [];
    if AllDigits(whole) && AllDigits(frac) && |whole| + |frac| > 0 then Num(DecimalValue(whole, frac))
    else NaN
  }

  /** `Number(s)` for a string: surrounding white space is ignored, the empty string is 0,
      an optional sign is followed by an unsigned decimal literal; anything else is NaN. */
  function ToNumber(s: string): (r: JsNumber)
    ensures Trim(s) == [] ==> r == Num(0.0)
    ensures r.Num? && r.value < 0.0 ==> Trim(s) != [] && Trim(s)[0] == '-'
  {
    var t := Trim(s);
    if t == [] then Num(0.0)
    else if t[0] == '-' then
      match UnsignedDecimal(t[1..])
      case NaN => NaN
      case Num(v) => Num(-v)
    else if t[0] == '+' then UnsignedDecimal(t[1..])
    else UnsignedDecimal(t)
  }

  // ---- parseInt(string) ----

  /** The longest prefix of `s` made of decimal digits. */
  function LeadingDigits(s: string): (r: string)
    ensures |r| <= |s| && r == s[..|r|] && AllDigits(r)
    ensures |r| < |s| ==> !IsDigit(s[|r|])
  {
    if s != [] && IsDigit(s[0]) then [s[0]] + LeadingDigits(s[1..]) else []
  }

  predicate IsHexDigit(c: char) { IsDigit(c) || 'a' <= c <= 'f' || 'A' <= c <= 'F' }

  predicate AllHexDigits(s: string) { forall i :: 0 <= i < |s| ==> IsHexDigit(s[i]) }

  function HexDigitValue(c: char): (d: nat)
    requires IsHexDigit(c)
    ensures d < 16
    ensures IsDigit(c) ==> d == DigitValue(c)
  {
    if IsDigit(c) then DigitValue(c)
    else if 'a' <= c <= 'f' then c as int - 'a' as int + 10
    else c as int - 'A' as int + 10
  }

  /** The value of a string of hexadecimal digits, most significant first. */
  function HexValue(s: string): nat
    requires AllHexDigits(s)
  {
    if s == [] then 0 else HexValue(s[..|s| - 1]) * 16 + HexDigitValue(s[|s| - 1])
  }

  /** The longest prefix of `s` made of hexadecimal digits. */
  function LeadingHexDigits(s: string): (r: string)
    ensures |r| <= |s| && r == s[..|r|] && AllHexDigits(r)
    ensures |r| < |s| ==> !IsHexDigit(s[|r|])
  {
    if s != [] && IsHexDigit(s[0]) then [s[0]] + LeadingHexDigits(s[1..]) else []
  }

  /** `0x` or `0X`, which switches `parseInt` without a radix to base 16. */
  predicate HasHexPrefix(s: string) { |s| >= 2 && s[0] == '0' && (s[1] == 'x' || s[1] == 'X') }

  /** `parseInt(s)` with no radix: leading white space and an optional sign are skipped; after
      a `0x` or `0X` prefix the longest run of hexadecimal digits is read, otherwise the longest
      run of decimal digits; no digits gives NaN (`None`). */
  function ParseInt(s: string): (r: Option<int>)
    ensures r.Some? ==> TrimStart(s) != [] && (IsDigit(TrimStart(s)[0]) || TrimStart(s)[0] == '-' || TrimStart(s)[0] == '+')
    ensures r.Some? && r.value < 0 ==> TrimStart(s)[0] == '-'
  {
    var t := TrimStart(s);
    var negative := t != [] && t[0] == '-';
    var rest := if t != [] && (t[0] == '-' || t[0] == '+') then t[1..] else t;
    var digits := if HasHexPrefix(rest) then LeadingHexDigits(rest[2..]) else LeadingDigits(rest);
    var value := if HasHexPrefix(rest) then HexValue(digits) else DigitsValue(digits);
    if digits == [] then None
    else Some(if negative then -(value as int) else value)
  }

  // ---- properties ----

  lemma {:induction false} DigitsRoundTrip(n: nat)
    ensures DigitsValue(NatToDecimal(n)) == n
  {
    if n >= 10 {
      var s := NatToDecimal(n);
      assert s[..|s| - 1] == NatToDecimal(n / 10);
      DigitsRoundTrip(n / 10);
    }
  }

  lemma DigitsHaveNoDot(s: string)
    requires AllDigits(s)
    ensures IndexOf(s, '.') == |s|
    ensures forall i :: 0 <= i < |s| ==> !IsSpace(s[i])
  {
  }

  /** A run of decimal digits, with no dot, is read as the integer it spells. */
  lemma UnsignedDigits(s: string)
    requires s != [] && AllDigits(s)
    ensures UnsignedDecimal(s) == Num(DigitsValue(s) as real)
  {
    DigitsHaveNoDot(s);
    assert s[..|s|] == s;
    assert DecimalValue(s, []) == DigitsValue(s) as real;
  }

  /** `Number(String(n))` gives back `n`. */
  lemma ToNumberRoundTrip(n: nat)
    ensures ToNumber(NatToDecimal(n)) == Num(n as real)
  {
    var s := NatToDecimal(n);
    DigitsHaveNoDot(s);
    TrimEmpties(s);
    DigitsRoundTrip(n);
    assert Trim(s) == s && IsDigit(s[0]);
    UnsignedDigits(s);
  }

  /** The digit run of `digits + tail` is `digits` when `tail` does not start with a digit. */
  lemma {:induction false} LeadingDigitsStop(digits: string, tail: string)
    requires AllDigits(digits)
    requires tail == [] || !IsDigit(tail[0])
    ensures LeadingDigits(digits + tail) == digits
  {
    if digits == [] {
      assert digits + tail == tail;
    } else {
      assert (digits + tail)[1..] == digits[1..] + tail;
      LeadingDigitsStop(digits[1..], tail);
    }
  }

  /** Text that starts with a digit and has no `0x` prefix is read as its leading digit run. */
  lemma ParseIntUnsigned(s: string)
    requires s != [] && IsDigit(s[0]) && !HasHexPrefix(s)
    ensures LeadingDigits(s) != [] && ParseInt(s) == Some(DigitsValue(LeadingDigits(s)))
  {
    assert !IsSpace(s[0]);
    assert TrimStart(s) == s;
  }

  /** `parseInt` reads a leading digit run up to the first non-digit. */
  lemma ParseIntOfDigits(digits: string, tail: string)
    requires digits != [] && AllDigits(digits)
    requires tail == [] || !IsDigit(tail[0])
    requires !HasHexPrefix(digits + tail)
    ensures ParseInt(digits + tail) == Some(DigitsValue(digits))
  {
    var s := digits + tail;
    assert s[0] == digits[0];
    ParseIntUnsigned(s);
    LeadingDigitsStop(digits, tail);
  }

  /** After a minus sign `parseInt` reads the digit run that follows and negates it. */
  lemma ParseIntAfterMinus(rest: string, digits: string)
    requires digits != [] && LeadingDigits(rest) == digits && !HasHexPrefix(rest)
    ensures ParseInt("-" + rest) == Some(-(DigitsValue(digits) as int))
  {
    var s := ['-'] + rest;
    assert s[0] == '-' && !IsSpace(s[0]);
    assert TrimStart(s) == s;
    assert s[1..] == rest;
  }

  lemma ParseIntOfNegativeDigits(digits: string, tail: string)
    requires digits != [] && AllDigits(digits)
    requires tail == [] || !IsDigit(tail[0])
    requires !HasHexPrefix(digits + tail)
    ensures ParseInt("-" + (digits + tail)) == Some(-(DigitsValue(digits) as int))
  {
    LeadingDigitsStop(digits, tail);
    ParseIntAfterMinus(digits + tail, digits);
  }

  /** `parseInt(String(n))` gives back `n`, for negative `n` too. */
  lemma ParseIntRoundTrip(n: int)
    ensures ParseInt(if n < 0 then "-" + NatToDecimal(-n) else NatToDecimal(n)) == Some(n)
  {
    var m: nat := if n < 0 then -n else n;
    var digits := NatToDecimal(m);
    DigitsRoundTrip(m);
    assert digits + [] == digits;
    assert !HasHexPrefix(digits) by {
      if |digits| >= 2 { assert IsDigit(digits[1]); }
    }
    if n < 0 {
      ParseIntOfNegativeDigits(digits, []);
    } else {
      ParseIntOfDigits(digits, []);
    }
  }

  /** `parseInt` stops at the first non-digit: `parseInt("12abc")` is 12. The one exception is
      a lone 0 followed by `x` or `X`, which starts a hexadecimal number (`ParseIntOfHex`). */
  lemma ParseIntIgnoresTail(n: nat, tail: string)
    requires tail == [] || !IsDigit(tail[0])
    requires n != 0 || tail == [] || (tail[0] != 'x' && tail[0] != 'X')
    ensures ParseInt(NatToDecimal(n) + tail) == Some(n)
  {
    var s := NatToDecimal(n);
    assert !HasHexPrefix(s + tail) by {
      if n >= 10 {
        assert |s| >= 2 && IsDigit(s[1]) && (s + tail)[1] == s[1];
      } else {
        assert s == [DigitChar(n)];
      }
    }
    ParseIntOfDigits(s, tail);
    DigitsRoundTrip(n);
  }

  /** The hexadecimal run of `hex + tail` is `hex` when `tail` does not start with a hex digit. */
  lemma {:induction false} LeadingHexDigitsStop(hex: string, tail: string)
    requires AllHexDigits(hex)
    requires tail == [] || !IsHexDigit(tail[0])
    ensures LeadingHexDigits(hex + tail) == hex
  {
    if hex == [] {
      assert hex + tail == tail;
    } else {
      assert (hex + tail)[1..] == hex[1..] + tail;
      LeadingHexDigitsStop(hex[1..], tail);
    }
  }

  /** After `0x` (or `0X`) `parseInt` reads the hexadecimal run up to the first character that
      is not a hex digit: `parseInt("0x1A")` is 26. */
  lemma ParseIntOfHex(x: char, hex: string, tail: string)
    requires x == 'x' || x == 'X'
    requires hex != [] && AllHexDigits(hex)
    requires tail == [] || !IsHexDigit(tail[0])
    ensures ParseInt(['0', x] + (hex + tail)) == Some(HexValue(hex))
  {
    var s := ['0', x] + (hex + tail);
    assert !IsSpace(s[0]) && TrimStart(s) == s;
    assert s[2..] == hex + tail;
    LeadingHexDigitsStop(hex, tail);
  }

  /** A `0x` prefix with no hexadecimal digit after it is NaN: `parseInt("0x")` and
      `parseInt("0xg")` are NaN, where the decimal reading would have given 0. */
  lemma ParseIntEmptyHex(x: char, tail: string)
    requires x == 'x' || x == 'X'
    requires tail == [] || !IsHexDigit(tail[0])
    ensures ParseInt(['0', x] + tail) == None
  {
    var s := ['0', x] + tail;
    assert !IsSpace(s[0]) && TrimStart(s) == s;
    assert s[2..] == tail;
  }

  /** `parseInt("0")` is 0. */
  lemma ParseIntOfZero()
    ensures ParseInt("0") == Some(0)
  {
    ParseIntRoundTrip(0);
    assert NatToDecimal(0) == "0";
  }

  /** `parseInt` of text starting with an ASCII letter is NaN. */
  lemma ParseIntOfLetter(s: string)
    requires s != [] && ('a' <= s[0] <= 'z' || IsUpper(s[0]))
    ensures ParseInt(s) == None
  {
    assert !IsSpace(s[0]);
    assert TrimStart(s) == s;
  }

  /** A string whose trimmed form starts with a letter, other than "Infinity", is not a number. */
  lemma LetterIsNaN(s: string)
    requires Trim(s) != [] && ('a' <= Trim(s)[0] <= 'z' || IsUpper(Trim(s)[0])) && Trim(s) != "Infinity"
    ensures ToNumber(s) == NaN
  {
    var t := Trim(s);
    var k := IndexOf(t, '.');
    assert k > 0 && !IsDigit(t[..k][0]);
  }
}

/** The JavaScript number operations the pipeline relies on: `parseInt` with
    no radix, `String(n)`/`n.toString()` on integers, and the comparisons `<`
    and `>` in which NaN is never smaller nor larger than anything. */
module JsNumber {
  import opened JsText

  /** A JavaScript number as it arises here: an integer, or NaN. */
  datatype Number = NaN | Num(n: int)

  /** `x < k`: false whenever `x` is NaN. */
  predicate LessThan(x: Number, k: int) {
    x.Num? && x.n < k
  }

  /** `x > k`: false whenever `x` is NaN. */
  predicate GreaterThan(x: Number, k: int) {
    x.Num? && x.n > k
  }

  function DigitChar(d: nat): (c: char)
    requires d < 10
    ensures '0' <= c <= '9'
  {
    ('0' as int + d) as char
  }

  /** The decimal digits of `n`, most significant first, without leading zeros. */
  function Digits(n: nat): (r: string)
    ensures |r| > 0 && (forall i | 0 <= i < |r| :: '0' <= r[i] <= '9')
    ensures r[0] == '0' ==> n == 0 && |r| == 1
    decreases n
  {
    if n < 10 then [DigitChar(n)] else Digits(n / 10) + [DigitChar(n % 10)]
  }

  /** `String(n)` of an integer number: an optional `-` and the digits. */
  function DecimalString(n: int): (r: string)
    ensures |r| > 0
    ensures forall i | 0 <= i < |r| :: ('0' <= r[i] <= '9') || (i == 0 && r[i] == '-')
  {
    if n < 0 then "-" + Digits(-n) else Digits(n)
  }

  /** `x.toString()`. */
  function ToString(x: Number): (r: string)
    ensures forall i | 0 <= i < |r| :: r[i] != '{' && r[i] != '$' && r[i] != ','
  {
    match x
    case NaN => "NaN"
    case Num(n) => DecimalString(n)
  }

  /** The value of a digit character in `radix` 10 or 16, or -1. */
  function DigitValue(c: char, radix: nat): (v: int)
    ensures (radix == 10 || radix == 16) ==> -1 <= v < radix
  {
    if '0' <= c <= '9' && (c as int - '0' as int) < radix then c as int - '0' as int
    else if radix == 16 && 'a' <= c <= 'f' then c as int - 'a' as int + 10
    else if radix == 16 && 'A' <= c <= 'F' then c as int - 'A' as int + 10
    else -1
  }

  /** The longest prefix of `s` made of digits in `radix`. */
  function DigitPrefix(s: string, radix: nat): (z: string)
    ensures z <= s
    ensures forall i | 0 <= i < |z| :: DigitValue(z[i], radix) >= 0
    ensures |z| < |s| ==> DigitValue(s[|z|], radix) < 0
    decreases |s|
  {
    if |s| > 0 && DigitValue(s[0], radix) >= 0 then [s[0]] + DigitPrefix(s[1..], radix) else []
  }

  /** The value of a digit string in `radix`, read most significant digit first. */
  function DigitsValue(z: string, radix: nat): int
    requires forall i | 0 <= i < |z| :: DigitValue(z[i], radix) >= 0
    decreases |z|
  {
    if z == [] then 0
    else DigitsValue(z[..|z| - 1], radix) * radix + DigitValue(z[|z| - 1], radix)
  }

  /** `parseInt(s)` with no radix: leading whitespace is skipped and one sign
      is read before the magnitude. */
  function ParseInt(s: string): Number {
    var t := TrimStart(s);
    if |t| > 0 && (t[0] == '-' || t[0] == '+') then ParseMagnitude(t[1..], t[0] == '-')
    else ParseMagnitude(t, false)
  }

  /** The magnitude after the sign: a `0x`/`0X` prefix selects base 16, the
      longest run of digits that follows is read, and no digits gives NaN. */
  function ParseMagnitude(u: string, negative: bool): Number {
    if |u| >= 2 && u[0] == '0' && (u[1] == 'x' || u[1] == 'X') then
      ReadDigits(DigitPrefix(u[2..], 16), 16, negative)
    else
      ReadDigits(DigitPrefix(u, 10), 10, negative)
  }

  function ReadDigits(z: string, radix: nat, negative: bool): Number
    requires forall i | 0 <= i < |z| :: DigitValue(z[i], radix) >= 0
  {
    if z == [] then NaN
    else
      var v := DigitsValue(z, radix);
      Num(if negative then -v else v)
  }

  lemma {:induction false} DigitsValueOfDigits(n: nat)
    ensures DigitsValue(Digits(n), 10) == n
    decreases n
  {
    if n >= 10 {
      DigitsValueOfDigits(n / 10);
      var d := Digits(n);
      assert d[..|d| - 1] == Digits(n / 10);
    }
  }

  lemma {:induction false} DigitPrefixOfDigits(s: string)
    requires forall i | 0 <= i < |s| :: '0' <= s[i] <= '9'
    ensures DigitPrefix(s, 10) == s
    decreases |s|
  {
    if |s| > 0 {
      DigitPrefixOfDigits(s[1..]);
    }
  }

  /** A run of decimal digits reads as its value. */
  lemma ParseMagnitudeOfDigits(d: string, negative: bool)
    requires |d| > 0 && forall i | 0 <= i < |d| :: '0' <= d[i] <= '9'
    ensures ParseMagnitude(d, negative) == Num(if negative then -DigitsValue(d, 10) else DigitsValue(d, 10))
  {
    DigitPrefixOfDigits(d);
    DecimalMagnitude(d, negative);
  }

  /** Text that does not start with `0x` or `0X` is read in base 10. */
  lemma DecimalMagnitude(u: string, negative: bool)
    requires |u| >= 2 ==> '0' <= u[1] <= '9'
    ensures ParseMagnitude(u, negative) == ReadDigits(DigitPrefix(u, 10), 10, negative)
  {
  }

  /** A run of decimal digits, with or without a leading `-`, reads as its
      value. */
  lemma ParseIntOfDigits(d: string, negative: bool)
    requires |d| > 0 && forall i | 0 <= i < |d| :: '0' <= d[i] <= '9'
    ensures ParseInt(if negative then "-" + d else d)
         == Num(if negative then -DigitsValue(d, 10) else DigitsValue(d, 10))
  {
    var s := if negative then "-" + d else d;
    assert !IsWhitespace(s[0]);
    TrimStartFixed(s);
    ParseMagnitudeOfDigits(d, negative);
    if negative {
      assert s[1..] == d;
    }
  }

  /** Text that starts with neither whitespace, a sign nor a digit reads as
      NaN. */
  lemma ParseIntOfNonDigit(s: string)
    requires |s| > 0 && !IsWhitespace(s[0]) && s[0] != '-' && s[0] != '+'
    requires DigitValue(s[0], 10) < 0
    ensures ParseInt(s) == NaN
  {
    TrimStartFixed(s);
    assert s[0] != '0';
    assert ParseMagnitude(s, false) == ReadDigits(DigitPrefix(s, 10), 10, false);
  }

  /** Reading back the decimal form of an integer gives the integer:
      `parseInt(String(n)) === n`. */
  lemma ParseIntOfDecimalString(n: int)
    ensures ParseInt(DecimalString(n)) == Num(n)
  {
    var m := if n < 0 then -n else n;
    ParseIntOfDigits(Digits(m), n < 0);
    DigitsValueOfDigits(m);
  }

  /** The string handed to `parseInt` for the supply: commas removed. */
  function WithoutCommas(s: string): (r: string)
    ensures r == Without(s, ',')
  {
    ReplaceAllCharByNothing(s, ',');
    ReplaceAll(s, ",", "")
  }

  /** A supply written with thousands separators reads as its value. */
  lemma SupplyWithSeparators(s: string)
    requires s == "500,000,000"
    ensures ParseInt(WithoutCommas(s)) == Num(500000000)
  {
    SeparatorsRemoved(s);
    NineDigits();
    ParseIntOfDecimalString(500000000);
  }

  lemma SeparatorsRemoved(s: string)
    requires s == "500,000,000"
    ensures Without(s, ',') == "500000000"
  {
    var a, z := s[..3], s[4..7];
    assert s == a + "," + z + "," + z;
    GroupsJoined(a, z, z);
  }

  lemma NineDigits()
    ensures DecimalString(500000000) == "500000000"
  {
    TrailingZero(5);
    TrailingZero(50);
    TrailingZero(500);
    TrailingZero(5000);
    TrailingZero(50000);
    TrailingZero(500000);
    TrailingZero(5000000);
    TrailingZero(50000000);
  }

  /** Multiplying a positive number by ten appends a `0` to its digits. */
  lemma TrailingZero(n: nat)
    requires n > 0
    ensures Digits(n * 10) == Digits(n) + "0"
  {
    assert (n * 10) / 10 == n && (n * 10) % 10 == 0;
  }

  /** Three comma-free groups joined by commas lose exactly the two commas. */
  lemma GroupsJoined(a: string, b: string, c: string)
    requires ',' !in a && ',' !in b && ',' !in c
    ensures Without(a + "," + b + "," + c, ',') == a + b + c
  {
    var comma := [','];
    assert Without(comma, ',') == [] by {
      assert comma[1..] == [];
    }
    var ab := a + comma + b;
    WithoutAbsent(a, ',');
    WithoutAbsent(b, ',');
    WithoutAbsent(c, ',');
    WithoutAppend(a, comma, ',');
    assert Without(a + comma, ',') == a;
    WithoutAppend(a + comma, b, ',');
    assert Without(ab, ',') == a + b;
    WithoutAppend(ab, comma, ',');
    assert Without(ab + comma, ',') == a + b;
    WithoutAppend(ab + comma, c, ',');
  }

  /** Decimal forms carry no comma, so the comma removal keeps them as they are. */
  lemma WithoutCommasOfDecimal(n: int)
    ensures WithoutCommas(DecimalString(n)) == DecimalString(n)
  {
    OccurrencesOfMissingChar(DecimalString(n), ',');
    ReplaceAllAbsent(DecimalString(n), ",", "");
  }
}

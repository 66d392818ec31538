/** HAC financial notation `mantissa:unit` and exact Zhu (src/amounts.rs). */
module Amounts {
  import opened Prelude
  import opened Text

  const UNIT_ZHU: nat := 240
  const UNIT_MAX: nat := 255

  datatype AmountError =
    | NotFinancialNotation
    | NotUnsignedDigits
    | MantissaExceedsU64
    | UnitExceedsU8
    | BelowOneZhu
    | ExceedsZhuRange

  function Pow10(n: nat): (p: nat)
    ensures p >= 1
  {
    if n == 0 then 1 else 10 * Pow10(n - 1)
  }

  /** Trailing zeroes moved from the mantissa into the unit, as far as the unit allows. */
  function Strip(mantissa: nat, unit: nat): (nat, nat)
    requires unit <= UNIT_MAX
    decreases UNIT_MAX - unit
  {
    if mantissa % 10 == 0 && unit < UNIT_MAX then Strip(mantissa / 10, unit + 1) else (mantissa, unit)
  }

  /** The value of a mantissa and unit, already range-checked as u64 and u8. */
  function ToZhu(mantissa: nat, unit: nat): Result<nat, AmountError>
    requires unit <= UNIT_MAX
  {
    if mantissa == 0 then Ok(0) else
      var (m, u) := Strip(mantissa, unit);
      if u < UNIT_ZHU then Err(BelowOneZhu)
      else if m * Pow10(u - UNIT_ZHU) > U64_MAX then Err(ExceedsZhuRange)
      else Ok(m * Pow10(u - UNIT_ZHU))
  }

  /** What `HacAmount::parse` returns for any text. */
  function Parsed(input: string): Result<nat, AmountError> {
    var value := Trim(input);
    if value == "" || value == "0" || value == "0:0" then Ok(0) else
      var colon := IndexOf(value, ':');
      if colon == |value| then Err(NotFinancialNotation) else
        var mantissa, unit := value[..colon], value[colon + 1..];
        if mantissa == "" || !AllDigits(mantissa) || unit == "" || !AllDigits(unit) then Err(NotUnsignedDigits)
        else if DigitsValue(mantissa) > U64_MAX then Err(MantissaExceedsU64)
        else if DigitsValue(unit) > UNIT_MAX then Err(UnitExceedsU8)
        else ToZhu(DigitsValue(mantissa), DigitsValue(unit))
  }

  /** What `format_zhu` prints. */
  function Formatted(zhu: nat): string {
    if zhu == 0 then "0" else
      var (m, u) := Strip(zhu, UNIT_ZHU);
      Decimal(m) + ":" + Decimal(u)
  }

  function Normalized(input: string): Result<string, AmountError> {
    match Parsed(input)
    case Err(e) => Err(e)
    case Ok(z) => Ok(Formatted(z))
  }

  // ----- the loops of the source -----

  method Parse(input: string) returns (r: Result<nat, AmountError>)
    ensures r == Parsed(input)
  {
    var value := Trim(input);
    if value == "" || value == "0" || value == "0:0" {
      return Ok(0);
    }
    var colon := IndexOf(value, ':');
    if colon == |value| {
      return Err(NotFinancialNotation);
    }
    var mantissaRaw, unitRaw := value[..colon], value[colon + 1..];
    if mantissaRaw == "" || !AllDigits(mantissaRaw) || unitRaw == "" || !AllDigits(unitRaw) {
      return Err(NotUnsignedDigits);
    }
    var mantissa, unit := DigitsValue(mantissaRaw), DigitsValue(unitRaw);
    if mantissa > U64_MAX {
      return Err(MantissaExceedsU64);
    }
    if unit > UNIT_MAX {
      return Err(UnitExceedsU8);
    }
    if mantissa == 0 {
      return Ok(0);
    }
    ghost var stripped := Strip(mantissa, unit);
    while mantissa % 10 == 0 && unit < UNIT_MAX
      invariant 0 <= mantissa && 0 <= unit <= UNIT_MAX
      invariant Strip(mantissa, unit) == stripped
      decreases UNIT_MAX - unit
    {
      mantissa, unit := mantissa / 10, unit + 1;
    }
    if unit < UNIT_ZHU {
      return Err(BelowOneZhu);
    }
    var zhu := mantissa * Pow10(unit - UNIT_ZHU);
    return if zhu > U64_MAX then Err(ExceedsZhuRange) else Ok(zhu);
  }

  /** The exact amount as mantissa and unit; no trailing zero is left in the mantissa unless the unit is at its end. */
  ghost predicate IsPrinted(amount: nat, m: nat, u: nat, s: string) {
    && s == Decimal(m) + ":" + Decimal(u) && 240 <= u <= 255 && IsExactly(amount, m, u)
    && (m % 10 != 0 || u == 255)
  }

  lemma FormattedIs(amount: nat)
    requires amount > 0
    ensures exists m: nat, u: nat :: IsPrinted(amount, m, u, Formatted(amount))
  {
    StripKeepsValue(amount, UNIT_ZHU);
    var (m, u) := Strip(amount, UNIT_ZHU);
    assert IsPrinted(amount, m, u, Formatted(amount));
  }

  method FormatZhu(amount: nat) returns (s: string)
    ensures s == Formatted(amount)
    ensures if amount == 0 then s == "0" else exists m: nat, u: nat :: IsPrinted(amount, m, u, s)
  {
    if amount == 0 {
      return "0";
    }
    FormattedIs(amount);
    var zhu, unit := amount, UNIT_ZHU;
    while zhu % 10 == 0 && unit < UNIT_MAX
      invariant unit <= UNIT_MAX && Strip(zhu, unit) == Strip(amount, UNIT_ZHU)
      decreases UNIT_MAX - unit
    {
      zhu, unit := zhu / 10, unit + 1;
    }
    return Decimal(zhu) + ":" + Decimal(unit);
  }

  // ----- what the notation means -----

  /** `zhu` Zhu is exactly `mantissa * 10^(unit - 240)`. */
  ghost predicate IsExactly(zhu: nat, mantissa: nat, unit: nat) {
    zhu * Pow10(UNIT_ZHU) == mantissa * Pow10(unit)
  }

  lemma {:induction false} StripKeepsValue(mantissa: nat, unit: nat)
    requires unit <= UNIT_MAX && mantissa > 0
    ensures var (m, u) := Strip(mantissa, unit);
            && m > 0 && unit <= u <= UNIT_MAX
            && m * Pow10(u) == mantissa * Pow10(unit)
            && (m % 10 != 0 || u == UNIT_MAX)
    decreases UNIT_MAX - unit
  {
    if mantissa % 10 == 0 && unit < UNIT_MAX {
      StripKeepsValue(mantissa / 10, unit + 1);
      assert Pow10(unit + 1) == 10 * Pow10(unit);
      assert mantissa == 10 * (mantissa / 10);
      MulAssociates(mantissa / 10, 10, Pow10(unit));
    }
  }

  lemma MulAssociates(a: int, b: int, c: int)
    ensures a * (b * c) == (b * a) * c
  {
  }

  lemma {:induction false} PowSum(a: nat, b: nat)
    ensures Pow10(a + b) == Pow10(a) * Pow10(b)
  {
    if a > 0 {
      PowSum(a - 1, b);
      assert Pow10(a + b) == 10 * (Pow10(a - 1) * Pow10(b));
      assert Pow10(a) * Pow10(b) == 10 * Pow10(a - 1) * Pow10(b);
    }
  }

  lemma FactorsDiffer(a: int, b: int, p: int)
    requires p > 0 && a != b
    ensures a * p != b * p
  {
    assert (b - a) * p == b * p - a * p;
    if a < b {
      MulPositive(b - a, p);
    } else {
      MulPositive(a - b, p);
      assert (a - b) * p == a * p - b * p;
    }
  }

  lemma MulPositive(a: int, b: int)
    requires a > 0 && b > 0
    ensures a * b > 0
  {
  }

  lemma ExactIsUnique(x: nat, y: nat, mantissa: nat, unit: nat)
    requires IsExactly(x, mantissa, unit) && IsExactly(y, mantissa, unit)
    ensures x == y
  {
    if x != y {
      FactorsDiffer(x, y, Pow10(UNIT_ZHU));
    }
  }

  /** Below unit 240 a mantissa with no trailing zero is no whole number of Zhu. */
  lemma TooPrecise(zhu: nat, mantissa: nat, unit: nat)
    requires unit < UNIT_ZHU && mantissa % 10 != 0
    ensures !IsExactly(zhu, mantissa, unit)
  {
    var k := UNIT_ZHU - unit;
    PowSum(k, unit);
    NoMultipleOfTen(zhu, Pow10(k - 1), Pow10(unit), mantissa);
  }

  lemma NoMultipleOfTen(z: nat, a: nat, p: nat, mantissa: nat)
    requires p > 0 && mantissa % 10 != 0
    ensures z * (10 * a * p) != mantissa * p
  {
    var w := z * a;
    assert 10 * w != mantissa;
    FactorsDiffer(10 * w, mantissa, p);
    MulGroups(z, 10 * a, p);
    MulGroups(z, 10, a);
    assert z * (10 * a) == 10 * w;
  }

  lemma MulGroups(a: int, b: int, c: int)
    ensures a * (b * c) == (a * b) * c
  {
  }

  /** From unit 240 on, the scaled mantissa is the exact value. */
  lemma ScaledIsExact(mantissa: nat, unit: nat)
    requires unit >= UNIT_ZHU
    ensures IsExactly(mantissa * Pow10(unit - UNIT_ZHU), mantissa, unit)
  {
    PowSum(unit - UNIT_ZHU, UNIT_ZHU);
    MulGroups(mantissa, Pow10(unit - UNIT_ZHU), Pow10(UNIT_ZHU));
  }

  lemma ZeroIsExactlyZero(zhu: nat, unit: nat)
    ensures IsExactly(zhu, 0, unit) <==> zhu == 0
  {
    if zhu != 0 {
      FactorsDiffer(zhu, 0, Pow10(UNIT_ZHU));
    }
  }

  /** Accepts exactly the amounts that are a whole number of Zhu below 2^64, and returns that number. */
  lemma ParseIsExact(mantissa: nat, unit: nat, zhu: nat)
    requires unit <= UNIT_MAX
    ensures ToZhu(mantissa, unit) == Ok(zhu) <==> IsExactly(zhu, mantissa, unit) && zhu <= U64_MAX
  {
    if mantissa == 0 {
      ZeroIsExactlyZero(zhu, unit);
    } else {
      StripKeepsValue(mantissa, unit);
      var (m, u) := Strip(mantissa, unit);
      assert IsExactly(zhu, mantissa, unit) == IsExactly(zhu, m, u);
      if u < UNIT_ZHU {
        TooPrecise(zhu, m, u);
      } else {
        ScaledIsExact(m, u);
        if IsExactly(zhu, m, u) {
          ExactIsUnique(zhu, m * Pow10(u - UNIT_ZHU), m, u);
        }
      }
    }
  }

  /** `ParseIsExact` for the written form, leading zeroes and surrounding blanks included. */
  lemma ParsesNotation(text: string, mantissa: string, unit: string)
    requires Trim(text) == mantissa + ":" + unit
    requires mantissa != "" && AllDigits(mantissa) && DigitsValue(mantissa) <= U64_MAX
    requires unit != "" && AllDigits(unit) && DigitsValue(unit) <= UNIT_MAX
    ensures Parsed(text) == ToZhu(DigitsValue(mantissa), DigitsValue(unit))
  {
    var value := Trim(text);
    assert value[|mantissa|] == ':';
    IndexOfIsFirst(value, ':', |mantissa|);
    assert value[..|mantissa|] == mantissa;
    assert value[|mantissa| + 1..] == unit;
    if value == "0:0" {
      assert IndexOf(value, ':') == 1;
      assert mantissa == "0" && mantissa[..0] == "";
    }
  }

  lemma NumeralsParse(m: nat, u: nat)
    requires m <= U64_MAX && u <= UNIT_MAX
    ensures Parsed(Decimal(m) + ":" + Decimal(u)) == ToZhu(m, u)
  {
    DecimalValue(m);
    DecimalValue(u);
    TrimNoop(Decimal(m) + ":" + Decimal(u));
    ParsesNotation(Decimal(m) + ":" + Decimal(u), Decimal(m), Decimal(u));
  }

  lemma FormattedStrips(zhu: nat)
    requires 0 < zhu <= U64_MAX
    ensures Parsed(Formatted(zhu)) == Ok(zhu)
  {
    var (m, u) := Strip(zhu, UNIT_ZHU);
    StripKeepsValue(zhu, UNIT_ZHU);
    StripShrinks(zhu, UNIT_ZHU);
    NumeralsParse(m, u);
    ParseIsExact(m, u, zhu);
  }

  lemma {:induction false} StripShrinks(mantissa: nat, unit: nat)
    requires unit <= UNIT_MAX
    ensures Strip(mantissa, unit).0 <= mantissa
    decreases UNIT_MAX - unit
  {
    if mantissa % 10 == 0 && unit < UNIT_MAX {
      StripShrinks(mantissa / 10, unit + 1);
    }
  }

  /** Every u64 amount survives printing and parsing, also those that stop at unit 255. */
  lemma RoundTrip(zhu: nat)
    requires zhu <= U64_MAX
    ensures Parsed(Formatted(zhu)) == Ok(zhu)
  {
    if zhu == 0 {
      TrimNoop("0");
    } else {
      FormattedStrips(zhu);
    }
  }

  lemma ParsedIsU64(input: string)
    requires Parsed(input).Ok?
    ensures Parsed(input).value <= U64_MAX
  {
  }

  /** Normalizing is idempotent, and two accepted texts normalize alike exactly when they are worth the same. */
  lemma NormalizeIsCanonical(a: string, b: string)
    requires Parsed(a).Ok? && Parsed(b).Ok?
    ensures Normalized(Normalized(a).value) == Normalized(a)
    ensures Normalized(a) == Normalized(b) <==> Parsed(a) == Parsed(b)
  {
    ParsedIsU64(a);
    ParsedIsU64(b);
    RoundTrip(Parsed(a).value);
    RoundTrip(Parsed(b).value);
  }

  // ----- which texts are accepted -----

  predicate Blank(s: string) {
    forall i :: 0 <= i < |s| ==> IsWhitespace(s[i])
  }

  predicate Numeral(s: string) {
    s != "" && forall i :: 0 <= i < |s| ==> '0' <= s[i] <= '9'
  }

  /** The two parts of the notation are numerals in range whose value is exactly `zhu`. */
  ghost predicate IsNotation(value: string, mantissa: string, unit: string, zhu: nat) {
    && value == mantissa + ":" + unit && Numeral(mantissa) && Numeral(unit)
    && DigitsValue(mantissa) <= U64_MAX && DigitsValue(unit) <= 255
    && IsExactly(zhu, DigitsValue(mantissa), DigitsValue(unit)) && zhu <= U64_MAX
  }

  /** Nothing and a plain zero are worth nothing; all else is written as mantissa, colon and unit. */
  ghost predicate Denotes(value: string, zhu: nat) {
    || ((value == "" || value == "0") && zhu == 0)
    || exists mantissa, unit :: IsNotation(value, mantissa, unit, zhu)
  }

  lemma {:induction false} TrimStartIs(s: string) returns (blank: string)
    ensures s == blank + TrimStart(s) && Blank(blank) && (TrimStart(s) != "" ==> !IsWhitespace(TrimStart(s)[0]))
  {
    if s != "" && IsWhitespace(s[0]) {
      var rest := TrimStartIs(s[1..]);
      blank := [s[0]] + rest;
    } else {
      blank := "";
    }
  }

  lemma {:induction false} TrimEndIs(s: string) returns (blank: string)
    ensures s == TrimEnd(s) + blank && Blank(blank)
    ensures TrimEnd(s) != "" ==> !IsWhitespace(TrimEnd(s)[|TrimEnd(s)| - 1])
  {
    if s != "" && IsWhitespace(s[|s| - 1]) {
      var rest := TrimEndIs(s[..|s| - 1]);
      blank := rest + [s[|s| - 1]];
    } else {
      blank := "";
    }
  }

  lemma {:induction false} BlankEnd(s: string, blank: string)
    requires Blank(blank) && (s != "" ==> !IsWhitespace(s[|s| - 1]))
    ensures TrimEnd(s + blank) == s
  {
    if blank != "" {
      var n := |blank| - 1;
      assert (s + blank)[..|s| + n] == s + blank[..n];
      BlankEnd(s, blank[..n]);
    } else {
      assert s + blank == s;
    }
  }

  lemma {:induction false} BlankStart(blank: string, s: string)
    requires Blank(blank) && (s != "" ==> !IsWhitespace(s[0]))
    ensures TrimStart(blank + s) == s
  {
    if blank != "" {
      assert (blank + s)[1..] == blank[1..] + s;
      BlankStart(blank[1..], s);
    } else {
      assert blank + s == s;
    }
  }

  predicate NoOuterBlanks(s: string) {
    s != "" ==> !IsWhitespace(s[0]) && !IsWhitespace(s[|s| - 1])
  }

  /** Trimming takes off the blanks around the text. */
  lemma TrimsPadding(left: string, s: string, right: string)
    requires Blank(left) && Blank(right) && NoOuterBlanks(s)
    ensures Trim(left + s + right) == s
  {
    if s == "" {
      assert left + s + right == (left + right) + "";
      BlankStart(left + right, "");
    } else {
      assert left + s + right == left + (s + right);
      BlankStart(left, s + right);
      BlankEnd(s, right);
    }
  }

  lemma NotationParses(text: string, m: string, u: string, zhu: nat)
    requires IsNotation(Trim(text), m, u, zhu)
    ensures Parsed(text) == Ok(zhu)
  {
    ParsesNotation(text, m, u);
    ParseIsExact(DigitsValue(m), DigitsValue(u), zhu);
  }

  /** What is parsed beyond nothing and zero is split at its first colon. */
  lemma ParsedIsSplit(text: string, zhu: nat) returns (m: string, u: string)
    requires Parsed(text) == Ok(zhu) && Trim(text) != "" && Trim(text) != "0" && Trim(text) != "0:0"
    ensures Trim(text) == m + ":" + u && Numeral(m) && Numeral(u)
    ensures DigitsValue(m) <= U64_MAX && DigitsValue(u) <= 255 && ToZhu(DigitsValue(m), DigitsValue(u)) == Ok(zhu)
  {
    var colon := IndexOf(Trim(text), ':');
    m, u := Trim(text)[..colon], Trim(text)[colon + 1..];
  }

  lemma ZeroNotation()
    ensures IsNotation("0:0", "0", "0", 0)
  {
    ZeroIsExactlyZero(0, 0);
    assert "0"[..0] == "" && DigitsValue("0") == 0;
  }

  lemma NotationDenotes(text: string, zhu: nat)
    ensures Parsed(text) == Ok(zhu) <==> Denotes(Trim(text), zhu)
  {
    if m, u :| IsNotation(Trim(text), m, u, zhu) {
      NotationParses(text, m, u, zhu);
    }
    if Parsed(text) == Ok(zhu) && Trim(text) == "0:0" {
      ZeroNotation();
    } else if Parsed(text) == Ok(zhu) && Trim(text) != "" && Trim(text) != "0" {
      var m, u := ParsedIsSplit(text, zhu);
      ParseIsExact(DigitsValue(m), DigitsValue(u), zhu);
      assert IsNotation(Trim(text), m, u, zhu);
    }
  }

  lemma DenotingIsTrimmed(value: string, zhu: nat)
    requires Denotes(value, zhu)
    ensures NoOuterBlanks(value)
  {
    if m, u :| IsNotation(value, m, u, zhu) {
      assert value[0] == m[0] && value[|value| - 1] == u[|u| - 1];
    }
  }

  /** A text is accepted, as `zhu`, exactly if between blanks it denotes that whole number of Zhu below 2^64. */
  lemma AcceptedIff(text: string, zhu: nat)
    ensures Parsed(text) == Ok(zhu) <==>
            exists left, value, right ::
                text == left + value + right && Blank(left) && Blank(right) && Denotes(value, zhu)
  {
    NotationDenotes(text, zhu);
    var left := TrimStartIs(text);
    var right := TrimEndIs(TrimStart(text));
    assert text == left + Trim(text) + right;
    forall l, value, r | text == l + value + r && Blank(l) && Blank(r) && Denotes(value, zhu)
      ensures Parsed(text) == Ok(zhu)
    {
      DenotingIsTrimmed(value, zhu);
      TrimsPadding(l, value, r);
    }
  }
}

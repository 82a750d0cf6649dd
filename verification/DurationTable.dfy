// What durations are worth, in numbers: every unit with any numeral, fractions, errors, and the
// spellings that mean the same.
module DurationTable {
  import opened Wrappers
  import opened Regex
  import opened Duration
  import opened DurationLaws

  // ---------- numerals ----------

  // Digits count from the left in base ten; the point counts nothing.
  lemma MantissaLaws(s: string, digit: char)
    requires '0' <= digit <= '9'
    ensures Mantissa("") == 0
    ensures Mantissa(s + [digit]) == 10 * Mantissa(s) + (digit - '0') as nat
    ensures Mantissa(s + ".") == Mantissa(s)
  {
    assert (s + [digit])[..|s|] == s && (s + ".")[..|s|] == s;
  }

  lemma PowLaws(b: nat, e: nat)
    ensures Pow(b, 0) == 1 && Pow(b, e + 1) == b * Pow(b, e)
  {
  }

  lemma {:induction false} DigitsSpan(s: string)
    requires forall k | 0 <= k < |s| :: '0' <= s[k] <= '9'
    ensures Span(Digit, s) == |s|
  {
    if s != [] { DigitsSpan(s[1..]); }
  }

  // A numeral of digits alone has no fraction.
  lemma WholeNumeral(s: string)
    requires s != "" && forall k | 0 <= k < |s| :: '0' <= s[k] <= '9'
    ensures NumLen(s) == |s| && Scale(s) == 0
  {
    DigitsSpan(s);
  }

  // Digits, a point, digits: as many decimals as there are digits behind the point, of which there must
  // be at least one.
  lemma FractionNumeral(s: string, f: string)
    requires f != "" && forall k | 0 <= k < |s| :: '0' <= s[k] <= '9'
    requires forall k | 0 <= k < |f| :: '0' <= f[k] <= '9'
    ensures var num := s + "." + f;
            NumLen(num) == |num| && Scale(num) == |f| && Mantissa(num) == Mantissa(s + f)
  {
    var num, rest := s + "." + f, "." + f;
    hide Span, Mantissa;
    PointCountsNothing(s, f);
    DigitsSpan(s);
    DigitsSpan(f);
    PointStops(f);
    assert num == s + rest;
    SpanAppend(Digit, s, rest);
    assert Span(Digit, num) == |s|;
    assert num[|s|..] == rest && rest[1..] == f;
    assert FractionLen(rest) == 1 + |f|;
    hide FractionLen;
  }

  lemma PointStops(f: string)
    ensures Span(Digit, "." + f) == 0
  {
  }

  lemma {:induction false} PointCountsNothing(s: string, f: string)
    requires forall k | 0 <= k < |f| :: '0' <= f[k] <= '9'
    ensures Mantissa(s + "." + f) == Mantissa(s + f)
  {
    if f == "" {
      assert s + "." + "" == s + "." && s + "" == s;
      MantissaLaws(s, '0');
    } else {
      var n := |f| - 1;
      PointCountsNothing(s, f[..n]);
      assert f == f[..n] + [f[n]];
      assert s + "." + f == (s + "." + f[..n]) + [f[n]] && s + f == (s + f[..n]) + [f[n]];
      MantissaLaws(s + "." + f[..n], f[n]);
      MantissaLaws(s + f[..n], f[n]);
    }
  }

  // ---------- units ----------

  lemma OneElement(num: string, unit: string, wild: int)
    requires num != "" && NumLen(num) == |num| && (num[0] == '.' || '0' <= num[0] <= '9')
    requires unit != "" && Span(UnitLetter, unit) == |unit|
    ensures !Negative(num + unit) && Tokens(num + unit) == [Token(num, unit)]
  {
    hide Tokens, NumLen, Span;
    ElementTokens(Element(num, unit, ""));
  }

  // One element is worth its numeral times its unit, in whole nanoseconds.
  lemma ElementWorth(num: string, unit: string, u: Unit, wild: int)
    requires IsInt64(wild)
    requires num != "" && NumLen(num) == |num| && (num[0] == '.' || '0' <= num[0] <= '9')
    requires unit != "" && Span(UnitLetter, unit) == |unit| && UnitOf(unit) == Some(u)
    ensures Exact(num, u) <= MAX64 ==> Parse(num + unit, wild) == Ok(Exact(num, u) as int)
    ensures Exact(num, u) > MAX64 && u.delegated ==> Parse(num + unit, wild) == Err(OutOfRange)
    ensures Exact(num, u) > MAX64 && !u.delegated ==>
              Parse(num + unit, wild) ==
                if Mantissa(num) < Product(FloatLimit(), Pow(10, Scale(num))) then Ok(wild) else Err(OutOfRange)
  {
    hide Tokens, NumLen, Span, UnitOf, Exact, FloatLimit, Product, Pow, Mantissa;
    OneElement(num, unit, wild);
    var t := Token(num, unit);
    var ts := [t];
    assert ts[1..] == [];
    if Exact(num, u) <= MAX64 {
      InRangeIsFine(t, wild);
      hide Fault;
      assert FirstFault(ts) == None && Total(ts, wild) == Exact(num, u);
    } else if u.delegated || Mantissa(num) >= Product(FloatLimit(), Pow(10, Scale(num))) {
      assert Fault(t) == Some(OutOfRange);
    } else {
      assert Fault(t) == None && Value(t, wild) == wild;
      assert FirstFault(ts) == None && Total(ts, wild) == wild;
    }
  }

  lemma UnitTexts()
    ensures UnitOf("ns") == Some(Unit(1, true)) && UnitOf("us") == Some(Unit(1_000, true))
    ensures UnitOf("ms") == Some(Unit(1_000_000, true)) && UnitOf("s") == Some(Unit(1_000_000_000, true))
    ensures UnitOf("m") == Some(Unit(60_000_000_000, true)) && UnitOf("h") == Some(Unit(3_600_000_000_000, true))
    ensures UnitOf("d") == Some(Unit(86_400_000_000_000, false))
    ensures UnitOf("w") == Some(Unit(604_800_000_000_000, false))
    ensures UnitOf("mo") == Some(Unit(2_592_000_000_000_000, false))
    ensures UnitOf("mth") == UnitOf("mo") && UnitOf("month") == UnitOf("mo")
    ensures UnitOf("y") == Some(Unit(31_536_000_000_000_000, false))
  {
    assert FoldCase("ns") == "ns" && FoldCase("us") == "us" && FoldCase("ms") == "ms" && FoldCase("s") == "s";
    assert FoldCase("m") == "m" && FoldCase("h") == "h" && FoldCase("d") == "d" && FoldCase("w") == "w";
    assert FoldCase("mo") == "mo" && FoldCase("mth") == "mth" && FoldCase("month") == "month" && FoldCase("y") == "y";
  }

  lemma UnitLetters(unit: string)
    requires unit in ["ns", "us", "ms", "s", "m", "h", "d", "w", "mo", "mth", "month", "y"]
    ensures unit != "" && Span(UnitLetter, unit) == |unit|
  {
    hide Span;
    LettersSpan(unit);
  }

  lemma WholeWorth(num: string, unit: string, ns: nat, delegated: bool, wild: int)
    requires IsInt64(wild) && num != "" && forall k | 0 <= k < |num| :: '0' <= num[k] <= '9'
    requires unit in ["ns", "us", "ms", "s", "m", "h", "d", "w", "mo", "mth", "month", "y"]
    requires UnitOf(unit) == Some(Unit(ns, delegated))
    ensures Mantissa(num) * ns <= MAX64 ==> Parse(num + unit, wild) == Ok(Mantissa(num) * ns)
    ensures Mantissa(num) * ns > MAX64 && delegated ==> Parse(num + unit, wild) == Err(OutOfRange)
  {
    hide UnitOf, Parse, Mantissa, NumLen, Span, FloatLimit;
    WholeNumeral(num);
    UnitLetters(unit);
    ElementWorth(num, unit, Unit(ns, delegated), wild);
    assert Exact(num, Unit(ns, delegated)) == Mantissa(num) * ns by {
      hide Scale;
      PowLaws(10, 0);
      assert Product(ns, Mantissa(num)) == Mantissa(num) * ns;
    }
  }

  lemma FarWorth(num: string, unit: string, ns: nat, wild: int)
    requires IsInt64(wild) && num != "" && forall k | 0 <= k < |num| :: '0' <= num[k] <= '9'
    requires unit in ["ns", "us", "ms", "s", "m", "h", "d", "w", "mo", "mth", "month", "y"]
    requires UnitOf(unit) == Some(Unit(ns, false)) && Mantissa(num) * ns > MAX64
    ensures Parse(num + unit, wild) == if Mantissa(num) < FloatLimit() then Ok(wild) else Err(OutOfRange)
  {
    hide UnitOf, Parse, Mantissa, NumLen, Span, FloatLimit;
    WholeNumeral(num);
    UnitLetters(unit);
    ElementWorth(num, unit, Unit(ns, false), wild);
    hide Scale;
    PowLaws(10, 0);
    assert Product(FloatLimit(), Pow(10, 0)) == FloatLimit();
    assert Product(ns, Mantissa(num)) == Mantissa(num) * ns;
    assert Exact(num, Unit(ns, false)) == Mantissa(num) * ns;
  }

  // Any numeral with each unit up to the hour: the value where it fits, an error where it does not.
  lemma ShortUnits(num: string, wild: int)
    requires IsInt64(wild) && num != "" && forall k | 0 <= k < |num| :: '0' <= num[k] <= '9'
    ensures var n, max := Mantissa(num), 9_223_372_036_854_775_807;
            && Parse(num + "ns", wild) == (if n <= max then Ok(n as int) else Err(OutOfRange))
            && Parse(num + "us", wild) == (if n * 1_000 <= max then Ok(n * 1_000) else Err(OutOfRange))
            && Parse(num + "ms", wild) == (if n * 1_000_000 <= max then Ok(n * 1_000_000) else Err(OutOfRange))
            && Parse(num + "s", wild) ==
                 (if n * 1_000_000_000 <= max then Ok(n * 1_000_000_000) else Err(OutOfRange))
            && Parse(num + "m", wild) ==
                 (if n * 60_000_000_000 <= max then Ok(n * 60_000_000_000) else Err(OutOfRange))
            && Parse(num + "h", wild) ==
                 (if n * 3_600_000_000_000 <= max then Ok(n * 3_600_000_000_000) else Err(OutOfRange))
  {
    UnitTexts();
    hide UnitOf, Parse, Mantissa, FloatLimit;
    WholeWorth(num, "ns", 1, true, wild);
    WholeWorth(num, "us", 1_000, true, wild);
    WholeWorth(num, "ms", 1_000_000, true, wild);
    WholeWorth(num, "s", 1_000_000_000, true, wild);
    WholeWorth(num, "m", 60_000_000_000, true, wild);
    WholeWorth(num, "h", 3_600_000_000_000, true, wild);
  }

  // Any numeral with each longer unit, where the value fits.
  lemma LongUnits(num: string, wild: int)
    requires IsInt64(wild) && num != "" && forall k | 0 <= k < |num| :: '0' <= num[k] <= '9'
    ensures var n, max := Mantissa(num), 9_223_372_036_854_775_807;
            && (n * 86_400_000_000_000 <= max ==> Parse(num + "d", wild) == Ok(n * 86_400_000_000_000))
            && (n * 604_800_000_000_000 <= max ==> Parse(num + "w", wild) == Ok(n * 604_800_000_000_000))
            && (n * 2_592_000_000_000_000 <= max ==>
                  && Parse(num + "mo", wild) == Ok(n * 2_592_000_000_000_000)
                  && Parse(num + "mth", wild) == Ok(n * 2_592_000_000_000_000)
                  && Parse(num + "month", wild) == Ok(n * 2_592_000_000_000_000))
            && (n * 31_536_000_000_000_000 <= max ==> Parse(num + "y", wild) == Ok(n * 31_536_000_000_000_000))
  {
    UnitTexts();
    hide UnitOf, Parse, Mantissa, FloatLimit;
    WholeWorth(num, "d", 86_400_000_000_000, false, wild);
    WholeWorth(num, "w", 604_800_000_000_000, false, wild);
    WholeWorth(num, "mo", 2_592_000_000_000_000, false, wild);
    WholeWorth(num, "mth", 2_592_000_000_000_000, false, wild);
    WholeWorth(num, "month", 2_592_000_000_000_000, false, wild);
    WholeWorth(num, "y", 31_536_000_000_000_000, false, wild);
  }

  // Beyond int64 a longer unit yields whatever the float conversion does, and an error only once the
  // numeral itself is no finite double, that is from 2^1024 - 2^970 on.
  lemma LongOverflow(num: string, wild: int)
    requires IsInt64(wild) && num != "" && forall k | 0 <= k < |num| :: '0' <= num[k] <= '9'
    ensures var n, max := Mantissa(num), 9_223_372_036_854_775_807;
            var far: Result<int, DurationError> :=
              if n < Pow(2, 1024) - Pow(2, 970) then Ok(wild) else Err(OutOfRange);
            && (n * 86_400_000_000_000 > max ==> Parse(num + "d", wild) == far)
            && (n * 604_800_000_000_000 > max ==> Parse(num + "w", wild) == far)
            && (n * 2_592_000_000_000_000 > max ==> Parse(num + "mo", wild) == far)
            && (n * 31_536_000_000_000_000 > max ==> Parse(num + "y", wild) == far)
  {
    UnitTexts();
    hide UnitOf, Parse, Mantissa, Pow, FloatLimit;
    LimitMeans();
    var n := Mantissa(num);
    if n * 86_400_000_000_000 > MAX64 { FarWorth(num, "d", 86_400_000_000_000, wild); }
    if n * 604_800_000_000_000 > MAX64 { FarWorth(num, "w", 604_800_000_000_000, wild); }
    if n * 2_592_000_000_000_000 > MAX64 { FarWorth(num, "mo", 2_592_000_000_000_000, wild); }
    if n * 31_536_000_000_000_000 > MAX64 { FarWorth(num, "y", 31_536_000_000_000_000, wild); }
  }

  lemma {:induction false} PowSum(b: nat, m: nat, n: nat)
    ensures Pow(b, m + n) == Pow(b, m) * Pow(b, n)
  {
    if m > 0 {
      PowSum(b, m - 1, n);
      assert Pow(b, m + n) == b * Pow(b, m - 1 + n);
      assert b * (Pow(b, m - 1) * Pow(b, n)) == b * Pow(b, m - 1) * Pow(b, n);
    }
  }

  lemma LimitMeans()
    ensures FloatLimit() == Pow(2, 1024) - Pow(2, 970)
  {
    hide Pow;
    PowSum(2, 970, 54);
    PowSum(2, 27, 27);
    PowSum(2, 18, 9);
    PowSum(2, 9, 9);
    assert Pow(2, 9) == 512 by {
      PowLaws(2, 0); PowLaws(2, 1); PowLaws(2, 2); PowLaws(2, 3); PowLaws(2, 4); PowLaws(2, 5);
      PowLaws(2, 6); PowLaws(2, 7); PowLaws(2, 8);
    }
    assert Pow(2, 54) == 0x40_0000_0000_0000;
  }

  // A fraction is worth all its digits as one number, times the unit, divided by ten for every digit
  // behind the point, and cut to whole nanoseconds.
  lemma FractionWorth(s: string, f: string, unit: string, wild: int)
    requires IsInt64(wild) && f != "" && forall k | 0 <= k < |s| :: '0' <= s[k] <= '9'
    requires forall k | 0 <= k < |f| :: '0' <= f[k] <= '9'
    requires unit in ["ns", "us", "ms", "s", "m", "h", "d", "w", "mo", "mth", "month", "y"]
    ensures UnitOf(unit).Some? && Pow(10, |f|) > 0
    ensures var worth := Mantissa(s + f) * UnitOf(unit).value.ns / Pow(10, |f|);
            worth <= 9_223_372_036_854_775_807 ==> Parse(s + "." + f + unit, wild) == Ok(worth)
  {
    UnitTexts();
    hide UnitOf, Parse, Mantissa, NumLen, Span, Pow, Scale;
    var num := s + "." + f;
    assert num[0] == '.' || '0' <= num[0] <= '9';
    PowPositive(10, |f|);
    FractionNumeral(s, f);
    UnitLetters(unit);
    var u := UnitOf(unit).value;
    ElementWorth(num, unit, u, wild);
    assert Product(u.ns, Mantissa(num)) == Mantissa(s + f) * u.ns;
    assert Exact(num, u) == Mantissa(s + f) * u.ns / Pow(10, |f|);
    assert s + "." + f + unit == num + unit;
  }

  // An hour and a half.
  lemma HourAndAHalf(wild: int)
    requires IsInt64(wild)
    ensures Parse("1.5h", wild) == Ok(5_400_000_000_000) && Parse(".5d", wild) == Ok(43_200_000_000_000)
  {
    hide Parse, UnitOf, Mantissa, Pow;
    UnitTexts();
    FractionWorth("1", "5", "h", wild);
    FractionWorth("", "5", "d", wild);
    Fifteen();
    assert "1" + "." + "5" + "h" == "1.5h" && "" + "." + "5" + "d" == ".5d";
  }

  lemma Fifteen()
    ensures Mantissa("1" + "5") == 15 && Mantissa("" + "5") == 5 && Pow(10, 1) == 10
  {
    hide Mantissa;
    MantissaLaws("", '1');
    MantissaLaws("1", '5');
    MantissaLaws("", '5');
    assert "" + ['1'] == "1" && "1" + ['5'] == "1" + "5" && "" + ['5'] == "" + "5";
    PowLaws(10, 0);
  }

  // ---------- errors ----------

  lemma {:induction false} NoNumber(s: string)
    requires forall k | 0 <= k < |s| :: !('0' <= s[k] <= '9')
    ensures Tokens(s) == []
    decreases |s|
  {
    if s != "" {
      NoDigit(s);
      hide NumLen, Span;
      NoNumber(s[1..]);
    }
  }

  lemma NoDigit(s: string)
    requires forall k | 0 <= k < |s| :: !('0' <= s[k] <= '9')
    ensures NumLen(s) == 0
  {
    assert forall k | 1 <= k < |s| :: s[1..][k - 1] == s[k];
  }

  // No digit anywhere: no duration. A numeral without a unit: no duration either.
  lemma NumberAndUnitNeeded(s: string, num: string, wild: int)
    requires forall k | 0 <= k < |s| :: !('0' <= s[k] <= '9')
    requires num != "" && forall k | 0 <= k < |num| :: '0' <= num[k] <= '9'
    ensures Parse(s, wild) == Err(InvalidString)
    ensures Parse(num, wild) == Err(MissingUnit)
  {
    var body := Body(s);
    assert forall k | 0 <= k < |body| :: !('0' <= body[k] <= '9');
    NoNumber(body);
    BareNumeral(num);
    var ts := [Token(num, "")];
    assert Fault(ts[0]) == Some(MissingUnit);
    hide Tokens;
    assert FirstFault(ts) == Some(MissingUnit);
  }

  lemma BareNumeral(num: string)
    requires num != "" && forall k | 0 <= k < |num| :: '0' <= num[k] <= '9'
    ensures Tokens(num) == [Token(num, "")]
  {
    HeadOfNumeral(num);
    hide Head, Step;
    assert num[|num|..] == "";
    assert Tokens(num) == Head(num) + Tokens("");
  }

  lemma HeadOfNumeral(num: string)
    requires num != "" && forall k | 0 <= k < |num| :: '0' <= num[k] <= '9'
    ensures Head(num) == [Token(num, "")] && Step(num) == |num|
  {
    WholeNumeral(num);
    NoUnit();
    hide NumLen, PreferredNumber, PreferredUnit, Span;
    assert PreferredNumber(num) == |num|;
    assert num[|num|..] == "" && num[..|num|] == num;
    assert PreferredUnit("") == 0;
    assert num[|num|..|num|] == "";
  }

  lemma NoUnit()
    ensures Span(UnitLetter, "") == 0
  {
  }

  // A unit is known only by its name, letter by letter: the letter itself, its capital, or a micro sign
  // for u.
  lemma UnitKnown(unit: string)
    ensures UnitOf(unit).Some? <==>
              exists name :: name in ["ns", "us", "ms", "s", "m", "h", "d", "w", "mo", "mth", "month", "y"]
                && |name| == |unit|
                && forall k | 0 <= k < |unit| ::
                     unit[k] == name[k] || (unit[k] as int + 32 == name[k] as int && 'A' <= unit[k] <= 'Z')
                     || (name[k] == 'u' && (unit[k] == '\U{00B5}' || unit[k] == '\U{03BC}'))
  {
    var names := ["ns", "us", "ms", "s", "m", "h", "d", "w", "mo", "mth", "month", "y"];
    if UnitOf(unit).Some? {
      assert FoldCase(unit) in names;
    }
    forall name | name in names && |name| == |unit|
                  && forall k | 0 <= k < |unit| ::
                       unit[k] == name[k] || (unit[k] as int + 32 == name[k] as int && 'A' <= unit[k] <= 'Z')
                       || (name[k] == 'u' && (unit[k] == '\U{00B5}' || unit[k] == '\U{03BC}'))
      ensures UnitOf(unit).Some?
    {
      forall k | 0 <= k < |unit| ensures FoldChar(unit[k]) == name[k] {
        assert 'a' <= name[k] <= 'z' by { SmallLetters(name, k); }
      }
      assert FoldCase(unit) == name;
    }
  }

  lemma SmallLetters(name: string, k: nat)
    requires name in ["ns", "us", "ms", "s", "m", "h", "d", "w", "mo", "mth", "month", "y"] && k < |name|
    ensures 'a' <= name[k] <= 'z'
  {
  }

  // A numeral with letters that name no unit.
  lemma UnknownUnits(num: string, unit: string, wild: int)
    requires num != "" && forall k | 0 <= k < |num| :: '0' <= num[k] <= '9'
    requires unit != "" && forall k | 0 <= k < |unit| :: 'a' <= unit[k] <= 'z' || 'A' <= unit[k] <= 'Z'
    requires UnitOf(unit) == None
    ensures Parse(num + unit, wild) == Err(UnknownUnit)
  {
    hide Tokens, NumLen, Span, UnitOf;
    WholeNumeral(num);
    LettersSpan(unit);
    OneElement(num, unit, wild);
    assert Fault(Token(num, unit)) == Some(UnknownUnit);
  }

  lemma ErrorTexts(wild: int)
    ensures Parse("abc", wild) == Err(InvalidString) && Parse("", wild) == Err(InvalidString)
    ensures Parse("5", wild) == Err(MissingUnit) && Parse("5x", wild) == Err(UnknownUnit)
  {
    hide Parse;
    NumberAndUnitNeeded("abc", "5", wild);
    NumberAndUnitNeeded("", "5", wild);
    assert UnitOf("x") == None by { assert FoldCase("x") == "x"; }
    UnknownUnits("5", "x", wild);
    assert "5" + "x" == "5x";
  }

  // ---------- spellings ----------

  // Texts that differ in the case of letters, or in which of u and the two micro signs they use, have the
  // same value or the same kind of error.
  lemma SpelledAlike(a: string, b: string, wild: int)
    requires |a| == |b|
    requires forall k | 0 <= k < |a| ::
               || a[k] == b[k]
               || ('A' <= a[k] <= 'Z' && a[k] as int + 32 == b[k] as int)
               || ('A' <= b[k] <= 'Z' && b[k] as int + 32 == a[k] as int)
               || (a[k] in ['u', '\U{00B5}', '\U{03BC}'] && b[k] in ['u', '\U{00B5}', '\U{03BC}'])
    ensures Parse(a, wild) == Parse(b, wild)
  {
    hide Parse;
    assert FoldCase(a) == FoldCase(b);
    ParseIgnoresCase(a, wild);
    ParseIgnoresCase(b, wild);
  }
}

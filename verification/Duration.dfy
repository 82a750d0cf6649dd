// The flexible duration parser: "1w2d", "1.5h", "-30m", ...
module Duration {
  import opened Wrappers
  import opened Regex

  // ---------- int64 nanoseconds ----------

  const MAX64: int := 0x7fff_ffff_ffff_ffff
  const TWO64: int := 0x1_0000_0000_0000_0000

  predicate IsInt64(x: int) { -MAX64 - 1 <= x <= MAX64 }

  // Two's-complement wrap-around, which is what unchecked int64 arithmetic does.
  function Wrap64(x: int): (r: int)
    ensures IsInt64(r)
    ensures IsInt64(x) ==> r == x
  {
    (x + MAX64 + 1) % TWO64 - MAX64 - 1
  }

  lemma WrapAdd(x: int, y: int)
    ensures Wrap64(Wrap64(x) + y) == Wrap64(x + y)
  {
    assert Wrap64(x) == x - TWO64 * ((x + MAX64 + 1) / TWO64);
  }

  lemma WrapNegate(x: int)
    ensures Wrap64(-Wrap64(x)) == Wrap64(-x)
  {
    assert Wrap64(x) == x - TWO64 * ((x + MAX64 + 1) / TWO64);
  }

  function Pow(b: nat, e: nat): nat {
    if e == 0 then 1 else b * Pow(b, e - 1)
  }

  // ---------- tokens ----------

  datatype Token = Token(num: string, unit: string)

  // (\d*\.\d+|\d+)([A-Za-zµμ]*)
  const NUMBER: Pattern :=
    Either(Cat(Star(One(Digit)), FRACTION), Plus(One(Digit)))
  const UNIT: Pattern := Star(One(UnitLetter))

  // Leftmost non-overlapping matches. At each position either the preferred match is taken, its
  // two groups in turn, or one character is skipped.
  function Tokens(s: string): seq<Token>
    decreases |s|
  {
    if s == [] then [] else Head(s) + Tokens(s[Step(s)..])
  }

  function Head(s: string): seq<Token> {
    var n := PreferredNumber(s);
    if n == 0 then [] else [Token(s[..n], s[n..n + PreferredUnit(s[n..])])]
  }

  function Step(s: string): (k: nat)
    requires s != []
    ensures 0 < k <= |s|
  {
    var n := PreferredNumber(s);
    if n == 0 then 1 else n + PreferredUnit(s[n..])
  }

  // 0 when no number starts here; the expression cannot match the empty string.
  function PreferredNumber(s: string): (n: nat)
    ensures n == NumLen(s)
  {
    NumberScan(s);
    var ls := Lens(NUMBER, s);
    if ls == [] then 0 else ls[0]
  }

  function PreferredUnit(s: string): (u: nat)
    ensures u == Span(UnitLetter, s)
  {
    StarOfClass(UnitLetter, s);
    Lens(UNIT, s)[0]
  }

  // Where a hand-written scanner would end the fraction, and the number; 0 when none starts here.
  function FractionLen(s: string): (n: nat)
    ensures n <= |s|
  {
    if s != [] && s[0] == '.' && Span(Digit, s[1..]) > 0 then 1 + Span(Digit, s[1..]) else 0
  }

  function NumLen(s: string): (n: nat)
    ensures n <= |s|
  {
    var d := Span(Digit, s);
    d + FractionLen(s[d..])
  }

  const FRACTION: Pattern := Cat(One(Dot), Plus(One(Digit)))

  lemma {:induction false} FractionScan(t: string)
    ensures var ls := Lens(FRACTION, t);
            if FractionLen(t) > 0 then ls != [] && ls[0] == FractionLen(t) else ls == []
  {
    var dot, digits := One(Dot), Plus(One(Digit));
    if t != [] && t[0] == '.' {
      assert Lens(dot, t) == [1];
      PlusOfClass(Digit, t[1..]);
      assert Continue(digits, t, [1]) == Shift(1, Lens(digits, t[1..]), |t|) + Continue(digits, t, []);
    } else {
      assert Lens(dot, t) == [];
    }
  }

  lemma {:induction false} DigitsThenFraction(s: string)
    ensures var d := Span(Digit, s);
            Lens(Cat(Star(One(Digit)), FRACTION), s) == Shift(d, Lens(FRACTION, s[d..]), |s|)
  {
    forall t: string | t != [] && In(Digit, t[0]) ensures Lens(FRACTION, t) == [] {
      FractionScan(t);
    }
    StarOfClass(Digit, s);
    AfterRun(Digit, FRACTION, s, Span(Digit, s));
  }

  // The scanner agrees with the backtracking meaning of the expression.
  lemma NumberScan(s: string)
    ensures NumLen(s) == 0 <==> Lens(NUMBER, s) == []
    ensures NumLen(s) > 0 ==> Lens(NUMBER, s)[0] == NumLen(s)
  {
    hide Span, FractionLen, Continue;
    var d := Span(Digit, s);
    DigitsThenFraction(s);
    FractionScan(s[d..]);
    PlusOfClass(Digit, s);
    assert Lens(NUMBER, s) == Lens(Cat(Star(One(Digit)), FRACTION), s) + Lens(Plus(One(Digit)), s);
  }

  // The two groups together are the preferred match of the whole expression, and there is none
  // exactly if no number starts here.
  lemma GroupsAreMatch(s: string)
    ensures var ls, n := Lens(Cat(NUMBER, UNIT), s), PreferredNumber(s);
            && (n == 0 <==> ls == [])
            && (n > 0 ==> ls[0] == n + PreferredUnit(s[n..]) && s != [] && Step(s) == ls[0])
  {
    NumberScan(s);
    var starts := Lens(NUMBER, s);
    assert Lens(Cat(NUMBER, UNIT), s) == Continue(UNIT, s, starts);
    hide NumLen, Span;
    if starts != [] {
      StarOfClass(UnitLetter, s[starts[0]..]);
      hide Lens;
      assert Continue(UNIT, s, starts)
          == Shift(starts[0], Lens(UNIT, s[starts[0]..]), |s|) + Continue(UNIT, s, starts[1..]);
    }
  }

  // ---------- elements ----------

  datatype DurationError = InvalidString | MissingUnit | UnknownUnit | OutOfRange

  datatype Unit = Unit(ns: nat, delegated: bool)

  const HOUR: nat := 3_600_000_000_000

  function FoldChar(x: char): char {
    if IsMicro(x) then 'u'
    else if 'A' <= x <= 'Z' then x - 'A' + 'a'
    else x
  }

  function FoldCase(s: string): (t: string)
    ensures |t| == |s| && forall k | 0 <= k < |s| :: t[k] == FoldChar(s[k])
  {
    seq(|s|, k requires 0 <= k < |s| => FoldChar(s[k]))
  }

  // Units up to the hour are handed to Go's own time.ParseDuration.
  function UnitOf(unit: string): Option<Unit> {
    var u := FoldCase(unit);
    if u == "ns" then Some(Unit(1, true))
    else if u == "us" then Some(Unit(1_000, true))
    else if u == "ms" then Some(Unit(1_000_000, true))
    else if u == "s" then Some(Unit(1_000_000_000, true))
    else if u == "m" then Some(Unit(60_000_000_000, true))
    else if u == "h" then Some(Unit(HOUR, true))
    else if u == "d" then Some(Unit(24 * HOUR, false))
    else if u == "w" then Some(Unit(7 * 24 * HOUR, false))
    else if u == "mth" || u == "month" || u == "mo" then Some(Unit(30 * 24 * HOUR, false))
    else if u == "y" then Some(Unit(365 * 24 * HOUR, false))
    else None
  }

  // All digits of a decimal numeral, its point ignored.
  function Mantissa(num: string): nat {
    if num == [] then 0 else
    var front := Mantissa(num[..|num| - 1]);
    var c := num[|num| - 1];
    if In(Digit, c) then 10 * front + (c - '0') as nat else front
  }

  // How many digits follow the point.
  function Scale(num: string): nat {
    var d := Span(Digit, num);
    if d == |num| then 0 else |num| - d - 1
  }

  // num * unit, truncated to whole nanoseconds.
  function Exact(num: string, unit: Unit): nat {
    PowPositive(10, Scale(num));
    Quotient(Product(unit.ns, Mantissa(num)), Pow(10, Scale(num)))
  }

  function Product(a: nat, b: nat): nat { a * b }

  function Quotient(a: nat, b: nat): nat
    requires b > 0
  {
    a / b
  }

  lemma PowPositive(b: nat, e: nat)
    requires b > 0
    ensures Pow(b, e) > 0
  {
  }

  // The least value that no longer rounds to a finite float64.
  function FloatLimit(): nat { Pow(2, 970) * 0x3f_ffff_ffff_ffff }

  // Why an element is refused, if it is.
  function Fault(t: Token): Option<DurationError> {
    if t.unit == "" then Some(MissingUnit)
    else match UnitOf(t.unit)
      case None => Some(UnknownUnit)
      case Some(u) =>
        if u.delegated then if Exact(t.num, u) > MAX64 then Some(OutOfRange) else None
        else if Mantissa(t.num) >= Product(FloatLimit(), Pow(10, Scale(t.num))) then Some(OutOfRange)
        else None
  }

  // What an accepted element adds. A product beyond int64 goes through an out-of-range float
  // conversion, whose result the platform chooses: wild.
  function Value(t: Token, wild: int): int
    requires Fault(t) == None
  {
    var e := Exact(t.num, UnitOf(t.unit).value);
    if e <= MAX64 then e else wild
  }

  // ---------- specification ----------

  function FirstFault(ts: seq<Token>): Option<DurationError> {
    if ts == [] then None
    else if Fault(ts[0]).Some? then Fault(ts[0])
    else FirstFault(ts[1..])
  }

  function Total(ts: seq<Token>, wild: int): int
    requires FirstFault(ts) == None
  {
    if ts == [] then 0 else Value(ts[0], wild) + Total(ts[1..], wild)
  }

  // The unsigned part: the exact sum over all elements, wrapped once.
  function Unsigned(body: string, wild: int): Result<int, DurationError> {
    var ts := Tokens(body);
    if ts == [] then Err(InvalidString)
    else match FirstFault(ts)
      case Some(e) => Err(e)
      case None => Ok(Wrap64(Total(ts, wild)))
  }

  predicate Negative(text: string) { text != [] && text[0] == '-' }

  function Body(text: string): string {
    if Negative(text) then text[1..] else text
  }

  function Parse(text: string, wild: int): Result<int, DurationError> {
    match Unsigned(Body(text), wild)
    case Err(e) => Err(e)
    case Ok(v) => Ok(if Negative(text) then Wrap64(-v) else v)
  }

  // ---------- the parser ----------

  lemma {:induction false} FaultSplit(a: seq<Token>, b: seq<Token>)
    ensures FirstFault(a + b) == if FirstFault(a).Some? then FirstFault(a) else FirstFault(b)
  {
    if a == [] {
      assert a + b == b;
    } else {
      FaultSplit(a[1..], b);
      assert (a + b)[1..] == a[1..] + b;
    }
  }

  lemma {:induction false} TotalSplit(a: seq<Token>, b: seq<Token>, wild: int)
    requires FirstFault(a) == None && FirstFault(b) == None
    ensures FirstFault(a + b) == None
    ensures Total(a + b, wild) == Total(a, wild) + Total(b, wild)
  {
    hide Fault, Value;
    FaultSplit(a, b);
    if a == [] {
      assert a + b == b;
    } else {
      FaultSplit(a[1..], b);
      TotalSplit(a[1..], b, wild);
      assert (a + b)[1..] == a[1..] + b;
    }
  }

  // What reading one more element does.
  lemma Advance(ts: seq<Token>, i: nat, wild: int)
    requires i < |ts| && FirstFault(ts[..i]) == None
    ensures Fault(ts[i]).Some? ==> FirstFault(ts) == Fault(ts[i])
    ensures Fault(ts[i]) == None ==>
              && FirstFault(ts[..i + 1]) == None
              && Total(ts[..i + 1], wild) == Total(ts[..i], wild) + Value(ts[i], wild)
  {
    hide Fault, Value;
    var one := [ts[i]];
    assert FirstFault(one) == Fault(ts[i]) by { assert one[1..] == []; }
    assert ts[..i + 1] == ts[..i] + one;
    assert ts == ts[..i + 1] + ts[i + 1..];
    FaultSplit(ts[..i], one);
    FaultSplit(ts[..i + 1], ts[i + 1..]);
    if Fault(ts[i]) == None {
      TotalSplit(ts[..i], one, wild);
      assert Total(one, wild) == Value(ts[i], wild) + Total(one[1..], wild);
    }
  }

  // The body of the source's loop up to the addition.
  method ElementDuration(m: Token, wild: int) returns (r: Result<int, DurationError>)
    ensures r == if Fault(m).Some? then Err(Fault(m).value) else Ok(Value(m, wild))
  {
    if m.unit == "" {
      return Err(MissingUnit);
    }
    var unit := UnitOf(m.unit);
    if unit == None {
      return Err(UnknownUnit);
    }
    var part := Exact(m.num, unit.value);
    if unit.value.delegated {
      if part > MAX64 {
        return Err(OutOfRange);
      }
    } else {
      if Mantissa(m.num) >= Product(FloatLimit(), Pow(10, Scale(m.num))) {
        return Err(OutOfRange);
      }
      if part > MAX64 {
        part := wild;
      }
    }
    return Ok(part);
  }

  // The loop of the source: it wraps after every addition and negates at the end.
  method ParseFlexibleDuration(text: string, wild: int) returns (r: Result<int, DurationError>)
    requires IsInt64(wild)
    ensures r == Parse(text, wild)
  {
    hide Wrap64, Value, Fault, Tokens;
    var val := text;
    var neg := false;
    if |val| > 0 && val[0] == '-' {
      neg := true;
      val := val[1..];
    }
    var matches := Tokens(val);
    if |matches| == 0 {
      return Err(InvalidString);
    }
    var sumDur := 0;
    ghost var total := 0;
    for i := 0 to |matches|
      invariant FirstFault(matches[..i]) == None
      invariant total == Total(matches[..i], wild)
      invariant sumDur == Wrap64(total)
    {
      Advance(matches, i, wild);
      var part := ElementDuration(matches[i], wild);
      if part.Err? {
        return part;
      }
      WrapAdd(total, part.value);
      sumDur := Wrap64(sumDur + part.value);
      total := total + part.value;
    }
    assert matches[..|matches|] == matches;
    if neg {
      WrapNegate(total);
      sumDur := Wrap64(-sumDur);
    }
    return Ok(sumDur);
  }
}

// What the duration parser means: how it composes, what it ignores, and when it is exact.
module DurationLaws {
  import opened Wrappers
  import opened Regex
  import opened Duration

  // ---------- composition ----------

  predicate NumChar(x: char) { In(Digit, x) || In(Dot, x) }

  predicate Gap(x: char) { !NumChar(x) && !In(UnitLetter, x) }

  predicate AllGap(s: string) { forall k | 0 <= k < |s| :: Gap(s[k]) }

  // No element can run across the border between a and b.
  predicate Border(a: string, b: string) {
    a == [] || b == []
    || Gap(a[|a| - 1]) || Gap(b[0])
    || (In(UnitLetter, a[|a| - 1]) && NumChar(b[0]))
  }

  lemma {:induction false} SpanAppend(c: CharClass, a: string, b: string)
    ensures Span(c, a + b) == if Span(c, a) < |a| then Span(c, a) else |a| + Span(c, b)
  {
    if a == [] {
      assert a + b == b;
    } else {
      SpanAppend(c, a[1..], b);
      assert (a + b)[1..] == a[1..] + b;
    }
  }

  // No numeral can run across; a weaker condition, seen like the first from the last character.
  predicate NumBorder(a: string, b: string) {
    a == [] || b == [] || !NumChar(a[|a| - 1]) || !NumChar(b[0])
  }

  lemma BorderOfSuffix(a: string, b: string, k: nat)
    requires k <= |a|
    ensures (a + b)[k..] == a[k..] + b && (a + b)[..k] == a[..k]
    ensures Border(a, b) ==> Border(a[k..], b)
    ensures NumBorder(a, b) ==> NumBorder(a[k..], b)
  {
    if k < |a| { assert a[k..][|a| - k - 1] == a[|a| - 1]; }
  }

  // A run that is not stopped inside a by the next character is not extended by b either.
  lemma SpanAtBorder(c: CharClass, a: string, b: string)
    requires b == [] || Span(c, a) < |a| || !In(c, b[0])
    ensures Span(c, a + b) == Span(c, a)
  {
    SpanAppend(c, a, b);
  }

  lemma FractionAppend(a: string, b: string)
    requires a != [] && NumBorder(a, b)
    ensures FractionLen(a + b) == FractionLen(a)
  {
    if a[0] == '.' {
      BorderOfSuffix(a, b, 1);
      SpanStops(Digit, a[1..]);
      assert Span(Digit, a[1..]) == |a| - 1 ==> NumChar(a[|a| - 1]) by {
        if |a| > 1 { assert a[1..][|a| - 2] == a[|a| - 1]; }
      }
      SpanAtBorder(Digit, a[1..], b);
    }
  }

  lemma NumLenAppend(a: string, b: string)
    requires a != [] && NumBorder(a, b)
    ensures NumLen(a + b) == NumLen(a)
  {
    var d := Span(Digit, a);
    SpanStops(Digit, a);
    SpanAtBorder(Digit, a, b);
    BorderOfSuffix(a, b, d);
    if d < |a| {
      FractionAppend(a[d..], b);
    } else {
      assert (a + b)[d..] == b;
    }
  }

  lemma UnitAppend(a: string, n: nat, b: string)
    requires Border(a, b) && 0 < n <= |a| && NumChar(a[n - 1])
    ensures Span(UnitLetter, (a + b)[n..]) == Span(UnitLetter, a[n..])
  {
    BorderOfSuffix(a, b, n);
    SpanStops(UnitLetter, a[n..]);
    if n < |a| { assert a[n..][|a| - n - 1] == a[|a| - 1]; }
    SpanAtBorder(UnitLetter, a[n..], b);
  }

  lemma HeadAppend(a: string, b: string)
    requires a != [] && Border(a, b)
    ensures Step(a + b) == Step(a) && Head(a + b) == Head(a)
  {
    hide PreferredNumber, PreferredUnit, NumLen;
    NumLenAppend(a, b);
    var n := NumLen(a);
    if n > 0 {
      NumLenEndsInNumber(a);
      UnitAppend(a, n, b);
      BorderOfSuffix(a, b, n);
      var u := Span(UnitLetter, a[n..]);
      assert (a + b)[n..n + u] == a[n..n + u];
    }
  }

  // Tokenizing distributes over every concatenation whose border no element can cross.
  lemma {:induction false} TokensAppend(a: string, b: string)
    requires Border(a, b)
    ensures Tokens(a + b) == Tokens(a) + Tokens(b)
    decreases |a|
  {
    hide Head, Step, Border, NumBorder;
    if a == [] {
      assert a + b == b;
    } else {
      var k := Step(a);
      HeadAppend(a, b);
      BorderOfSuffix(a, b, k);
      TokensAppend(a[k..], b);
      assert Tokens(a) == Head(a) + Tokens(a[k..]);
    }
  }

  lemma NumLenEndsInNumber(s: string)
    ensures NumLen(s) > 0 ==> In(Digit, s[NumLen(s) - 1])
  {
    var d := Span(Digit, s);
    SpanStops(Digit, s);
    var rest := s[d..];
    if FractionLen(rest) > 0 {
      SpanStops(Digit, rest[1..]);
      assert rest[1..][FractionLen(rest) - 2] == s[NumLen(s) - 1];
    }
  }

  lemma {:induction false} GapHasNoTokens(g: string)
    requires AllGap(g)
    ensures Tokens(g) == []
  {
    if g != [] {
      assert Span(Digit, g) == 0;
      GapHasNoTokens(g[1..]);
    }
  }

  // Parsing a concatenation adds the parts and fails exactly when one of the parts does.
  lemma ParseAppend(a: string, b: string, wild: int)
    requires Border(a, b) && Tokens(a) != [] && Tokens(b) != []
    ensures Unsigned(a + b, wild).Ok? <==> Unsigned(a, wild).Ok? && Unsigned(b, wild).Ok?
    ensures Unsigned(a + b, wild).Ok? ==>
              Unsigned(a + b, wild).value == Wrap64(Unsigned(a, wild).value + Unsigned(b, wild).value)
  {
    hide Tokens, Value, Fault, Wrap64, Border;
    TokensAppend(a, b);
    var ta, tb := Tokens(a), Tokens(b);
    FaultSplit(ta, tb);
    if FirstFault(ta) == None && FirstFault(tb) == None {
      TotalSplit(ta, tb, wild);
      AddWrapped(Total(ta, wild), Total(tb, wild));
    }
  }

  lemma AddWrapped(x: int, y: int)
    ensures Wrap64(Wrap64(x) + Wrap64(y)) == Wrap64(x + y)
  {
    WrapAdd(x, Wrap64(y));
    WrapAdd(y, x);
  }

  // A run of characters that are no digits, dots or unit letters may stand between any two
  // strings; a minus sign is one of them, so inner signs never count.
  lemma TokensAcrossGap(a: string, gap: string, b: string)
    requires gap != [] && AllGap(gap)
    ensures Tokens(a + gap + b) == Tokens(a) + Tokens(b)
  {
    hide Tokens;
    GapHasNoTokens(gap);
    assert (a + gap)[|a + gap| - 1] == gap[|gap| - 1];
    TokensAppend(a, gap);
    TokensAppend(a + gap, b);
  }

  lemma TokensAroundGap(a: string, gap: string, b: string)
    requires AllGap(gap) && Border(a, b)
    ensures Tokens(a + gap + b) == Tokens(a) + Tokens(b)
  {
    hide Tokens;
    if gap == [] {
      assert a + gap + b == a + b;
      TokensAppend(a, b);
    } else {
      TokensAcrossGap(a, gap, b);
    }
  }

  lemma ParseAcrossGap(a: string, gap: string, b: string, wild: int)
    requires AllGap(gap) && Border(a, b)
    ensures Unsigned(a + gap + b, wild) == Unsigned(a + b, wild)
  {
    hide Tokens, Border, AllGap;
    TokensAroundGap(a, gap, b);
    TokensAppend(a, b);
  }

  // Minus signs after the first character have no effect where they stand between elements.
  lemma InnerSigns(a: string, b: string, wild: int)
    requires Border(a, b)
    ensures Unsigned(a + "-" + b, wild) == Unsigned(a + b, wild)
  {
    hide Unsigned, Border;
    assert AllGap("-");
    ParseAcrossGap(a, "-", b, wild);
  }

  // ---------- lists of elements ----------

  // A numeral, a unit and whatever separates it from the next element.
  datatype Element = Element(num: string, unit: string, gap: string)

  predicate WellFormed(e: Element) {
    && e.num != [] && NumLen(e.num) == |e.num|
    && e.unit != [] && Span(UnitLetter, e.unit) == |e.unit|
    && AllGap(e.gap)
  }

  predicate AllWellFormed(es: seq<Element>) {
    forall k | 0 <= k < |es| :: WellFormed(es[k])
  }

  function Render(es: seq<Element>): string {
    if es == [] then "" else es[0].num + es[0].unit + es[0].gap + Render(es[1..])
  }

  function Bare(es: seq<Element>): seq<Token> {
    seq(|es|, k requires 0 <= k < |es| => Token(es[k].num, es[k].unit))
  }

  lemma ElementTokens(e: Element)
    requires WellFormed(e)
    ensures Tokens(e.num + e.unit) == [Token(e.num, e.unit)]
  {
    hide PreferredNumber, PreferredUnit, NumLen;
    var s := e.num + e.unit;
    SpanStops(UnitLetter, e.unit);
    NumLenAppend(e.num, e.unit);
    assert s[|e.num|..] == e.unit && s[..|e.num|] == e.num;
    assert s[|e.num|..|s|] == e.unit && s[|s|..] == [];
  }

  // A unit ends in a letter and the next numeral begins with a digit or a point.
  lemma RenderedBorder(es: seq<Element>)
    requires es != [] && AllWellFormed(es)
    ensures Border(es[0].num + es[0].unit, Render(es[1..]))
  {
    var head := es[0].num + es[0].unit;
    SpanStops(UnitLetter, es[0].unit);
    assert head[|head| - 1] == es[0].unit[|es[0].unit| - 1];
    if |es| > 1 {
      var n := es[1].num;
      assert WellFormed(es[1]) && es[1..][0] == es[1];
      assert Render(es[1..]) == n + es[1].unit + es[1].gap + Render(es[1..][1..]);
      assert Render(es[1..])[0] == n[0];
      assert Span(Digit, n) == 0 ==> n[0] == '.';
    }
  }

  lemma RenderStep(es: seq<Element>)
    requires es != [] && AllWellFormed(es)
    ensures Tokens(Render(es)) == [Token(es[0].num, es[0].unit)] + Tokens(Render(es[1..]))
  {
    hide Tokens, NumLen, Border, Span, AllGap;
    var e := es[0];
    var head, tail := e.num + e.unit, Render(es[1..]);
    RenderedBorder(es);
    ElementTokens(e);
    TokensAroundGap(head, e.gap, tail);
    assert Render(es) == head + e.gap + tail;
  }

  lemma BareStep(es: seq<Element>)
    requires es != []
    ensures Bare(es) == [Token(es[0].num, es[0].unit)] + Bare(es[1..])
  {
  }

  lemma TailWellFormed(es: seq<Element>)
    requires es != [] && AllWellFormed(es)
    ensures AllWellFormed(es[1..])
  {
    hide WellFormed;
  }

  // Tokenizing undoes rendering, whatever the separators.
  lemma {:induction false} TokensOfRender(es: seq<Element>)
    requires AllWellFormed(es)
    ensures Tokens(Render(es)) == Bare(es)
  {
    if es == [] {
    } else {
      hide Tokens, Render, AllWellFormed, Bare;
      RenderStep(es);
      TailWellFormed(es);
      TokensOfRender(es[1..]);
      BareStep(es);
    }
  }

  lemma FaultInsert(ts: seq<Token>, k: nat)
    requires k < |ts|
    ensures FirstFault(ts) == None <==> Fault(ts[k]) == None && FirstFault(ts[..k] + ts[k + 1..]) == None
  {
    hide Fault;
    var one := [ts[k]];
    assert ts == ts[..k] + (one + ts[k + 1..]);
    FaultSplit(ts[..k], one + ts[k + 1..]);
    FaultSplit(one, ts[k + 1..]);
    FaultSplit(ts[..k], ts[k + 1..]);
    assert one[1..] == [];
  }

  lemma {:induction false} TotalRemove(ts: seq<Token>, k: nat, wild: int)
    requires k < |ts| && FirstFault(ts) == None
    ensures FirstFault(ts[..k] + ts[k + 1..]) == None && Fault(ts[k]) == None
    ensures Total(ts, wild) == Value(ts[k], wild) + Total(ts[..k] + ts[k + 1..], wild)
  {
    hide Fault, Value;
    var one := [ts[k]];
    assert ts == ts[..k] + (one + ts[k + 1..]);
    FaultInsert(ts, k);
    FaultSplit(ts[..k], one + ts[k + 1..]);
    FaultSplit(one, ts[k + 1..]);
    TotalSplit(ts[..k], one + ts[k + 1..], wild);
    TotalSplit(one, ts[k + 1..], wild);
    TotalSplit(ts[..k], ts[k + 1..], wild);
    assert one[1..] == [];
  }

  lemma Without<T>(a: seq<T>, k: nat)
    requires k < |a|
    ensures multiset(a[..k] + a[k + 1..]) == multiset(a) - multiset{a[k]}
  {
    assert a == a[..k] + ([a[k]] + a[k + 1..]);
  }

  lemma WithoutFirst<T>(a: seq<T>)
    requires a != []
    ensures multiset(a[1..]) == multiset(a) - multiset{a[0]}
  {
    assert a == [a[0]] + a[1..];
  }

  lemma FindIn<T>(x: T, b: seq<T>) returns (k: nat)
    requires x in multiset(b)
    ensures k < |b| && b[k] == x
  {
    assert x in b;
    k :| 0 <= k < |b| && b[k] == x;
  }

  lemma PickOut<T>(a: seq<T>, b: seq<T>) returns (k: nat)
    requires a != [] && multiset(a) == multiset(b)
    ensures k < |b| && b[k] == a[0]
    ensures multiset(a[1..]) == multiset(b[..k] + b[k + 1..])
  {
    assert a[0] in multiset(b) by { assert a[0] in multiset(a); }
    k := FindIn(a[0], b);
    WithoutFirst(a);
    Without(b, k);
  }

  // The sum does not depend on the order of the elements.
  lemma {:induction false} TotalPermute(a: seq<Token>, b: seq<Token>, wild: int)
    requires multiset(a) == multiset(b) && FirstFault(a) == None
    ensures FirstFault(b) == None && Total(a, wild) == Total(b, wild)
    decreases |a|
  {
    hide Fault, Value;
    if a == [] {
      assert |multiset(b)| == 0;
    } else {
      var k := PickOut(a, b);
      TotalPermute(a[1..], b[..k] + b[k + 1..], wild);
      FaultInsert(b, k);
      TotalRemove(b, k, wild);
    }
  }

  // A rendered list parses to the sum of its elements, in any order and with any separators.
  lemma ParseOfRender(es: seq<Element>, fs: seq<Element>, wild: int)
    requires es != [] && AllWellFormed(es) && AllWellFormed(fs)
    requires multiset(Bare(es)) == multiset(Bare(fs))
    ensures Unsigned(Render(es), wild).Ok? <==> FirstFault(Bare(es)) == None
    ensures FirstFault(Bare(es)) == None ==>
              && Unsigned(Render(es), wild) == Ok(Wrap64(Total(Bare(es), wild)))
              && Unsigned(Render(fs), wild) == Unsigned(Render(es), wild)
  {
    TokensOfRender(es);
    TokensOfRender(fs);
    if FirstFault(Bare(es)) == None {
      TotalPermute(Bare(es), Bare(fs), wild);
      assert |multiset(Bare(fs))| == |Bare(fs)|;
    }
  }

  // ---------- exactness ----------

  predicate Known(t: Token) { t.unit != "" && UnitOf(t.unit).Some? }

  function ExactTotal(ts: seq<Token>): nat
    requires forall t | t in ts :: Known(t)
  {
    if ts == [] then 0 else
    assert Known(ts[0]);
    Exact(ts[0].num, UnitOf(ts[0].unit).value) + ExactTotal(ts[1..])
  }

  lemma {:induction false} PowGrows(e: nat)
    ensures Pow(2, e) > e
  {
    if e > 0 { PowGrows(e - 1); }
  }

  lemma QuotientBound(a: nat, b: nat, p: nat, q: nat)
    requires p > 0 && b > 0 && a > 0 && a * b / p <= q
    ensures b < (q + 1) * p
  {
    assert a * b < (q + 1) * p by {
      var k := a * b / p;
      assert a * b == k * p + a * b % p;
      assert k * p <= q * p;
    }
    assert b <= a * b;
  }

  lemma InRangeIsFine(t: Token, wild: int)
    requires Known(t) && Exact(t.num, UnitOf(t.unit).value) <= MAX64
    ensures Fault(t) == None && Value(t, wild) == Exact(t.num, UnitOf(t.unit).value)
  {
    hide UnitOf;
    PowPositive(10, Scale(t.num));
    var u := UnitOf(t.unit).value;
    UnitsArePositive(t.unit);
    if !u.delegated { FloatIsFinite(u.ns, Mantissa(t.num), Scale(t.num)); }
  }

  lemma UnitsArePositive(unit: string)
    ensures UnitOf(unit).Some? ==> UnitOf(unit).value.ns > 0
  {
  }

  lemma FloatIsFinite(ns: nat, mantissa: nat, scale: nat)
    requires ns > 0 && Pow(10, scale) > 0
    requires Quotient(Product(ns, mantissa), Pow(10, scale)) <= MAX64
    ensures mantissa < Product(FloatLimit(), Pow(10, scale))
  {
    hide FloatLimit, Pow;
    LimitCoversInt64();
    var p, l := Pow(10, scale), FloatLimit();
    if mantissa > 0 { QuotientBound(ns, mantissa, p, MAX64); }
    assert (MAX64 + 1) * p <= l * p;
  }

  lemma LimitCoversInt64()
    ensures FloatLimit() >= MAX64 + 1
  {
    PowGrows(970);
  }

  // If the exact total fits, nothing overflows on the way: every running total is the exact one
  // and no platform-dependent conversion takes part.
  lemma {:induction false} RunningTotalsFit(ts: seq<Token>, k: nat, wild: int)
    requires forall t | t in ts :: Known(t)
    requires ExactTotal(ts) <= MAX64 && k <= |ts|
    ensures FirstFault(ts) == None && Total(ts, wild) == ExactTotal(ts)
    ensures FirstFault(ts[..k]) == None && 0 <= Total(ts[..k], wild) <= Total(ts, wild)
    decreases |ts|
  {
    if ts != [] {
      hide Value, Fault, Exact;
      InRangeIsFine(ts[0], wild);
      RunningTotalsFit(ts[1..], if k == 0 then 0 else k - 1, wild);
      if k > 0 { assert ts[..k][1..] == ts[1..][..k - 1]; }
    }
  }

  lemma ParseExact(text: string, wild: int)
    requires Tokens(Body(text)) != [] && forall t | t in Tokens(Body(text)) :: Known(t)
    requires ExactTotal(Tokens(Body(text))) <= MAX64
    ensures var sum: int := ExactTotal(Tokens(Body(text)));
            Parse(text, wild) == Ok(if Negative(text) then -sum else sum)
  {
    hide Tokens, Fault, Value, Known;
    var ts := Tokens(Body(text));
    RunningTotalsFit(ts, 0, wild);
  }

  predicate Fits(t: Token) { Known(t) && Exact(t.num, UnitOf(t.unit).value) <= MAX64 }

  predicate EachFits(ts: seq<Token>) { forall t | t in ts :: Fits(t) }

  lemma {:induction false} FittingTotal(ts: seq<Token>, wild: int)
    requires EachFits(ts)
    ensures forall t | t in ts :: Known(t)
    ensures FirstFault(ts) == None && Total(ts, wild) == ExactTotal(ts)
  {
    hide Value, Fault, Exact;
    if ts != [] {
      assert Fits(ts[0]);
      InRangeIsFine(ts[0], wild);
      FittingTotal(ts[1..], wild);
    }
  }

  lemma {:induction false} SmallTotalFits(ts: seq<Token>)
    requires forall t | t in ts :: Known(t)
    requires ExactTotal(ts) <= MAX64
    ensures EachFits(ts)
  {
    hide Exact;
    if ts != [] {
      SmallTotalFits(ts[1..]);
      assert forall t | t in ts :: t == ts[0] || t in ts[1..];
    }
  }

  // A sum of 2^63 with an element that does not fit consists of that element.
  lemma {:induction false} LoneGiant(ts: seq<Token>, wild: int)
    requires forall t | t in ts :: Known(t)
    requires ExactTotal(ts) == MAX64 + 1 && !EachFits(ts)
    ensures FirstFault(ts) == None ==> Total(ts, wild) == wild
  {
    hide Fault, Exact, Value;
    assert Known(ts[0]);
    if Fits(ts[0]) {
      InRangeIsFine(ts[0], wild);
      GiantBehind(ts);
      LoneGiant(ts[1..], wild);
    } else {
      GiantValue(ts[0], wild);
      RunningTotalsFit(ts[1..], 0, wild);
    }
  }

  lemma GiantValue(t: Token, wild: int)
    requires Known(t) && !Fits(t)
    ensures Fault(t) == None ==> Value(t, wild) == wild
  {
  }

  lemma GiantBehind(ts: seq<Token>)
    requires forall t | t in ts :: Known(t)
    requires ts != [] && Fits(ts[0]) && ExactTotal(ts) == MAX64 + 1 && !EachFits(ts)
    ensures ExactTotal(ts[1..]) == MAX64 + 1 && !EachFits(ts[1..])
    ensures Exact(ts[0].num, UnitOf(ts[0].unit).value) == 0
  {
    hide Exact, Fits;
    assert ts == [ts[0]] + ts[1..];
    if ExactTotal(ts[1..]) <= MAX64 { SmallTotalFits(ts[1..]); }
  }

  // The true sum comes out exactly when it fits. After a leading minus it may also be 2^63, the least
  // int64 being its own negation: if every element fits, or if the one that does not is let through
  // and converted to the least int64.
  lemma ParseExactIff(text: string, wild: int)
    requires IsInt64(wild)
    requires Tokens(Body(text)) != [] && forall t | t in Tokens(Body(text)) :: Known(t)
    ensures var ts := Tokens(Body(text));
            var sum: int := ExactTotal(ts);
            Parse(text, wild) == Ok(if Negative(text) then -sum else sum) <==>
              (sum <= MAX64
               || (Negative(text) && sum == MAX64 + 1
                   && (EachFits(ts) || (FirstFault(ts) == None && wild == -MAX64 - 1))))
  {
    hide Tokens, Fault, Value, Known;
    var ts := Tokens(Body(text));
    var sum: int := ExactTotal(ts);
    if sum <= MAX64 {
      ParseExact(text, wild);
    } else if sum == MAX64 + 1 {
      if EachFits(ts) { FittingTotal(ts, wild); } else { LoneGiant(ts, wild); }
    }
  }

  // Three hundred years do not fit: the platform decides, and the usual choice is negative.
  lemma OverlongYears(wild: int)
    requires IsInt64(wild)
    ensures Parse("300y", wild) == Ok(wild)
  {
    hide Tokens, Fault, Value;
    var ts := [Token("300", "y")];
    TokensOf300y();
    ValueOf300y(wild);
    assert FirstFault(ts) == None && Total(ts, wild) == wild by { assert ts[1..] == []; }
  }

  lemma ValueOf300y(wild: int)
    ensures var t := Token("300", "y"); Fault(t) == None && Value(t, wild) == wild
  {
    hide FloatLimit;
    assert UnitOf("y") == Some(Unit(365 * 24 * HOUR, false)) by { assert FoldCase("y") == "y"; }
    NumeralOf300();
    LimitCoversInt64();
    assert Pow(10, 0) == 1;
  }

  lemma TokensOf300y()
    ensures Tokens("300y") == [Token("300", "y")]
  {
    hide Tokens;
    var e := Element("300", "y", "");
    NumeralOf300();
    assert Span(UnitLetter, "y") == 1 by { assert "y"[1..] == ""; }
    ElementTokens(e);
    assert "300" + "y" == "300y";
  }

  lemma NumeralOf300()
    ensures NumLen("300") == 3 && Mantissa("300") == 300 && Scale("300") == 0
  {
    assert "300"[1..] == "00" && "00"[1..] == "0" && "0"[1..] == "";
    assert Span(Digit, "300") == 3;
    assert "300"[..2] == "30" && "30"[..1] == "3" && "3"[..0] == "";
    assert Mantissa("3") == 3;
    assert Mantissa("30") == 30;
  }

  // A digit and an h are that many hours.
  lemma HoursParse(digit: char, wild: int)
    requires '0' <= digit <= '9'
    ensures Parse([digit] + "h", wild) == Ok((digit - '0') as int * HOUR)
  {
    hide Tokens, Fault, Value, Render, NumLen;
    var num, e := [digit], Element([digit], "h", "");
    DigitNumeral(digit);
    assert Span(UnitLetter, "h") == 1 by { assert "h"[1..] == ""; }
    ElementTokens(e);
    var ts := [Token(num, "h")];
    assert Exact(num, Unit(HOUR, true)) == HOUR * (digit - '0') as nat by { assert Pow(10, 0) == 1; }
    assert UnitOf("h") == Some(Unit(HOUR, true)) by { assert FoldCase("h") == "h"; }
    assert ts[1..] == [] && ExactTotal(ts) == HOUR * (digit - '0') as nat;
    ParseExact(num + "h", wild);
  }

  lemma DigitNumeral(digit: char)
    requires '0' <= digit <= '9'
    ensures NumLen([digit]) == 1 && Mantissa([digit]) == (digit - '0') as nat && Scale([digit]) == 0
  {
    assert [digit][1..] == "" && [digit][..0] == "";
    assert Span(Digit, [digit]) == 1;
  }

  // ---------- normal forms ----------

  lemma {:induction false} SpanFold(c: CharClass, s: string)
    ensures Span(c, FoldCase(s)) == Span(c, s)
  {
    if s != [] {
      SpanFold(c, s[1..]);
      assert FoldCase(s)[1..] == FoldCase(s[1..]);
    }
  }

  lemma FoldSlice(s: string, i: nat, j: nat)
    requires i <= j <= |s|
    ensures FoldCase(s)[i..j] == FoldCase(s[i..j])
    ensures FoldCase(s)[i..] == FoldCase(s[i..])
  {
  }

  lemma FractionFold(s: string)
    ensures FractionLen(FoldCase(s)) == FractionLen(s)
  {
    if s != [] {
      FoldSlice(s, 1, |s|);
      SpanFold(Digit, s[1..]);
    }
  }

  lemma NumLenFold(s: string)
    ensures NumLen(FoldCase(s)) == NumLen(s)
  {
    SpanFold(Digit, s);
    FoldSlice(s, Span(Digit, s), |s|);
    FractionFold(s[Span(Digit, s)..]);
  }

  // The numeral itself holds no letters.
  lemma NumeralIsFolded(s: string)
    ensures FoldCase(s[..NumLen(s)]) == s[..NumLen(s)]
  {
    var d := Span(Digit, s);
    var rest := s[d..];
    SpanStops(Digit, s);
    if FractionLen(rest) > 0 {
      SpanStops(Digit, rest[1..]);
      forall k | d < k < NumLen(s) ensures FoldChar(s[k]) == s[k] {
        assert s[k] == rest[1..][k - d - 1];
      }
      assert s[d] == rest[0];
    }
  }

  function FoldTokens(ts: seq<Token>): seq<Token> {
    seq(|ts|, k requires 0 <= k < |ts| => Token(ts[k].num, FoldCase(ts[k].unit)))
  }

  lemma HeadFold(s: string)
    requires s != []
    ensures Step(FoldCase(s)) == Step(s) && Head(FoldCase(s)) == FoldTokens(Head(s))
  {
    hide PreferredNumber, PreferredUnit, NumLen;
    var n := NumLen(s);
    NumLenFold(s);
    NumeralIsFolded(s);
    FoldSlice(s, n, |s|);
    SpanFold(UnitLetter, s[n..]);
    FoldSlice(s, 0, n);
    FoldSlice(s, n, n + Span(UnitLetter, s[n..]));
  }

  lemma {:induction false} TokensFold(s: string)
    ensures Tokens(FoldCase(s)) == FoldTokens(Tokens(s))
    decreases |s|
  {
    hide Head, Step;
    if s != [] {
      HeadFold(s);
      FoldSlice(s, Step(s), |s|);
      TokensFold(s[Step(s)..]);
    }
  }

  // Elements with the same numeral whose units denote the same length are interchangeable.
  predicate SameMeaning(a: seq<Token>, b: seq<Token>) {
    |a| == |b| && forall k | 0 <= k < |a| ::
      && a[k].num == b[k].num && (a[k].unit == "" <==> b[k].unit == "")
      && UnitOf(a[k].unit) == UnitOf(b[k].unit)
  }

  lemma {:induction false} SameMeaningSameTotal(a: seq<Token>, b: seq<Token>, wild: int)
    requires SameMeaning(a, b)
    ensures FirstFault(a) == FirstFault(b)
    ensures FirstFault(a) == None ==> Total(a, wild) == Total(b, wild)
  {
    if a != [] {
      assert Fault(a[0]) == Fault(b[0]);
      SameMeaningSameTotal(a[1..], b[1..], wild);
    }
  }

  lemma FoldUnit(unit: string)
    ensures UnitOf(FoldCase(unit)) == UnitOf(unit)
  {
    assert FoldCase(FoldCase(unit)) == FoldCase(unit);
  }

  // Letter case and the choice of micro sign never matter.
  lemma ParseIgnoresCase(text: string, wild: int)
    ensures Parse(FoldCase(text), wild) == Parse(text, wild)
  {
    hide Tokens, UnitOf;
    assert Negative(FoldCase(text)) == Negative(text);
    var body := Body(text);
    assert Body(FoldCase(text)) == FoldCase(body);
    TokensFold(body);
    var ts := Tokens(body);
    forall k | 0 <= k < |ts| ensures UnitOf(FoldCase(ts[k].unit)) == UnitOf(ts[k].unit) {
      FoldUnit(ts[k].unit);
    }
    SameMeaningSameTotal(FoldTokens(ts), ts, wild);
  }

  // Units of equal length, the three spellings of the month among them, can be exchanged
  // anywhere in a list, with any change of separators.
  lemma ParseSameUnits(es: seq<Element>, fs: seq<Element>, wild: int)
    requires AllWellFormed(es) && AllWellFormed(fs)
    requires SameMeaning(Bare(es), Bare(fs))
    ensures Unsigned(Render(es), wild) == Unsigned(Render(fs), wild)
  {
    TokensOfRender(es);
    TokensOfRender(fs);
    SameMeaningSameTotal(Bare(es), Bare(fs), wild);
  }

  predicate MonthUnit(unit: string) { FoldCase(unit) in ["mo", "mth", "month"] }

  lemma MonthSpellings(a: string, b: string)
    requires MonthUnit(a) && MonthUnit(b)
    ensures UnitOf(a) == UnitOf(b) && UnitOf(a) == Some(Unit(30 * 24 * HOUR, false))
  {
  }

  // The same list with every month spelled one way.
  function Respelled(es: seq<Element>, spelling: string): seq<Element> {
    seq(|es|, k requires 0 <= k < |es| => if MonthUnit(es[k].unit) then es[k].(unit := spelling) else es[k])
  }

  // How months are spelled never matters.
  lemma MonthsRespelled(es: seq<Element>, spelling: string, wild: int)
    requires AllWellFormed(es) && spelling in ["mo", "mth", "month"]
    ensures Unsigned(Render(Respelled(es, spelling)), wild) == Unsigned(Render(es), wild)
  {
    hide Unsigned, Render, Tokens, UnitOf, NumLen;
    var fs := Respelled(es, spelling);
    SpellingIsUnit(spelling);
    forall k | 0 <= k < |es| ensures WellFormed(fs[k]) && UnitOf(fs[k].unit) == UnitOf(es[k].unit) {
      if MonthUnit(es[k].unit) { MonthSpellings(es[k].unit, spelling); }
      assert WellFormed(es[k]);
    }
    ParseSameUnits(fs, es, wild);
  }

  lemma {:induction false} LettersSpan(s: string)
    requires forall k | 0 <= k < |s| :: In(UnitLetter, s[k])
    ensures Span(UnitLetter, s) == |s|
  {
    if s != [] { LettersSpan(s[1..]); }
  }

  lemma SpellingIsUnit(spelling: string)
    requires spelling in ["mo", "mth", "month"]
    ensures MonthUnit(spelling) && spelling != "" && Span(UnitLetter, spelling) == |spelling|
  {
    hide Span;
    LettersSpan(spelling);
    assert FoldCase(spelling) == spelling;
  }

  // A leading minus negates; only the least int64 is its own negation.
  lemma ParseNegated(text: string, wild: int)
    requires !Negative(text)
    ensures Parse("-" + text, wild).Ok? <==> Parse(text, wild).Ok?
    ensures Parse(text, wild).Ok? ==>
              var v := Parse(text, wild).value;
              Parse("-" + text, wild).value == if v == -MAX64 - 1 then v else -v
  {
    hide Tokens, Fault, Value;
    assert Body("-" + text) == text;
  }
}

// The regular-expression engine the duration parser relies on, as far as it is needed:
// character classes, concatenation, ordered alternation and greedy repetition, with the
// leftmost-first preference of Go's regexp package.
module Regex {

  datatype CharClass = Digit | Dot | UnitLetter

  predicate In(c: CharClass, x: char) {
    match c
    case Digit => '0' <= x <= '9'
    case Dot => x == '.'
    case UnitLetter => 'A' <= x <= 'Z' || 'a' <= x <= 'z' || IsMicro(x)
  }

  // The micro sign U+00B5 and the Greek letter mu U+03BC.
  predicate IsMicro(x: char) {
    x == '\U{00B5}' || x == '\U{03BC}'
  }

  datatype Pattern =
    | One(kind: CharClass)
    | Cat(first: Pattern, second: Pattern)
    | Either(preferred: Pattern, other: Pattern)
    | Star(body: Pattern)

  function Plus(p: Pattern): Pattern { Cat(p, Star(p)) }

  predicate AtMost(ls: seq<nat>, bound: nat) {
    forall k | 0 <= k < |ls| :: ls[k] <= bound
  }

  // The lengths of all matches of p at the start of s, most preferred first. This is the
  // textbook meaning of a backtracking matcher and knows nothing about scanning.
  function Lens(p: Pattern, s: string): (ls: seq<nat>)
    ensures AtMost(ls, |s|)
    decreases |s|, p, 0
  {
    match p
    case One(c) => if s != [] && In(c, s[0]) then [1] else []
    case Cat(a, b) => Continue(b, s, Lens(a, s))
    case Either(a, b) => Lens(a, s) + Lens(b, s)
    case Star(b) => AfterProgress(b, s, Lens(b, s)) + [0]
  }

  // Every way to continue with p after one of the given prefixes, in order.
  function Continue(p: Pattern, s: string, starts: seq<nat>): (ls: seq<nat>)
    requires AtMost(starts, |s|)
    ensures AtMost(ls, |s|)
    decreases |s|, p, 1, |starts|
  {
    if starts == [] then [] else
    Shift(starts[0], Lens(p, s[starts[0]..]), |s|) + Continue(p, s, starts[1..])
  }

  // The same for one more round of a repetition, which must consume something.
  function AfterProgress(b: Pattern, s: string, starts: seq<nat>): (ls: seq<nat>)
    requires AtMost(starts, |s|)
    ensures AtMost(ls, |s|)
    decreases |s|, b, 1, |starts|
  {
    if starts == [] then [] else
    (if starts[0] == 0 then [] else Shift(starts[0], Lens(Star(b), s[starts[0]..]), |s|))
    + AfterProgress(b, s, starts[1..])
  }

  function Shift(off: nat, ls: seq<nat>, bound: nat): (r: seq<nat>)
    requires forall k | 0 <= k < |ls| :: off + ls[k] <= bound
    ensures |r| == |ls| && forall k | 0 <= k < |r| :: r[k] == off + ls[k]
    ensures AtMost(r, bound)
  {
    seq(|ls|, k requires 0 <= k < |ls| => off + ls[k])
  }

  // ---------- scanning ----------

  // Length of the longest prefix of s inside the class.
  function Span(c: CharClass, s: string): (n: nat)
    ensures n <= |s|
  {
    if s == [] || !In(c, s[0]) then 0 else 1 + Span(c, s[1..])
  }

  lemma {:induction false} SpanStops(c: CharClass, s: string)
    ensures Span(c, s) < |s| ==> !In(c, s[Span(c, s)])
    ensures forall k | 0 <= k < Span(c, s) :: In(c, s[k])
  {
    if s != [] && In(c, s[0]) {
      SpanStops(c, s[1..]);
      forall k | 0 <= k < Span(c, s) ensures In(c, s[k]) {
        if k > 0 { assert s[k] == s[1..][k - 1]; }
      }
    }
  }

  // n, n-1, ..., 0
  function Down(n: nat): (ls: seq<nat>)
    ensures |ls| == n + 1 && ls[0] == n
    ensures forall k | 0 <= k <= n :: ls[k] == n - k
  {
    if n == 0 then [0] else [n] + Down(n - 1)
  }

  // A greedy repetition of a class matches exactly the prefixes of the longest run, longest first.
  lemma {:induction false} StarOfClass(c: CharClass, s: string)
    ensures Lens(Star(One(c)), s) == Down(Span(c, s))
    decreases |s|
  {
    var p := One(c);
    if s != [] && In(c, s[0]) {
      StarOfClass(c, s[1..]);
      assert Lens(p, s) == [1];
      assert AfterProgress(p, s, [1]) == Shift(1, Lens(Star(p), s[1..]), |s|) + AfterProgress(p, s, []);
      hide AfterProgress, Span;
      assert AfterProgress(p, s, [1]) == Shift(1, Down(Span(c, s[1..])), |s|);
      assert Shift(1, Down(Span(c, s[1..])), |s|) + [0] == Down(1 + Span(c, s[1..]));
    }
  }

  lemma {:induction false} PlusOfClass(c: CharClass, s: string)
    ensures Span(c, s) == 0 ==> Lens(Plus(One(c)), s) == []
    ensures Span(c, s) > 0 ==> Lens(Plus(One(c)), s) != [] && Lens(Plus(One(c)), s)[0] == Span(c, s)
  {
    var p := One(c);
    if s != [] && In(c, s[0]) {
      StarOfClass(c, s[1..]);
      assert Lens(p, s) == [1];
      assert Continue(Star(p), s, [1]) == Shift(1, Lens(Star(p), s[1..]), |s|) + Continue(Star(p), s, []);
    }
  }

  // Continuing with something that cannot start inside the run only works from its end.
  lemma {:induction false} AfterRun(c: CharClass, rest: Pattern, s: string, n: nat)
    requires n <= Span(c, s)
    requires forall t: string | t != [] && In(c, t[0]) :: Lens(rest, t) == []
    ensures Continue(rest, s, Down(n)) == Shift(n, Lens(rest, s[n..]), |s|)
  {
    SpanStops(c, s);
    hide Lens, Span;
    if n > 0 {
      AfterRun(c, rest, s, n - 1);
      assert Lens(rest, s[n - 1..]) == [];
      assert Down(n)[1..] == Down(n - 1);
    }
  }
}

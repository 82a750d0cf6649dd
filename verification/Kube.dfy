// What the controller sees of the cluster: annotated objects, merge patches and timestamps.
module Kube {
  import opened Wrappers

  // The annotation names the controller is configured with are pairwise distinct constants; all
  // other names are foreign to it.
  datatype Key =
    | TTL | LeaseStart | ExpireAt | Status
    | OnDeleteJob | JobServiceAccount | JobImage | JobWait | JobTimeout | JobTTL
    | JobBackoffLimit | JobEnvSecrets
    | Foreign(name: string)

  type Anns = map<Key, string>

  datatype Obj = Obj(uid: nat, anns: Anns)

  // Indexing a Go map: a missing key reads as the empty string.
  function Get(a: Anns, k: Key): string {
    if k in a then a[k] else ""
  }

  // ---------- merge patches (RFC 7396, section 2), on the annotation map ----------

  // None is JSON null: remove the key.
  type Diff = map<Key, Option<string>>

  function MergeDiff(base: Anns, want: Anns): Diff {
    map k | k in base.Keys + want.Keys && (k in base && k in want ==> base[k] != want[k])
      :: if k in want then Some(want[k]) else None
  }

  function MergeApply(s: Anns, d: Diff): Anns {
    map k | k in s.Keys + d.Keys && (k in d ==> d[k].Some?)
      :: if k in d then d[k].value else s[k]
  }

  predicate SameAt(a: Anns, b: Anns, k: Key) {
    (k in a <==> k in b) && (k in a ==> a[k] == b[k])
  }

  // On the map it was computed from, a patch produces the wanted map.
  lemma MergeExact(base: Anns, want: Anns)
    ensures MergeApply(base, MergeDiff(base, want)) == want
  {
  }

  // On any other map it settles the keys that differ and leaves all the rest alone.
  lemma MergeOnAny(s: Anns, base: Anns, want: Anns, k: Key)
    ensures var after := MergeApply(s, MergeDiff(base, want));
            var same := (k in base <==> k in want) && (k in base ==> base[k] == want[k]);
            && (same ==> (k in after <==> k in s) && (k in s ==> after[k] == s[k]))
            && (!same ==> (k in after <==> k in want) && (k in want ==> after[k] == want[k]))
            && (k in MergeDiff(base, want) <==> !same)
            && (!same ==> MergeDiff(base, want)[k] == if k in want then Some(want[k]) else None)
  {
  }

  // ---------- time ----------

  const SECOND: int := 1_000_000_000

  // The last whole second at or before t.
  function Floor(t: int): (f: int)
    ensures f <= t < f + SECOND && f % SECOND == 0
  {
    t - t % SECOND
  }

  // What the standard library and the machine contribute: RFC 3339 formatting and parsing of
  // instants (in nanoseconds), the wording of duration errors, and the result of an
  // out-of-range float conversion.
  datatype Platform = Platform(
    format: int -> string,
    parse: string -> Option<int>,
    explain: (string, string) -> string,
    wild: int,
    lo: int,
    hi: int)

  // Formatting drops the fraction of a second. Between the years 0 and 9999 the text parses
  // back; the empty text never parses.
  ghost predicate Lawful(env: Platform) {
    && (forall t: int :: env.format(t) == env.format(Floor(t)))
    && (forall t: int | env.lo <= t < env.hi :: env.parse(env.format(t)) == Some(Floor(t)))
    && env.parse("") == None
  }

  // ---------- a lawful platform ----------

  // A sign and one stroke for every second since the epoch.
  function Strokes(t: int): (s: string)
    ensures s != ""
  {
    var n := Floor(t) / SECOND;
    if n >= 0 then "+" + seq(n, _ => '1') else "-" + seq(-n, _ => '1')
  }

  function CountStrokes(s: string): Option<int> {
    if s == "" then None
    else Some((if s[0] == '+' then |s| - 1 else 1 - |s|) * SECOND)
  }

  lemma StrokesRoundTrip(t: int)
    ensures CountStrokes(Strokes(t)) == Some(Floor(t)) && Strokes(Floor(t)) == Strokes(t)
  {
    assert Floor(t) == Floor(t) / SECOND * SECOND;
    assert Floor(Floor(t)) == Floor(t);
  }

  // What is assumed about the platform can be had, for any range of years and any conversion.
  lemma LawfulPlatform(explain: (string, string) -> string, wild: int, lo: int, hi: int)
    ensures Lawful(Platform(Strokes, CountStrokes, explain, wild, lo, hi))
  {
    forall t: int ensures CountStrokes(Strokes(t)) == Some(Floor(t)) && Strokes(Floor(t)) == Strokes(t) {
      StrokesRoundTrip(t);
    }
  }
}

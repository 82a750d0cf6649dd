// What the cleanup configuration and the waiting loop guarantee.
module CleanupJobLaws {
  import opened Wrappers
  import opened Kube
  import opened CleanupJob
  import opened ObjectFilter
  import Duration

  // ---------- secret names ----------

  lemma {:induction false} SplitJoin(sep: char, parts: seq<string>)
    requires |parts| >= 1 && forall k | 0 <= k < |parts| :: sep !in parts[k]
    ensures Split(sep, Join(sep, parts)) == parts
    decreases |parts|, |parts[0]|
  {
    var s := Join(sep, parts);
    if parts[0] == [] {
      if |parts| > 1 {
        assert s == [sep] + Join(sep, parts[1..]);
        SplitJoin(sep, parts[1..]);
      }
    } else {
      var shorter := [parts[0][1..]] + parts[1..];
      forall k | 0 <= k < |shorter| ensures sep !in shorter[k] {
        if k > 0 { assert shorter[k] == parts[k]; }
      }
      assert parts[0] == [parts[0][0]] + parts[0][1..];
      assert s[0] == parts[0][0] && s[1..] == Join(sep, shorter) by {
        if |parts| > 1 { assert shorter[1..] == parts[1..]; }
      }
      assert parts[0][0] in parts[0];
      SplitJoin(sep, shorter);
      assert parts == [[s[0]] + shorter[0]] + shorter[1..];
    }
  }

  predicate Blank(s: string) { forall k | 0 <= k < |s| :: IsSpace(s[k]) }

  predicate Solid(s: string) { s == [] || (!IsSpace(s[0]) && !IsSpace(s[|s| - 1])) }

  lemma {:induction false} TrimLeftPadded(pad: string, core: string)
    requires Blank(pad) && (core == [] || !IsSpace(core[0]))
    ensures TrimLeft(pad + core) == core
  {
    if pad == [] {
      assert pad + core == core;
    } else {
      TrimLeftPadded(pad[1..], core);
      assert (pad + core)[1..] == pad[1..] + core;
    }
  }

  lemma {:induction false} TrimRightPadded(core: string, pad: string)
    requires Blank(pad) && (core == [] || !IsSpace(core[|core| - 1]))
    ensures TrimRight(core + pad) == core
  {
    if pad == [] {
      assert core + pad == core;
    } else {
      var n := |pad| - 1;
      TrimRightPadded(core, pad[..n]);
      assert (core + pad)[..|core| + n] == core + pad[..n];
    }
  }

  lemma TrimPadded(left: string, core: string, right: string)
    requires Blank(left) && Blank(right) && Solid(core)
    ensures TrimSpace(left + core + right) == core
  {
    if core == [] {
      TrimLeftPadded(left + right, []);
      assert left + core + right == left + right + [];
      TrimRightPadded([], []);
    } else {
      TrimLeftPadded(left, core + right);
      assert left + core + right == left + (core + right);
      TrimRightPadded(core, right);
    }
  }

  // White space is what Unicode says it is; no visible ASCII character is.
  lemma SpaceMeans(c: char)
    ensures IsSpace(c) <==>
              c in {' ', '\t', '\n', '\U{0B}', '\U{0C}', '\r', '\U{85}', '\U{A0}', '\U{1680}', '\U{2000}', '\U{2001}',
                    '\U{2002}', '\U{2003}', '\U{2004}', '\U{2005}', '\U{2006}', '\U{2007}', '\U{2008}',
                    '\U{2009}', '\U{200A}', '\U{2028}', '\U{2029}', '\U{202F}', '\U{205F}', '\U{3000}'}
    ensures '!' <= c <= '~' ==> !IsSpace(c)
  {
    if '\t' <= c <= '\r' {
      assert c as int in {9, 10, 11, 12, 13};
    }
    if '\U{2000}' <= c <= '\U{200A}' {
      assert c as int - 0x2000 in {0, 1, 2, 3, 4, 5, 6, 7, 8, 9, 10};
    }
  }

  // A visible name between blanks and line breaks comes out alone.
  lemma VisibleNames(left: string, core: string, right: string)
    requires forall k | 0 <= k < |left| :: left[k] in {' ', '\t', '\n', '\r'}
    requires forall k | 0 <= k < |right| :: right[k] in {' ', '\t', '\n', '\r'}
    requires forall k | 0 <= k < |core| :: '!' <= core[k] <= '~'
    ensures TrimSpace(left + core + right) == core
  {
    TrimPadded(left, core, right);
  }

  function NonEmpty(names: seq<string>): seq<string> {
    if names == [] then []
    else (if names[0] == "" then [] else [names[0]]) + NonEmpty(names[1..])
  }

  lemma {:induction false} NonEmptySnoc(names: seq<string>, last: string)
    ensures NonEmpty(names + [last]) == NonEmpty(names) + (if last == "" then [] else [last])
  {
    if names == [] {
      assert names + [last] == [last];
    } else {
      NonEmptySnoc(names[1..], last);
      assert (names + [last])[1..] == names[1..] + [last];
    }
  }

  // Dropping the empty names leaves every other one as often as it was, in order.
  lemma {:induction false} NonEmptyMeans(names: seq<string>)
    ensures "" !in NonEmpty(names) && multiset(NonEmpty(names)) == multiset(names)["" := 0]
    ensures "" !in names ==> NonEmpty(names) == names
  {
    if names != [] {
      NonEmptyMeans(names[1..]);
      assert names == [names[0]] + names[1..];
      assert multiset(names) == multiset{names[0]} + multiset(names[1..]);
    }
  }

  // One environment source for every secret name that is not empty, in order.
  method BuildEnvFrom(secretNames: seq<string>) returns (envFrom: seq<string>)
    ensures envFrom == NonEmpty(secretNames)
    ensures "" !in envFrom && multiset(envFrom) == multiset(secretNames)["" := 0]
    ensures "" !in secretNames ==> envFrom == secretNames
  {
    envFrom := [];
    for i := 0 to |secretNames|
      invariant envFrom == NonEmpty(secretNames[..i])
    {
      NonEmptySnoc(secretNames[..i], secretNames[i]);
      assert secretNames[..i + 1] == secretNames[..i] + [secretNames[i]];
      if secretNames[i] != "" {
        envFrom := envFrom + [secretNames[i]];
      }
    }
    assert secretNames[..|secretNames|] == secretNames;
    NonEmptyMeans(secretNames);
  }

  // An entry of the list as a user may write it.
  datatype Entry = Entry(left: string, name: string, right: string)

  predicate GoodEntry(e: Entry) {
    Blank(e.left) && Blank(e.right) && Solid(e.name)
    && ',' !in e.left && ',' !in e.name && ',' !in e.right
  }

  function Written(es: seq<Entry>): seq<string> {
    seq(|es|, k requires 0 <= k < |es| => es[k].left + es[k].name + es[k].right)
  }

  function Names(es: seq<Entry>): seq<string> {
    seq(|es|, k requires 0 <= k < |es| => es[k].name)
  }

  // Splitting, trimming and dropping empties recovers exactly the names that were written.
  lemma SecretsRoundTrip(es: seq<Entry>)
    requires es != [] && forall k | 0 <= k < |es| :: GoodEntry(es[k])
    ensures var text := Join(',', Written(es));
            NonEmpty(SecretNames(text)) == NonEmpty(Names(es))
  {
    var text := Join(',', Written(es));
    forall k | 0 <= k < |es| ensures ',' !in Written(es)[k] && TrimSpace(Written(es)[k]) == es[k].name {
      assert GoodEntry(es[k]);
      TrimPadded(es[k].left, es[k].name, es[k].right);
    }
    SplitJoin(',', Written(es));
    assert TrimAll(Written(es)) == Names(es);
    if text == "" {
      assert Split(',', "") == [""];
      assert |es| == 1 && Written(es)[0] == "";
      assert TrimSpace("") == "";
      assert Names(es) == [""] && [""][1..] == [];
      assert NonEmpty([""]) == [];
    }
  }

  // ---------- the cached view ----------

  // On a stripped object the configuration differs at most in the secrets, which are lost; with
  // every key kept it does not differ at all.
  lemma ConfigOnStripped(a: Anns, keep: set<Key>, wild: int)
    requires keep >= KEEP
    ensures var full, cut := ParseConfig(a, wild), ParseConfig(Kept(a, keep), wild);
            && (full.Err? ==> cut == full)
            && (full == Ok(None) ==> cut == full)
            && (full.Ok? && full.value.Some? ==> cut == Ok(Some(full.value.value.(
                  envSecrets := if JobEnvSecrets in keep then full.value.value.envSecrets else []))))
  {
    hide Duration.Parse, ParseInt32, SplitFirst, Split, TrimAll, ParseBool;
    forall k | k in KEEP ensures Get(Kept(a, keep), k) == Get(a, k) {
      KeptReadsSame(a, keep, k);
    }
    assert Get(Kept(a, keep), OnDeleteJob) == Get(a, OnDeleteJob);
    assert Get(Kept(a, keep), JobServiceAccount) == Get(a, JobServiceAccount);
    assert Get(Kept(a, keep), JobImage) == Get(a, JobImage);
    assert Get(Kept(a, keep), JobWait) == Get(a, JobWait);
    assert Get(Kept(a, keep), JobTimeout) == Get(a, JobTimeout);
    assert Get(Kept(a, keep), JobTTL) == Get(a, JobTTL);
    assert Get(Kept(a, keep), JobBackoffLimit) == Get(a, JobBackoffLimit);
  }

  // ---------- waiting for the job ----------

  datatype Condition = Condition(kind: string, status: string)

  datatype Poll = Unreachable | Listed(conditions: seq<Condition>)

  datatype Verdict = Undecided | Completed | Failed

  predicate Completes(c: Condition) { c.kind == "Complete" && c.status == "True" }

  predicate Fails(c: Condition) { c.kind == "Failed" && c.status == "True" }

  // The first decisive condition at position k settles the poll.
  predicate DecidedAt(cs: seq<Condition>, k: nat) {
    k < |cs| && (Completes(cs[k]) || Fails(cs[k]))
    && forall j | 0 <= j < k :: !Completes(cs[j]) && !Fails(cs[j])
  }

  ghost predicate Settles(p: Poll, v: Verdict) {
    match v
    case Undecided => p.Listed? && forall j | 0 <= j < |p.conditions| ::
                        !Completes(p.conditions[j]) && !Fails(p.conditions[j])
    case Completed => p.Listed? && exists k: nat :: DecidedAt(p.conditions, k) && Completes(p.conditions[k])
    case Failed => p.Unreachable? || exists k: nat :: DecidedAt(p.conditions, k) && Fails(p.conditions[k])
  }

  // What a verdict says about the list: success is a Complete=True with no Failed=True before it, and
  // the other way round; conditions with another status, such as False or Unknown, decide nothing.
  lemma VerdictMeans(p: Poll, v: Verdict)
    requires Settles(p, v)
    ensures v == Completed <==>
              p.Listed? && exists k :: 0 <= k < |p.conditions| && p.conditions[k] == Condition("Complete", "True")
                                       && Condition("Failed", "True") !in p.conditions[..k]
    ensures v == Failed <==>
              p.Unreachable? || exists k :: 0 <= k < |p.conditions| && p.conditions[k] == Condition("Failed", "True")
                                            && Condition("Complete", "True") !in p.conditions[..k]
    ensures v == Undecided <==>
              p.Listed? && Condition("Complete", "True") !in p.conditions
              && Condition("Failed", "True") !in p.conditions
  {
    if p.Listed? {
      var cs := p.conditions;
      assert forall c: Condition :: Completes(c) <==> c == Condition("Complete", "True");
      assert forall c: Condition :: Fails(c) <==> c == Condition("Failed", "True");
      if v != Undecided {
        var k: nat :| DecidedAt(cs, k) && (if v == Completed then Completes(cs[k]) else Fails(cs[k]));
        assert Condition("Complete", "True") !in cs[..k] && Condition("Failed", "True") !in cs[..k];
        assert cs[k] in cs;
        forall m | k < m < |cs| ensures cs[k] in cs[..m] {
          assert cs[..m][k] == cs[k];
        }
      }
    }
  }

  method Judge(p: Poll) returns (v: Verdict)
    ensures Settles(p, v)
    ensures v == Completed <==>
              p.Listed? && exists k :: 0 <= k < |p.conditions| && p.conditions[k] == Condition("Complete", "True")
                                       && Condition("Failed", "True") !in p.conditions[..k]
    ensures v == Failed <==>
              p.Unreachable? || exists k :: 0 <= k < |p.conditions| && p.conditions[k] == Condition("Failed", "True")
                                            && Condition("Complete", "True") !in p.conditions[..k]
    ensures v == Undecided <==>
              p.Listed? && Condition("Complete", "True") !in p.conditions
              && Condition("Failed", "True") !in p.conditions
  {
    v := FirstDecisive(p);
    VerdictMeans(p, v);
  }

  // The loop over the conditions of one poll.
  method FirstDecisive(p: Poll) returns (v: Verdict)
    ensures Settles(p, v)
  {
    if p.Unreachable? {
      return Failed;
    }
    for k := 0 to |p.conditions|
      invariant forall j | 0 <= j < k :: !Completes(p.conditions[j]) && !Fails(p.conditions[j])
    {
      if Completes(p.conditions[k]) {
        assert DecidedAt(p.conditions, k);
        return Completed;
      }
      if Fails(p.conditions[k]) {
        assert DecidedAt(p.conditions, k);
        return Failed;
      }
    }
    return Undecided;
  }

  // No poll settles two ways.
  lemma SettlesOnce(p: Poll, v: Verdict, w: Verdict)
    requires Settles(p, v) && Settles(p, w)
    ensures v == w
  {
    VerdictMeans(p, v);
    VerdictMeans(p, w);
  }

  datatype WaitResult = JobCompleted | JobFailed | TimedOut

  // polls(k) is what the k-th poll sees and at(k) when its tick is received; the ticker fires every two
  // seconds. The waiting context ends at its own deadline or when the surrounding one is cancelled.
  // From then on both channels are ready and the choice between them is random; late is how often it
  // falls on the ticker before it falls on the end.
  method WaitForJobCompletion(polls: nat -> Poll, at: nat -> int, timeout: int, cancelled: Option<int>, late: nat)
    returns (r: WaitResult, made: nat)
    requires forall k: nat :: at(k) >= 2_000_000_000 * (k + 1)
    // All polls before the last, and the last as well if time ran out, list neither outcome.
    ensures forall k: nat | k < made && (k < made - 1 || r == TimedOut) ::
              polls(k).Listed? && Condition("Complete", "True") !in polls(k).conditions
              && Condition("Failed", "True") !in polls(k).conditions
    ensures r == JobCompleted ==>
              && made > 0 && polls(made - 1).Listed?
              && var cs := polls(made - 1).conditions;
              exists k :: 0 <= k < |cs| && cs[k] == Condition("Complete", "True")
                          && Condition("Failed", "True") !in cs[..k]
    ensures r == JobFailed && made > 0 && polls(made - 1).Listed? ==>
              var cs := polls(made - 1).conditions;
              exists k :: 0 <= k < |cs| && cs[k] == Condition("Failed", "True")
                          && Condition("Complete", "True") !in cs[..k]
    ensures r == JobFailed ==> made > 0
    ensures var end := if cancelled.Some? && cancelled.value < timeout then cancelled.value else timeout;
            && (r == TimedOut ==> at(made) >= end)
            && (made <= late + 1 || 2_000_000_000 * (made - late - 1) < end)
  {
    made := 0;
    var granted := 0;
    var end := if cancelled.Some? && cancelled.value < timeout then cancelled.value else timeout;
    while true
      invariant 0 <= granted <= late && granted <= made
      invariant forall k: nat | k < made ::
                  polls(k).Listed? && Condition("Complete", "True") !in polls(k).conditions
                  && Condition("Failed", "True") !in polls(k).conditions
      invariant made == granted || 2_000_000_000 * (made - granted) < end
      decreases late - granted,
                if end > 2_000_000_000 * (made - granted) then end - 2_000_000_000 * (made - granted) else 0
    {
      hide Settles;
      if at(made) >= end {
        if granted == late {
          return TimedOut, made;
        }
        granted := granted + 1;
      }
      var v := Judge(polls(made));
      made := made + 1;
      if v == Completed {
        return JobCompleted, made;
      }
      if v == Failed {
        return JobFailed, made;
      }
    }
  }
}

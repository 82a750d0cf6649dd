// Why StatusText.StatusMatchesExpiry speaks of orderly runs: the exact condition under which a patch
// leaves status and expire-at in agreement, and a run in which it does not.
module StatusRace {
  import opened Wrappers
  import opened Kube
  import opened LeasePass
  import opened World
  import opened WorldInvariant
  import opened StatusText
  import opened LostLeases
  import Duration
  import DurationLaws

  // ---------- the exact condition ----------

  // The status is not that of an active lease, or it names the given expire-at.
  ghost predicate Agrees(status: string, expireAt: string) {
    forall stamp: string :: status == BEFORE + stamp + AFTER ==> expireAt == stamp
  }

  // If only one of the two keys differs from the base, only that one is sent, and it has to agree
  // with the other one as the server has it. Nothing else can go wrong.
  lemma PatchConsistentIff(server: Anns, base: Anns, want: Anns)
    requires Consistent(server) && Consistent(want)
    ensures Consistent(MergeApply(server, MergeDiff(base, want))) <==>
              && (!SameAt(base, want, Status) && SameAt(base, want, ExpireAt) ==>
                    Agrees(Get(want, Status), Get(server, ExpireAt)))
              && (SameAt(base, want, Status) && !SameAt(base, want, ExpireAt) ==>
                    Agrees(Get(server, Status), Get(want, ExpireAt)))
  {
    hide MergeApply, MergeDiff, BEFORE, AFTER;
    var merged := MergeApply(server, MergeDiff(base, want));
    MergeOnAny(server, base, want, Status);
    MergeOnAny(server, base, want, ExpireAt);
    assert Get(merged, Status) == if SameAt(base, want, Status) then Get(server, Status) else Get(want, Status);
    assert Get(merged, ExpireAt) == if SameAt(base, want, ExpireAt) then Get(server, ExpireAt) else Get(want, ExpireAt);
  }

  // The patch of an active lease: it goes wrong exactly if its base had the right expire-at under
  // another status while the server has another expire-at by now.
  lemma ActivePatchConsistentIff(env: Platform, server: Anns, base: Anns, e: int)
    requires Consistent(server) && Consistent(base) && env.format(e) != ""
    ensures var want := base[ExpireAt := env.format(e)][Status := ActiveStatus(env, e)];
            Consistent(MergeApply(server, MergeDiff(base, want))) <==>
              ((ExpireAt in base && base[ExpireAt] == env.format(e) && Get(base, Status) != ActiveStatus(env, e))
               ==> Get(server, ExpireAt) == env.format(e))
  {
    hide MergeApply, MergeDiff, ActiveStatus, BEFORE, AFTER;
    var want := base[ExpireAt := env.format(e)][Status := ActiveStatus(env, e)];
    forall stamp: string
      ensures ActiveStatus(env, e) == BEFORE + stamp + AFTER <==> stamp == env.format(e)
    {
      ActiveText(env, e, stamp);
    }
    assert ActiveStatus(env, e) == BEFORE + env.format(e) + AFTER;
    PatchConsistentIff(server, base, want);
    assert ActiveStatus(env, e) != "" by { OtherTexts(env, "", Duration.InvalidString, env.format(e)); }
    assert SameAt(base, want, Status) <==> Get(base, Status) == ActiveStatus(env, e);
    if SameAt(base, want, Status) {
      assert Get(base, ExpireAt) == env.format(e);
    }
  }

  // ---------- runs ----------

  // Users have never touched the two annotations.
  predicate LeftAlone(log: seq<Version>) {
    forall j: nat | 0 < j < |log| && log[j].author.Outside? && Exists(log, j) ::
      if Exists(log, j - 1) then AgreeOut(At(log, j - 1).anns, At(log, j).anns)
      else Status !in At(log, j).anns && ExpireAt !in At(log, j).anns
  }

  lemma LeftAloneGrows(log: seq<Version>, v: Version)
    requires log != [] && LeftAlone(log)
    requires v.author.Outside? && v.state.Some? ==>
               if log[|log| - 1].state.Some? then AgreeOut(log[|log| - 1].state.value.anns, v.state.value.anns)
               else Status !in v.state.value.anns && ExpireAt !in v.state.value.anns
    ensures LeftAlone(log + [v])
  {
    hide AgreeOut;
    var l := log + [v];
    forall j: nat | 0 < j < |l| && l[j].author.Outside? && Exists(l, j)
      ensures if Exists(l, j - 1) then AgreeOut(At(l, j - 1).anns, At(l, j).anns)
              else Status !in At(l, j).anns && ExpireAt !in At(l, j).anns
    {
      assert l[j - 1] == log[j - 1];
      if j < |log| {
        assert l[j] == log[j] && Exists(log, j);
        assert Exists(log, j - 1) ==> At(log, j - 1) == At(l, j - 1);
      }
    }
  }

  ghost predicate Stage(env: Platform, w: State) {
    Reachable(env, w) && w.tracked && w.cached < |w.log| && LeftAlone(w.log)
  }

  // The user writes the annotations a.
  lemma UserSets(env: Platform, w: State, a: Anns) returns (v: State)
    requires Stage(env, w)
    requires if Current(w).Some? then AgreeOut(Current(w).value.anns, a) else Status !in a && ExpireAt !in a
    ensures Stage(env, v) && v == w.(log := v.log) && w.log <= v.log
    ensures Current(v).Some? && Current(v).value.anns == a
  {
    hide Reachable, LeftAlone, AgreeOut;
    Extend(env, w, UserWrite(Some(a)));
    v := Next(env, w, UserWrite(Some(a)));
    if v.log != w.log { LeftAloneGrows(w.log, v.log[|w.log|]); }
  }

  lemma UserRemoves(env: Platform, w: State) returns (v: State)
    requires Stage(env, w) && Current(w).Some?
    ensures Stage(env, v) && v == w.(log := v.log) && w.log <= v.log && Current(v) == None
  {
    hide Reachable, LeftAlone, AgreeOut;
    Extend(env, w, UserWrite(None));
    v := Next(env, w, UserWrite(None));
    LeftAloneGrows(w.log, v.log[|w.log|]);
  }

  // The cache catches up with the server.
  lemma {:induction false} CatchUp(env: Platform, w: State) returns (v: State)
    requires Stage(env, w)
    ensures Stage(env, v) && v == w.(cached := |w.log| - 1, queued := v.queued)
    decreases |w.log| - w.cached
  {
    hide Reachable, LeftAlone, Triggers;
    if w.cached + 1 == |w.log| {
      v := w;
    } else {
      Extend(env, w, Deliver);
      v := CatchUp(env, Next(env, w, Deliver));
    }
  }

  // What a reconcile that reads a as a lease under way, or as invalid, wants to be there.
  function Aim(env: Platform, a: Anns): Anns
    requires ParsedStart(env, a).Some?
  {
    match ParsedTTL(env, a)
    case Err(err) => a[Status := InvalidStatus(env, Get(a, TTL), err)]
    case Ok(ttl) =>
      var e := ParsedStart(env, a).value + ttl;
      a[ExpireAt := env.format(e)][Status := ActiveStatus(env, e)]
  }

  predicate Readable(env: Platform, a: Anns, now: int) {
    && !NoTTL(a) && ParsedStart(env, a).Some?
    && (ParsedTTL(env, a).Ok? ==> now <= ParsedStart(env, a).value + ParsedTTL(env, a).value)
  }

  // Reconcile i has read a and is about to send its patch.
  predicate Aiming(env: Platform, w: State, i: nat, a: Anns) {
    && i < |w.flights| && w.flights[i].pass.phase in {Marking, Activating}
    && ParsedStart(env, a).Some?
    && w.flights[i].pass.base == a && w.flights[i].pass.obj.anns == Aim(env, a)
  }

  lemma FetchAt(env: Platform, w: State, i: nat, at: nat)
    requires InPhase(w, i, Fetching) && Exists(w.log, at) && !NoTTL(At(w.log, at).anns)
    requires w.cached <= at && (at == w.cached || at + 1 == |w.log|)
    ensures Enabled(env, w, Fetch(i, at, false))
    ensures var f, o := w.flights[i], At(w.log, at);
            Next(env, w, Fetch(i, at, false)) == w.(flights := w.flights[i :=
              f.(pass := f.pass.(phase := Clocking, obj := o), seen := Some(o), readAt := at, viewAt := at)])
  {
  }

  lemma TellAt(env: Platform, w: State, i: nat)
    requires w.log != [] && InPhase(w, i, Clocking) && Readable(env, w.flights[i].pass.obj.anns, w.clock)
    ensures Enabled(env, w, TellTime(i))
    ensures var a := w.flights[i].pass.obj.anns;
            var v := Next(env, w, TellTime(i));
            && v == w.(flights := v.flights) && |v.flights| == |w.flights| && Aiming(env, v, i, a)
            && forall k: nat | k < |w.flights| && k != i :: v.flights[k] == w.flights[k]
  {
    hide Duration.Parse, ActiveStatus, InvalidStatus, EXPIRED_STATUS;
  }

  lemma LandAt(env: Platform, w: State, i: nat)
    requires w.log != [] && i < |w.flights| && w.flights[i].pass.phase in {Marking, Activating}
    requires Current(w).Some?
    ensures Enabled(env, w, PatchLands(i, false))
    ensures var p := w.flights[i].pass;
            var v := Next(env, w, PatchLands(i, false));
            && v.cached == w.cached && v.clock == w.clock && v.tracked == w.tracked
            && (v.log == w.log || v.log == w.log + [Version(Current(v), ByFlight(i))])
            && Current(v) == Some(Current(w).value.(anns :=
                 MergeApply(Current(w).value.anns, MergeDiff(p.base, p.obj.anns))))
            && |v.flights| == |w.flights|
            && forall k: nat | k < |w.flights| && k != i :: v.flights[k] == w.flights[k]
  {
    NextIsPut(env, w, PatchLands(i, false));
    hide MergeApply, MergeDiff, Landing, Moved, Put, Next;
    LandingShape(w, i);
    PutFrame(Landing(w, i), i, Moved(env, w, PatchLands(i, false)));
  }

  lemma PutFrame(v: State, i: nat, f: Flight)
    requires i < |v.flights|
    ensures var u := Put(v, i, f);
            && u.log == v.log && u.cached == v.cached && u.clock == v.clock && u.tracked == v.tracked
            && |u.flights| == |v.flights|
            && forall k: nat | k < |v.flights| && k != i :: u.flights[k] == v.flights[k]
  {
  }

  lemma LaunchDirect(env: Platform, w: State)
    requires w.log != [] && w.tracked
    ensures Enabled(env, w, StartDirect)
    ensures var v := Next(env, w, StartDirect);
            && v == w.(flights := v.flights) && |v.flights| == |w.flights| + 1
            && InPhase(v, |w.flights|, Fetching)
            && forall k: nat | k < |w.flights| :: v.flights[k] == w.flights[k]
  {
    hide Triggers;
  }

  // A reconcile from the namespace listener reads the cached version or the latest one.
  lemma Reads(env: Platform, w: State, at: nat) returns (v: State)
    requires Stage(env, w) && Exists(w.log, at) && w.cached <= at && (at == w.cached || at + 1 == |w.log|)
    requires Readable(env, At(w.log, at).anns, w.clock)
    ensures Stage(env, v) && v == w.(flights := v.flights) && |v.flights| == |w.flights| + 1
    ensures Aiming(env, v, |w.flights|, At(w.log, at).anns)
    ensures forall k: nat | k < |w.flights| :: v.flights[k] == w.flights[k]
  {
    hide Reachable, LeftAlone, Readable, Aim, Next, Enabled, NoTTL, ParsedStart;
    var i := |w.flights|;
    LaunchDirect(env, w);
    Extend(env, w, StartDirect);
    var w1 := Next(env, w, StartDirect);
    ReadableHasTTL(env, At(w.log, at).anns, w.clock);
    FetchAt(env, w1, i, at);
    Extend(env, w1, Fetch(i, at, false));
    var w2 := Next(env, w1, Fetch(i, at, false));
    TellAt(env, w2, i);
    Extend(env, w2, TellTime(i));
    v := Next(env, w2, TellTime(i));
  }

  // Its patch lands, whatever has happened since.
  lemma LandsOn(env: Platform, w: State, i: nat, a: Anns) returns (v: State)
    requires Stage(env, w) && Current(w).Some? && Aiming(env, w, i, a)
    ensures Stage(env, v) && v.clock == w.clock && v.cached == w.cached && w.log <= v.log
    ensures Current(v) == Some(Current(w).value.(anns :=
              MergeApply(Current(w).value.anns, MergeDiff(a, Aim(env, a)))))
    ensures |v.flights| == |w.flights|
    ensures forall k: nat | k < |w.flights| && k != i :: v.flights[k] == w.flights[k]
  {
    hide Reachable, LeftAlone, Aim, MergeApply, MergeDiff, Next, Enabled, ParsedStart;
    LandAt(env, w, i);
    Extend(env, w, PatchLands(i, false));
    v := Next(env, w, PatchLands(i, false));
    if v.log != w.log { LeftAloneGrows(w.log, Version(Current(v), ByFlight(i))); }
  }

  lemma ReadableHasTTL(env: Platform, a: Anns, now: int)
    requires Readable(env, a, now)
    ensures !NoTTL(a) && ParsedStart(env, a).Some?
  {
  }

  // A whole reconcile of what is there.
  lemma PassNow(env: Platform, w: State) returns (v: State)
    requires Stage(env, w) && Current(w).Some? && Readable(env, Current(w).value.anns, w.clock)
    ensures Stage(env, v) && v.clock == w.clock && v.cached == w.cached && w.log <= v.log
    ensures Current(v).Some? && Current(v).value.anns == Aim(env, Current(w).value.anns)
    ensures |v.flights| == |w.flights| + 1
    ensures forall k: nat | k < |w.flights| :: v.flights[k] == w.flights[k]
  {
    ReadableHasTTL(env, Current(w).value.anns, w.clock);
    hide Reachable, LeftAlone, Readable, Aim, MergeApply, MergeDiff, ParsedStart;
    var a := Current(w).value.anns;
    var u := Reads(env, w, |w.log| - 1);
    v := LandsOn(env, u, |w.flights|, a);
    MergeExact(a, Aim(env, a));
  }

  // ---------- the race ----------

  function Lease(ttl: string, start: string): Anns { map[TTL := ttl, LeaseStart := start] }

  // Two ttl texts that parse, to different ends, and one that does not.
  predicate Edits(env: Platform, start: string, one: string, two: string, bad: string, now: int) {
    && env.parse(start).Some? && start != "" && one != "" && two != "" && bad != ""
    && Duration.Parse(one, env.wild).Ok? && Duration.Parse(two, env.wild).Ok? && Duration.Parse(bad, env.wild).Err?
    && now <= End(env, start, one) && now <= End(env, start, two)
    && env.format(End(env, start, one)) != env.format(End(env, start, two))
  }

  function End(env: Platform, start: string, ttl: string): int
    requires env.parse(start).Some? && Duration.Parse(ttl, env.wild).Ok?
  {
    env.parse(start).value + Duration.Parse(ttl, env.wild).value
  }

  function WithTTL(a: Anns, ttl: string): Anns { a[TTL := ttl] }

  lemma AimOf(env: Platform, a: Anns, start: string, ttl: string, now: int)
    requires Get(a, TTL) == ttl && Get(a, LeaseStart) == start && start != "" && ttl != ""
    requires env.parse(start).Some?
    requires Duration.Parse(ttl, env.wild).Ok? ==> now <= End(env, start, ttl)
    ensures Readable(env, a, now)
    ensures match Duration.Parse(ttl, env.wild)
            case Ok(_) =>
              var e := End(env, start, ttl);
              Aim(env, a) == a[ExpireAt := env.format(e)][Status := ActiveStatus(env, e)]
            case Err(err) => Aim(env, a) == a[Status := InvalidStatus(env, ttl, err)]
  {
    hide Duration.Parse, ActiveStatus, InvalidStatus;
  }

  // The annotations after an active lease under the first ttl, a mistyped one, and its correction: the
  // old expire-at under the status of the mistyped ttl.
  function Corrected(env: Platform, start: string, one: string, bad: string): Anns
    requires env.parse(start).Some? && Duration.Parse(one, env.wild).Ok? && Duration.Parse(bad, env.wild).Err?
  {
    map[TTL := one, LeaseStart := start, ExpireAt := env.format(End(env, start, one)),
        Status := InvalidStatus(env, bad, Duration.Parse(bad, env.wild).error)]
  }

  // Three writes by the user, two reconciles one after the other, each of the latest version.
  lemma Mistypes(env: Platform, w: State, start: string, one: string, two: string, bad: string)
    returns (v: State)
    requires Initial(env, w) && w.tracked && Edits(env, start, one, two, bad, w.clock)
    ensures Stage(env, v) && v.clock == w.clock
    ensures Current(v).Some? && Current(v).value.anns == Corrected(env, start, one, bad)
    ensures Readable(env, Corrected(env, start, one, bad), w.clock)
  {
    hide Reachable, LeftAlone, Aim, Readable, Duration.Parse, ActiveStatus, InvalidStatus, Initial, Lawful;
    var e1 := End(env, start, one);
    BeginStage(env, w);
    var a1 := Lease(one, start);
    var w1 := UserSets(env, w, a1);
    AimOf(env, a1, start, one, w.clock);
    var w2 := PassNow(env, w1);
    var a2 := a1[ExpireAt := env.format(e1)][Status := ActiveStatus(env, e1)];
    var w3 := UserSets(env, w2, WithTTL(a2, bad));
    AimOf(env, WithTTL(a2, bad), start, bad, w.clock);
    var w4 := PassNow(env, w3);
    var a5 := Corrected(env, start, one, bad);
    assert a5 == WithTTL(WithTTL(a2, bad)[Status := InvalidStatus(env, bad, Duration.Parse(bad, env.wild).error)], one);
    v := UserSets(env, w4, a5);
    AimOf(env, a5, start, one, w.clock);
  }

  // The difference to the corrected annotations is the status alone.
  lemma StatusAlone(env: Platform, server: Anns, start: string, one: string, bad: string)
    requires env.parse(start).Some? && Duration.Parse(one, env.wild).Ok? && Duration.Parse(bad, env.wild).Err?
    requires start != "" && one != ""
    requires Get(server, ExpireAt) != env.format(End(env, start, one))
    ensures var a := Corrected(env, start, one, bad);
            ParsedStart(env, a).Some? && !Consistent(MergeApply(server, MergeDiff(a, Aim(env, a))))
  {
    hide MergeApply, MergeDiff, Aim, Duration.Parse, ActiveStatus, InvalidStatus, Consistent;
    var a := Corrected(env, start, one, bad);
    AimOf(env, a, start, one, End(env, start, one));
    RacedTexts(env, server, a, End(env, start, one), bad, Duration.Parse(bad, env.wild).error);
  }

  // Overlap: a reconcile reads the correction while it is the latest version. Before its patch lands
  // the user changes the ttl once more and another reconcile writes the new expire-at.
  lemma OverlapRaces(env: Platform, w: State, start: string, one: string, two: string, bad: string)
    returns (v: State)
    requires Initial(env, w) && w.tracked && Edits(env, start, one, two, bad, w.clock)
    ensures Reachable(env, v) && LeftAlone(v.log)
    ensures Current(v).Some? && !Consistent(Current(v).value.anns)
  {
    hide Reachable, LeftAlone, Aim, Readable, Duration.Parse, ActiveStatus, InvalidStatus, MergeApply, MergeDiff,
         Initial, ParsedStart, Consistent;
    var a5 := Corrected(env, start, one, bad);
    var w5 := Mistypes(env, w, start, one, two, bad);
    var i := |w5.flights|;
    var w6 := Reads(env, w5, |w5.log| - 1);
    var w7 := UserSets(env, w6, WithTTL(a5, two));
    AimOf(env, WithTTL(a5, two), start, two, w.clock);
    var w8 := PassNow(env, w7);
    assert Aiming(env, w8, i, a5);
    StatusAlone(env, Current(w8).value.anns, start, one, bad);
    v := LandsOn(env, w8, i, a5);
  }

  // A lagging cache: no two reconciles overlap, but the last one is served the cached correction when
  // the controller has already written the next expire-at.
  lemma StaleReadRaces(env: Platform, w: State, start: string, one: string, two: string, bad: string)
    returns (v: State)
    requires Initial(env, w) && w.tracked && Edits(env, start, one, two, bad, w.clock)
    ensures Reachable(env, v) && LeftAlone(v.log)
    ensures Current(v).Some? && !Consistent(Current(v).value.anns)
  {
    hide Reachable, LeftAlone, Aim, Readable, Duration.Parse, ActiveStatus, InvalidStatus, MergeApply, MergeDiff,
         Initial, ParsedStart, Consistent;
    var a5 := Corrected(env, start, one, bad);
    var w5 := Mistypes(env, w, start, one, two, bad);
    var w6 := CatchUp(env, w5);
    var w7 := UserSets(env, w6, WithTTL(a5, two));
    AimOf(env, WithTTL(a5, two), start, two, w.clock);
    var w8 := PassNow(env, w7);
    assert w8.log[w8.cached] == w5.log[|w5.log| - 1];
    var w9 := Reads(env, w8, w8.cached);
    StatusAlone(env, Current(w9).value.anns, start, one, bad);
    v := LandsOn(env, w9, |w8.flights|, a5);
  }

  // Recreation: a single reconcile with a fresh read, but before its patch lands the object is deleted
  // and created anew without any of the controller's annotations.
  lemma RecreationRaces(env: Platform, w: State, start: string, one: string, two: string, bad: string)
    returns (v: State)
    requires Initial(env, w) && w.tracked && Edits(env, start, one, two, bad, w.clock)
    requires env.format(End(env, start, one)) != ""
    ensures Reachable(env, v) && LeftAlone(v.log)
    ensures Current(v).Some? && !Consistent(Current(v).value.anns)
  {
    hide Reachable, LeftAlone, Aim, Readable, Duration.Parse, ActiveStatus, InvalidStatus, MergeApply, MergeDiff,
         Initial, ParsedStart, Consistent;
    var a5 := Corrected(env, start, one, bad);
    var w5 := Mistypes(env, w, start, one, two, bad);
    var i := |w5.flights|;
    var w6 := Reads(env, w5, |w5.log| - 1);
    var w7 := UserRemoves(env, w6);
    var w8 := UserSets(env, w7, map[TTL := one]);
    StatusAlone(env, map[TTL := one], start, one, bad);
    v := LandsOn(env, w8, i, a5);
  }

  lemma BeginStage(env: Platform, w: State)
    requires Initial(env, w) && w.tracked
    ensures Stage(env, w) && Current(w).None?
  {
    InitialIsReachable(env, w);
  }

  lemma RacedTexts(env: Platform, server: Anns, base: Anns, e: int, bad: string, err: Duration.DurationError)
    requires Get(server, ExpireAt) != env.format(e)
    requires ExpireAt in base && base[ExpireAt] == env.format(e)
    requires Get(base, Status) == InvalidStatus(env, bad, err)
    ensures var want := base[ExpireAt := env.format(e)][Status := ActiveStatus(env, e)];
            !Consistent(MergeApply(server, MergeDiff(base, want)))
  {
    hide MergeApply, MergeDiff, ActiveStatus, InvalidStatus, BEFORE, AFTER;
    var want := base[ExpireAt := env.format(e)][Status := ActiveStatus(env, e)];
    var merged := MergeApply(server, MergeDiff(base, want));
    ActiveText(env, e, env.format(e));
    OtherTexts(env, bad, err, env.format(e));
    MergeOnAny(server, base, want, Status);
    MergeOnAny(server, base, want, ExpireAt);
    assert Get(merged, Status) == BEFORE + env.format(e) + AFTER;
    assert Get(merged, ExpireAt) == Get(server, ExpireAt);
  }

  // For example 1h, 2h and a lone minus sign, on a platform whose clock stands at zero.
  lemma EditsExist(explain: (string, string) -> string, wild: int, hi: int)
    ensures var env := Platform(Strokes, CountStrokes, explain, wild, 0, hi);
            && Lawful(env) && Edits(env, Strokes(0), "1h", "2h", "-", 0)
            && env.format(End(env, Strokes(0), "1h")) != ""
  {
    hide Strokes, CountStrokes, Duration.Tokens, Duration.FirstFault, Duration.Total;
    LawfulPlatform(explain, wild, 0, hi);
    HoursAndMinus(wild);
    hide Duration.Parse;
    StrokesRoundTrip(0);
    StrokesRoundTrip(Duration.HOUR);
    StrokesRoundTrip(2 * Duration.HOUR);
    assert CountStrokes(Strokes(Duration.HOUR)) != CountStrokes(Strokes(2 * Duration.HOUR));
  }

  lemma HoursAndMinus(wild: int)
    ensures Duration.Parse("1h", wild) == Ok(Duration.HOUR as int)
    ensures Duration.Parse("2h", wild) == Ok(2 * Duration.HOUR)
    ensures Duration.Parse("-", wild).Err?
  {
    hide Duration.Parse;
    LoneMinus(wild);
    assert ['1'] + "h" == "1h" && ['2'] + "h" == "2h";
    DurationLaws.HoursParse('1', wild);
    DurationLaws.HoursParse('2', wild);
  }

  lemma LoneMinus(wild: int)
    ensures Duration.Parse("-", wild).Err?
  {
    hide Duration.Head, Duration.Step, Duration.FirstFault, Duration.Total;
    assert Duration.Body("-") == "" && Duration.Tokens("") == [];
  }
}

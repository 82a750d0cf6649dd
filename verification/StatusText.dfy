// The status annotation and the expire-at annotation tell the same story.
module StatusText {
  import opened Wrappers
  import opened Kube
  import opened ObjectFilter
  import opened LeasePass
  import opened World
  import opened WorldInvariant
  import opened WorldRuns
  import opened Safety
  import opened SelfTrigger
  import opened CleanupJob
  import Duration

  const BEFORE := "Lease active. Expires at "
  const AFTER := " UTC."

  // Whenever the status says active, its timestamp is the expire-at.
  ghost predicate Consistent(a: Anns) {
    forall stamp: string :: Get(a, Status) == BEFORE + stamp + AFTER ==> Get(a, ExpireAt) == stamp
  }

  // ---------- the texts ----------

  lemma ActiveText(env: Platform, e: int, stamp: string)
    ensures ActiveStatus(env, e) == BEFORE + stamp + AFTER <==> stamp == env.format(e)
  {
    var x, y := ActiveStatus(env, e), BEFORE + stamp + AFTER;
    if x == y {
      assert x[|BEFORE|..|x| - |AFTER|] == env.format(e);
      assert y[|BEFORE|..|y| - |AFTER|] == stamp;
    }
  }

  lemma OtherTexts(env: Platform, ttl: string, e: Duration.DurationError, stamp: string)
    ensures EXPIRED_STATUS != BEFORE + stamp + AFTER
    ensures InvalidStatus(env, ttl, e) != BEFORE + stamp + AFTER
    ensures "" != BEFORE + stamp + AFTER
  {
    hide Reason;
    var y := BEFORE + stamp + AFTER;
    assert y[0] == 'L' && y[6] == 'a' && |y| > 6;
    assert EXPIRED_STATUS[6] == 'e';
    assert InvalidStatus(env, ttl, e)[0] == 'I';
  }

  // ---------- annotations ----------

  predicate AgreeOut(a: Anns, b: Anns) { SameAt(a, b, Status) && SameAt(a, b, ExpireAt) }

  lemma ConsistentByAgree(a: Anns, b: Anns)
    requires AgreeOut(a, b) && Consistent(a)
    ensures Consistent(b)
  {
    assert Get(a, Status) == Get(b, Status) && Get(a, ExpireAt) == Get(b, ExpireAt);
  }

  lemma BareIsConsistent(a: Anns)
    requires Status !in a
    ensures Consistent(a)
  {
    forall stamp: string ensures Get(a, Status) != BEFORE + stamp + AFTER {
      assert |BEFORE + stamp + AFTER| > 0;
    }
  }

  lemma DecideIsConsistent(env: Platform, p: Pass)
    ensures Consistent(Decide(env, p).obj.anns)
  {
    hide Duration.Parse, ActiveStatus, InvalidStatus, EXPIRED_STATUS, BEFORE, AFTER;
    var a := Decide(env, p).obj.anns;
    forall stamp: string ensures Get(a, Status) == BEFORE + stamp + AFTER ==> Get(a, ExpireAt) == stamp {
      match ParsedTTL(env, p.obj.anns)
      case Err(e) => OtherTexts(env, Get(p.obj.anns, TTL), e, stamp);
      case Ok(ttl) =>
        OtherTexts(env, "", Duration.InvalidString, stamp);
        ActiveText(env, p.startAt + ttl, stamp);
    }
  }

  // If base and server agree on the two annotations, the patch settles both as wanted.
  lemma PatchAgrees(server: Anns, base: Anns, want: Anns)
    requires AgreeOut(base, server)
    ensures AgreeOut(want, MergeApply(server, MergeDiff(base, want)))
  {
    MergeOnAny(server, base, want, Status);
    MergeOnAny(server, base, want, ExpireAt);
  }

  // ---------- orderly runs ----------

  // All versions after k are user edits of the same object.
  predicate Edit(log: seq<Version>, j: nat)
    requires 0 < j < |log|
  {
    log[j].author.Outside? && Exists(log, j - 1) && Exists(log, j)
  }

  predicate OnlyEdits(log: seq<Version>, k: nat) {
    forall j: nat | k < j < |log| :: Edit(log, j)
  }

  // Users leave status and expire-at alone, reconciles do not overlap, and each reads what the
  // controller last wrote. It may well miss edits of users, and patches may fail.
  predicate OrderlyStep(w: State, a: Action) {
    match a
    case UserWrite(Some(anns)) =>
      if Current(w).Some? then AgreeOut(anns, Current(w).value.anns)
      else Status !in anns && ExpireAt !in anns && NoneLive(w.flights, |w.flights|)
    case Fetch(_, at, _) => OnlyEdits(w.log, at)
    case StartQueued => NoneLive(w.flights, |w.flights|)
    case StartDirect => NoneLive(w.flights, |w.flights|)
    case _ => true
  }

  predicate OrderlyRun(env: Platform, w: State, run: seq<Action>)
    decreases |run|
  {
    run == [] ||
    (Enabled(env, w, run[0]) && OrderlyStep(w, run[0]) && OrderlyRun(env, Next(env, w, run[0]), run[1..]))
  }

  // The reconcile in flight works from the two annotations the server has.
  ghost predicate InStep(f: Flight, now: Option<Obj>) {
    var p := f.pass;
    now.Some? && Live(f) && f.seen.Some? ==>
      && (p.phase == Clocking ==> AgreeOut(p.obj.anns, now.value.anns))
      && (Patching(p.phase) ==> AgreeOut(p.base, now.value.anns) && Consistent(p.obj.anns))
      && (p.phase == Starting ==> AgreeOut(p.base, p.obj.anns))
  }

  ghost predicate Telling(w: State) {
    && w.log != []
    && (Current(w).Some? ==> Consistent(Current(w).value.anns))
    && (forall j: nat | 0 < j < |w.log| && Edit(w.log, j) ::
          AgreeOut(At(w.log, j - 1).anns, At(w.log, j).anns))
    && (w.flights == [] ||
        (NoneLive(w.flights, |w.flights| - 1) && InStep(w.flights[|w.flights| - 1], Current(w))))
  }

  // ---------- steps ----------

  lemma {:induction false} EditsAgree(log: seq<Version>, k: nat, n: nat)
    requires k <= n < |log| && OnlyEdits(log, k) && Exists(log, k)
    requires forall j: nat | 0 < j < |log| && Edit(log, j) :: AgreeOut(At(log, j - 1).anns, At(log, j).anns)
    ensures Exists(log, n) && AgreeOut(At(log, k).anns, At(log, n).anns)
  {
    if k < n {
      EditsAgree(log, k, n - 1);
      assert Edit(log, n);
    }
  }

  lemma FetchInStep(w: State, f: Flight, at: nat, filtered: bool)
    requires w.log != [] && at < |w.log| && f.pass.phase == Fetching && f.seen == None && f.pass.ending.Running?
    requires Exists(w.log, at) && Current(w).Some? ==> AgreeOut(At(w.log, at).anns, Current(w).value.anns)
    ensures InStep(Fetched(w, f, at, filtered), Current(w))
  {
    hide Consistent;
    if Exists(w.log, at) && Current(w).Some? {
      var o := At(w.log, at);
      KeptReadsSame(o.anns, KEEP, Status);
      KeptReadsSame(o.anns, KEEP, ExpireAt);
      BareIsConsistent(WithoutOutputs(View(o, filtered).anns));
    }
  }

  lemma TimeInStep(env: Platform, f: Flight, s: Option<Obj>, t: int, at: nat)
    requires f.pass.phase == Clocking && InStep(f, s) && f.seen.Some? && (s.Some? ==> Consistent(s.value.anns))
    ensures InStep(f.(pass := OnClock(env, f.pass, t), decidedAt := at), s)
  {
    hide Decide, Consistent;
    if s.Some? {
      var p := f.pass.(now := t);
      match ParsedStart(env, p.obj.anns)
      case Some(start) =>
        DecideIsConsistent(env, p.(startAt := start));
        DecideKeepsBase(env, p.(startAt := start));
      case None =>
        var want := p.obj.anns[LeaseStart := env.format(t)];
        ConsistentByAgree(s.value.anns, want);
    }
  }

  lemma DecideKeepsBase(env: Platform, p: Pass)
    ensures Decide(env, p).base == p.obj.anns
  {
    hide Duration.Parse, ActiveStatus, InvalidStatus, EXPIRED_STATUS;
  }

  lemma AnswerInStep(env: Platform, f: Flight, a: PatchAnswer, viewAt: nat, begunAt: Option<nat>, s: Obj)
    requires Patching(f.pass.phase)
    requires f.pass.phase == Starting ==> AgreeOut(Absorb(f.pass, a).obj.anns, s.anns)
    ensures InStep(Answered(env, f, a, viewAt, begunAt), Some(s))
  {
    hide Decide, ParseConfig, Consistent;
    if f.pass.phase == Starting {
      var q := Absorb(f.pass, a);
      var r := CountStart(q);
      DecideIsConsistent(env, r);
      DecideKeepsBase(env, r);
    }
  }

  lemma LostInStep(env: Platform, log: seq<Version>, f: Flight, s: Option<Obj>)
    requires FlightOk(env, log, f) && Patching(f.pass.phase) && InStep(f, s)
    ensures InStep(PatchFailed(env, f), s)
  {
    SeenFacts(env, log, f);
    hide FlightOk, PatchFailed, OnPatch, Consistent;
    if s.Some? {
      LostIsAnswered(env, f);
      AnswerInStep(env, f, Lost, f.viewAt, None, s.value);
    }
  }

  lemma LandInStep(env: Platform, w: State, i: nat, refresh: bool)
    requires i < |w.flights| && Patching(w.flights[i].pass.phase) && Current(w).Some?
    requires InStep(w.flights[i], Current(w)) && w.flights[i].seen.Some? && w.flights[i].viewAt < |w.log|
    ensures var v := Landing(w, i);
            && InStep(Acknowledged(env, w.flights[i], v.log, refresh), Current(v))
            && Current(v).Some? && Consistent(Current(v).value.anns)
  {
    hide Acknowledged, Landing, MergeApply, MergeDiff, Consistent;
    var v, f := Landing(w, i), w.flights[i];
    LandingShape(w, i);
    PatchAgrees(Current(w).value.anns, f.pass.base, f.pass.obj.anns);
    ConsistentByAgree(f.pass.obj.anns, Current(v).value.anns);
    var m: nat := |v.log| - 1;
    LandedIsAnswered(env, v.log, f, refresh);
    AnswerInStep(env, f, Landed(if refresh then v.log[m].state else None), if refresh then m else f.viewAt,
                 Some(m), Current(v).value);
  }

  lemma QuietInStep(env: Platform, w: State, a: Action)
    requires a.FetchFails? || a.JobAnswer? || a.DeleteArrives? || a.DeleteLost?
    requires OfFlight(a) && Enabled(env, w, a)
    ensures InStep(Moved(env, w, a), Current(Wrote(w, a)))
    ensures Wrote(w, a) == w || Current(Wrote(w, a)) == None
  {
    hide Landing, PatchFailed, Fetched, OnClock, Acknowledged, Consistent;
  }

  lemma MovedInStep(env: Platform, w: State, a: Action)
    requires Telling(w) && OfFlight(a) && Enabled(env, w, a) && OrderlyStep(w, a)
    requires InStep(w.flights[a.i], Current(w)) && FlightOk(env, w.log, w.flights[a.i])
    ensures InStep(Moved(env, w, a), Current(Wrote(w, a)))
    ensures Current(Wrote(w, a)).Some? ==> Consistent(Current(Wrote(w, a)).value.anns)
  {
    hide FlightOk, Acknowledged, Landing, PatchFailed, Fetched, OnClock, InStep, DeleteStep, Consistent;
    var f := w.flights[a.i];
    match a
    case Fetch(i, at, filtered) =>
      FetchSeen(env, w.log, f);
      if Exists(w.log, at) { EditsAgree(w.log, at, |w.log| - 1); }
      FetchInStep(w, f, at, filtered);
    case TellTime(i) => SeenFacts(env, w.log, f); TimeInStep(env, f, Current(w), w.clock, f.viewAt);
    case PatchLost(i) => LostInStep(env, w.log, f, Current(w));
    case PatchLands(i, refresh) => SeenFacts(env, w.log, f); LandInStep(env, w, i, refresh);
    case _ => QuietInStep(env, w, a);
  }

  lemma FlightTells(env: Platform, w: State, a: Action)
    requires Lawful(env) && Inv(env, w) && Telling(w) && OfFlight(a) && Enabled(env, w, a) && OrderlyStep(w, a)
    ensures Telling(Next(env, w, a))
  {
    TellingLast(env, w, a);
    hide Moved, FlightOk, Lineage, Authored, FlightsOk, Wrote, Put, InStep, Consistent, Next, Enabled, OrderlyStep;
    MovedInStep(env, w, a);
    WroteExtends(env, w, a);
    WroteByFlight(env, w, a);
    NextIsPut(env, w, a);
    PutTells(Wrote(w, a), a.i, Moved(env, w, a));
  }

  lemma TellingLast(env: Platform, w: State, a: Action)
    requires FlightsOk(env, w.log, w.flights) && Telling(w) && OfFlight(a) && Enabled(env, w, a)
    ensures a.i + 1 == |w.flights| && NoneLive(w.flights, a.i) && InStep(w.flights[a.i], Current(w))
    ensures FlightOk(env, w.log, w.flights[a.i])
  {
    hide FlightOk, InStep;
    assert Live(w.flights[a.i]);
  }

  // A new version written by a flight is no edit.
  lemma WroteByFlight(env: Platform, w: State, a: Action)
    requires OfFlight(a) && Enabled(env, w, a) && Telling(w)
    ensures var log := Wrote(w, a).log;
            forall j: nat | 0 < j < |log| && Edit(log, j) :: AgreeOut(At(log, j - 1).anns, At(log, j).anns)
  {
    hide MergeApply, MergeDiff, InStep, Consistent, AgreeOut;
    if a.PatchLands? { LandingShape(w, a.i); }
    var log := Wrote(w, a).log;
    forall j: nat | 0 < j < |log| && Edit(log, j) ensures AgreeOut(At(log, j - 1).anns, At(log, j).anns) {
      assert j < |w.log| && log[j] == w.log[j] && log[j - 1] == w.log[j - 1];
      assert Edit(w.log, j);
      assert At(log, j) == At(w.log, j) && At(log, j - 1) == At(w.log, j - 1);
    }
  }

  lemma PutTells(v: State, i: nat, f: Flight)
    requires v.log != [] && i + 1 == |v.flights| && NoneLive(v.flights, i) && InStep(f, Current(v))
    requires Current(v).Some? ==> Consistent(Current(v).value.anns)
    requires forall j: nat | 0 < j < |v.log| && Edit(v.log, j) ::
               AgreeOut(At(v.log, j - 1).anns, At(v.log, j).anns)
    ensures Telling(Put(v, i, f))
  {
    hide Consistent, AgreeOut, Edit;
    var w := Put(v, i, f);
    assert w.flights[i].pass == f.pass && w.flights[i].seen == f.seen && w.log == v.log;
    assert InStep(w.flights[i], Current(w));
    assert forall k: nat | k < i :: w.flights[k] == v.flights[k];
  }

  lemma UserTells(env: Platform, w: State, anns: Option<Anns>)
    requires Telling(w) && Enabled(env, w, UserWrite(anns)) && OrderlyStep(w, UserWrite(anns))
    ensures Telling(UserWrites(w, anns))
  {
    var v := UserWrites(w, anns);
    forall j: nat | 0 < j < |v.log| && Edit(v.log, j) ensures AgreeOut(At(v.log, j - 1).anns, At(v.log, j).anns) {
      if j < |w.log| {
        assert v.log[j] == w.log[j] && v.log[j - 1] == w.log[j - 1];
        assert Edit(w.log, j);
        assert At(v.log, j) == At(w.log, j) && At(v.log, j - 1) == At(w.log, j - 1);
      } else {
        assert v.log[j - 1] == w.log[j - 1];
      }
    }
    hide Edit;
    if Current(v).Some? {
      if Current(w).Some? {
        ConsistentByAgree(Current(w).value.anns, Current(v).value.anns);
      } else {
        BareIsConsistent(Current(v).value.anns);
      }
    }
  }

  lemma OtherTells(env: Platform, w: State, a: Action)
    requires Telling(w) && !OfFlight(a) && Enabled(env, w, a) && OrderlyStep(w, a)
    ensures Telling(Next(env, w, a))
  {
    hide Consistent, AgreeOut, Edit, Triggers, Begin, UserWrites;
    if a.UserWrite? {
      UserTells(env, w, a.anns);
    } else {
      var v := Next(env, w, a);
      assert v.log == w.log && Current(v) == Current(w);
      if a.Restart? { assert NoneLive(v.flights, |v.flights|); }
    }
  }

  lemma {:induction false} RunTells(env: Platform, w: State, run: seq<Action>)
    requires Lawful(env) && Inv(env, w) && Telling(w) && OrderlyRun(env, w, run)
    ensures Possible(env, w, run) && Telling(After(env, w, run))
    decreases |run|
  {
    hide Inv, Telling, Enabled, Next, OrderlyStep;
    if run != [] {
      if OfFlight(run[0]) { FlightTells(env, w, run[0]); } else { OtherTells(env, w, run[0]); }
      StepKeeps(env, w, run[0]);
      RunTells(env, Next(env, w, run[0]), run[1..]);
    }
  }

  // After every orderly run the status never contradicts the expire-at.
  lemma StatusMatchesExpiry(env: Platform, w: State, run: seq<Action>, stamp: string)
    requires Lawful(env) && Initial(env, w) && OrderlyRun(env, w, run)
    ensures Possible(env, w, run)
    ensures var s := Current(After(env, w, run));
            s.Some? && Get(s.value.anns, Status) == BEFORE + stamp + AFTER ==>
              Get(s.value.anns, ExpireAt) == stamp
  {
    RunKeeps(env, w, []);
    RunTells(env, w, run);
  }
}

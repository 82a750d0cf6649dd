// The controller's own patches come back as events. In quiet periods they settle: at most one more
// reconcile is self-caused, and then ttl and lease-start are a fixed point.
module SelfTrigger {
  import opened Wrappers
  import opened Kube
  import opened ObjectFilter
  import opened LeasePass
  import opened World
  import opened WorldInvariant
  import opened WorldRuns
  import opened Safety
  import opened Coverage
  import opened CleanupJob
  import Duration

  // ---------- the measure ----------

  // What the next reconcile would have to put right: a lease without a readable start, or a start
  // without a lease.
  predicate Unsettled(env: Platform, s: Option<Obj>) {
    s.Some? &&
    if NoTTL(s.value.anns) then LeaseStart in s.value.anns
    else ParsedStart(env, s.value.anns) == None
  }

  function Mu(env: Platform, s: Option<Obj>): nat {
    if Unsettled(env, s) then 1 else 0
  }

  predicate OwnTrigger(log: seq<Version>, k: nat)
    requires 0 < k < |log|
  {
    log[k].author.ByFlight? && Triggers(log[k - 1].state, log[k].state)
  }

  // Own triggers from version k on.
  function Backlog(log: seq<Version>, k: nat): nat
    requires 0 < k <= |log|
    decreases |log| - k
  {
    if k == |log| then 0 else (if OwnTrigger(log, k) then 1 else 0) + Backlog(log, k + 1)
  }

  // Own triggers still to come, as far as the server's state tells.
  function Potential(env: Platform, w: State): nat
    requires w.cached < |w.log|
  {
    Mu(env, Current(w)) + Backlog(w.log, w.cached + 1)
  }

  lemma {:induction false} BacklogSnoc(log: seq<Version>, v: Version, k: nat)
    requires 0 < k <= |log|
    ensures Backlog(log + [v], k) == Backlog(log, k) + if OwnTrigger(log + [v], |log|) then 1 else 0
    decreases |log| - k
  {
    if k < |log| {
      BacklogSnoc(log, v, k + 1);
      assert OwnTrigger(log + [v], k) <==> OwnTrigger(log, k);
    } else {
      assert Backlog(log + [v], |log| + 1) == 0;
    }
  }

  // ---------- calm runs ----------

  predicate NoneLive(flights: seq<Flight>, n: nat)
    requires n <= |flights|
  {
    forall i: nat | i < n :: !Live(flights[i])
  }

  // No user interferes, reconciles do not overlap, and each reads the server's latest version.
  predicate CalmStep(w: State, a: Action) {
    match a
    case UserWrite(_) => false
    case Fetch(_, at, _) => at + 1 == |w.log|
    case StartQueued => NoneLive(w.flights, |w.flights|)
    case StartDirect => NoneLive(w.flights, |w.flights|)
    case _ => true
  }

  predicate CalmRun(env: Platform, w: State, run: seq<Action>)
    decreases |run|
  {
    run == [] ||
    (Enabled(env, w, run[0]) && CalmStep(w, run[0]) && CalmRun(env, Next(env, w, run[0]), run[1..]))
  }

  // The reconcile in flight has the server's ttl and lease-start before its eyes, or its pending
  // patch leaves them alone.
  predicate Fresh(f: Flight, now: Option<Obj>) {
    var p := f.pass;
    Live(f) && f.seen.Some? && p.phase != Deleting ==>
      && now.Some?
      && (p.phase == Clocking ==> Relevant(p.obj.anns) == Relevant(now.value.anns))
      && (p.phase == Starting || p.phase == Cleaning ==> Relevant(p.base) == Relevant(now.value.anns))
      && (p.phase in {Marking, Activating, Expiring} ==> Relevant(p.base) == Relevant(p.obj.anns))
  }

  predicate Calm(w: State) {
    && w.cached < |w.log|
    && (w.flights == [] ||
        (NoneLive(w.flights, |w.flights| - 1) && Fresh(w.flights[|w.flights| - 1], Current(w))))
  }

  // ---------- patches and the measure ----------

  lemma MuByRelevant(env: Platform, a: Obj, b: Obj)
    requires Relevant(a.anns) == Relevant(b.anns)
    ensures Mu(env, Some(a)) == Mu(env, Some(b)) && !Triggers(Some(a), Some(b))
  {
    RelevantSame(env, a.anns, b.anns);
  }

  lemma RelevantOf(a: Anns, b: Anns)
    requires SameAt(a, b, TTL) && SameAt(a, b, LeaseStart)
    ensures Relevant(a) == Relevant(b)
  {
  }

  lemma RelevantParts(a: Anns, b: Anns, k: Key)
    requires Relevant(a) == Relevant(b) && k in RELEVANT
    ensures SameAt(a, b, k)
  {
    assert k in Relevant(a) <==> k in a;
    assert k in Relevant(b) <==> k in b;
    if k in a { assert Relevant(a)[k] == a[k] && Relevant(b)[k] == b[k]; }
  }

  // Which events start a reconcile: a creation with a ttl, and an update of ttl or lease-start.
  lemma TriggersMeans(before: Option<Obj>, o: Obj, n: Obj)
    ensures Triggers(None, Some(n)) <==> TTL in n.anns
    ensures !Triggers(before, None)
    ensures !Triggers(Some(o), Some(n)) <==>
              (TTL in o.anns <==> TTL in n.anns) && (TTL in o.anns ==> o.anns[TTL] == n.anns[TTL])
              && (LeaseStart in o.anns <==> LeaseStart in n.anns)
              && (LeaseStart in o.anns ==> o.anns[LeaseStart] == n.anns[LeaseStart])
  {
    if Relevant(o.anns) == Relevant(n.anns) {
      RelevantParts(o.anns, n.anns, TTL);
      RelevantParts(o.anns, n.anns, LeaseStart);
    }
    if SameAt(o.anns, n.anns, TTL) && SameAt(o.anns, n.anns, LeaseStart) { RelevantOf(o.anns, n.anns); }
  }

  // A patch that does not touch ttl and lease-start.
  lemma NeutralPatch(server: Anns, base: Anns, want: Anns)
    requires Relevant(base) == Relevant(want)
    ensures Relevant(MergeApply(server, MergeDiff(base, want))) == Relevant(server)
  {
    hide MergeApply, MergeDiff;
    forall k | k in RELEVANT ensures SameAt(server, MergeApply(server, MergeDiff(base, want)), k) {
      RelevantParts(base, want, k);
      MergeOnAny(server, base, want, k);
    }
    RelevantOf(server, MergeApply(server, MergeDiff(base, want)));
  }

  // The patch that starts a lease triggers once and settles the measure.
  lemma StartPatch(env: Platform, server: Obj, base: Anns, now: int)
    requires Lawful(env) && env.lo <= now < env.hi
    requires Relevant(base) == Relevant(server.anns) && !NoTTL(base) && ParsedStart(env, base) == None
    ensures var after := server.(anns :=
              MergeApply(server.anns, MergeDiff(base, base[LeaseStart := env.format(now)])));
            && Triggers(Some(server), Some(after))
            && Mu(env, Some(server)) == 1 && Mu(env, Some(after)) == 0
  {
    hide MergeApply, MergeDiff;
    var want := base[LeaseStart := env.format(now)];
    var after := MergeApply(server.anns, MergeDiff(base, want));
    RelevantSame(env, base, server.anns);
    StartLands(env, server.anns, base, now);
    MergeOnAny(server.anns, base, want, TTL);
    if Relevant(server.anns) == Relevant(after) { RelevantSame(env, server.anns, after); }
  }

  // The patch that cleans up after a removed ttl triggers only if it takes the start away.
  lemma CleanPatch(env: Platform, server: Obj, base: Anns)
    requires Relevant(base) == Relevant(server.anns) && NoTTL(base)
    ensures var after := server.(anns := MergeApply(server.anns, MergeDiff(base, WithoutOutputs(base))));
            && Mu(env, Some(server)) == (if Triggers(Some(server), Some(after)) then 1 else 0)
            && Mu(env, Some(after)) == 0
  {
    hide MergeApply, MergeDiff;
    var want := WithoutOutputs(base);
    var after := MergeApply(server.anns, MergeDiff(base, want));
    RelevantSame(env, base, server.anns);
    MergeOnAny(server.anns, base, want, TTL);
    MergeOnAny(server.anns, base, want, LeaseStart);
    RelevantParts(base, server.anns, TTL);
    RelevantParts(base, server.anns, LeaseStart);
    if LeaseStart in server.anns {
      assert LeaseStart in Relevant(server.anns) && LeaseStart !in Relevant(after);
    } else {
      RelevantOf(server.anns, after);
    }
  }

  // ---------- steps ----------

  // Landing: the measure pays for the trigger.
  lemma LandingBalance(env: Platform, w: State, i: nat)
    requires Lawful(env) && i < |w.flights| && FlightOk(env, w.log, w.flights[i])
    requires Patching(w.flights[i].pass.phase) && Current(w).Some?
    requires Fresh(w.flights[i], Current(w))
    ensures var s, t := Current(w), Current(Landing(w, i));
            Mu(env, s) == Mu(env, t) + (if Triggers(s, t) then 1 else 0)
  {
    LandingShape(w, i);
    var p, o := w.flights[i].pass, Current(w).value;
    PatchingFacts(env, w.log, w.flights[i]);
    CleaningFacts(env, w.log, w.flights[i]);
    hide FlightOk, MergeApply, MergeDiff, Landing, Unsettled, Triggers;
    if p.phase == Starting {
      StartPatch(env, o, p.base, p.now);
    } else if p.phase == Cleaning {
      CleanPatch(env, o, p.base);
    } else {
      NeutralPatch(o.anns, p.base, p.obj.anns);
      MuByRelevant(env, o, Current(Landing(w, i)).value);
    }
  }

  lemma CleaningFacts(env: Platform, log: seq<Version>, f: Flight)
    requires FlightOk(env, log, f)
    ensures f.pass.phase == Cleaning ==> NoTTL(f.pass.base) && f.pass.obj.anns == WithoutOutputs(f.pass.base)
    ensures f.pass.phase == Starting ==> !NoTTL(f.pass.base)
  {
  }

  lemma DecideIsNeutral(env: Platform, p: Pass)
    ensures Relevant(Decide(env, p).base) == Relevant(Decide(env, p).obj.anns)
  {
    hide Duration.Parse, ActiveStatus, InvalidStatus, EXPIRED_STATUS;
    var q := Decide(env, p);
    assert SameAt(q.base, q.obj.anns, TTL) && SameAt(q.base, q.obj.anns, LeaseStart);
    RelevantOf(q.base, q.obj.anns);
  }

  lemma ViewIsRelevant(o: Obj, filtered: bool)
    ensures Relevant(View(o, filtered).anns) == Relevant(o.anns)
  {
    KeptReadsSame(o.anns, KEEP, TTL);
    KeptReadsSame(o.anns, KEEP, LeaseStart);
    RelevantOf(View(o, filtered).anns, o.anns);
  }

  lemma FetchFresh(w: State, f: Flight, filtered: bool)
    requires w.log != [] && f.pass.phase == Fetching && f.pass.ending.Running? && f.seen == None
    ensures Fresh(Fetched(w, f, |w.log| - 1, filtered), Current(w))
  {
    if Current(w).Some? { ViewIsRelevant(Current(w).value, filtered); }
  }

  lemma TimeFresh(env: Platform, f: Flight, s: Option<Obj>, t: int, at: nat)
    requires f.pass.phase == Clocking && Fresh(f, s) && f.seen.Some?
    ensures Fresh(f.(pass := OnClock(env, f.pass, t), decidedAt := at), s)
  {
    hide Decide;
    match ParsedStart(env, f.pass.obj.anns)
    case Some(start) => DecideIsNeutral(env, f.pass.(now := t, startAt := start));
    case None =>
  }

  lemma AnswerFresh(env: Platform, f: Flight, a: PatchAnswer, viewAt: nat, begunAt: Option<nat>, s: Option<Obj>)
    requires Patching(f.pass.phase) && s.Some?
    ensures Fresh(Answered(env, f, a, viewAt, begunAt), s)
  {
    hide Decide, ParseConfig;
    if f.pass.phase == Starting {
      var q := Absorb(f.pass, a);
      DecideIsNeutral(env, CountStart(q));
    }
  }

  lemma QuietFresh(env: Platform, w: State, a: Action)
    requires a.FetchFails? || a.JobAnswer? || a.DeleteArrives? || a.DeleteLost?
    requires OfFlight(a) && Enabled(env, w, a) && Fresh(w.flights[a.i], Current(w))
    ensures Fresh(Moved(env, w, a), Current(Wrote(w, a)))
  {
    hide Landing, PatchFailed, Fetched, OnClock, Acknowledged;
  }

  lemma MovedFresh(env: Platform, w: State, a: Action)
    requires OfFlight(a) && Enabled(env, w, a) && CalmStep(w, a) && Fresh(w.flights[a.i], Current(w))
    requires FlightOk(env, w.log, w.flights[a.i])
    ensures Fresh(Moved(env, w, a), Current(Wrote(w, a)))
  {
    hide FlightOk, Acknowledged, Landing, PatchFailed, Fetched, OnClock, Fresh, DeleteStep;
    var f := w.flights[a.i];
    match a
    case Fetch(i, at, filtered) => FetchSeen(env, w.log, f); FetchFresh(w, f, filtered);
    case TellTime(i) => SeenFacts(env, w.log, f); TimeFresh(env, f, Current(w), w.clock, f.viewAt);
    case PatchLost(i) => LostFresh(env, w.log, f, Current(w));
    case PatchLands(i, refresh) => SeenFacts(env, w.log, f); LandFresh(env, w, i, refresh);
    case _ => QuietFresh(env, w, a);
  }

  lemma SeenFacts(env: Platform, log: seq<Version>, f: Flight)
    requires FlightOk(env, log, f) && (f.pass.phase == Clocking || Patching(f.pass.phase))
    ensures f.seen.Some? && f.viewAt < |log|
  {
  }

  lemma LostFresh(env: Platform, log: seq<Version>, f: Flight, s: Option<Obj>)
    requires FlightOk(env, log, f) && Patching(f.pass.phase) && Fresh(f, s)
    ensures Fresh(PatchFailed(env, f), s)
  {
    SeenFacts(env, log, f);
    hide FlightOk, PatchFailed, OnPatch;
    LostIsAnswered(env, f);
    AnswerFresh(env, f, Lost, f.viewAt, None, s);
  }

  lemma FetchSeen(env: Platform, log: seq<Version>, f: Flight)
    requires FlightOk(env, log, f) && f.pass.phase == Fetching
    ensures f.seen == None && f.pass.ending.Running?
  {
  }

  lemma LostIsAnswered(env: Platform, f: Flight)
    ensures PatchFailed(env, f).pass == Answered(env, f, Lost, f.viewAt, None).pass
    ensures PatchFailed(env, f).seen == f.seen
  {
  }

  lemma LandFresh(env: Platform, w: State, i: nat, refresh: bool)
    requires i < |w.flights| && Patching(w.flights[i].pass.phase) && Current(w).Some?
    requires w.flights[i].viewAt < |w.log|
    ensures Fresh(Acknowledged(env, w.flights[i], Landing(w, i).log, refresh), Current(Landing(w, i)))
  {
    hide Acknowledged, Landing, MergeApply, MergeDiff, Fresh;
    LandingShape(w, i);
    var v, f := Landing(w, i), w.flights[i];
    var m: nat := |v.log| - 1;
    LandedIsAnswered(env, v.log, f, refresh);
    AnswerFresh(env, f, Landed(if refresh then v.log[m].state else None), if refresh then m else f.viewAt,
                Some(m), Current(v));
  }

  // A delivery of one of the controller's own triggers: a reconcile it has caused itself.
  function Caused(w: State, a: Action): nat {
    if a.Deliver? && w.cached + 1 < |w.log| && OwnTrigger(w.log, w.cached + 1) then 1 else 0
  }

  // Steps that neither drop events nor objects.
  predicate Conserving(a: Action) { !a.Restart? && !a.DeleteArrives? }

  ghost predicate Balanced(env: Platform, w: State, a: Action, v: State) {
    && Calm(w) && Calm(v)
    && Caused(w, a) + Potential(env, v) <= Potential(env, w)
    && (Conserving(a) ==> Caused(w, a) + Potential(env, v) == Potential(env, w))
  }

  lemma PutCalm(v: State, i: nat, f: Flight)
    requires v.cached < |v.log| && i + 1 == |v.flights| && NoneLive(v.flights, i)
    requires Fresh(f, Current(v))
    ensures Calm(Put(v, i, f)) && Put(v, i, f).log == v.log && Put(v, i, f).cached == v.cached
  {
    var w := Put(v, i, f);
    assert w.flights[i].pass == f.pass && w.flights[i].seen == f.seen;
    assert Current(w) == Current(v);
    assert forall k: nat | k < i :: w.flights[k] == v.flights[k];
  }

  lemma CalmLast(env: Platform, w: State, a: Action)
    requires FlightsOk(env, w.log, w.flights) && Calm(w) && OfFlight(a) && Enabled(env, w, a)
    ensures a.i + 1 == |w.flights| && NoneLive(w.flights, a.i) && Fresh(w.flights[a.i], Current(w))
    ensures FlightOk(env, w.log, w.flights[a.i])
  {
    hide FlightOk, Fresh;
    assert Live(w.flights[a.i]);
  }

  lemma FlightBalance(env: Platform, w: State, a: Action)
    requires Lawful(env) && Inv(env, w) && Calm(w) && OfFlight(a) && Enabled(env, w, a) && CalmStep(w, a)
    ensures Balanced(env, w, a, Next(env, w, a))
  {
    CalmLast(env, w, a);
    hide Put, Moved, FlightOk, Lineage, Authored, FlightsOk, Wrote, Fresh, Mu, Backlog, Next, Enabled, CalmStep;
    var v := Wrote(w, a);
    MovedFresh(env, w, a);
    WroteExtends(env, w, a);
    PutCalm(v, a.i, Moved(env, w, a));
    WroteBalance(env, w, a);
    NextIsPut(env, w, a);
    PutPotential(env, v, a.i, Moved(env, w, a));
  }

  lemma PutPotential(env: Platform, v: State, i: nat, f: Flight)
    requires v.cached < |v.log| && i < |v.flights|
    ensures Put(v, i, f).log == v.log && Put(v, i, f).cached == v.cached
    ensures Potential(env, Put(v, i, f)) == Potential(env, v)
  {
    hide Backlog, Mu;
  }

  lemma WroteBalance(env: Platform, w: State, a: Action)
    requires Lawful(env) && OfFlight(a) && Enabled(env, w, a) && w.cached < |w.log|
    requires FlightOk(env, w.log, w.flights[a.i]) && Fresh(w.flights[a.i], Current(w))
    ensures w.log <= Wrote(w, a).log && w.cached == Wrote(w, a).cached
    ensures Potential(env, Wrote(w, a)) <= Potential(env, w)
    ensures !a.DeleteArrives? ==> Potential(env, Wrote(w, a)) == Potential(env, w)
  {
    hide FlightOk, Fresh, MergeApply, MergeDiff, Landing, Lawful, Relevant, NoTTL, ParsedStart;
    if a.PatchLands? {
      var v := Landing(w, a.i);
      LandingShape(w, a.i);
      LandingBalance(env, w, a.i);
      if v.log != w.log {
        BacklogSnoc(w.log, v.log[|w.log|], w.cached + 1);
      } else {
        assert !Triggers(Current(w), Current(w));
      }
    } else if a.DeleteArrives? {
      var v := DeleteStep(w, a.i);
      if v.log != w.log { BacklogSnoc(w.log, v.log[|w.log|], w.cached + 1); }
    }
  }

  lemma OtherBalance(env: Platform, w: State, a: Action)
    requires Calm(w) && !OfFlight(a) && Enabled(env, w, a) && CalmStep(w, a)
    ensures Balanced(env, w, a, Next(env, w, a))
  {
    hide Unsettled, Triggers, Begin, OwnTrigger;
    var v := Next(env, w, a);
    assert v.log == w.log;
    if a.Restart? {
      assert NoneLive(v.flights, |v.flights|);
    }
  }

  lemma StepBalance(env: Platform, w: State, a: Action)
    requires Lawful(env) && Inv(env, w) && Calm(w) && Enabled(env, w, a) && CalmStep(w, a)
    ensures Balanced(env, w, a, Next(env, w, a))
  {
    if OfFlight(a) { FlightBalance(env, w, a); } else { OtherBalance(env, w, a); }
  }

  // ---------- runs ----------

  function CausedIn(env: Platform, w: State, run: seq<Action>): nat
    requires Possible(env, w, run)
    decreases |run|
  {
    if run == [] then 0 else Caused(w, run[0]) + CausedIn(env, Next(env, w, run[0]), run[1..])
  }

  lemma {:induction false} CalmIsPossible(env: Platform, w: State, run: seq<Action>)
    requires CalmRun(env, w, run)
    ensures Possible(env, w, run)
    decreases |run|
  {
    if run != [] { CalmIsPossible(env, Next(env, w, run[0]), run[1..]); }
  }

  lemma {:induction false} RunBalance(env: Platform, w: State, run: seq<Action>)
    requires Lawful(env) && Inv(env, w) && Calm(w) && CalmRun(env, w, run)
    ensures Possible(env, w, run)
    ensures var v := After(env, w, run);
            && Inv(env, v) && Calm(v)
            && CausedIn(env, w, run) + Potential(env, v) <= Potential(env, w)
            && ((forall k: nat | k < |run| :: Conserving(run[k])) ==>
                  CausedIn(env, w, run) + Potential(env, v) == Potential(env, w))
    decreases |run|
  {
    hide Inv, Calm, Potential, Enabled, Next, CalmStep;
    if run != [] {
      StepBalance(env, w, run[0]);
      StepKeeps(env, w, run[0]);
      RunBalance(env, Next(env, w, run[0]), run[1..]);
      assert (forall k: nat | k < |run| :: Conserving(run[k])) ==>
          forall k: nat | k < |run[1..]| :: Conserving(run[1..][k]) && run[1..][k] == run[k + 1];
    }
  }

  // Quiet periods: while users stay away, and whatever patches fail, time passes, timers fire or the
  // process restarts, no more reconciles are self-caused than the events still to be delivered, plus
  // one if the object now lacks a readable start for its ttl, or has a start without a ttl.
  lemma SelfTriggersSettle(env: Platform, w: State, run: seq<Action>)
    requires Lawful(env) && Reachable(env, w) && Calm(w)
    requires CalmRun(env, w, run)
    ensures Possible(env, w, run)
    ensures CausedIn(env, w, run) <= Backlog(w.log, w.cached + 1) + Mu(env, Current(w))
    ensures Mu(env, Current(w)) <= 1
  {
    hide Inv, Backlog, Reachable, Unsettled, CalmRun, Enabled, Next, Calm;
    ReachableKeeps(env, w);
    RunBalance(env, w, run);
    assert w.cached < |w.log| by { CalmCached(w); }
  }

  lemma CalmCached(w: State)
    requires Calm(w)
    ensures w.cached < |w.log|
  {
  }

  // ---------- the fixed point ----------

  // Between w and v the object was deleted, or its ttl and lease-start are what they were.
  predicate Stays(w: State, v: State) {
    Current(v).Some? ==>
      Current(w).Some? && Relevant(Current(v).value.anns) == Relevant(Current(w).value.anns)
  }

  // A write that triggers nothing changes neither.
  lemma WroteStays(env: Platform, w: State, a: Action)
    requires OfFlight(a) && Enabled(env, w, a) && w.cached < |w.log|
    requires Backlog(Wrote(w, a).log, w.cached + 1) == 0
    ensures Stays(w, Wrote(w, a))
  {
    hide MergeApply, MergeDiff, Landing;
    if a.PatchLands? {
      var v := Landing(w, a.i);
      LandingShape(w, a.i);
      if v.log != w.log { BacklogSnoc(w.log, v.log[|w.log|], w.cached + 1); }
    }
  }

  lemma FlightStays(env: Platform, w: State, a: Action)
    requires OfFlight(a) && Enabled(env, w, a) && w.cached < |w.log|
    requires var v := Next(env, w, a);
             v.cached == w.cached < |v.log| && Potential(env, v) == 0
    ensures Stays(w, Next(env, w, a))
  {
    hide Mu, Backlog, Triggers, Moved, Wrote, Put, Next, Unsettled;
    NextIsPut(env, w, a);
    WroteExtends(env, w, a);
    PutPotential(env, Wrote(w, a), a.i, Moved(env, w, a));
    WroteStays(env, w, a);
  }

  lemma OtherStays(env: Platform, w: State, a: Action)
    requires !OfFlight(a) && Enabled(env, w, a) && CalmStep(w, a)
    ensures Stays(w, Next(env, w, a))
  {
    hide Triggers, Begin, Relevant;
    assert Next(env, w, a).log == w.log;
  }

  lemma FlightCached(env: Platform, w: State, a: Action)
    requires OfFlight(a) && Enabled(env, w, a)
    ensures Next(env, w, a).cached == w.cached
  {
    hide Mu, Backlog, Triggers, Moved, Wrote, Next, Enabled;
    NextIsPut(env, w, a);
    WroteExtends(env, w, a);
  }

  lemma StepStays(env: Platform, w: State, a: Action)
    requires Lawful(env) && Inv(env, w) && Calm(w) && Enabled(env, w, a) && CalmStep(w, a)
    requires Potential(env, w) == 0
    ensures Stays(w, Next(env, w, a))
  {
    hide Inv, Mu, Backlog, Next, Enabled, CalmStep, Stays;
    StepBalance(env, w, a);
    if OfFlight(a) {
      FlightCached(env, w, a);
      FlightStays(env, w, a);
    } else {
      OtherStays(env, w, a);
    }
  }

  // Once nothing of the controller's own is to come, ttl and lease-start never change again until
  // the object goes or a user steps in, however many reconciles run.
  lemma {:induction false} SettledIsFixed(env: Platform, w: State, run: seq<Action>)
    requires Lawful(env) && Inv(env, w) && Calm(w) && CalmRun(env, w, run)
    requires Potential(env, w) == 0
    ensures Possible(env, w, run) && Stays(w, After(env, w, run))
    ensures CausedIn(env, w, run) == 0
    decreases |run|
  {
    hide Inv, Calm, Potential, Enabled, Next, CalmStep;
    CalmIsPossible(env, w, run);
    RunBalance(env, w, run);
    if run != [] {
      StepBalance(env, w, run[0]);
      StepKeeps(env, w, run[0]);
      StepStays(env, w, run[0]);
      SettledIsFixed(env, Next(env, w, run[0]), run[1..]);
    }
  }
}

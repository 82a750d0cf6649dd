// No lease is forgotten: in every reachable state an object with a valid TTL is on its way to
// another look, unless one of two things happened that the source lets slip.
module Coverage {
  import opened Wrappers
  import opened Kube
  import opened LeasePass
  import opened World
  import opened WorldInvariant
  import opened WorldRuns
  import opened Safety
  import opened CleanupJob
  import Duration

  predicate Unleased(s: Option<Obj>) { s.None? || TTL !in s.value.anns }

  // From version a to version b the object was there all along with the same ttl and lease-start.
  predicate Steady(log: seq<Version>, a: nat, b: nat) {
    Exists(log, b) && forall k: nat | a <= k <= b ::
      Exists(log, k) && Relevant(At(log, k).anns) == Relevant(At(log, b).anns)
  }

  // Nothing the reconcile has read has since changed in a way that would call for another one.
  predicate Watched(w: State, f: Flight)
    requires w.cached < |w.log|
  {
    f.readAt < |w.log| &&
    (Unleased(w.log[w.cached].state) || w.cached < f.readAt
     || Steady(w.log, f.readAt, w.cached))
  }

  predicate LatestOk(w: State, f: Flight)
    requires w.cached < |w.log|
  {
    && f.origin == FromQueue && !f.pass.ending.Crashed?
    && (w.queued || f.pass.phase == Fetching || f.pass.ending.Untracked? || Watched(w, f))
    && (f.pass.ending.GetError? || f.pass.ending.DeleteError? ==> w.queued)
    && (f.pass.ending.Active? && f.pass.ending.delay > 0 ==>
          w.queued || (w.wake.Some? && w.wake.value <= f.endedAt + f.pass.ending.delay))
  }

  predicate Cover(w: State) {
    && w.cached < |w.log|
    && (forall i: nat | i < |w.flights| && w.flights[i].origin == FromQueue && Live(w.flights[i]) ::
          w.latest == Some(i))
    && match w.latest
       case None => w.queued || Unleased(w.log[w.cached].state)
       case Some(l) => l < |w.flights| && LatestOk(w, w.flights[l])
  }

  // ---------- steps ----------

  lemma WatchedGrows(w: State, v: State, f: Flight)
    requires w.cached < |w.log| && v.cached == w.cached && w.log <= v.log && Watched(w, f)
    ensures Watched(v, f)
  {
    assert forall k: nat | Exists(w.log, k) :: Exists(v.log, k) && At(v.log, k) == At(w.log, k);
    if Steady(w.log, f.readAt, w.cached) {
      forall k: nat | f.readAt <= k <= v.cached
        ensures Exists(v.log, k) && Relevant(At(v.log, k).anns) == Relevant(At(v.log, v.cached).anns)
      {
        assert Exists(w.log, k);
      }
    }
  }

  lemma DeliverCovers(w: State, v: State, f: Flight)
    requires w.cached + 1 < |w.log| && !w.queued && Watched(w, f)
    requires v == w.(cached := w.cached + 1)
    requires !Triggers(w.log[w.cached].state, w.log[w.cached + 1].state)
    ensures Watched(v, f)
  {
    var s, t := w.log[w.cached].state, w.log[v.cached].state;
    if !Unleased(t) && v.cached >= f.readAt {
      if v.cached == f.readAt {
      } else {
        assert s.Some? && Relevant(s.value.anns) == Relevant(t.value.anns);
        assert TTL in Relevant(t.value.anns);
        assert TTL in s.value.anns;
      }
    }
  }

  lemma NoTrigger(s: Option<Obj>, t: Option<Obj>)
    requires Unleased(s) && !Triggers(s, t)
    ensures Unleased(t)
  {
    if s.Some? && t.Some? {
      assert TTL in Relevant(t.value.anns) <==> TTL in t.value.anns;
      assert TTL !in Relevant(s.value.anns);
    }
  }

  // Putting back a flight that is not the latest one leaves the queue alone.
  lemma PutElsewhere(w: State, i: nat, f: Flight)
    requires Cover(w) && i < |w.flights| && w.latest != Some(i)
    requires f.origin == FromNamespace && w.flights[i].origin == FromNamespace
    ensures Cover(Put(w, i, f))
  {
    hide Watched;
    var v := Put(w, i, f);
    assert v == w.(flights := v.flights);
    match w.latest
    case None =>
    case Some(l) => WatchedFrame(w, v, w.flights[l]);
  }

  lemma WatchedFrame(w: State, v: State, f: Flight)
    requires w.cached < |w.log| && v.cached == w.cached && v.log == w.log
    ensures Watched(w, f) <==> Watched(v, f)
  {
  }

  // The latest flight moves on; what it reports is what the queue then knows.
  lemma PutLatest(w: State, i: nat, f: Flight)
    requires Cover(w) && i < |w.flights| && w.latest == Some(i) && Live(w.flights[i])
    requires f.origin == FromQueue && (Live(f) <==> f.pass.ending.Running?)
    requires !f.pass.ending.Crashed? && !f.pass.ending.Untracked?
    requires f.pass.phase == Fetching || f.pass.ending.GetError? || w.queued || Watched(w, f)
    ensures Cover(Put(w, i, f))
  {
    var v := Put(w, i, f);
    var g := v.flights[i];
    if f.pass.phase == Fetching || f.pass.ending.GetError? || w.queued {
    } else {
      WatchedFrame(w, v, g);
      assert g.readAt == f.readAt;
      assert Watched(w, g);
    }
    hide Watched;
  }

  // A step of flight i that keeps what it has read.
  lemma MoveOn(w: State, i: nat, f: Flight)
    requires Cover(w) && i < |w.flights| && Live(w.flights[i])
    requires w.flights[i].pass.phase != Fetching && w.flights[i].pass.ending.Running?
    requires f.origin == w.flights[i].origin && f.readAt == w.flights[i].readAt
    requires Live(f) <==> f.pass.ending.Running?
    requires f.pass.phase != Fetching && !f.pass.ending.Crashed? && !f.pass.ending.Untracked?
    ensures Cover(Put(w, i, f))
  {
    if f.origin == FromNamespace {
      PutElsewhere(w, i, f);
    } else {
      PutLatest(w, i, f);
    }
  }

  lemma ReadOn(env: Platform, w: State, i: nat, at: nat, filtered: bool)
    requires Cover(w) && Inv(env, w) && InPhase(w, i, Fetching) && w.cached <= at < |w.log|
    ensures Cover(Put(w, i, Fetched(w, w.flights[i], at, filtered)))
  {
    LiveIsRunning(env, w, i);
    FetchedOk(env, w, w.flights[i], at, filtered);
    var f := Fetched(w, w.flights[i], at, filtered);
    assert Live(f) <==> f.pass.ending.Running?;
    hide FlightOk, Inv, Lineage;
    if f.origin == FromNamespace {
      PutElsewhere(w, i, f);
    } else {
      assert Watched(w, f);
      PutLatest(w, i, f);
    }
  }

  lemma FailOn(env: Platform, w: State, i: nat)
    requires Cover(w) && Inv(env, w) && InPhase(w, i, Fetching)
    ensures Cover(Put(w, i, w.flights[i].(pass := OnGet(w.flights[i].pass, GetFailed))))
  {
    LiveIsRunning(env, w, i);
    hide FlightOk, Inv, Lineage;
    var f := w.flights[i].(pass := OnGet(w.flights[i].pass, GetFailed));
    if f.origin == FromNamespace {
      PutElsewhere(w, i, f);
    } else {
      PutLatest(w, i, f);
    }
  }

  // Writes reach the queue only when they are delivered.
  lemma WriteCovers(w: State, v: State)
    requires Cover(w) && v == w.(log := v.log) && w.log <= v.log
    ensures Cover(v)
  {
    if w.latest.Some? {
      var f := w.flights[w.latest.value];
      if Watched(w, f) { WatchedGrows(w, v, f); }
    }
    assert v.log[v.cached] == w.log[w.cached];
  }

  lemma DeliveryCovers(env: Platform, w: State)
    requires Cover(w) && Enabled(env, w, Deliver)
    ensures Cover(Next(env, w, Deliver))
  {
    var v := Next(env, w, Deliver);
    if !v.queued {
      if w.latest.Some? {
        var f := w.flights[w.latest.value];
        if Watched(w, f) { DeliverCovers(w, v.(queued := w.queued), f); }
      } else {
        NoTrigger(w.log[w.cached].state, w.log[v.cached].state);
      }
    }
  }

  lemma LaunchCovers(env: Platform, w: State, a: Action)
    requires Cover(w) && Enabled(env, w, a) && (a.StartQueued? || a.StartDirect?)
    ensures Cover(Next(env, w, a))
  {
    var v := Next(env, w, a);
    if a.StartDirect? && w.latest.Some? { WatchedFrame(w, v, w.flights[w.latest.value]); }
  }

  lemma RestartCovers(env: Platform, w: State, on: bool)
    requires Cover(w) && Enabled(env, w, Restart(on))
    ensures Cover(Next(env, w, Restart(on)))
  {
  }

  lemma MovedRunning(env: Platform, w: State, a: Action)
    requires Lawful(env) && Inv(env, w) && OfFlight(a) && Enabled(env, w, a)
    ensures Live(Moved(env, w, a)) <==> Moved(env, w, a).pass.ending.Running?
  {
    hide Inv, FlightsOk, FlightOk, Moved, Wrote, Put, Next, Lawful;
    StepKeeps(env, w, a);
    NextIsPut(env, w, a);
    WroteExtends(env, w, a);
    PutAt(Wrote(w, a), a.i, Moved(env, w, a));
    InvRunning(env, Next(env, w, a), a.i);
  }

  lemma InvRunning(env: Platform, w: State, i: nat)
    requires Inv(env, w) && i < |w.flights|
    ensures Live(w.flights[i]) <==> w.flights[i].pass.ending.Running?
  {
    hide LoadedOk, Lineage, Authored;
    assert FlightOk(env, w.log, w.flights[i]);
  }

  lemma MovedFacts(env: Platform, w: State, a: Action)
    requires OfFlight(a) && Enabled(env, w, a) && w.flights[a.i].pass.ending.Running?
    ensures var f, g := w.flights[a.i], Moved(env, w, a);
            && g.origin == f.origin && (!a.Fetch? ==> g.readAt == f.readAt)
            && Live(f) && g.pass.phase != Fetching
            && !g.pass.ending.Crashed? && !g.pass.ending.Untracked?
  {
    hide ParseConfig, Decide, MergeApply, MergeDiff, Landing, DeleteStep, View;
  }

  lemma FlightCovers(env: Platform, w: State, a: Action)
    requires Lawful(env) && Inv(env, w) && Cover(w) && OfFlight(a) && Enabled(env, w, a)
    requires !a.Fetch? && !a.FetchFails?
    ensures Cover(Next(env, w, a))
  {
    hide Cover, Put, Moved, FlightOk, Lineage, Authored, Landing, DeleteStep;
    var v := Wrote(w, a);
    LiveIsRunning(env, w, a.i);
    MovedRunning(env, w, a);
    MovedFacts(env, w, a);
    WroteExtends(env, w, a);
    WriteCovers(w, v);
    MoveOn(v, a.i, Moved(env, w, a));
  }

  lemma StepCovers(env: Platform, w: State, a: Action)
    requires Lawful(env) && Inv(env, w) && Cover(w) && Enabled(env, w, a)
    ensures Cover(Next(env, w, a))
  {
    hide Inv, Cover, Put, Fetched, Landing, DeleteStep, PatchFailed, OnGet;
    match a
    case Tick(to) => TickCovers(w, w.(clock := to));
    case UserWrite(anns) => UserCovers(w, anns);
    case Deliver => DeliveryCovers(env, w);
    case Fire => FireCovers(w);
    case Track(on) => TickCovers(w, w.(tracked := on));
    case StartQueued => LaunchCovers(env, w, a);
    case StartDirect => LaunchCovers(env, w, a);
    case Restart(on) => RestartCovers(env, w, on);
    case Fetch(i, at, filtered) => ReadOn(env, w, i, at, filtered);
    case FetchFails(i) => FailOn(env, w, i);
    case TellTime(i) => FlightCovers(env, w, a);
    case PatchLost(i) => FlightCovers(env, w, a);
    case PatchLands(i, _) => FlightCovers(env, w, a);
    case JobAnswer(i, _) => FlightCovers(env, w, a);
    case DeleteArrives(i, _) => FlightCovers(env, w, a);
    case DeleteLost(i) => FlightCovers(env, w, a);
  }

  lemma TickCovers(w: State, v: State)
    requires Cover(w) && v == w.(clock := v.clock, tracked := v.tracked)
    ensures Cover(v)
  {
    if w.latest.Some? { WatchedFrame(w, v, w.flights[w.latest.value]); }
  }

  lemma UserCovers(w: State, anns: Option<Anns>)
    requires Cover(w)
    ensures Cover(UserWrites(w, anns))
  {
    WriteCovers(w, UserWrites(w, anns));
  }

  lemma FireCovers(w: State)
    requires Cover(w)
    ensures Cover(w.(wake := None, queued := true))
  {
  }

  lemma {:induction false} RunCovers(env: Platform, w: State, run: seq<Action>)
    requires Lawful(env) && Inv(env, w) && Cover(w) && Possible(env, w, run)
    ensures Inv(env, After(env, w, run)) && Cover(After(env, w, run))
    decreases |run|
  {
    hide Inv, Cover;
    if run != [] {
      StepKeeps(env, w, run[0]);
      StepCovers(env, w, run[0]);
      RunCovers(env, Next(env, w, run[0]), run[1..]);
    }
  }

  lemma ReachableCovers(env: Platform, w: State)
    requires Lawful(env) && Reachable(env, w)
    ensures Inv(env, w) && Cover(w)
  {
    var start, run :| Initial(env, start) && Possible(env, start, run) && w == After(env, start, run);
    RunCovers(env, start, run);
  }

  // ---------- the theorem ----------

  // Something is still going to look at the object.
  predicate Pending(w: State)
  {
    w.queued || QueueBusy(w) || w.cached + 1 < |w.log|
  }

  // When the lease of o ends for a reconcile that read the clock at now.
  function LeaseEnd(env: Platform, o: Obj, now: int): int
    requires ParsedTTL(env, o.anns).Ok?
  {
    (match ParsedStart(env, o.anns) case Some(t) => t case None => now) + ParsedTTL(env, o.anns).value
  }

  // The last queue reconcile f saw the lease as it now is and asked to be woken in time: no later
  // than the end of the lease plus the time f itself took (or the longest delay there is).
  predicate WokenInTime(env: Platform, w: State, f: Flight, o: Obj)
    requires ParsedTTL(env, o.anns).Ok?
  {
    var e := LeaseEnd(env, o, f.pass.now);
    && f.pass.now < e
    && w.wake.Some? && w.wake.value <= f.endedAt + Delay(e, f.pass.now)
  }

  // The clock read exactly the end of the lease: not yet expired, and a delay of zero asks for nothing.
  predicate Tied(env: Platform, f: Flight, o: Obj)
    requires ParsedTTL(env, o.anns).Ok?
  {
    f.pass.ending.Active? && f.pass.now == LeaseEnd(env, o, f.pass.now)
  }

  // When nothing is pending, the latest queue reconcile is over and has seen the lease as it is.
  lemma LatestIsSteady(w: State)
    requires Cover(w) && !Pending(w) && Current(w).Some? && TTL in Current(w).value.anns
    ensures w.latest.Some? && w.latest.value < |w.flights|
    ensures var f := w.flights[w.latest.value];
            && !Live(f) && !f.pass.ending.Crashed?
            && (!f.pass.ending.Untracked? ==>
                  && Steady(w.log, f.readAt, |w.log| - 1) && f.readAt < |w.log|
                  && !f.pass.ending.GetError? && !f.pass.ending.DeleteError?
                  && (f.pass.ending.Active? && f.pass.ending.delay > 0 ==>
                        w.wake.Some? && w.wake.value <= f.endedAt + f.pass.ending.delay))
  {
    hide Steady;
    var f := w.flights[w.latest.value];
    assert !Live(f) by { assert !QueueBusy(w); }
  }

  lemma LatestWakes(env: Platform, w: State)
    requires Lawful(env) && Reachable(env, w) && !Pending(w)
    requires Current(w).Some? && !NoTTL(Current(w).value.anns)
    requires ParsedTTL(env, Current(w).value.anns).Ok?
    ensures w.latest.Some? && w.latest.value < |w.flights|
    ensures var f, o := w.flights[w.latest.value], Current(w).value;
            f.pass.ending.Untracked? || Tied(env, f, o) || WokenInTime(env, w, f, o)
  {
    hide FlightOk, Cover, Lineage, Authored, Pending, Reachable, Steady, ParsedTTL, ParsedStart;
    ReachableCovers(env, w);
    LatestIsSteady(w);
    var f := w.flights[w.latest.value];
    if !f.pass.ending.Untracked? {
      SteadyFlight(env, w.log, f, Current(w).value);
    }
  }

  // No lease is forgotten. In any reachable state with nothing queued, running from the queue or still to
  // be delivered, and the object there with a valid ttl: a wake-up is set no later than the end of the
  // lease plus the time the last queue reconcile took, or the longest delay there is; unless that
  // reconcile was gated by the namespace filter, or read exactly the end of the lease on its clock.
  lemma NoLeaseForgotten(env: Platform, w: State, o: Obj, ttl: int)
    requires Lawful(env) && Reachable(env, w)
    requires !w.queued && w.cached + 1 == |w.log| && w.log[w.cached].state == Some(o)
    requires forall f | f in w.flights :: f.origin == FromNamespace || f.pass.phase == Finished
    requires TTL in o.anns && o.anns[TTL] != "" && Duration.Parse(o.anns[TTL], env.wild) == Ok(ttl)
    ensures w.latest.Some? && w.latest.value < |w.flights|
    ensures var f := w.flights[w.latest.value];
            var start := if LeaseStart in o.anns && o.anns[LeaseStart] != "" && env.parse(o.anns[LeaseStart]).Some?
                         then env.parse(o.anns[LeaseStart]).value else f.pass.now;
            var e := start + ttl;
            var delay := if e - f.pass.now > 9_223_372_036_854_775_807 then 9_223_372_036_854_775_807
                         else e - f.pass.now;
            || f.pass.ending == Untracked
            || (f.pass.ending.Active? && f.pass.now == e)
            || (f.pass.now < e && w.wake.Some? && w.wake.value <= f.endedAt + delay)
  {
    hide Reachable, Duration.Parse;
    LatestWakes(env, w);
  }

  lemma RelevantSame(env: Platform, a: Anns, b: Anns)
    requires Relevant(a) == Relevant(b)
    ensures SameAt(a, b, TTL) && SameAt(a, b, LeaseStart)
    ensures ParsedStart(env, a) == ParsedStart(env, b) && ParsedTTL(env, a) == ParsedTTL(env, b)
    ensures NoTTL(a) == NoTTL(b)
  {
    hide Duration.Parse;
    forall k | k in RELEVANT ensures SameAt(a, b, k) {
      assert k in Relevant(a) <==> k in a;
      assert k in Relevant(b) <==> k in b;
      if k in a { assert Relevant(a)[k] == a[k]; }
      if k in b { assert Relevant(b)[k] == b[k]; }
    }
  }

  // A finished reconcile over whose lifetime the lease did not change ended active or in a tie.
  lemma SteadyFlight(env: Platform, log: seq<Version>, f: Flight, o: Obj)
    requires Lawful(env) && FlightOk(env, log, f) && !Live(f) && f.readAt < |log|
    requires log != [] && Exists(log, |log| - 1) && At(log, |log| - 1) == o
    requires Steady(log, f.readAt, |log| - 1)
    requires !NoTTL(o.anns) && ParsedTTL(env, o.anns).Ok?
    requires !f.pass.ending.Untracked? && !f.pass.ending.GetError? && !f.pass.ending.DeleteError?
    requires !f.pass.ending.Crashed?
    ensures var e := LeaseEnd(env, o, f.pass.now);
            f.pass.ending == Active(Delay(e, f.pass.now)) && f.pass.now <= e
  {
    hide Duration.Parse, MergeApply;
    assert Exists(log, f.readAt);
    var s := f.seen.value;
    KeptStart(env, s, At(log, f.readAt));
    RelevantSame(env, At(log, f.readAt).anns, o.anns);
    assert !f.pass.ending.Expired? by { assert f.pass.ending.Expired? ==> Exists(log, f.goneAt); }
    assert Timed(f.pass);
    if f.begunAt.Some? {
      var m := f.begunAt.value;
      RelevantSame(env, At(log, m).anns, o.anns);
      StartLands(env, map[], s.anns, f.pass.now);
      assert false;
    }
  }
}

// The invariant holds in every reachable state.
module WorldRuns {
  import opened Wrappers
  import opened Kube
  import opened LeasePass
  import opened World
  import opened WorldInvariant

  // The end time of a flight plays no part.
  lemma EndTime(env: Platform, log: seq<Version>, flights: seq<Flight>, i: nat, f: Flight, t: int)
    requires i < |flights|
    requires FlightOk(env, log, f) && Authored(log, flights[i := f])
    ensures FlightOk(env, log, f.(endedAt := t)) && Authored(log, flights[i := f.(endedAt := t)])
  {
    var before, after := flights[i := f], flights[i := f.(endedAt := t)];
    forall j: nat | j < |log| ensures AuthoredAt(log, after, j) {
      assert AuthoredAt(log, before, j);
    }
  }

  // Replacing one flight by its next state.
  lemma PutKeeps(env: Platform, v: State, i: nat, f: Flight)
    requires env.lo <= v.clock < env.hi && Lineage(v.log) && v.cached < |v.log|
    requires i < |v.flights| && FlightOk(env, v.log, f)
    requires FlightsOk(env, v.log, v.flights) && Authored(v.log, v.flights[i := f])
    ensures Inv(env, Put(v, i, f))
  {
    hide FlightOk, AuthoredAt, Lineage;
    EndTime(env, v.log, v.flights, i, f, v.clock);
  }

  // A step of a live flight that writes nothing.
  lemma QuietStep(env: Platform, w: State, i: nat, f: Flight)
    requires Inv(env, w) && i < |w.flights| && Live(w.flights[i]) && FlightOk(env, w.log, f)
    ensures Inv(env, Put(w, i, f))
  {
    LiveIsRunning(env, w, i);
    hide FlightOk, Lineage, AuthoredAt;
    AuthoredKept(w.log, w.flights, w.flights[i := f]);
    PutKeeps(env, w, i, f);
  }

  lemma LiveIsRunning(env: Platform, w: State, i: nat)
    requires FlightsOk(env, w.log, w.flights) && i < |w.flights| && Live(w.flights[i])
    ensures w.flights[i].pass.ending.Running? && FlightOk(env, w.log, w.flights[i])
  {
  }

  // A write by a user or the controller that continues the log.
  lemma WriteKeeps(env: Platform, w: State, v: Version)
    requires Inv(env, w)
    requires v.state.Some? ==>
               v.state.value.uid == if Current(w).Some? then Current(w).value.uid else |w.log|
    requires AuthoredAt(w.log + [v], w.flights, |w.log|)
    ensures Inv(env, w.(log := w.log + [v]))
  {
    hide FlightOk, AuthoredAt;
    LineageGrows(w.log, v);
    FlightsGrow(env, w.log, [v], w.flights);
    AuthoredGrows(w.log, v, w.flights);
  }

  lemma UserKeeps(env: Platform, w: State, anns: Option<Anns>)
    requires Inv(env, w)
    ensures Inv(env, UserWrites(w, anns))
  {
    hide FlightOk, Lineage;
    var v := UserWrites(w, anns);
    if v != w { WriteKeeps(env, w, v.log[|w.log|]); }
  }

  lemma LandingKeeps(env: Platform, w: State, i: nat, refresh: bool)
    requires Lawful(env) && Inv(env, w)
    requires i < |w.flights| && Patching(w.flights[i].pass.phase) && Current(w).Some?
    ensures var v := Landing(w, i); Inv(env, Put(v, i, Acknowledged(env, w.flights[i], v.log, refresh)))
  {
    hide FlightOk, Lineage, AuthoredAt, Landing, Acknowledged, Put;
    LiveIsRunning(env, w, i);
    LandingShape(w, i);
    LandedOk(env, w, i, refresh);
    var v := Landing(w, i);
    LandingWriteKeeps(env, w, i);
    QuietStep(env, v, i, Acknowledged(env, w.flights[i], v.log, refresh));
  }

  lemma LandingWriteKeeps(env: Platform, w: State, i: nat)
    requires Inv(env, w)
    requires i < |w.flights| && Patching(w.flights[i].pass.phase) && Current(w).Some?
    ensures Inv(env, Landing(w, i))
  {
    hide FlightOk, Lineage, Landing;
    LandingShape(w, i);
    var v := Landing(w, i);
    if v.log != w.log {
      LandingFrame(env, w, i);
      WriteKeeps(env, w, v.log[|w.log|]);
      assert v == w.(log := w.log + [v.log[|w.log|]]);
    } else {
      assert v == w;
    }
  }

  // The controller's patch keeps every key that is not its own.
  lemma LandingFrame(env: Platform, w: State, i: nat)
    requires Inv(env, w)
    requires i < |w.flights| && Patching(w.flights[i].pass.phase) && Current(w).Some?
    ensures SameOutside(Current(w).value.anns, Current(Landing(w, i)).value.anns)
  {
    hide Lineage, Authored, MergeApply, MergeDiff, Landing;
    var p := w.flights[i].pass;
    LandingShape(w, i);
    assert SameOutside(p.base, p.obj.anns) by { LiveIsRunning(env, w, i); }
    forall k | k !in OUTPUTS ensures SameAt(Current(w).value.anns, Current(Landing(w, i)).value.anns, k) {
      MergeOnAny(Current(w).value.anns, p.base, p.obj.anns, k);
    }
  }

  lemma DeleteKeeps(env: Platform, w: State, i: nat, a: DeleteAnswer)
    requires Inv(env, w) && InPhase(w, i, Deleting)
    requires a == Refused || a == DeleteReply(w, w.flights[i])
    ensures var v := DeleteStep(w, i);
            Inv(env, Put(v, i, w.flights[i].(pass := OnDelete(w.flights[i].pass, a), goneAt := |v.log| - 1)))
  {
    hide AuthoredAt, Lineage, Put, FlightOk;
    var f, v := w.flights[i], DeleteStep(w, i);
    var g := f.(pass := OnDelete(f.pass, a), goneAt := |v.log| - 1);
    LiveIsRunning(env, w, i);
    DeletingFacts(env, w.log, f);
    if v == w {
      DeletedOk(env, w.log, f, a, |w.log| - 1);
      QuietStep(env, w, i, g);
    } else {
      RemovalKeeps(env, w, i, a);
    }
  }

  lemma DeletingFacts(env: Platform, log: seq<Version>, f: Flight)
    requires FlightOk(env, log, f) && f.pass.phase == Deleting
    ensures f.seen.Some? && f.readAt < |log| && f.viewAt < |log|
  {
  }

  lemma RemovalKeeps(env: Platform, w: State, i: nat, a: DeleteAnswer)
    requires Inv(env, w) && InPhase(w, i, Deleting) && DeleteStep(w, i) != w
    requires w.flights[i].seen.Some? && w.flights[i].readAt < |w.log| && w.flights[i].viewAt < |w.log|
    ensures Inv(env, Put(DeleteStep(w, i), i,
                         w.flights[i].(pass := OnDelete(w.flights[i].pass, a), goneAt := |w.log|)))
  {
    hide FlightOk, AuthoredAt, Lineage, Put;
    var f, v := w.flights[i], DeleteStep(w, i);
    var ver := v.log[|w.log|];
    var g := f.(pass := OnDelete(f.pass, a), goneAt := |w.log|);
    LiveIsRunning(env, w, i);
    FlightGrows(env, w.log, [ver], f);
    DeletedOk(env, v.log, f, a, |w.log|);
    AuthoredKept(w.log, w.flights, w.flights[i := g]);
    RemovalAuthored(w, i, g);
    AuthoredGrows(w.log, ver, w.flights[i := g]);
    LineageGrows(w.log, ver);
    FlightsGrow(env, w.log, [ver], w.flights);
    PutKeeps(env, v, i, g);
  }

  lemma RemovalAuthored(w: State, i: nat, g: Flight)
    requires w.log != [] && i < |w.flights| && DeleteStep(w, i) != w
    requires g.pass.obj == w.flights[i].pass.obj && g.seen.Some? && g.viewAt < |w.log|
    requires g.pass.ending.Expired? || g.pass.ending.DeleteError?
    ensures AuthoredAt(DeleteStep(w, i).log, w.flights[i := g], |w.log|)
  {
  }

  lemma LaunchKeeps(env: Platform, w: State, origin: Origin)
    requires Inv(env, w)
    ensures Inv(env, Launch(w, origin))
  {
    var v := Launch(w, origin);
    AuthoredKept(w.log, w.flights, v.flights);
  }

  lemma CrashKeeps(env: Platform, w: State, on: bool)
    requires Inv(env, w)
    ensures Inv(env, Next(env, w, Restart(on)))
  {
    var v := Next(env, w, Restart(on));
    forall i: nat | i < |v.flights| ensures FlightOk(env, v.log, v.flights[i]) {
      CrashOk(env, w.log, w.flights[i]);
    }
    AuthoredKept(w.log, w.flights, v.flights);
  }

  lemma CrashOk(env: Platform, log: seq<Version>, f: Flight)
    requires FlightOk(env, log, f)
    ensures FlightOk(env, log, Crash(f)) && (Crash(f) == f || f.pass.ending.Running?)
  {
  }

  lemma StepKeeps(env: Platform, w: State, a: Action)
    requires Lawful(env) && Inv(env, w) && Enabled(env, w, a)
    ensures Inv(env, Next(env, w, a))
  {
    hide FlightOk, Lineage, Authored, FlightsOk, Fetched, PatchFailed, Landing, DeleteStep, Acknowledged, Put;
    match a
    case UserWrite(anns) => UserKeeps(env, w, anns);
    case StartQueued => LaunchKeeps(env, w, FromQueue);
    case StartDirect => LaunchKeeps(env, w, FromNamespace);
    case Restart(on) => CrashKeeps(env, w, on);
    case Fetch(i, at, filtered) =>
      LiveIsRunning(env, w, i);
      FetchedOk(env, w, w.flights[i], at, filtered);
      QuietStep(env, w, i, Fetched(w, w.flights[i], at, filtered));
    case FetchFails(i) => FetchFailsKeeps(env, w, i);
    case TellTime(i) =>
      LiveIsRunning(env, w, i);
      var f := w.flights[i];
      TimedOk(env, w, f);
      QuietStep(env, w, i, f.(pass := OnClock(env, f.pass, w.clock), decidedAt := f.viewAt));
    case PatchLost(i) =>
      LiveIsRunning(env, w, i);
      PatchFailedOk(env, w.log, w.flights[i]);
      QuietStep(env, w, i, PatchFailed(env, w.flights[i]));
    case PatchLands(i, refresh) => LandingKeeps(env, w, i, refresh);
    case JobAnswer(i, ok) =>
      LiveIsRunning(env, w, i);
      var f := w.flights[i];
      JobAnswerOk(env, w.log, f, ok);
      QuietStep(env, w, i, f.(pass := if f.pass.phase == Creating then OnCreate(f.pass, ok) else OnAwait(f.pass, ok)));
    case DeleteArrives(i, told) =>
      DeleteKeeps(env, w, i, if told then DeleteReply(w, w.flights[i]) else Refused);
    case DeleteLost(i) => DeleteLostKeeps(env, w, i);
    case _ =>
  }

  lemma FetchFailsKeeps(env: Platform, w: State, i: nat)
    requires Inv(env, w) && Enabled(env, w, FetchFails(i))
    ensures Inv(env, Next(env, w, FetchFails(i)))
  {
    var f := w.flights[i];
    LiveIsRunning(env, w, i);
    QuietStep(env, w, i, f.(pass := OnGet(f.pass, GetFailed)));
  }

  lemma DeleteLostKeeps(env: Platform, w: State, i: nat)
    requires Inv(env, w) && Enabled(env, w, DeleteLost(i))
    ensures Inv(env, Next(env, w, DeleteLost(i)))
  {
    var f := w.flights[i];
    LiveIsRunning(env, w, i);
    DeletedOk(env, w.log, f, Refused, f.goneAt);
    QuietStep(env, w, i, f.(pass := OnDelete(f.pass, Refused)));
  }

  lemma {:induction false} RunKeeps(env: Platform, w: State, run: seq<Action>)
    requires Lawful(env) && Inv(env, w) && Possible(env, w, run)
    ensures Inv(env, After(env, w, run))
    decreases |run|
  {
    if run != [] {
      StepKeeps(env, w, run[0]);
      RunKeeps(env, Next(env, w, run[0]), run[1..]);
    }
  }

  lemma ReachableKeeps(env: Platform, w: State)
    requires Lawful(env) && Reachable(env, w)
    ensures Inv(env, w)
  {
    var start, run :| Initial(env, start) && Possible(env, start, run) && w == After(env, start, run);
    RunKeeps(env, start, run);
  }

  // ---------- what may happen ----------

  // Whatever a reconcile waits for, every answer is possible at any time.
  lemma AnyAnswer(env: Platform, w: State, i: nat, flag: bool)
    requires Lawful(env) && Reachable(env, w) && i < |w.flights|
    ensures match w.flights[i].pass.phase
            case Fetching =>
              && w.cached < |w.log| && Enabled(env, w, FetchFails(i))
              && Enabled(env, w, Fetch(i, w.cached, flag)) && Enabled(env, w, Fetch(i, |w.log| - 1, flag))
            case Clocking => Enabled(env, w, TellTime(i))
            case Creating => Enabled(env, w, JobAnswer(i, flag))
            case Awaiting => Enabled(env, w, JobAnswer(i, flag))
            case Deleting => Enabled(env, w, DeleteArrives(i, flag)) && Enabled(env, w, DeleteLost(i))
            case Finished => true
            case _ =>
              && Enabled(env, w, PatchLost(i))
              && (w.log[|w.log| - 1].state.Some? ==> Enabled(env, w, PatchLands(i, flag)))
  {
    hide Lawful, Reachable, Inv;
    ReachableKeeps(env, w);
    InvSane(env, w, i);
  }

  lemma InvSane(env: Platform, w: State, i: nat)
    requires Inv(env, w) && i < |w.flights|
    ensures Sane(w.flights[i].pass) && w.cached < |w.log|
  {
    hide LoadedOk, Lineage, Authored;
    assert FlightOk(env, w.log, w.flights[i]);
  }

  // Users, time, the informer, timers, the namespace filter and the process itself act at will; the
  // queue starts what is queued when nothing it has started is running.
  lemma AnyTime(env: Platform, w: State, anns: Option<Anns>, to: int, on: bool)
    requires Lawful(env) && Reachable(env, w)
    ensures Enabled(env, w, UserWrite(anns)) && Enabled(env, w, Track(on)) && Enabled(env, w, Restart(on))
    ensures Enabled(env, w, StartDirect) && (w.clock <= to < env.hi ==> Enabled(env, w, Tick(to)))
    ensures w.cached + 1 < |w.log| ==> Enabled(env, w, Deliver)
    ensures w.wake.Some? && w.wake.value <= w.clock ==> Enabled(env, w, Fire)
    ensures w.queued ==>
              || Enabled(env, w, StartQueued)
              || exists f :: f in w.flights && f.origin == FromQueue && f.pass.phase != Finished
  {
    ReachableKeeps(env, w);
    hide Reachable, Authored, FlightsOk;
  }

  // What a user's write does: the object carries exactly the annotations written, under the uid it had or,
  // if it was not there, one no earlier object had.
  lemma UserWriteMeans(env: Platform, w: State, anns: Option<Anns>)
    requires Lawful(env) && Reachable(env, w)
    ensures Enabled(env, w, UserWrite(anns))
    ensures var v := Next(env, w, UserWrite(anns));
            && w.log <= v.log && v.log != [] && w.log != []
            && var before, after := w.log[|w.log| - 1].state, v.log[|v.log| - 1].state;
            && (anns == None ==> after == None)
            && (anns.Some? ==>
                  && after.Some? && after.value.anns == anns.value
                  && (before.Some? ==> after.value.uid == before.value.uid)
                  && (before == None ==>
                        forall k: nat | k < |w.log| && w.log[k].state.Some? ::
                          w.log[k].state.value.uid != after.value.uid))
  {
    ReachableKeeps(env, w);
    hide Reachable, Authored, FlightsOk, Triggers;
    forall k: nat | k < |w.log| && w.log[k].state.Some? ensures w.log[k].state.value.uid <= k {
      assert LineageAt(w.log, k);
    }
  }
}

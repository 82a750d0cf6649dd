// Reconciles started by the namespace listener throw their result away. Exactly when does the
// queue hear of the object nevertheless?
module NamespacePath {
  import opened Wrappers
  import opened Kube
  import opened LeasePass
  import opened World
  import opened WorldInvariant
  import opened WorldRuns
  import opened Safety
  import opened SelfTrigger

  // Flight i alone gets answers, and events are delivered.
  predicate DirectStep(i: nat, a: Action) {
    a.Tick? || a.Deliver? || (OfFlight(a) && a.i == i)
  }

  predicate DirectRun(i: nat, run: seq<Action>) {
    forall k: nat | k < |run| :: DirectStep(i, run[k])
  }

  // It can read the object and its patches land; the job and the delete may go either way.
  predicate Lands(a: Action) { !a.FetchFails? && !a.PatchLost? }

  predicate AllLand(run: seq<Action>) {
    forall k: nat | k < |run| :: Lands(run[k])
  }

  predicate PastStart(p: Pass) {
    p.phase in {Marking, Activating, Expiring, Creating, Awaiting, Deleting, Finished}
  }

  // Once the start is settled, or the leftovers are gone, the measure is zero.
  predicate Tidy(env: Platform, f: Flight, s: Option<Obj>) {
    PastStart(f.pass) ==> !Unsettled(env, s)
  }

  predicate Direct(env: Platform, w: State, i: nat, since: nat, landed: bool) {
    && i + 1 == |w.flights| && w.flights[i].origin == FromNamespace
    && w.wake == None && since <= w.cached < |w.log|
    && (forall k: nat | since < k < |w.log| :: w.log[k].author.ByFlight?)
    && (landed ==> Tidy(env, w.flights[i], Current(w)))
  }

  lemma SettledByRelevant(env: Platform, a: Anns, b: Anns, s: Obj, t: Obj)
    requires s.anns == a && t.anns == b && Relevant(a) == Relevant(b)
    ensures Unsettled(env, Some(s)) == Unsettled(env, Some(t))
  {
    MuByRelevant(env, s, t);
  }

  lemma FetchTidy(env: Platform, w: State, f: Flight, filtered: bool)
    requires w.log != [] && f.pass.phase == Fetching
    ensures Tidy(env, Fetched(w, f, |w.log| - 1, filtered), Current(w))
  {
    if Current(w).Some? {
      var o := Current(w).value;
      var v := View(o, filtered);
      ViewIsRelevant(o, filtered);
      SettledByRelevant(env, v.anns, o.anns, v, o);
    }
  }

  lemma TimeTidy(env: Platform, f: Flight, s: Obj, t: int, at: nat)
    requires f.pass.phase == Clocking && Relevant(f.pass.obj.anns) == Relevant(s.anns)
    requires !NoTTL(f.pass.obj.anns)
    ensures Tidy(env, f.(pass := OnClock(env, f.pass, t), decidedAt := at), Some(s))
  {
    hide Decide;
    SettledByRelevant(env, f.pass.obj.anns, s.anns, f.pass.obj, s);
  }

  lemma LandTidy(env: Platform, w: State, i: nat, refresh: bool)
    requires Lawful(env) && i < |w.flights| && FlightOk(env, w.log, w.flights[i])
    requires Patching(w.flights[i].pass.phase) && Current(w).Some?
    requires Fresh(w.flights[i], Current(w)) && Tidy(env, w.flights[i], Current(w))
    ensures Tidy(env, Acknowledged(env, w.flights[i], Landing(w, i).log, refresh), Current(Landing(w, i)))
  {
    var p, o := w.flights[i].pass, Current(w).value;
    PatchingFacts(env, w.log, w.flights[i]);
    CleaningFacts(env, w.log, w.flights[i]);
    LandingShape(w, i);
    hide FlightOk, MergeApply, MergeDiff, Landing, Unsettled, Triggers, Acknowledged;
    if p.phase == Starting {
      StartPatch(env, o, p.base, p.now);
    } else if p.phase == Cleaning {
      CleanPatch(env, o, p.base);
    } else {
      NeutralPatch(o.anns, p.base, p.obj.anns);
      MuByRelevant(env, o, Current(Landing(w, i)).value);
    }
    assert !Unsettled(env, Current(Landing(w, i)));
  }

  lemma DirectKeeps(env: Platform, w: State, i: nat, since: nat, landed: bool, a: Action)
    requires Lawful(env) && Inv(env, w) && Calm(w) && Direct(env, w, i, since, landed)
    requires Enabled(env, w, a) && CalmStep(w, a) && DirectStep(i, a)
    ensures var v := Next(env, w, a);
            && Direct(env, v, i, since, landed && Lands(a))
            && (v.queued <==> w.queued || Caused(w, a) == 1)
  {
    if OfFlight(a) {
      CalmLast(env, w, a);
      hide FlightOk, Lineage, Authored, FlightsOk, Calm, Fresh, Tidy, Put, Next, Moved, Wrote, Unsettled;
      NextIsPut(env, w, a);
      if landed && Lands(a) { MovedTidy(env, w, a); }
      DirectPut(env, w, i, since, landed, a);
    } else {
      hide Inv, Calm;
      DirectDelivers(env, w, i, since, landed, a);
    }
  }

  lemma DirectDelivers(env: Platform, w: State, i: nat, since: nat, landed: bool, a: Action)
    requires Direct(env, w, i, since, landed) && !OfFlight(a) && Enabled(env, w, a) && DirectStep(i, a)
    ensures var v := Next(env, w, a);
            && Direct(env, v, i, since, landed && Lands(a))
            && (v.queued <==> w.queued || Caused(w, a) == 1)
  {
    hide Unsettled, Triggers;
  }

  // The job and the delete change nothing the measure sees, but for the object going away.
  lemma LateTidy(env: Platform, w: State, a: Action)
    requires a.JobAnswer? || a.DeleteArrives? || a.DeleteLost?
    requires OfFlight(a) && Enabled(env, w, a) && Tidy(env, w.flights[a.i], Current(w))
    ensures Tidy(env, Moved(env, w, a), Current(Wrote(w, a)))
  {
    hide NoTTL, ParsedStart;
  }

  lemma MovedTidy(env: Platform, w: State, a: Action)
    requires Lawful(env) && OfFlight(a) && Enabled(env, w, a) && CalmStep(w, a) && Lands(a)
    requires FlightOk(env, w.log, w.flights[a.i]) && Fresh(w.flights[a.i], Current(w))
    requires Tidy(env, w.flights[a.i], Current(w))
    ensures Tidy(env, Moved(env, w, a), Current(Wrote(w, a)))
  {
    var f := w.flights[a.i];
    assert a.TellTime? ==> f.seen.Some? && !NoTTL(f.pass.obj.anns);
    hide FlightOk, Acknowledged, Landing, Fetched, OnClock, Tidy, PatchFailed, DeleteStep;
    match a
    case Fetch(i, at, filtered) => FetchTidy(env, w, f, filtered);
    case TellTime(i) => TimeTidy(env, f, Current(w).value, w.clock, f.viewAt);
    case PatchLands(i, refresh) => LandTidy(env, w, i, refresh);
    case _ => LateTidy(env, w, a);
  }

  lemma DirectPut(env: Platform, w: State, i: nat, since: nat, landed: bool, a: Action)
    requires Direct(env, w, i, since, landed) && OfFlight(a) && Enabled(env, w, a) && DirectStep(i, a)
    requires landed && Lands(a) ==> Tidy(env, Moved(env, w, a), Current(Wrote(w, a)))
    ensures var v := Put(Wrote(w, a), i, Moved(env, w, a));
            Direct(env, v, i, since, landed && Lands(a)) && v.queued == w.queued
  {
    DirectWrites(env, w, i, since, landed, a);
    MovedOrigin(env, w, a);
    hide Moved, Wrote, Enabled, Unsettled;
    PutDirect(env, Wrote(w, a), i, Moved(env, w, a));
  }

  lemma PutDirect(env: Platform, v: State, i: nat, f: Flight)
    requires v.log != [] && i < |v.flights| && f.origin == FromNamespace
    ensures var u := Put(v, i, f);
            && u.log == v.log && u.cached == v.cached && u.wake == v.wake && u.queued == v.queued
            && |u.flights| == |v.flights| && u.flights[i].origin == f.origin
            && (Tidy(env, u.flights[i], Current(u)) <==> Tidy(env, f, Current(v)))
  {
    hide Unsettled;
  }

  lemma MovedOrigin(env: Platform, w: State, a: Action)
    requires OfFlight(a) && Enabled(env, w, a)
    ensures Moved(env, w, a).origin == w.flights[a.i].origin
  {
    hide OnPatch, OnClock, OnGet, OnCreate, OnAwait, OnDelete, Landing, DeleteStep, View;
  }

  lemma DirectWrites(env: Platform, w: State, i: nat, since: nat, landed: bool, a: Action)
    requires Direct(env, w, i, since, landed) && OfFlight(a) && Enabled(env, w, a) && DirectStep(i, a)
    ensures var v := Wrote(w, a);
            && v == w.(log := v.log) && w.cached < |v.log|
            && forall k: nat | since < k < |v.log| :: v.log[k].author.ByFlight?
  {
    hide Unsettled, MergeApply, MergeDiff, Landing;
    if a.PatchLands? { LandingShape(w, i); }
  }

  // The delete of a settled object costs no events either.
  lemma DeletePotential(env: Platform, w: State, a: Action)
    requires a.DeleteArrives? && Enabled(env, w, a) && w.cached < |w.log| && !Unsettled(env, Current(w))
    ensures w.cached < |Wrote(w, a).log| && Potential(env, Wrote(w, a)) == Potential(env, w)
  {
    hide NoTTL, ParsedStart;
    var v := DeleteStep(w, a.i);
    if v.log != w.log { BacklogSnoc(w.log, v.log[|w.log|], w.cached + 1); }
  }

  lemma DirectBalance(env: Platform, w: State, i: nat, since: nat, a: Action)
    requires Lawful(env) && Inv(env, w) && Calm(w) && Direct(env, w, i, since, true)
    requires Enabled(env, w, a) && CalmStep(w, a) && DirectStep(i, a) && Lands(a)
    ensures Balanced(env, w, a, Next(env, w, a))
    ensures Caused(w, a) + Potential(env, Next(env, w, a)) == Potential(env, w)
  {
    hide Inv, Calm, Potential, Next, Caused, CalmStep, Direct, Lands;
    StepBalance(env, w, a);
    CalmCached(Next(env, w, a));
    if a.DeleteArrives? { DirectDeletes(env, w, i, since, a); }
  }

  lemma DirectDeletes(env: Platform, w: State, i: nat, since: nat, a: Action)
    requires Direct(env, w, i, since, true) && a.DeleteArrives? && a.i == i && Enabled(env, w, a)
    requires Next(env, w, a).cached < |Next(env, w, a).log|
    ensures Caused(w, a) == 0 && Potential(env, Next(env, w, a)) == Potential(env, w)
  {
    hide Unsettled, Backlog, Mu, Put, Moved, Wrote, Next;
    DeletePotential(env, w, a);
    NextIsPut(env, w, a);
    WroteExtends(env, w, a);
    PutPotential(env, Wrote(w, a), i, Moved(env, w, a));
  }

  lemma {:induction false} DirectRunKeeps(env: Platform, w: State, i: nat, since: nat, landed: bool, run: seq<Action>)
    requires Lawful(env) && Inv(env, w) && Calm(w) && Direct(env, w, i, since, landed)
    requires CalmRun(env, w, run) && DirectRun(i, run)
    ensures Possible(env, w, run)
    ensures var v := After(env, w, run);
            && Direct(env, v, i, since, landed && AllLand(run))
            && (v.queued <==> w.queued || CausedIn(env, w, run) > 0)
            && w.cached < |w.log|
            && (landed && AllLand(run) ==>
                  CausedIn(env, w, run) + Potential(env, v) == Potential(env, w))
    decreases |run|
  {
    DirectCached(env, w, i, since, landed);
    hide Inv, Calm, Direct, Enabled, Next, CalmStep, Caused, Potential, Lands;
    if run != [] {
      assert DirectStep(i, run[0]);
      DirectStepKeeps(env, w, i, since, landed, run[0]);
      assert forall k: nat | k < |run[1..]| :: run[1..][k] == run[k + 1];
      assert AllLand(run) <==> Lands(run[0]) && AllLand(run[1..]) by {
        if Lands(run[0]) && AllLand(run[1..]) {
          forall k: nat | k < |run| ensures Lands(run[k]) {
            if k > 0 { assert Lands(run[1..][k - 1]); }
          }
        }
        if AllLand(run) {
          forall k: nat | k < |run[1..]| ensures Lands(run[1..][k]) { assert Lands(run[k + 1]); }
        }
      }
      DirectRunKeeps(env, Next(env, w, run[0]), i, since, landed && Lands(run[0]), run[1..]);
    }
  }

  lemma DirectCached(env: Platform, w: State, i: nat, since: nat, landed: bool)
    requires Direct(env, w, i, since, landed)
    ensures w.cached < |w.log|
  {
  }

  lemma DirectStepKeeps(env: Platform, w: State, i: nat, since: nat, landed: bool, a: Action)
    requires Lawful(env) && Inv(env, w) && Calm(w) && Direct(env, w, i, since, landed)
    requires Enabled(env, w, a) && CalmStep(w, a) && DirectStep(i, a)
    ensures var v := Next(env, w, a);
            && Inv(env, v) && Calm(v) && v.cached < |v.log| && w.cached < |w.log|
            && Direct(env, v, i, since, landed && Lands(a))
            && (v.queued <==> w.queued || Caused(w, a) > 0)
            && (landed && Lands(a) ==> Caused(w, a) + Potential(env, v) == Potential(env, w))
  {
    DirectCached(env, w, i, since, landed);
    hide Inv, Calm, Direct, Enabled, Next, CalmStep, Potential, Lands, OwnTrigger;
    StepBalance(env, w, a);
    StepKeeps(env, w, a);
    DirectKeeps(env, w, i, since, landed, a);
    DirectCached(env, Next(env, w, a), i, since, landed && Lands(a));
    if landed && Lands(a) { DirectBalance(env, w, i, since, a); }
  }

  // A quiet system: nothing queued, nothing in flight, nothing to deliver, no timer set.
  predicate Quiet(w: State) {
    && !w.queued && w.wake == None && NoneLive(w.flights, |w.flights|)
    && w.log != [] && w.cached + 1 == |w.log|
  }

  // From a quiet state, a reconcile started by the namespace listener that runs to its end, whatever
  // end that is, leaves no timer. Once its events are delivered the queue looks at the object again
  // only if it came with a ttl but no readable lease-start, or with a lease-start but no ttl; and if
  // it could be read and the patches landed, exactly then. A lease that is already under way gets its
  // annotations and nothing else, and a delete that was refused or lost is not tried again.
  lemma DirectPassRequeues(env: Platform, w: State, run: seq<Action>)
    requires Lawful(env) && Reachable(env, w) && Quiet(w) && w.tracked
    requires var i := |w.flights|;
             var v := Next(env, w, StartDirect);
             && CalmRun(env, v, run) && DirectRun(i, run)
             && Possible(env, v, run)
             && var end := After(env, v, run);
             && i < |end.flights| && !Live(end.flights[i]) && end.cached + 1 == |end.log|
    ensures var end := After(env, Next(env, w, StartDirect), run);
            && end.wake == None
            && (end.queued ==> Unsettled(env, Current(w)))
            && (AllLand(run) ==> (end.queued <==> Unsettled(env, Current(w))))
  {
    var i := |w.flights|;
    var v := Next(env, w, StartDirect);
    ReachableKeeps(env, w);
    StepKeeps(env, w, StartDirect);
    DirectStart(env, w);
    hide Inv, Reachable, Unsettled, Next, Direct, Backlog, CalmRun, Calm, AllLand, DirectRun;
    RunBalance(env, v, run);
    DirectRunKeeps(env, v, i, |w.log| - 1, true, run);
    DirectCount(env, w, After(env, v, run), CausedIn(env, v, run), i, AllLand(run));
  }

  lemma DirectStart(env: Platform, w: State)
    requires Quiet(w) && w.tracked
    ensures var v := Next(env, w, StartDirect);
            && Calm(v) && Direct(env, v, |w.flights|, |w.log| - 1, true)
            && !v.queued && Potential(env, v) == Mu(env, Current(w))
  {
    hide Unsettled;
  }

  lemma DirectCount(env: Platform, w: State, end: State, caused: nat, i: nat, landed: bool)
    requires w.log != [] && Direct(env, end, i, |w.log| - 1, landed)
    requires !Live(end.flights[i]) && end.cached + 1 == |end.log|
    requires end.queued <==> caused > 0
    requires caused + Potential(env, end) <= Mu(env, Current(w))
    requires landed ==> caused + Potential(env, end) == Mu(env, Current(w))
    ensures end.wake == None && (end.queued ==> Unsettled(env, Current(w)))
    ensures landed ==> (end.queued <==> Unsettled(env, Current(w)))
  {
    hide Unsettled;
    assert Backlog(end.log, end.cached + 1) == 0;
  }
}

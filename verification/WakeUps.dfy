// Where wake-ups come from: each one was asked for by a queue reconcile that found the lease active,
// and is not before the end that reconcile computed.
module WakeUps {
  import opened Wrappers
  import opened Kube
  import opened LeasePass
  import opened World
  import opened WorldInvariant
  import opened WorldRuns
  import opened Safety
  import opened Coverage
  import Duration

  predicate AskedBy(f: Flight, t: int) {
    f.origin == FromQueue && f.pass.ending.Active? && f.pass.ending.delay > 0
    && t == f.endedAt + f.pass.ending.delay
  }

  predicate Timely(f: Flight) { f.pass.ending.Active? ==> f.pass.now <= f.endedAt }

  ghost predicate Asked(w: State) {
    && (w.wake.Some? ==> exists k: nat :: k < |w.flights| && AskedBy(w.flights[k], w.wake.value))
    && forall k: nat | k < |w.flights| :: Timely(w.flights[k])
  }

  // Putting back a flight that was running.
  lemma PutAsked(v: State, i: nat, f: Flight)
    requires Asked(v) && i < |v.flights| && v.flights[i].pass.ending.Running?
    requires Honest(f, v.name, v.clock) && (Live(f) <==> f.pass.ending.Running?)
    ensures Asked(Put(v, i, f))
  {
    var w := Put(v, i, f);
    if v.wake.Some? {
      var k: nat :| k < |v.flights| && AskedBy(v.flights[k], v.wake.value);
      assert w.flights[k] == v.flights[k];
    }
    if w.wake.Some? && w.wake != v.wake { assert AskedBy(w.flights[i], w.wake.value); }
    forall k: nat | k < |w.flights| ensures Timely(w.flights[k]) {
      if k != i { assert w.flights[k] == v.flights[k]; }
    }
  }

  lemma FlightAsked(env: Platform, w: State, a: Action)
    requires Lawful(env) && Inv(env, w) && AllHonest(w) && Asked(w) && OfFlight(a) && Enabled(env, w, a)
    ensures Asked(Next(env, w, a))
  {
    MovedRunning(env, w, a);
    RunningFlight(env, w, a);
    hide Inv, Moved, Wrote, Put, Next, Enabled, Honest, Lawful;
    WroteExtends(env, w, a);
    MovedHonest(env, w, a);
    NextIsPut(env, w, a);
    SameAsked(w, Wrote(w, a));
    PutAsked(Wrote(w, a), a.i, Moved(env, w, a));
  }

  lemma SameAsked(w: State, v: State)
    requires Asked(w) && v.flights == w.flights && v.wake == w.wake
    ensures Asked(v)
  {
  }

  lemma OtherAsked(env: Platform, w: State, a: Action)
    requires Asked(w) && !OfFlight(a) && Enabled(env, w, a)
    ensures Asked(Next(env, w, a))
  {
    hide Triggers, UserWrites;
    var v := Next(env, w, a);
    if a.UserWrite? {
      UserAsked(w, a.anns);
    } else {
      forall k: nat | k < |v.flights| ensures Timely(v.flights[k]) {
        if k < |w.flights| { assert Timely(w.flights[k]); }
      }
      if v.wake.Some? {
        var k: nat :| k < |w.flights| && AskedBy(w.flights[k], w.wake.value);
        assert v.flights[k] == w.flights[k];
      }
    }
  }

  lemma UserAsked(w: State, anns: Option<Anns>)
    requires Asked(w) && w.log != []
    ensures Asked(UserWrites(w, anns))
  {
    hide Timely, AskedBy;
  }

  lemma {:induction false} RunAsked(env: Platform, w: State, run: seq<Action>)
    requires Lawful(env) && Inv(env, w) && AllHonest(w) && Asked(w) && Possible(env, w, run)
    ensures Inv(env, After(env, w, run)) && Asked(After(env, w, run))
    decreases |run|
  {
    hide Inv, AllHonest, Asked, Enabled, Next;
    if run != [] {
      StepKeeps(env, w, run[0]);
      StepHonest(env, w, run[0]);
      if OfFlight(run[0]) { FlightAsked(env, w, run[0]); } else { OtherAsked(env, w, run[0]); }
      RunAsked(env, Next(env, w, run[0]), run[1..]);
    }
  }

  // The reconcile that asked for the pending wake-up: it ended active, and the wake-up is not before
  // the end it computed, unless that is further away than the longest delay there is.
  lemma WakeIsDue(env: Platform, w: State) returns (k: nat)
    requires Lawful(env) && Reachable(env, w) && w.wake.Some?
    ensures k < |w.flights| && AskedBy(w.flights[k], w.wake.value)
    ensures var p := w.flights[k].pass;
            && p.ending == Active(Delay(p.expireAt, p.now))
            && (p.ending.delay < Duration.MAX64 ==> w.wake.value >= p.expireAt)
  {
    hide Enabled, Next, Lineage, Authored, FlightOk, AllHonest;
    var start, run :| Initial(env, start) && Possible(env, start, run) && w == After(env, start, run);
    InitialInv(env, start);
    RunAsked(env, start, run);
    k :| k < |w.flights| && AskedBy(w.flights[k], w.wake.value);
    assert Timely(w.flights[k]) && FlightOk(env, w.log, w.flights[k]);
    ActiveDelay(env, w.log, w.flights[k]);
  }

  lemma ActiveDelay(env: Platform, log: seq<Version>, f: Flight)
    requires FlightOk(env, log, f) && f.pass.ending.Active?
    ensures f.pass.ending == Active(Delay(f.pass.expireAt, f.pass.now))
  {
  }
}

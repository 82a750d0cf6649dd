// What the controller may delete and what it may write, over every interleaving of user edits,
// recreations, lost patches, crashes and any number of reconciles.
module Safety {
  import opened Wrappers
  import opened Kube
  import opened ObjectFilter
  import opened LeasePass
  import opened World
  import opened WorldInvariant
  import opened WorldRuns
  import opened CleanupJob

  // The lease start as a reconcile that read version k at time now takes it.
  function StartFrom(env: Platform, log: seq<Version>, k: nat, now: int): int
    requires Exists(log, k)
  {
    match ParsedStart(env, At(log, k).anns) case Some(t) => t case None => now
  }

  predicate NeverAbsent(log: seq<Version>, a: nat, b: nat) {
    forall k: nat | a <= k <= b < |log| :: log[k].state.Some?
  }

  // ---------- clocks and names ----------

  // A reconcile asks about its own name only, and no clock reading lies in the future.
  predicate Honest(f: Flight, name: string, clock: int) {
    f.pass.name == name && (Timed(f.pass) ==> f.pass.now <= clock)
  }

  predicate AllHonest(w: State) {
    forall i: nat | i < |w.flights| :: Honest(w.flights[i], w.name, w.clock)
  }

  lemma MovedHonest(env: Platform, w: State, a: Action)
    requires OfFlight(a) && Enabled(env, w, a) && Honest(w.flights[a.i], w.name, w.clock)
    requires w.flights[a.i].pass.ending.Running?
    ensures Honest(Moved(env, w, a), w.name, w.clock)
  {
    hide Decide, ParseConfig, Landing, DeleteStep, View, ParsedStart, DeleteReply;
  }

  lemma PutHonest(v: State, i: nat, f: Flight)
    requires AllHonest(v) && i < |v.flights| && Honest(f, v.name, v.clock)
    ensures AllHonest(Put(v, i, f))
  {
    assert Honest(f.(endedAt := v.clock), v.name, v.clock);
    hide Honest;
  }

  lemma StepHonest(env: Platform, w: State, a: Action)
    requires Inv(env, w) && AllHonest(w) && Enabled(env, w, a)
    ensures AllHonest(Next(env, w, a))
  {
    hide FlightOk, Lineage, Authored, FlightsOk, Moved, Wrote, Put;
    if OfFlight(a) {
      RunningFlight(env, w, a);
      MovedHonest(env, w, a);
      WroteExtends(env, w, a);
      PutHonest(Wrote(w, a), a.i, Moved(env, w, a));
    } else {
      OtherHonest(env, w, a);
    }
  }

  lemma RunningFlight(env: Platform, w: State, a: Action)
    requires Inv(env, w) && OfFlight(a) && Enabled(env, w, a)
    ensures w.flights[a.i].pass.ending.Running?
  {
    LiveIsRunning(env, w, a.i);
  }

  lemma OtherHonest(env: Platform, w: State, a: Action)
    requires AllHonest(w) && !OfFlight(a) && Enabled(env, w, a)
    ensures AllHonest(Next(env, w, a))
  {
    var v := Next(env, w, a);
    forall i: nat | i < |v.flights| ensures Honest(v.flights[i], v.name, v.clock) {
      if i < |w.flights| { assert Honest(w.flights[i], w.name, w.clock); }
    }
  }

  lemma {:induction false} RunHonest(env: Platform, w: State, run: seq<Action>)
    requires Lawful(env) && Inv(env, w) && AllHonest(w) && Possible(env, w, run)
    ensures AllHonest(After(env, w, run))
    decreases |run|
  {
    hide Inv, AllHonest, Enabled, Next;
    if run != [] {
      StepKeeps(env, w, run[0]);
      StepHonest(env, w, run[0]);
      RunHonest(env, Next(env, w, run[0]), run[1..]);
    }
  }

  // The request a flight is waiting on, in any reachable state: its own name, the difference
  // between its two copies, or a delete bound to the uid it last saw.
  lemma RequestsOfFlights(env: Platform, w: State, i: nat)
    requires Lawful(env) && Reachable(env, w) && i < |w.flights|
    ensures var p := w.flights[i].pass;
            && Sane(p) && p.name == w.name && (Timed(p) ==> p.now <= w.clock)
            && (Patching(p.phase) ==> Ask(p) == PatchObject(w.name, MergeDiff(p.base, p.obj.anns)))
            && (p.phase == Fetching ==> Ask(p) == GetObject(w.name))
            && (p.phase == Deleting ==> Ask(p) == DeleteObject(w.name, p.obj.uid))
  {
    hide MergeDiff;
    ReachableKeeps(env, w);
    var start, run :| Initial(env, start) && Possible(env, start, run) && w == After(env, start, run);
    InitialInv(env, start);
    RunHonest(env, start, run);
    assert FlightOk(env, w.log, w.flights[i]) && Honest(w.flights[i], w.name, w.clock);
  }

  lemma InitialInv(env: Platform, w: State)
    requires Initial(env, w)
    ensures Inv(env, w) && AllHonest(w)
  {
  }

  lemma WroteExtends(env: Platform, w: State, a: Action)
    requires OfFlight(a) && Enabled(env, w, a)
    ensures var v := Wrote(w, a); v == w.(log := v.log) && w.log <= v.log
  {
    hide MergeApply, MergeDiff;
  }

  // ---------- deletes ----------

  // Every delete the controller achieves is due, by the clock of the reconcile that issued it, and
  // hits the incarnation that reconcile last saw.
  lemma DeletionSafety(env: Platform, w: State, j: nat)
    requires Lawful(env) && Reachable(env, w)
    requires j < |w.log| && w.log[j].author.ByFlight? && w.log[j].state == None
    ensures var i := w.log[j].author.i;
            && i < |w.flights|
            && var f := w.flights[i];
            && f.readAt <= f.decidedAt <= f.viewAt < j
            && Exists(w.log, f.readAt) && Exists(w.log, f.decidedAt) && Exists(w.log, f.viewAt)
            && Exists(w.log, j - 1)
            // due
            && var ttl := ParsedTTL(env, At(w.log, f.decidedAt).anns);
            && ttl.Ok?
            && w.clock >= f.pass.now > StartFrom(env, w.log, f.readAt, f.pass.now) + ttl.value
            // a lease without a readable start is only deleted under a negative TTL
            && (ParsedStart(env, At(w.log, f.readAt).anns) == None ==> ttl.value < 0)
            // the incarnation last seen, alive ever since; one created later is out of reach
            && var uid := At(w.log, j - 1).uid;
            && uid == At(w.log, f.viewAt).uid && uid <= f.viewAt
            && NeverAbsent(w.log, f.viewAt, j - 1)
            // without a recreation on the way that is the incarnation that was read
            && (NeverAbsent(w.log, f.readAt, f.viewAt) ==> uid == At(w.log, f.readAt).uid)
  {
    ReachableKeeps(env, w);
    assert AuthoredAt(w.log, w.flights, j);
    var f := w.flights[w.log[j].author.i];
    RequestsOfFlights(env, w, w.log[j].author.i);
    assert FlightOk(env, w.log, f);
    hide Reachable, SameOutside;
    KeptStart(env, f.seen.value, At(w.log, f.readAt));
    assert LineageAt(w.log, j - 1) && LineageAt(w.log, f.viewAt);
    if NeverAbsent(w.log, f.readAt, f.viewAt) {
      SameIncarnation(w.log, f.readAt, f.viewAt);
    }
  }

  // The converse: a delete that arrives takes the object away exactly if the incarnation last seen is
  // still there, and only then, or when nothing is there any more, is the reconcile content.
  lemma DeleteRemoves(env: Platform, w: State, i: nat, told: bool)
    requires Lawful(env) && Reachable(env, w) && Enabled(env, w, DeleteArrives(i, told))
    ensures var f, v := w.flights[i], Next(env, w, DeleteArrives(i, told));
            var alive := NeverAbsent(w.log, f.viewAt, |w.log| - 1);
            && i < |v.flights| && f.viewAt < |w.log| && Dying(f.pass) && f.pass.now > f.pass.expireAt
            && (Current(v) == None <==> Current(w) == None || alive)
            && (alive ==> Current(w).Some? && v.log == w.log + [Version(None, ByFlight(i))])
            && (!alive ==> v.log == w.log)
            && v.flights[i].pass.ending == if told && Current(v) == None then Expired else DeleteError
  {
    hide Lawful, Reachable, Inv, FlightOk, Next, NeverAbsent, Lineage;
    ReachableKeeps(env, w);
    DyingFlight(env, w, i);
    StillThere(w, i);
    DeleteArrived(env, w, i, told);
  }

  lemma DyingFlight(env: Platform, w: State, i: nat)
    requires Inv(env, w) && InPhase(w, i, Deleting)
    ensures var f := w.flights[i];
            && Lineage(w.log) && Dying(f.pass) && f.pass.now > f.pass.expireAt
            && Exists(w.log, f.viewAt) && f.pass.obj.uid == At(w.log, f.viewAt).uid
  {
    hide FlightOk, Lineage, Authored;
    DyingFacts(env, w.log, w.flights[i]);
  }

  // The server holds the uid of the copy exactly if the incarnation has been there ever since.
  lemma StillThere(w: State, i: nat)
    requires i < |w.flights| && Lineage(w.log)
    requires var f := w.flights[i]; Exists(w.log, f.viewAt) && f.pass.obj.uid == At(w.log, f.viewAt).uid
    ensures var f := w.flights[i];
            NeverAbsent(w.log, f.viewAt, |w.log| - 1) <==>
              Current(w).Some? && Current(w).value.uid == f.pass.obj.uid
  {
    var f, last := w.flights[i], |w.log| - 1;
    assert LineageAt(w.log, last) && LineageAt(w.log, f.viewAt);
    if NeverAbsent(w.log, f.viewAt, last) { SameIncarnation(w.log, f.viewAt, last); }
  }

  lemma DeleteArrived(env: Platform, w: State, i: nat, told: bool)
    requires Enabled(env, w, DeleteArrives(i, told))
    ensures var f, v := w.flights[i], Next(env, w, DeleteArrives(i, told));
            var hit := Current(w).Some? && Current(w).value.uid == f.pass.obj.uid;
            && i < |v.flights|
            && v.log == (if hit then w.log + [Version(None, ByFlight(i))] else w.log)
            && v.flights[i].pass.ending == (if told && (hit || Current(w).None?) then Expired else DeleteError)
  {
    NextIsPut(env, w, DeleteArrives(i, told));
    hide Next;
    PutAt(Wrote(w, DeleteArrives(i, told)), i, Moved(env, w, DeleteArrives(i, told)));
  }

  lemma DyingFacts(env: Platform, log: seq<Version>, f: Flight)
    requires FlightOk(env, log, f) && f.pass.phase == Deleting
    ensures Dying(f.pass) && f.pass.now > f.pass.expireAt
    ensures Exists(log, f.viewAt) && f.pass.obj.uid == At(log, f.viewAt).uid
  {
  }

  // The cached copy shows the same lease start as the full object.
  lemma KeptStart(env: Platform, o: Obj, full: Obj)
    requires ShownFrom(o, full)
    ensures ParsedStart(env, o.anns) == ParsedStart(env, full.anns)
    ensures SameAt(o.anns, full.anns, TTL) && SameAt(o.anns, full.anns, LeaseStart)
  {
    KeptReadsSame(full.anns, KEEP, LeaseStart);
    KeptReadsSame(full.anns, KEEP, TTL);
  }

  lemma {:induction false} SameIncarnation(log: seq<Version>, a: nat, b: nat)
    requires Lineage(log) && a <= b < |log| && NeverAbsent(log, a, b)
    ensures Exists(log, a) && Exists(log, b) && At(log, a).uid == At(log, b).uid
  {
    assert LineageAt(log, b);
    assert At(log, b).uid <= a;
  }

  // The controller writes nothing but its three annotations: the TTL and everything foreign stay
  // as users left them, whatever stale or filtered copy the patch was computed from.
  lemma OutputsOnly(env: Platform, w: State, j: nat, k: Key)
    requires Lawful(env) && Reachable(env, w)
    requires j < |w.log| && w.log[j].author.ByFlight? && w.log[j].state.Some?
    requires k != LeaseStart && k != ExpireAt && k != Status
    ensures j > 0 && Exists(w.log, j - 1)
    ensures At(w.log, j).uid == At(w.log, j - 1).uid
    ensures SameAt(At(w.log, j - 1).anns, At(w.log, j).anns, k)
  {
    ReachableKeeps(env, w);
    assert AuthoredAt(w.log, w.flights, j);
  }

  // The same for a whole stretch of controller writes.
  lemma {:induction false} TTLSurvives(env: Platform, w: State, a: nat, b: nat)
    requires Lawful(env) && Reachable(env, w) && a <= b < |w.log| && NeverAbsent(w.log, a, b)
    requires forall j: nat | a < j <= b :: w.log[j].author.ByFlight?
    ensures forall k | k !in OUTPUTS :: SameAt(At(w.log, a).anns, At(w.log, b).anns, k)
  {
    if a < b {
      assert w.log[b].state.Some?;
      TTLSurvives(env, w, a, b - 1);
      forall k | k !in OUTPUTS ensures SameAt(At(w.log, a).anns, At(w.log, b).anns, k) {
        OutputsOnly(env, w, b, k);
      }
    }
  }
}

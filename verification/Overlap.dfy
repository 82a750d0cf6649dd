// Why SerialRuns.SelfTriggersBounded speaks of reconciles that do not overlap: two that do can each
// start the lease, so that one change by a user is followed by two self-caused events.
module Overlap {
  import opened Wrappers
  import opened Kube
  import opened LeasePass
  import opened World
  import opened WorldInvariant
  import opened SelfTrigger
  import opened LostLeases

  lemma TellStart(env: Platform, w: State, i: nat)
    requires w.log != [] && InPhase(w, i, Clocking) && ParsedStart(env, w.flights[i].pass.obj.anns).None?
    ensures Enabled(env, w, TellTime(i))
    ensures var f := w.flights[i];
            var a := f.pass.obj.anns;
            Next(env, w, TellTime(i)) == w.(flights := w.flights[i := f.(
              pass := Write(f.pass.(now := w.clock, startAt := w.clock), Starting,
                            a[LeaseStart := env.format(w.clock)]),
              decidedAt := f.viewAt)])
  {
  }

  // The flight is about to write a lease-start into a copy of a.
  predicate Poised(env: Platform, w: State, i: nat, a: Anns, now: int) {
    InPhase(w, i, Starting) && w.flights[i].pass.base == a
    && w.flights[i].pass.obj.anns == a[LeaseStart := env.format(now)]
  }

  // A start patch that lands on another text is a version of its own and an event.
  lemma StartLanding(env: Platform, w: State, i: nat, a: Anns, now: int)
    requires Lawful(env) && env.lo <= now < env.hi && ParsedStart(env, a) == None
    requires Poised(env, w, i, a, now)
    requires Current(w).Some? && Get(Current(w).value.anns, LeaseStart) != env.format(now)
    ensures var v := Landing(w, i);
            && v == w.(log := v.log) && |v.log| == |w.log| + 1 && v.log[..|w.log|] == w.log
            && OwnTrigger(v.log, |w.log|) && Current(v).Some?
            && Get(Current(v).value.anns, LeaseStart) == env.format(now)
  {
    hide MergeApply, MergeDiff, ParsedStart, Relevant, Landing;
    var s := Current(w).value.anns;
    var v := Landing(w, i);
    LandingShape(w, i);
    StartLands(env, s, a, now);
    var t := Current(v).value.anns;
    if Relevant(s) == Relevant(t) { RelevantParts(s, t, LeaseStart); }
  }

  lemma LandStart(env: Platform, w: State, i: nat, a: Anns, now: int)
    requires Lawful(env) && env.lo <= now < env.hi && ParsedStart(env, a) == None
    requires Poised(env, w, i, a, now)
    requires Current(w).Some? && Get(Current(w).value.anns, LeaseStart) != env.format(now)
    ensures Enabled(env, w, PatchLands(i, false))
    ensures var v := Next(env, w, PatchLands(i, false));
            && v.cached == w.cached && v.clock == w.clock
            && |v.log| == |w.log| + 1 && v.log[..|w.log|] == w.log
            && OwnTrigger(v.log, |w.log|) && Current(v).Some?
            && Get(Current(v).value.anns, LeaseStart) == env.format(now)
            && |v.flights| == |w.flights|
            && forall k: nat | k < |w.flights| && k != i :: v.flights[k] == w.flights[k]
  {
    hide Acknowledged, ParsedStart, Triggers, Landing, Lawful, Get;
    StartLanding(env, w, i, a, now);
    NextIsPut(env, w, PatchLands(i, false));
  }

  // Different seconds have different texts.
  lemma TextsDiffer(env: Platform, t: int)
    requires Lawful(env) && env.lo <= t && t + SECOND < env.hi
    ensures env.format(t) != env.format(t + SECOND) && env.format(t) != "" && env.format(t + SECOND) != ""
  {
    assert env.parse(env.format(t)) == Some(Floor(t));
    assert env.parse(env.format(t + SECOND)) == Some(Floor(t + SECOND));
    assert Floor(t + SECOND) == Floor(t) + SECOND;
  }

  // The queue's reconcile and the namespace listener's one have both read a fresh object.
  lemma BothRead(env: Platform, w: State, a: Anns) returns (v: State)
    requires Initial(env, w) && w.tracked && a.Keys == {TTL} && a[TTL] != ""
    ensures Reachable(env, v) && v.clock == w.clock && v.cached == 1
    ensures v.log == [Version(None, Outside), Version(Some(Obj(1, a)), Outside)]
    ensures |v.flights| == 2 && InPhase(v, 0, Clocking) && InPhase(v, 1, Clocking)
    ensures v.flights[0].pass.obj.anns == a && v.flights[1].pass.obj.anns == a
  {
    hide Reachable;
    var w2 := Delivered(env, w, a);
    assert !QueueBusy(w2);
    Extend(env, w2, StartQueued);
    var w3 := Next(env, w2, StartQueued);
    Extend(env, w3, StartDirect);
    var w4 := Next(env, w3, StartDirect);
    hide Enabled, Next;
    FetchStep(env, w4, 0, Obj(1, a));
    Extend(env, w4, Fetch(0, 1, false));
    var w5 := Next(env, w4, Fetch(0, 1, false));
    FetchStep(env, w5, 1, Obj(1, a));
    Extend(env, w5, Fetch(1, 1, false));
    v := Next(env, w5, Fetch(1, 1, false));
  }

  // One change by a user, two undelivered events of the controller's own making.
  lemma OverlapTriggersTwice(env: Platform, w: State, a: Anns) returns (v: State)
    requires Lawful(env) && Initial(env, w) && w.tracked && w.clock + SECOND < env.hi
    requires a.Keys == {TTL} && a[TTL] != ""
    ensures Reachable(env, v) && v.cached == 1 && |v.log| == 4
    ensures v.log[1] == Version(Some(Obj(1, a)), Outside)
    ensures OwnTrigger(v.log, 2) && OwnTrigger(v.log, 3) && Backlog(v.log, 2) == 2
  {
    hide Reachable, Enabled, Next, Relevant, Triggers;
    var w6 := BothRead(env, w, a);
    TellStart(env, w6, 0);
    Extend(env, w6, TellTime(0));
    var w7 := Next(env, w6, TellTime(0));
    var w8 := Ticked(env, w7, w7.clock + SECOND);
    TellStart(env, w8, 1);
    Extend(env, w8, TellTime(1));
    var w9 := Next(env, w8, TellTime(1));
    TextsDiffer(env, w.clock);
    LandStart(env, w9, 0, a, w.clock);
    Extend(env, w9, PatchLands(0, false));
    var w10 := Next(env, w9, PatchLands(0, false));
    LandStart(env, w10, 1, a, w.clock + SECOND);
    Extend(env, w10, PatchLands(1, false));
    v := Next(env, w10, PatchLands(1, false));
    assert v.log[2] == w10.log[2] && v.log[1] == w10.log[1];
    assert v.log[1] == w10.log[1] == w9.log[1];
    hide OwnTrigger;
    assert Backlog(v.log, 4) == 0 && Backlog(v.log, 3) == 1;
  }

  lemma Ticked(env: Platform, w: State, to: int) returns (v: State)
    requires Reachable(env, w) && w.log != [] && w.clock <= to < env.hi
    ensures Reachable(env, v) && v == w.(clock := to)
  {
    hide Reachable;
    Extend(env, w, Tick(to));
    v := Next(env, w, Tick(to));
  }
}

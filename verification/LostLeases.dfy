// The two exceptions of Coverage.NoLeaseForgotten do occur: concrete runs after which a valid,
// unexpired lease has nothing left that would ever end it. And one more: an expired object whose
// only delete has failed.
module LostLeases {
  import opened Wrappers
  import opened Kube
  import opened LeasePass
  import opened World
  import opened CleanupJob
  import opened Coverage
  import opened SelfTrigger
  import Duration

  // Present, valid, not yet over, and forgotten.
  predicate Forgotten(env: Platform, w: State) {
    && !Pending(w) && w.wake == None && Current(w).Some?
    && var a := Current(w).value.anns;
    && !NoTTL(a) && ParsedStart(env, a).Some? && ParsedTTL(env, a).Ok?
    && w.clock <= ParsedStart(env, a).value + ParsedTTL(env, a).value
  }

  lemma {:induction false} AfterSnoc(env: Platform, w: State, run: seq<Action>, a: Action)
    requires Possible(env, w, run) && Enabled(env, After(env, w, run), a)
    ensures Possible(env, w, run + [a])
    ensures After(env, w, run + [a]) == Next(env, After(env, w, run), a)
    decreases |run|
  {
    hide Enabled, Next;
    if run == [] {
      assert run + [a] == [a] && [a][1..] == [];
    } else {
      assert (run + [a])[1..] == run[1..] + [a];
      AfterSnoc(env, Next(env, w, run[0]), run[1..], a);
    }
  }

  lemma Extend(env: Platform, w: State, a: Action)
    requires Reachable(env, w) && Enabled(env, w, a)
    ensures Reachable(env, Next(env, w, a))
  {
    hide Enabled, Next, Initial;
    var start, run :| Initial(env, start) && Possible(env, start, run) && w == After(env, start, run);
    AfterSnoc(env, start, run, a);
  }

  // The state once the object is there and its creation has been delivered.
  lemma Created(env: Platform, w: State, a: Anns)
    requires Initial(env, w) && TTL in a
    ensures Enabled(env, w, UserWrite(Some(a)))
    ensures var v := Next(env, w, UserWrite(Some(a)));
            && Enabled(env, v, Deliver)
            && Next(env, v, Deliver) == w.(
                 log := [Version(None, Outside), Version(Some(Obj(1, a)), Outside)],
                 cached := 1, queued := true)
  {
  }

  lemma FetchStep(env: Platform, w: State, i: nat, o: Obj)
    requires InPhase(w, i, Fetching) && w.cached == 1 && |w.log| == 2 && w.log[1].state == Some(o)
    requires !NoTTL(o.anns)
    ensures Enabled(env, w, Fetch(i, 1, false))
    ensures var f := w.flights[i];
            Next(env, w, Fetch(i, 1, false)) == w.(flights := w.flights[i :=
              f.(pass := f.pass.(phase := Clocking, obj := o), seen := Some(o), readAt := 1, viewAt := 1)])
  {
  }

  // What the pass becomes when the lease is found running.
  function Activated(env: Platform, p: Pass, now: int): Pass
    requires ParsedStart(env, p.obj.anns).Some? && ParsedTTL(env, p.obj.anns).Ok?
  {
    var s := ParsedStart(env, p.obj.anns).value;
    var e := s + ParsedTTL(env, p.obj.anns).value;
    Write(p.(now := now, startAt := s, expireAt := e), Activating,
          p.obj.anns[ExpireAt := env.format(e)][Status := ActiveStatus(env, e)])
  }

  predicate Underway(env: Platform, a: Anns, now: int) {
    && !NoTTL(a) && ParsedStart(env, a).Some? && ParsedTTL(env, a).Ok?
    && now <= ParsedStart(env, a).value + ParsedTTL(env, a).value
  }

  lemma TellStep(env: Platform, w: State, i: nat)
    requires w.log != [] && InPhase(w, i, Clocking) && Underway(env, w.flights[i].pass.obj.anns, w.clock)
    ensures Enabled(env, w, TellTime(i))
    ensures var f := w.flights[i];
            Next(env, w, TellTime(i)) == w.(flights := w.flights[i :=
              f.(pass := Activated(env, f.pass, w.clock), decidedAt := f.viewAt)])
  {
    hide Duration.Parse, ActiveStatus, InvalidStatus, EXPIRED_STATUS;
  }

  lemma LandStep(env: Platform, w: State, i: nat, o: Obj)
    requires InPhase(w, i, Activating) && Current(w) == Some(o)
    requires var p := w.flights[i].pass; p.base == o.anns && p.obj.anns != o.anns
    ensures Enabled(env, w, PatchLands(i, false))
    ensures var f := w.flights[i];
            var p := f.pass;
            Next(env, w, PatchLands(i, false)) ==
              Put(w.(log := w.log + [Version(Some(o.(anns := p.obj.anns)), ByFlight(i))]), i,
                  f.(pass := Finish(p, Active(Delay(p.expireAt, p.now)))))
  {
    hide Put;
    MergeExact(o.anns, w.flights[i].pass.obj.anns);
  }

  // One whole reconcile of a freshly delivered object whose lease is running.
  lemma ActivePass(env: Platform, w: State, i: nat, o: Obj) returns (v: State)
    requires Reachable(env, w) && InPhase(w, i, Fetching)
    requires w.cached == 1 && |w.log| == 2 && w.log[1].state == Some(o)
    requires Underway(env, o.anns, w.clock) && Status !in o.anns
    ensures Reachable(env, v) && v.clock == w.clock
    ensures v.cached == 1 && |v.log| == 3 && v.log[1] == w.log[1] && Reannotated(v, 2, o)
    ensures |v.flights| == |w.flights| && !Live(v.flights[i])
    ensures forall k: nat | k < |w.flights| && k != i :: v.flights[k] == w.flights[k]
    ensures v.queued == w.queued
    ensures w.flights[i].origin == FromNamespace || LeaseEnd(env, o, w.clock) == w.clock ==> v.wake == w.wake
  {
    hide Put, Enabled, Next, Reachable, Duration.Parse, ActiveStatus;
    FetchStep(env, w, i, o);
    Extend(env, w, Fetch(i, 1, false));
    var v1 := Next(env, w, Fetch(i, 1, false));
    TellStep(env, v1, i);
    Extend(env, v1, TellTime(i));
    var v2 := Next(env, v1, TellTime(i));
    var p := v2.flights[i].pass;
    assert Status in p.obj.anns;
    LandStep(env, v2, i, o);
    Extend(env, v2, PatchLands(i, false));
    v := Next(env, v2, PatchLands(i, false));
    PutActive(v2.(log := v2.log + [Version(Some(o.(anns := p.obj.anns)), ByFlight(i))]), i,
              v2.flights[i].(pass := Finish(p, Active(Delay(p.expireAt, p.now)))));
  }

  // Version k is o with nothing but the controller's annotations changed.
  predicate Reannotated(v: State, k: nat, o: Obj) {
    k < |v.log| && v.log[k].state.Some? && v.log[k].state.value.uid == o.uid
    && SameAt(v.log[k].state.value.anns, o.anns, TTL)
    && SameAt(v.log[k].state.value.anns, o.anns, LeaseStart)
  }

  lemma PutActive(w: State, i: nat, f: Flight)
    requires i < |w.flights| && f.pass.phase == Finished && f.pass.ending.Active?
    ensures var v := Put(w, i, f);
            && v.log == w.log && v.cached == w.cached && v.queued == w.queued && v.clock == w.clock
            && v.flights == w.flights[i := f.(endedAt := w.clock)]
            && (f.origin == FromNamespace || f.pass.ending.delay <= 0 ==> v.wake == w.wake)
  {
  }

  lemma Delivered(env: Platform, w: State, a: Anns) returns (v: State)
    requires Initial(env, w) && TTL in a
    ensures Reachable(env, v)
    ensures v == w.(log := [Version(None, Outside), Version(Some(Obj(1, a)), Outside)],
                    cached := 1, queued := true)
  {
    hide Reachable, Next, Enabled;
    InitialIsReachable(env, w);
    Created(env, w, a);
    Extend(env, w, UserWrite(Some(a)));
    Extend(env, Next(env, w, UserWrite(Some(a))), Deliver);
    v := Next(env, Next(env, w, UserWrite(Some(a))), Deliver);
  }

  // The clock may read exactly the end of the lease: nothing is expired yet, the requested delay is
  // zero, and a delay of zero asks for nothing.
  lemma TieForgets(env: Platform, w: State, a: Anns) returns (v: State)
    requires Lawful(env) && Initial(env, w) && w.tracked
    requires Underway(env, a, w.clock) && Status !in a && ExpireAt !in a
    requires ParsedStart(env, a).value + ParsedTTL(env, a).value == w.clock
    ensures Reachable(env, v) && Forgotten(env, v)
  {
    hide Put, Reachable, Duration.Parse, ActiveStatus;
    var w2 := Delivered(env, w, a);
    Extend(env, w2, StartQueued);
    var w3 := Next(env, w2, StartQueued);
    var w4 := ActivePass(env, w3, 0, Obj(1, a));
    v := Settle(env, w4, a);
  }

  // Delivering the annotations of an active lease wakes nobody.
  lemma Settle(env: Platform, w: State, a: Anns) returns (v: State)
    requires Reachable(env, w) && w.cached == 1 && |w.log| == 3
    requires w.log[1].state == Some(Obj(1, a)) && Reannotated(w, 2, Obj(1, a))
    requires Underway(env, a, w.clock)
    requires !w.queued && w.wake == None && NoneLive(w.flights, |w.flights|)
    ensures Reachable(env, v) && Forgotten(env, v)
  {
    hide Duration.Parse, Reachable;
    Extend(env, w, Deliver);
    v := Next(env, w, Deliver);
    var b := w.log[2].state.value.anns;
    RelevantOf(a, b);
    RelevantSame(env, a, b);
  }

  lemma InitialIsReachable(env: Platform, w: State)
    requires Initial(env, w)
    ensures Reachable(env, w)
  {
    assert Possible(env, w, []) && After(env, w, []) == w;
  }

  // A lease that was already running when its namespace was opted in: the queue looked at the
  // object too early, and the reconcile of the namespace listener keeps no timer.
  lemma OptInForgets(env: Platform, w: State, a: Anns) returns (v: State)
    requires Lawful(env) && Initial(env, w) && !w.tracked
    requires Underway(env, a, w.clock) && Status !in a && ExpireAt !in a
    ensures Reachable(env, v) && Forgotten(env, v)
  {
    hide Put, Reachable, Duration.Parse, ActiveStatus;
    var w5 := OptedIn(env, w, a);
    var w6 := ActivePass(env, w5, 1, Obj(1, a));
    v := Settle(env, w6, a);
  }

  // ---------- a delete that fails ----------

  // Present, valid, over, and forgotten.
  predicate Overdue(env: Platform, w: State) {
    && !Pending(w) && w.wake == None && Current(w).Some?
    && var a := Current(w).value.anns;
    && Ended(env, a, w.clock)
  }

  predicate Ended(env: Platform, a: Anns, now: int) {
    && !NoTTL(a) && ParsedStart(env, a).Some? && ParsedTTL(env, a).Ok?
    && now > ParsedStart(env, a).value + ParsedTTL(env, a).value
  }

  function Announced(env: Platform, p: Pass, now: int): Pass
    requires ParsedStart(env, p.obj.anns).Some? && ParsedTTL(env, p.obj.anns).Ok?
  {
    var s := ParsedStart(env, p.obj.anns).value;
    var e := s + ParsedTTL(env, p.obj.anns).value;
    Write(p.(now := now, startAt := s, expireAt := e), Expiring,
          p.obj.anns[ExpireAt := env.format(e)][Status := EXPIRED_STATUS])
  }

  lemma TellEnded(env: Platform, w: State, i: nat)
    requires w.log != [] && InPhase(w, i, Clocking) && Ended(env, w.flights[i].pass.obj.anns, w.clock)
    ensures Enabled(env, w, TellTime(i))
    ensures var f := w.flights[i];
            Next(env, w, TellTime(i)) == w.(flights := w.flights[i :=
              f.(pass := Announced(env, f.pass, w.clock), decidedAt := f.viewAt)])
  {
    hide Duration.Parse, ActiveStatus, InvalidStatus, EXPIRED_STATUS;
  }

  lemma LandEnded(env: Platform, w: State, i: nat, o: Obj)
    requires InPhase(w, i, Expiring) && Current(w) == Some(o) && OnDeleteJob !in o.anns
    requires var p := w.flights[i].pass;
             p.base == o.anns && p.obj.anns != o.anns && OnDeleteJob !in p.obj.anns
    ensures Enabled(env, w, PatchLands(i, false))
    ensures var f := w.flights[i];
            var p := f.pass;
            var t := p.tally;
            Next(env, w, PatchLands(i, false)) ==
              Put(w.(log := w.log + [Version(Some(o.(anns := p.obj.anns)), ByFlight(i))]), i,
                  f.(pass := p.(phase := Deleting,
                                tally := t.(expired := t.expired + 1, noConfig := t.noConfig + 1))))
  {
    hide Put, SplitFirst, ParseInt32, ParseBool, SecretNames, Duration.Parse;
    MergeExact(o.anns, w.flights[i].pass.obj.anns);
  }

  lemma DeleteFails(env: Platform, w: State, i: nat)
    requires w.log != [] && InPhase(w, i, Deleting) && w.flights[i].origin == FromNamespace
    ensures Enabled(env, w, DeleteLost(i))
    ensures var v := Next(env, w, DeleteLost(i));
            && v == w.(flights := v.flights) && |v.flights| == |w.flights| && !Live(v.flights[i])
            && v.flights[i].pass.ending == DeleteError
            && forall k: nat | k < |w.flights| && k != i :: v.flights[k] == w.flights[k]
  {
  }

  // An object whose lease is over when its namespace is opted in: the reconcile of the listener
  // announces it, its delete fails, and nobody ever tries again.
  lemma FailedDeleteForgets(env: Platform, w: State, a: Anns) returns (v: State)
    requires Lawful(env) && Initial(env, w) && !w.tracked
    requires Ended(env, a, w.clock) && Status !in a && ExpireAt !in a && OnDeleteJob !in a
    ensures Reachable(env, v) && Overdue(env, v)
    ensures |v.flights| == 2 && v.flights[1].pass.ending == DeleteError
  {
    hide Put, Reachable, Duration.Parse, Enabled, Next;
    var w5 := OptedIn(env, w, a);
    var o := Obj(1, a);
    FetchStep(env, w5, 1, o);
    Extend(env, w5, Fetch(1, 1, false));
    var w6 := Next(env, w5, Fetch(1, 1, false));
    TellEnded(env, w6, 1);
    Extend(env, w6, TellTime(1));
    var w7 := Next(env, w6, TellTime(1));
    var p := w7.flights[1].pass;
    assert Status in p.obj.anns;
    LandEnded(env, w7, 1, o);
    Extend(env, w7, PatchLands(1, false));
    var w8 := Next(env, w7, PatchLands(1, false));
    PutRunning(w7.(log := w7.log + [Version(Some(o.(anns := p.obj.anns)), ByFlight(1))]), 1,
               p.(phase := Deleting, tally := p.tally.(expired := p.tally.expired + 1,
                                                       noConfig := p.tally.noConfig + 1)));
    DeleteFails(env, w8, 1);
    Extend(env, w8, DeleteLost(1));
    v := SettleOverdue(env, Next(env, w8, DeleteLost(1)), a);
  }

  lemma PutRunning(w: State, i: nat, p: Pass)
    requires i < |w.flights| && p.phase != Finished
    ensures var f := w.flights[i].(pass := p); Put(w, i, f) == w.(flights := w.flights[i := f])
  {
  }

  // Created and delivered before the opt-in, looked at by the queue too early, then by the listener.
  lemma OptedIn(env: Platform, w: State, a: Anns) returns (v: State)
    requires Initial(env, w) && !w.tracked && TTL in a
    ensures Reachable(env, v) && v.clock == w.clock && v.cached == 1
    ensures v.log == [Version(None, Outside), Version(Some(Obj(1, a)), Outside)]
    ensures !v.queued && v.wake == None && |v.flights| == 2
    ensures !Live(v.flights[0]) && InPhase(v, 1, Fetching) && v.flights[1].origin == FromNamespace
    ensures v.flights[1].pass.ending.Running?
  {
    hide Reachable, Triggers, UserWrites, Fetched;
    var w2 := Delivered(env, w, a);
    Extend(env, w2, StartQueued);
    var w3 := Next(env, w2, StartQueued);
    Extend(env, w3, Track(true));
    var w4 := Next(env, w3, Track(true));
    Extend(env, w4, StartDirect);
    v := Next(env, w4, StartDirect);
  }

  lemma SettleOverdue(env: Platform, w: State, a: Anns) returns (v: State)
    requires Reachable(env, w) && w.cached == 1 && |w.log| == 3
    requires w.log[1].state == Some(Obj(1, a)) && Reannotated(w, 2, Obj(1, a)) && Ended(env, a, w.clock)
    requires !w.queued && w.wake == None && NoneLive(w.flights, |w.flights|)
    ensures Reachable(env, v) && Overdue(env, v) && v.flights == w.flights
  {
    hide Duration.Parse, Reachable;
    Extend(env, w, Deliver);
    v := Next(env, w, Deliver);
    var b := w.log[2].state.value.anns;
    RelevantOf(a, b);
    RelevantSame(env, a, b);
  }
}

// In every run whatsoever, overlapping or not, one reconcile causes at most one event that calls
// for another one.
module OneTrigger {
  import opened Wrappers
  import opened Kube
  import opened LeasePass
  import opened World
  import opened WorldInvariant
  import opened Safety
  import opened SelfTrigger
  import opened CleanupJob

  // How many versions written by flight i the event predicate lets through.
  function TriggersBy(log: seq<Version>, i: nat): nat {
    if |log| <= 1 then 0
    else
      var n := |log| - 1;
      TriggersBy(log[..n], i)
      + if log[n].author == ByFlight(i) && Triggers(log[n - 1].state, log[n].state) then 1 else 0
  }

  // The patch that may touch ttl or lease-start is still ahead.
  predicate Early(p: Pass) { p.phase in {Fetching, Clocking, Cleaning, Starting} }

  // Past it, what is patched leaves them alone.
  predicate Neutral(p: Pass) {
    p.phase in {Marking, Activating, Expiring} ==> Relevant(p.base) == Relevant(p.obj.anns)
  }

  function Spent(flights: seq<Flight>, i: nat): nat {
    if i < |flights| && !Early(flights[i].pass) then 1 else 0
  }

  ghost predicate Thrifty(w: State) {
    && w.log != []
    && (forall i: nat :: TriggersBy(w.log, i) <= Spent(w.flights, i))
    && (forall i: nat | i < |w.flights| :: Neutral(w.flights[i].pass))
  }

  lemma TriggersSnoc(log: seq<Version>, v: Version, i: nat)
    requires log != []
    ensures TriggersBy(log + [v], i) == TriggersBy(log, i)
              + if v.author == ByFlight(i) && Triggers(log[|log| - 1].state, v.state) then 1 else 0
  {
    assert (log + [v])[..|log|] == log;
  }

  // ---------- one answer ----------

  lemma PatchMoves(env: Platform, p: Pass, a: PatchAnswer)
    requires Patching(p.phase)
    ensures !Early(OnPatch(env, p, a)) && Neutral(OnPatch(env, p, a))
  {
    hide Decide, ParseConfig;
    if p.phase == Starting {
      var q := Absorb(p, a);
      DecideIsNeutral(env, CountStart(q));
    }
  }

  lemma ClockMoves(env: Platform, p: Pass, now: int)
    requires p.phase == Clocking
    ensures Neutral(OnClock(env, p, now))
  {
    hide Decide;
    match ParsedStart(env, p.obj.anns)
    case Some(t) => DecideIsNeutral(env, p.(now := now, startAt := t));
    case None =>
  }

  lemma Moves(env: Platform, w: State, a: Action)
    requires OfFlight(a) && Enabled(env, w, a)
    ensures var p, q := w.flights[a.i].pass, Moved(env, w, a).pass;
            Neutral(q) && (!Early(p) ==> !Early(q)) && (a.PatchLands? ==> !Early(q))
  {
    hide OnPatch, OnClock, Landing, DeleteStep, View, DeleteReply, ParseConfig, Relevant;
    var p := w.flights[a.i].pass;
    match a
    case TellTime(_) => ClockMoves(env, p, w.clock);
    case PatchLost(_) => PatchMoves(env, p, Lost);
    case PatchLands(i, refresh) =>
      var log := Landing(w, i).log;
      PatchMoves(env, p, Landed(if refresh && log != [] then log[|log| - 1].state else None));
    case _ =>
  }

  // ---------- one write ----------

  lemma PatchOnce(w: State, j: nat, i: nat)
    requires j < |w.flights| && w.log != [] && Current(w).Some?
    requires Patching(w.flights[j].pass.phase) && Neutral(w.flights[j].pass)
    ensures TriggersBy(Landing(w, j).log, i) <= TriggersBy(w.log, i)
              + if i == j && Early(w.flights[i].pass) then 1 else 0
  {
    hide MergeApply, MergeDiff, Relevant, Landing, Triggers, Neutral, Early, TriggersBy;
    LandingShape(w, j);
    NeutralLanding(w, j);
    var log := Landing(w, j).log;
    if log != w.log {
      var x := Version(Current(Landing(w, j)), ByFlight(j));
      assert log == w.log + [x];
      TriggersSnoc(w.log, x, i);
    }
  }

  lemma WroteOnce(env: Platform, w: State, a: Action, i: nat)
    requires OfFlight(a) && Enabled(env, w, a) && Neutral(w.flights[a.i].pass)
    ensures TriggersBy(Wrote(w, a).log, i) <= TriggersBy(w.log, i)
              + if i == a.i && a.PatchLands? && Early(w.flights[i].pass) then 1 else 0
  {
    LandingFacts(env, w, a);
    hide Landing, Triggers, Neutral, Early, TriggersBy, Enabled, Patching;
    if a.PatchLands? {
      PatchOnce(w, a.i, i);
    } else if a.DeleteArrives? {
      TriggersSnoc(w.log, Version(None, ByFlight(a.i)), i);
      NoneTriggersNot(Current(w));
    }
  }

  lemma NoneTriggersNot(s: Option<Obj>)
    ensures !Triggers(s, None)
  {
  }

  lemma LandingFacts(env: Platform, w: State, a: Action)
    requires OfFlight(a) && Enabled(env, w, a)
    ensures w.log != [] && a.i < |w.flights|
    ensures a.PatchLands? ==> Current(w).Some? && Patching(w.flights[a.i].pass.phase)
  {
  }

  lemma NeutralLanding(w: State, i: nat)
    requires i < |w.flights| && Current(w).Some? && Neutral(w.flights[i].pass)
    requires Patching(w.flights[i].pass.phase)
    ensures Early(w.flights[i].pass) || !Triggers(Current(w), Current(Landing(w, i)))
  {
    hide MergeApply, MergeDiff, Landing, Relevant;
    LandingShape(w, i);
    var p := w.flights[i].pass;
    if !Early(p) { NeutralPatch(Current(w).value.anns, p.base, p.obj.anns); }
  }

  lemma FlightThrifty(env: Platform, w: State, a: Action)
    requires Thrifty(w) && OfFlight(a) && Enabled(env, w, a)
    ensures Thrifty(Next(env, w, a))
  {
    hide Moved, Wrote, Neutral, Early, TriggersBy, Next;
    NextIsPut(env, w, a);
    Moves(env, w, a);
    WroteExtends(env, w, a);
    var v, f := Wrote(w, a), Moved(env, w, a);
    forall i: nat ensures TriggersBy(v.log, i) <= Spent(v.flights[a.i := f], i) {
      WroteOnce(env, w, a, i);
      assert TriggersBy(w.log, i) <= Spent(w.flights, i);
    }
    PutThrifty(v, a.i, f);
  }

  lemma PutThrifty(v: State, i: nat, f: Flight)
    requires i < |v.flights| && v.log != [] && Neutral(f.pass)
    requires forall k: nat :: TriggersBy(v.log, k) <= Spent(v.flights[i := f], k)
    requires forall k: nat | k < |v.flights| :: Neutral(v.flights[k].pass)
    ensures Thrifty(Put(v, i, f))
  {
    hide Neutral, Early, TriggersBy;
    var w := Put(v, i, f);
    assert w.log == v.log && |w.flights| == |v.flights| && w.flights[i].pass == f.pass;
    forall k: nat ensures Spent(w.flights, k) == Spent(v.flights[i := f], k) {
    }
  }

  lemma OtherThrifty(env: Platform, w: State, a: Action)
    requires Thrifty(w) && !OfFlight(a) && Enabled(env, w, a)
    ensures Thrifty(Next(env, w, a))
  {
    hide Triggers, TriggersBy, UserWrites;
    var v := Next(env, w, a);
    forall i: nat ensures TriggersBy(v.log, i) <= Spent(v.flights, i) {
      assert TriggersBy(w.log, i) <= Spent(w.flights, i);
      if a.UserWrite? { UserWritesNone(w, a.anns, i); }
    }
    if a.UserWrite? { UserWritesNone(w, a.anns, 0); }
  }

  lemma UserWritesNone(w: State, anns: Option<Anns>, i: nat)
    requires w.log != []
    ensures var v := UserWrites(w, anns);
            v.flights == w.flights && v.log != [] && TriggersBy(v.log, i) == TriggersBy(w.log, i)
  {
    hide Triggers, TriggersBy;
    var v := UserWrites(w, anns);
    if v.log != w.log { TriggersSnoc(w.log, v.log[|w.log|], i); }
  }

  lemma {:induction false} RunThrifty(env: Platform, w: State, run: seq<Action>)
    requires Thrifty(w) && Possible(env, w, run)
    ensures Thrifty(After(env, w, run))
    decreases |run|
  {
    hide Thrifty, Enabled, Next;
    if run != [] {
      if OfFlight(run[0]) { FlightThrifty(env, w, run[0]); } else { OtherThrifty(env, w, run[0]); }
      RunThrifty(env, Next(env, w, run[0]), run[1..]);
    }
  }

  // Whatever happens around it, a reconcile triggers at most one further reconcile.
  lemma EachTriggersOnce(env: Platform, w: State, i: nat)
    requires Reachable(env, w)
    ensures TriggersBy(w.log, i) <= 1
    ensures i >= |w.flights| || Early(w.flights[i].pass) ==> TriggersBy(w.log, i) == 0
  {
    var start, run :| Initial(env, start) && Possible(env, start, run) && w == After(env, start, run);
    RunThrifty(env, start, run);
    assert TriggersBy(w.log, i) <= Spent(w.flights, i);
  }
}

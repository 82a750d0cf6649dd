// The counters add up in every reachable state, crashes included.
module Accounting {
  import opened Wrappers
  import opened Kube
  import opened LeasePass
  import opened World
  import opened CleanupJob

  // Announced as expired, delete not yet issued.
  predicate InHand(p: Pass) { p.phase in {Creating, Awaiting, Deleting} }

  // Its cleanup job is still to be created or to finish.
  predicate JobOpen(p: Pass) { p.phase in {Creating, Awaiting} }

  // Announced as expired, but the process died before the delete.
  predicate Abandoned(p: Pass) { p.ending.Crashed? && p.tally.expired == 1 }

  predicate JobLost(p: Pass) {
    p.ending.Crashed? && p.tally.executions > p.tally.failed + p.tally.completed + p.tally.unattended
  }

  function Count(b: bool): nat { if b then 1 else 0 }

  predicate TallyOk(p: Pass) {
    var t := p.tally;
    && (Unfinished(p) <==> p.ending.Running?)
    && t.expired == t.deletes + Count(InHand(p)) + Count(Abandoned(p))
    && t.expired == t.noConfig + t.badConfig + t.executions
    && t.executions == t.failed + t.completed + t.unattended + Count(JobOpen(p)) + Count(JobLost(p))
    && t.completed + t.unattended <= t.created <= t.executions
    && t.expired <= 1 && (p.phase != Finished ==> t.deletes == 0)
    && (p.phase == Creating ==> t.created == 0) && (p.phase == Awaiting ==> t.created == 1)
    && (p.phase in {Fetching, Clocking, Cleaning, Starting, Marking, Activating, Expiring} ==> t.expired == 0)
  }

  predicate Unfinished(p: Pass) { p.phase != Finished }

  lemma PatchTally(env: Platform, p: Pass, a: PatchAnswer)
    requires TallyOk(p) && Patching(p.phase)
    ensures TallyOk(OnPatch(env, p, a))
  {
    hide Decide, ParseConfig;
  }

  lemma ClockTally(env: Platform, p: Pass, t: int)
    requires TallyOk(p) && p.phase == Clocking
    ensures TallyOk(OnClock(env, p, t))
  {
    hide Decide, ParsedStart;
  }

  lemma GetTally(p: Pass, a: GetAnswer)
    requires TallyOk(p) && p.phase == Fetching
    ensures TallyOk(OnGet(p, a))
  {
  }

  lemma JobTally(p: Pass, ok: bool, a: DeleteAnswer)
    requires TallyOk(p)
    ensures p.phase == Creating && p.config.Some? ==> TallyOk(OnCreate(p, ok))
    ensures p.phase == Awaiting ==> TallyOk(OnAwait(p, ok))
    ensures p.phase == Deleting ==> TallyOk(OnDelete(p, a))
  {
  }

  lemma MovedTally(env: Platform, w: State, a: Action)
    requires OfFlight(a) && Enabled(env, w, a) && TallyOk(w.flights[a.i].pass)
    ensures TallyOk(Moved(env, w, a).pass)
  {
    hide TallyOk, OnPatch, OnClock, OnGet, OnCreate, OnAwait, OnDelete, Landing, DeleteStep, View, DeleteReply;
    var p := w.flights[a.i].pass;
    match a
    case Fetch(i, at, filtered) =>
      GetTally(p, match w.log[at].state case None => NotFound case Some(o) => Found(View(o, filtered)));
    case FetchFails(i) => GetTally(p, GetFailed);
    case TellTime(i) => ClockTally(env, p, w.clock);
    case PatchLost(i) => PatchTally(env, p, Lost);
    case PatchLands(i, refresh) =>
      var log := Landing(w, i).log;
      PatchTally(env, p, Landed(if refresh && log != [] then log[|log| - 1].state else None));
    case JobAnswer(i, ok) => JobTally(p, ok, Refused);
    case DeleteArrives(i, told) => JobTally(p, true, if told then DeleteReply(w, w.flights[i]) else Refused);
    case DeleteLost(i) => JobTally(p, true, Refused);
  }

  predicate AllTallied(flights: seq<Flight>) {
    forall i: nat | i < |flights| :: TallyOk(flights[i].pass)
  }

  lemma PutTallies(v: State, i: nat, f: Flight)
    requires AllTallied(v.flights) && i < |v.flights| && TallyOk(f.pass)
    ensures AllTallied(Put(v, i, f).flights)
  {
    hide TallyOk;
  }

  lemma CrashTallies(flights: seq<Flight>, i: nat)
    requires AllTallied(flights) && i < |flights|
    ensures TallyOk(Crash(flights[i]).pass)
  {
  }

  lemma StepTallies(env: Platform, w: State, a: Action)
    requires AllTallied(w.flights) && Enabled(env, w, a)
    ensures AllTallied(Next(env, w, a).flights)
  {
    hide TallyOk, Moved, Landing, DeleteStep, Put, Crash, Begin, UserWrites;
    if OfFlight(a) {
      MovedTally(env, w, a);
      WroteFlights(env, w, a);
      PutTallies(Wrote(w, a), a.i, Moved(env, w, a));
    } else if a.Restart? {
      forall i: nat | i < |w.flights| ensures TallyOk(Crash(w.flights[i]).pass) {
        CrashTallies(w.flights, i);
      }
    } else {
      BeginTallies(w.name, w.tracked);
      if a.UserWrite? { assert UserWrites(w, a.anns).flights == w.flights by { UserFlights(w, a.anns); } }
    }
  }

  lemma BeginTallies(name: string, tracked: bool)
    ensures TallyOk(Begin(name, tracked))
  {
  }

  lemma WroteFlights(env: Platform, w: State, a: Action)
    requires OfFlight(a) && Enabled(env, w, a)
    ensures Wrote(w, a).flights == w.flights
  {
    hide MergeApply, MergeDiff;
  }

  lemma UserFlights(w: State, anns: Option<Anns>)
    requires w.log != []
    ensures UserWrites(w, anns).flights == w.flights
  {
  }

  lemma {:induction false} RunTallies(env: Platform, w: State, run: seq<Action>)
    requires AllTallied(w.flights) && Possible(env, w, run)
    ensures AllTallied(After(env, w, run).flights)
    decreases |run|
  {
    hide AllTallied, Enabled, Next;
    if run != [] {
      StepTallies(env, w, run[0]);
      RunTallies(env, Next(env, w, run[0]), run[1..]);
    }
  }

  lemma ReachableTallies(env: Platform, w: State)
    requires Reachable(env, w)
    ensures AllTallied(w.flights)
  {
    hide Enabled, Next, TallyOk;
    var start, run :| Initial(env, start) && Possible(env, start, run) && w == After(env, start, run);
    RunTallies(env, start, run);
  }

  // ---------- totals ----------

  // The counters of the process and the events behind them, over all reconciles ever started.
  datatype Ledger = Ledger(t: Tally, inHand: nat, abandoned: nat, jobsOpen: nat, jobsLost: nat)

  function AddTallies(a: Tally, b: Tally): Tally {
    Tally(a.started + b.started, a.expired + b.expired, a.invalid + b.invalid, a.created + b.created,
          a.completed + b.completed, a.failed + b.failed, a.deletes + b.deletes, a.noConfig + b.noConfig,
          a.badConfig + b.badConfig, a.executions + b.executions, a.unattended + b.unattended)
  }

  function Sum(flights: seq<Flight>): Ledger {
    if flights == [] then Ledger(NOTHING, 0, 0, 0, 0)
    else
      var p, rest := flights[0].pass, Sum(flights[1..]);
      Ledger(AddTallies(p.tally, rest.t), Count(InHand(p)) + rest.inHand, Count(Abandoned(p)) + rest.abandoned,
             Count(JobOpen(p)) + rest.jobsOpen, Count(JobLost(p)) + rest.jobsLost)
  }

  // The ledger adds up the passes one by one.
  lemma SumMeans(f: Flight, rest: seq<Flight>)
    ensures var l, r, t := Sum([f] + rest), Sum(rest), f.pass.tally;
            && l.t.expired == t.expired + r.t.expired && l.t.deletes == t.deletes + r.t.deletes
            && l.t.created == t.created + r.t.created && l.t.completed == t.completed + r.t.completed
            && l.t.failed == t.failed + r.t.failed && l.t.unattended == t.unattended + r.t.unattended
            && l.t.noConfig == t.noConfig + r.t.noConfig && l.t.badConfig == t.badConfig + r.t.badConfig
            && l.t.started == t.started + r.t.started && l.t.invalid == t.invalid + r.t.invalid
            && l.t.executions == t.executions + r.t.executions
            && l.inHand == (if f.pass.phase in {Creating, Awaiting, Deleting} then 1 else 0) + r.inHand
            && l.jobsOpen == (if f.pass.phase in {Creating, Awaiting} then 1 else 0) + r.jobsOpen
  {
    assert ([f] + rest)[1..] == rest;
  }

  predicate Conserved(l: Ledger) {
    && l.t.expired == l.t.deletes + l.inHand + l.abandoned
    && l.t.expired == l.t.noConfig + l.t.badConfig + l.t.executions
    && l.t.executions == l.t.failed + l.t.completed + l.t.unattended + l.jobsOpen + l.jobsLost
    && l.t.completed + l.t.unattended <= l.t.created <= l.t.executions
  }

  lemma {:induction false} SumConserved(flights: seq<Flight>)
    requires AllTallied(flights)
    ensures Conserved(Sum(flights))
  {
    if flights != [] {
      assert TallyOk(flights[0].pass);
      SumConserved(flights[1..]);
    }
  }

  lemma {:induction false} SettledSum(flights: seq<Flight>)
    requires forall i: nat | i < |flights| :: !Live(flights[i]) && !flights[i].pass.ending.Crashed?
    ensures var l := Sum(flights); l.inHand == 0 && l.abandoned == 0 && l.jobsOpen == 0 && l.jobsLost == 0
  {
    if flights != [] {
      assert !Live(flights[0]) && !flights[0].pass.ending.Crashed?;
      SettledSum(flights[1..]);
    }
  }

  // Every announced expiry is a delete attempt, a delete in hand, or one cut off by a crash; every
  // one found no configuration, a bad one, or executed a job; every execution failed, completed,
  // ran unattended, or is unfinished. No more jobs are created than deletes attempted or pending.
  lemma CountersAddUp(env: Platform, w: State)
    requires Reachable(env, w)
    ensures Conserved(Sum(w.flights))
    ensures var l := Sum(w.flights); l.t.created <= l.t.deletes + l.inHand + l.abandoned
    ensures (forall i: nat | i < |w.flights| :: !Live(w.flights[i]) && !w.flights[i].pass.ending.Crashed?) ==>
              var t := Sum(w.flights).t;
              && t.expired == t.deletes == t.noConfig + t.badConfig + t.failed + t.completed + t.unattended
              && t.created <= t.deletes
  {
    hide Reachable, TallyOk;
    ReachableTallies(env, w);
    SumConserved(w.flights);
    if forall i: nat | i < |w.flights| :: !Live(w.flights[i]) && !w.flights[i].pass.ending.Crashed? {
      SettledSum(w.flights);
    }
  }

  function CompletedBy(w: State, i: nat): nat
    requires i < |w.flights|
  {
    w.flights[i].pass.tally.completed
  }

  function DeletesBy(w: State, i: nat): nat
    requires i < |w.flights|
  {
    w.flights[i].pass.tally.deletes
  }

  // What one answer does to the two counts.
  lemma MovedCounts(env: Platform, w: State, a: Action)
    requires OfFlight(a) && Enabled(env, w, a) && TallyOk(w.flights[a.i].pass)
    ensures var p, q := w.flights[a.i].pass, Moved(env, w, a).pass;
            && p.tally.deletes == 0
            && (q.tally.completed > p.tally.completed ==>
                  p.phase == Awaiting && q.phase == Deleting && q.tally.deletes == 0)
  {
    hide Decide, ParseConfig, Landing, DeleteStep, View, DeleteReply, ParsedStart;
  }

  lemma OtherUntouched(env: Platform, w: State, a: Action, i: nat)
    requires Enabled(env, w, a) && i < |w.flights| && !OfFlight(a)
    ensures i < |Next(env, w, a).flights|
    ensures Next(env, w, a).flights[i].pass.tally == w.flights[i].pass.tally
  {
    hide UserWrites, Begin, Triggers;
    if a.UserWrite? { UserFlights(w, a.anns); }
  }

  lemma PutUntouched(v: State, k: nat, f: Flight, i: nat)
    requires k < |v.flights| && i < |v.flights| && k != i
    ensures i < |Put(v, k, f).flights| && Put(v, k, f).flights[i] == v.flights[i]
  {
  }

  // A completion is counted on the way from waiting to deleting, before the delete of its pass has
  // been attempted; once that has happened, nothing is counted any more.
  lemma CompletedBeforeDelete(env: Platform, w: State, a: Action, i: nat)
    requires Reachable(env, w) && Enabled(env, w, a) && i < |w.flights|
    ensures var v := Next(env, w, a);
            && i < |v.flights|
            && (CompletedBy(v, i) > CompletedBy(w, i) ==>
                  && w.flights[i].pass.phase == Awaiting && v.flights[i].pass.phase == Deleting
                  && DeletesBy(w, i) == 0 && DeletesBy(v, i) == 0)
            && (DeletesBy(w, i) > 0 ==> CompletedBy(v, i) == CompletedBy(w, i))
  {
    hide Reachable, Next, Moved, TallyOk, Put, Wrote;
    ReachableTallies(env, w);
    if OfFlight(a) && a.i == i {
      assert TallyOk(w.flights[i].pass);
      MovedCounts(env, w, a);
      WroteFlights(env, w, a);
      PutAt(Wrote(w, a), i, Moved(env, w, a));
      NextIsPut(env, w, a);
    } else if OfFlight(a) {
      WroteFlights(env, w, a);
      PutUntouched(Wrote(w, a), a.i, Moved(env, w, a), i);
      NextIsPut(env, w, a);
    } else {
      OtherUntouched(env, w, a, i);
    }
  }
}

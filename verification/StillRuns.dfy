// Idempotence over whole runs: a reconcile that finds an active lease already annotated sends an
// empty difference and writes nothing, whatever has become of the object meanwhile.
module StillRuns {
  import opened Wrappers
  import opened Kube
  import opened LeasePass
  import opened World
  import opened WorldInvariant
  import opened WorldRuns
  import opened Safety
  import opened CleanupJob
  import Duration

  function Marked(env: Platform, a: Anns, e: int): Anns {
    a[ExpireAt := env.format(e)][Status := ActiveStatus(env, e)]
  }

  // A pass about to annotate an active lease adds nothing but the two annotations, and if it has read
  // the start it adds them to what it has read.
  predicate Marks(env: Platform, f: Flight) {
    f.pass.phase == Activating ==>
      && f.pass.obj.anns == Marked(env, f.pass.base, f.pass.expireAt)
      && (f.seen.Some? && ParsedStart(env, f.seen.value.anns).Some? ==> f.pass.base == f.seen.value.anns)
  }

  predicate AllMark(env: Platform, w: State) {
    forall i: nat | i < |w.flights| :: Marks(env, w.flights[i])
  }

  lemma DecideMarks(env: Platform, p: Pass)
    ensures var q := Decide(env, p);
            q.base == p.obj.anns && (q.phase == Activating ==> q.obj.anns == Marked(env, q.base, q.expireAt))
  {
    hide Duration.Parse, ActiveStatus, InvalidStatus, EXPIRED_STATUS;
  }

  lemma TimeMarks(env: Platform, log: seq<Version>, f: Flight, now: int, at: nat)
    requires FlightOk(env, log, f) && f.pass.phase == Clocking
    ensures Marks(env, f.(pass := OnClock(env, f.pass, now), decidedAt := at))
  {
    hide Decide, Marked;
    match ParsedStart(env, f.pass.obj.anns)
    case Some(t) => DecideMarks(env, f.pass.(now := now, startAt := t));
    case None =>
  }

  lemma AnswerMarks(env: Platform, log: seq<Version>, f: Flight, a: PatchAnswer, g: Flight)
    requires FlightOk(env, log, f) && Patching(f.pass.phase)
    requires g.pass == OnPatch(env, f.pass, a) && g.seen == f.seen
    ensures Marks(env, g)
  {
    if f.pass.phase == Starting { StartUnread(env, log, f); }
    hide FlightOk, Marked, ParsedStart;
    PatchMarks(env, f.pass, a);
  }

  // A patch answered ends the activation or, after a start patch, begins it.
  lemma PatchMarks(env: Platform, p: Pass, a: PatchAnswer)
    requires Patching(p.phase)
    ensures var q := OnPatch(env, p, a);
            q.phase == Activating ==> p.phase == Starting && q.obj.anns == Marked(env, q.base, q.expireAt)
  {
    hide Decide, ParseConfig, Marked;
    if p.phase == Starting {
      var q := Absorb(p, a);
      DecideMarks(env, CountStart(q));
    }
  }

  lemma StartUnread(env: Platform, log: seq<Version>, f: Flight)
    requires FlightOk(env, log, f) && f.pass.phase == Starting
    ensures f.seen.Some? && ParsedStart(env, f.seen.value.anns) == None
  {
  }

  lemma MovedMarks(env: Platform, w: State, a: Action)
    requires OfFlight(a) && Enabled(env, w, a) && FlightOk(env, w.log, w.flights[a.i])
    ensures Marks(env, Moved(env, w, a))
  {
    hide FlightOk, Marks, Landing, OnPatch, OnClock;
    var f, g := w.flights[a.i], Moved(env, w, a);
    match a
    case TellTime(_) => TimeMarks(env, w.log, f, w.clock, f.viewAt);
    case PatchLost(_) => AnswerMarks(env, w.log, f, Lost, g);
    case PatchLands(i, refresh) =>
      var log := Landing(w, i).log;
      AnswerMarks(env, w.log, f, Landed(if refresh && log != [] then log[|log| - 1].state else None), g);
    case _ => QuietMarks(env, w, a);
  }

  lemma QuietMarks(env: Platform, w: State, a: Action)
    requires OfFlight(a) && Enabled(env, w, a) && !a.TellTime? && !a.PatchLost? && !a.PatchLands?
    ensures Marks(env, Moved(env, w, a))
  {
    hide Marked, ParsedStart, DeleteStep, View, DeleteReply;
  }

  lemma PutMarks(env: Platform, v: State, i: nat, f: Flight)
    requires AllMark(env, v) && i < |v.flights| && Marks(env, f)
    ensures AllMark(env, Put(v, i, f))
  {
    hide Marked;
    assert Marks(env, f.(endedAt := v.clock));
  }

  lemma StepMarks(env: Platform, w: State, a: Action)
    requires Inv(env, w) && AllMark(env, w) && Enabled(env, w, a)
    ensures AllMark(env, Next(env, w, a))
  {
    if OfFlight(a) {
      LiveIsRunning(env, w, a.i);
      hide Inv, FlightOk, Moved, Wrote, Put, Marks, Next;
      MovedMarks(env, w, a);
      WroteExtends(env, w, a);
      NextIsPut(env, w, a);
      PutMarks(env, Wrote(w, a), a.i, Moved(env, w, a));
    } else {
      hide Inv, Marked, Triggers, UserWrites;
      OtherMarks(env, w, a);
    }
  }

  lemma OtherMarks(env: Platform, w: State, a: Action)
    requires AllMark(env, w) && !OfFlight(a) && Enabled(env, w, a)
    ensures AllMark(env, Next(env, w, a))
  {
    hide Marked, ParsedStart, Triggers;
    var v := Next(env, w, a);
    forall i: nat | i < |v.flights| ensures Marks(env, v.flights[i]) {
      if i < |w.flights| { assert Marks(env, w.flights[i]); }
    }
  }

  lemma {:induction false} RunMarks(env: Platform, w: State, run: seq<Action>)
    requires Lawful(env) && Inv(env, w) && AllMark(env, w) && Possible(env, w, run)
    ensures AllMark(env, After(env, w, run))
    decreases |run|
  {
    hide Inv, AllMark, Enabled, Next;
    if run == [] {
    } else {
      StepKeeps(env, w, run[0]);
      StepMarks(env, w, run[0]);
      RunMarks(env, Next(env, w, run[0]), run[1..]);
    }
  }

  lemma ReachableMarks(env: Platform, w: State)
    requires Lawful(env) && Reachable(env, w)
    ensures AllMark(env, w)
  {
    hide Enabled, Next, Lineage, Authored;
    var start, run :| Initial(env, start) && Possible(env, start, run) && w == After(env, start, run);
    InitialInv(env, start);
    RunMarks(env, start, run);
  }

  // What is there already: the two annotations, for the end this reconcile has computed.
  predicate MarkedAlready(env: Platform, a: Anns, e: int) {
    ExpireAt in a && a[ExpireAt] == env.format(e) && Status in a && a[Status] == ActiveStatus(env, e)
  }

  // However many reconciles run, overlap, or lose their patches: one that has read an active lease
  // with its annotations in place sends an empty patch, and no version comes of it.
  lemma StillInRuns(env: Platform, w: State, i: nat, refresh: bool)
    requires Lawful(env) && Reachable(env, w) && Enabled(env, w, PatchLands(i, refresh))
    requires var f := w.flights[i];
             && f.pass.phase == Activating && Exists(w.log, f.readAt)
             && var a := At(w.log, f.readAt).anns;
             && ParsedStart(env, a).Some? && MarkedAlready(env, a, f.pass.expireAt)
    ensures var p := w.flights[i].pass;
            && Sane(p) && Ask(p) == PatchObject(w.name, map[])
            && Next(env, w, PatchLands(i, refresh)).log == w.log
  {
    hide Lawful, Reachable, Inv, FlightOk, Next, ParsedStart, MarkedAlready, MergeDiff, Marks, Marked, Landing, AllMark;
    ReachableFlight(env, w, i);
    RequestsOfFlights(env, w, i);
    SeenMarked(env, w.log, w.flights[i]);
    AlreadyMarked(env, w.flights[i]);
    NothingSent(w, i);
    PatchWrites(env, w, i, refresh);
  }

  lemma AlreadyMarked(env: Platform, f: Flight)
    requires Marks(env, f) && f.pass.phase == Activating
    requires f.seen.Some? && ParsedStart(env, f.seen.value.anns).Some?
    requires Marked(env, f.seen.value.anns, f.pass.expireAt) == f.seen.value.anns
    ensures f.pass.base == f.pass.obj.anns
  {
    hide Marked, ParsedStart;
  }

  lemma ReachableFlight(env: Platform, w: State, i: nat)
    requires Lawful(env) && Reachable(env, w) && i < |w.flights|
    ensures FlightOk(env, w.log, w.flights[i]) && Marks(env, w.flights[i])
  {
    hide Reachable, FlightOk, Marks, Lineage, Authored, Lawful;
    ReachableKeeps(env, w);
    ReachableMarks(env, w);
  }

  lemma SeenMarked(env: Platform, log: seq<Version>, f: Flight)
    requires FlightOk(env, log, f) && f.pass.phase == Activating && Exists(log, f.readAt)
    requires var a := At(log, f.readAt).anns;
             ParsedStart(env, a).Some? && MarkedAlready(env, a, f.pass.expireAt)
    ensures f.seen.Some? && ParsedStart(env, f.seen.value.anns).Some?
    ensures Marked(env, f.seen.value.anns, f.pass.expireAt) == f.seen.value.anns
  {
    var o := f.seen.value;
    KeptStart(env, o, At(log, f.readAt));
    hide FlightOk, ActiveStatus, ParsedStart;
    assert SameAt(o.anns, At(log, f.readAt).anns, ExpireAt) && SameAt(o.anns, At(log, f.readAt).anns, Status);
  }

  lemma NothingSent(w: State, i: nat)
    requires i < |w.flights| && w.log != [] && Current(w).Some?
    requires w.flights[i].pass.base == w.flights[i].pass.obj.anns
    ensures MergeDiff(w.flights[i].pass.base, w.flights[i].pass.obj.anns) == map[]
    ensures Landing(w, i) == w
  {
    var s := Current(w).value.anns;
    assert MergeDiff(w.flights[i].pass.base, w.flights[i].pass.obj.anns) == map[];
    assert MergeApply(s, map[]) == s;
  }

  lemma PatchWrites(env: Platform, w: State, i: nat, refresh: bool)
    requires Enabled(env, w, PatchLands(i, refresh))
    ensures Next(env, w, PatchLands(i, refresh)).log == Landing(w, i).log
  {
    hide Landing, Moved;
    NextIsPut(env, w, PatchLands(i, refresh));
  }
}

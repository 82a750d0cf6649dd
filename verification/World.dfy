// One object name in a running cluster: the server's versions of it, the informer cache, the work
// queue, and any number of reconciles in flight, interleaved with everything users may do.
// Reconciles only ever ask about their own name, so names do not interact.
module World {
  import opened Wrappers
  import opened Kube
  import opened ObjectFilter
  import opened LeasePass

  datatype Author = Outside | ByFlight(i: nat)

  // The state of the name after one write: the object, or nothing.
  datatype Version = Version(state: Option<Obj>, author: Author)

  // The queue runs one reconcile at a time; the namespace listener starts as many as it likes and
  // throws their results away.
  datatype Origin = FromQueue | FromNamespace

  datatype Flight = Flight(
    origin: Origin,
    pass: Pass,
    seen: Option<Obj>,     // the object as it was read
    readAt: nat,           // the version that was read
    viewAt: nat,           // the version the copy was last loaded from
    decidedAt: nat,        // what viewAt was when the TTL was parsed
    begunAt: Option<nat>,  // the version in force when the lease-start patch landed
    goneAt: nat,           // the version that answered the delete
    endedAt: int)

  datatype State = State(
    name: string,
    clock: int,
    log: seq<Version>,
    cached: nat,           // the version the informer has delivered
    queued: bool,
    wake: Option<int>,     // the delayed queue keeps the earliest request
    tracked: bool,
    flights: seq<Flight>,
    latest: Option<nat>)   // the last flight started from the queue by this process

  // ---------- events and queue ----------

  const RELEVANT: set<Key> := {TTL, LeaseStart}

  function Relevant(a: Anns): Anns {
    map k | k in a && k in RELEVANT :: a[k]
  }

  // The event predicate of the controller.
  predicate Triggers(before: Option<Obj>, after: Option<Obj>) {
    match (before, after)
    case (None, Some(n)) => TTL in n.anns
    case (Some(o), Some(n)) => Relevant(o.anns) != Relevant(n.anns)
    case _ => false
  }

  function Sooner(wake: Option<int>, t: int): Option<int> {
    if wake.Some? && wake.value <= t then wake else Some(t)
  }

  function Current(w: State): Option<Obj> {
    if w.log == [] then None else w.log[|w.log| - 1].state
  }

  predicate Live(f: Flight) { f.pass.phase != Finished }

  predicate QueueBusy(w: State) {
    exists i | 0 <= i < |w.flights| :: w.flights[i].origin == FromQueue && Live(w.flights[i])
  }

  // ---------- steps ----------

  datatype Action =
    | Tick(to: int)
    | UserWrite(anns: Option<Anns>)
    | Deliver
    | Fire
    | Track(on: bool)
    | StartQueued
    | StartDirect
    | Restart(on: bool)
    | Fetch(i: nat, at: nat, filtered: bool)
    | FetchFails(i: nat)
    | TellTime(i: nat)
    | PatchLost(i: nat)
    | PatchLands(i: nat, refresh: bool)
    | JobAnswer(i: nat, ok: bool)
    | DeleteArrives(i: nat, told: bool)
    | DeleteLost(i: nat)

  predicate InPhase(w: State, i: nat, ph: Phase) {
    i < |w.flights| && w.flights[i].pass.phase == ph
  }

  predicate Enabled(env: Platform, w: State, a: Action) {
    w.log != [] &&
    match a
    case Tick(to) => w.clock <= to < env.hi
    case Deliver => w.cached + 1 < |w.log|
    case Fire => w.wake.Some? && w.wake.value <= w.clock
    case StartQueued => w.queued && !QueueBusy(w)
    case Fetch(i, at, _) =>
      InPhase(w, i, Fetching) && w.cached <= at < |w.log| && (at == w.cached || at + 1 == |w.log|)
    case FetchFails(i) => InPhase(w, i, Fetching)
    case TellTime(i) => InPhase(w, i, Clocking)
    case PatchLost(i) => i < |w.flights| && Patching(w.flights[i].pass.phase)
    case PatchLands(i, _) => i < |w.flights| && Patching(w.flights[i].pass.phase) && Current(w).Some?
    case JobAnswer(i, _) =>
      (InPhase(w, i, Creating) || InPhase(w, i, Awaiting)) && w.flights[i].pass.config.Some?
    case DeleteArrives(i, _) => InPhase(w, i, Deleting)
    case DeleteLost(i) => InPhase(w, i, Deleting)
    case _ => true
  }

  function Append(w: State, s: Option<Obj>, who: Author): State {
    w.(log := w.log + [Version(s, who)])
  }

  // Writing an object back unchanged makes no new version.
  function WriteAnns(w: State, anns: Anns, who: Author): State
    requires Current(w).Some?
  {
    if anns == Current(w).value.anns then w
    else Append(w, Some(Current(w).value.(anns := anns)), who)
  }

  // A new incarnation takes its version number as uid, which no earlier one can have.
  function UserWrites(w: State, anns: Option<Anns>): State
    requires w.log != []
  {
    match (Current(w), anns)
    case (None, None) => w
    case (None, Some(a)) => Append(w, Some(Obj(|w.log|, a)), Outside)
    case (Some(_), None) => Append(w, None, Outside)
    case (Some(_), Some(a)) => WriteAnns(w, a, Outside)
  }

  function Launch(w: State, origin: Origin): State {
    w.(flights := w.flights + [Flight(origin, Begin(w.name, w.tracked), None, 0, 0, 0, None, 0, w.clock)])
  }

  // Put flight i into its next state; a finished queue flight reports to the queue.
  function Put(w: State, i: nat, f: Flight): State
    requires i < |w.flights|
  {
    if Live(f) then w.(flights := w.flights[i := f])
    else
      var v := w.(flights := w.flights[i := f.(endedAt := w.clock)]);
      if f.origin == FromNamespace then v
      else match f.pass.ending
        case GetError => v.(queued := true)
        case DeleteError => v.(queued := true)
        case Active(d) => if d > 0 then v.(wake := Sooner(w.wake, w.clock + d)) else v
        case _ => v
  }

  function Crash(f: Flight): Flight {
    if Live(f) then f.(pass := Finish(f.pass, Crashed)) else f
  }

  function View(o: Obj, filtered: bool): Obj {
    if filtered then Stripped(o, KEEP) else o
  }

  function Fetched(w: State, f: Flight, at: nat, filtered: bool): Flight
    requires at < |w.log|
  {
    match w.log[at].state
    case None => f.(pass := OnGet(f.pass, NotFound), readAt := at)
    case Some(o) =>
      var v := View(o, filtered);
      f.(pass := OnGet(f.pass, Found(v)), seen := Some(v), readAt := at, viewAt := at)
  }

  function Landing(w: State, i: nat): State
    requires i < |w.flights| && w.log != [] && Current(w).Some?
  {
    var p := w.flights[i].pass;
    WriteAnns(w, MergeApply(Current(w).value.anns, MergeDiff(p.base, p.obj.anns)), ByFlight(i))
  }

  // The flight after its patch landed; log is the server's after the landing.
  function Acknowledged(env: Platform, f: Flight, log: seq<Version>, refresh: bool): Flight
    requires log != []
  {
    var m: nat := |log| - 1;
    var viewAt := if refresh then m else f.viewAt;
    var g := f.(pass := OnPatch(env, f.pass, Landed(if refresh then log[m].state else None)),
                viewAt := viewAt);
    if f.pass.phase == Starting then g.(begunAt := Some(m), decidedAt := viewAt) else g
  }

  function PatchFailed(env: Platform, f: Flight): Flight {
    var g := f.(pass := OnPatch(env, f.pass, Lost));
    if f.pass.phase == Starting then g.(decidedAt := f.viewAt) else g
  }

  function DeleteStep(w: State, i: nat): State
    requires i < |w.flights| && w.log != []
  {
    if Current(w).Some? && Current(w).value.uid == w.flights[i].pass.obj.uid
    then Append(w, None, ByFlight(i))
    else w
  }

  // Gone already is fine; another uid is a conflict.
  function DeleteReply(w: State, f: Flight): DeleteAnswer
    requires w.log != []
  {
    if Current(w).None? then Absent
    else if Current(w).value.uid == f.pass.obj.uid then Deleted
    else Refused
  }

  // The actions by which flight a.i gets an answer.
  predicate OfFlight(a: Action) {
    a.Fetch? || a.FetchFails? || a.TellTime? || a.PatchLost? || a.PatchLands? || a.JobAnswer?
    || a.DeleteArrives? || a.DeleteLost?
  }

  // What the request does to the server ...
  function Wrote(w: State, a: Action): State
    requires OfFlight(a) && a.i < |w.flights| && w.log != []
    requires a.PatchLands? ==> Current(w).Some?
  {
    match a
    case PatchLands(i, _) => Landing(w, i)
    case DeleteArrives(i, _) => DeleteStep(w, i)
    case _ => w
  }

  // ... and the flight once it has the answer.
  function Moved(env: Platform, w: State, a: Action): Flight
    requires OfFlight(a) && Enabled(env, w, a)
  {
    var f := w.flights[a.i];
    match a
    case Fetch(_, at, filtered) => Fetched(w, f, at, filtered)
    case FetchFails(_) => f.(pass := OnGet(f.pass, GetFailed))
    case TellTime(_) => f.(pass := OnClock(env, f.pass, w.clock), decidedAt := f.viewAt)
    case PatchLost(_) => PatchFailed(env, f)
    case PatchLands(i, refresh) => Acknowledged(env, f, Landing(w, i).log, refresh)
    case JobAnswer(_, ok) =>
      f.(pass := if f.pass.phase == Creating then OnCreate(f.pass, ok) else OnAwait(f.pass, ok))
    case DeleteArrives(i, told) =>
      f.(pass := OnDelete(f.pass, if told then DeleteReply(w, f) else Refused),
         goneAt := |DeleteStep(w, i).log| - 1)
    case DeleteLost(_) => f.(pass := OnDelete(f.pass, Refused))
  }

  function Next(env: Platform, w: State, a: Action): State
    requires Enabled(env, w, a)
  {
    match a
    case Tick(to) => w.(clock := to)
    case UserWrite(anns) => UserWrites(w, anns)
    case Deliver =>
      w.(cached := w.cached + 1,
         queued := w.queued || (w.cached < |w.log| &&
                                Triggers(w.log[w.cached].state, w.log[w.cached + 1].state)))
    case Fire => w.(wake := None, queued := true)
    case Track(on) => w.(tracked := on)
    case StartQueued => Launch(w, FromQueue).(queued := false, latest := Some(|w.flights|))
    case StartDirect => Launch(w, FromNamespace)
    case Restart(on) =>
      w.(cached := |w.log| - 1, wake := None, tracked := on, latest := None,
         queued := Triggers(None, Current(w)),
         flights := seq(|w.flights|, k requires 0 <= k < |w.flights| => Crash(w.flights[k])))
    case _ => Put(Wrote(w, a), a.i, Moved(env, w, a))
  }

  lemma NextIsPut(env: Platform, w: State, a: Action)
    requires OfFlight(a) && Enabled(env, w, a)
    ensures Next(env, w, a) == Put(Wrote(w, a), a.i, Moved(env, w, a))
  {
    hide Put, Wrote, Moved;
  }

  lemma PutAt(v: State, i: nat, f: Flight)
    requires i < |v.flights|
    ensures i < |Put(v, i, f).flights| && Put(v, i, f).flights[i].pass == f.pass
  {
  }

  // ---------- runs ----------

  predicate Initial(env: Platform, w: State) {
    && env.lo <= w.clock < env.hi
    && w.log == [Version(None, Outside)] && w.cached == 0
    && !w.queued && w.wake == None && w.flights == [] && w.latest == None
  }

  predicate Possible(env: Platform, w: State, run: seq<Action>)
    decreases |run|
  {
    run == [] || (Enabled(env, w, run[0]) && Possible(env, Next(env, w, run[0]), run[1..]))
  }

  function After(env: Platform, w: State, run: seq<Action>): State
    requires Possible(env, w, run)
    decreases |run|
  {
    if run == [] then w else After(env, Next(env, w, run[0]), run[1..])
  }

  ghost predicate Reachable(env: Platform, w: State) {
    exists start, run :: Initial(env, start) && Possible(env, start, run) && w == After(env, start, run)
  }
}

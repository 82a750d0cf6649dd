// What every step of every run keeps.
module WorldInvariant {
  import opened Wrappers
  import opened Kube
  import opened ObjectFilter
  import opened LeasePass
  import opened CleanupJob
  import opened World
  import Duration

  // ---------- one flight ----------

  // Past reading the clock.
  predicate Timed(p: Pass) {
    p.phase in {Starting, Marking, Activating, Expiring, Creating, Awaiting, Deleting}
    || p.ending.Invalid? || p.ending.Active? || p.ending.Expired? || p.ending.DeleteError?
  }

  predicate Decided(p: Pass) { Timed(p) && p.phase != Starting }

  predicate Refusing(p: Pass) { p.phase == Marking || p.ending.Invalid? }

  predicate Dying(p: Pass) {
    p.phase in {Expiring, Creating, Awaiting, Deleting}
    || p.ending.Expired? || p.ending.DeleteError?
  }

  predicate Exists(log: seq<Version>, k: nat) { k < |log| && log[k].state.Some? }

  function At(log: seq<Version>, k: nat): Obj
    requires Exists(log, k)
  {
    log[k].state.value
  }

  ghost predicate SameOutside(a: Anns, b: Anns) {
    forall k | k !in OUTPUTS :: SameAt(a, b, k)
  }

  // The lease start the pass works with: the one it saw, or the clock reading.
  predicate StartOk(env: Platform, p: Pass, seen: Anns) {
    && env.lo <= p.now < env.hi
    && p.startAt == match ParsedStart(env, seen) case Some(t) => t case None => p.now
  }

  predicate StartingOk(env: Platform, f: Flight, seen: Anns) {
    && f.viewAt == f.readAt && f.begunAt == None
    && ParsedStart(env, seen) == None
    && f.pass.base == seen && f.pass.obj.anns == seen[LeaseStart := env.format(f.pass.now)]
  }

  // The decision taken from the TTL text in force when the copy was last refreshed before it.
  predicate DecisionOk(env: Platform, log: seq<Version>, f: Flight, seen: Anns) {
    var p := f.pass;
    && f.readAt <= f.decidedAt <= f.viewAt && Exists(log, f.decidedAt)
    && (f.begunAt == None ==> f.decidedAt == f.readAt)
    && (ParsedStart(env, seen).Some? ==> f.begunAt == None)
    && (f.begunAt.Some? ==>
          var m := f.begunAt.value;
          f.readAt <= m && Exists(log, m) && Get(At(log, m).anns, LeaseStart) == env.format(p.now))
    && var ttl := ParsedTTL(env, At(log, f.decidedAt).anns);
    && (Refusing(p) ==> ttl.Err?)
    && (!Refusing(p) ==> ttl.Ok? && p.expireAt == p.startAt + ttl.value)
    && (Dying(p) ==> p.now > p.expireAt)
    && (!Refusing(p) && !Dying(p) ==> p.now <= p.expireAt)
    && (p.ending.Active? ==> p.ending == Active(Delay(p.expireAt, p.now)))
  }

  predicate ShownFrom(o: Obj, full: Obj) {
    o.uid == full.uid && (o.anns == full.anns || o.anns == Kept(full.anns, KEEP))
  }

  // The copy still carries the uid and the TTL of the version it was last loaded from.
  predicate CopyOk(log: seq<Version>, f: Flight, o: Obj) {
    && f.readAt <= f.viewAt && Exists(log, f.readAt) && Exists(log, f.viewAt)
    && ShownFrom(o, At(log, f.readAt))
    && f.pass.obj.uid == At(log, f.viewAt).uid
    && SameAt(f.pass.obj.anns, At(log, f.viewAt).anns, TTL)
  }

  ghost predicate LoadedOk(env: Platform, log: seq<Version>, f: Flight, o: Obj) {
    var p := f.pass;
    && p.phase != Fetching && !p.ending.Untracked? && !p.ending.Gone? && !p.ending.GetError?
    && CopyOk(log, f, o)
    && (p.phase == Clocking ==> p.obj == o && f.viewAt == f.readAt && f.begunAt == None)
    && (p.phase == Cleaning || p.ending.Cleaned? ==> NoTTL(o.anns))
    && (p.phase == Cleaning ==> p.base == o.anns && p.obj.anns == WithoutOutputs(o.anns))
    && (p.phase == Clocking || Timed(p) ==> !NoTTL(o.anns))
    && (Timed(p) ==> StartOk(env, p, o.anns))
    && (p.phase == Starting ==> StartingOk(env, f, o.anns))
    && (Decided(p) ==> DecisionOk(env, log, f, o.anns))
    && (Patching(p.phase) ==> SameOutside(p.base, p.obj.anns))
    && (p.ending.Expired? ==> f.readAt <= f.goneAt < |log| && log[f.goneAt].state == None)
  }

  ghost predicate FlightOk(env: Platform, log: seq<Version>, f: Flight) {
    var p := f.pass;
    && Sane(p) && (Live(f) <==> p.ending.Running?)
    && match f.seen
       case Some(o) => LoadedOk(env, log, f, o)
       case None =>
         && f.begunAt == None
         && (p.phase == Fetching || p.ending.Untracked? || p.ending.Gone? || p.ending.GetError?
             || p.ending.Crashed?)
         && (p.ending.Gone? ==> f.readAt < |log| && log[f.readAt].state == None)
  }

  // ---------- the log ----------

  // A uid names one uninterrupted stretch of versions, and says where it began.
  predicate LineageAt(log: seq<Version>, k: nat)
    requires k < |log|
  {
    log[k].state.Some? ==>
      var u := log[k].state.value.uid;
      && 1 <= u <= k && log[u - 1].state == None
      && forall m | u <= m <= k :: log[m].state.Some? && log[m].state.value.uid == u
  }

  predicate Lineage(log: seq<Version>) {
    log != [] && log[0] == Version(None, Outside) && forall k: nat | k < |log| :: LineageAt(log, k)
  }

  // Version j is the delete of flight f, which held the uid it removed.
  predicate RemovedBy(log: seq<Version>, j: nat, f: Flight) {
    && 1 <= j && Exists(log, j - 1)
    && f.seen.Some? && (f.pass.ending.Expired? || f.pass.ending.DeleteError?)
    && f.viewAt < j && At(log, j - 1).uid == f.pass.obj.uid
  }

  // The controller only rewrites its own annotations and only deletes what it may.
  ghost predicate AuthoredAt(log: seq<Version>, flights: seq<Flight>, j: nat)
    requires j < |log|
  {
    log[j].author.ByFlight? ==>
      var i := log[j].author.i;
      && i < |flights| && 1 <= j && Exists(log, j - 1)
      && match log[j].state
         case Some(o) => o.uid == At(log, j - 1).uid && SameOutside(At(log, j - 1).anns, o.anns)
         case None => RemovedBy(log, j, flights[i])
  }

  ghost predicate Authored(log: seq<Version>, flights: seq<Flight>) {
    forall j: nat | j < |log| :: AuthoredAt(log, flights, j)
  }

  ghost predicate FlightsOk(env: Platform, log: seq<Version>, flights: seq<Flight>) {
    forall i: nat | i < |flights| :: FlightOk(env, log, flights[i])
  }

  ghost predicate Inv(env: Platform, w: State) {
    && env.lo <= w.clock < env.hi
    && Lineage(w.log) && w.cached < |w.log|
    && Authored(w.log, w.flights) && FlightsOk(env, w.log, w.flights)
  }

  // ---------- growth of the log ----------

  lemma FlightGrows(env: Platform, log: seq<Version>, more: seq<Version>, f: Flight)
    requires FlightOk(env, log, f)
    ensures FlightOk(env, log + more, f)
  {
    hide ParsedTTL, ParsedStart, ShownFrom, SameOutside;
    assert forall k: nat | Exists(log, k) :: Exists(log + more, k) && At(log + more, k) == At(log, k);
  }

  lemma LineageGrows(log: seq<Version>, v: Version)
    requires Lineage(log)
    requires v.state.Some? ==>
               var last := log[|log| - 1].state;
               v.state.value.uid == if last.Some? then last.value.uid else |log|
    ensures Lineage(log + [v])
  {
    var l := log + [v];
    forall k: nat | k < |l| ensures LineageAt(l, k) {
      if k < |log| {
        assert LineageAt(log, k);
      } else if v.state.Some? && log[k - 1].state.Some? {
        assert LineageAt(log, k - 1);
      }
    }
  }

  lemma FlightsGrow(env: Platform, log: seq<Version>, more: seq<Version>, flights: seq<Flight>)
    requires FlightsOk(env, log, flights)
    ensures FlightsOk(env, log + more, flights)
  {
    forall i: nat | i < |flights| ensures FlightOk(env, log + more, flights[i]) {
      FlightGrows(env, log, more, flights[i]);
    }
  }

  lemma AuthoredGrows(log: seq<Version>, v: Version, flights: seq<Flight>)
    requires Authored(log, flights)
    requires AuthoredAt(log + [v], flights, |log|)
    ensures Authored(log + [v], flights)
  {
    var l := log + [v];
    forall j: nat | j < |l| ensures AuthoredAt(l, flights, j) {
      if j < |log| { assert AuthoredAt(log, flights, j); }
    }
  }

  // Flights that have deleted are finished, so changing the others disturbs no authorship.
  lemma AuthoredKept(log: seq<Version>, flights: seq<Flight>, changed: seq<Flight>)
    requires Authored(log, flights) && |flights| <= |changed|
    requires forall i: nat | i < |flights| ::
               changed[i] == flights[i] || flights[i].pass.ending.Running?
    ensures Authored(log, changed)
  {
    forall j: nat | j < |log| ensures AuthoredAt(log, changed, j) {
      assert AuthoredAt(log, flights, j);
    }
  }

  // ---------- answers ----------

  lemma FetchedOk(env: Platform, w: State, f: Flight, at: nat, filtered: bool)
    requires FlightOk(env, w.log, f) && f.pass.phase == Fetching
    requires at < |w.log|
    ensures FlightOk(env, w.log, Fetched(w, f, at, filtered))
  {
    hide ParsedTTL, ParsedStart;
  }

  // Reading the TTL off the copy decides the pass.
  lemma DecideOk(env: Platform, log: seq<Version>, f: Flight, o: Obj, p: Pass)
    requires CopyOk(log, f.(pass := p), o) && f.seen == Some(o) && !NoTTL(o.anns)
    requires StartOk(env, p, o.anns) && p.ending.Running? && f.decidedAt == f.viewAt
    requires f.begunAt == None ==> f.decidedAt == f.readAt
    requires ParsedStart(env, o.anns).Some? ==> f.begunAt == None
    requires f.begunAt.Some? ==>
               var m := f.begunAt.value;
               f.readAt <= m && Exists(log, m) && Get(At(log, m).anns, LeaseStart) == env.format(p.now)
    ensures FlightOk(env, log, f.(pass := Decide(env, p)))
  {
    hide ParsedStart, Duration.Parse, ShownFrom, ActiveStatus, InvalidStatus, EXPIRED_STATUS;
    var q := Decide(env, p);
    assert ParsedTTL(env, At(log, f.decidedAt).anns) == ParsedTTL(env, p.obj.anns);
    assert q.base == p.obj.anns && q.startAt == p.startAt && q.now == p.now;
    assert SameOutside(q.base, q.obj.anns);
    assert SameAt(q.base, q.obj.anns, TTL);
  }

  lemma TimedOk(env: Platform, w: State, f: Flight)
    requires FlightOk(env, w.log, f) && f.pass.phase == Clocking && env.lo <= w.clock < env.hi
    ensures FlightOk(env, w.log, f.(pass := OnClock(env, f.pass, w.clock), decidedAt := f.viewAt))
  {
    hide Duration.Parse, ShownFrom, Decide;
    var o := f.seen.value;
    var p := f.pass.(now := w.clock);
    match ParsedStart(env, o.anns)
    case Some(t) =>
      DecideOk(env, w.log, f.(decidedAt := f.viewAt), o, p.(startAt := t));
    case None =>
  }

  // The copy after an answer: refreshed from version viewAt, or left alone.
  predicate Refreshes(log: seq<Version>, f: Flight, a: PatchAnswer, viewAt: nat) {
    if a.Landed? && a.refreshed.Some?
    then f.viewAt <= viewAt && Exists(log, viewAt) && a.refreshed.value == At(log, viewAt)
    else viewAt == f.viewAt
  }

  lemma ClosingAnswerOk(env: Platform, log: seq<Version>, f: Flight, a: PatchAnswer, viewAt: nat)
    requires FlightOk(env, log, f) && Refreshes(log, f, a, viewAt)
    requires f.pass.phase in {Cleaning, Marking, Activating}
    ensures FlightOk(env, log, f.(pass := OnPatch(env, f.pass, a), viewAt := viewAt))
  {
    hide ParsedTTL, ParsedStart, ShownFrom, Decide, ParseConfig, SameOutside;
  }

  lemma ExpiringAnswerOk(env: Platform, log: seq<Version>, f: Flight, a: PatchAnswer, viewAt: nat)
    requires FlightOk(env, log, f) && Refreshes(log, f, a, viewAt) && f.pass.phase == Expiring
    ensures FlightOk(env, log, f.(pass := OnPatch(env, f.pass, a), viewAt := viewAt))
  {
    hide ParsedTTL, ParsedStart, ShownFrom, Decide, ParseConfig, SameOutside;
  }

  lemma StartingAnswerOk(env: Platform, log: seq<Version>, f: Flight, a: PatchAnswer, viewAt: nat,
                         begunAt: Option<nat>)
    requires FlightOk(env, log, f) && Refreshes(log, f, a, viewAt) && f.pass.phase == Starting
    requires a.Landed? <==> begunAt.Some?
    requires begunAt.Some? ==>
               var m := begunAt.value;
               f.readAt <= m && Exists(log, m) && Get(At(log, m).anns, LeaseStart) == env.format(f.pass.now)
    ensures FlightOk(env, log, f.(pass := OnPatch(env, f.pass, a), viewAt := viewAt,
                                  decidedAt := viewAt, begunAt := begunAt))
  {
    hide ParsedTTL, ParsedStart, ShownFrom, Decide, ParseConfig;
    var q := Absorb(f.pass, a);
    var r := CountStart(q);
    DecideOk(env, log, f.(viewAt := viewAt, decidedAt := viewAt, begunAt := begunAt), f.seen.value, r);
  }

  function Answered(env: Platform, f: Flight, a: PatchAnswer, viewAt: nat, begunAt: Option<nat>): Flight {
    var g := f.(pass := OnPatch(env, f.pass, a), viewAt := viewAt);
    if f.pass.phase == Starting then g.(decidedAt := viewAt, begunAt := begunAt) else g
  }

  lemma AnswerOk(env: Platform, log: seq<Version>, f: Flight, a: PatchAnswer, viewAt: nat,
                 begunAt: Option<nat>)
    requires FlightOk(env, log, f) && Refreshes(log, f, a, viewAt) && Patching(f.pass.phase)
    requires a.Landed? <==> begunAt.Some?
    requires f.pass.phase == Starting && begunAt.Some? ==>
               var m := begunAt.value;
               f.readAt <= m && Exists(log, m) && Get(At(log, m).anns, LeaseStart) == env.format(f.pass.now)
    ensures FlightOk(env, log, Answered(env, f, a, viewAt, begunAt))
  {
    hide FlightOk, OnPatch, Refreshes;
    if f.pass.phase == Starting {
      StartingAnswerOk(env, log, f, a, viewAt, begunAt);
    } else if f.pass.phase == Expiring {
      ExpiringAnswerOk(env, log, f, a, viewAt);
    } else {
      ClosingAnswerOk(env, log, f, a, viewAt);
    }
  }

  lemma PatchFailedOk(env: Platform, log: seq<Version>, f: Flight)
    requires FlightOk(env, log, f) && Patching(f.pass.phase)
    ensures FlightOk(env, log, PatchFailed(env, f))
  {
    StartingBegins(env, log, f);
    hide FlightOk, OnPatch;
    AnswerOk(env, log, f, Lost, f.viewAt, None);
  }

  lemma StartingBegins(env: Platform, log: seq<Version>, f: Flight)
    requires FlightOk(env, log, f)
    ensures f.pass.phase == Starting ==> f.begunAt == None
  {
  }

  // The lease start a pass writes is readable, so it differs from what it replaces and the server
  // takes it whatever the server held.
  lemma StartLands(env: Platform, server: Anns, base: Anns, now: int)
    requires Lawful(env) && env.lo <= now < env.hi && ParsedStart(env, base) == None
    ensures var text := env.format(now);
            && ParsedStart(env, map[LeaseStart := text]) == Some(Floor(now))
            && Get(MergeApply(server, MergeDiff(base, base[LeaseStart := text])), LeaseStart) == text
  {
    MergeOnAny(server, base, base[LeaseStart := env.format(now)], LeaseStart);
  }

  // What a landed patch leaves on the server.
  lemma LandingShape(w: State, i: nat)
    requires i < |w.flights| && w.log != [] && Current(w).Some?
    ensures var v, p := Landing(w, i), w.flights[i].pass;
            var merged := MergeApply(Current(w).value.anns, MergeDiff(p.base, p.obj.anns));
            && v == w.(log := v.log)
            && (v.log == w.log || v.log == w.log + [Version(Current(v), ByFlight(i))])
            && Current(v) == Some(Current(w).value.(anns := merged))
  {
    hide MergeApply, MergeDiff;
  }

  lemma LandedOk(env: Platform, w: State, i: nat, refresh: bool)
    requires Lawful(env) && i < |w.flights| && w.log != [] && Current(w).Some?
    requires FlightOk(env, w.log, w.flights[i]) && Patching(w.flights[i].pass.phase)
    ensures var v := Landing(w, i);
            FlightOk(env, v.log, Acknowledged(env, w.flights[i], v.log, refresh))
  {
    hide FlightOk, Acknowledged, Landing, MergeApply, MergeDiff, Get, OnPatch, Refreshes, Lawful, ParsedStart;
    var v, f := Landing(w, i), w.flights[i];
    LandingShape(w, i);
    PatchingFacts(env, w.log, f);
    FlightGrows(env, w.log, v.log[|w.log|..], f);
    assert v.log == w.log + v.log[|w.log|..];
    if f.pass.phase == Starting {
      StartLands(env, Current(w).value.anns, f.pass.base, f.pass.now);
    }
    var m: nat := |v.log| - 1;
    var a := Landed(if refresh then v.log[m].state else None);
    var viewAt := if refresh then m else f.viewAt;
    LandedIsAnswered(env, v.log, f, refresh);
    AnswerOk(env, v.log, f, a, viewAt, Some(m));
  }

  lemma LandedIsAnswered(env: Platform, log: seq<Version>, f: Flight, refresh: bool)
    requires log != [] && Exists(log, |log| - 1) && f.viewAt < |log|
    ensures var m: nat := |log| - 1;
            var a := Landed(if refresh then log[m].state else None);
            var viewAt := if refresh then m else f.viewAt;
            && Acknowledged(env, f, log, refresh) == Answered(env, f, a, viewAt, Some(m))
            && Refreshes(log, f, a, viewAt)
  {
    hide OnPatch;
  }

  lemma PatchingFacts(env: Platform, log: seq<Version>, f: Flight)
    requires FlightOk(env, log, f) && Patching(f.pass.phase)
    ensures f.viewAt < |log| && f.readAt < |log|
    ensures f.pass.phase == Starting ==>
              && env.lo <= f.pass.now < env.hi && ParsedStart(env, f.pass.base) == None
              && f.pass.obj.anns == f.pass.base[LeaseStart := env.format(f.pass.now)]
  {
  }

  lemma JobAnswerOk(env: Platform, log: seq<Version>, f: Flight, ok: bool)
    requires FlightOk(env, log, f) && f.pass.phase in {Creating, Awaiting} && f.pass.config.Some?
    ensures FlightOk(env, log, f.(pass :=
              if f.pass.phase == Creating then OnCreate(f.pass, ok) else OnAwait(f.pass, ok)))
  {
    hide ParsedTTL, ParsedStart, ShownFrom;
  }

  lemma DeletedOk(env: Platform, log: seq<Version>, f: Flight, a: DeleteAnswer, gone: nat)
    requires FlightOk(env, log, f) && f.pass.phase == Deleting
    requires a != Refused ==> f.readAt <= gone < |log| && log[gone].state == None
    ensures FlightOk(env, log, f.(pass := OnDelete(f.pass, a), goneAt := gone))
  {
    hide ParsedTTL, ParsedStart, ShownFrom;
  }
}

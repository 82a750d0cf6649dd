// Expiry over whole runs: users edit, patches get lost and reconciles overlap as they like.
module LeaseRuns {
  import opened Wrappers
  import opened Kube
  import opened LeasePass
  import opened World
  import opened WorldInvariant
  import opened WorldRuns
  import opened Safety
  import opened Coverage
  import LeaseLaws

  // The ttl a reconcile went by: that of the version its copy was last loaded from before deciding.
  function TTLOf(env: Platform, w: State, f: Flight): Option<int>
    requires Exists(w.log, f.decidedAt)
  {
    match ParsedTTL(env, At(w.log, f.decidedAt).anns) case Ok(t) => Some(t) case Err(_) => None
  }

  // Every reconcile that has decided went by a ttl and a start it could see: it reports the ttl
  // exactly if that does not parse, and it expires exactly if its clock reading lies strictly after
  // start plus ttl.
  lemma DecisionInRuns(env: Platform, w: State, i: nat)
    requires Lawful(env) && Reachable(env, w) && i < |w.flights| && Decided(w.flights[i].pass)
    ensures var f := w.flights[i];
            && f.readAt <= f.decidedAt && Exists(w.log, f.readAt) && Exists(w.log, f.decidedAt)
            && var start := StartFrom(env, w.log, f.readAt, f.pass.now);
            && f.pass.startAt == start && env.lo <= f.pass.now < env.hi
            && match TTLOf(env, w, f)
               case None => Refusing(f.pass) && !Dying(f.pass)
               case Some(ttl) =>
                 && !Refusing(f.pass) && f.pass.expireAt == start + ttl
                 && (Dying(f.pass) <==> f.pass.now > start + ttl)
  {
    ReachableKeeps(env, w);
    var f := w.flights[i];
    assert FlightOk(env, w.log, f);
    hide Reachable, Lineage, Authored, SameOutside, ParsedTTL;
    KeptStart(env, f.seen.value, At(w.log, f.readAt));
  }

  // The lease that reconcile f began: its start patch landed, and its ttl is still that of the
  // version it landed in.
  predicate Began(env: Platform, w: State, f: Flight, m: nat) {
    && f.begunAt == Some(m) && Decided(f.pass) && Exists(w.log, m) && Exists(w.log, f.decidedAt)
    && TTLOf(env, w, f).Some?
    && SameAt(At(w.log, m).anns, At(w.log, f.decidedAt).anns, TTL)
  }

  lemma BegunFacts(env: Platform, w: State, i: nat, m: nat)
    requires Lawful(env) && Reachable(env, w) && i < |w.flights| && Began(env, w, w.flights[i], m)
    ensures var f := w.flights[i];
            && f.pass.startAt == f.pass.now
            && ParsedStart(env, At(w.log, m).anns) == Some(Floor(f.pass.now))
            && ParsedTTL(env, At(w.log, m).anns) == ParsedTTL(env, At(w.log, f.decidedAt).anns)
  {
    DecisionInRuns(env, w, i);
    ReachableKeeps(env, w);
    var f := w.flights[i];
    assert FlightOk(env, w.log, f);
    hide Reachable, Lineage, Authored, SameOutside, ParsedTTL;
    StartLands(env, map[], map[], f.pass.now);
    assert ParsedTTL(env, At(w.log, m).anns) == ParsedTTL(env, At(w.log, f.decidedAt).anns) by {
      TTLAlone(env, At(w.log, m).anns, At(w.log, f.decidedAt).anns);
    }
  }

  lemma TTLAlone(env: Platform, a: Anns, b: Anns)
    requires SameAt(a, b, TTL)
    ensures ParsedTTL(env, a) == ParsedTTL(env, b)
  {
  }

  // Only the start patch has to land. Every reconcile that reads the lease as it then stands, however
  // often and whatever patches are lost in between, arrives at the same end; the end of the reconcile
  // that began the lease is later by the fraction of a second cut off the start, which shows in the
  // text as 0 or 1 second, and as 0 if the ttl is a whole number of seconds.
  lemma DriftInRuns(env: Platform, w: State, i: nat, m: nat, j: nat)
    requires Lawful(env) && Reachable(env, w) && i < |w.flights| && j < |w.flights|
    requires Began(env, w, w.flights[i], m)
    requires var g := w.flights[j];
             && Decided(g.pass) && Exists(w.log, g.readAt)
             && Relevant(At(w.log, g.readAt).anns) == Relevant(At(w.log, m).anns)
    ensures var f, g := w.flights[i], w.flights[j];
            var ttl := TTLOf(env, w, f).value;
            && f.pass.expireAt == f.pass.now + ttl
            && !Refusing(g.pass) && g.pass.expireAt == Floor(f.pass.now) + ttl
            && (Floor(f.pass.expireAt) - Floor(g.pass.expireAt)) in {0, SECOND}
            && (ttl % SECOND == 0 ==> env.format(f.pass.expireAt) == env.format(g.pass.expireAt))
  {
    hide ParsedTTL, ParsedStart, Reachable, Relevant, SameAt;
    var f, g := w.flights[i], w.flights[j];
    DecisionInRuns(env, w, i);
    DecisionInRuns(env, w, j);
    BegunFacts(env, w, i, m);
    RelevantSame(env, At(w.log, g.readAt).anns, At(w.log, m).anns);
    SettledReader(env, w, j);
    LeaseLaws.FloorSum(f.pass.now, TTLOf(env, w, f).value);
    assert env.format(f.pass.expireAt) == env.format(Floor(f.pass.expireAt));
    assert env.format(g.pass.expireAt) == env.format(Floor(g.pass.expireAt));
  }

  // Who read a readable start decides by what it read.
  lemma SettledReader(env: Platform, w: State, j: nat)
    requires Lawful(env) && Reachable(env, w) && j < |w.flights| && Decided(w.flights[j].pass)
    requires Exists(w.log, w.flights[j].readAt) && ParsedStart(env, At(w.log, w.flights[j].readAt).anns).Some?
    ensures w.flights[j].decidedAt == w.flights[j].readAt
  {
    ReachableKeeps(env, w);
    var g := w.flights[j];
    assert FlightOk(env, w.log, g);
    hide Reachable, Lineage, Authored, SameOutside, ParsedTTL;
    KeptStart(env, g.seen.value, At(w.log, g.readAt));
  }

  predicate SameLease(env: Platform, w: State, f: Flight, g: Flight)
    requires Exists(w.log, g.decidedAt)
  {
    Decided(f.pass) && Exists(w.log, f.decidedAt) && TTLOf(env, w, f) == TTLOf(env, w, g)
  }

  // Removing lease-start, or making it unreadable, renews: a reconcile that reads the object so, and
  // finds a ttl that is not negative, does not expire; its end is not before its clock reading, and
  // not before that of any reconcile that took the same ttl from an earlier start.
  lemma RenewalInRuns(env: Platform, w: State, i: nat, j: nat)
    requires Lawful(env) && Reachable(env, w) && i < |w.flights| && j < |w.flights|
    requires var g := w.flights[j];
             && Decided(g.pass) && Exists(w.log, g.readAt) && Exists(w.log, g.decidedAt)
             && ParsedStart(env, At(w.log, g.readAt).anns) == None
             && TTLOf(env, w, g).Some? && TTLOf(env, w, g).value >= 0
    ensures var f, g := w.flights[i], w.flights[j];
            && !Dying(g.pass) && g.pass.expireAt >= g.pass.now
            && (SameLease(env, w, f, g) && f.pass.startAt <= g.pass.now ==>
                  f.pass.expireAt <= g.pass.expireAt)
  {
    hide ParsedTTL, ParsedStart, Reachable;
    DecisionInRuns(env, w, j);
    if Decided(w.flights[i].pass) { DecisionInRuns(env, w, i); }
  }
}

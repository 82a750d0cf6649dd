// A lease looked at again and again: what repeated, undisturbed reconciles make of an object.
module LeaseLaws {
  import opened Wrappers
  import opened Kube
  import opened ObjectFilter
  import opened LeasePass
  import opened CleanupJob
  import opened World
  import opened SelfTrigger
  import opened WorldInvariant
  import Duration
  import DurationLaws

  // A pass alone with the server: every patch lands and refreshes the copy. It stops where it
  // would turn to the cleanup job and the delete.
  function Solo(env: Platform, p: Pass, server: Obj, now: int): (Pass, Obj)
    decreases Rank(p.phase)
  {
    hide Decide, ParseConfig, MergeApply, MergeDiff;
    match p.phase
    case Fetching => Solo(env, OnGet(p, Found(server)), server, now)
    case Clocking => Solo(env, OnClock(env, p, now), server, now)
    case Finished => (p, server)
    case Creating => (p, server)
    case Awaiting => (p, server)
    case Deleting => (p, server)
    case _ =>
      var after := server.(anns := MergeApply(server.anns, MergeDiff(p.base, p.obj.anns)));
      Solo(env, OnPatch(env, p, Landed(Some(after))), after, now)
  }

  function Round(env: Platform, o: Obj, now: int): (Pass, Obj) {
    Solo(env, Begin("", true), o, now)
  }

  predicate Expires(env: Platform, o: Obj, now: int) { Round(env, o, now).0.tally.expired == 1 }

  function Annotated(env: Platform, a: Anns, e: int): Anns {
    a[ExpireAt := env.format(e)][Status := ActiveStatus(env, e)]
  }

  // The decision on an object with a readable start: strictly after the end it is announced as
  // expired, until then it is annotated as active. Nothing else is touched.
  lemma SettledRound(env: Platform, o: Obj, now: int)
    requires TTL in o.anns && o.anns[TTL] != "" && ParsedStart(env, o.anns).Some? && ParsedTTL(env, o.anns).Ok?
    ensures var e := ParsedStart(env, o.anns).value + ParsedTTL(env, o.anns).value;
            && (Expires(env, o, now) <==> now > e)
            && Round(env, o, now).0.expireAt == e
            && (now <= e ==> Round(env, o, now).1 == o.(anns := Annotated(env, o.anns, e)))
  {
    hide Duration.Parse, ActiveStatus, EXPIRED_STATUS, InvalidStatus, ParseConfig, MergeApply, MergeDiff;
    var p := OnGet(Begin("", true), Found(o));
    var q := OnClock(env, p, now);
    MergeExact(o.anns, q.obj.anns);
    SoloPatch(env, q, o, now);
  }

  lemma SoloPatch(env: Platform, p: Pass, o: Obj, now: int)
    requires p.phase in {Expiring, Activating} && p.base == o.anns
    ensures Solo(env, p, o, now).0.expireAt == p.expireAt
    ensures Solo(env, p, o, now).0.tally.expired == p.tally.expired + if p.phase == Expiring then 1 else 0
    ensures p.phase == Activating ==> Solo(env, p, o, now).1 == o.(anns := p.obj.anns)
  {
    hide ParseConfig, MergeApply, MergeDiff;
    MergeExact(o.anns, p.obj.anns);
  }

  // On an object without a readable start the lease starts now, at full precision for this pass
  // and at whole seconds on the object.
  lemma FirstRound(env: Platform, o: Obj, now: int)
    requires Lawful(env) && env.lo <= now < env.hi
    requires TTL in o.anns && o.anns[TTL] != "" && ParsedStart(env, o.anns).None? && ParsedTTL(env, o.anns).Ok?
    ensures var ttl := ParsedTTL(env, o.anns).value;
            var begun := o.anns[LeaseStart := env.format(now)];
            && (Expires(env, o, now) <==> ttl < 0)
            && Round(env, o, now).0.expireAt == now + ttl
            && (ttl >= 0 ==> Round(env, o, now).1 == o.(anns := Annotated(env, begun, now + ttl)))
            && ParsedStart(env, begun) == Some(Floor(now)) && ParsedTTL(env, begun) == ParsedTTL(env, o.anns)
  {
    hide ParsedTTL, Solo, OnClock, OnGet, Annotated, Decide, ParseConfig, Begun, Round;
    var begun := o.(anns := o.anns[LeaseStart := env.format(now)]);
    StartUnfolds(env, o, now);
    StartLands(env, map[], o.anns, now);
    SameTTL(env, o.anns, begun.anns);
    StartDecides(env, o, now);
    SoloPatch(env, Begun(env, o, now), begun, now);
  }

  lemma SameTTL(env: Platform, a: Anns, b: Anns)
    requires SameAt(a, b, TTL)
    ensures ParsedTTL(env, a) == ParsedTTL(env, b)
  {
  }

  // The pass once its start patch has landed.
  function Begun(env: Platform, o: Obj, now: int): Pass {
    OnPatch(env, OnClock(env, OnGet(Begin("", true), Found(o)), now),
            Landed(Some(o.(anns := o.anns[LeaseStart := env.format(now)]))))
  }

  lemma StartDecides(env: Platform, o: Obj, now: int)
    requires TTL in o.anns && o.anns[TTL] != "" && ParsedStart(env, o.anns).None? && ParsedTTL(env, o.anns).Ok?
    ensures var ttl := ParsedTTL(env, o.anns).value;
            var begun := o.anns[LeaseStart := env.format(now)];
            var p := Begun(env, o, now);
            && p.phase == (if ttl < 0 then Expiring else Activating)
            && p.base == begun && p.obj.uid == o.uid && p.tally.expired == 0 && p.expireAt == now + ttl
            && (ttl >= 0 ==> p.obj.anns == Annotated(env, begun, now + ttl))
  {
    hide Duration.Parse, ActiveStatus, EXPIRED_STATUS, InvalidStatus, ParseConfig;
    SameTTL(env, o.anns, o.anns[LeaseStart := env.format(now)]);
  }

  lemma StartUnfolds(env: Platform, o: Obj, now: int)
    requires TTL in o.anns && o.anns[TTL] != "" && ParsedStart(env, o.anns).None?
    ensures var begun := o.(anns := o.anns[LeaseStart := env.format(now)]);
            Round(env, o, now) == Solo(env, Begun(env, o, now), begun, now)
  {
    hide Decide, ParseConfig, MergeApply, MergeDiff;
    var p := OnGet(Begin("", true), Found(o));
    var q := OnClock(env, p, now);
    MergeExact(o.anns, q.obj.anns);
    assert Solo(env, p, o, now) == Solo(env, q, o, now);
  }

  // A read leads to the clock exactly if there is a ttl and it is not empty; otherwise the pass cleans up
  // what there is to clean, or ends.
  lemma TTLDecides(name: string, o: Obj)
    ensures OnGet(Begin(name, true), Found(o)).phase ==
              if TTL in o.anns && o.anns[TTL] != "" then Clocking
              else if LeaseStart in o.anns || ExpireAt in o.anns || Status in o.anns then Cleaning
              else Finished
  {
    assert o.anns.Keys !! OUTPUTS <==> LeaseStart !in o.anns && ExpireAt !in o.anns && Status !in o.anns;
  }

  // Without a ttl the three output annotations go and everything else stays.
  lemma CleanupRound(env: Platform, o: Obj, now: int, k: Key)
    requires TTL !in o.anns || o.anns[TTL] == ""
    ensures var a := Round(env, o, now).1.anns;
            && Round(env, o, now).1.uid == o.uid && !Expires(env, o, now)
            && LeaseStart !in a && ExpireAt !in a && Status !in a
            && (k !in {LeaseStart, ExpireAt, Status} ==> SameAt(o.anns, a, k))
  {
    hide Decide, ParseConfig, MergeApply, MergeDiff;
    var p := OnGet(Begin("", true), Found(o));
    if p.phase == Cleaning {
      MergeExact(o.anns, p.obj.anns);
      var after := o.(anns := WithoutOutputs(o.anns));
      var q := OnPatch(env, p, Landed(Some(after)));
      assert Solo(env, q, after, now) == (q, after);
      assert Solo(env, p, o, now) == (q, after);
    } else {
      assert Solo(env, p, o, now) == (p, o);
    }
    assert Round(env, o, now) == Solo(env, p, o, now);
  }

  // An invalid ttl is reported after the lease start has been settled, and nothing is deleted.
  lemma InvalidRound(env: Platform, o: Obj, now: int)
    requires Lawful(env) && env.lo <= now < env.hi
    requires TTL in o.anns && o.anns[TTL] != "" && ParsedTTL(env, o.anns).Err?
    ensures var status := InvalidStatus(env, Get(o.anns, TTL), ParsedTTL(env, o.anns).error);
            var begun := if ParsedStart(env, o.anns).Some? then o.anns
                         else o.anns[LeaseStart := env.format(now)];
            Round(env, o, now).1 == o.(anns := begun[Status := status]) && !Expires(env, o, now)
  {
    hide Duration.Parse, ActiveStatus, EXPIRED_STATUS, InvalidStatus, ParseConfig, MergeApply, MergeDiff;
    var begun := o.(anns := o.anns[LeaseStart := env.format(now)]);
    if ParsedStart(env, o.anns).Some? {
      var p := OnGet(Begin("", true), Found(o));
      var q := OnClock(env, p, now);
      assert Solo(env, p, o, now) == Solo(env, q, o, now);
      SoloMarking(env, q, o, now);
    } else {
      StartUnfolds(env, o, now);
      SameTTL(env, o.anns, begun.anns);
      SoloMarking(env, Begun(env, o, now), begun, now);
    }
  }

  lemma SoloMarking(env: Platform, p: Pass, o: Obj, now: int)
    requires p.phase == Marking && p.base == o.anns
    ensures Solo(env, p, o, now).1 == o.(anns := p.obj.anns)
    ensures Solo(env, p, o, now).0.tally.expired == p.tally.expired
  {
    hide ParseConfig, MergeApply, MergeDiff;
    MergeExact(o.anns, p.obj.anns);
  }

  // ---------- repetition ----------

  function Rounds(env: Platform, o: Obj, times: seq<int>): Obj
    decreases |times|
  {
    if times == [] then o else Rounds(env, Round(env, o, times[0]).1, times[1..])
  }

  predicate NoneAfter(times: seq<int>, end: int) { forall k: nat | k < |times| :: times[k] <= end }

  lemma AnnotatedKeeps(env: Platform, a: Anns, e: int)
    ensures ParsedStart(env, Annotated(env, a, e)) == ParsedStart(env, a)
    ensures ParsedTTL(env, Annotated(env, a, e)) == ParsedTTL(env, a)
    ensures NoTTL(Annotated(env, a, e)) == NoTTL(a)
    ensures Annotated(env, Annotated(env, a, e), e) == Annotated(env, a, e)
  {
    hide Duration.Parse, ActiveStatus;
  }

  // Once settled, any number of further reconciles before the end changes no annotation.
  lemma {:induction false} RoundsStill(env: Platform, o: Obj, times: seq<int>)
    requires TTL in o.anns && o.anns[TTL] != "" && ParsedStart(env, o.anns).Some? && ParsedTTL(env, o.anns).Ok?
    requires var e := ParsedStart(env, o.anns).value + ParsedTTL(env, o.anns).value;
             NoneAfter(times, e) && o.anns == Annotated(env, o.anns, e)
    ensures Rounds(env, o, times) == o
  {
    hide ParsedTTL, ParsedStart, Round, Annotated;
    if times != [] {
      assert times[0] <= ParsedStart(env, o.anns).value + ParsedTTL(env, o.anns).value;
      SettledRound(env, o, times[0]);
      assert forall k: nat | k < |times[1..]| :: times[1..][k] == times[k + 1];
      RoundsStill(env, o, times[1..]);
    }
  }

  // From a lease without a start: the first pass may write an expire-at up to a second later than
  // every later one; from the second pass on nothing changes any more. With a TTL of whole seconds
  // the first pass already writes the final annotations.
  lemma ExpiryDrift(env: Platform, o: Obj, now: int, times: seq<int>)
    requires Lawful(env) && env.lo <= now < env.hi
    requires TTL in o.anns && o.anns[TTL] != "" && ParsedStart(env, o.anns).None? && ParsedTTL(env, o.anns).Ok?
    requires var ttl := ParsedTTL(env, o.anns).value; ttl >= 0 && NoneAfter(times, Floor(now) + ttl)
    requires times != []
    ensures var ttl := ParsedTTL(env, o.anns).value;
            var first := Round(env, o, now).1;
            var later := Rounds(env, first, times);
            && Get(first.anns, ExpireAt) == env.format(Floor(now + ttl))
            && Get(later.anns, ExpireAt) == env.format(Floor(Floor(now) + ttl))
            && (Floor(now + ttl) - Floor(Floor(now) + ttl)) in {0, SECOND}
            && (ttl % SECOND == 0 ==> later == first)
            && later == Rounds(env, first, times[..1])
  {
    hide ParsedTTL, ParsedStart, Round, Annotated;
    var ttl := ParsedTTL(env, o.anns).value;
    var begun := o.anns[LeaseStart := env.format(now)];
    var e := Floor(now) + ttl;
    FirstRound(env, o, now);
    var first := Round(env, o, now).1;
    AnnotatedKeeps(env, begun, now + ttl);
    assert times[0] <= e;
    SettledRound(env, first, times[0]);
    AnnotatedKeeps(env, first.anns, e);
    var second := Round(env, first, times[0]).1;
    assert forall k: nat | k < |times[1..]| :: times[1..][k] == times[k + 1];
    RoundsStill(env, second, times[1..]);
    assert times[..1] == [times[0]] && [times[0]][1..] == [];
    assert Rounds(env, first, times[..1]) == second;
    StampsDrift(env, begun, first.anns, now, ttl);
  }

  lemma StampsDrift(env: Platform, begun: Anns, first: Anns, now: int, ttl: int)
    requires Lawful(env) && first == Annotated(env, begun, now + ttl)
    ensures Get(first, ExpireAt) == env.format(Floor(now + ttl))
    ensures Get(Annotated(env, first, Floor(now) + ttl), ExpireAt) == env.format(Floor(Floor(now) + ttl))
    ensures (Floor(now + ttl) - Floor(Floor(now) + ttl)) in {0, SECOND}
    ensures ttl % SECOND == 0 ==> Annotated(env, first, Floor(now) + ttl) == first
  {
    FloorSum(now, ttl);
    if ttl % SECOND == 0 { SameAnnotations(env, begun, now + ttl, Floor(now) + ttl); }
  }

  lemma FloorSum(now: int, ttl: int)
    ensures (Floor(now + ttl) - Floor(Floor(now) + ttl)) in {0, SECOND}
    ensures ttl % SECOND == 0 ==> Floor(now + ttl) == Floor(now) + ttl == Floor(Floor(now) + ttl)
  {
  }

  lemma SameAnnotations(env: Platform, a: Anns, e: int, f: int)
    requires Lawful(env) && Floor(e) == Floor(f)
    ensures Annotated(env, Annotated(env, a, e), f) == Annotated(env, a, e)
  {
    assert env.format(e) == env.format(f);
  }

  // ---------- renewal ----------

  // Removing lease-start, or making it unreadable, extends every lease that has begun: the next
  // pass does not delete, and the new end is neither in the past nor before the old one.
  lemma RemovingStartRenews(env: Platform, o: Obj, renewed: Obj, now: int)
    requires Lawful(env) && env.lo <= now < env.hi
    requires TTL in o.anns && o.anns[TTL] != "" && ParsedTTL(env, o.anns).Ok? && ParsedTTL(env, o.anns).value >= 0
    requires SameAt(o.anns, renewed.anns, TTL) && ParsedStart(env, renewed.anns).None?
    requires ParsedStart(env, o.anns).Some? && ParsedStart(env, o.anns).value <= now
    ensures !Expires(env, renewed, now)
    ensures Round(env, renewed, now).0.expireAt >= now
    ensures Round(env, renewed, now).0.expireAt >= Round(env, o, now).0.expireAt
  {
    hide Duration.Parse, Round;
    FirstRound(env, renewed, now);
    SettledRound(env, o, now);
  }

  // A duration that does not fit turns into whatever the float conversion yields. Where that is
  // negative, three hundred years expire at once.
  lemma OverlongLeaseExpires(env: Platform, o: Obj, now: int)
    requires Lawful(env) && env.lo <= now < env.hi && Duration.IsInt64(env.wild) && env.wild < 0
    requires Get(o.anns, TTL) == "300y" && ParsedStart(env, o.anns).None?
    ensures Expires(env, o, now)
  {
    hide Round;
    DurationLaws.OverlongYears(env.wild);
    FirstRound(env, o, now);
  }

  // ---------- the cached view ----------

  predicate DecidesAlike(a: Pass, b: Pass) {
    a.phase == b.phase && a.startAt == b.startAt && a.expireAt == b.expireAt && a.now == b.now
  }

  lemma DecideAlike(env: Platform, p: Pass, q: Pass)
    requires DecidesAlike(p, q) && SameAt(p.obj.anns, q.obj.anns, TTL)
    ensures DecidesAlike(Decide(env, p), Decide(env, q))
  {
    hide Duration.Parse, ActiveStatus, EXPIRED_STATUS, InvalidStatus;
    assert ParsedTTL(env, p.obj.anns) == ParsedTTL(env, q.obj.anns);
  }

  // The same answer to the start patch leads to the same decision.
  lemma StartAlike(env: Platform, p: Pass, q: Pass, answer: PatchAnswer)
    requires DecidesAlike(p, q) && p.phase == Starting && SameAt(p.obj.anns, q.obj.anns, TTL)
    ensures DecidesAlike(OnPatch(env, p, answer), OnPatch(env, q, answer))
  {
    hide Decide, ParseConfig;
    var x, y := Absorb(p, answer), Absorb(q, answer);
    DecideAlike(env,
      CountStart(x),
      CountStart(y));
  }

  // A pass comes out the same on the stripped object: whether it cleans, starts the lease, reports
  // or expires, and with which start and end, whatever becomes of its start patch.
  lemma FilteredDecision(env: Platform, o: Obj, now: int, answer: PatchAnswer)
    ensures var v, p := View(o, true), Begin("", true);
            var x, y := OnGet(p, Found(v)), OnGet(p, Found(o));
            && x.phase == y.phase && x.ending == y.ending
            && (x.phase == Clocking ==>
                  var a, b := OnClock(env, x, now), OnClock(env, y, now);
                  && DecidesAlike(a, b)
                  && (a.phase == Starting ==> DecidesAlike(OnPatch(env, a, answer), OnPatch(env, b, answer))))
  {
    hide Duration.Parse, Decide, OnPatch;
    var v := View(o, true);
    KeptReadsSame(o.anns, KEEP, TTL);
    KeptReadsSame(o.anns, KEEP, LeaseStart);
    KeptReadsSame(o.anns, KEEP, ExpireAt);
    KeptReadsSame(o.anns, KEEP, Status);
    assert (v.anns.Keys !! OUTPUTS) <==> (o.anns.Keys !! OUTPUTS) by {
      assert forall k | k in OUTPUTS :: k in v.anns <==> k in o.anns;
    }
    var x, y := OnGet(Begin("", true), Found(v)), OnGet(Begin("", true), Found(o));
    if x.phase == Clocking {
      match ParsedStart(env, o.anns)
      case Some(t) => DecideAlike(env, x.(now := now, startAt := t), y.(now := now, startAt := t));
      case None => StartAlike(env, OnClock(env, x, now), OnClock(env, y, now), answer);
    }
  }

  lemma FilteredTriggers(s: Option<Obj>, t: Option<Obj>)
    ensures var x := if s.Some? then Some(View(s.value, true)) else None;
            var y := if t.Some? then Some(View(t.value, true)) else None;
            Triggers(x, y) <==> Triggers(s, t)
  {
    if s.Some? { ViewIsRelevant(s.value, true); }
    if t.Some? {
      ViewIsRelevant(t.value, true);
      KeptReadsSame(t.value.anns, KEEP, TTL);
    }
  }
}

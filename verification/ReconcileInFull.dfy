// One reconcile spelled out: for every object read, every clock reading and every answer, the requests
// in order with their contents, the result and the counts.
module ReconcileInFull {
  import opened Wrappers
  import opened Kube
  import opened LeasePass
  import opened CleanupJob
  import opened LeaseController
  import Duration

  // Reading the object fails.
  lemma NothingRead(env: Platform, name: string, s: Script)
    requires !s.get.Found?
    ensures var (end, requests) := Play(env, Begin(name, true), s);
            && requests == [GetObject(name)] && end.tally == Tally(0, 0, 0, 0, 0, 0, 0, 0, 0, 0, 0)
            && ResultOf(end.ending) == (if s.get == NotFound then Done else Error)
  {
    PlayFromGet(env, name, s);
    hide Play;
    PlayEnd(env, OnGet(Begin(name, true), s.get), s);
  }

  // An object with a ttl that is not empty: the clock is read, and the lease start is the readable one, or
  // else the clock reading, which is then written. What follows depends on the copy as it is after that.
  lemma LeaseOpens(env: Platform, name: string, o: Obj, s: Script) returns (q: Pass)
    requires s.get == Found(o) && TTL in o.anns && o.anns[TTL] != ""
    ensures q.name == name && q.now == s.clock
    ensures var read := if LeaseStart in o.anns && o.anns[LeaseStart] != "" then env.parse(o.anns[LeaseStart])
                        else None;
            var begun := o.anns[LeaseStart := env.format(s.clock)];
            && q.startAt == (if read.Some? then read.value else s.clock)
            && q.obj == (if read.Some? then o
                         else if s.startPatch.Landed? && s.startPatch.refreshed.Some? then s.startPatch.refreshed.value
                         else Obj(o.uid, begun))
            && q.tally == Tally(if LeaseStart in o.anns && o.anns[LeaseStart] != "" then 0 else 1,
                                0, 0, 0, 0, 0, 0, 0, 0, 0, 0)
            && Play(env, Begin(name, true), s).0 == Play(env, Decide(env, q), s).0
            && Play(env, Begin(name, true), s).1 ==
                 [GetObject(name), ReadClock]
                 + (if read.Some? then [] else [PatchObject(name, MergeDiff(o.anns, begun))])
                 + Play(env, Decide(env, q), s).1
  {
    hide Play, Decide, ParseConfig, Duration.Parse, MergeDiff, Settled;
    PlayFromGet(env, name, s);
    var p := OnGet(Begin(name, true), Found(o));
    SettledPlay(env, p, s, []);
    SettledIs(env, p, s);
    q := Settled(env, p, s);
    assert [] + Play(env, p, s).1 == Play(env, p, s).1;
  }

  // The pass once the start is settled.
  lemma SettledIs(env: Platform, p: Pass, s: Script)
    requires p.phase == Clocking && p.tally == NOTHING
    ensures
      var q, a := Settled(env, p, s), p.obj.anns;
      var read := if LeaseStart in a && a[LeaseStart] != "" then env.parse(a[LeaseStart]) else None;
      var begun := a[LeaseStart := env.format(s.clock)];
      && q.name == p.name && q.now == s.clock && read == ParsedStart(env, a)
      && q.startAt == (if read.Some? then read.value else s.clock)
      && q.obj == (if read.Some? then p.obj
                   else if s.startPatch.Landed? && s.startPatch.refreshed.Some? then s.startPatch.refreshed.value
                   else Obj(p.obj.uid, begun))
      && q.tally == NOTHING.(started := if LeaseStart in a && a[LeaseStart] != "" then 0 else 1)
  {
  }

  // ---------- the three ways to go on once the start is settled ----------

  // A ttl that does not parse is reported, and nothing else happens.
  lemma DecidedInvalid(env: Platform, q: Pass, s: Script, e: Duration.DurationError)
    requires Duration.Parse(if TTL in q.obj.anns then q.obj.anns[TTL] else "", env.wild) == Err(e)
    ensures var (end, requests) := Play(env, Decide(env, q), s);
            var copy := q.obj;
            var ttl := if TTL in copy.anns then copy.anns[TTL] else "";
            var kind := match e
              case InvalidString => "invalid duration string"
              case MissingUnit => "missing unit in duration element"
              case UnknownUnit => "unknown duration unit"
              case OutOfRange => "value out of range";
            var marked := copy.anns[Status := "Invalid TTL: " + env.explain(ttl, kind)];
            && requests == [PatchObject(q.name, MergeDiff(copy.anns, marked))] && end.ending == Invalid
            && end.tally == q.tally.(invalid := q.tally.invalid + 1)
  {
    hide Play, ParseConfig, Duration.Parse, MergeDiff;
    LastPatch(env, q, s);
    PlayEnd(env, OnPatch(env, Decide(env, q), s.lastPatch), s);
  }

  // Up to and including its end a lease is active; the wake-up is asked for at the end.
  lemma DecidedActive(env: Platform, q: Pass, s: Script, length: int)
    requires Duration.Parse(if TTL in q.obj.anns then q.obj.anns[TTL] else "", env.wild) == Ok(length)
    requires q.now <= q.startAt + length
    ensures var (end, requests) := Play(env, Decide(env, q), s);
            var e := q.startAt + length;
            var marked := q.obj.anns[ExpireAt := env.format(e)]
                                    [Status := "Lease active. Expires at " + env.format(e) + " UTC."];
            var delay := if e - q.now > 9_223_372_036_854_775_807 then 9_223_372_036_854_775_807 else e - q.now;
            && requests == [PatchObject(q.name, MergeDiff(q.obj.anns, marked))] && end.ending == Active(delay)
            && end.tally == q.tally
  {
    hide Play, ParseConfig, Duration.Parse, MergeDiff, EXPIRED_STATUS;
    LastPatch(env, q, s);
    PlayEnd(env, OnPatch(env, Decide(env, q), s.lastPatch), s);
  }

  lemma LastPatch(env: Platform, q: Pass, s: Script)
    ensures var d := Decide(env, q);
            && Sane(OnPatch(env, d, s.lastPatch))
            && var rest := Play(env, OnPatch(env, d, s.lastPatch), s);
            Play(env, d, s) == (rest.0, [PatchObject(q.name, MergeDiff(d.base, d.obj.anns))] + rest.1)
  {
    hide Play, Decide, ParseConfig, MergeDiff;
    var d := Decide(env, q);
    PlayStep(env, d, s, []);
    assert [] + Play(env, d, s).1 == Play(env, d, s).1;
    assert [] + [Ask(d)] + Play(env, OnPatch(env, d, s.lastPatch), s).1
        == [Ask(d)] + Play(env, OnPatch(env, d, s.lastPatch), s).1;
  }

  // Strictly after the end: announce, run the configured job if there is one, then delete the uid of the
  // copy as the announcement left it, whatever became of the job.
  lemma DecidedExpired(env: Platform, q: Pass, s: Script, length: int)
    requires Duration.Parse(if TTL in q.obj.anns then q.obj.anns[TTL] else "", env.wild) == Ok(length)
    requires q.now > q.startAt + length && q.tally.expired == 0 && q.tally.deletes == 0
    requires q.tally.created == 0 && q.tally.completed == 0 && q.tally.failed == 0
    ensures var (end, requests) := Play(env, Decide(env, q), s);
            var e, copy := q.startAt + length, q.obj;
            var marked := copy.anns[ExpireAt := env.format(e)][Status := "Lease expired. Deleting object."];
            var last := if s.lastPatch.Landed? && s.lastPatch.refreshed.Some? then s.lastPatch.refreshed.value
                        else Obj(copy.uid, marked);
            var config := ParseConfig(last.anns, env.wild);
            var job := if config.Ok? && config.value.Some?
                       then [CreateJob(config.value.value, last.uid, e)]
                            + (if s.create && config.value.value.wait
                               then [AwaitJob(config.value.value.timeout)] else [])
                       else [];
            && requests == [PatchObject(q.name, MergeDiff(copy.anns, marked))] + job + [DeleteObject(q.name, last.uid)]
            && end.ending == (if s.delete == Refused then DeleteError else Expired)
            && end.tally.expired == 1 && end.tally.deletes == 1
            && end.tally.started == q.tally.started && end.tally.invalid == q.tally.invalid
            && (if config.Ok? && config.value.Some? then
                  && end.tally.created == (if s.create then 1 else 0)
                  && end.tally.completed == (if s.create && config.value.value.wait && s.await then 1 else 0)
                  && end.tally.failed == (if !s.create || (config.value.value.wait && !s.await) then 1 else 0)
                else end.tally.created == 0 && end.tally.completed == 0 && end.tally.failed == 0)
  {
    hide Play, ParseConfig, Duration.Parse, MergeDiff, Decide;
    LastPatch(env, q, s);
    Announces(env, q, s, length);
    var after := OnPatch(env, Decide(env, q), s.lastPatch);
    if after.phase == Creating { CreatingPlay(env, after, s); } else { DeletingPlay(env, after, s); }
  }

  lemma Announces(env: Platform, q: Pass, s: Script, length: int)
    requires Duration.Parse(if TTL in q.obj.anns then q.obj.anns[TTL] else "", env.wild) == Ok(length)
    requires q.now > q.startAt + length
    ensures var d := Decide(env, q);
            var after := OnPatch(env, d, s.lastPatch);
            var e := q.startAt + length;
            var marked := q.obj.anns[ExpireAt := env.format(e)][Status := "Lease expired. Deleting object."];
            var last := if s.lastPatch.Landed? && s.lastPatch.refreshed.Some? then s.lastPatch.refreshed.value
                        else Obj(q.obj.uid, marked);
            && d.base == q.obj.anns && d.obj.anns == marked
            && after.obj == last && after.name == q.name && after.expireAt == e
            && after.tally.(noConfig := 0, badConfig := 0, executions := 0)
                 == q.tally.(expired := q.tally.expired + 1, noConfig := 0, badConfig := 0, executions := 0)
            && match ParseConfig(last.anns, env.wild)
               case Ok(Some(c)) => after.phase == Creating && after.config == Some(c)
               case _ => after.phase == Deleting
  {
    hide ParseConfig, Duration.Parse, ActiveStatus, InvalidStatus;
  }
}

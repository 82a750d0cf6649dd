// The reconciler in the form the source has it: annotation maps edited on a mutable copy of the
// object, patches and a delete sent in sequence, counters incremented. Every method is proved
// to hold exactly the dialogue of LeasePass.
module LeaseController {
  import opened Wrappers
  import opened Kube
  import opened LeasePass
  import opened CleanupJob
  import Duration
  import World

  // The local copy of the object.
  class Unstructured {
    var uid: nat
    var anns: Anns

    constructor (o: Obj)
      ensures Value() == o
    {
      uid, anns := o.uid, o.anns;
    }

    function Value(): Obj
      reads this
    {
      Obj(uid, anns)
    }
  }

  // The client, the clock and the job API as one reconcile meets them. What they answer is fixed
  // by an arbitrary script; what they are asked is recorded.
  class Cluster {
    const script: Script
    ghost var asked: seq<Request>

    constructor (script: Script)
      ensures this.script == script && asked == []
    {
      this.script := script;
      asked := [];
    }

    method Get(name: string) returns (a: GetAnswer)
      modifies this
      ensures asked == old(asked) + [GetObject(name)] && a == script.get
    {
      asked := asked + [GetObject(name)];
      a := script.get;
    }

    method Now() returns (t: int)
      modifies this
      ensures asked == old(asked) + [ReadClock] && t == script.clock
    {
      asked := asked + [ReadClock];
      t := script.clock;
    }

    // Sends the difference to base; a landed patch may refresh obj, uid included.
    method Patch(name: string, obj: Unstructured, base: Anns, first: bool)
      modifies this, obj
      ensures asked == old(asked) + [PatchObject(name, MergeDiff(base, old(obj.anns)))]
      ensures var a := if first then script.startPatch else script.lastPatch;
              obj.Value() == if a.Landed? && a.refreshed.Some? then a.refreshed.value else old(obj.Value())
    {
      asked := asked + [PatchObject(name, MergeDiff(base, obj.anns))];
      var a := if first then script.startPatch else script.lastPatch;
      if a.Landed? && a.refreshed.Some? {
        obj.uid, obj.anns := a.refreshed.value.uid, a.refreshed.value.anns;
      }
    }

    method Create(config: JobConfig, uid: nat, expireAt: int) returns (ok: bool)
      modifies this
      ensures asked == old(asked) + [CreateJob(config, uid, expireAt)] && ok == script.create
    {
      asked := asked + [CreateJob(config, uid, expireAt)];
      ok := script.create;
    }

    method Await(timeout: int) returns (ok: bool)
      modifies this
      ensures asked == old(asked) + [AwaitJob(timeout)] && ok == script.await
    {
      asked := asked + [AwaitJob(timeout)];
      ok := script.await;
    }

    // Deletes by name, on the condition that the uid still matches.
    method DeleteWithUIDPrecondition(name: string, obj: Unstructured) returns (a: DeleteAnswer)
      modifies this
      ensures asked == old(asked) + [DeleteObject(name, obj.uid)] && a == script.delete
    {
      asked := asked + [DeleteObject(name, obj.uid)];
      a := script.delete;
    }
  }

  datatype Outcome = Done | RequeueAfter(delay: int) | Error

  function ResultOf(e: Ending): Outcome {
    match e
    case Active(d) => RequeueAfter(d)
    case GetError => Error
    case DeleteError => Error
    case _ => Done
  }

  // The Prometheus counters.
  datatype Counters = Counters(
    started: nat, expired: nat, invalid: nat, created: nat, completed: nat, failed: nat)

  // What is still to be counted between two moments of one pass.
  predicate Counted(before: Counters, after: Counters, from: Tally, to: Tally) {
    && after.started - before.started == to.started - from.started
    && after.expired - before.expired == to.expired - from.expired
    && after.invalid - before.invalid == to.invalid - from.invalid
    && after.created - before.created == to.created - from.created
    && after.completed - before.completed == to.completed - from.completed
    && after.failed - before.failed == to.failed - from.failed
  }

  class LeaseWatcher {
    const env: Platform
    const cluster: Cluster
    var tracker: Option<seq<string>>  // the listed namespaces, if tracking is on
    var metrics: Counters

    constructor (env: Platform, cluster: Cluster, tracker: Option<seq<string>>)
      ensures this.env == env && this.cluster == cluster && this.tracker == tracker
      ensures metrics == Counters(0, 0, 0, 0, 0, 0)
    {
      this.env, this.cluster, this.tracker := env, cluster, tracker;
      metrics := Counters(0, 0, 0, 0, 0, 0);
    }

    // From this moment on exactly what the pass p has left is asked and counted.
    twostate predicate Follows(p: Pass, r: Outcome)
      requires Sane(p)
      reads this, cluster
    {
      var (end, requests) := Play(env, p, cluster.script);
      && cluster.asked == old(cluster.asked) + requests
      && r == ResultOf(end.ending)
      && Counted(old(metrics), metrics, p.tally, end.tally)
    }

    // ---------- which events start a reconcile ----------

    method LeaseRelevantAnns(anns: Anns) returns (result: Anns)
      ensures result == World.Relevant(anns)
      ensures forall k :: k in result <==> k in anns && (k == TTL || k == LeaseStart)
      ensures forall k | k in result :: result[k] == anns[k]
    {
      result := map[];
      var keys := [TTL, LeaseStart];
      for i := 0 to |keys|
        invariant forall k :: k in result <==> k in anns && k in keys[..i]
        invariant forall k | k in result :: result[k] == anns[k]
      {
        if keys[i] in anns {
          result := result[keys[i] := anns[keys[i]]];
        }
      }
      assert keys[..|keys|] == keys;
    }

    method CreateFunc(o: Obj) returns (b: bool)
      ensures b == World.Triggers(None, Some(o)) == (TTL in o.anns)
    {
      b := TTL in o.anns;
    }

    method UpdateFunc(objectOld: Obj, objectNew: Obj) returns (b: bool)
      ensures b <==> World.Triggers(Some(objectOld), Some(objectNew))
      ensures var a, c := objectOld.anns, objectNew.anns;
              !b <==> (TTL in a <==> TTL in c) && (TTL in a ==> a[TTL] == c[TTL])
                      && (LeaseStart in a <==> LeaseStart in c) && (LeaseStart in a ==> a[LeaseStart] == c[LeaseStart])
    {
      var before := LeaseRelevantAnns(objectOld.anns);
      var after := LeaseRelevantAnns(objectNew.anns);
      assert before == after ==> forall k | k in before :: k in after;
      assert before == after ==> forall k | k in after :: k in before;
      b := before != after;
    }

    // ---------- helpers ----------

    method IsNamespaceTracked(ns: string, listed: seq<string>) returns (tracked: bool)
      ensures tracked <==> ns in listed
    {
      for i := 0 to |listed|
        invariant ns !in listed[..i]
      {
        if listed[i] == ns {
          return true;
        }
      }
      return false;
    }

    // Set the annotations on the copy, send the difference, and let a landed patch refresh it.
    method UpdateAnnotations(name: string, obj: Unstructured, newAnns: Anns, first: bool)
      modifies obj, cluster
      ensures cluster.asked == old(cluster.asked)
                + [PatchObject(name, MergeDiff(old(obj.anns), old(obj.anns) + newAnns))]
      ensures obj.Value() == Refreshed(Obj(old(obj.uid), old(obj.anns) + newAnns),
                                      if first then cluster.script.startPatch else cluster.script.lastPatch)
    {
      var base := obj.anns;
      obj.anns := obj.anns + newAnns;
      cluster.Patch(name, obj, base, first);
    }

    method CleanupLeaseAnnotations(name: string, obj: Unstructured)
      modifies obj, cluster
      ensures cluster.asked == old(cluster.asked)
                + if old(obj.anns).Keys !! OUTPUTS then []
                  else [PatchObject(name, MergeDiff(old(obj.anns), WithoutOutputs(old(obj.anns))))]
    {
      var anns := obj.anns;
      var cleaned := false;
      var keys := [ExpireAt, Status, LeaseStart];
      for i := 0 to |keys|
        invariant anns == map k | k in obj.anns && k !in keys[..i] :: obj.anns[k]
        invariant cleaned <==> exists j | 0 <= j < i :: keys[j] in obj.anns
      {
        assert keys[..i + 1] == keys[..i] + [keys[i]];
        if keys[i] in anns {
          anns := anns - {keys[i]};
          cleaned := true;
        }
      }
      assert keys[..3] == keys;
      assert OUTPUTS == set k | k in keys;
      assert !cleaned ==> keys[0] !in obj.anns && keys[1] !in obj.anns && keys[2] !in obj.anns;
      if !cleaned {
        return;
      }
      assert anns == WithoutOutputs(obj.anns);
      var base := obj.anns;
      obj.anns := anns;
      cluster.Patch(name, obj, base, false);
    }

    method EnsureLeaseStart(name: string, obj: Unstructured, now: int) returns (startAt: int)
      modifies obj, cluster, this`metrics
      ensures var a := old(obj.anns);
              match ParsedStart(env, a)
              case Some(t) =>
                startAt == t && unchanged(obj) && unchanged(cluster) && unchanged(this)
              case None =>
                var want := a[LeaseStart := env.format(now)];
                && startAt == now
                && cluster.asked == old(cluster.asked) + [PatchObject(name, MergeDiff(a, want))]
                && obj.Value() == Refreshed(Obj(old(obj.uid), want), cluster.script.startPatch)
                && metrics == if Get(a, LeaseStart) == "" then
                                old(metrics).(started := old(metrics).started + 1) else old(metrics)
    {
      var v := Get(obj.anns, LeaseStart);
      var text := env.format(now);
      assert obj.anns + map[LeaseStart := text] == obj.anns[LeaseStart := text];
      if v != "" {
        var t := env.parse(v);
        if t.Some? {
          return t.value;
        }
        // unreadable: begin anew, without counting a lease
        UpdateAnnotations(name, obj, map[LeaseStart := text], true);
        return now;
      }
      UpdateAnnotations(name, obj, map[LeaseStart := text], true);
      metrics := metrics.(started := metrics.started + 1);
      return now;
    }

    // ---------- the three ways a pass can go on once the TTL has been read ----------

    method MarkInvalidTTL(name: string, obj: Unstructured, e: Duration.DurationError, ghost p: Pass)
      requires obj.Value() == p.obj && name == p.name
      requires ParsedTTL(env, p.obj.anns) == Err(e)
      modifies obj, cluster, this`metrics
      ensures Follows(Decide(env, p), Done)
    {
      hide Duration.Parse, ParseConfig;
      var msg := InvalidStatus(env, Get(obj.anns, TTL), e);
      ghost var q := Decide(env, p);
      assert obj.anns + map[Status := msg] == obj.anns[Status := msg];
      PlayStep(env, q, cluster.script, cluster.asked);
      PlayEnd(env, Respond(env, q, cluster.script), cluster.script);
      UpdateAnnotations(name, obj, map[Status := msg], false);
      metrics := metrics.(invalid := metrics.invalid + 1);
    }

    method SetActive(name: string, obj: Unstructured, expireAt: int, now: int, ghost p: Pass)
      returns (r: Outcome)
      requires obj.Value() == p.obj && name == p.name && now == p.now
      requires ParsedTTL(env, p.obj.anns).Ok?
      requires expireAt == p.startAt + ParsedTTL(env, p.obj.anns).value && now <= expireAt
      modifies obj, cluster
      ensures Follows(Decide(env, p), r)
    {
      hide Duration.Parse, ParseConfig;
      var status := ActiveStatus(env, expireAt);
      var added := map[ExpireAt := env.format(expireAt), Status := status];
      ghost var q := Decide(env, p);
      assert obj.anns + added == obj.anns[ExpireAt := env.format(expireAt)][Status := status];
      PlayStep(env, q, cluster.script, cluster.asked);
      PlayEnd(env, Respond(env, q, cluster.script), cluster.script);
      UpdateAnnotations(name, obj, added, false);
      return RequeueAfter(Delay(expireAt, now));
    }

    // Creates the job and, if asked to, waits for it. The caller counts a failure.
    method ExecuteCleanupJob(obj: Unstructured, config: JobConfig, expireAt: int) returns (ok: bool)
      modifies cluster, this`metrics
      ensures var s := cluster.script;
              && ok == (s.create && (config.wait ==> s.await))
              && cluster.asked == old(cluster.asked) + [CreateJob(config, obj.uid, expireAt)]
                   + (if s.create && config.wait then [AwaitJob(config.timeout)] else [])
              && metrics == if !s.create then old(metrics)
                            else if config.wait && s.await then
                              old(metrics).(created := old(metrics).created + 1,
                                            completed := old(metrics).completed + 1)
                            else old(metrics).(created := old(metrics).created + 1)
    {
      var created := cluster.Create(config, obj.uid, expireAt);
      if !created {
        return false;
      }
      metrics := metrics.(created := metrics.created + 1);
      if config.wait {
        var completed := cluster.Await(config.timeout);
        if !completed {
          return false;
        }
        metrics := metrics.(completed := metrics.completed + 1);
      }
      return true;
    }

    // Announce, run the cleanup job if one is configured, then delete whatever became of it.
    method HandleExpired(name: string, obj: Unstructured, expireAt: int, ghost p: Pass)
      returns (r: Outcome)
      requires obj.Value() == p.obj && name == p.name && Duration.IsInt64(env.wild)
      requires ParsedTTL(env, p.obj.anns).Ok?
      requires expireAt == p.startAt + ParsedTTL(env, p.obj.anns).value && p.now > expireAt
      modifies obj, cluster, this`metrics
      ensures Follows(Decide(env, p), r)
    {
      hide Duration.Parse, ParseConfig, Play, ActiveStatus, InvalidStatus, EXPIRED_STATUS;
      var s := cluster.script;
      var added := map[ExpireAt := env.format(expireAt), Status := EXPIRED_STATUS];
      ghost var q := Decide(env, p);
      ghost var goal := cluster.asked + Play(env, q, s).1;
      assert obj.anns + added == obj.anns[ExpireAt := env.format(expireAt)][Status := EXPIRED_STATUS];
      PlayStep(env, q, s, cluster.asked);
      UpdateAnnotations(name, obj, added, false);
      metrics := metrics.(expired := metrics.expired + 1);
      q := Respond(env, q, s);
      assert cluster.asked + Play(env, q, s).1 == goal;
      r := FinishExpired(name, obj, expireAt, q);
    }

    method CleanupConfig(obj: Unstructured) returns (config: Result<Option<JobConfig>, ConfigError>)
      requires Duration.IsInt64(env.wild)
      ensures config == ParseConfig(obj.anns, env.wild)
    {
      hide ParseConfig;
      config := ParseCleanupJobConfig(obj.anns, env.wild);
    }

    // The rest of handleExpired, once the announcement has been sent.
    method FinishExpired(name: string, obj: Unstructured, expireAt: int, ghost p: Pass)
      returns (r: Outcome)
      requires obj.Value() == p.obj && name == p.name && expireAt == p.expireAt && Sane(p)
      requires Duration.IsInt64(env.wild)
      requires match ParseConfig(p.obj.anns, env.wild)
               case Err(_) => p.phase == Deleting
               case Ok(None) => p.phase == Deleting
               case Ok(Some(c)) => p.phase == Creating && p.config == Some(c)
      modifies cluster, this`metrics
      ensures Follows(p, r)
    {
      hide ParseConfig, Play;
      var config := CleanupConfig(obj);
      DeletingPlay(env, p, cluster.script);
      if config.Ok? && config.value.Some? {
        CreatingPlay(env, p, cluster.script);
        var ok := ExecuteCleanupJob(obj, config.value.value, expireAt);
        if !ok {
          metrics := metrics.(failed := metrics.failed + 1);
        }
      }
      var a := cluster.DeleteWithUIDPrecondition(name, obj);
      return if a == Refused then Error else Done;
    }

    // ---------- the reconcile ----------

    method Reconcile(namespace: string, name: string) returns (r: Outcome)
      requires Duration.IsInt64(env.wild)
      modifies this`metrics, cluster
      ensures var tracked := tracker.None? || namespace in tracker.value;
              Follows(Begin(name, tracked), r)
      ensures tracker.Some? && namespace !in tracker.value ==>
                cluster.asked == old(cluster.asked) && metrics == old(metrics) && r == Done
      // the requests of the dialogue, in order, and nothing else
      ensures tracker.None? || namespace in tracker.value ==>
                var (end, requests) := Play(env, Begin(name, true), cluster.script);
                && cluster.asked == old(cluster.asked) + requests
                && (r == Error <==> end.ending.GetError? || end.ending.DeleteError?)
                && (r.RequeueAfter? <==> end.ending.Active?)
                && (r.RequeueAfter? ==> r.delay == end.ending.delay)
                && metrics.started == old(metrics.started) + end.tally.started
                && metrics.expired == old(metrics.expired) + end.tally.expired
                && metrics.invalid == old(metrics.invalid) + end.tally.invalid
                && metrics.created == old(metrics.created) + end.tally.created
                && metrics.completed == old(metrics.completed) + end.tally.completed
                && metrics.failed == old(metrics.failed) + end.tally.failed
      // without a ttl, or with an empty one: at most the removal of the controller's annotations
      ensures (tracker.None? || namespace in tracker.value) && cluster.script.get.Found?
              && (TTL !in cluster.script.get.obj.anns || cluster.script.get.obj.anns[TTL] == "") ==>
                var o := cluster.script.get.obj;
                && r == Done && metrics == old(metrics)
                && cluster.asked == old(cluster.asked) + [GetObject(name)]
                     + (if LeaseStart in o.anns || ExpireAt in o.anns || Status in o.anns
                        then [PatchObject(name, map k | k in o.anns && (k == LeaseStart || k == ExpireAt || k == Status)
                                                  :: None)]
                        else [])
    {
      hide Duration.Parse, ParseConfig, Decide, Play, OnGet, MergeDiff, Unstructured.Value;
      if tracker.Some? {
        var tracked := IsNamespaceTracked(namespace, tracker.value);
        if !tracked {
          PlayEnd(env, Begin(name, false), cluster.script);
          return Done;
        }
      }
      r := ReconcileTracked(name);
      UnleasedInFull(env, name, cluster.script);
    }

    // The rest of Reconcile, past the namespace filter.
    method ReconcileTracked(name: string) returns (r: Outcome)
      requires Duration.IsInt64(env.wild)
      modifies this`metrics, cluster
      ensures Follows(Begin(name, true), r)
    {
      hide Duration.Parse, ParseConfig, Decide, Play;
      var s := cluster.script;
      ghost var p := Begin(name, true);
      PlayStep(env, p, s, cluster.asked);
      var got := cluster.Get(name);
      ghost var q := Respond(env, p, s);
      if got.Found? {
        r := ReconcileFound(name, got.obj, q);
      } else {
        PlayEnd(env, q, s);
        r := if got.NotFound? then Done else Error;
      }
    }

    // The rest of Reconcile, once the object has been read.
    method ReconcileFound(name: string, o: Obj, ghost p: Pass) returns (r: Outcome)
      requires Duration.IsInt64(env.wild)
      requires p == OnGet(Begin(name, true), Found(o))
      modifies this`metrics, cluster
      ensures Follows(p, r)
    {
      hide Duration.Parse, ParseConfig, Decide, Play;
      var s := cluster.script;
      ghost var goal := cluster.asked + Play(env, p, s).1;
      var obj := new Unstructured(o);
      if Get(obj.anns, TTL) == "" {
        CleaningPlay(env, name, o, s);
        CleanupLeaseAnnotations(name, obj);
        return Done;
      }
      r := ReconcileLeased(name, obj, p);
    }

    // Reconcile of an object with a ttl: read the clock, settle the start, decide.
    method ReconcileLeased(name: string, obj: Unstructured, ghost p: Pass) returns (r: Outcome)
      requires Duration.IsInt64(env.wild)
      requires p.phase == Clocking && p.obj == obj.Value() && p.name == name
      modifies this`metrics, cluster, obj
      ensures Follows(p, r)
    {
      hide Duration.Parse, ParseConfig, Decide, Play;
      var s := cluster.script;
      ghost var goal := cluster.asked + Play(env, p, s).1;
      PlayStep(env, p, s, cluster.asked);
      ghost var q := Settled(env, p, s);
      SettledPlay(env, p, s, cluster.asked);
      var now := cluster.Now();
      var startAt := EnsureLeaseStart(name, obj, now);
      assert q.obj == obj.Value() && q.startAt == startAt && q.now == now && q.name == name;
      assert cluster.asked + Play(env, Decide(env, q), s).1 == goal;
      r := ReconcileStarted(name, obj, now, startAt, q);
    }

    // The last part of Reconcile, once the lease has a start.
    method ReconcileStarted(name: string, obj: Unstructured, now: int, startAt: int, ghost p: Pass)
      returns (r: Outcome)
      requires Duration.IsInt64(env.wild)
      requires obj.Value() == p.obj && name == p.name && now == p.now && startAt == p.startAt
      modifies obj, cluster, this`metrics
      ensures Follows(Decide(env, p), r)
    {
      hide Duration.Parse, ParseConfig, Decide, Play;
      var ttl := Duration.ParseFlexibleDuration(Get(obj.anns, TTL), env.wild);
      if ttl.Err? {
        MarkInvalidTTL(name, obj, ttl.error, p);
        return Done;
      }
      var expireAt := startAt + ttl.value;
      if now > expireAt {
        r := HandleExpired(name, obj, expireAt, p);
      } else {
        r := SetActive(name, obj, expireAt, now, p);
      }
    }
  }

  function Refreshed(o: Obj, a: PatchAnswer): Obj {
    if a.Landed? && a.refreshed.Some? then a.refreshed.value else o
  }

  lemma PlayStep(env: Platform, p: Pass, s: Script, asked: seq<Request>)
    requires p.phase != Finished && Sane(p)
    ensures var rest := Play(env, Respond(env, p, s), s);
            && Play(env, p, s).0 == rest.0
            && asked + Play(env, p, s).1 == asked + [Ask(p)] + rest.1
  {
    hide Respond, Ask;
  }

  lemma PlayEnd(env: Platform, p: Pass, s: Script)
    requires p.phase == Finished
    ensures Play(env, p, s) == (p, [])
  {
  }

  lemma CleaningPlay(env: Platform, name: string, o: Obj, s: Script)
    requires NoTTL(o.anns)
    ensures var p := OnGet(Begin(name, true), Found(o));
            && Play(env, p, s).0.ending == Cleaned && Play(env, p, s).0.tally == NOTHING
            && Play(env, p, s).1 ==
                 if o.anns.Keys !! OUTPUTS then []
                 else [PatchObject(name, MergeDiff(o.anns, WithoutOutputs(o.anns)))]
  {
    hide Play, Decide, ParseConfig;
    var p := OnGet(Begin(name, true), Found(o));
    if o.anns.Keys !! OUTPUTS {
      PlayEnd(env, p, s);
    } else {
      PlayStep(env, p, s, []);
      PlayEnd(env, OnPatch(env, p, s.lastPatch), s);
      assert [] + Play(env, p, s).1 == Play(env, p, s).1;
    }
  }

  lemma PlayFromGet(env: Platform, name: string, s: Script)
    ensures var got := Play(env, OnGet(Begin(name, true), s.get), s);
            && Play(env, Begin(name, true), s).0 == got.0
            && Play(env, Begin(name, true), s).1 == [GetObject(name)] + got.1
  {
    hide Play, OnGet, Decide, ParseConfig;
    PlayStep(env, Begin(name, true), s, []);
    assert [] + Play(env, Begin(name, true), s).1 == Play(env, Begin(name, true), s).1;
  }

  // What an object without a ttl, or with an empty one, gets.
  lemma UnleasedPlay(env: Platform, name: string, o: Obj, s: Script)
    ensures TTL !in o.anns || o.anns[TTL] == "" ==>
              var (end, requests) := Play(env, OnGet(Begin(name, true), Found(o)), s);
              && end.ending == Cleaned && end.tally == Tally(0, 0, 0, 0, 0, 0, 0, 0, 0, 0, 0)
              && requests ==
                   if LeaseStart in o.anns || ExpireAt in o.anns || Status in o.anns
                   then [PatchObject(name, map k | k in o.anns && (k == LeaseStart || k == ExpireAt || k == Status)
                                             :: None)]
                   else []
  {
    hide Play, OnGet, Decide, ParseConfig, MergeDiff, WithoutOutputs;
    if TTL !in o.anns || o.anns[TTL] == "" {
      CleaningPlay(env, name, o, s);
      RemovalDiff(o.anns);
    }
  }

  lemma RemovalDiff(a: Anns)
    ensures MergeDiff(a, WithoutOutputs(a))
         == map k | k in a && (k == LeaseStart || k == ExpireAt || k == Status) :: None
    ensures a.Keys !! OUTPUTS <==> LeaseStart !in a && ExpireAt !in a && Status !in a
  {
  }

  lemma UnleasedInFull(env: Platform, name: string, s: Script)
    ensures s.get.Found? && (TTL !in s.get.obj.anns || s.get.obj.anns[TTL] == "") ==>
              var (end, requests) := Play(env, Begin(name, true), s);
              var o := s.get.obj;
              && end.ending == Cleaned && end.tally == Tally(0, 0, 0, 0, 0, 0, 0, 0, 0, 0, 0)
              && requests == [GetObject(name)]
                   + (if LeaseStart in o.anns || ExpireAt in o.anns || Status in o.anns
                      then [PatchObject(name, map k | k in o.anns && (k == LeaseStart || k == ExpireAt || k == Status)
                                                :: None)]
                      else [])
  {
    hide Play, OnGet, Decide, ParseConfig;
    PlayFromGet(env, name, s);
    if s.get.Found? { UnleasedPlay(env, name, s.get.obj, s); }
  }

  lemma DeletingPlay(env: Platform, p: Pass, s: Script)
    ensures p.phase == Deleting ==>
              Play(env, p, s) == (OnDelete(p, s.delete), [DeleteObject(p.name, p.obj.uid)])
  {
    if p.phase == Deleting {
      PlayEnd(env, OnDelete(p, s.delete), s);
      assert Play(env, p, s).1 == [Ask(p)] + [] == [Ask(p)];
    }
  }

  function AfterJob(p: Pass, s: Script): Pass
    requires p.config.Some?
  {
    var q := OnCreate(p, s.create);
    if q.phase == Awaiting then OnAwait(q, s.await) else q
  }

  lemma CreatingPlay(env: Platform, p: Pass, s: Script)
    requires p.phase == Creating && p.config.Some?
    ensures var c := p.config.value;
            Play(env, p, s) == (
              OnDelete(AfterJob(p, s), s.delete),
              [CreateJob(c, p.obj.uid, p.expireAt)]
              + (if s.create && c.wait then [AwaitJob(c.timeout)] else [])
              + [DeleteObject(p.name, p.obj.uid)])
  {
    hide Play;
    var q := OnCreate(p, s.create);
    PlayStep(env, p, s, []);
    if q.phase == Awaiting {
      PlayStep(env, q, s, [Ask(p)]);
      DeletingPlay(env, OnAwait(q, s.await), s);
    } else {
      DeletingPlay(env, q, s);
    }
    assert [] + Play(env, p, s).1 == Play(env, p, s).1;
    var c := p.config.value;
    assert Play(env, p, s).1 == [CreateJob(c, p.obj.uid, p.expireAt)]
              + (if s.create && c.wait then [AwaitJob(c.timeout)] else [])
              + [DeleteObject(p.name, p.obj.uid)];
  }

  // The pass once the lease start is settled and only the decision is left.
  function Settled(env: Platform, p: Pass, s: Script): Pass {
    match ParsedStart(env, p.obj.anns)
    case Some(t) => p.(now := s.clock, startAt := t)
    case None =>
      var q := Absorb(Write(p.(now := s.clock, startAt := s.clock), Starting,
                            p.obj.anns[LeaseStart := env.format(s.clock)]), s.startPatch);
      CountStart(q)
  }

  lemma SettledPlay(env: Platform, p: Pass, s: Script, asked: seq<Request>)
    requires p.phase == Clocking
    ensures var a, rest := p.obj.anns, Play(env, Decide(env, Settled(env, p, s)), s);
            && Play(env, p, s).0 == rest.0
            && asked + Play(env, p, s).1 == asked + [ReadClock]
                 + (if ParsedStart(env, a).Some? then []
                    else [PatchObject(p.name, MergeDiff(a, a[LeaseStart := env.format(s.clock)]))])
                 + rest.1
  {
    hide Decide, Play, ParseConfig;
    PlayStep(env, p, s, asked);
    var q := Respond(env, p, s);
    if ParsedStart(env, p.obj.anns).None? {
      PlayStep(env, q, s, asked + [ReadClock]);
      assert Respond(env, q, s) == Decide(env, Settled(env, p, s));
    } else {
      assert asked + [ReadClock] + [] == asked + [ReadClock];
    }
  }
}

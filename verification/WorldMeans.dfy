// What the steps of a running cluster do, spelled out: every answer reaches the pass that waits for it,
// and the queue learns what it has to.
module WorldMeans {
  import opened Wrappers
  import opened Kube
  import opened LeasePass
  import opened World
  import opened Safety
  import ObjectFilter

  lemma PassOf(env: Platform, w: State, a: Action)
    requires OfFlight(a) && Enabled(env, w, a)
    ensures var v := Next(env, w, a);
            && |v.flights| == |w.flights| && v.flights[a.i].pass == Moved(env, w, a).pass
            && v.log == Wrote(w, a).log && v.cached == w.cached && v.clock == w.clock && v.tracked == w.tracked
            && forall k: nat | k < |w.flights| && k != a.i :: v.flights[k] == w.flights[k]
  {
    hide Moved, Wrote, Put, Next;
    NextIsPut(env, w, a);
    WroteExtends(env, w, a);
    PutMeans(Wrote(w, a), a.i, Moved(env, w, a));
  }

  lemma PutMeans(v: State, i: nat, f: Flight)
    requires i < |v.flights|
    ensures var u := Put(v, i, f);
            && |u.flights| == |v.flights| && u.flights[i].pass == f.pass
            && u.log == v.log && u.cached == v.cached && u.clock == v.clock && u.tracked == v.tracked
            && forall k: nat | k < |v.flights| && k != i :: u.flights[k] == v.flights[k]
  {
  }

  // A read yields the version as it is, or as the cache shows it; a missing object is not found.
  lemma FetchMeans(env: Platform, w: State, i: nat, at: nat, filtered: bool)
    requires Enabled(env, w, Fetch(i, at, filtered))
    ensures var v, p := Next(env, w, Fetch(i, at, filtered)), w.flights[i].pass;
            && |v.flights| == |w.flights| && v.log == w.log && (at == w.cached || at == |w.log| - 1)
            && v.flights[i].pass ==
                 OnGet(p, match w.log[at].state
                          case None => NotFound
                          case Some(o) => Found(if filtered then ObjectFilter.Stripped(o, ObjectFilter.KEEP) else o))
  {
    hide Next, Put, OnGet;
    PassOf(env, w, Fetch(i, at, filtered));
  }

  // A failed read.
  lemma FetchFailsMeans(env: Platform, w: State, i: nat)
    requires Enabled(env, w, FetchFails(i))
    ensures var v := Next(env, w, FetchFails(i));
            |v.flights| == |w.flights| && v.flights[i].pass == OnGet(w.flights[i].pass, GetFailed) && v.log == w.log
  {
    hide Next, Put, OnGet;
    PassOf(env, w, FetchFails(i));
  }

  // The clock.
  lemma ClockMeans(env: Platform, w: State, i: nat)
    requires Enabled(env, w, TellTime(i))
    ensures var v := Next(env, w, TellTime(i));
            && |v.flights| == |w.flights| && v.log == w.log
            && v.flights[i].pass == OnClock(env, w.flights[i].pass, w.clock)
  {
    hide Next, Put, OnClock;
    PassOf(env, w, TellTime(i));
  }

  // A patch that never reaches the server.
  lemma LostMeans(env: Platform, w: State, i: nat)
    requires Enabled(env, w, PatchLost(i))
    ensures var v := Next(env, w, PatchLost(i));
            |v.flights| == |w.flights| && v.flights[i].pass == OnPatch(env, w.flights[i].pass, Lost) && v.log == w.log
  {
    hide Next, Put, OnPatch;
    PassOf(env, w, PatchLost(i));
  }

  // A patch that lands merges its difference into whatever the server holds by then; the answer, if it
  // arrives, is the object as it is after that, uid included.
  lemma LandMeans(env: Platform, w: State, i: nat, refresh: bool)
    requires Enabled(env, w, PatchLands(i, refresh))
    ensures var v, p := Next(env, w, PatchLands(i, refresh)), w.flights[i].pass;
            var o := w.log[|w.log| - 1].state.value;
            var merged := Obj(o.uid, MergeApply(o.anns, MergeDiff(p.base, p.obj.anns)));
            && |v.flights| == |w.flights|
            && v.log == (if merged == o then w.log else w.log + [Version(Some(merged), ByFlight(i))])
            && v.flights[i].pass == OnPatch(env, p, Landed(if refresh then Some(merged) else None))
  {
    hide Next, Put, OnPatch, MergeApply, MergeDiff;
    PassOf(env, w, PatchLands(i, refresh));
  }

  // The job API answers as it likes.
  lemma JobMeans(env: Platform, w: State, i: nat, ok: bool)
    requires Enabled(env, w, JobAnswer(i, ok))
    ensures var v, p := Next(env, w, JobAnswer(i, ok)), w.flights[i].pass;
            && p.config.Some? && |v.flights| == |w.flights| && v.log == w.log
            && v.flights[i].pass == (if p.phase == Creating then OnCreate(p, ok) else OnAwait(p, ok))
  {
    hide Next, Put, OnCreate, OnAwait;
    PassOf(env, w, JobAnswer(i, ok));
  }

  // A delete succeeds exactly if the uid still matches; an absent object is told apart from a wrong one; an
  // answer that gets lost reads as a refusal.
  lemma DeleteMeans(env: Platform, w: State, i: nat, told: bool)
    requires Enabled(env, w, DeleteArrives(i, told))
    ensures var v, p, s := Next(env, w, DeleteArrives(i, told)), w.flights[i].pass, w.log[|w.log| - 1].state;
            var hit := s.Some? && s.value.uid == p.obj.uid;
            && |v.flights| == |w.flights|
            && v.log == w.log + (if hit then [Version(None, ByFlight(i))] else [])
            && v.flights[i].pass ==
                 OnDelete(p, if !told then Refused else if s == None then Absent else if hit then Deleted else Refused)
  {
    hide Next, Put, OnDelete;
    PassOf(env, w, DeleteArrives(i, told));
  }

  // A delete that never reaches the server.
  lemma DeleteLostMeans(env: Platform, w: State, i: nat)
    requires Enabled(env, w, DeleteLost(i))
    ensures var v := Next(env, w, DeleteLost(i));
            |v.flights| == |w.flights| && v.flights[i].pass == OnDelete(w.flights[i].pass, Refused) && v.log == w.log
  {
    hide Next, Put, OnDelete;
    PassOf(env, w, DeleteLost(i));
  }

  // An event that passes the filter queues the object, and so does a timer; the queue starts what it holds
  // and then holds it no more; the namespace listener does not touch the queue.
  lemma QueueMeans(env: Platform, w: State)
    ensures Enabled(env, w, Deliver) ==>
              var v := Next(env, w, Deliver);
              v == w.(cached := w.cached + 1, queued := v.queued)
              && (v.queued <==> w.queued || Triggers(w.log[w.cached].state, w.log[w.cached + 1].state))
    ensures Enabled(env, w, Fire) ==> Next(env, w, Fire) == w.(wake := None, queued := true)
    ensures Enabled(env, w, StartQueued) ==>
              var v := Next(env, w, StartQueued);
              && w.queued && !v.queued && v.wake == w.wake && |v.flights| == |w.flights| + 1
              && v.flights[..|w.flights|] == w.flights
              && v.flights[|w.flights|].origin == FromQueue
              && v.flights[|w.flights|].pass == Begin(w.name, w.tracked)
    ensures Enabled(env, w, StartDirect) ==>
              var v := Next(env, w, StartDirect);
              && v.queued == w.queued && v.wake == w.wake && |v.flights| == |w.flights| + 1
              && v.flights[..|w.flights|] == w.flights
              && v.flights[|w.flights|].origin == FromNamespace
              && v.flights[|w.flights|].pass == Begin(w.name, w.tracked)
  {
    hide Triggers, Begin;
  }

  // What a reconcile leaves behind. From the queue: an error queues the object again, and a positive delay
  // sets the wake-up, an earlier one having precedence. From the namespace listener: nothing.
  lemma EndingMeans(w: State, i: nat, f: Flight)
    requires i < |w.flights| && f.pass.phase == Finished
    ensures var v, e := Put(w, i, f), f.pass.ending;
            if f.origin == FromNamespace then v.queued == w.queued && v.wake == w.wake
            else
              && (v.queued <==> w.queued || e == GetError || e == DeleteError)
              && v.wake == (if !e.Active? || e.delay <= 0 then w.wake
                            else if w.wake.Some? && w.wake.value <= w.clock + e.delay then w.wake
                            else Some(w.clock + e.delay))
  {
  }

  // A restart crashes what was running, forgets timers and queue, and lists the latest version, which
  // queues the object if it carries a ttl.
  lemma RestartMeans(env: Platform, w: State, on: bool)
    requires w.log != []
    ensures Enabled(env, w, Restart(on))
    ensures var v, s := Next(env, w, Restart(on)), w.log[|w.log| - 1].state;
            && v.log == w.log && v.cached == |w.log| - 1 && v.wake == None && v.tracked == on
            && (v.queued <==> s.Some? && TTL in s.value.anns)
            && |v.flights| == |w.flights|
            && forall k: nat | k < |w.flights| :: v.flights[k].pass.phase == Finished
  {
  }
}

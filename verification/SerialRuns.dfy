// Users edit, delete and recreate the object whenever they like, also between the read and the patch
// of a reconcile. As long as reconciles do not overlap and none reads a version older than the
// controller's last write, every self-caused reconcile is paid for by a write of a user.
module SerialRuns {
  import opened Wrappers
  import opened Kube
  import opened LeasePass
  import opened World
  import opened WorldInvariant
  import opened WorldRuns
  import opened Safety
  import opened Coverage
  import opened SelfTrigger
  import opened OneTrigger
  import opened CleanupJob

  // ---------- who wrote ----------

  predicate UsersAfter(log: seq<Version>, a: nat) {
    forall k: nat | a < k < |log| :: log[k].author.Outside?
  }

  // How many of the versions after b and before n users wrote.
  function Users(log: seq<Version>, b: nat, n: nat): nat
    requires n <= |log|
  {
    if n <= b + 1 then 0
    else Users(log, b, n - 1) + if log[n - 1].author.Outside? then 1 else 0
  }

  lemma {:induction false} UsersPrefix(log: seq<Version>, more: seq<Version>, b: nat, n: nat)
    requires n <= |log|
    ensures Users(log + more, b, n) == Users(log, b, n)
  {
    if n > b + 1 { UsersPrefix(log, more, b, n - 1); }
  }

  lemma {:induction false} UsersGrow(log: seq<Version>, b: nat, m: nat, n: nat)
    requires m <= n <= |log|
    ensures Users(log, b, m) <= Users(log, b, n)
    ensures b < m < n && log[m].author.Outside? ==> Users(log, b, m) < Users(log, b, n)
  {
    if m < n { UsersGrow(log, b, m, n - 1); }
  }

  // ---------- the account ----------

  // Own triggers after b, and what version a leaves to be settled, are covered by what b left and by
  // the user's writes up to a.
  predicate Paid(env: Platform, log: seq<Version>, b: nat, a: nat)
    requires b < |log| && a < |log|
  {
    Backlog(log, b + 1) + Mu(env, log[a].state) <= Mu(env, log[b].state) + Users(log, b, a + 1)
  }

  predicate AllPaid(env: Platform, log: seq<Version>, b: nat)
    requires b < |log|
  {
    forall a: nat | b <= a < |log| && UsersAfter(log, a) :: Paid(env, log, b, a)
  }

  // A reconcile about to touch ttl or lease-start has read what the controller last wrote.
  predicate Recent(log: seq<Version>, b: nat, f: Flight) {
    && Neutral(f.pass)
    && (f.pass.phase in {Clocking, Starting, Cleaning} ==> b <= f.readAt && UsersAfter(log, f.readAt))
  }

  predicate Serial(env: Platform, w: State, b: nat) {
    && b < |w.log| && AllPaid(env, w.log, b)
    && (w.flights == [] ||
        (NoneLive(w.flights, |w.flights| - 1)
         && (Live(w.flights[|w.flights| - 1]) ==> Recent(w.log, b, w.flights[|w.flights| - 1]))))
  }

  // ---------- writes ----------

  lemma UserPays(env: Platform, log: seq<Version>, v: Version, b: nat)
    requires b < |log| && AllPaid(env, log, b) && v.author.Outside?
    ensures AllPaid(env, log + [v], b) && Backlog(log + [v], b + 1) == Backlog(log, b + 1)
  {
    hide Mu;
    var l, n := log + [v], |log|;
    BacklogSnoc(log, v, b + 1);
    forall a: nat | b <= a < |l| && UsersAfter(l, a) ensures Paid(env, l, b, a) {
      var k: nat := if a < n then a else n - 1;
      assert UsersAfter(log, k) by {
        forall m: nat | k < m < n ensures log[m].author.Outside? { assert l[m] == log[m]; }
      }
      assert Paid(env, log, b, k);
      UsersPrefix(log, [v], b, k + 1);
      if a == n { MuIsSmall(env, v.state); }
    }
  }

  lemma MuIsSmall(env: Platform, s: Option<Obj>)
    ensures Mu(env, s) <= 1
  {
  }

  // A version of the controller's own: only what it leaves has to be accounted for.
  lemma FlightPays(env: Platform, log: seq<Version>, v: Version, b: nat)
    requires b < |log| && v.author.ByFlight?
    requires var due := if Triggers(log[|log| - 1].state, v.state) then 1 else 0;
             Backlog(log, b + 1) + due + Mu(env, v.state) <= Mu(env, log[b].state) + Users(log, b, |log|)
    ensures AllPaid(env, log + [v], b)
  {
    hide Mu, Triggers;
    var l, n := log + [v], |log|;
    BacklogSnoc(log, v, b + 1);
    UsersPrefix(log, [v], b, n);
    assert l[n] == v;
    forall a: nat | b <= a < |l| && UsersAfter(l, a) ensures Paid(env, l, b, a) {
      assert a == n;
    }
  }

  // The base of a start or cleanup patch is the version read, as far as ttl and lease-start go.
  lemma BaseIsRead(env: Platform, log: seq<Version>, f: Flight)
    requires FlightOk(env, log, f) && (f.pass.phase == Starting || f.pass.phase == Cleaning)
    ensures Exists(log, f.readAt)
    ensures Relevant(f.pass.base) == Relevant(At(log, f.readAt).anns)
  {
    KeptStart(env, f.seen.value, At(log, f.readAt));
    RelevantOf(f.pass.base, At(log, f.readAt).anns);
  }

  // A patch that starts a lease or takes its start away was computed from an unsettled version. If
  // ttl or lease-start have changed since, a user has written in between.
  lemma ReaderPays(env: Platform, log: seq<Version>, b: nat, r: nat, base: Anns, due: nat, left: nat)
    requires b <= r < |log| && AllPaid(env, log, b) && UsersAfter(log, r)
    requires Exists(log, r) && Exists(log, |log| - 1) && Mu(env, log[r].state) == 1
    requires Relevant(base) == Relevant(At(log, r).anns) && due <= 1 && left <= 1
    requires Relevant(base) == Relevant(At(log, |log| - 1).anns) ==> left == 0
    ensures Backlog(log, b + 1) + due + left <= Mu(env, log[b].state) + Users(log, b, |log|)
  {
    hide Mu, Relevant;
    assert Paid(env, log, b, r);
    UsersGrow(log, b, r + 1, |log|);
    if left == 1 { assert r < |log| - 1 && log[r + 1].author.Outside?; }
  }

  lemma LandingPays(env: Platform, w: State, i: nat, b: nat)
    requires Lawful(env) && b < |w.log| && AllPaid(env, w.log, b)
    requires i < |w.flights| && FlightOk(env, w.log, w.flights[i]) && Recent(w.log, b, w.flights[i])
    requires Patching(w.flights[i].pass.phase) && Current(w).Some?
    ensures AllPaid(env, Landing(w, i).log, b)
  {
    hide FlightOk, Landing, Recent, AllPaid, Mu, Triggers, MergeApply, MergeDiff, Backlog, Users;
    var v := Landing(w, i);
    LandingShape(w, i);
    if v.log != w.log {
      LandingDue(env, w, i, b);
      FlightPays(env, w.log, v.log[|w.log|], b);
    }
  }

  // Own triggers, the one this write makes, and what it leaves are still covered.
  predicate Due(env: Platform, log: seq<Version>, b: nat, s: Obj, t: Obj)
    requires b < |log|
  {
    Backlog(log, b + 1) + (if Triggers(Some(s), Some(t)) then 1 else 0) + Mu(env, Some(t))
      <= Mu(env, log[b].state) + Users(log, b, |log|)
  }

  lemma LandingDue(env: Platform, w: State, i: nat, b: nat)
    requires Lawful(env) && b < |w.log| && AllPaid(env, w.log, b)
    requires i < |w.flights| && FlightOk(env, w.log, w.flights[i]) && Recent(w.log, b, w.flights[i])
    requires Patching(w.flights[i].pass.phase) && Current(w).Some?
    ensures Current(Landing(w, i)).Some? && Due(env, w.log, b, Current(w).value, Current(Landing(w, i)).value)
  {
    var f := w.flights[i];
    var p, s := f.pass, Current(w).value;
    hide FlightOk, MergeApply, MergeDiff, Landing, AllPaid, Due, Neutral, UsersAfter, Lawful;
    LandingShape(w, i);
    var t := Current(Landing(w, i)).value;
    if p.phase == Starting || (p.phase == Cleaning && LeaseStart in p.base) {
      UnsettledDue(env, w.log, b, f, s, t);
    } else {
      NeutralDue(env, w.log, b, f, s, t);
    }
  }

  lemma UnsettledDue(env: Platform, log: seq<Version>, b: nat, f: Flight, s: Obj, t: Obj)
    requires Lawful(env) && b < |log| && AllPaid(env, log, b) && log[|log| - 1].state == Some(s)
    requires FlightOk(env, log, f) && Recent(log, b, f)
    requires f.pass.phase == Starting || (f.pass.phase == Cleaning && LeaseStart in f.pass.base)
    requires t == s.(anns := MergeApply(s.anns, MergeDiff(f.pass.base, f.pass.obj.anns)))
    ensures Due(env, log, b, s, t)
  {
    var p := f.pass;
    PatchingFacts(env, log, f);
    CleaningFacts(env, log, f);
    BaseIsRead(env, log, f);
    ReadUnsettled(env, log, f);
    hide FlightOk, MergeApply, MergeDiff, Unsettled, Triggers, AllPaid, Users, Backlog, Relevant, UsersAfter;
    SettledBySame(env, s, p, t);
    ReaderPays(env, log, b, f.readAt, p.base, if Triggers(Some(s), Some(t)) then 1 else 0, Mu(env, Some(t)));
  }

  lemma NeutralDue(env: Platform, log: seq<Version>, b: nat, f: Flight, s: Obj, t: Obj)
    requires b < |log| && AllPaid(env, log, b) && log[|log| - 1].state == Some(s)
    requires FlightOk(env, log, f) && Neutral(f.pass) && Patching(f.pass.phase) && f.pass.phase != Starting
    requires f.pass.phase == Cleaning ==> LeaseStart !in f.pass.base
    requires t == s.(anns := MergeApply(s.anns, MergeDiff(f.pass.base, f.pass.obj.anns)))
    ensures Due(env, log, b, s, t)
  {
    var p := f.pass;
    CleaningFacts(env, log, f);
    hide FlightOk, MergeApply, MergeDiff, Unsettled, Triggers, AllPaid, Users, Backlog, Relevant;
    if p.phase == Cleaning { NothingToClean(p.base); }
    NeutralPatch(s.anns, p.base, p.obj.anns);
    MuByRelevant(env, s, t);
    LastPaid(env, log, b);
  }

  lemma LastPaid(env: Platform, log: seq<Version>, b: nat)
    requires b < |log| && AllPaid(env, log, b)
    ensures Backlog(log, b + 1) + Mu(env, log[|log| - 1].state) <= Mu(env, log[b].state) + Users(log, b, |log|)
  {
    hide Mu, Backlog, Users;
    assert UsersAfter(log, |log| - 1);
    assert Paid(env, log, b, |log| - 1);
  }

  lemma NothingToClean(a: Anns)
    requires LeaseStart !in a
    ensures Relevant(a) == Relevant(WithoutOutputs(a))
  {
  }

  lemma ReadUnsettled(env: Platform, log: seq<Version>, f: Flight)
    requires FlightOk(env, log, f) && Exists(log, f.readAt)
    requires f.pass.phase == Starting || (f.pass.phase == Cleaning && LeaseStart in f.pass.base)
    requires Relevant(f.pass.base) == Relevant(At(log, f.readAt).anns)
    ensures Mu(env, log[f.readAt].state) == 1
  {
    PatchingFacts(env, log, f);
    CleaningFacts(env, log, f);
    hide FlightOk;
    var o := At(log, f.readAt);
    RelevantSame(env, f.pass.base, o.anns);
    RelevantParts(f.pass.base, o.anns, LeaseStart);
  }

  // On a server that still shows the base, the patch settles the measure.
  lemma SettledBySame(env: Platform, s: Obj, p: Pass, t: Obj)
    requires Lawful(env) && t == s.(anns := MergeApply(s.anns, MergeDiff(p.base, p.obj.anns)))
    requires (p.phase == Starting && !NoTTL(p.base) && env.lo <= p.now < env.hi
              && ParsedStart(env, p.base) == None && p.obj.anns == p.base[LeaseStart := env.format(p.now)])
             || (p.phase == Cleaning && NoTTL(p.base) && p.obj.anns == WithoutOutputs(p.base))
    ensures Relevant(p.base) == Relevant(s.anns) ==> Mu(env, Some(t)) == 0
  {
    hide MergeApply, MergeDiff, Relevant, Unsettled, Triggers;
    if Relevant(p.base) == Relevant(s.anns) {
      if p.phase == Starting { StartPatch(env, s, p.base, p.now); } else { CleanPatch(env, s, p.base); }
    }
  }

  // ---------- steps ----------

  // Reconciles do not overlap, and each reads a version no older than the controller's last write
  // and the state the run began with.
  predicate SerialStep(w: State, b: nat, a: Action) {
    match a
    case Fetch(_, at, _) => b <= at && UsersAfter(w.log, at)
    case StartQueued => NoneLive(w.flights, |w.flights|)
    case StartDirect => NoneLive(w.flights, |w.flights|)
    case _ => true
  }

  predicate SerialRun(env: Platform, w: State, b: nat, run: seq<Action>)
    decreases |run|
  {
    run == [] ||
    (Enabled(env, w, run[0]) && SerialStep(w, b, run[0]) && SerialRun(env, Next(env, w, run[0]), b, run[1..]))
  }

  lemma WrotePays(env: Platform, w: State, a: Action, b: nat)
    requires Lawful(env) && b < |w.log| && AllPaid(env, w.log, b)
    requires OfFlight(a) && Enabled(env, w, a)
    requires FlightOk(env, w.log, w.flights[a.i]) && Recent(w.log, b, w.flights[a.i])
    ensures AllPaid(env, Wrote(w, a).log, b)
  {
    hide FlightOk, Recent, AllPaid, Landing;
    if a.PatchLands? {
      LandingPays(env, w, a.i, b);
    } else if a.DeleteArrives? && DeleteStep(w, a.i) != w {
      LastPaid(env, w.log, b);
      FlightPays(env, w.log, Version(None, ByFlight(a.i)), b);
    }
  }

  // A flight that is still about to touch the two keys has just read them or written nothing since.
  lemma MovedRecent(env: Platform, w: State, a: Action, b: nat)
    requires OfFlight(a) && Enabled(env, w, a) && SerialStep(w, b, a)
    requires Recent(w.log, b, w.flights[a.i])
    ensures Recent(Wrote(w, a).log, b, Moved(env, w, a))
  {
    Moves(env, w, a);
    MovedReads(env, w, a);
    hide Moved, Wrote, UsersAfter, Neutral;
  }

  lemma MovedReads(env: Platform, w: State, a: Action)
    requires OfFlight(a) && Enabled(env, w, a)
    ensures var f, g := w.flights[a.i], Moved(env, w, a);
            g.pass.phase in {Clocking, Starting, Cleaning} ==>
              && Wrote(w, a) == w
              && (a.Fetch? ==> g.readAt == a.at)
              && (!a.Fetch? ==> g.readAt == f.readAt && f.pass.phase == Clocking)
  {
    hide OnPatch, OnClock, Landing, DeleteStep, View, DeleteReply, ParseConfig, UsersAfter, Relevant;
    var p := w.flights[a.i].pass;
    if a.PatchLost? { PatchMoves(env, p, Lost); }
    if a.PatchLands? {
      var log := Landing(w, a.i).log;
      PatchMoves(env, p, Landed(if a.refresh && log != [] then log[|log| - 1].state else None));
    }
  }

  lemma SerialLast(env: Platform, w: State, a: Action, b: nat)
    requires FlightsOk(env, w.log, w.flights) && Serial(env, w, b) && OfFlight(a) && Enabled(env, w, a)
    ensures a.i + 1 == |w.flights| && NoneLive(w.flights, a.i) && Recent(w.log, b, w.flights[a.i])
    ensures FlightOk(env, w.log, w.flights[a.i])
  {
    hide FlightOk, Recent, AllPaid;
    assert Live(w.flights[a.i]);
  }

  lemma PutSerial(env: Platform, v: State, i: nat, f: Flight, b: nat)
    requires b < |v.log| && AllPaid(env, v.log, b)
    requires i + 1 == |v.flights| && NoneLive(v.flights, i) && Recent(v.log, b, f)
    ensures Serial(env, Put(v, i, f), b)
  {
    hide AllPaid, Neutral, UsersAfter;
    var w := Put(v, i, f);
    assert w.flights[i].pass == f.pass && w.flights[i].readAt == f.readAt && w.log == v.log;
    assert forall k: nat | k < i :: w.flights[k] == v.flights[k];
  }

  lemma FlightSerial(env: Platform, w: State, a: Action, b: nat)
    requires Lawful(env) && Inv(env, w) && Serial(env, w, b)
    requires OfFlight(a) && Enabled(env, w, a) && SerialStep(w, b, a)
    ensures Serial(env, Next(env, w, a), b)
  {
    SerialLast(env, w, a, b);
    hide FlightOk, Lineage, Authored, FlightsOk, Moved, Wrote, Put, Recent, AllPaid, SerialStep, Next, Enabled;
    MovedRecent(env, w, a, b);
    WroteExtends(env, w, a);
    WrotePays(env, w, a, b);
    NextIsPut(env, w, a);
    PutSerial(env, Wrote(w, a), a.i, Moved(env, w, a), b);
  }

  lemma UserSerial(env: Platform, w: State, anns: Option<Anns>, b: nat)
    requires Serial(env, w, b)
    ensures Serial(env, UserWrites(w, anns), b)
  {
    hide AllPaid, Neutral;
    var v := UserWrites(w, anns);
    if v.log != w.log {
      UserPays(env, w.log, v.log[|w.log|], b);
      assert v.log == w.log + [v.log[|w.log|]];
    }
  }

  lemma OtherSerial(env: Platform, w: State, a: Action, b: nat)
    requires Serial(env, w, b) && !OfFlight(a) && Enabled(env, w, a) && SerialStep(w, b, a)
    ensures Serial(env, Next(env, w, a), b)
  {
    hide AllPaid, Relevant, Triggers, UserWrites;
    if a.UserWrite? {
      UserSerial(env, w, a.anns, b);
    } else {
      var v := Next(env, w, a);
      assert v.log == w.log;
      if a.Restart? { assert NoneLive(v.flights, |v.flights|); }
    }
  }

  // ---------- deliveries ----------

  // Own triggers after b that have been delivered, or dropped by a restart.
  function Seen(w: State, b: nat): int
    requires b < |w.log| && w.cached < |w.log|
  {
    Backlog(w.log, b + 1) - Backlog(w.log, w.cached + 1)
  }

  lemma AppendedSeen(w: State, v: State, x: Version, b: nat)
    requires b < |w.log| && w.cached < |w.log| && v.log == w.log + [x] && v.cached == w.cached
    ensures Seen(v, b) == Seen(w, b)
  {
    BacklogSnoc(w.log, x, b + 1);
    BacklogSnoc(w.log, x, w.cached + 1);
  }

  lemma StepSeen(env: Platform, w: State, a: Action, b: nat)
    requires Enabled(env, w, a) && b < |w.log| && w.cached < |w.log|
    ensures var v := Next(env, w, a);
            b < |v.log| && v.cached < |v.log| && Seen(v, b) >= Seen(w, b) + Caused(w, a)
  {
    hide Moved, Triggers, UserWrites, Backlog, Put;
    if OfFlight(a) {
      NextIsPut(env, w, a);
      FlightSeen(env, w, a, b);
    } else if a.UserWrite? {
      UserSeen(w, a.anns, b);
    } else {
      DeliveredSeen(env, w, a, b);
    }
  }

  lemma FlightSeen(env: Platform, w: State, a: Action, b: nat)
    requires OfFlight(a) && Enabled(env, w, a) && b < |w.log| && w.cached < |w.log|
    ensures var v := Put(Wrote(w, a), a.i, Moved(env, w, a));
            b < |v.log| && v.cached < |v.log| && Seen(v, b) == Seen(w, b)
  {
    hide Moved, Backlog, MergeApply, MergeDiff, Landing;
    WroteExtends(env, w, a);
    var u := Wrote(w, a);
    if a.PatchLands? { LandingShape(w, a.i); }
    if u.log != w.log { AppendedSeen(w, u, u.log[|w.log|], b); }
    PutLog(u, a.i, Moved(env, w, a));
  }

  lemma PutLog(v: State, i: nat, f: Flight)
    requires i < |v.flights|
    ensures Put(v, i, f).log == v.log && Put(v, i, f).cached == v.cached
  {
  }

  lemma UserSeen(w: State, anns: Option<Anns>, b: nat)
    requires b < |w.log| && w.cached < |w.log|
    ensures var v := UserWrites(w, anns);
            b < |v.log| && v.cached < |v.log| && Seen(v, b) == Seen(w, b)
  {
    hide Backlog;
    var v := UserWrites(w, anns);
    if v.log != w.log { AppendedSeen(w, v, v.log[|w.log|], b); }
  }

  lemma DeliveredSeen(env: Platform, w: State, a: Action, b: nat)
    requires !OfFlight(a) && !a.UserWrite? && Enabled(env, w, a) && b < |w.log| && w.cached < |w.log|
    ensures var v := Next(env, w, a);
            b < |v.log| && v.cached < |v.log| && Seen(v, b) >= Seen(w, b) + Caused(w, a)
  {
    hide Triggers, Begin;
    var v := Next(env, w, a);
    assert v.log == w.log;
  }

  // ---------- runs ----------

  lemma {:induction false} SerialRunKeeps(env: Platform, w: State, b: nat, run: seq<Action>)
    requires Lawful(env) && Inv(env, w) && Serial(env, w, b) && SerialRun(env, w, b, run)
    ensures Possible(env, w, run)
    ensures var v := After(env, w, run);
            && Serial(env, v, b) && v.cached < |v.log| && w.cached < |w.log|
            && CausedIn(env, w, run) <= Seen(v, b) - Seen(w, b)
    decreases |run|
  {
    InvCached(env, w);
    hide Inv, Seen, Enabled, Next, SerialStep, Caused, AllPaid;
    if run != [] {
      StepKeeps(env, w, run[0]);
      StepSeen(env, w, run[0], b);
      if OfFlight(run[0]) { FlightSerial(env, w, run[0], b); } else { OtherSerial(env, w, run[0], b); }
      SerialRunKeeps(env, Next(env, w, run[0]), b, run[1..]);
    }
  }

  lemma InvCached(env: Platform, w: State)
    requires Inv(env, w)
    ensures w.cached < |w.log|
  {
  }

  // What has been self-caused, what is still to be delivered and what the object calls for: together
  // no more than users have written since, plus what was there at the beginning.
  predicate Covered(env: Platform, w: State, v: State, caused: nat) {
    && 0 < |w.log| <= |v.log| && w.cached < |w.log| && v.cached < |v.log|
    && caused + Backlog(v.log, v.cached + 1) + Mu(env, Current(v))
         <= Users(v.log, |w.log| - 1, |v.log|) + Backlog(w.log, w.cached + 1) + Mu(env, Current(w))
  }

  lemma UsersPay(env: Platform, w: State, run: seq<Action>)
    requires Lawful(env) && Reachable(env, w) && NoneLive(w.flights, |w.flights|)
    requires w.log != [] && SerialRun(env, w, |w.log| - 1, run)
    ensures Possible(env, w, run) && Covered(env, w, After(env, w, run), CausedIn(env, w, run))
  {
    hide Inv, Lawful, Reachable, Mu, Backlog, Users, SerialRun, NoneLive, Serial, Seen, CausedIn, Possible, After,
         Covered;
    ReachableKeeps(env, w);
    BeginSerial(env, w);
    SerialRunKeeps(env, w, |w.log| - 1, run);
    StableBase(env, w, |w.log| - 1, run);
    Balance(env, w, After(env, w, run), CausedIn(env, w, run));
  }

  lemma Balance(env: Platform, w: State, v: State, caused: nat)
    requires w.log != [] && w.log <= v.log && w.cached < |w.log| && v.cached < |v.log|
    requires Serial(env, v, |w.log| - 1)
    requires caused <= Seen(v, |w.log| - 1) - Seen(w, |w.log| - 1)
    ensures Covered(env, w, v, caused)
  {
    hide Mu, Users, AllPaid;
    LastPaid(env, v.log, |w.log| - 1);
    NoBacklog(w.log);
  }

  lemma NoBacklog(log: seq<Version>)
    requires log != []
    ensures Backlog(log, |log|) == 0
  {
  }

  lemma BeginSerial(env: Platform, w: State)
    requires w.log != [] && NoneLive(w.flights, |w.flights|)
    ensures Serial(env, w, |w.log| - 1)
  {
    hide Mu;
    assert Paid(env, w.log, |w.log| - 1, |w.log| - 1);
  }

  // Versions are never rewritten.
  lemma StepExtends(env: Platform, w: State, a: Action)
    requires Enabled(env, w, a)
    ensures w.log <= Next(env, w, a).log
  {
    hide Moved, Wrote, Triggers, Begin;
    if OfFlight(a) {
      WroteExtends(env, w, a);
      PutLog(Wrote(w, a), a.i, Moved(env, w, a));
    }
  }

  lemma {:induction false} StableBase(env: Platform, w: State, b: nat, run: seq<Action>)
    requires Possible(env, w, run) && b < |w.log|
    ensures w.log <= After(env, w, run).log && After(env, w, run).log[b] == w.log[b]
    decreases |run|
  {
    hide Enabled, Next;
    if run != [] {
      StepExtends(env, w, run[0]);
      StableBase(env, Next(env, w, run[0]), b, run[1..]);
    }
  }

  // From the start: at no time have there been more self-caused reconciles than writes by users, even
  // counting the events still to come and the one an unsettled object will cause.
  lemma SelfTriggersBounded(env: Platform, w: State, run: seq<Action>)
    requires Lawful(env) && Initial(env, w) && SerialRun(env, w, 0, run)
    ensures Possible(env, w, run)
    ensures var v := After(env, w, run);
            && v.log != [] && v.cached < |v.log|
            && CausedIn(env, w, run) + Backlog(v.log, v.cached + 1) + Mu(env, Current(v))
                 <= Users(v.log, 0, |v.log|)
  {
    assert Reachable(env, w) by { assert Possible(env, w, []) && After(env, w, []) == w; }
    hide Reachable, SerialRun, Possible, After, CausedIn, Mu, Users;
    UsersPay(env, w, run);
    assert Backlog(w.log, 1) == 0;
  }
}

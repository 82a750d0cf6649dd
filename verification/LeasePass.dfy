// One reconcile of one object, as the dialogue it holds with the cluster: a pass is always either
// waiting for the answer to one request or finished. Between two requests anything may happen
// elsewhere, so the answers are arbitrary.
module LeasePass {
  import opened Wrappers
  import opened Kube
  import opened CleanupJob
  import Duration

  datatype Request =
    | GetObject(name: string)
    | ReadClock
    | PatchObject(name: string, diff: Diff)
    | CreateJob(config: JobConfig, uid: nat, expireAt: int)
    | AwaitJob(timeout: int)
    | DeleteObject(name: string, uid: nat)

  datatype GetAnswer = Found(obj: Obj) | NotFound | GetFailed

  // A landed patch may hand back the object as the server now holds it.
  datatype PatchAnswer = Lost | Landed(refreshed: Option<Obj>)

  datatype DeleteAnswer = Deleted | Absent | Refused

  datatype Phase =
    | Fetching | Clocking | Cleaning | Starting | Marking | Activating | Expiring
    | Creating | Awaiting | Deleting | Finished

  datatype Ending =
    | Running | Untracked | Gone | GetError | Cleaned | Invalid | Active(delay: int) | Expired
    | DeleteError | Crashed

  // Per-pass counts: the six metrics, then events the accounting needs.
  datatype Tally = Tally(
    started: nat, expired: nat, invalid: nat, created: nat, completed: nat, failed: nat,
    deletes: nat, noConfig: nat, badConfig: nat, executions: nat, unattended: nat)

  const NOTHING := Tally(0, 0, 0, 0, 0, 0, 0, 0, 0, 0, 0)

  datatype Pass = Pass(
    phase: Phase,
    name: string,
    obj: Obj,           // the reconciler's copy of the object
    base: Anns,         // its annotations before the pending patch
    now: int,
    startAt: int,
    expireAt: int,
    config: Option<JobConfig>,
    ending: Ending,
    tally: Tally)

  // ---------- texts ----------

  const EXPIRED_STATUS := "Lease expired. Deleting object."

  function ActiveStatus(env: Platform, expireAt: int): string {
    "Lease active. Expires at " + env.format(expireAt) + " UTC."
  }

  function Reason(e: Duration.DurationError): string {
    match e
    case InvalidString => "invalid duration string"
    case MissingUnit => "missing unit in duration element"
    case UnknownUnit => "unknown duration unit"
    case OutOfRange => "value out of range"
  }

  function InvalidStatus(env: Platform, ttl: string, e: Duration.DurationError): string {
    "Invalid TTL: " + env.explain(ttl, Reason(e))
  }

  // ---------- decisions ----------

  predicate NoTTL(a: Anns) { Get(a, TTL) == "" }

  const OUTPUTS: set<Key> := {ExpireAt, Status, LeaseStart}

  function WithoutOutputs(a: Anns): Anns {
    map k | k in a && k !in OUTPUTS :: a[k]
  }

  function ParsedStart(env: Platform, a: Anns): Option<int> {
    if Get(a, LeaseStart) == "" then None else env.parse(Get(a, LeaseStart))
  }

  function ParsedTTL(env: Platform, a: Anns): Result<int, Duration.DurationError> {
    Duration.Parse(Get(a, TTL), env.wild)
  }

  // RequeueAfter: a time.Duration, so it saturates. Zero asks for nothing.
  function Delay(expireAt: int, now: int): int {
    if expireAt - now > Duration.MAX64 then Duration.MAX64 else expireAt - now
  }

  // ---------- the dialogue ----------

  function Begin(name: string, tracked: bool): Pass {
    Pass(if tracked then Fetching else Finished, name, Obj(0, map[]), map[], 0, 0, 0, None,
         if tracked then Running else Untracked, NOTHING)
  }

  function Finish(p: Pass, e: Ending): Pass { p.(phase := Finished, ending := e) }

  // Edit the copy and send the difference.
  function Write(p: Pass, next: Phase, want: Anns): Pass {
    p.(phase := next, base := p.obj.anns, obj := p.obj.(anns := want))
  }

  function Absorb(p: Pass, a: PatchAnswer): Pass {
    if a.Landed? && a.refreshed.Some? then p.(obj := a.refreshed.value) else p
  }

  function OnGet(p: Pass, a: GetAnswer): Pass {
    match a
    case NotFound => Finish(p, Gone)
    case GetFailed => Finish(p, GetError)
    case Found(o) =>
      var q := p.(obj := o);
      if !NoTTL(o.anns) then q.(phase := Clocking)
      else if o.anns.Keys !! OUTPUTS then Finish(q, Cleaned)
      else Write(q, Cleaning, WithoutOutputs(o.anns))
  }

  function OnClock(env: Platform, p: Pass, now: int): Pass {
    var q := p.(now := now);
    match ParsedStart(env, p.obj.anns)
    case Some(t) => Decide(env, q.(startAt := t))
    case None => Write(q.(startAt := now), Starting, p.obj.anns[LeaseStart := env.format(now)])
  }

  // The TTL is read from the copy as it is now, after the lease start was settled.
  function Decide(env: Platform, p: Pass): (q: Pass)
    ensures q.phase in {Marking, Expiring, Activating}
    ensures q.name == p.name && q.tally == p.tally && q.ending == p.ending && q.now == p.now
  {
    hide Duration.Parse;
    var a := p.obj.anns;
    match ParsedTTL(env, a)
    case Err(e) => Write(p, Marking, a[Status := InvalidStatus(env, Get(a, TTL), e)])
    case Ok(ttl) =>
      var e := p.startAt + ttl;
      if p.now > e
      then Write(p.(expireAt := e), Expiring, a[ExpireAt := env.format(e)][Status := EXPIRED_STATUS])
      else Write(p.(expireAt := e), Activating,
                 a[ExpireAt := env.format(e)][Status := ActiveStatus(env, e)])
  }

  // A start that was present but unreadable is reset, not counted as a new lease.
  function CountStart(p: Pass): Pass {
    if Get(p.base, LeaseStart) == "" then p.(tally := p.tally.(started := p.tally.started + 1)) else p
  }

  function OnPatch(env: Platform, p: Pass, a: PatchAnswer): Pass {
    var q := Absorb(p, a);
    match p.phase
    case Cleaning => Finish(q, Cleaned)
    case Starting =>
      Decide(env, CountStart(q))
    case Marking => Finish(q.(tally := q.tally.(invalid := q.tally.invalid + 1)), Invalid)
    case Activating => Finish(q, Active(Delay(p.expireAt, p.now)))
    case Expiring =>
      var t := q.tally.(expired := q.tally.expired + 1);
      (match ParseConfig(q.obj.anns, env.wild)
       case Err(_) => q.(phase := Deleting, tally := t.(badConfig := t.badConfig + 1))
       case Ok(None) => q.(phase := Deleting, tally := t.(noConfig := t.noConfig + 1))
       case Ok(Some(c)) => q.(phase := Creating, config := Some(c), tally := t.(executions := t.executions + 1)))
    case _ => p
  }

  function OnCreate(p: Pass, ok: bool): Pass
    requires p.config.Some?
  {
    var t := p.tally;
    if !ok then p.(phase := Deleting, tally := t.(failed := t.failed + 1))
    else if p.config.value.wait then p.(phase := Awaiting, tally := t.(created := t.created + 1))
    else p.(phase := Deleting, tally := t.(created := t.created + 1, unattended := t.unattended + 1))
  }

  function OnAwait(p: Pass, ok: bool): Pass {
    var t := p.tally;
    p.(phase := Deleting,
       tally := if ok then t.(completed := t.completed + 1) else t.(failed := t.failed + 1))
  }

  function OnDelete(p: Pass, a: DeleteAnswer): Pass {
    Finish(p.(tally := p.tally.(deletes := p.tally.deletes + 1)),
           if a == Refused then DeleteError else Expired)
  }

  predicate Sane(p: Pass) {
    p.phase == Creating || p.phase == Awaiting ==> p.config.Some?
  }

  predicate Patching(ph: Phase) {
    ph in {Cleaning, Starting, Marking, Activating, Expiring}
  }

  function Ask(p: Pass): Request
    requires p.phase != Finished && Sane(p)
  {
    match p.phase
    case Fetching => GetObject(p.name)
    case Clocking => ReadClock
    case Creating => CreateJob(p.config.value, p.obj.uid, p.expireAt)
    case Awaiting => AwaitJob(p.config.value.timeout)
    case Deleting => DeleteObject(p.name, p.obj.uid)
    case _ => PatchObject(p.name, MergeDiff(p.base, p.obj.anns))
  }

  // ---------- a whole pass against given answers ----------

  // A pass asks at most once for each of these.
  datatype Script = Script(
    get: GetAnswer, clock: int, startPatch: PatchAnswer, lastPatch: PatchAnswer,
    create: bool, await: bool, delete: DeleteAnswer)

  function Respond(env: Platform, p: Pass, s: Script): (q: Pass)
    requires p.phase != Finished && Sane(p)
    ensures Sane(q) && q.name == p.name && Rank(q.phase) < Rank(p.phase)
  {
    hide Decide, ParseConfig;
    match p.phase
    case Fetching => OnGet(p, s.get)
    case Clocking => OnClock(env, p, s.clock)
    case Starting => OnPatch(env, p, s.startPatch)
    case Creating => OnCreate(p, s.create)
    case Awaiting => OnAwait(p, s.await)
    case Deleting => OnDelete(p, s.delete)
    case _ => OnPatch(env, p, s.lastPatch)
  }

  function Rank(ph: Phase): nat {
    match ph
    case Fetching => 7 case Clocking => 6 case Starting => 5 case Expiring => 4
    case Creating => 3 case Awaiting => 2 case Finished => 0
    case _ => 1
  }

  function Play(env: Platform, p: Pass, s: Script): (r: (Pass, seq<Request>))
    requires Sane(p)
    ensures r.0.phase == Finished
    decreases Rank(p.phase)
  {
    if p.phase == Finished then (p, [])
    else
      var rest := Play(env, Respond(env, p, s), s);
      (rest.0, [Ask(p)] + rest.1)
  }
}

# Object lease controller: a verified model

A Kubernetes controller gives objects a time to live. Four annotations carry the lease: `ttl` is the
user's, `lease-start`, `expire-at` and `status` are the controller's. A reconcile reads an object,
patches those annotations, and ends with a wake-up request, a delete, or nothing. This project models
that controller together with its duration parser, its cleanup-job stage, its cache filter and its
namespace tracker, and proves what holds over every run.

`dafny verify dfyconfig.toml` checks the whole project.

## How it is built

| layer | files |
|---|---|
| text and time | `Regex`, `Duration`, `DurationLaws`, `DurationTable`, `Kube` |
| one reconcile | `CleanupJob`, `CleanupJobLaws`, `LeasePass`, `LeaseController`, `ReconcileInFull`, `LeaseLaws`, `ObjectFilter` |
| one object name in a running cluster | `World`, `WorldMeans`, `WorldInvariant`, `WorldRuns` |
| theorems over runs | `Safety`, `LeaseRuns`, `StillRuns`, `Coverage`, `WakeUps`, `LostLeases`, `SelfTrigger`, `OneTrigger`, `SerialRuns`, `Overlap`, `NamespacePath`, `StatusText`, `StatusRace`, `Accounting` |
| namespaces | `TrackerLog`, `Tracker`, `NamespaceController`, `NamespaceEvents` |

* **`LeasePass`** is one reconcile as a dialogue: it is always waiting for the answer to one request
  (get, clock, patch, create job, await job, delete) or finished. Nothing is assumed about answers.
* **`LeaseController`** is the source's own form: a mutable copy of the object, annotation maps edited
  and set back, patches and the delete sent in sequence, counters incremented. Every method is proved
  to send exactly the requests of `LeasePass.Play` and to count and return what it says.
* **`World`** interleaves any number of such passes over one object name with user edits, deletions
  and recreations, event delivery, timers, lost patches (with or without effect on the server),
  refused deletes, opt-in changes and process restarts. The server is a log of versions, each with its
  author; the cache lags behind it by any amount; a patch may or may not hand back the object with a
  new uid; a read is of the cached version or of the latest one, filtered or not.
* **`Kube.Platform`** stands for what is outside the source: RFC 3339 formatting (which drops the
  fraction of a second) and parsing, error texts, and the result of an out-of-range float conversion
  (`wild`). `Kube.Lawful` states what is assumed about it, and `Kube.LawfulPlatform` gives an instance. Instants are integer nanoseconds, and
  durations are `int64` with wrap-around written out.

## Findings

* A reconcile whose clock reads exactly the end of the lease neither deletes nor asks for a wake-up:
  the requested delay is zero, and zero means none. The lease is forgotten (`LostLeases.TieForgets`).
  Apart from reconciles gated by the namespace filter this is the only way the queue path loses a
  lease (`Coverage.NoLeaseForgotten`).
* A lease already under way when its namespace is opted in is annotated but never watched, because the
  namespace listener throws the result away (`LostLeases.OptInForgets`). The exact condition under
  which the queue hears of such an object all the same is `NamespacePath.DirectPassRequeues`.
* An object already expired when its namespace is opted in gets one attempt at its delete. If that fails,
  the error is thrown away with the result and nothing tries again (`LostLeases.FailedDeleteForgets`).
* `status` and `expire-at` can contradict each other when the object has changed under a patch, since only
  differing keys are sent: an active lease, a mistyped ttl and its correction set the scene, and then two
  overlapping reconciles, a lagging cache or a recreation suffices (`StatusRace.OverlapRaces`,
  `StatusRace.StaleReadRaces`, `StatusRace.RecreationRaces`). `StatusRace.ActivePatchConsistentIff` says
  exactly when it happens.
* Two overlapping reconciles can both start a lease, so a single change by a user can be followed by two
  self-caused events (`Overlap.OverlapTriggersTwice`).
* `300y` is accepted and does not fit; where the conversion yields a negative number the object expires
  at once (`DurationLaws.OverlongYears`, `LeaseLaws.OverlongLeaseExpires`).
* README.md:169 documents a default `job-ttl` of 300; pkg/util/cleanup_job.go:25 and :64 use 60, and so
  does the model. The constant `DefaultJobTimeout` ("30s", pkg/util/cleanup_job.go:27) is not used by the
  parser, which takes five minutes (:63).

## Model

| member | source | states |
|---|---|---|
| Regex.StarOfClass | pkg/util/duration.go:19 | a greedy repetition of a character class matches exactly the prefixes of the longest run, longest first, under backtracking semantics |
| Regex.AfterRun | pkg/util/duration.go:19 | backtracking into a run of digits never helps a continuation that cannot start with a digit |
| Duration.NumberScan | pkg/util/duration.go:19 | the preferred match of the two-branch number expression is the one a linear scanner finds, and there is none exactly when the scanner finds none |
| Duration.GroupsAreMatch | pkg/util/duration.go:19 | the two groups together are the preferred match of the whole expression, and there is none exactly if no number starts |
| Duration.Advance | pkg/util/duration.go:34-91 | reading one more element either stops at its error or adds its value to the exact running total |
| Duration.ParseFlexibleDuration | pkg/util/duration.go:12-98 | the accumulating loop, wrapping after every addition and negating at the end, computes the exact sum of the tokens wrapped once, or the first element's error |
| DurationLaws.TokensAppend | pkg/util/duration.go:19-34 | tokenizing distributes over every concatenation whose border no element can cross |
| DurationLaws.TokensAcrossGap | pkg/util/duration.go:19-34 | any run of characters that are no digits, dots or unit letters separates elements and is otherwise ignored |
| DurationLaws.ParseAppend | pkg/util/duration.go:29-97 | parsing a concatenation succeeds exactly when both parts parse, and then yields the int64 sum |
| DurationLaws.ParseAcrossGap | pkg/util/duration.go:19-97 | inserting such a run between two strings does not change the result; minus signs after the first character are of this kind |
| DurationLaws.InnerSigns | pkg/util/duration.go:13-17 | a minus sign between two elements has no effect |
| DurationLaws.TokensOfRender | pkg/util/duration.go:19-34 | tokenizing undoes the rendering of any list of well-formed elements with any separators |
| DurationLaws.ParseOfRender | pkg/util/duration.go:29-91 | a rendered list parses to the sum over its elements, in any order and with any separators |
| DurationLaws.RunningTotalsFit | pkg/util/duration.go:33-91 | if the exact total fits int64, every running total fits and no out-of-range conversion takes part |
| DurationLaws.ParseExact | pkg/util/duration.go:33-97 | then the unchecked accumulation yields the exact sum, and the final negation is exact too |
| DurationLaws.ParseExactIff | pkg/util/duration.go:33-97 | the true sum comes out if and only if it fits int64; after a leading minus also for a sum of exactly 2^63 whose elements all fit, or whose one oversized element the platform converts to the least int64 |
| DurationLaws.OverlongYears | pkg/util/duration.go:78-90 | a concrete TTL that is accepted although it does not fit: the platform's conversion decides |
| DurationLaws.ParseIgnoresCase | pkg/util/duration.go:44-50 | letter case and the two micro signs never matter, in values and in errors |
| DurationLaws.ParseSameUnits | pkg/util/duration.go:50-82 | exchanging units of equal length, and separators, anywhere in a list does not change the result |
| DurationLaws.MonthsRespelled | pkg/util/duration.go:71-77 | spelling every month of a list as mo, mth or month does not change the result |
| DurationLaws.ParseNegated | pkg/util/duration.go:13-17 | a leading minus negates the result of the rest and succeeds exactly when the rest does; only the least int64 stays itself |
| DurationTable.ShortUnits | pkg/util/duration.go:52-61 | any whole numeral with ns, us, ms, s, m or h: so many nanoseconds, written out per unit, or an out-of-range error beyond int64 |
| DurationTable.LongUnits | pkg/util/duration.go:63-90 | any whole numeral with d, w, mo, mth, month or y: so many nanoseconds, written out per unit, where that fits |
| DurationTable.LongOverflow | pkg/util/duration.go:84-90 | beyond int64 a longer unit yields the platform's conversion, and an error only for numerals from 2^1024 - 2^970 on |
| DurationTable.FractionWorth | pkg/util/duration.go:52-90 | digits, a point and digits are worth all digits as one number times the unit, divided by ten for each digit behind the point, cut to whole nanoseconds |
| DurationTable.UnitKnown | pkg/util/duration.go:44-82 | a unit is known if and only if it spells one of the twelve names, up to capitals and micro signs |
| DurationTable.NumberAndUnitNeeded | pkg/util/duration.go:29-42 | text without a digit is no duration, and a numeral without a unit is a missing unit |
| DurationTable.UnknownUnits | pkg/util/duration.go:80-82 | a numeral with letters that name no unit is an unknown unit |
| DurationTable.SpelledAlike | pkg/util/duration.go:44-50 | texts that differ only in the case of letters and in which of u and the two micro signs they use have the same value or the same kind of error |
| Kube.MergeExact | pkg/controllers/lease_controller.go:187-189 | on the map it was computed from, the merge patch produces the wanted annotations |
| Kube.MergeOnAny | pkg/controllers/lease_controller.go:351-362 | on any other server map, the patch from a stale or filtered base carries and settles exactly the keys that differ from the base and keeps every other key |
| ObjectFilter.StripAnnotations | pkg/util/object_filter.go:46-54 | the filtering loop keeps exactly the kept keys, each with its value |
| ObjectFilter.StripU | pkg/util/object_filter.go:35-57 | a stripped object has the uid of the original and exactly its kept annotations |
| ObjectFilter.StripItems | pkg/util/object_filter.go:23-28 | a list is stripped element by element, in place |
| ObjectFilter.CacheShows | cmd/main.go:314-318 | with the manager's keep list the cache shows the lease and job annotations without the secrets, and no annotation of anyone else |
| ObjectFilter.KeptReadsSame | pkg/util/object_filter.go:44-55 | reading a kept key cannot tell the stripped object from the full one |
| CleanupJob.SplitAndTrim | pkg/util/cleanup_job.go:75-81 | the secret list is split at commas and every part trimmed in place |
| CleanupJob.ParseCleanupJobConfig | pkg/util/cleanup_job.go:44-125 | every field is its own annotation's setting or its default (default, bitnami/kubectl:latest, false, five minutes, 60, 3); nothing without a reference; each error exactly for its own annotation, the first in the source's order |
| CleanupJob.ScriptReference | pkg/util/cleanup_job.go:52-59 | the reference is read as (name, key) if and only if it is name/key with no slash in the name |
| CleanupJob.Int32Means | pkg/util/cleanup_job.go:108-118 | a number is an optional sign before a nonempty decimal numeral within 32 bits, and nothing else |
| CleanupJobLaws.SplitJoin | pkg/util/cleanup_job.go:76 | splitting undoes joining for parts without the separator |
| CleanupJobLaws.TrimPadded | pkg/util/cleanup_job.go:78-80 | trimming removes exactly the white space around a name |
| CleanupJobLaws.SpaceMeans | pkg/util/cleanup_job.go:79 | what counts as white space, character by character |
| CleanupJobLaws.VisibleNames | pkg/util/cleanup_job.go:78-80 | a name of visible characters between blanks and line breaks comes out alone |
| CleanupJobLaws.BuildEnvFrom | pkg/util/cleanup_job.go:263-281 | one environment source for each non-empty secret name, as often as it is listed and in order |
| CleanupJobLaws.SecretsRoundTrip | pkg/util/cleanup_job.go:75-81 | splitting, trimming and dropping empties recovers exactly the non-empty names a user wrote, in order |
| CleanupJobLaws.ConfigOnStripped | pkg/util/object_filter.go:46-54 | on a stripped object the configuration and its errors agree in every field but the secrets, and in all fields once their key is kept |
| CleanupJobLaws.Judge | pkg/util/cleanup_job.go:240-252 | a poll is a success if and only if it lists Complete=True with no Failed=True before it, a failure if and only if it fails or the other way round, and undecided if it lists neither |
| CleanupJobLaws.SettlesOnce | pkg/util/cleanup_job.go:245-252 | no poll settles two ways |
| CleanupJobLaws.WaitForJobCompletion | pkg/util/cleanup_job.go:227-255 | the wait ends for every stream of polls; success only if the last poll lists Complete=True with no Failed=True before it, failure the other way round, all earlier polls listing neither; a timeout only after the deadline or the cancellation of the surrounding context |
| LeaseController.LeaseWatcher.LeaseRelevantAnns | pkg/controllers/lease_controller.go:60-70 | the loop extracts exactly ttl and lease-start |
| LeaseController.LeaseWatcher.CreateFunc | pkg/controllers/lease_controller.go:74-82 | a creation starts a reconcile exactly if ttl is present |
| LeaseController.LeaseWatcher.UpdateFunc | pkg/controllers/lease_controller.go:83-92 | an update starts a reconcile exactly if ttl or lease-start changed |
| LeaseController.LeaseWatcher.IsNamespaceTracked | pkg/controllers/lease_controller.go:149-156 | the linear scan is a membership test |
| LeaseController.LeaseWatcher.UpdateAnnotations | pkg/controllers/lease_controller.go:351-362 | sends exactly the difference between the copy before and after the new annotations; a landed patch may replace the copy, uid included |
| LeaseController.LeaseWatcher.CleanupLeaseAnnotations | pkg/controllers/lease_controller.go:175-193 | removes the three output annotations with one patch, or sends nothing if none is there |
| LeaseController.LeaseWatcher.EnsureLeaseStart | pkg/controllers/lease_controller.go:195-219 | a readable start is used and nothing is sent; otherwise now is written at whole seconds, returned at full precision, and a missing start counts as a new lease |
| LeaseController.LeaseWatcher.MarkInvalidTTL | pkg/controllers/lease_controller.go:221-230 | one status patch, one count, nothing else |
| LeaseController.LeaseWatcher.SetActive | pkg/controllers/lease_controller.go:342-349 | one patch of expire-at and status, and a wake-up at the end of the lease |
| LeaseController.LeaseWatcher.ExecuteCleanupJob | pkg/controllers/lease_controller.go:288-340 | creates the job, waits only if asked to, and counts creation and completion exactly when they happen |
| LeaseController.LeaseWatcher.HandleExpired | pkg/controllers/lease_controller.go:233-285 | announces, runs a configured cleanup job, then deletes with the copy's uid whatever became of the job |
| LeaseController.LeaseWatcher.FinishExpired | pkg/controllers/lease_controller.go:247-284 | the stage after the announcement; an absent object is no error, a refused delete is |
| LeaseController.LeaseWatcher.Reconcile | pkg/controllers/lease_controller.go:98-145 | for all answers the cluster may give, a reconcile sends exactly the dialogue's requests in order, counts what it counts and returns what it returns; an untracked namespace is asked nothing; an object whose ttl is absent or empty is read and at most cleaned |
| LeaseController.CreatingPlay | pkg/controllers/lease_controller.go:267-284 | with a configuration the requests are create, await if asked to and created, then delete, in every case |
| ReconcileInFull.NothingRead | pkg/controllers/lease_controller.go:117-122 | a failed read ends the pass: quietly if the object is not there, with an error otherwise |
| ReconcileInFull.LeaseOpens | pkg/controllers/lease_controller.go:130-131 | with a ttl that is not empty the clock is read and the start settled: the readable one, or the clock reading, written first; the copy is what that patch left |
| ReconcileInFull.DecidedInvalid | pkg/controllers/lease_controller.go:133-137 | an invalid ttl: one patch with the text of the error, one count, nothing else |
| ReconcileInFull.DecidedActive | pkg/controllers/lease_controller.go:342-349 | up to and including start plus ttl: one patch with expire-at and the active text, and a wake-up at the end, or after the longest delay |
| ReconcileInFull.DecidedExpired | pkg/controllers/lease_controller.go:233-285 | strictly after start plus ttl: the announcement, the configured job with its wait, the delete under the uid of the copy, the result and every count |
| LeaseLaws.TTLDecides | pkg/controllers/lease_controller.go:124-130 | a pass goes on to the clock if and only if the ttl is there and not empty, and otherwise cleans if and only if one of the three outputs is there |
| LeaseLaws.SettledRound | pkg/controllers/lease_controller.go:130-144 | when every patch lands: an object with a readable start is announced as expired if and only if now is strictly after start plus ttl; until then only expire-at and status are written |
| LeaseLaws.FirstRound | pkg/controllers/lease_controller.go:195-219 | when every patch lands: without a readable start the lease begins now, expires at once only under a negative ttl, and the start it leaves reads back as the whole second |
| LeaseLaws.CleanupRound | pkg/controllers/lease_controller.go:175-193 | when the patch lands: with the ttl absent or empty the three outputs go and every other annotation stays |
| LeaseLaws.InvalidRound | pkg/controllers/lease_controller.go:131-137 | when every patch lands: an invalid ttl is reported after the start has been settled, and nothing expires |
| LeaseLaws.RoundsStill | pkg/controllers/lease_controller.go:342-349 | once settled, any number of further passes before the end changes no annotation |
| LeaseLaws.ExpiryDrift | pkg/controllers/lease_controller.go:210-218 | undisturbed passes: the first expire-at exceeds every later one by 0 or 1 second, by 0 for a ttl of whole seconds, and from the second pass on nothing changes |
| LeaseLaws.RemovingStartRenews | README.md:103-105 | an undisturbed pass: removing or spoiling lease-start never deletes in the next pass; the new end is neither in the past nor before the old one |
| LeaseLaws.OverlongLeaseExpires | pkg/controllers/lease_controller.go:133-142 | a lease of 300 years expires in its first pass where the conversion is negative |
| LeaseLaws.FilteredDecision | pkg/util/object_filter.go:35-57 | a pass decides the same on the stripped object as on the full one: branch, start and end, whatever becomes of its start patch |
| LeaseLaws.FilteredTriggers | cmd/main.go:314-318 | with the manager's keep list, events start a reconcile for stripped objects exactly as for full ones |
| LeaseRuns.DecisionInRuns | pkg/controllers/lease_controller.go:130-144 | over every interleaving: a reconcile that has decided reports the ttl if and only if the ttl it went by does not parse, and expires if and only if its clock reading is strictly after start plus ttl |
| LeaseRuns.DriftInRuns | pkg/controllers/lease_controller.go:195-219 | over every interleaving, if only the start patch lands: all reconciles that read the lease as it then stands arrive at one end, from which that of the first differs by 0 or 1 second in the text, by 0 for a ttl of whole seconds |
| LeaseRuns.RenewalInRuns | README.md:103-105 | over every interleaving: a reconcile that reads no readable start and a ttl that is not negative does not expire, and its end is not before its clock reading nor before that of any earlier start under the same ttl |
| StillRuns.StillInRuns | pkg/controllers/lease_controller.go:342-349 | over every interleaving: a reconcile that has read an active lease with its annotations in place sends an empty patch, which makes no version |
| WorldInvariant.StartLands | pkg/controllers/lease_controller.go:209-211 | a written lease-start is readable and is taken by the server whatever the server held |
| WorldInvariant.LandingShape | pkg/controllers/lease_controller.go:361 | a landed patch merges its difference into whatever the server holds and makes a new version only if that changes something |
| WorldRuns.StepKeeps | pkg/controllers/lease_controller.go:98-145 | every step of every run keeps the invariant: one uid per uninterrupted life, controller versions change only its own annotations, every pass is where its readings say |
| WorldRuns.ReachableKeeps | pkg/controllers/lease_controller.go:98-145 | the invariant holds in every reachable state |
| WorldRuns.AnyAnswer | pkg/controllers/lease_controller.go:98-145 | whatever a reconcile waits for, every answer remains possible: failed reads, lost and landing patches, lost and refused deletes |
| WorldRuns.AnyTime | pkg/controllers/lease_controller.go:364-386 | users, time, the informer, timers, the namespace filter and restarts may act at any moment |
| WorldRuns.UserWriteMeans | pkg/controllers/lease_controller.go:98-145 | a user's write leaves exactly the annotations written, under the same uid or, after an absence, one no earlier incarnation had |
| WorldMeans.FetchMeans | pkg/controllers/lease_controller.go:158-168 | a read yields the version as it is, or as the cache shows it, and a missing object is not found |
| WorldMeans.LandMeans | pkg/controllers/lease_controller.go:361 | a patch that lands merges its difference into whatever the server holds by then, and an answer that arrives hands back that object with its uid |
| WorldMeans.DeleteMeans | pkg/util/delete.go:10-16 | a delete removes the object exactly if the uid still matches; absent and mismatched are told apart |
| WorldMeans.QueueMeans | pkg/controllers/lease_controller.go:364-386 | events that pass the filter and timers queue the object; the queue starts what it holds and then holds it no more |
| WorldMeans.EndingMeans | pkg/controllers/lease_controller.go:348 | an error queues the object again and a positive delay sets the wake-up, an earlier one having precedence; a reconcile of the namespace listener leaves nothing |
| WorldMeans.RestartMeans | pkg/controllers/lease_controller.go:74-82 | a restart forgets timers and queue, and lists the latest version, which queues the object exactly if it carries a ttl |
| Safety.RequestsOfFlights | pkg/controllers/lease_controller.go:98-145 | every request concerns the reconcile's own name, every delete is bound to the copy's uid, and no clock reading lies in the future |
| Safety.DeletionSafety | pkg/controllers/lease_controller.go:98-145 | over every interleaving: a delete achieved by the controller was due strictly after lease start plus a ttl that parsed; it removes the incarnation of the last refresh, the one read if there was no recreation in between, and never one created later; without a readable start it needs a negative ttl |
| Safety.DeleteRemoves | pkg/util/delete.go:10-16 | over every interleaving: the delete of an expired pass that arrives takes the object away if and only if the incarnation last seen is still there; the pass ends without error exactly if nothing is left |
| Safety.OutputsOnly | pkg/controllers/lease_controller.go:175-193 | over every interleaving: a write of the controller keeps the uid, the ttl and every foreign annotation |
| Safety.TTLSurvives | pkg/controllers/lease_controller.go:351-362 | the same for any stretch of controller writes |
| Coverage.ReachableCovers | pkg/controllers/lease_controller.go:72-96 | in every reachable state the queue still has to look at the object, or its latest reconcile has seen the lease as delivered |
| Coverage.NoLeaseForgotten | pkg/controllers/lease_controller.go:130-144 | in every reachable state with nothing queued, running from the queue or undelivered, an object with a valid ttl has a wake-up no later than its end plus the time the last reconcile took (or the longest delay), unless that reconcile was gated by the namespace filter or read exactly the end of the lease |
| WakeUps.WakeIsDue | pkg/controllers/lease_controller.go:348 | in every reachable state a pending wake-up was asked for by a queue reconcile that found the lease active, and is not before the end it computed (or is the longest delay) |
| LostLeases.TieForgets | pkg/controllers/lease_controller.go:348 | a reachable state in which the tie has left a valid lease without any wake-up |
| LostLeases.OptInForgets | pkg/controllers/lease_controller.go:410-415 | a reachable state in which opting in has left a running lease without any wake-up |
| LostLeases.FailedDeleteForgets | pkg/controllers/lease_controller.go:281-283 | a reachable state in which the reconcile of the namespace listener announced an expired object, its delete failed, and nothing is left that would try again |
| SerialRuns.SelfTriggersBounded | pkg/controllers/lease_controller.go:72-96 | in every run from the start with users editing, deleting and recreating at any moment and patches failing: reconciles self-caused so far, own events still to come and the one an unsettled object calls for are together no more than the users' writes, as long as reconciles do not overlap and none reads a version older than the controller's last write |
| SerialRuns.UsersPay | pkg/controllers/lease_controller.go:72-96 | the same from any reachable state without a reconcile in flight, over the users' writes since |
| SerialRuns.LandingPays | pkg/controllers/lease_controller.go:361 | a patch that lands on a server users have changed since the read keeps the account: the event it causes and what it leaves to settle are covered by the version it was computed from and the users' writes since |
| SelfTrigger.NeutralPatch | pkg/controllers/lease_controller.go:342-347 | patches of status and expire-at cause no event |
| SelfTrigger.TriggersMeans | pkg/controllers/lease_controller.go:72-96 | a reconcile is started by a creation with ttl, by an update that changes ttl or lease-start, and by nothing else |
| SelfTrigger.SelfTriggersSettle | pkg/controllers/lease_controller.go:72-96 | quiet periods: while users stay away, and whatever patches fail, no more reconciles are self-caused than own events are still to be delivered, plus one if a ttl lacks a readable start or a start lacks a ttl |
| SelfTrigger.SettledIsFixed | pkg/controllers/lease_controller.go:60-70 | once nothing of its own is to come, ttl and lease-start are a fixed point of any number of reconciles until a user writes, and no further reconcile is self-caused |
| OneTrigger.EachTriggersOnce | pkg/controllers/lease_controller.go:72-96 | in every run, overlapping or not, one reconcile causes at most one event that starts another reconcile, and none before its start or cleanup patch |
| Overlap.OverlapTriggersTwice | pkg/controllers/lease_controller.go:410-415 | a reachable state in which one change by a user is followed by two self-caused events, from two overlapping reconciles |
| NamespacePath.DirectPassRequeues | pkg/controllers/lease_controller.go:389-422 | a reconcile from the namespace listener, whatever its end, leaves no timer, and the queue hears of the object only if it had a ttl without readable start or a start without ttl; if the read and the patches succeed, if and only if |
| StatusText.ActiveText | pkg/controllers/lease_controller.go:343 | the active text determines its timestamp |
| StatusText.OtherTexts | pkg/controllers/lease_controller.go:222-239 | no other status text can be read as the active one |
| StatusText.StatusMatchesExpiry | pkg/controllers/lease_controller.go:342-362 | after every orderly run, an active status names exactly the expire-at, although patches carry only differing keys and may get lost |
| StatusRace.PatchConsistentIff | pkg/controllers/lease_controller.go:351-362 | any patch, any stale base: status and expire-at agree afterwards if and only if, where just one of the two is sent, it agrees with the other one on the server |
| StatusRace.ActivePatchConsistentIff | pkg/controllers/lease_controller.go:342-347 | the patch of an active lease leaves them in agreement unless, and only unless, its base had this expire-at under another status while the server has another expire-at |
| StatusRace.OverlapRaces | pkg/controllers/lease_controller.go:352-361 | a reachable state in which status and expire-at contradict each other although users only ever edited the ttl and every reconcile read the latest version: two reconciles overlapped |
| StatusRace.StaleReadRaces | pkg/controllers/lease_controller.go:352-361 | the same without overlap: the last reconcile was served a lagging cache |
| StatusRace.RecreationRaces | pkg/controllers/lease_controller.go:352-361 | the same without overlap and with fresh reads: the object was recreated while the reconcile was under way |
| Accounting.CountersAddUp | pkg/controllers/lease_controller.go:233-340 | in every reachable state: expired passes equal deletes attempted, in hand or cut off by a crash, and equal passes without, with bad and with executed configuration; executions equal failed, completed, unattended and unfinished ones; no more jobs than deletes |
| Accounting.CompletedBeforeDelete | pkg/controllers/lease_controller.go:325-333 | in every step of every run: a completion is counted on the way from waiting to deleting, with no delete of that pass attempted before or by that step, and never after one |
| TrackerLog.ChangesAlternate | pkg/util/tracker.go:37-54 | the first change of a namespace is Added exactly if it was not in, and two changes of it with none between are opposite |
| TrackerLog.ThinnedPicks | pkg/util/tracker.go:82-90 | a stream with drops is a choice of increasing positions in the log |
| Tracker.Channel.TrySend | pkg/util/tracker.go:84-87 | a non-blocking send is lost if and only if the buffer is full |
| Tracker.Channel.Receive | pkg/controllers/lease_controller.go:390 | receiving takes the oldest buffered event |
| Tracker.NamespaceTracker.AddNamespace | pkg/util/tracker.go:37-44 | adds the namespace and emits one event exactly if it was absent; a listener loses it only if its buffer was full, and what it has taken out stays |
| Tracker.NamespaceTracker.RemoveNamespace | pkg/util/tracker.go:47-54 | removes the namespace and emits one event exactly if it was present; a listener loses it only if its buffer was full, and what it has taken out stays |
| Tracker.NamespaceTracker.ListNamespaces | pkg/util/tracker.go:57-65 | lists every tracked namespace exactly once |
| Tracker.NamespaceTracker.RegisterListener | pkg/util/tracker.go:76-80 | a listener joins at the end of the list and at the present end of the log |
| Tracker.NamespaceTracker.NotifyListeners | pkg/util/tracker.go:82-90 | every listener is offered the event once, and loses it only if its own buffer was full |
| Tracker.Replay | pkg/util/tracker.go:37-90 | a listener that lost nothing rebuilds the tracked set from what it received and what still waits |
| Tracker.ReplayAlternates | pkg/util/tracker.go:37-90 | what such a listener sees of a namespace strictly alternates, beginning with Added exactly if it was not tracked when the listener joined |
| Tracker.LossyStream | pkg/util/tracker.go:82-90 | with drops a listener's stream is a subsequence of the log within the channel's capacity, and the number lost is the difference in length |
| NamespaceController.NamespaceReconciler.Reconcile | pkg/controllers/namespace_controller.go:38-62 | tracks exactly if the label has the wanted value (a missing label counting as empty), untracks otherwise and when the namespace is gone, leaves the set alone on a read error and all other namespaces always; listeners lose an event only if their buffer was full |
| NamespaceController.TrackedIsLatest | pkg/controllers/namespace_controller.go:38-62 | after any sequence of reconciles a namespace is tracked if and only if the last one that could read it found the label with the wanted value |
| NamespaceController.UnlabelledNeverTracked | cmd/main.go:356-359 | with the non-empty value the manager insists on, a namespace without the label is never tracked |
| NamespaceController.GatesAgree | pkg/util/tracker.go:57-73 | scanning the listed namespaces and asking the tracker give the same answer |
| NamespaceController.GatedReconcile | pkg/controllers/lease_controller.go:111-115 | the scan over the listed namespaces gates exactly like the tracker, and a gated reconcile issues no read, patch or delete |
| NamespaceEvents.LeaseListener.HandleNamespaceEvents | pkg/controllers/lease_controller.go:389-422 | the receiving loop handles every buffered event once, in order |
| NamespaceEvents.StartedMeans | pkg/controllers/lease_controller.go:391-418 | a reconcile is started if and only if some opt-in event's listing showed the object with a ttl |
| NamespaceEvents.OptedInIsSwept | pkg/controllers/lease_controller.go:374 | if nothing was dropped, every namespace tracked since the listener joined has been listed and its leased objects have got their reconcile |
| NamespaceEvents.OptIn | pkg/controllers/lease_controller.go:389-422 | opting in end to end: while the listener's channel has room, every leased object its listing of the namespace shows gets a reconcile, and tracker and listener stay in order for the next one |

## Left out

- API server, informer, client library and leader election internals: only get, merge patch, delete with uid precondition, events in version order without gaps, and delayed wake-ups. After a restart the latest version is listed. Merged events, and a deletion and recreation seen as one update, are not modelled.
- Names other than one: `World` follows one object name, since no request mentions another one. Any number of objects is any number of such worlds.
- Requests that take effect late: a patch or delete whose answer is lost either has taken effect by then or never does, and one that is pending when the process dies never does.
- The delay of rate-limited retries: a failed reconcile is queued at once.
- Finalizers and deletion timestamps: a delete removes the object. Labels and specs of objects are not modelled, since no branch reads them.
- The text of timestamps: `Kube.Lawful` assumes that formatting depends on the whole second only, that formatted instants of the years 0 to 9999 parse back, and that the empty text does not parse.
- Annotation names as configurable strings: they are distinct constructors of `Kube.Key`, which assumes that the configured names differ.
- The reading of annotations by copy: `GetAnnotations` of an unstructured object returns a fresh map, so editing it before the patch base is taken does not alter the base.
- The wording of parse errors, which goes through `Kube.Platform` as a function of the text and the kind of error; for the units up to the hour the kinds stand for those of Go's own duration parser.
- Cleanup job specification, labels, volumes and environment (pkg/util/cleanup_job.go:128-224), including the re-read of lease-start for it (pkg/controllers/lease_controller.go:292-298): plain copying.
- Flags, health checks, metric registration, duration histograms, event recorder and logs.
- Console plugin, Helm charts, operator and examples: deployment and user interface.
- ParseFlexibleDuration: the float64 rounding of fractional and very large numerals is not modelled; products are exact rationals truncated to nanoseconds, and only conversions beyond int64 are left to the platform.
- NoLeaseForgotten: bounds the wake-up from above, allowing for the time between reading the clock and the end of the pass. It may be earlier than the end of the lease, since the delayed queue keeps an earlier request if there is one; WakeIsDue says that such a request was due by the lease as it then was.
- SelfTriggersBounded: needs reconciles that do not overlap and that read no version older than the controller's last write. OverlapTriggersTwice shows that the bound fails otherwise; EachTriggersOnce is what remains in every run.
- SelfTriggersSettle: a quiet period without user writes, in which each reconcile reads the latest version; runs with users are the subject of SelfTriggersBounded.
- SettledIsFixed: holds for quiet periods of the same kind; a user's write, and a read older than one, may of course change ttl or lease-start again.
- DirectPassRequeues: the reconcile reads the latest version and is undisturbed by users and other reconciles.
- StatusMatchesExpiry: holds for orderly runs, in which reconciles do not overlap (OverlapRaces), each reads a version no older than the controller's last write (StaleReadRaces), none is under way when a user creates the object (RecreationRaces), and users leave status and expire-at alone. It fails without any one of the first three; PatchConsistentIff says what exactly each patch needs.
- ExpiryDrift: every patch lands and refreshes the copy; DriftInRuns asks only for the start patch, and StillInRuns for none.
- RemovingStartRenews: the same; RenewalInRuns asks for nothing.
- WaitForJobCompletion: the random choice between an ended context and a pending tick is bounded by the parameter `late`.
- RegisterListener: expects a channel that is not registered yet and has never been used, as its only caller provides.
- HandleNamespaceEvents: the source's loop waits for more events and starts each reconcile in a goroutine; the model returns when the channel is empty and records which reconciles are started. How they interleave is the subject of `World`.
- GatedReconcile: reads the tracker once, at the start of the reconcile, as the source does.

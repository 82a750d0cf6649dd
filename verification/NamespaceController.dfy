// The namespace reconciler drives the tracker from namespace labels.
module NamespaceController {
  import opened Wrappers
  import opened Tracker
  import opened LeaseController
  import opened LeasePass
  import Duration

  // What reading a namespace yields.
  datatype Reading = Labels(labels: map<string, string>) | NoNamespace | ReadError

  function Label(labels: map<string, string>, key: string): string {
    if key in labels then labels[key] else ""
  }

  predicate Labelled(key: string, value: string, r: Reading) {
    r.Labels? && Label(r.labels, key) == value
  }

  // A namespace and what its reconcile read.
  datatype Visit = Visit(namespace: string, reading: Reading)

  function Visited(s: set<string>, key: string, value: string, v: Visit): set<string> {
    if v.reading.ReadError? then s
    else if Labelled(key, value, v.reading) then s + {v.namespace}
    else s - {v.namespace}
  }

  function VisitedAll(s: set<string>, key: string, value: string, vs: seq<Visit>): set<string> {
    if vs == [] then s
    else Visited(VisitedAll(s, key, value, vs[..|vs| - 1]), key, value, vs[|vs| - 1])
  }

  // The last visit to ns that managed to read it.
  predicate IsLatest(vs: seq<Visit>, ns: string, k: int) {
    && 0 <= k < |vs| && vs[k].namespace == ns && !vs[k].reading.ReadError?
    && forall j | k < j < |vs| :: vs[j].namespace != ns || vs[j].reading.ReadError?
  }

  lemma {:induction false} TrackedByLatest(key: string, value: string, vs: seq<Visit>, ns: string)
    ensures ns in VisitedAll({}, key, value, vs) <==>
              exists k :: IsLatest(vs, ns, k) && Labelled(key, value, vs[k].reading)
  {
    if vs != [] {
      var n := |vs| - 1;
      var front, v := vs[..n], vs[n];
      TrackedByLatest(key, value, front, ns);
      if v.namespace == ns && !v.reading.ReadError? {
        assert IsLatest(vs, ns, n);
      } else {
        forall k | IsLatest(front, ns, k) ensures IsLatest(vs, ns, k) && vs[k] == front[k] {
        }
        forall k | IsLatest(vs, ns, k) ensures IsLatest(front, ns, k) && vs[k] == front[k] {
        }
      }
    }
  }

  // After any run a namespace is tracked exactly if the last visit to it that could read it found the
  // label with the wanted value; a missing label counts as the empty value, a missing namespace never.
  lemma TrackedIsLatest(key: string, value: string, vs: seq<Visit>, ns: string)
    ensures ns in VisitedAll({}, key, value, vs) <==>
              exists k :: 0 <= k < |vs| && vs[k].namespace == ns && vs[k].reading.Labels?
                && (var ls := vs[k].reading.labels;
                    (key in ls && ls[key] == value) || (key !in ls && value == ""))
                && forall j | k < j < |vs| :: vs[j].namespace != ns || vs[j].reading == ReadError
  {
    TrackedByLatest(key, value, vs, ns);
    if ns in VisitedAll({}, key, value, vs) {
      var k :| IsLatest(vs, ns, k) && Labelled(key, value, vs[k].reading);
      assert vs[k].namespace == ns;
    }
    forall k | 0 <= k < |vs| && vs[k].namespace == ns && vs[k].reading.Labels?
               && (forall j | k < j < |vs| :: vs[j].namespace != ns || vs[j].reading == ReadError)
      ensures IsLatest(vs, ns, k)
    {
    }
  }

  // A namespace without the label never counts, the value being non-empty.
  lemma UnlabelledNeverTracked(key: string, value: string, vs: seq<Visit>, ns: string)
    requires value != ""
    requires forall k | IsLatest(vs, ns, k) :: vs[k].reading.Labels? ==> key !in vs[k].reading.labels
    ensures ns !in VisitedAll({}, key, value, vs)
  {
    TrackedByLatest(key, value, vs, ns);
  }

  lemma VisitedSnoc(s: set<string>, key: string, value: string, vs: seq<Visit>, v: Visit)
    ensures VisitedAll(s, key, value, vs + [v]) == Visited(VisitedAll(s, key, value, vs), key, value, v)
  {
    assert (vs + [v])[..|vs|] == vs;
  }

  class NamespaceReconciler {
    const labelKey: string
    const labelValue: string
    const tracker: NamespaceTracker
    ghost var visits: seq<Visit>

    ghost predicate Valid()
      reads this, tracker, tracker.listeners
    {
      tracker.Valid() && tracker.namespaces == VisitedAll({}, labelKey, labelValue, visits)
    }

    constructor (key: string, value: string, tracker: NamespaceTracker)
      requires tracker.Valid() && tracker.namespaces == {}
      ensures Valid() && labelKey == key && labelValue == value && this.tracker == tracker
      ensures visits == []
    {
      labelKey, labelValue, this.tracker := key, value, tracker;
      visits := [];
    }

    // Returns whether the request fails and will be retried.
    method Reconcile(name: string, got: Reading) returns (failed: bool)
      requires Valid()
      modifies this`visits, tracker, tracker.listeners
      ensures Valid() && visits == old(visits) + [Visit(name, got)]
      ensures failed <==> got.ReadError?
      ensures tracker.namespaces == Visited(old(tracker.namespaces), labelKey, labelValue, Visit(name, got))
      ensures match got
              case Labels(ls) =>
                name in tracker.namespaces <==>
                  (labelKey in ls && ls[labelKey] == labelValue) || (labelKey !in ls && labelValue == "")
              case NoNamespace => name !in tracker.namespaces
              case ReadError => tracker.namespaces == old(tracker.namespaces)
      ensures tracker.namespaces - {name} == old(tracker.namespaces) - {name}
      ensures tracker.listeners == old(tracker.listeners) && tracker.joined == old(tracker.joined)
      ensures forall k: nat | k < |tracker.listeners| :: tracker.listeners[k].Offered()
    {
      hide VisitedAll;
      VisitedSnoc({}, labelKey, labelValue, visits, Visit(name, got));
      visits := visits + [Visit(name, got)];
      match got {
        case NoNamespace =>
          tracker.RemoveNamespace(name);
          return false;
        case ReadError =>
          return true;
        case Labels(labels) =>
          if Label(labels, labelKey) == labelValue {
            tracker.AddNamespace(name);
          } else {
            tracker.RemoveNamespace(name);
          }
          return false;
      }
    }
  }

  // Scanning the listed namespaces and asking the tracker come to the same.
  method GatesAgree(tracker: NamespaceTracker, watcher: LeaseWatcher, namespace: string)
    returns (scanned: bool, asked: bool)
    ensures scanned == asked
  {
    var listed := tracker.ListNamespaces();
    scanned := watcher.IsNamespaceTracked(namespace, listed);
    asked := tracker.TrackingNamespace(namespace);
  }

  // The lease reconciler's gate: a linear scan over the listed namespaces is a membership test,
  // and a request from outside asks the cluster for nothing.
  method GatedReconcile(tracker: NamespaceTracker, watcher: LeaseWatcher, namespace: string, name: string)
    returns (r: Outcome)
    requires Duration.IsInt64(watcher.env.wild)
    modifies watcher, watcher.cluster
    ensures namespace !in tracker.namespaces ==>
              watcher.cluster.asked == old(watcher.cluster.asked) && watcher.metrics == old(watcher.metrics)
              && r == Done
    ensures var p := Begin(name, namespace in tracker.namespaces);
            var (end, requests) := Play(watcher.env, p, watcher.cluster.script);
            watcher.cluster.asked == old(watcher.cluster.asked) + requests && r == ResultOf(end.ending)
  {
    var listed := tracker.ListNamespaces();
    watcher.tracker := Some(listed);
    r := watcher.Reconcile(namespace, name);
  }
}

// The cache transform: objects are stored without the annotations nobody asked to keep.
module ObjectFilter {
  import opened Kube

  // The keep list the manager is built with. JobEnvSecrets is not on it.
  const KEEP: set<Key> := {
    TTL, LeaseStart, ExpireAt, Status, OnDeleteJob, JobServiceAccount, JobImage, JobWait,
    JobTimeout, JobTTL, JobBackoffLimit }

  function Kept(anns: Anns, keep: set<Key>): Anns {
    map k | k in anns && k in keep :: anns[k]
  }

  // The loop that fills the filtered map.
  method StripAnnotations(anns: Anns, keep: set<Key>) returns (filtered: Anns)
    ensures filtered == Kept(anns, keep)
    ensures forall k :: k in filtered <==> k in anns && k in keep
    ensures forall k | k in filtered :: filtered[k] == anns[k]
  {
    filtered := map[];
    var left := anns.Keys;
    while left != {}
      invariant left <= anns.Keys
      invariant filtered == map k | k in anns && k in keep && k !in left :: anns[k]
    {
      var k :| k in left;
      if k in keep {
        filtered := filtered[k := anns[k]];
      }
      left := left - {k};
    }
  }

  function Stripped(o: Obj, keep: set<Key>): Obj { o.(anns := Kept(o.anns, keep)) }

  // The object is rebuilt from what is kept of it.
  method StripU(o: Obj, keep: set<Key>) returns (out: Obj)
    ensures out == Stripped(o, keep)
    ensures out.uid == o.uid && forall k :: k in out.anns <==> k in o.anns && k in keep
    ensures forall k | k in out.anns :: out.anns[k] == o.anns[k]
  {
    out := Obj(o.uid, map[]);
    if |o.anns| > 0 {
      var filtered := StripAnnotations(o.anns, keep);
      out := out.(anns := filtered);
    } else {
      assert o.anns == map[];
    }
  }

  // A list is stripped in place.
  method StripItems(items: array<Obj>, keep: set<Key>)
    modifies items
    ensures forall i | 0 <= i < items.Length :: items[i] == Stripped(old(items[i]), keep)
  {
    for i := 0 to items.Length
      invariant forall k | 0 <= k < i :: items[k] == Stripped(old(items[k]), keep)
      invariant forall k | i <= k < items.Length :: items[k] == old(items[k])
    {
      var u := StripU(items[i], keep);
      items[i] := u;
    }
  }

  // With the manager's list the cache shows the lease and job annotations and nothing else: neither the
  // secrets nor any annotation of someone else's.
  lemma CacheShows(o: Obj, k: Key)
    ensures k in Stripped(o, KEEP).anns <==> k in o.anns && !k.JobEnvSecrets? && !k.Foreign?
    ensures k in Stripped(o, KEEP).anns ==> Stripped(o, KEEP).anns[k] == o.anns[k]
    ensures Stripped(o, KEEP).uid == o.uid
  {
  }

  // Reading a kept key cannot tell the difference.
  lemma KeptReadsSame(anns: Anns, keep: set<Key>, k: Key)
    requires k in keep
    ensures SameAt(Kept(anns, keep), anns, k) && Get(Kept(anns, keep), k) == Get(anns, k)
  {
  }
}

// Namespace change events as values: what a log of them means.
module TrackerLog {

  datatype Change = Added | Removed

  datatype Event = Event(namespace: string, change: Change)

  function Apply(s: set<string>, e: Event): set<string> {
    if e.change == Added then s + {e.namespace} else s - {e.namespace}
  }

  function Fold(s: set<string>, es: seq<Event>): set<string>
    decreases |es|
  {
    if es == [] then s else Fold(Apply(s, es[0]), es[1..])
  }

  // Every event really changes the set it meets.
  predicate Proper(s: set<string>, es: seq<Event>)
    decreases |es|
  {
    es == [] ||
    ((es[0].change == Added <==> es[0].namespace !in s) && Proper(Apply(s, es[0]), es[1..]))
  }

  lemma {:induction false} FoldAppend(s: set<string>, a: seq<Event>, b: seq<Event>)
    ensures Fold(s, a + b) == Fold(Fold(s, a), b)
    decreases |a|
  {
    if a == [] {
      assert a + b == b;
    } else {
      FoldAppend(Apply(s, a[0]), a[1..], b);
      assert (a + b)[1..] == a[1..] + b;
    }
  }

  lemma {:induction false} ProperAppend(s: set<string>, a: seq<Event>, b: seq<Event>)
    ensures Proper(s, a + b) <==> Proper(s, a) && Proper(Fold(s, a), b)
    decreases |a|
  {
    if a == [] {
      assert a + b == b;
    } else {
      ProperAppend(Apply(s, a[0]), a[1..], b);
      assert (a + b)[1..] == a[1..] + b;
    }
  }

  // The changes of one namespace, in order.
  function Changes(es: seq<Event>, ns: string): seq<Change> {
    if es == [] then []
    else (if es[0].namespace == ns then [es[0].change] else []) + Changes(es[1..], ns)
  }

  // Added, Removed, Added, ... beginning with Added exactly if the namespace was not in.
  predicate Alternates(inside: bool, cs: seq<Change>)
    decreases |cs|
  {
    cs == [] || ((cs[0] == Added <==> !inside) && Alternates(!inside, cs[1..]))
  }

  lemma {:induction false} ProperAlternates(s: set<string>, es: seq<Event>, ns: string)
    requires Proper(s, es)
    ensures Alternates(ns in s, Changes(es, ns))
    decreases |es|
  {
    if es != [] {
      var e := es[0];
      var rest := Changes(es[1..], ns);
      ProperAlternates(Apply(s, e), es[1..], ns);
      if e.namespace == ns {
        assert ([e.change] + rest)[1..] == rest;
      } else {
        assert [] + rest == rest;
      }
    }
  }

  // A namespace is in exactly if its last change was Added, or it has not changed and was in before.
  lemma {:induction false} LastChange(s: set<string>, es: seq<Event>, ns: string)
    ensures forall k | 0 <= k < |es| && es[k].namespace == ns && (forall m | k < m < |es| :: es[m].namespace != ns) ::
              ns in Fold(s, es) <==> es[k].change == Added
    ensures (forall m | 0 <= m < |es| :: es[m].namespace != ns) ==> (ns in Fold(s, es) <==> ns in s)
  {
    if es != [] {
      var n := |es| - 1;
      var front := es[..n];
      LastChange(s, front, ns);
      FoldAppend(s, front, [es[n]]);
      assert es == front + [es[n]] && [es[n]][1..] == [];
      assert Fold(s, es) == Apply(Fold(s, front), es[n]);
    }
  }

  // In a proper log the changes of a namespace strictly alternate: the first one is Added exactly if the
  // namespace was not in, and two with none between them are opposite.
  lemma ChangesAlternate(s: set<string>, es: seq<Event>, i: int, j: int)
    requires Proper(s, es) && -1 <= i < j < |es|
    requires forall m | i < m < j :: es[m].namespace != es[j].namespace
    ensures i == -1 ==> (es[j].change == Added <==> es[j].namespace !in s)
    ensures i >= 0 && es[i].namespace == es[j].namespace ==> es[i].change != es[j].change
  {
    var ns := es[j].namespace;
    var front, rest := es[..j], es[j..];
    assert es == front + rest;
    ProperAppend(s, front, rest);
    LastChange(s, front, ns);
    assert rest[0] == es[j];
    if i >= 0 && es[i].namespace == ns {
      assert front[i] == Event(ns, es[i].change);
    }
  }

  // a results from b by dropping events.
  predicate Thinned(a: seq<Event>, b: seq<Event>) {
    if b == [] then a == []
    else
      var n := |b| - 1;
      Thinned(a, b[..n]) || (a != [] && a[|a| - 1] == b[n] && Thinned(a[..|a| - 1], b[..n]))
  }

  lemma ThinnedGrows(a: seq<Event>, b: seq<Event>, e: Event)
    requires Thinned(a, b)
    ensures Thinned(a, b + [e]) && Thinned(a + [e], b + [e])
  {
    assert (b + [e])[..|b|] == b && (a + [e])[..|a|] == a;
  }

  // Thinned is the usual notion: some increasing choice of positions yields a.
  ghost predicate Picks(idx: seq<nat>, a: seq<Event>, b: seq<Event>) {
    && |idx| == |a|
    && (forall i | 0 <= i < |idx| :: idx[i] < |b| && a[i] == b[idx[i]])
    && (forall i, j | 0 <= i < j < |idx| :: idx[i] < idx[j])
  }

  lemma {:induction false} ThinnedPicks(a: seq<Event>, b: seq<Event>) returns (idx: seq<nat>)
    requires Thinned(a, b)
    ensures Picks(idx, a, b)
    decreases |b|
  {
    if b == [] {
      idx := [];
    } else {
      var n := |b| - 1;
      if Thinned(a, b[..n]) {
        idx := ThinnedPicks(a, b[..n]);
      } else {
        var m := |a| - 1;
        var rest := ThinnedPicks(a[..m], b[..n]);
        idx := rest + [n];
      }
    }
  }

  // What a listener has accepted of the events it was offered, all but the dropped ones.
  predicate StreamOk(accepted: seq<Event>, dropped: nat, offered: seq<Event>) {
    && Thinned(accepted, offered)
    && (dropped == 0 ==> accepted == offered)
    && |accepted| + dropped == |offered|
  }

  lemma StreamGrows(accepted: seq<Event>, dropped: nat, offered: seq<Event>, e: Event)
    requires StreamOk(accepted, dropped, offered)
    ensures StreamOk(accepted + [e], dropped, offered + [e])
    ensures StreamOk(accepted, dropped + 1, offered + [e])
  {
    ThinnedGrows(accepted, offered, e);
  }
}

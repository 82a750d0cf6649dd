// The lease controller's side of the namespace listener: every opted-in namespace is listed once
// and a reconcile is started for each object in it that carries a ttl.
module NamespaceEvents {
  import opened Kube
  import opened TrackerLog
  import opened Tracker

  datatype Item = Item(name: string, anns: Anns)

  datatype Listing = Items(items: seq<Item>) | ListFailed

  datatype Target = Target(namespace: string, name: string)

  predicate Leases(l: Listing, name: string) {
    l.Items? && exists i :: 0 <= i < |l.items| && l.items[i].name == name && TTL in l.items[i].anns
  }

  function Leased(ns: string, items: seq<Item>): seq<Target> {
    if items == [] then []
    else
      var last := items[|items| - 1];
      Leased(ns, items[..|items| - 1]) + if TTL in last.anns then [Target(ns, last.name)] else []
  }

  function StartedBy(e: Event, l: Listing): seq<Target> {
    if e.change == Added && l.Items? then Leased(e.namespace, l.items) else []
  }

  // lists(k) is what listing yields when the k-th event is handled.
  function Started(es: seq<Event>, lists: nat -> Listing): seq<Target> {
    if es == [] then []
    else
      var n := |es| - 1;
      Started(es[..n], lists) + StartedBy(es[n], lists(n))
  }

  class LeaseListener {
    const events: Channel
    const lists: nat -> Listing
    var started: seq<Target>
    var handled: nat  // how many events so far

    ghost predicate Valid()
      reads this, events
    {
      events.Valid() && handled == |events.received| && started == Started(events.received, lists)
    }

    constructor (events: Channel, lists: nat -> Listing)
      requires events.Valid() && events.received == []
      ensures Valid() && this.events == events && this.lists == lists && started == []
    {
      this.events, this.lists, started, handled := events, lists, [], 0;
    }

    // The receiving loop, until nothing is left in the channel.
    method HandleNamespaceEvents()
      requires Valid()
      modifies this, events
      ensures Valid() && events.buffer == []
      ensures events.accepted == old(events.accepted) && events.dropped == old(events.dropped)
      ensures events.received == old(events.received + events.buffer)
    {
      hide Leased;
      while events.buffer != []
        invariant Valid()
        invariant events.accepted == old(events.accepted) && events.dropped == old(events.dropped)
        decreases |events.buffer|
      {
        ghost var before := events.received;
        var evt := events.Receive();
        assert events.received[..handled] == before;
        if evt.change == Added {
          var list := lists(handled);
          if list.Items? {
            StartAll(evt.namespace, list.items);
          }
        }
        handled := handled + 1;
      }
    }

    method StartAll(ns: string, items: seq<Item>)
      modifies this`started
      ensures started == old(started) + Leased(ns, items)
    {
      for i := 0 to |items|
        invariant started == old(started) + Leased(ns, items[..i])
      {
        assert items[..i + 1][..i] == items[..i];
        if TTL in items[i].anns {
          started := started + [Target(ns, items[i].name)];
        }
      }
      assert items[..|items|] == items;
    }
  }

  lemma {:induction false} LeasedIff(ns: string, items: seq<Item>, r: Target)
    ensures r in Leased(ns, items) <==> r.namespace == ns && Leases(Items(items), r.name)
  {
    if items != [] {
      var n := |items| - 1;
      LeasedIff(ns, items[..n], r);
      var front := Items(items[..n]);
      if Leases(front, r.name) {
        var i :| 0 <= i < n && front.items[i].name == r.name && TTL in front.items[i].anns;
        assert items[i] == front.items[i];
      }
      if Leases(Items(items), r.name) {
        var i :| 0 <= i <= n && items[i].name == r.name && TTL in items[i].anns;
        assert i < n ==> front.items[i] == items[i];
      }
    }
  }

  // The k-th event opted the namespace in and its listing showed the object with a ttl.
  predicate Calls(es: seq<Event>, lists: nat -> Listing, k: nat, r: Target) {
    k < |es| && es[k] == Event(r.namespace, Added) && Leases(lists(k), r.name)
  }

  // A reconcile is started exactly for the objects with a ttl that were listed when a namespace was
  // opted in.
  lemma StartedMeans(es: seq<Event>, lists: nat -> Listing, ns: string, name: string)
    ensures Target(ns, name) in Started(es, lists) <==>
              exists k: nat, i: nat ::
                && k < |es| && es[k] == Event(ns, Added) && lists(k).Items? && i < |lists(k).items|
                && lists(k).items[i].name == name && TTL in lists(k).items[i].anns
  {
    var r := Target(ns, name);
    StartedIff(es, lists, r);
    if r in Started(es, lists) {
      var k: nat :| Calls(es, lists, k, r);
      var i :| 0 <= i < |lists(k).items| && lists(k).items[i].name == name && TTL in lists(k).items[i].anns;
    }
    forall k: nat, i: nat | k < |es| && es[k] == Event(ns, Added) && lists(k).Items? && i < |lists(k).items|
                            && lists(k).items[i].name == name && TTL in lists(k).items[i].anns
      ensures Calls(es, lists, k, r)
    {
    }
  }

  lemma {:induction false} StartedIff(es: seq<Event>, lists: nat -> Listing, r: Target)
    ensures r in Started(es, lists) <==> exists k: nat :: Calls(es, lists, k, r)
  {
    if es != [] {
      var n := |es| - 1;
      StartedIff(es[..n], lists, r);
      if lists(n).Items? { LeasedIff(es[n].namespace, lists(n).items, r); }
      assert forall k: nat | k < n :: Calls(es[..n], lists, k, r) <==> Calls(es, lists, k, r);
      assert r in StartedBy(es[n], lists(n)) <==> Calls(es, lists, n, r);
    }
  }

  lemma {:induction false} MemberWasAdded(s: set<string>, es: seq<Event>, ns: string) returns (k: nat)
    requires ns in Fold(s, es) && ns !in s
    ensures k < |es| && es[k] == Event(ns, Added)
    decreases |es|
  {
    if ns in Apply(s, es[0]) {
      k := 0;
    } else {
      var m := MemberWasAdded(Apply(s, es[0]), es[1..], ns);
      k := m + 1;
    }
  }

  // If nothing was dropped, every namespace tracked since the listener joined has been listed by
  // the time the channel is empty, and each leased object the list showed got its reconcile.
  lemma OptedInIsSwept(t: NamespaceTracker, i: nat, h: LeaseListener, ns: string) returns (k: nat)
    requires t.Valid() && i < |t.listeners| && t.listeners[i] == h.events && h.Valid()
    requires h.events.dropped == 0 && h.events.buffer == []
    requires i < |t.joined| && t.joined[i] <= |t.emitted|
    requires ns in t.namespaces && ns !in Fold({}, t.emitted[..t.joined[i]])
    ensures k < |h.events.received| && h.events.received[k] == Event(ns, Added)
    ensures forall name: string | Leases(h.lists(k), name) :: Target(ns, name) in h.started
  {
    Replay(t, i, ns);
    var received := h.events.received;
    assert received + [] == received;
    k := MemberWasAdded(Fold({}, t.emitted[..t.joined[i]]), received, ns);
    forall name: string | Leases(h.lists(k), name) ensures Target(ns, name) in h.started {
      StartedIff(received, h.lists, Target(ns, name));
      assert Calls(received, h.lists, k, Target(ns, name));
    }
  }

  // The other listeners of the tracker are not concerned when one empties its channel.
  method Drain(t: NamespaceTracker, i: nat, h: LeaseListener)
    requires t.Valid() && i < |t.listeners| && t.listeners[i] == h.events && h.Valid()
    modifies h, h.events
    ensures t.Valid() && h.Valid() && h.events.buffer == []
    ensures h.events.accepted == old(h.events.accepted) && h.events.dropped == old(h.events.dropped)
  {
    assert forall k: nat | k < |t.listeners| :: t.ListenerOk(k);
    h.HandleNamespaceEvents();
    forall k: nat | k < |t.listeners| ensures t.ListenerOk(k) {
      assert old(t.ListenerOk(k));
      assert k != i ==> unchanged(t.listeners[k]);
    }
  }

  // Opting in end to end: as long as the channel has room, the event reaches the listener, which
  // starts a reconcile for every leased object its listing shows.
  method OptIn(t: NamespaceTracker, i: nat, h: LeaseListener, ns: string)
    requires t.Valid() && i < |t.listeners| && t.listeners[i] == h.events && h.Valid()
    requires ns !in t.namespaces && h.events.dropped == 0 && |h.events.buffer| < h.events.capacity
    modifies t, t.listeners, h
    ensures t.Valid() && h.Valid() && t.listeners == old(t.listeners) && h.events.dropped == 0
    ensures t.namespaces == old(t.namespaces) + {ns}
    ensures h.handled > 0 && h.events.received[h.handled - 1] == Event(ns, Added)
    ensures forall name: string | Leases(h.lists(h.handled - 1), name) :: Target(ns, name) in h.started
  {
    hide Started, Leases;
    assert t.ListenerOk(i);
    t.AddNamespace(ns);
    assert t.listeners[i].Offered();
    assert t.ListenerOk(i) && h.Valid() && h.events.dropped == 0;
    assert t.joined[i] < |t.emitted| && t.emitted[|t.emitted| - 1] == Event(ns, Added);
    Drain(t, i, h);
    Swept(t, i, h, ns);
  }

  // The last event has been handled.
  lemma Swept(t: NamespaceTracker, i: nat, h: LeaseListener, ns: string)
    requires t.Valid() && i < |t.listeners| && t.listeners[i] == h.events && h.Valid()
    requires h.events.buffer == [] && h.events.dropped == 0
    requires i < |t.joined| && t.joined[i] < |t.emitted| && t.emitted[|t.emitted| - 1] == Event(ns, Added)
    ensures h.handled > 0 && h.events.received[h.handled - 1] == Event(ns, Added)
    ensures forall name: string | Leases(h.lists(h.handled - 1), name) :: Target(ns, name) in h.started
  {
    hide Started, Leases;
    assert t.ListenerOk(i);
    var received := h.events.received;
    assert received + [] == received == t.emitted[t.joined[i]..];
    var n := h.handled - 1;
    forall name: string | Leases(h.lists(n), name) ensures Target(ns, name) in h.started {
      StartedIff(received, h.lists, Target(ns, name));
      assert Calls(received, h.lists, n, Target(ns, name));
    }
  }
}

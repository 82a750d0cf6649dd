// The namespace tracker: a set changed under a lock, and listeners whose bounded channels are
// served without blocking.
module Tracker {
  import opened TrackerLog

  // A buffered channel. The ghost fields remember everything it accepted and everything taken out.
  class Channel {
    const capacity: nat
    var buffer: seq<Event>
    ghost var accepted: seq<Event>
    ghost var received: seq<Event>
    ghost var dropped: nat

    ghost predicate Valid()
      reads this
    {
      |buffer| <= capacity && accepted == received + buffer
    }

    constructor (capacity: nat)
      ensures Valid() && this.capacity == capacity && accepted == [] && received == [] && dropped == 0
    {
      this.capacity := capacity;
      buffer, accepted, received, dropped := [], [], [], 0;
    }

    // Nothing has been taken out meanwhile, and an event was lost only if the buffer was full.
    twostate predicate Offered()
      reads this
    {
      && received == old(received)
      && (dropped == old(dropped) || |old(buffer)| == capacity)
    }

    // A send that gives up when the buffer is full.
    method TrySend(e: Event)
      requires Valid()
      modifies this
      ensures Valid() && received == old(received)
      ensures |old(buffer)| < capacity ==> accepted == old(accepted) + [e] && dropped == old(dropped)
      ensures |old(buffer)| == capacity ==> accepted == old(accepted) && dropped == old(dropped) + 1
    {
      if |buffer| < capacity {
        buffer := buffer + [e];
        accepted := accepted + [e];
      } else {
        dropped := dropped + 1;
      }
    }

    // The consumer's side; it leaves what was accepted alone.
    method Receive() returns (e: Event)
      requires Valid() && buffer != []
      modifies this
      ensures Valid() && accepted == old(accepted) && dropped == old(dropped)
      ensures received == old(received) + [e] && e == old(buffer)[0]
    {
      e := buffer[0];
      received := received + [e];
      buffer := buffer[1..];
    }
  }

  class NamespaceTracker {
    var namespaces: set<string>
    var listeners: seq<Channel>
    ghost var emitted: seq<Event>   // every change, in order
    ghost var joined: seq<nat>      // how much had been emitted when each listener registered

    // What one listener holds of the log from its registration on.
    ghost predicate ListenerOk(k: nat)
      requires k < |listeners| && k < |joined|
      reads this`listeners, this`joined, this`emitted, listeners
    {
      var ch := listeners[k];
      ch.Valid() && joined[k] <= |emitted| && StreamOk(ch.accepted, ch.dropped, emitted[joined[k]..])
    }

    ghost predicate Valid()
      reads this, listeners
    {
      && |joined| == |listeners|
      && (forall i: nat, j: nat | i < j < |listeners| :: listeners[i] != listeners[j])
      && namespaces == Fold({}, emitted) && Proper({}, emitted)
      && (forall k: nat | k < |listeners| :: ListenerOk(k))
    }

    constructor ()
      ensures Valid() && namespaces == {} && listeners == []
    {
      namespaces, listeners, emitted, joined := {}, [], [], [];
    }

    method AddNamespace(ns: string)
      requires Valid()
      modifies this, listeners
      ensures Valid() && namespaces == old(namespaces) + {ns} && listeners == old(listeners)
      ensures joined == old(joined)
      ensures emitted == old(emitted) + if ns in old(namespaces) then [] else [Event(ns, Added)]
      ensures forall k: nat | k < |listeners| :: listeners[k].Offered()
    {
      if ns !in namespaces {
        namespaces := namespaces + {ns};
        NotifyListeners(Event(ns, Added), old(namespaces));
      }
    }

    method RemoveNamespace(ns: string)
      requires Valid()
      modifies this, listeners
      ensures Valid() && namespaces == old(namespaces) - {ns} && listeners == old(listeners)
      ensures joined == old(joined)
      ensures emitted == old(emitted) + if ns in old(namespaces) then [Event(ns, Removed)] else []
      ensures forall k: nat | k < |listeners| :: listeners[k].Offered()
    {
      if ns in namespaces {
        namespaces := namespaces - {ns};
        NotifyListeners(Event(ns, Removed), old(namespaces));
      }
    }

    // Every namespace once, in no particular order.
    method ListNamespaces() returns (list: seq<string>)
      ensures forall ns :: ns in list <==> ns in namespaces
      ensures |list| == |namespaces|
    {
      list := [];
      var left := namespaces;
      while left != {}
        invariant left <= namespaces
        invariant forall ns :: ns in list <==> ns in namespaces && ns !in left
        invariant |list| + |left| == |namespaces|
      {
        var ns :| ns in left;
        list := list + [ns];
        left := left - {ns};
      }
    }

    method TrackingNamespace(ns: string) returns (b: bool)
      ensures b <==> ns in namespaces
    {
      b := ns in namespaces;
    }

    // A listener joins once, with a channel nothing has been sent to.
    method RegisterListener(ch: Channel)
      requires Valid() && ch !in listeners
      requires ch.Valid() && ch.accepted == [] && ch.dropped == 0
      modifies this
      ensures Valid() && namespaces == old(namespaces) && emitted == old(emitted)
      ensures listeners == old(listeners) + [ch] && joined == old(joined) + [|emitted|]
    {
      listeners := listeners + [ch];
      joined := joined + [|emitted|];
      assert forall k: nat | k < |old(listeners)| :: old(ListenerOk(k)) ==> ListenerOk(k);
      assert ListenerOk(|listeners| - 1);
    }

    // One non-blocking send per listener, in order of registration.
    method NotifyListeners(e: Event, ghost before: set<string>)
      requires |joined| == |listeners|
      requires forall i: nat, j: nat | i < j < |listeners| :: listeners[i] != listeners[j]
      requires before == Fold({}, emitted) && Proper({}, emitted)
      requires forall k: nat | k < |listeners| :: ListenerOk(k)
      requires (e.change == Added <==> e.namespace !in before) && namespaces == Apply(before, e)
      modifies this`emitted, listeners
      ensures Valid() && emitted == old(emitted) + [e]
      ensures forall k: nat | k < |listeners| :: listeners[k].Offered()
    {
      hide Thinned, StreamOk, Fold, Proper;
      ghost var es := emitted;
      for i := 0 to |listeners|
        invariant emitted == es
        invariant forall k: nat | i <= k < |listeners| ::
                    ListenerOk(k) && unchanged(listeners[k])
        invariant forall k: nat | k < i ::
                    joined[k] <= |es| && Served(listeners[k], es[joined[k]..] + [e])
                    && listeners[k].Offered()
      {
        var ch := listeners[i];
        StreamGrows(ch.accepted, ch.dropped, es[joined[i]..], e);
        ch.TrySend(e);
        assert Served(ch, es[joined[i]..] + [e]);
      }
      emitted := emitted + [e];
      EmitOne(es, e);
      forall k: nat | k < |listeners| ensures ListenerOk(k) {
        assert emitted[joined[k]..] == es[joined[k]..] + [e];
      }
    }
  }

  lemma EmitOne(es: seq<Event>, e: Event)
    requires Proper({}, es) && (e.change == Added <==> e.namespace !in Fold({}, es))
    ensures Proper({}, es + [e]) && Fold({}, es + [e]) == Apply(Fold({}, es), e)
  {
    FoldAppend({}, es, [e]);
    ProperAppend({}, es, [e]);
    assert [e][1..] == [];
  }

  // A channel that was offered exactly the events es.
  ghost predicate Served(ch: Channel, es: seq<Event>)
    reads ch
  {
    ch.Valid() && StreamOk(ch.accepted, ch.dropped, es)
  }

  // A listener whose buffer was never full sees each namespace come and go in turn.
  lemma ReplayAlternates(t: NamespaceTracker, k: nat, i: int, j: int)
    requires t.Valid() && k < |t.listeners| && t.listeners[k].dropped == 0
    requires var seen := t.listeners[k].received + t.listeners[k].buffer;
             -1 <= i < j < |seen| && forall m | i < m < j :: seen[m].namespace != seen[j].namespace
    ensures k < |t.joined| && t.joined[k] <= |t.emitted|
    ensures var seen := t.listeners[k].received + t.listeners[k].buffer;
            && (i == -1 ==> (seen[j].change == Added <==> seen[j].namespace !in Fold({}, t.emitted[..t.joined[k]])))
            && (i >= 0 && seen[i].namespace == seen[j].namespace ==> seen[i].change != seen[j].change)
  {
    var n := t.joined[k];
    assert t.ListenerOk(k);
    assert t.emitted == t.emitted[..n] + t.emitted[n..];
    ProperAppend({}, t.emitted[..n], t.emitted[n..]);
    ChangesAlternate(Fold({}, t.emitted[..n]), t.emitted[n..], i, j);
  }

  // A listener whose buffer was never full can rebuild the tracked set: what it took out and what
  // still waits, applied to the set at its registration. Each namespace comes and goes in turn.
  lemma Replay(t: NamespaceTracker, k: nat, ns: string)
    requires t.Valid() && k < |t.listeners| && t.listeners[k].dropped == 0
    ensures k < |t.joined| && t.joined[k] <= |t.emitted|
    ensures var ch, before := t.listeners[k], Fold({}, t.emitted[..t.joined[k]]);
            && Fold(before, ch.received + ch.buffer) == t.namespaces
            && Alternates(ns in before, Changes(ch.received + ch.buffer, ns))
  {
    var n := t.joined[k];
    assert t.ListenerOk(k);
    assert t.emitted == t.emitted[..n] + t.emitted[n..];
    FoldAppend({}, t.emitted[..n], t.emitted[n..]);
    ProperAppend({}, t.emitted[..n], t.emitted[n..]);
    ProperAlternates(Fold({}, t.emitted[..n]), t.emitted[n..], ns);
  }

  // With drops it still sees the changes in order, in bounded space, and can tell how many it lost.
  lemma LossyStream(t: NamespaceTracker, k: nat) returns (idx: seq<nat>)
    requires t.Valid() && k < |t.listeners|
    ensures k < |t.joined| && t.joined[k] <= |t.emitted|
    ensures var ch := t.listeners[k];
            && |ch.buffer| <= ch.capacity
            && |idx| == |ch.received + ch.buffer|
            && (forall i | 0 <= i < |idx| ::
                  t.joined[k] + idx[i] < |t.emitted| && (ch.received + ch.buffer)[i] == t.emitted[t.joined[k] + idx[i]])
            && (forall i, j | 0 <= i < j < |idx| :: idx[i] < idx[j])
            && |idx| + ch.dropped == |t.emitted| - t.joined[k]
  {
    assert t.ListenerOk(k);
    idx := ThinnedPicks(t.listeners[k].accepted, t.emitted[t.joined[k]..]);
  }
}

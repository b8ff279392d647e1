/**
 * The listener list behind store-update notifications: an ordered array of
 * listeners that `subscribe` appends to, that an `unsubscribe` handle removes
 * one copy from, that `notify` walks on a snapshot, and that `destroy` replaces.
 */
module Subscriptions {
  import opened JsValue

  /** Listeners are compared by identity (`===`), so an opaque id stands for a function. */
  type Listener = nat

  /** One listener call made by `notify`: who was called, with what data. */
  type Notification = (Listener, Value)

  /** What `Array.prototype.indexOf` answers: the first position of `x`, or -1. */
  function IndexOf(s: seq<Listener>, x: Listener): (r: int)
    ensures -1 <= r < |s|
    ensures r == -1 <==> x !in s
    ensures 0 <= r ==> s[r] == x && x !in s[..r]
  {
    if s == [] then -1
    else if s[0] == x then 0
    else
      var k := IndexOf(s[1..], x);
      assert k >= 0 ==> s[1..][..k] == s[1..k + 1];
      if k == -1 then -1 else k + 1
  }

  /** The list an `unsubscribe` call leaves behind: indexOf, then splice(idx, 1) when found. */
  function RemoveFirst(s: seq<Listener>, x: Listener): seq<Listener> {
    var idx := IndexOf(s, x);
    if idx > -1 then s[..idx] + s[idx + 1..] else s
  }

  /** Unsubscribing removes exactly one copy of a present listener and is a no-op otherwise. */
  lemma RemoveFirstRemovesOne(s: seq<Listener>, x: Listener)
    ensures x in s ==> multiset(RemoveFirst(s, x)) == multiset(s) - multiset{x}
    ensures x in s ==> |RemoveFirst(s, x)| == |s| - 1
    ensures x !in s ==> RemoveFirst(s, x) == s
  {
    var idx := IndexOf(s, x);
    if idx > -1 {
      assert s == s[..idx] + [x] + s[idx + 1..];
      assert multiset(s) == multiset(s[..idx]) + multiset{x} + multiset(s[idx + 1..]);
    }
  }

  /** Where `x` first occurs in a list that had something appended. */
  lemma {:induction false} IndexOfAppend(s: seq<Listener>, t: seq<Listener>, x: Listener)
    ensures x in s ==> IndexOf(s + t, x) == IndexOf(s, x)
    ensures x !in s && x in t ==> IndexOf(s + t, x) == |s| + IndexOf(t, x)
    ensures x !in s && x !in t ==> IndexOf(s + t, x) == -1
  {
    if s == [] {
      assert s + t == t;
    } else {
      assert (s + t)[0] == s[0];
      assert (s + t)[1..] == s[1..] + t;
      if s[0] != x {
        IndexOfAppend(s[1..], t, x);
        assert x in s <==> x in s[1..];
      }
    }
  }

  /**
   * Subscribing `x` and calling the handle straight away: a first subscription
   * is undone exactly; when `x` was already there, the earlier copy goes and the
   * new one stays at the end.
   */
  lemma {:induction false} UnsubscribeAfterSubscribe(s: seq<Listener>, x: Listener)
    ensures x !in s ==> RemoveFirst(s + [x], x) == s
    ensures x in s ==> RemoveFirst(s + [x], x) == RemoveFirst(s, x) + [x]
  {
    IndexOfAppend(s, [x], x);
    var t := s + [x];
    if x in s {
      var j := IndexOf(s, x);
      assert t[..j] == s[..j];
      assert t[j + 1..] == s[j + 1..] + [x];
    } else {
      assert IndexOf(t, x) == |s|;
      assert t[..|s|] == s;
    }
  }

  /** A listener subscribed once: a second `unsubscribe` call leaves the list as it is. */
  lemma UnsubscribeTwice(s: seq<Listener>, x: Listener)
    requires multiset(s)[x] <= 1
    ensures RemoveFirst(RemoveFirst(s, x), x) == RemoveFirst(s, x)
  {
    RemoveFirstRemovesOne(s, x);
    var r := RemoveFirst(s, x);
    if x in s {
      assert x !in multiset(r);
    }
    assert x !in r;
    RemoveFirstRemovesOne(r, x);
  }

  /**
   * The live list after the listeners in `called` were run in order, each
   * reacting to the notification by changing the live list as `respond` says.
   */
  function Replay(respond: (Listener, Value, seq<Listener>) -> seq<Listener>,
                  called: seq<Listener>, data: Value, live: seq<Listener>): seq<Listener>
    decreases |called|
  {
    if called == [] then live
    else respond(called[|called| - 1], data, Replay(respond, called[..|called| - 1], data, live))
  }

  /** Listeners that leave the live list alone: the pass ends with the list it started with. */
  lemma {:induction false} ReplayUntouched(called: seq<Listener>, data: Value, live: seq<Listener>)
    ensures Replay((l: Listener, d: Value, s: seq<Listener>) => s, called, data, live) == live
    decreases |called|
  {
    if called != [] {
      ReplayUntouched(called[..|called| - 1], data, live);
    }
  }

  /** A JavaScript array of listeners; unsubscribe handles hold on to one of these. */
  class ListenerArray {
    var items: seq<Listener>

    constructor ()
      ensures items == []
    {
      items := [];
    }

    /** `push(l)` */
    method Push(l: Listener)
      modifies this
      ensures items == old(items) + [l]
    {
      items := items + [l];
    }

    /** `splice(start, 1)`; a start past the end removes nothing. */
    method Splice(start: nat)
      modifies this
      ensures start < |old(items)| ==> items == old(items[..start] + items[start + 1..])
      ensures start >= |old(items)| ==> items == old(items)
    {
      if start < |items| {
        items := items[..start] + items[start + 1..];
      }
    }
  }

  /** The `unsubscribe` closure: the array current at subscription time, and the listener. */
  class Unsubscribe {
    const target: ListenerArray
    const listener: Listener

    constructor (target: ListenerArray, listener: Listener)
      ensures this.target == target && this.listener == listener
    {
      this.target := target;
      this.listener := listener;
    }

    /** Remove the first remaining copy of the listener from the captured array, if any. */
    method Call()
      modifies target
      ensures target.items == RemoveFirst(old(target.items), listener)
    {
      var idx := IndexOf(target.items, listener);
      if idx > -1 {
        target.Splice(idx);
      }
    }
  }

  class Subscription {
    var data: Value
    var listeners: ListenerArray

    constructor (data: Value)
      ensures this.data == data
      ensures fresh(listeners) && listeners.items == []
    {
      this.data := data;
      listeners := new ListenerArray();
    }

    /** Append `l` and hand back a handle bound to the array that is current now. */
    method Subscribe(l: Listener) returns (u: Unsubscribe)
      modifies listeners
      ensures listeners == old(listeners) && data == old(data)
      ensures listeners.items == old(listeners.items) + [l]
      ensures fresh(u) && u.target == listeners && u.listener == l
    {
      var current := listeners;
      current.Push(l);
      u := new Unsubscribe(current, l);
    }

    /**
     * Call every listener of a snapshot of the list once, in order, with `data`.
     * `respond` is what a listener does to the live list while it runs
     * (subscribing or unsubscribing); it never changes who is called in this pass.
     */
    method Notify(respond: (Listener, Value, seq<Listener>) -> seq<Listener>)
      returns (calls: seq<Notification>)
      modifies listeners
      ensures listeners == old(listeners) && data == old(data)
      ensures |calls| == |old(listeners.items)|
      ensures forall i :: 0 <= i < |calls| ==> calls[i] == (old(listeners.items)[i], data)
      ensures listeners.items == Replay(respond, old(listeners.items), data, old(listeners.items))
    {
      var snapshot := listeners.items;
      calls := [];
      var i := 0;
      while i < |snapshot|
        invariant 0 <= i <= |snapshot|
        invariant |calls| == i
        invariant forall k :: 0 <= k < i ==> calls[k] == (snapshot[k], data)
        invariant listeners.items == Replay(respond, snapshot[..i], data, snapshot)
      {
        calls := calls + [(snapshot[i], data)];
        assert snapshot[..i + 1][..i] == snapshot[..i];
        listeners.items := respond(snapshot[i], data, listeners.items);
        i := i + 1;
      }
      assert snapshot[..i] == snapshot;
    }

    /** Drop the data and install a new, empty listener array. */
    method Destroy()
      modifies this
      ensures data == Null
      ensures fresh(listeners) && listeners.items == []
    {
      data := Null;
      listeners := new ListenerArray();
    }
  }

  /**
   * The same listener subscribed twice keeps two entries; each handle call
   * removes one remaining copy, and a call with none left changes nothing.
   */
  method DuplicateSubscriptions(data: Value, x: Listener)
    returns (twice: seq<Listener>, afterFirst: seq<Listener>, afterSecond: seq<Listener>, afterThird: seq<Listener>)
    ensures twice == [x, x]
    ensures afterFirst == [x]
    ensures afterSecond == []
    ensures afterThird == []
  {
    var s := new Subscription(data);
    var u1 := s.Subscribe(x);
    var u2 := s.Subscribe(x);
    twice := s.listeners.items;
    u1.Call();
    afterFirst := s.listeners.items;
    u2.Call();
    afterSecond := s.listeners.items;
    u1.Call();
    afterThird := s.listeners.items;
  }

  /**
   * A handle issued before `destroy` works on the array it captured: calling it
   * afterwards leaves the list installed by `destroy` alone.
   */
  method StaleHandleAfterDestroy(data: Value, a: Listener, b: Listener)
    returns (live: seq<Listener>, captured: seq<Listener>, liveData: Value)
    ensures live == [b]
    ensures captured == []
    ensures liveData == Null
  {
    var s := new Subscription(data);
    var ua := s.Subscribe(a);
    var before := s.listeners;
    s.Destroy();
    var ub := s.Subscribe(b);
    ua.Call();
    live := s.listeners.items;
    captured := before.items;
    liveData := s.data;
  }

  /**
   * For any subscription and any handle it issued before `destroy`: the
   * handle removes its listener from the array it captured, and the list
   * installed by `destroy` (with whatever was subscribed since) stays as it is.
   */
  method StaleHandleAnySubscription(s: Subscription, u: Unsubscribe, l: Listener)
    returns (live: seq<Listener>)
    requires u.target == s.listeners
    modifies s, s.listeners
    ensures live == [l] && s.listeners.items == [l] && s.data == Null
    ensures u.target.items == RemoveFirst(old(s.listeners.items), u.listener)
  {
    s.Destroy();
    var v := s.Subscribe(l);
    u.Call();
    live := s.listeners.items;
  }

  /**
   * A listener that unsubscribes another one mid-pass: both are still called
   * in this pass, in subscription order, and only the survivor stays.
   */
  method NotifyWhileUnsubscribing(data: Value, a: Listener, b: Listener)
    returns (calls: seq<Notification>, remaining: seq<Listener>)
    requires a != b
    ensures calls == [(a, data), (b, data)]
    ensures remaining == [a]
  {
    var s := new Subscription(data);
    var ua := s.Subscribe(a);
    var ub := s.Subscribe(b);
    var respond := (l: Listener, d: Value, live: seq<Listener>) => if l == a then RemoveFirst(live, b) else live;
    assert s.listeners.items == [a, b];
    calls := s.Notify(respond);
    remaining := s.listeners.items;
    assert [a, b][..1] == [a] && [a][..0] == [];
    assert IndexOf([a, b], b) == 1;
    assert RemoveFirst([a, b], b) == [a];
    assert Replay(respond, [a], data, [a, b]) == [a];
    assert Replay(respond, [a, b], data, [a, b]) == respond(b, data, [a]);
  }
}

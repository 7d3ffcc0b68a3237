/**
 * The synchronous, in-process fan-out of events to subscribers
 * (extensions/attention_alert/event_bus.py). A subscriber callback is modelled by an
 * identifier; whether a particular invocation raises, and which callables lack a
 * `__name__` attribute, are inputs of `Publish`.
 */
module EventBus {
  import opened Models

  /** The identity of a subscribed callable (Python compares callables by equality). */
  type CallbackId = nat

  predicate NoDuplicates(s: seq<CallbackId>) {
    forall i, j :: 0 <= i < j < |s| ==> s[i] != s[j]
  }

  /** The position of the first occurrence of `x` in `s`. */
  function IndexOf(s: seq<CallbackId>, x: CallbackId): (i: nat)
    requires x in s
    ensures i < |s| && s[i] == x
    ensures forall k :: 0 <= k < i ==> s[k] != x
  {
    if s[0] == x then 0 else 1 + IndexOf(s[1..], x)
  }

  /** `list.remove(x)`: drops the first occurrence of `x`, keeping everything before and
      after it in order; a list without `x` is left as it is. */
  function RemoveFirst(s: seq<CallbackId>, x: CallbackId): (r: seq<CallbackId>)
    ensures x !in s ==> r == s
    ensures x in s ==> r == s[..IndexOf(s, x)] + s[IndexOf(s, x) + 1..]
  {
    if s == [] then []
    else if s[0] == x then s[1..]
    else
      var t := s[1..];
      assert s == [s[0]] + t;
      assert x in s ==> x in t && (var i := IndexOf(s, x);
        i == 1 + IndexOf(t, x) && t[..i - 1] == s[1..i] && t[i..] == s[i + 1..] && [s[0]] + s[1..i] == s[..i]);
      [s[0]] + RemoveFirst(t, x)
  }

  /** On a duplicate-free list, removing `x` leaves a duplicate-free list without `x`,
      holding every other element. */
  lemma RemoveFirstNoDuplicates(s: seq<CallbackId>, x: CallbackId)
    requires NoDuplicates(s)
    ensures NoDuplicates(RemoveFirst(s, x))
    ensures x !in RemoveFirst(s, x)
    ensures forall y :: y != x ==> (y in RemoveFirst(s, x) <==> y in s)
  {
    if x in s {
      SpliceNoDuplicates(s, IndexOf(s, x));
    }
  }

  /** Cutting position `i` out of a duplicate-free list. */
  lemma SpliceNoDuplicates(s: seq<CallbackId>, i: nat)
    requires NoDuplicates(s) && i < |s|
    ensures var r := s[..i] + s[i + 1..];
      NoDuplicates(r) && s[i] !in r && forall y :: y != s[i] ==> (y in r <==> y in s)
  {
    var r := s[..i] + s[i + 1..];
    assert forall a :: 0 <= a < |r| ==> r[a] == s[if a < i then a else a + 1];
    forall y | y != s[i] && y in s ensures y in r {
      var k :| 0 <= k < |s| && s[k] == y;
      if k < i { assert r[k] == y; } else { assert r[k - 1] == y; }
    }
  }

  /** One invocation made by `publish`: which subscriber ran, the event it was handed and
      whether it raised. A raise is caught and logged by the bus. */
  datatype Delivery = Delivery(callback: CallbackId, event: AgentEvent, raised: bool)

  /** The position of the first subscriber in `fatal`, or `|s|` if there is none. */
  function FirstIn(s: seq<CallbackId>, fatal: set<CallbackId>): (i: nat)
    ensures i <= |s|
    ensures i < |s| ==> s[i] in fatal
    ensures forall k :: 0 <= k < i ==> s[k] !in fatal
    decreases |s|
  {
    if s == [] then 0
    else if s[0] in fatal then 0
    else
      assert forall k :: 1 <= k < |s| ==> s[1..][k - 1] == s[k];
      1 + FirstIn(s[1..], fatal)
  }

  /** How many subscribers `publish` invokes. A subscriber that raises and has no
      `__name__` makes the `except` handler itself raise while it builds the log line;
      that error escapes `publish`, so the subscribers after it are not invoked. */
  function Reached(s: seq<CallbackId>, raising: set<CallbackId>, unnamed: set<CallbackId>): (n: nat)
    ensures n <= |s|
    ensures n < |s| <==> FirstIn(s, raising * unnamed) + 1 < |s|
    ensures forall k :: 0 <= k < n - 1 ==> !(s[k] in raising && s[k] in unnamed)
    ensures n < |s| ==> 0 < n && s[n - 1] in raising && s[n - 1] in unnamed
  {
    var f := FirstIn(s, raising * unnamed);
    if f < |s| then f + 1 else |s|
  }

  class EventBus {
    var subscribers: seq<CallbackId>

    /** The invariant `subscribe` keeps: no callback is registered twice. */
    ghost predicate Valid()
      reads this
    {
      NoDuplicates(subscribers)
    }

    /** `EventBus(maxsize)`: no subscribers. The bounded queue is never used. */
    constructor ()
      ensures Valid() && subscribers == []
    {
      subscribers := [];
    }

    /** `subscribe`: appends a new callback at the end; an already registered one is a no-op. */
    method Subscribe(callback: CallbackId)
      requires Valid()
      modifies this
      ensures Valid()
      ensures callback in old(subscribers) ==> subscribers == old(subscribers)
      ensures callback !in old(subscribers) ==> subscribers == old(subscribers) + [callback]
    {
      if callback !in subscribers {
        subscribers := subscribers + [callback];
      }
    }

    /** `unsubscribe`: removes the callback if present, keeping the others in order. */
    method Unsubscribe(callback: CallbackId)
      requires Valid()
      modifies this
      ensures Valid()
      ensures subscribers == RemoveFirst(old(subscribers), callback)
      ensures callback !in old(subscribers) ==> subscribers == old(subscribers)
      ensures callback in old(subscribers) ==>
                var i := IndexOf(old(subscribers), callback);
                subscribers == old(subscribers)[..i] + old(subscribers)[i + 1..]
      ensures callback !in subscribers
      ensures forall c :: c != callback ==> (c in subscribers <==> c in old(subscribers))
    {
      RemoveFirstNoDuplicates(subscribers, callback);
      if callback in subscribers {
        ghost var i := IndexOf(subscribers, callback);
        ghost var cut := subscribers[..i] + subscribers[i + 1..];
        assert RemoveFirst(subscribers, callback) == cut;
        subscribers := RemoveFirst(subscribers, callback);
      }
    }

    /** `publish`: invokes the subscribers in list order on the publishing thread. A
        subscriber in `raising` raises; the handler catches that and logs it with the
        subscriber's `__name__`, so the later subscribers still run. For a subscriber in
        `unnamed` (a callable without `__name__`, such as a `functools.partial`) the
        handler raises in turn: `escaped` is set and the loop ends there. The list itself
        is not modified. */
    method Publish(event: AgentEvent, raising: set<CallbackId>, unnamed: set<CallbackId>)
      returns (deliveries: seq<Delivery>, escaped: bool)
      ensures |deliveries| == Reached(subscribers, raising, unnamed)
      ensures forall i :: 0 <= i < |deliveries| ==>
                deliveries[i] == Delivery(subscribers[i], event, subscribers[i] in raising)
      ensures escaped <==> FirstIn(subscribers, raising * unnamed) < |subscribers|
    {
      deliveries := [];
      escaped := false;
      var i := 0;
      while i < |subscribers|
        invariant 0 <= i <= |subscribers|
        invariant |deliveries| == i
        invariant forall k :: 0 <= k < i ==> deliveries[k] == Delivery(subscribers[k], event, subscribers[k] in raising)
        invariant forall k :: 0 <= k < i ==> !(subscribers[k] in raising && subscribers[k] in unnamed)
      {
        var subscriber := subscribers[i];
        // the callback runs; an exception it raises is caught here and logged
        var raised := subscriber in raising;
        deliveries := deliveries + [Delivery(subscriber, event, raised)];
        if raised && subscriber in unnamed {
          // the log line reads `subscriber.__name__`, which raises out of `publish`
          escaped := true;
          assert FirstIn(subscribers, raising * unnamed) == i;
          return;
        }
        i := i + 1;
      }
      assert FirstIn(subscribers, raising * unnamed) == |subscribers|;
    }
  }

  /** A subscribed callback receives a published event exactly when no subscriber ahead
      of it raised without a `__name__`; it never receives it twice. When every raising
      subscriber has a name, every subscriber receives the event. */
  lemma SubscribedReceivesOnce(subscribers: seq<CallbackId>, event: AgentEvent, deliveries: seq<Delivery>,
                               raising: set<CallbackId>, unnamed: set<CallbackId>, c: CallbackId)
    requires NoDuplicates(subscribers) && c in subscribers
    requires |deliveries| == Reached(subscribers, raising, unnamed)
    requires forall i :: 0 <= i < |deliveries| ==> deliveries[i] == Delivery(subscribers[i], event, subscribers[i] in raising)
    ensures (exists i :: 0 <= i < |deliveries| && deliveries[i].callback == c && deliveries[i].event == event)
            <==> forall k :: 0 <= k < IndexOf(subscribers, c) ==> !(subscribers[k] in raising && subscribers[k] in unnamed)
    ensures raising * unnamed == {} ==> |deliveries| == |subscribers|
    ensures forall i, j :: 0 <= i < j < |deliveries| ==> deliveries[i].callback != deliveries[j].callback
  {
    var i := IndexOf(subscribers, c);
    var f := FirstIn(subscribers, raising * unnamed);
    if forall k :: 0 <= k < i ==> !(subscribers[k] in raising && subscribers[k] in unnamed) {
      assert i <= f;
      assert deliveries[i].callback == c;
    } else {
      var k :| 0 <= k < i && subscribers[k] in raising && subscribers[k] in unnamed;
      assert f <= k;
      forall j | 0 <= j < |deliveries| ensures deliveries[j].callback != c {
        assert subscribers[j] != subscribers[i];
      }
    }
  }
}

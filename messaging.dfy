/**
 * The request/subscription correlator of `SendMessageMessagingTransport`.
 *
 * The transport keeps a `Set` of handler closures. `request` sends a message
 * and registers a one-shot handler that unsubscribes itself and resolves the
 * request's promise; `subscribe` registers a persistent handler that forwards
 * every matching event's `response`; `onResponse` hands each inbound event to
 * every handler in the set. Matching is by comparator (a predicate over the
 * event), never by a request id.
 */
module Messaging {
  import opened Wrappers

  /** The one method whose replies are told apart by the requested video URL. */
  const VideoDetailsMethod: string := "getYouTubeVideoDetails"

  /** A JavaScript value as compared with `===`; a `Ref` is an object, equal only to itself. */
  datatype Value = Undefined | Str(s: string) | Ref(address: nat)

  /** The `response` object of an inbound event; the transport itself only reads `videoURL`. */
  datatype Response = Response(videoURL: Value, body: Value)

  /** The fields of a truthy inbound event that the comparators read. */
  datatype EventData = EventData(
    messageType: Option<string>,
    responseMessageType: Option<string>,
    response: Option<Response>)

  /** What the platform hands to `onResponse`: a falsy value, or an event record. */
  datatype Event = Falsy | Message(data: EventData)

  /** The comparator closures that `request` and `subscribe` build. */
  datatype Comparator =
    | ReplyTo(methodName: string)
    | VideoDetailsReply(methodName: string, params: Value)
    | Named(name: string)

  /** What a handler does once its comparator holds. */
  datatype Callback =
    | ResolveRequest   // a request: unsubscribe, then resolve its promise with `response`
    | ForwardResponse  // a subscription: call the subscriber with `response`

  /** One `idHandler` closure of `_queue`; `id` is its identity. */
  datatype Handler = Handler(id: nat, comparator: Comparator, callback: Callback)

  /** The promise returned by `request`, keyed by its handler's id. */
  datatype Slot = Pending | Resolved(value: Option<Response>)

  /** One call of a subscriber's callback, with the `response` it was given. */
  datatype Delivery = Delivery(subscription: nat, value: Option<Response>)

  /** One call of the outbound `sendMessage(method, params)`. */
  datatype Outgoing = Outgoing(methodName: string, params: Value)

  /** The state that dispatching an event reads and writes. */
  datatype Registry = Registry(queue: seq<Handler>, promises: map<nat, Slot>, received: seq<Delivery>)

  /** A registry after dispatch, and whether a subscriber threw and cut the dispatch short. */
  datatype Outcome = Outcome(registry: Registry, aborted: bool)

  /** The comparator's verdict on a truthy event. */
  predicate Compare(c: Comparator, d: EventData) {
    match c
    case ReplyTo(m) => d.responseMessageType == Some(m)
    case VideoDetailsReply(m, p) =>
      d.responseMessageType == Some(m) && d.response.Some? && d.response.value.videoURL == p
    case Named(n) => d.messageType == Some(n) || d.responseMessageType == Some(n)
  }

  /** The comparator `request` registers for `method` called with `params`. */
  function RequestComparator(methodName: string, params: Value): (c: Comparator)
    ensures methodName != VideoDetailsMethod ==>
      forall d :: Compare(c, d) <==> d.responseMessageType == Some(methodName)
    ensures methodName == VideoDetailsMethod ==>
      forall d :: Compare(c, d) <==>
        d.responseMessageType == Some(methodName) && d.response.Some? && d.response.value.videoURL == params
  {
    if methodName == VideoDetailsMethod then VideoDetailsReply(methodName, params) else ReplyTo(methodName)
  }

  /** The comparator `subscribe` registers for a subscription name. */
  function SubscriptionComparator(name: string): (c: Comparator)
    ensures forall d :: Compare(c, d) <==> d.messageType == Some(name) || d.responseMessageType == Some(name)
  {
    Named(name)
  }

  /** Whether a handler's callback runs for an event: the event is truthy and the comparator holds. */
  predicate Fires(h: Handler, e: Event) {
    e.Message? && Compare(h.comparator, e.data)
  }

  predicate NoDup<T(==)>(s: seq<T>) {
    forall i, j :: 0 <= i < j < |s| ==> s[i] != s[j]
  }

  /** The queue after `_queue.delete` of every handler in `gone`, in the set's order. */
  function Without(q: seq<Handler>, gone: set<Handler>): (r: seq<Handler>)
    ensures forall x :: x in r <==> x in q && x !in gone
    ensures NoDup(q) ==> NoDup(r)
  {
    if q == [] then []
    else
      var rest := Without(q[1..], gone);
      assert NoDup(q) ==> q[0] !in q[1..] && NoDup(q[1..]) by {
        if NoDup(q) {
          forall k | 0 <= k < |q[1..]| ensures q[1..][k] != q[0] { assert q[1..][k] == q[k + 1]; }
        }
      }
      if q[0] in gone then rest
      else
        assert NoDup(q) ==> NoDup([q[0]] + rest) by {
          if NoDup(q) {
            forall i, j | 0 <= i < j < |[q[0]] + rest| ensures ([q[0]] + rest)[i] != ([q[0]] + rest)[j] {
              if i > 0 { assert ([q[0]] + rest)[i] == rest[i - 1]; }
              assert ([q[0]] + rest)[j] == rest[j - 1];
              assert rest[j - 1] in rest;
            }
          }
        }
        [q[0]] + rest
  }

  /**
   * The body of one `idHandler` for an event its comparator accepts: a request
   * handler deletes itself from the queue and then resolves its promise; a
   * subscription handler calls the subscriber, which may throw and so abort
   * the dispatch (`failing` names the subscriptions whose callback throws).
   */
  function Deliver(r: Registry, h: Handler, e: Event, failing: set<nat>): Outcome {
    if !Fires(h, e) then Outcome(r, false)
    else match h.callback
      case ResolveRequest =>
        Outcome(r.(queue := Without(r.queue, {h}), promises := r.promises[h.id := Resolved(e.data.response)]), false)
      case ForwardResponse =>
        Outcome(r.(received := r.received + [Delivery(h.id, e.data.response)]), h.id in failing)
  }

  /**
   * `_queue.forEach` over the handlers `hs` that were in the set when dispatch
   * began: a handler already deleted when its turn comes is skipped, as a live
   * `Set` iteration skips it, and an exception ends the iteration.
   */
  function DispatchAll(r: Registry, hs: seq<Handler>, e: Event, failing: set<nat>): Outcome
    decreases |hs|
  {
    if hs == [] then Outcome(r, false)
    else if hs[0] !in r.queue then DispatchAll(r, hs[1..], e, failing)
    else
      var o := Deliver(r, hs[0], e, failing);
      if o.aborted then o else DispatchAll(o.registry, hs[1..], e, failing)
  }

  /** `onResponse(event)`: every handler registered when the event arrives, in insertion order. */
  function Dispatch(r: Registry, e: Event, failing: set<nat>): Outcome {
    DispatchAll(r, r.queue, e, failing)
  }

  /** The request handlers of `hs` that an event resolves. */
  function ResolvedBy(hs: seq<Handler>, e: Event): set<Handler> {
    set h | h in hs && Fires(h, e) && h.callback == ResolveRequest
  }

  /** The subscriber calls an event causes, in the order of `hs`. */
  function Forwarded(hs: seq<Handler>, e: Event): seq<Delivery> {
    if hs == [] then []
    else
      (if Fires(hs[0], e) && hs[0].callback == ForwardResponse then [Delivery(hs[0].id, e.data.response)] else [])
      + Forwarded(hs[1..], e)
  }

  /** Whether some subscriber of `hs` that the event reaches throws. */
  predicate SomeSubscriberThrows(hs: seq<Handler>, e: Event, failing: set<nat>) {
    exists h :: h in hs && Fires(h, e) && h.callback == ForwardResponse && h.id in failing
  }

  /**
   * The transport's invariant: handlers are distinct with distinct ids below
   * `nextId`, and every registered request handler's promise is still pending.
   */
  ghost predicate WellFormed(r: Registry, nextId: nat) {
    && NoDup(r.queue)
    && (forall h :: h in r.queue ==> h.id < nextId)
    && (forall x, y :: x in r.queue && y in r.queue && x.id == y.id ==> x == y)
    && (forall h :: h in r.queue && h.callback == ResolveRequest ==> h.id in r.promises && r.promises[h.id] == Pending)
  }

  lemma WithoutTwice(q: seq<Handler>, a: set<Handler>, b: set<Handler>)
    ensures Without(Without(q, a), b) == Without(q, a + b)
  {
    if q != [] {
      WithoutTwice(q[1..], a, b);
      if q[0] !in a {
        assert Without(q, a)[1..] == Without(q[1..], a);
      }
    }
  }

  /** Unsubscribing the same handler a second time leaves the queue as after the first. */
  lemma {:induction false} UnsubscribeIdempotent(q: seq<Handler>, h: Handler)
    ensures Without(Without(q, {h}), {h}) == Without(q, {h})
    ensures forall x :: x in q && x != h ==> x in Without(q, {h})
    ensures h !in Without(q, {h})
  {
    WithoutTwice(q, {h}, {h});
    assert {h} + {h} == {h};
  }

  /** A falsy event reaches no callback and changes nothing. */
  lemma {:induction false} FalsyEventInvokesNothing(r: Registry, hs: seq<Handler>, failing: set<nat>)
    ensures DispatchAll(r, hs, Falsy, failing) == Outcome(r, false)
    decreases |hs|
  {
    if hs != [] {
      FalsyEventInvokesNothing(r, hs[1..], failing);
    }
  }

  /** Facts about the rest of `hs` once its first handler has been dispatched. */
  lemma TailFacts(r: Registry, hs: seq<Handler>, e: Event, failing: set<nat>)
    requires hs != [] && NoDup(hs)
    requires forall h :: h in hs ==> h in r.queue
    ensures NoDup(hs[1..]) && hs[0] !in hs[1..]
    ensures forall x :: x in hs[1..] ==> x in Without(r.queue, {hs[0]}) && x in r.queue
    ensures !SomeSubscriberThrows(hs, e, failing) ==> !SomeSubscriberThrows(hs[1..], e, failing)
  {
    forall i, j | 0 <= i < j < |hs[1..]| ensures hs[1..][i] != hs[1..][j] {
      assert hs[1..][i] == hs[i + 1] && hs[1..][j] == hs[j + 1];
    }
    forall k | 0 <= k < |hs[1..]| ensures hs[1..][k] != hs[0] { assert hs[1..][k] == hs[k + 1]; }
    forall x | x in hs[1..] ensures x in hs { }
  }

  lemma ResolvedBySplit(hs: seq<Handler>, e: Event)
    requires hs != []
    ensures ResolvedBy(hs, e) ==
      (if Fires(hs[0], e) && hs[0].callback == ResolveRequest then {hs[0]} else {}) + ResolvedBy(hs[1..], e)
  {
    forall x | x in hs && x != hs[0] ensures x in hs[1..] {
      var k :| 0 <= k < |hs| && hs[k] == x;
      assert hs[1..][k - 1] == x;
    }
    forall x | x in hs[1..] ensures x in hs { }
  }

  /** Dispatch with no throwing subscriber runs to the end and removes exactly the resolved requests. */
  lemma {:induction false} DispatchQueue(r: Registry, hs: seq<Handler>, e: Event, failing: set<nat>)
    requires NoDup(hs)
    requires forall h :: h in hs ==> h in r.queue
    requires !SomeSubscriberThrows(hs, e, failing)
    ensures !DispatchAll(r, hs, e, failing).aborted
    ensures DispatchAll(r, hs, e, failing).registry.queue == Without(r.queue, ResolvedBy(hs, e))
    decreases |hs|
  {
    if hs == [] {
      assert ResolvedBy(hs, e) == {};
      WithoutNothing(r.queue);
    } else {
      var h := hs[0];
      TailFacts(r, hs, e, failing);
      ResolvedBySplit(hs, e);
      var o1 := Deliver(r, h, e, failing);
      assert h in hs;
      assert !o1.aborted;
      DispatchQueue(o1.registry, hs[1..], e, failing);
      var first: set<Handler> := if Fires(h, e) && h.callback == ResolveRequest then {h} else {};
      assert o1.registry.queue == Without(r.queue, first) by {
        if first == {} { WithoutNothing(r.queue); }
      }
      WithoutTwice(r.queue, first, ResolvedBy(hs[1..], e));
    }
  }

  /** Delivering to one handler appends to `received` exactly what `Forwarded` records for it. */
  lemma DeliverReceived(r: Registry, h: Handler, e: Event, failing: set<nat>)
    ensures Deliver(r, h, e, failing).registry.received ==
      r.received + (if Fires(h, e) && h.callback == ForwardResponse then [Delivery(h.id, e.data.response)] else [])
    ensures Deliver(r, h, e, failing).registry.queue == r.queue ||
      Deliver(r, h, e, failing).registry.queue == Without(r.queue, {h})
  {
  }

  /**
   * With no throwing subscriber, dispatch over `hs` is the first handler's
   * delivery followed by dispatch over the rest, which again meets the
   * conditions.
   */
  lemma DispatchStep(r: Registry, hs: seq<Handler>, e: Event, failing: set<nat>)
    requires hs != [] && NoDup(hs)
    requires forall h :: h in hs ==> h in r.queue
    requires !SomeSubscriberThrows(hs, e, failing)
    ensures var o1 := Deliver(r, hs[0], e, failing);
      && !o1.aborted
      && DispatchAll(r, hs, e, failing) == DispatchAll(o1.registry, hs[1..], e, failing)
      && NoDup(hs[1..])
      && (forall h :: h in hs[1..] ==> h in o1.registry.queue)
      && !SomeSubscriberThrows(hs[1..], e, failing)
      && o1.registry.received ==
           r.received + (if Fires(hs[0], e) && hs[0].callback == ForwardResponse then [Delivery(hs[0].id, e.data.response)] else [])
  {
    TailFacts(r, hs, e, failing);
    DeliverReceived(r, hs[0], e, failing);
    assert hs[0] in hs;
  }

  /** Dispatch with no throwing subscriber calls every matching subscriber once, in queue order. */
  lemma {:induction false} DispatchReceived(r: Registry, hs: seq<Handler>, e: Event, failing: set<nat>)
    requires NoDup(hs)
    requires forall h :: h in hs ==> h in r.queue
    requires !SomeSubscriberThrows(hs, e, failing)
    ensures DispatchAll(r, hs, e, failing).registry.received == r.received + Forwarded(hs, e)
    decreases |hs|
  {
    if hs != [] {
      var o1 := Deliver(r, hs[0], e, failing);
      var own := if Fires(hs[0], e) && hs[0].callback == ForwardResponse then [Delivery(hs[0].id, e.data.response)] else [];
      DispatchStep(r, hs, e, failing);
      DispatchReceived(o1.registry, hs[1..], e, failing);
      calc {
        DispatchAll(r, hs, e, failing).registry.received;
        DispatchAll(o1.registry, hs[1..], e, failing).registry.received;
        (r.received + own) + Forwarded(hs[1..], e);
        r.received + (own + Forwarded(hs[1..], e));
        r.received + Forwarded(hs, e);
      }
    }
  }

  /** Dispatch with no throwing subscriber resolves every matching request and no other promise. */
  lemma {:induction false} DispatchPromises(r: Registry, hs: seq<Handler>, e: Event, failing: set<nat>)
    requires NoDup(hs)
    requires forall h :: h in hs ==> h in r.queue
    requires !SomeSubscriberThrows(hs, e, failing)
    ensures var p := DispatchAll(r, hs, e, failing).registry.promises;
      forall h :: h in ResolvedBy(hs, e) ==> h.id in p && p[h.id] == Resolved(e.data.response)
    ensures var p := DispatchAll(r, hs, e, failing).registry.promises;
      forall k :: k in r.promises && (forall h :: h in ResolvedBy(hs, e) ==> h.id != k) ==> k in p && p[k] == r.promises[k]
    decreases |hs|
  {
    if hs != [] {
      var h := hs[0];
      TailFacts(r, hs, e, failing);
      ResolvedBySplit(hs, e);
      var o1 := Deliver(r, h, e, failing);
      assert h in hs;
      assert !o1.aborted;
      DispatchPromises(o1.registry, hs[1..], e, failing);
      if Fires(h, e) && h.callback == ResolveRequest {
        DispatchAllKeepsResolved(o1.registry, hs[1..], e, failing, h);
      }
    }
  }

  /** A promise that an event has resolved stays resolved with that response for the rest of the dispatch. */
  lemma {:induction false} DispatchAllKeepsResolved(r: Registry, hs: seq<Handler>, e: Event, failing: set<nat>, h: Handler)
    requires Fires(h, e) && h.callback == ResolveRequest
    requires h.id in r.promises && r.promises[h.id] == Resolved(e.data.response)
    ensures var p := DispatchAll(r, hs, e, failing).registry.promises;
      h.id in p && p[h.id] == Resolved(e.data.response)
    decreases |hs|
  {
    if hs != [] && hs[0] in r.queue {
      var o1 := Deliver(r, hs[0], e, failing);
      if !o1.aborted {
        DispatchAllKeepsResolved(o1.registry, hs[1..], e, failing, h);
      }
    } else if hs != [] {
      DispatchAllKeepsResolved(r, hs[1..], e, failing, h);
    }
  }

  /**
   * Dispatch when no reached subscriber throws: every request handler whose
   * comparator holds is removed and its promise resolved with the event's
   * `response` (all of them, not only the first), every subscriber whose
   * comparator holds is called once with `response` in queue order, and
   * nothing else changes.
   */
  lemma DispatchEffect(r: Registry, e: Event, failing: set<nat>)
    requires NoDup(r.queue)
    requires !SomeSubscriberThrows(r.queue, e, failing)
    ensures var o := Dispatch(r, e, failing);
      && !o.aborted
      && o.registry.queue == Without(r.queue, ResolvedBy(r.queue, e))
      && o.registry.received == r.received + Forwarded(r.queue, e)
      && (forall h :: h in ResolvedBy(r.queue, e) ==> h.id in o.registry.promises && o.registry.promises[h.id] == Resolved(e.data.response))
      && (forall k :: k in r.promises && (forall h :: h in ResolvedBy(r.queue, e) ==> h.id != k) ==>
            k in o.registry.promises && o.registry.promises[k] == r.promises[k])
  {
    DispatchQueue(r, r.queue, e, failing);
    DispatchReceived(r, r.queue, e, failing);
    DispatchPromises(r, r.queue, e, failing);
  }

  lemma WithoutNothing(q: seq<Handler>)
    ensures Without(q, {}) == q
  {
    if q != [] { WithoutNothing(q[1..]); }
  }

  /** Two identical in-flight requests are both resolved by the one event that matches them. */
  lemma {:induction false} IdenticalRequestsResolvedTogether(r: Registry, e: Event, failing: set<nat>, a: Handler, b: Handler)
    requires NoDup(r.queue)
    requires a in r.queue && b in r.queue
    requires a.callback == ResolveRequest && b.callback == ResolveRequest && a.comparator == b.comparator
    requires Fires(a, e)
    requires !SomeSubscriberThrows(r.queue, e, failing)
    ensures var o := Dispatch(r, e, failing);
      && a.id in o.registry.promises && o.registry.promises[a.id] == Resolved(e.data.response)
      && b.id in o.registry.promises && o.registry.promises[b.id] == Resolved(e.data.response)
      && a !in o.registry.queue && b !in o.registry.queue
  {
    DispatchEffect(r, e, failing);
    assert a in ResolvedBy(r.queue, e) && b in ResolvedBy(r.queue, e);
  }

  /** Dispatching over `a + b` is dispatching over `a`, then, unless that threw, over `b`. */
  lemma {:induction false} DispatchAllAppend(r: Registry, a: seq<Handler>, b: seq<Handler>, e: Event, failing: set<nat>)
    ensures DispatchAll(r, a + b, e, failing) ==
      var o := DispatchAll(r, a, e, failing);
      if o.aborted then o else DispatchAll(o.registry, b, e, failing)
    decreases |a|
  {
    if a == [] {
      assert a + b == b;
    } else {
      assert (a + b)[0] == a[0] && (a + b)[1..] == a[1..] + b;
      if a[0] !in r.queue {
        DispatchAllAppend(r, a[1..], b, e, failing);
      } else {
        var o1 := Deliver(r, a[0], e, failing);
        if !o1.aborted {
          DispatchAllAppend(o1.registry, a[1..], b, e, failing);
        }
      }
    }
  }

  lemma {:induction false} ForwardedAppend(a: seq<Handler>, b: seq<Handler>, e: Event)
    ensures Forwarded(a + b, e) == Forwarded(a, e) + Forwarded(b, e)
    decreases |a|
  {
    if a == [] {
      assert a + b == b;
    } else {
      assert (a + b)[0] == a[0] && (a + b)[1..] == a[1..] + b;
      ForwardedAppend(a[1..], b, e);
    }
  }

  /**
   * A throwing subscriber ends the dispatch: the handlers after it in the
   * queue are not called, so the calls made are exactly those of the handlers
   * up to and including it.
   */
  lemma {:induction false} ThrowingSubscriberAborts(r: Registry, hs: seq<Handler>, e: Event, failing: set<nat>, j: nat)
    requires NoDup(hs)
    requires forall h :: h in hs ==> h in r.queue
    requires j < |hs| && Fires(hs[j], e) && hs[j].callback == ForwardResponse && hs[j].id in failing
    requires !SomeSubscriberThrows(hs[..j], e, failing)
    ensures var o := DispatchAll(r, hs, e, failing);
      && o.aborted
      && o.registry.received == r.received + Forwarded(hs[..j + 1], e)
      && o.registry.queue == Without(r.queue, ResolvedBy(hs[..j], e))
  {
    var pre, h, post := hs[..j], hs[j], hs[j + 1..];
    assert hs == pre + ([h] + post);
    assert NoDup(pre) && h !in pre by {
      forall x | x in pre ensures x != h {
        var k :| 0 <= k < j && pre[k] == x;
        assert hs[k] == x;
      }
    }
    DispatchQueue(r, pre, e, failing);
    DispatchReceived(r, pre, e, failing);
    var o := DispatchAll(r, pre, e, failing);
    assert h in o.registry.queue;
    DispatchAllAppend(r, pre, [h] + post, e, failing);
    assert ([h] + post)[0] == h;
    assert hs[..j + 1] == pre + [h];
    ForwardedAppend(pre, [h], e);
    assert Forwarded([h], e) == [Delivery(h.id, e.data.response)] by { assert [h][1..] == []; }
  }

  /** A subscription stays registered across any event. */
  lemma {:induction false} SubscriptionPersists(r: Registry, hs: seq<Handler>, e: Event, failing: set<nat>, s: Handler)
    requires s in r.queue && s.callback == ForwardResponse
    ensures s in DispatchAll(r, hs, e, failing).registry.queue
    decreases |hs|
  {
    if hs != [] && hs[0] in r.queue {
      var o1 := Deliver(r, hs[0], e, failing);
      if !o1.aborted {
        SubscriptionPersists(o1.registry, hs[1..], e, failing, s);
      }
    } else if hs != [] {
      SubscriptionPersists(r, hs[1..], e, failing, s);
    }
  }

  /**
   * Once no registered request handler carries id `k` (a resolved request has
   * removed its own handler), no later event changes promise `k`.
   */
  lemma {:induction false} SettledPromiseIsFinal(r: Registry, hs: seq<Handler>, e: Event, failing: set<nat>, k: nat)
    requires forall h :: h in r.queue && h.callback == ResolveRequest ==> h.id != k
    ensures var o := DispatchAll(r, hs, e, failing);
      (k in o.registry.promises <==> k in r.promises)
      && (k in r.promises ==> o.registry.promises[k] == r.promises[k])
    decreases |hs|
  {
    if hs != [] && hs[0] in r.queue {
      var o1 := Deliver(r, hs[0], e, failing);
      if !o1.aborted {
        SettledPromiseIsFinal(o1.registry, hs[1..], e, failing, k);
      }
    } else if hs != [] {
      SettledPromiseIsFinal(r, hs[1..], e, failing, k);
    }
  }

  /** A request, once resolved, is resolved once: a second matching event leaves its promise as it was. */
  lemma {:induction false} RequestResolvesOnce(r: Registry, nextId: nat, e: Event, failing: set<nat>, k: nat)
    requires WellFormed(r, nextId)
    requires k in r.promises && r.promises[k].Resolved?
    ensures k in Dispatch(r, e, failing).registry.promises
    ensures Dispatch(r, e, failing).registry.promises[k] == r.promises[k]
  {
    SettledPromiseIsFinal(r, r.queue, e, failing, k);
  }

  /** Dispatch keeps the transport's invariant, whether or not it is cut short. */
  lemma {:induction false} DispatchKeepsWellFormed(r: Registry, nextId: nat, hs: seq<Handler>, e: Event, failing: set<nat>)
    requires WellFormed(r, nextId)
    ensures WellFormed(DispatchAll(r, hs, e, failing).registry, nextId)
    decreases |hs|
  {
    if hs != [] && hs[0] in r.queue {
      var h := hs[0];
      var o1 := Deliver(r, h, e, failing);
      if Fires(h, e) && h.callback == ResolveRequest {
        var r1 := o1.registry;
        forall x | x in r1.queue && x.callback == ResolveRequest
          ensures x.id in r1.promises && r1.promises[x.id] == Pending
        {
          assert x in r.queue && x != h;
          assert x.id != h.id;
        }
      }
      assert WellFormed(o1.registry, nextId);
      if !o1.aborted {
        DispatchKeepsWellFormed(o1.registry, nextId, hs[1..], e, failing);
      }
    } else if hs != [] {
      DispatchKeepsWellFormed(r, nextId, hs[1..], e, failing);
    }
  }

  /** `SendMessageMessagingTransport`: the handler set plus the promises and calls it produces. */
  class Transport {
    /** `_queue`, in insertion order. */
    var queue: seq<Handler>
    /** The promises returned by `request`, by handler id. */
    var promises: map<nat, Slot>
    /** Every call of a subscriber's callback so far. */
    var received: seq<Delivery>
    /** Every `sendMessage` call so far. */
    var outbox: seq<Outgoing>
    /** The identity the next handler closure gets. */
    var nextId: nat

    function State(): Registry
      reads this
    {
      Registry(queue, promises, received)
    }

    ghost predicate Valid()
      reads this
    {
      WellFormed(State(), nextId)
    }

    constructor ()
      ensures Valid()
      ensures queue == [] && promises == map[] && received == [] && outbox == []
    {
      queue, promises, received, outbox, nextId := [], map[], [], [], 0;
    }

    /**
     * `_subscribe(comparator, callback)`: adds a fresh handler and returns it
     * as the token its remover deletes.
     */
    method Register(c: Comparator, cb: Callback) returns (h: Handler)
      requires Valid()
      requires cb == ResolveRequest ==> nextId in promises && promises[nextId] == Pending
      modifies this
      ensures Valid()
      ensures h == Handler(old(nextId), c, cb) && h !in old(queue)
      ensures queue == old(queue) + [h] && nextId == old(nextId) + 1
      ensures promises == old(promises) && received == old(received) && outbox == old(outbox)
    {
      h := Handler(nextId, c, cb);
      assert h !in queue;
      queue := queue + [h];
      nextId := nextId + 1;
    }

    /** The remover `_subscribe` returns: deletes its own handler if it is still registered. */
    method Unsubscribe(h: Handler)
      requires Valid()
      modifies this
      ensures Valid()
      ensures queue == Without(old(queue), {h})
      ensures promises == old(promises) && received == old(received) && outbox == old(outbox) && nextId == old(nextId)
    {
      queue := Without(queue, {h});
    }

    /** `notify`: one outbound message, no handler. */
    method Notify(methodName: string, params: Value)
      requires Valid()
      modifies this
      ensures Valid()
      ensures outbox == old(outbox) + [Outgoing(methodName, params)]
      ensures queue == old(queue) && promises == old(promises) && received == old(received) && nextId == old(nextId)
    {
      outbox := outbox + [Outgoing(methodName, params)];
    }

    /**
     * `request`: sends the message, then registers a one-shot handler for its
     * reply; `h.id` names the returned promise, pending until a reply arrives.
     */
    method Request(methodName: string, params: Value) returns (h: Handler)
      requires Valid()
      modifies this
      ensures Valid()
      ensures outbox == old(outbox) + [Outgoing(methodName, params)]
      ensures h == Handler(old(nextId), RequestComparator(methodName, params), ResolveRequest)
      ensures queue == old(queue) + [h] && promises == old(promises)[h.id := Pending]
      ensures received == old(received) && nextId == old(nextId) + 1
    {
      outbox := outbox + [Outgoing(methodName, params)];
      promises := promises[nextId := Pending];
      h := Register(RequestComparator(methodName, params), ResolveRequest);
    }

    /** `subscribe`: registers a persistent handler that forwards `response` to the subscriber `h.id`. */
    method Subscribe(name: string) returns (h: Handler)
      requires Valid()
      modifies this
      ensures Valid()
      ensures h == Handler(old(nextId), SubscriptionComparator(name), ForwardResponse)
      ensures queue == old(queue) + [h] && nextId == old(nextId) + 1
      ensures promises == old(promises) && received == old(received) && outbox == old(outbox)
    {
      h := Register(SubscriptionComparator(name), ForwardResponse);
    }

    /** One handler still in the set run on the event. */
    method DeliverTo(h: Handler, e: Event, failing: set<nat>) returns (aborted: bool)
      requires h in queue
      modifies this
      ensures Outcome(State(), aborted) == Deliver(old(State()), h, e, failing)
      ensures outbox == old(outbox) && nextId == old(nextId)
    {
      aborted := false;
      if e.Message? && Compare(h.comparator, e.data) {
        match h.callback
        case ResolveRequest =>
          queue := Without(queue, {h});
          promises := promises[h.id := Resolved(e.data.response)];
        case ForwardResponse =>
          received := received + [Delivery(h.id, e.data.response)];
          aborted := h.id in failing;
      }
    }

    /**
     * `onResponse(event)`: runs every handler of the set on the event; a
     * subscriber in `failing` throws, which ends the loop (`aborted`).
     */
    method OnResponse(e: Event, failing: set<nat>) returns (aborted: bool)
      requires Valid()
      modifies this
      ensures Valid()
      ensures Outcome(State(), aborted) == Dispatch(old(State()), e, failing)
      ensures outbox == old(outbox) && nextId == old(nextId)
    {
      var hs := queue;
      var i := 0;
      aborted := false;
      while i < |hs| && !aborted
        invariant 0 <= i <= |hs|
        invariant outbox == old(outbox) && nextId == old(nextId)
        invariant WellFormed(State(), nextId)
        invariant aborted ==> Outcome(State(), true) == Dispatch(old(State()), e, failing)
        invariant !aborted ==> DispatchAll(State(), hs[i..], e, failing) == Dispatch(old(State()), e, failing)
      {
        var h := hs[i];
        assert hs[i..][0] == h && hs[i..][1..] == hs[i + 1..];
        ghost var before := State();
        DispatchKeepsWellFormed(before, nextId, [h], e, failing);
        if h in queue {
          aborted := DeliverTo(h, e, failing);
        }
        i := i + 1;
      }
    }
  }
}

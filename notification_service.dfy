/**
 The client-side notification hub: one socket, a registry from event name to
 the set of callbacks subscribed to it, and a connection flag that the
 socket's lifecycle handlers keep up to date.

 The socket itself is a foreign library; the model records every call made on
 it in the ghost call log `log`, and assumes nothing about what the socket
 does with a call (in particular, not how it treats a second `on` for a
 callback it already holds).
 */
module Notifications {

  /** The event catalog shared with the server. */
  datatype Event =
    | NewReview
    | ReviewUpdated
    | ReviewDeleted
    | ProductCreated
    | ProductUpdated
    | ProductDeleted

  /** The wire name of each event. */
  function Name(e: Event): string
  {
    match e
    case NewReview => "new-review"
    case ReviewUpdated => "review_updated"
    case ReviewDeleted => "review_deleted"
    case ProductCreated => "product:created"
    case ProductUpdated => "product:updated"
    case ProductDeleted => "product:deleted"
  }

  /** No two events of the catalog share a wire name. */
  lemma NameInjective(e1: Event, e2: Event)
    ensures Name(e1) == Name(e2) ==> e1 == e2
  {
  }

  datatype Option<T> = None | Some(value: T)

  /**
   The catalog event a wire name stands for, if any: `unsubscribeFrom` is
   public and may be called with any name.
   */
  function EventOf(name: string): (r: Option<Event>)
    ensures r.Some? ==> Name(r.value) == name
    ensures r.None? ==> forall e :: Name(e) != name
  {
    if name == "new-review" then Some(NewReview)
    else if name == "review_updated" then Some(ReviewUpdated)
    else if name == "review_deleted" then Some(ReviewDeleted)
    else if name == "product:created" then Some(ProductCreated)
    else if name == "product:updated" then Some(ProductUpdated)
    else if name == "product:deleted" then Some(ProductDeleted)
    else None
  }

  /** Reading back the wire name of a catalog event gives that event. */
  lemma EventOfName(e: Event)
    ensures EventOf(Name(e)) == Some(e)
  {
    NameInjective(EventOf(Name(e)).value, e);
  }

  /** A callback, known only by its identity (JavaScript compares functions by reference). */
  datatype Callback = Callback(id: nat)

  /** The socket's own lifecycle events, watched by the constructor. */
  datatype Lifecycle = Connect | Disconnect | ConnectError

  /** The two room control messages. */
  datatype RoomMessage = Join | Leave

  /** One call on the socket. */
  datatype SocketCall =
    | Open(url: string)               // io(baseUrl, options)
    | Watch(lifecycle: Lifecycle)     // socket.on(<lifecycle event>, <internal handler>)
    | On(event: Event, callback: Callback)
    | Off(event: Event, callback: Callback)
    | Emit(message: RoomMessage, roomId: string)
    | Close                           // socket.disconnect()

  /** The closure returned by `addListener`, as the pair it closes over. */
  datatype Unsubscriber = Unsubscriber(event: Event, callback: Callback)

  /** The `listeners` Map: event name to the Set of callbacks registered for it. */
  type Registry = map<Event, set<Callback>>

  predicate Registered(m: Registry, e: Event, cb: Callback)
  {
    e in m && cb in m[e]
  }

  /** JavaScript truthiness of a room id: the empty string is falsy. */
  predicate Truthy(roomId: string)
  {
    roomId != ""
  }

  /**
   The registry after `addListener(e, cb)`: the set for `e` is created if
   missing, then `cb` is added to it.
   */
  function Register(m: Registry, e: Event, cb: Callback): (r: Registry)
    ensures Registered(r, e, cb)
    ensures r.Keys == m.Keys + {e}
    ensures forall c :: Registered(r, e, c) <==> Registered(m, e, c) || c == cb
    ensures forall e' :: e' in m && e' != e ==> r[e'] == m[e']
    ensures Registered(m, e, cb) ==> r == m
  {
    var r := m[e := (if e in m then m[e] else {}) + {cb}];
    assert Registered(m, e, cb) ==> r[e] == m[e];
    r
  }

  /**
   The registry after `unsubscribeFrom(e, cb)`: `cb` leaves the set for `e`
   if it was there (the possibly empty set stays in the map); otherwise
   nothing changes.
   */
  function Unregister(m: Registry, e: Event, cb: Callback): (r: Registry)
    ensures !Registered(r, e, cb)
    ensures r.Keys == m.Keys
    ensures forall c :: c != cb ==> (Registered(r, e, c) <==> Registered(m, e, c))
    ensures forall e' :: e' in m && e' != e ==> r[e'] == m[e']
    ensures !Registered(m, e, cb) ==> r == m
  {
    if Registered(m, e, cb) then m[e := m[e] - {cb}] else m
  }

  /** Registering a pair twice is registering it once: a Set holds each callback once. */
  lemma RegisterIdempotent(m: Registry, e: Event, cb: Callback)
    ensures Register(Register(m, e, cb), e, cb) == Register(m, e, cb)
  {
  }

  /** Unsubscribing twice is unsubscribing once. */
  lemma UnregisterIdempotent(m: Registry, e: Event, cb: Callback)
    ensures Unregister(Unregister(m, e, cb), e, cb) == Unregister(m, e, cb)
  {
  }

  /** Subscribing and then unsubscribing leaves the pair unregistered and every other pair as it was. */
  lemma RegisterThenUnregister(m: Registry, e: Event, cb: Callback)
    ensures var r := Unregister(Register(m, e, cb), e, cb);
      !Registered(r, e, cb)
      && (forall e', c :: (e', c) != (e, cb) ==> (Registered(r, e', c) <==> Registered(m, e', c)))
  {
  }

  /** Every (event, callback) pair stored in a registry. */
  ghost function Pairs(m: Registry): set<(Event, Callback)>
  {
    set e, c | e in m && c in m[e] :: (e, c)
  }

  /** The pairs contributed by one event's set. */
  ghost function KeyPairs(e: Event, cs: set<Callback>): set<(Event, Callback)>
  {
    set c | c in cs :: (e, c)
  }

  /** Removing one event from the registry removes exactly the pairs of its set. */
  lemma PairsWithout(m: Registry, e: Event)
    requires e in m
    ensures KeyPairs(e, m[e]) <= Pairs(m)
    ensures Pairs(m - {e}) == Pairs(m) - KeyPairs(e, m[e])
  {
  }

  /** No element occurs twice in `s`. */
  ghost predicate Distinct<T>(s: seq<T>)
  {
    forall i, j :: 0 <= i < j < |s| ==> s[i] != s[j]
  }

  /** The elements of `s`, forgetting order and position. */
  ghost function Elements<T>(s: seq<T>): set<T>
  {
    set x | x in s
  }

  /** A sequence without repetitions has as many distinct elements as positions. */
  lemma {:induction false} DistinctCardinality<T>(s: seq<T>)
    requires Distinct(s)
    ensures |Elements(s)| == |s|
  {
    if s != [] {
      var t := s[..|s| - 1];
      assert Distinct(t);
      DistinctCardinality(t);
      assert s == t + [s[|s| - 1]];
      assert Elements(s) == Elements(t) + {s[|s| - 1]};
      assert s[|s| - 1] !in Elements(t);
    }
  }

  /** Every pair of a sub-registry is a pair of the registry. */
  lemma PairsSubmap(small: Registry, big: Registry)
    requires small.Keys <= big.Keys
    requires forall k :: k in small ==> small[k] == big[k]
    ensures Pairs(small) <= Pairs(big)
  {
  }

  /**
   Progress of the outer `forEach` of `disconnect` over registry `m`: `rest`
   holds the events not yet visited, with their sets, and `sent` lists, once
   each, the pairs of the events already visited.
   */
  ghost predicate Progress(m: Registry, rest: Registry, sent: seq<(Event, Callback)>)
  {
    && rest.Keys <= m.Keys
    && (forall k :: k in rest ==> rest[k] == m[k])
    && Elements(sent) == Pairs(m) - Pairs(rest)
    && Distinct(sent)
  }

  /** The outer step of `disconnect`: visiting event `e` turns off exactly the pairs of its set. */
  lemma VisitEvent(m: Registry, rest: Registry, sent: seq<(Event, Callback)>, e: Event, more: seq<(Event, Callback)>)
    requires Progress(m, rest, sent)
    requires e in rest
    requires Distinct(more) && Elements(more) == KeyPairs(e, rest[e])
    ensures Progress(m, rest - {e}, sent + more)
  {
    PairsWithout(rest, e);
    PairsSubmap(rest, m);
    SendMore(sent, more);
  }

  /** When every event has been visited, every stored pair was turned off once. */
  lemma VisitedAll(m: Registry, rest: Registry, sent: seq<(Event, Callback)>)
    requires Progress(m, rest, sent)
    requires rest.Keys == {}
    ensures Distinct(sent) && Elements(sent) == Pairs(m)
  {
  }

  /** The inner step of `disconnect`: turning off one more callback of the event's set. */
  lemma SendOne(sent: seq<(Event, Callback)>, e: Event, callbacks: set<Callback>, pending: set<Callback>, cb: Callback)
    requires cb in pending && pending <= callbacks
    requires Elements(sent) == KeyPairs(e, callbacks - pending)
    requires Distinct(sent)
    ensures Elements(sent + [(e, cb)]) == KeyPairs(e, callbacks - (pending - {cb}))
    ensures Distinct(sent + [(e, cb)])
  {
    assert (e, cb) !in Elements(sent);
    assert KeyPairs(e, callbacks - (pending - {cb})) == KeyPairs(e, callbacks - pending) + {(e, cb)};
    assert Elements(sent + [(e, cb)]) == Elements(sent) + {(e, cb)};
  }

  /** Joining the pairs turned off so far with those of one more event. */
  lemma SendMore(sent: seq<(Event, Callback)>, more: seq<(Event, Callback)>)
    requires Distinct(sent) && Distinct(more)
    requires Elements(sent) !! Elements(more)
    ensures Distinct(sent + more)
    ensures Elements(sent + more) == Elements(sent) + Elements(more)
  {
    var s := sent + more;
    forall i, j | 0 <= i < j < |s| ensures s[i] != s[j] {
      if i < |sent| && j >= |sent| {
        assert s[i] in Elements(sent) && s[j] in Elements(more);
      }
    }
  }

  /** The `off` calls for a sequence of pairs, in that order. */
  function OffCalls(ps: seq<(Event, Callback)>): seq<SocketCall>
  {
    seq(|ps|, i requires 0 <= i < |ps| => Off(ps[i].0, ps[i].1))
  }

  /** The `off` calls of two runs, one after the other. */
  lemma OffCallsAppend(ps: seq<(Event, Callback)>, qs: seq<(Event, Callback)>)
    ensures OffCalls(ps + qs) == OffCalls(ps) + OffCalls(qs)
  {
  }

  /** The calls the constructor makes on a new socket: it is opened first, then each lifecycle event is watched once. */
  function Startup(baseUrl: string): (r: seq<SocketCall>)
    ensures |r| == 4 && r[0] == Open(baseUrl)
    ensures Watch(Connect) in r[1..] && Watch(Disconnect) in r[1..] && Watch(ConnectError) in r[1..]
  {
    [Open(baseUrl), Watch(Connect), Watch(Disconnect), Watch(ConnectError)]
  }

  class NotificationService {
    var listeners: Registry
    var connected: bool
    ghost var log: seq<SocketCall>

    /** Opens the socket and watches its three lifecycle events; no subscriptions, not connected. */
    constructor (baseUrl: string)
      ensures listeners == map[] && !connected
      ensures log == Startup(baseUrl)
    {
      listeners := map[];
      connected := false;
      log := Startup(baseUrl);
    }

    /** The socket's `connect` handler. */
    method HandleConnect()
      modifies this`connected
      ensures connected
      ensures listeners == old(listeners) && log == old(log)
    {
      connected := true;
    }

    /** The socket's `disconnect` handler: subscriptions survive a lost connection. */
    method HandleDisconnect(reason: string)
      modifies this`connected
      ensures !connected
      ensures listeners == old(listeners) && log == old(log)
    {
      connected := false;
    }

    /** The socket's `connect_error` handler. */
    method HandleConnectError(error: string)
      modifies this`connected
      ensures !connected
      ensures listeners == old(listeners) && log == old(log)
    {
      connected := false;
    }

    method IsConnected() returns (c: bool)
      ensures c == connected
    {
      c := connected;
    }

    /**
     Records `cb` for `e` and registers it with the socket; the `on` call is
     made even when the set already held `cb`.
     */
    method AddListener(e: Event, cb: Callback) returns (u: Unsubscriber)
      modifies this`listeners, this`log
      ensures listeners == Register(old(listeners), e, cb)
      ensures log == old(log) + [On(e, cb)]
      ensures connected == old(connected)
      ensures u == Unsubscriber(e, cb)
    {
      if e !in listeners {
        listeners := listeners[e := {}];
      }
      listeners := listeners[e := listeners[e] + {cb}];
      log := log + [On(e, cb)];
      u := Unsubscriber(e, cb);
    }

    method SubscribeToProductCreated(cb: Callback)
      modifies this`listeners, this`log
      ensures listeners == Register(old(listeners), ProductCreated, cb)
      ensures log == old(log) + [On(ProductCreated, cb)]
    {
      var _ := AddListener(ProductCreated, cb);
    }

    method SubscribeToProductUpdated(cb: Callback)
      modifies this`listeners, this`log
      ensures listeners == Register(old(listeners), ProductUpdated, cb)
      ensures log == old(log) + [On(ProductUpdated, cb)]
    {
      var _ := AddListener(ProductUpdated, cb);
    }

    method SubscribeToProductDeleted(cb: Callback)
      modifies this`listeners, this`log
      ensures listeners == Register(old(listeners), ProductDeleted, cb)
      ensures log == old(log) + [On(ProductDeleted, cb)]
    {
      var _ := AddListener(ProductDeleted, cb);
    }

    method SubscribeToNewReview(cb: Callback)
      modifies this`listeners, this`log
      ensures listeners == Register(old(listeners), NewReview, cb)
      ensures log == old(log) + [On(NewReview, cb)]
    {
      var _ := AddListener(NewReview, cb);
    }

    method SubscribeToReviewUpdated(cb: Callback)
      modifies this`listeners, this`log
      ensures listeners == Register(old(listeners), ReviewUpdated, cb)
      ensures log == old(log) + [On(ReviewUpdated, cb)]
    {
      var _ := AddListener(ReviewUpdated, cb);
    }

    method SubscribeToReviewDeleted(cb: Callback)
      modifies this`listeners, this`log
      ensures listeners == Register(old(listeners), ReviewDeleted, cb)
      ensures log == old(log) + [On(ReviewDeleted, cb)]
    {
      var _ := AddListener(ReviewDeleted, cb);
    }

    /**
     Removes `cb` from the set stored under the event called `name`; `off` is
     called exactly when it was there. A name outside the catalog is never a
     key of the registry (only `addListener` adds keys, always catalog
     events), so for it nothing happens.
     */
    method UnsubscribeFrom(name: string, cb: Callback)
      modifies this`listeners, this`log
      ensures EventOf(name).None? ==> listeners == old(listeners) && log == old(log)
      ensures EventOf(name).Some? ==>
        var e := EventOf(name).value;
        && listeners == Unregister(old(listeners), e, cb)
        && log == old(log) + if Registered(old(listeners), e, cb) then [Off(e, cb)] else []
      ensures connected == old(connected)
    {
      var event := EventOf(name);
      if event.Some? && event.value in listeners {
        var e := event.value;
        var callbacks := listeners[e];
        if cb in callbacks {
          listeners := listeners[e := callbacks - {cb}];
          log := log + [Off(e, cb)];
        }
      }
    }

    /** Invoking the function `addListener` returned: `unsubscribeFrom` on the captured pair. */
    method CallUnsubscriber(u: Unsubscriber)
      modifies this`listeners, this`log
      ensures listeners == Unregister(old(listeners), u.event, u.callback)
      ensures log == old(log) + if Registered(old(listeners), u.event, u.callback) then [Off(u.event, u.callback)] else []
    {
      EventOfName(u.event);
      UnsubscribeFrom(Name(u.event), u.callback);
    }

    /** Emits `join` only while connected and for a truthy room id. */
    method JoinRoom(roomId: string)
      modifies this`log
      ensures log == old(log) + if connected && Truthy(roomId) then [Emit(Join, roomId)] else []
      ensures listeners == old(listeners) && connected == old(connected)
    {
      if connected && Truthy(roomId) {
        log := log + [Emit(Join, roomId)];
      }
    }

    /** Emits `leave` only while connected and for a truthy room id. */
    method LeaveRoom(roomId: string)
      modifies this`log
      ensures log == old(log) + if connected && Truthy(roomId) then [Emit(Leave, roomId)] else []
      ensures listeners == old(listeners) && connected == old(connected)
    {
      if connected && Truthy(roomId) {
        log := log + [Emit(Leave, roomId)];
      }
    }

    /** The inner `forEach` of `disconnect`: one `off` for each callback of one event's set. */
    method OffEach(e: Event, callbacks: set<Callback>) returns (ghost sent: seq<(Event, Callback)>)
      modifies this`log
      ensures Distinct(sent) && Elements(sent) == KeyPairs(e, callbacks)
      ensures log == old(log) + OffCalls(sent)
    {
      var pending := callbacks;
      sent := [];
      while pending != {}
        invariant pending <= callbacks
        invariant Elements(sent) == KeyPairs(e, callbacks - pending)
        invariant Distinct(sent)
        invariant log == old(log) + OffCalls(sent)
        decreases pending
      {
        var cb :| cb in pending;
        SendOne(sent, e, callbacks, pending, cb);
        OffCallsAppend(sent, [(e, cb)]);
        log := log + [Off(e, cb)];
        sent := sent + [(e, cb)];
        pending := pending - {cb};
      }
    }

    /** The outer `forEach` of `disconnect`: one `off` for each pair stored in `all`. */
    method OffAll(all: Registry) returns (ghost sent: seq<(Event, Callback)>)
      modifies this`log
      ensures Distinct(sent) && Elements(sent) == Pairs(all)
      ensures log == old(log) + OffCalls(sent)
    {
      var rest := all;
      sent := [];
      while rest.Keys != {}
        invariant Progress(all, rest, sent)
        invariant log == old(log) + OffCalls(sent)
        decreases rest.Keys
      {
        var e :| e in rest;
        ghost var more := OffEach(e, rest[e]);
        VisitEvent(all, rest, sent, e, more);
        OffCallsAppend(sent, more);
        sent := sent + more;
        rest := rest - {e};
      }
      VisitedAll(all, rest, sent);
    }

    /**
     Calls `off` once for every stored pair (`sent` is the order in which it
     did so), then clears the registry, closes the socket and drops the flag.
     */
    method Disconnect() returns (ghost sent: seq<(Event, Callback)>)
      modifies this`listeners, this`log, this`connected
      ensures listeners == map[] && !connected
      ensures Distinct(sent) && Elements(sent) == Pairs(old(listeners))
      ensures |sent| == |Pairs(old(listeners))|
      ensures log == old(log) + OffCalls(sent) + [Close]
    {
      sent := OffAll(listeners);
      DistinctCardinality(sent);
      listeners := map[];
      log := log + [Close];
      connected := false;
    }
  }

  /**
   The teardown is safe to repeat: on an empty registry it makes no `off`
   call and only closes the socket again.
   */
  method DisconnectTwice(s: NotificationService)
    modifies s
    ensures s.listeners == map[] && !s.connected
    ensures exists sent :: (s.log == old(s.log) + OffCalls(sent) + [Close, Close]
                            && Elements(sent) == Pairs(old(s.listeners)))
  {
    ghost var first := s.Disconnect();
    ghost var second := s.Disconnect();
    assert Pairs(map[]) == {};
    assert |second| == 0;
    assert s.log == old(s.log) + OffCalls(first) + [Close] + [Close];
  }

  /** Unsubscribing twice has the effect of unsubscribing once, on the registry and on the socket. */
  method UnsubscribeTwice(s: NotificationService, name: string, cb: Callback)
    modifies s
    ensures EventOf(name).None? ==> s.listeners == old(s.listeners) && s.log == old(s.log)
    ensures EventOf(name).Some? ==>
      var e := EventOf(name).value;
      && s.listeners == Unregister(old(s.listeners), e, cb)
      && s.log == old(s.log) + if Registered(old(s.listeners), e, cb) then [Off(e, cb)] else []
    ensures s.connected == old(s.connected)
  {
    s.UnsubscribeFrom(name, cb);
    s.UnsubscribeFrom(name, cb);
  }
}

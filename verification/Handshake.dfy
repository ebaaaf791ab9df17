/** The subscription handshake between one client and its broker: handler
    table, control queue, socket, swallowed first message, RESET and resubscribe. */
module Handshake {
  import opened Messages
  import B = BrokerStep

  /** What the client puts on its socket, as far as subscriptions are concerned. */
  datatype Request = Sub(t: string) | Unsub(t: string) | Other

  datatype Reply = Reset | Ack | Plain

  /** `control` is the worker's control queue, `wire` its socket, `back` the way
      back, `inbox` the queue of the processing thread; `topics` is what the
      broker holds for this client.  `wasOffline` and `ledger` are history, both the
      client's own: whether it ever dropped to OFFLINE, and the topics whose last
      queued control message was SUBSCRIBE. */
  datatype Sys = Sys(
    handlers: map<string, seq<int>>,
    connected: bool,
    control: seq<Request>,
    wire: seq<Request>,
    known: bool,
    topics: set<string>,
    back: seq<Reply>,
    inbox: seq<Reply>,
    wasOffline: bool,
    ledger: set<string>)

  const INITIAL: Sys := Sys(map[], false, [], [], false, {}, [], [], false, {})

  // ---- the handler table

  function Registered(h: map<string, seq<int>>, key: string, instance: int): (r: map<string, seq<int>>)
  {
    h[key := (if key in h then h[key] else []) + [instance]]
  }

  function Without(v: seq<int>, instance: int): (r: seq<int>)
    ensures instance !in r
    ensures forall x :: x in r <==> x in v && x != instance
    ensures instance !in v ==> r == v
  {
    if v == [] then []
    else
      var rest := Without(v[1..], instance);
      assert v == [v[0]] + v[1..];
      if v[0] == instance then rest else [v[0]] + rest
  }

  function Unregistered(h: map<string, seq<int>>, key: string, instance: int): (r: map<string, seq<int>>)
  {
    if key !in h then h
    else
      var left := Without(h[key], instance);
      if left == [] then h - {key} else h[key := left]
  }

  lemma {:induction false} WithoutConcat(v: seq<int>, w: seq<int>, instance: int)
    ensures Without(v + w, instance) == Without(v, instance) + Without(w, instance)
  {
    if v == [] {
      assert v + w == w;
    } else {
      assert (v + w)[1..] == v[1..] + w;
      WithoutConcat(v[1..], w, instance);
    }
  }

  /** A request registers its private reply handler and takes it back: the table is as before. */
  lemma RegisterUndone(h: map<string, seq<int>>, key: string, instance: int)
    requires forall k | k in h :: h[k] != []
    requires key in h ==> instance !in h[key]
    ensures Unregistered(Registered(h, key, instance), key, instance) == h
  {
    var v := if key in h then h[key] else [];
    WithoutConcat(v, [instance], instance);
    assert Without([instance], instance) == [];
    assert Without(v, instance) + [] == v;
  }

  // ---- requests leave no trace

  /** The handler table after the registrations and unregistrations of a run. */
  function Table(h: map<string, seq<int>>, events: seq<Event>): (r: map<string, seq<int>>)
    decreases |events|
  {
    if events == [] then h
    else
      var next := match events[0]
        case Register(key, instance) => Registered(h, key, instance)
        case Unregister(key, instance) => Unregistered(h, key, instance)
        case _ => h;
      Table(next, events[1..])
  }

  predicate NonEmpty(h: map<string, seq<int>>)
  {
    forall k | k in h :: h[k] != []
  }

  function HandlersOf(h: map<string, seq<int>>, k: string): (r: seq<int>)
  {
    if k in h then h[k] else []
  }

  /** The table with every entry of one instance taken out. */
  function Stripped(h: map<string, seq<int>>, instance: int): (r: map<string, seq<int>>)
  {
    map k | k in h && Without(h[k], instance) != [] :: Without(h[k], instance)
  }

  lemma SameTable(a: map<string, seq<int>>, b: map<string, seq<int>>)
    requires NonEmpty(a) && NonEmpty(b) && forall k :: HandlersOf(a, k) == HandlersOf(b, k)
    ensures a == b
  {
    assert forall k :: k in a <==> HandlersOf(a, k) != [];
    assert forall k :: k in b <==> HandlersOf(b, k) != [];
  }

  lemma OfRegistered(h: map<string, seq<int>>, key: string, instance: int, k: string)
    ensures HandlersOf(Registered(h, key, instance), k)
            == if k == key then HandlersOf(h, k) + [instance] else HandlersOf(h, k)
  {
  }

  lemma OfUnregistered(h: map<string, seq<int>>, key: string, instance: int, k: string)
    ensures HandlersOf(Unregistered(h, key, instance), k)
            == if k == key then Without(HandlersOf(h, k), instance) else HandlersOf(h, k)
  {
  }

  lemma OfStripped(h: map<string, seq<int>>, instance: int, k: string)
    ensures HandlersOf(Stripped(h, instance), k) == Without(HandlersOf(h, k), instance)
  {
  }

  lemma {:induction false} WithoutTwice(v: seq<int>, a: int, b: int)
    ensures Without(Without(v, a), b) == Without(Without(v, b), a)
  {
    if v != [] {
      WithoutTwice(v[1..], a, b);
    }
  }

  lemma StrippedRegistered(h: map<string, seq<int>>, key: string, other: int, instance: int)
    requires NonEmpty(h) && other != instance
    ensures Stripped(Registered(h, key, other), instance) == Registered(Stripped(h, instance), key, other)
  {
    var l, r := Stripped(Registered(h, key, other), instance), Registered(Stripped(h, instance), key, other);
    forall k ensures HandlersOf(l, k) == HandlersOf(r, k) {
      OfStripped(Registered(h, key, other), instance, k);
      OfRegistered(h, key, other, k);
      OfRegistered(Stripped(h, instance), key, other, k);
      OfStripped(h, instance, k);
      WithoutConcat(HandlersOf(h, k), [other], instance);
      WithoutOne(other, instance);
    }
    SameTable(l, r);
  }

  lemma WithoutOne(other: int, instance: int)
    ensures Without([other], instance) == if other == instance then [] else [other]
  {
    assert [other][1..] == [];
  }

  lemma StrippedUnregistered(h: map<string, seq<int>>, key: string, other: int, instance: int)
    requires NonEmpty(h)
    ensures Stripped(Unregistered(h, key, other), instance) == Unregistered(Stripped(h, instance), key, other)
  {
    var l, r := Stripped(Unregistered(h, key, other), instance), Unregistered(Stripped(h, instance), key, other);
    forall k ensures HandlersOf(l, k) == HandlersOf(r, k) {
      OfStripped(Unregistered(h, key, other), instance, k);
      OfUnregistered(h, key, other, k);
      OfUnregistered(Stripped(h, instance), key, other, k);
      OfStripped(h, instance, k);
      WithoutTwice(HandlersOf(h, k), other, instance);
    }
    SameTable(l, r);
  }

  lemma {:induction false} StrippedTable(h: map<string, seq<int>>, events: seq<Event>, instance: int)
    requires NonEmpty(h) && forall e | e in events && (e.Register? || e.Unregister?) :: e.instance != instance
    ensures NonEmpty(Table(h, events)) && Stripped(Table(h, events), instance) == Table(Stripped(h, instance), events)
    decreases |events|
  {
    if events != [] {
      var e, rest := events[0], events[1..];
      assert events == [e] + rest;
      match e {
        case Register(key, other) =>
          StrippedRegistered(h, key, other, instance);
          StrippedTable(Registered(h, key, other), rest, instance);
        case Unregister(key, other) =>
          StrippedUnregistered(h, key, other, instance);
          StrippedTable(Unregistered(h, key, other), rest, instance);
        case _ => StrippedTable(h, rest, instance);
      }
    }
  }

  /** The instance occurs at one key only. */
  predicate OnlyAt(h: map<string, seq<int>>, instance: int, key: string)
  {
    forall k | k in h && k != key :: instance !in h[k]
  }

  lemma {:induction false} StaysOnlyAt(h: map<string, seq<int>>, events: seq<Event>, instance: int, key: string)
    requires OnlyAt(h, instance, key)
    requires forall e | e in events && (e.Register? || e.Unregister?) :: e.instance != instance
    ensures OnlyAt(Table(h, events), instance, key)
    decreases |events|
  {
    if events != [] {
      var e, rest := events[0], events[1..];
      assert events == [e] + rest;
      match e {
        case Register(k, other) => StaysOnlyAt(Registered(h, k, other), rest, instance, key);
        case Unregister(k, other) => StaysOnlyAt(Unregistered(h, k, other), rest, instance, key);
        case _ => StaysOnlyAt(h, rest, instance, key);
      }
    }
  }

  lemma UnregisterStrips(h: map<string, seq<int>>, instance: int, key: string)
    requires NonEmpty(h) && OnlyAt(h, instance, key)
    ensures Unregistered(h, key, instance) == Stripped(h, instance)
  {
  }

  lemma StrippedFresh(h: map<string, seq<int>>, key: string, instance: int)
    requires NonEmpty(h) && forall k | k in h :: instance !in h[k]
    ensures Stripped(Registered(h, key, instance), instance) == h
  {
    var l := Stripped(Registered(h, key, instance), instance);
    forall k ensures HandlersOf(l, k) == HandlersOf(h, k) {
      var v := HandlersOf(h, k);
      OfStripped(Registered(h, key, instance), instance, k);
      OfRegistered(h, key, instance, k);
      WithoutConcat(v, [instance], instance);
      WithoutOne(instance, instance);
      assert Without(v, instance) + [] == v;
    }
    SameTable(l, h);
  }

  lemma FreshOnlyAt(h: map<string, seq<int>>, key: string, instance: int)
    requires NonEmpty(h) && forall k | k in h :: instance !in h[k]
    ensures NonEmpty(Registered(h, key, instance)) && OnlyAt(Registered(h, key, instance), instance, key)
  {
  }

  /** A request registers its private promise, other threads register and unregister whatever they
      like, and the request takes its promise back: the table is as if the request had not been. */
  lemma RequestLeavesNoTrace(h: map<string, seq<int>>, key: string, promise: int, events: seq<Event>)
    requires NonEmpty(h) && forall k | k in h :: promise !in h[k]
    requires forall e | e in events && (e.Register? || e.Unregister?) :: e.instance != promise
    ensures Unregistered(Table(Registered(h, key, promise), events), key, promise) == Table(h, events)
  {
    var with := Registered(h, key, promise);
    StrippedFresh(h, key, promise);
    FreshOnlyAt(h, key, promise);
    StrippedTable(with, events, promise);
    StaysOnlyAt(with, events, promise, key);
    UnregisterStrips(Table(with, events), promise, key);
  }

  lemma {:induction false} HandlersAreTable(s: Sys, events: seq<Event>)
    requires Runs(s, events)
    ensures After(s, events).handlers == Table(s.handlers, events)
    decreases |events|
  {
    if events != [] {
      HandlersAreTable(Next(s, events[0]), events[1..]);
    }
  }

  // ---- folding requests into the broker's topic set

  function Took(topics: set<string>, m: Request): (r: set<string>)
  {
    match m
    case Sub(t) => topics + {t}
    case Unsub(t) => topics - {t}
    case Other => topics
  }

  function Fold(topics: set<string>, ms: seq<Request>): (r: set<string>)
    decreases |ms|
  {
    if ms == [] then topics else Fold(Took(topics, ms[0]), ms[1..])
  }

  /** SUBSCRIBE for every topic of an enumeration of the handler keys. */
  function Subs(order: seq<string>): (r: seq<Request>)
  {
    seq(|order|, i requires 0 <= i < |order| => Sub(order[i]))
  }

  predicate Enumerates(order: seq<string>, keys: set<string>)
  {
    (forall t | t in order :: t in keys) && (forall t | t in keys :: t in order) && |order| == |keys|
  }

  lemma {:induction false} FoldConcat(topics: set<string>, a: seq<Request>, b: seq<Request>)
    ensures Fold(topics, a + b) == Fold(Fold(topics, a), b)
    decreases |a|
  {
    if a == [] {
      assert a + b == b;
    } else {
      assert (a + b)[1..] == a[1..] + b;
      FoldConcat(Took(topics, a[0]), a[1..], b);
    }
  }

  lemma {:induction false} FoldMonotone(less: set<string>, more: set<string>, ms: seq<Request>)
    requires less <= more
    ensures Fold(less, ms) <= Fold(more, ms)
    decreases |ms|
  {
    if ms != [] {
      FoldMonotone(Took(less, ms[0]), Took(more, ms[0]), ms[1..]);
    }
  }

  lemma {:induction false} FoldSubs(topics: set<string>, order: seq<string>)
    ensures Fold(topics, Subs(order)) == topics + set t | t in order
    decreases |order|
  {
    if order != [] {
      assert Subs(order)[1..] == Subs(order[1..]);
      FoldSubs(topics + {order[0]}, order[1..]);
      assert order == [order[0]] + order[1..];
    }
  }

  // ---- the protocol

  datatype Event =
    | Register(key: string, instance: int)
    | Unregister(key: string, instance: int)
    | Emit                       // a heartbeat or data message goes out on the socket
    | Flush                      // the worker moves a control message to the socket
    | BrokerRecv
    | BrokerForget               // zombie sweep or broker restart
    | BrokerSend(r: Reply)       // any other traffic to the client
    | Online(order: seq<string>) // first message after OFFLINE: CONNECT and all subscriptions
    | WorkerPush
    | ProcessInbox(order: seq<string>)
    | GoOffline

  function Keys(s: Sys): (r: set<string>)
  {
    s.handlers.Keys
  }

  predicate Enabled(s: Sys, e: Event)
  {
    match e
    case Register(_, _) => true
    case Unregister(_, _) => true
    case Emit => true
    case Flush => s.control != []
    case BrokerRecv => s.wire != []
    case BrokerForget => true
    case BrokerSend(_) => s.known
    case Online(order) => s.back != [] && !s.connected && Enumerates(order, Keys(s))
    case WorkerPush => s.back != [] && s.connected
    case ProcessInbox(order) => s.inbox != [] && Enumerates(order, Keys(s))
    case GoOffline => s.connected
  }

  /** The broker takes one request of this client: an unknown client's message is
      swallowed and answered with RESET. */
  function Received(s: Sys, m: Request): (r: Sys)
  {
    if !s.known then s.(known := true, back := s.back + [Reset])
    else s.(topics := Took(s.topics, m))
  }

  function Next(s: Sys, e: Event): (r: Sys)
    requires Enabled(s, e)
  {
    match e
    case Register(key, instance) =>
      s.(handlers := Registered(s.handlers, key, instance),
         control := if s.connected then s.control + [Sub(key)] else s.control,
         ledger := if s.connected then s.ledger + {key} else s.ledger)
    case Unregister(key, instance) =>
      var h := Unregistered(s.handlers, key, instance);
      if key in s.handlers && key !in h then
        s.(handlers := h,
           control := if s.connected then s.control + [Unsub(key)] else s.control,
           ledger := if s.connected then s.ledger - {key} else s.ledger)
      else s.(handlers := h)
    case Emit => s.(wire := s.wire + [Other])
    case Flush => s.(control := s.control[1..], wire := s.wire + [s.control[0]])
    case BrokerRecv => Received(s.(wire := s.wire[1..]), s.wire[0])
    case BrokerForget => s.(known := false, topics := {})
    case BrokerSend(r) => s.(back := s.back + [r])
    case Online(order) =>
      s.(connected := true, control := s.control + [Other] + Subs(order), ledger := s.ledger + Keys(s))
    case WorkerPush =>
      s.(back := s.back[1..], inbox := if s.back[0] == Ack then s.inbox else s.inbox + [s.back[0]])
    case ProcessInbox(order) =>
      s.(inbox := s.inbox[1..],
         control := if s.inbox[0] == Reset then s.control + Subs(order) else s.control,
         ledger := if s.inbox[0] == Reset then s.ledger + Keys(s) else s.ledger)
    case GoOffline => s.(connected := false, wasOffline := true)
  }

  function Promised(s: Sys): (r: set<string>)
  {
    Fold(s.topics, s.wire + s.control)
  }

  predicate ResetPending(s: Sys)
  {
    Reset in s.back || Reset in s.inbox
  }

  predicate OnlyOthers(ms: seq<Request>)
  {
    forall i | 0 <= i < |ms| :: ms[i] == Other
  }

  ghost predicate Inv(s: Sys)
  {
    && (forall k | k in s.handlers :: s.handlers[k] != [])
    && Promised(s) <= s.ledger
    && (s.known && s.connected && !ResetPending(s) ==> Keys(s) <= Promised(s))
    && (!s.known ==> s.topics == {})
    && (!s.wasOffline ==>
        && s.ledger <= Keys(s)
        && (s.known && !ResetPending(s) ==> s.connected)
        && (s.inbox != [] ==> s.connected)
        && (!s.connected ==> s.topics == {} && s.ledger == {} && OnlyOthers(s.wire) && OnlyOthers(s.control)))
  }

  lemma Appended(s: Sys, more: seq<Request>)
    ensures Fold(s.topics, s.wire + (s.control + more)) == Fold(Promised(s), more)
  {
    assert s.wire + (s.control + more) == (s.wire + s.control) + more;
    FoldConcat(s.topics, s.wire + s.control, more);
  }

  lemma Resubscribed(s: Sys, order: seq<string>)
    requires Enumerates(order, Keys(s))
    ensures Fold(s.topics, s.wire + (s.control + Subs(order))) == Promised(s) + Keys(s)
    ensures Fold(s.topics, s.wire + (s.control + [Other] + Subs(order))) == Promised(s) + Keys(s)
  {
    assert (set t | t in order) == Keys(s);
    Appended(s, Subs(order));
    FoldSubs(Promised(s), order);
    Appended(s, [Other] + Subs(order));
    FoldConcat(Promised(s), [Other], Subs(order));
    assert s.control + [Other] + Subs(order) == s.control + ([Other] + Subs(order));
  }

  lemma Emitted(s: Sys)
    ensures Fold(s.topics, s.wire + [Other] + s.control) == Promised(s)
  {
    FoldConcat(s.topics, s.wire, s.control);
    FoldConcat(s.topics, s.wire + [Other], s.control);
    FoldConcat(s.topics, s.wire, [Other]);
  }

  /** Taking a request keeps the folded set, and swallowing one never enlarges it. */
  lemma TakenUp(s: Sys)
    requires s.wire != [] && (!s.known ==> s.topics == {})
    ensures Promised(s) == Fold(Took(s.topics, s.wire[0]), s.wire[1..] + s.control)
    ensures !s.known ==> Fold(s.topics, s.wire[1..] + s.control) <= Promised(s)
  {
    assert (s.wire + s.control)[1..] == s.wire[1..] + s.control;
    if !s.known {
      FoldMonotone({}, Took(s.topics, s.wire[0]), s.wire[1..] + s.control);
    }
  }

  lemma RegisterInv(s: Sys, key: string, instance: int)
    requires Inv(s)
    ensures Inv(Next(s, Register(key, instance)))
  {
    Appended(s, [Sub(key)]);
  }

  /** What is left of a handler table: the key goes with its last handler. */
  lemma UnregisteredTable(h: map<string, seq<int>>, key: string, instance: int)
    requires forall k | k in h :: h[k] != []
    ensures var r := Unregistered(h, key, instance);
      && (forall k | k in r :: r[k] != [])
      && r.Keys == (if key in h && Without(h[key], instance) == [] then h.Keys - {key} else h.Keys)
  {
  }

  lemma LastGoneInv(s: Sys, h: map<string, seq<int>>, key: string)
    requires Inv(s) && (forall k | k in h :: h[k] != []) && key in s.handlers && h.Keys == Keys(s) - {key}
    ensures s.connected ==> Inv(s.(handlers := h, control := s.control + [Unsub(key)], ledger := s.ledger - {key}))
    ensures !s.connected ==> Inv(s.(handlers := h))
  {
    Appended(s, [Unsub(key)]);
  }

  lemma UnregisterInv(s: Sys, key: string, instance: int)
    requires Inv(s)
    ensures Inv(Next(s, Unregister(key, instance)))
  {
    var h := Unregistered(s.handlers, key, instance);
    UnregisteredTable(s.handlers, key, instance);
    if key in s.handlers && key !in h {
      LastGoneInv(s, h, key);
    }
  }

  lemma OfflineInv(s: Sys)
    requires Inv(s) && s.connected
    ensures Inv(Next(s, GoOffline))
  {
  }

  lemma QueueInv(s: Sys, e: Event)
    requires Inv(s) && Enabled(s, e) && (e.Emit? || e.Flush? || e.BrokerSend? || e.WorkerPush?)
    ensures Inv(Next(s, e))
  {
    var r := Next(s, e);
    match e
    case Emit => Emitted(s);
    case Flush => assert r.wire + r.control == s.wire + s.control;
    case BrokerSend(_) =>
    case WorkerPush => assert s.back == [s.back[0]] + s.back[1..];
  }

  lemma BrokerInv(s: Sys, e: Event)
    requires Inv(s) && Enabled(s, e) && (e.BrokerRecv? || e.BrokerForget?)
    ensures Inv(Next(s, e))
  {
    match e
    case BrokerRecv =>
      TakenUp(s);
      assert s.wire == [s.wire[0]] + s.wire[1..];
    case BrokerForget => FoldMonotone({}, s.topics, s.wire + s.control);
  }

  lemma OnlineInv(s: Sys, order: seq<string>)
    requires Inv(s) && Enabled(s, Online(order))
    ensures Inv(Next(s, Online(order)))
  {
    Resubscribed(s, order);
  }

  lemma ResetInv(s: Sys, order: seq<string>)
    requires Inv(s) && Enabled(s, ProcessInbox(order)) && s.inbox[0] == Reset
    ensures Inv(Next(s, ProcessInbox(order)))
  {
    Resubscribed(s, order);
  }

  lemma PlainInv(s: Sys, order: seq<string>)
    requires Inv(s) && Enabled(s, ProcessInbox(order)) && s.inbox[0] != Reset
    ensures Inv(Next(s, ProcessInbox(order)))
  {
    assert s.inbox == [s.inbox[0]] + s.inbox[1..];
    assert ResetPending(s) ==> ResetPending(Next(s, ProcessInbox(order)));
  }

  lemma InboxInv(s: Sys, order: seq<string>)
    requires Inv(s) && Enabled(s, ProcessInbox(order))
    ensures Inv(Next(s, ProcessInbox(order)))
  {
    if s.inbox[0] == Reset {
      ResetInv(s, order);
    } else {
      PlainInv(s, order);
    }
  }

  lemma NextInv(s: Sys, e: Event)
    requires Inv(s) && Enabled(s, e)
    ensures Inv(Next(s, e))
  {
    match e
    case Register(key, instance) => RegisterInv(s, key, instance);
    case Unregister(key, instance) => UnregisterInv(s, key, instance);
    case GoOffline => OfflineInv(s);
    case Emit => QueueInv(s, e);
    case Flush => QueueInv(s, e);
    case BrokerSend(_) => QueueInv(s, e);
    case WorkerPush => QueueInv(s, e);
    case BrokerRecv => BrokerInv(s, e);
    case BrokerForget => BrokerInv(s, e);
    case Online(order) => OnlineInv(s, order);
    case ProcessInbox(order) => InboxInv(s, order);
  }

  predicate Runs(s: Sys, events: seq<Event>)
    decreases |events|
  {
    events == [] || (Enabled(s, events[0]) && Runs(Next(s, events[0]), events[1..]))
  }

  function After(s: Sys, events: seq<Event>): (r: Sys)
    requires Runs(s, events)
    decreases |events|
  {
    if events == [] then s else After(Next(s, events[0]), events[1..])
  }

  lemma {:induction false} RunInv(s: Sys, events: seq<Event>)
    requires Inv(s) && Runs(s, events)
    ensures Inv(After(s, events))
    decreases |events|
  {
    if events != [] {
      NextInv(s, events[0]);
      RunInv(Next(s, events[0]), events[1..]);
    }
  }

  predicate Settled(s: Sys)
  {
    s.wire == [] && s.control == [] && !ResetPending(s)
  }

  /** For any interleaving from the start, OFFLINE periods included: the folded set
      never exceeds the ledger; and once nothing is pending, the broker knows the client
      and the client is online, it holds every handler key and nothing off the ledger. */
  lemma Convergence(events: seq<Event>)
    requires Runs(INITIAL, events)
    ensures var s := After(INITIAL, events);
      && Promised(s) <= s.ledger
      && (Settled(s) && s.known && s.connected ==> Keys(s) <= s.topics <= s.ledger)
  {
    RunInv(INITIAL, events);
    var s := After(INITIAL, events);
    if Settled(s) {
      assert s.wire + s.control == [];
    }
  }

  lemma {:induction false} StaysOnline(s: Sys, events: seq<Event>)
    requires Runs(s, events) && !s.wasOffline && forall e | e in events :: !e.GoOffline?
    ensures !After(s, events).wasOffline
    decreases |events|
  {
    if events != [] {
      assert events == [events[0]] + events[1..];
      StaysOnline(Next(s, events[0]), events[1..]);
    }
  }

  /** Without OFFLINE periods: the folded set never exceeds the handler keys, and the
      two sets are equal once nothing is pending and the broker knows the client. */
  lemma ConvergenceOnline(events: seq<Event>)
    requires Runs(INITIAL, events) && forall e | e in events :: !e.GoOffline?
    ensures var s := After(INITIAL, events);
      Promised(s) <= Keys(s) && (Settled(s) && s.known ==> s.topics == Keys(s))
  {
    RunInv(INITIAL, events);
    StaysOnline(INITIAL, events);
    Convergence(events);
  }

  // ---- exactly when the bound is kept

  predicate Bounded(s: Sys)
  {
    Promised(s) <= Keys(s)
  }

  /** The event takes away the last handler of its topic. */
  predicate TakesLast(s: Sys, e: Event)
  {
    e.Unregister? && e.key in s.handlers && Without(s.handlers[e.key], e.instance) == []
  }

  /** What the client can check beforehand: a last handler goes away only while connected, or
      for a topic whose last queued control message was not SUBSCRIBE. */
  predicate Clear(s: Sys, e: Event)
  {
    TakesLast(s, e) ==> s.connected || e.key !in s.ledger
  }

  lemma UnregisteredKeys(s: Sys, e: Event)
    requires e.Unregister?
    ensures Keys(Next(s, e)) == if TakesLast(s, e) then Keys(s) - {e.key} else Keys(s)
  {
  }

  /** The ledger strays from the handler keys in one way only. */
  lemma LedgerStrays(s: Sys, e: Event, t: string)
    requires Enabled(s, e) && Clear(s, e)
    ensures var r := Next(s, e); t in r.ledger && t !in Keys(r) ==> t in s.ledger && t !in Keys(s)
  {
    if e.Unregister? {
      UnregisteredKeys(s, e);
    }
  }

  lemma RegisterBound(s: Sys, e: Event)
    requires Bounded(s) && e.Register?
    ensures Bounded(Next(s, e))
  {
    Appended(s, [Sub(e.key)]);
  }

  lemma UnregisterBound(s: Sys, e: Event)
    requires Bounded(s) && Promised(s) <= s.ledger && e.Unregister?
    ensures Clear(s, e) ==> Bounded(Next(s, e))
    ensures Promised(s) == s.ledger && Bounded(Next(s, e)) ==> Clear(s, e)
  {
    UnregisteredKeys(s, e);
    Appended(s, [Unsub(e.key)]);
  }

  lemma OtherBound(s: Sys, e: Event)
    requires Bounded(s) && (!s.known ==> s.topics == {}) && Enabled(s, e) && !e.Register? && !e.Unregister?
    ensures Bounded(Next(s, e))
  {
    match e
    case Emit => Emitted(s);
    case Flush =>
      assert s.wire + [s.control[0]] + s.control[1..] == s.wire + s.control;
    case BrokerRecv => TakenUp(s);
    case BrokerForget => FoldMonotone({}, s.topics, s.wire + s.control);
    case Online(order) => Resubscribed(s, order);
    case ProcessInbox(order) => Resubscribed(s, order);
    case _ =>
  }

  /** An event keeps the bound if it is clear, and only then where the broker has lost nothing
      of what the ledger holds. */
  lemma BoundStep(s: Sys, e: Event)
    requires Inv(s) && Bounded(s) && Enabled(s, e)
    ensures Clear(s, e) ==> Bounded(Next(s, e))
    ensures Promised(s) == s.ledger && Bounded(Next(s, e)) ==> Clear(s, e)
  {
    if e.Register? {
      RegisterBound(s, e);
    } else if e.Unregister? {
      UnregisterBound(s, e);
    } else {
      OtherBound(s, e);
    }
  }

  predicate BoundedThroughout(s: Sys, events: seq<Event>)
    requires Runs(s, events)
    decreases |events|
  {
    Bounded(s) && (events == [] || BoundedThroughout(Next(s, events[0]), events[1..]))
  }

  predicate ClearThroughout(s: Sys, events: seq<Event>)
    requires Runs(s, events)
    decreases |events|
  {
    events == [] || (Clear(s, events[0]) && ClearThroughout(Next(s, events[0]), events[1..]))
  }

  /** With OFFLINE periods and forgetting brokers: as long as no topic on the ledger loses its last
      handler while the client is not connected, the folded set stays within the handler keys. */
  lemma {:induction false} ClearKeepsBound(s: Sys, events: seq<Event>)
    requires Inv(s) && Bounded(s) && Runs(s, events) && ClearThroughout(s, events)
    ensures BoundedThroughout(s, events)
    decreases |events|
  {
    if events != [] {
      BoundStep(s, events[0]);
      NextInv(s, events[0]);
      ClearKeepsBound(Next(s, events[0]), events[1..]);
    }
  }

  lemma {:induction false} LedgerWithin(s: Sys, events: seq<Event>)
    requires s.ledger <= Keys(s) && Runs(s, events) && ClearThroughout(s, events)
    ensures After(s, events).ledger <= Keys(After(s, events))
    decreases |events|
  {
    if events != [] {
      forall t | t in Next(s, events[0]).ledger ensures t in Keys(Next(s, events[0])) {
        LedgerStrays(s, events[0], t);
      }
      LedgerWithin(Next(s, events[0]), events[1..]);
    }
  }

  /** Convergence with OFFLINE periods and forgetting brokers: in a clear run the two sets are equal
      once nothing is pending, the broker knows the client and the client is online. */
  lemma ConvergenceClear(events: seq<Event>)
    requires Runs(INITIAL, events) && ClearThroughout(INITIAL, events)
    ensures var s := After(INITIAL, events);
      s.ledger <= Keys(s) && (Settled(s) && s.known && s.connected ==> s.topics == Keys(s))
  {
    LedgerWithin(INITIAL, events);
    Convergence(events);
  }

  /** A broker that never forgot the client has, or will have, exactly what the ledger says: only a
      message that is no subscription was ever swallowed. */
  ghost predicate Remembered(s: Sys)
  {
    && Inv(s) && Promised(s) == s.ledger
    && (!s.known ==> !s.connected && !s.wasOffline && s.back == [])
  }

  lemma RecvRemembered(s: Sys)
    requires Remembered(s) && s.wire != []
    ensures Promised(Next(s, BrokerRecv)) == s.ledger
  {
    TakenUp(s);
    assert s.wire == [s.wire[0]] + s.wire[1..];
  }

  lemma ClientRemembered(s: Sys, e: Event)
    requires Promised(s) == s.ledger && (e.Register? || e.Unregister?)
    ensures Promised(Next(s, e)) == Next(s, e).ledger
  {
    Appended(s, [if e.Register? then Sub(e.key) else Unsub(e.key)]);
  }

  lemma RefreshRemembered(s: Sys, e: Event)
    requires Promised(s) == s.ledger && Enabled(s, e) && (e.Online? || e.ProcessInbox?)
    ensures Promised(Next(s, e)) == Next(s, e).ledger
  {
    Resubscribed(s, e.order);
  }

  lemma FlushRemembered(s: Sys)
    requires s.control != []
    ensures Promised(Next(s, Flush)) == Promised(s)
  {
    assert s.wire + [s.control[0]] + s.control[1..] == s.wire + s.control;
  }

  lemma LedgerPromised(s: Sys, e: Event)
    requires Remembered(s) && Enabled(s, e) && !e.BrokerForget?
    ensures Promised(Next(s, e)) == Next(s, e).ledger
  {
    match e
    case Register(_, _) => ClientRemembered(s, e);
    case Unregister(_, _) => ClientRemembered(s, e);
    case Emit => Emitted(s);
    case Flush => FlushRemembered(s);
    case BrokerRecv => RecvRemembered(s);
    case Online(_) => RefreshRemembered(s, e);
    case ProcessInbox(_) => RefreshRemembered(s, e);
    case _ =>
  }

  lemma NextRemembered(s: Sys, e: Event)
    requires Remembered(s) && Enabled(s, e) && !e.BrokerForget?
    ensures Remembered(Next(s, e))
  {
    NextInv(s, e);
    LedgerPromised(s, e);
  }

  lemma {:induction false} RunRemembered(s: Sys, events: seq<Event>)
    requires Remembered(s) && Runs(s, events) && forall e | e in events :: !e.BrokerForget?
    ensures Remembered(After(s, events))
    decreases |events|
  {
    if events != [] {
      assert events == [events[0]] + events[1..];
      NextRemembered(s, events[0]);
      RunRemembered(Next(s, events[0]), events[1..]);
    }
  }

  lemma {:induction false} BoundedIffClearFrom(s: Sys, events: seq<Event>)
    requires Remembered(s) && Bounded(s) && Runs(s, events) && forall e | e in events :: !e.BrokerForget?
    ensures BoundedThroughout(s, events) <==> ClearThroughout(s, events)
    decreases |events|
  {
    if events != [] {
      assert events == [events[0]] + events[1..];
      BoundStep(s, events[0]);
      NextRemembered(s, events[0]);
      if Clear(s, events[0]) {
        BoundedIffClearFrom(Next(s, events[0]), events[1..]);
      }
    }
  }

  /** From the start, with a broker that never forgets the client: what the broker holds or is about
      to hold is the ledger at every moment, and it stays within the handler keys throughout if and
      only if no topic on the ledger loses its last handler while the client is not connected. */
  lemma BoundedIffClear(events: seq<Event>)
    requires Runs(INITIAL, events) && forall e | e in events :: !e.BrokerForget?
    ensures Promised(After(INITIAL, events)) == After(INITIAL, events).ledger
    ensures BoundedThroughout(INITIAL, events) <==> ClearThroughout(INITIAL, events)
  {
    RunRemembered(INITIAL, events);
    BoundedIffClearFrom(INITIAL, events);
  }

  /** Forgetting is what spoils the converse: with nothing under way to a broker that has forgotten
      the client, giving up any topic keeps the bound. */
  lemma ForgottenStaysBounded(s: Sys, key: string, instance: int)
    requires Inv(s) && !s.known && !s.connected && s.wire == [] && s.control == []
    ensures Bounded(s) && Bounded(Next(s, Unregister(key, instance)))
  {
    assert s.wire + s.control == [];
  }

  // ---- left alone, the protocol settles

  predicate Internal(e: Event)
  {
    e.Flush? || e.BrokerRecv? || e.Online? || e.WorkerPush? || e.ProcessInbox?
  }

  function Times(w: nat, n: nat): (r: nat)
  {
    if n == 0 then 0 else w + Times(w, n - 1)
  }

  /** An upper bound on the internal steps still to come. */
  function Work(s: Sys): (r: nat)
  {
    var w := 1 + 2 * |Keys(s)|;
    |s.wire| + 2 * |s.control| + Times(w, |s.inbox|) + Times(w + 1, |s.back|)
    + (if s.connected then 0 else w + 2) + (if s.known then 0 else w + 1)
  }

  lemma ClientWork(s: Sys, e: Event)
    requires Enabled(s, e) && (e.Flush? || e.Online?)
    ensures Work(Next(s, e)) < Work(s)
  {
  }

  lemma BrokerWork(s: Sys)
    requires s.wire != []
    ensures Work(Next(s, BrokerRecv)) < Work(s)
  {
  }

  lemma PushWork(s: Sys)
    requires Enabled(s, WorkerPush)
    ensures Work(Next(s, WorkerPush)) < Work(s)
  {
  }

  lemma InboxWork(s: Sys, order: seq<string>)
    requires Enabled(s, ProcessInbox(order))
    ensures Work(Next(s, ProcessInbox(order))) < Work(s)
  {
  }

  lemma InternalWork(s: Sys, e: Event)
    requires Enabled(s, e) && Internal(e)
    ensures Keys(Next(s, e)) == Keys(s) && Work(Next(s, e)) < Work(s)
  {
    match e
    case Flush => ClientWork(s, e);
    case Online(_) => ClientWork(s, e);
    case BrokerRecv => BrokerWork(s);
    case WorkerPush => PushWork(s);
    case ProcessInbox(order) => InboxWork(s, order);
  }

  lemma {:induction false} InternalBounded(s: Sys, events: seq<Event>)
    requires Runs(s, events) && forall e | e in events :: Internal(e)
    ensures |events| <= Work(s)
    decreases |events|
  {
    if events != [] {
      assert events == [events[0]] + events[1..];
      InternalWork(s, events[0]);
      InternalBounded(Next(s, events[0]), events[1..]);
    }
  }

  /** Nothing internal is left to do; `order` is any enumeration of the handler keys. */
  predicate Stuck(s: Sys, order: seq<string>)
  {
    && Enumerates(order, Keys(s))
    && !Enabled(s, Flush) && !Enabled(s, BrokerRecv) && !Enabled(s, Online(order))
    && !Enabled(s, WorkerPush) && !Enabled(s, ProcessInbox(order))
  }

  /** The broker knows the client, or a message that will make it known is on its way. */
  predicate Noticed(s: Sys)
  {
    s.known || s.wire != []
  }

  lemma NextNoticed(s: Sys, e: Event)
    requires Noticed(s) && Enabled(s, e) && Internal(e)
    ensures Noticed(Next(s, e))
  {
    if e.Flush? {
      assert |Next(s, e).wire| == |s.wire| + 1;
    }
  }

  lemma {:induction false} StaysNoticed(s: Sys, events: seq<Event>)
    requires Noticed(s) && Runs(s, events) && forall e | e in events :: Internal(e)
    ensures Noticed(After(s, events))
    decreases |events|
  {
    if events != [] {
      assert events == [events[0]] + events[1..];
      NextNoticed(s, events[0]);
      StaysNoticed(Next(s, events[0]), events[1..]);
    }
  }

  /** Eventual agreement: after any online history, whatever the broker has forgotten, and the next
      heartbeat or message, the internal steps that can follow are bounded; and when none is left
      the broker knows the client, the client is online, and the broker holds exactly its handler keys. */
  lemma EventualAgreement(history: seq<Event>, tail: seq<Event>, order: seq<string>)
    requires Runs(INITIAL, history) && forall e | e in history :: !e.GoOffline?
    requires Runs(Next(After(INITIAL, history), Emit), tail) && forall e | e in tail :: Internal(e)
    ensures |tail| <= Work(Next(After(INITIAL, history), Emit))
    ensures var s := After(Next(After(INITIAL, history), Emit), tail);
      Stuck(s, order) ==> s.known && s.connected && s.topics == Keys(s)
  {
    var mid := Next(After(INITIAL, history), Emit);
    RunInv(INITIAL, history);
    StaysOnline(INITIAL, history);
    NextInv(After(INITIAL, history), Emit);
    InternalBounded(mid, tail);
    RunInv(mid, tail);
    StaysOnline(mid, tail);
    StaysNoticed(mid, tail);
    StuckAgreement(After(mid, tail), order);
  }

  lemma StuckAgreement(s: Sys, order: seq<string>)
    requires Inv(s) && !s.wasOffline && Noticed(s)
    ensures Stuck(s, order) ==> s.known && s.connected && s.topics == Keys(s)
  {
    if Stuck(s, order) {
      StuckMeansSettled(s, order);
      assert s.wire + s.control == [];
    }
  }

  lemma StuckMeansSettled(s: Sys, order: seq<string>)
    requires Stuck(s, order)
    ensures Settled(s)
  {
  }

  const AFTER_CONTACT: Sys := Sys(map[], true, [Other], [], true, {}, [], [], false, {})
  const SUBSCRIBED: Sys := Sys(map["t" := [1]], true, [], [], true, {"t"}, [], [], false, {"t"})
  const DROPPED: Sys := Sys(map[], false, [], [], true, {"t"}, [], [], true, {"t"})
  const STALE: Sys := Sys(map[], true, [], [], true, {"t"}, [], [], true, {"t"})

  /** With an OFFLINE period agreement can fail for good: a handler dropped while
      offline leaves the broker subscribed. */
  lemma OfflineUnregisterLeavesTopic() returns (events: seq<Event>)
    ensures Runs(INITIAL, events)
    ensures var s := After(INITIAL, events); Stuck(s, []) && s.known && s.connected && s.topics != Keys(s)
  {
    var contact := MakeContact();
    var subscribe := SubscribeOnce();
    var drop := DropOffline();
    var back := ComeBack();
    RunsConcat(SUBSCRIBED, drop, back);
    RunsConcat(AFTER_CONTACT, subscribe, drop + back);
    RunsConcat(INITIAL, contact, subscribe + (drop + back));
    events := contact + (subscribe + (drop + back));
    StaleForGood();
  }

  lemma StaleForGood()
    ensures Stuck(STALE, []) && STALE.known && STALE.connected && STALE.topics != Keys(STALE)
  {
    assert "t" in STALE.topics && "t" !in Keys(STALE);
  }

  lemma MakeContact() returns (events: seq<Event>)
    ensures Runs(INITIAL, events) && After(INITIAL, events) == AFTER_CONTACT
  {
    var x0 := Next(INITIAL, Emit);
    var x1 := Next(x0, BrokerRecv);
    var x2 := Next(x1, Online([]));
    var x3 := Next(x2, WorkerPush);
    var x4 := Next(x3, ProcessInbox([]));
    assert x4 == AFTER_CONTACT;
    events := [Emit, BrokerRecv, Online([]), WorkerPush, ProcessInbox([])];
    assert Runs(x4, []) && After(x4, []) == x4;
    assert Runs(x3, events[4..]) && After(x3, events[4..]) == x4;
    assert Runs(x2, events[3..]) && After(x2, events[3..]) == x4;
    assert Runs(x1, events[2..]) && After(x1, events[2..]) == x4;
    assert Runs(x0, events[1..]) && After(x0, events[1..]) == x4;
  }

  lemma SubscribeOnce() returns (events: seq<Event>)
    ensures Runs(AFTER_CONTACT, events) && After(AFTER_CONTACT, events) == SUBSCRIBED
  {
    var x0 := Next(AFTER_CONTACT, Register("t", 1));
    var x1 := Next(x0, Flush);
    var x2 := Next(x1, Flush);
    var x3 := Next(x2, BrokerRecv);
    var x4 := Next(x3, BrokerRecv);
    assert [] + [1] == [1] && {} + {"t"} == {"t"};
    assert x4 == SUBSCRIBED;
    events := [Register("t", 1), Flush, Flush, BrokerRecv, BrokerRecv];
    assert Runs(x4, []) && After(x4, []) == x4;
    assert Runs(x3, events[4..]) && After(x3, events[4..]) == x4;
    assert Runs(x2, events[3..]) && After(x2, events[3..]) == x4;
    assert Runs(x1, events[2..]) && After(x1, events[2..]) == x4;
    assert Runs(x0, events[1..]) && After(x0, events[1..]) == x4;
  }

  lemma DropOffline() returns (events: seq<Event>)
    ensures Runs(SUBSCRIBED, events) && After(SUBSCRIBED, events) == DROPPED
  {
    var x0 := Next(SUBSCRIBED, GoOffline);
    var x1 := Next(x0, Unregister("t", 1));
    assert x1 == DROPPED;
    events := [GoOffline, Unregister("t", 1)];
    assert Runs(x1, []) && After(x1, []) == x1;
    assert Runs(x0, events[1..]) && After(x0, events[1..]) == x1;
  }

  lemma ComeBack() returns (events: seq<Event>)
    ensures Runs(DROPPED, events) && After(DROPPED, events) == STALE
  {
    var x0 := Next(DROPPED, BrokerSend(Ack));
    var x1 := Next(x0, Online([]));
    var x2 := Next(x1, Flush);
    var x3 := Next(x2, BrokerRecv);
    var x4 := Next(x3, WorkerPush);
    assert x4 == STALE;
    events := [BrokerSend(Ack), Online([]), Flush, BrokerRecv, WorkerPush];
    assert Runs(x4, []) && After(x4, []) == x4;
    assert Runs(x3, events[4..]) && After(x3, events[4..]) == x4;
    assert Runs(x2, events[3..]) && After(x2, events[3..]) == x4;
    assert Runs(x1, events[2..]) && After(x1, events[2..]) == x4;
    assert Runs(x0, events[1..]) && After(x0, events[1..]) == x4;
  }

  lemma {:induction false} RunsConcat(s: Sys, a: seq<Event>, b: seq<Event>)
    requires Runs(s, a) && Runs(After(s, a), b)
    ensures Runs(s, a + b) && After(s, a + b) == After(After(s, a), b)
    decreases |a|
  {
    if a == [] {
      assert a + b == b;
    } else {
      assert (a + b)[1..] == a[1..] + b;
      RunsConcat(Next(s, a[0]), a[1..], b);
    }
  }

  // ---- the broker side is the broker's own step, seen from one client

  function TopicsOf(b: B.State, c: string): (r: set<string>)
  {
    set p | p in b.pairs && p.0 == c :: p.1
  }

  function RequestOf(env: Envelope): (r: Request)
  {
    if env.header.key == SUBSCRIBE then Sub(env.header.topic)
    else if env.header.key == UNSUBSCRIBE then Unsub(env.header.topic)
    else Other
  }

  predicate Agrees(s: Sys, b: B.State, c: string)
  {
    s.known == (c in b.clients) && s.topics == TopicsOf(b, c)
  }

  /** A message of this client acts on its share of the broker state as the protocol's
      broker step, and is answered with RESET exactly when that step is. */
  lemma OwnMessageProjects(s: Sys, b: B.State, c: string, env: Envelope, now: int, draw: string)
    requires Agrees(s, b, c) && env.header.key != DISCONNECT
    ensures var (b', out) := B.Process(b, env, B.Local(c), now, draw);
      && Agrees(Received(s, RequestOf(env)), b', c)
      && (out == B.ResetSent <==> Received(s, RequestOf(env)).back == s.back + [Reset])
  {
    var b' := B.Process(b, env, B.Local(c), now, draw).0;
    assert forall t :: t in TopicsOf(b, c) <==> (c, t) in b.pairs;
    assert forall t :: t in TopicsOf(b', c) <==> (c, t) in b'.pairs;
    if !s.known {
      assert s.back != s.back + [Reset];
    }
  }

  /** Every other broker input leaves that share alone or makes the broker forget the client. */
  lemma OtherInputProjects(s: Sys, b: B.State, c: string, i: B.Input)
    requires B.Sound(b) && Agrees(s, b, c)
    requires i.Message? && i.origin == B.Local(c) ==> i.env.header.key == DISCONNECT
    ensures var b' := B.Step(b, i); Agrees(s, b', c) || Agrees(s.(known := false, topics := {}), b', c)
  {
  }
}

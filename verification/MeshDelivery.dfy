/** What a mesh whose links are up delivers: exactly which brokers route a message,
    and that a subscriber there is handed it exactly once. */
module MeshDelivery {
  import opened Messages
  import opened Mesh
  import opened Paths
  import opened MeshOnce
  import opened MeshFlood
  import B = BrokerStep

  /** A handshaken mesh with nothing under way that has not heard of e. */
  ghost predicate Start(n: Net, e: Envelope, ids: set<string>)
  {
    Begins(n, e, ids) && Graph(n) && Handshaken(n)
  }

  lemma StartInv(n: Net, e: Envelope, ids: set<string>)
    requires Start(n, e, ids)
    ensures Inv(n, e, ids)
  {
    BeginsOnce(n, e, ids);
  }

  predicate Quiet(n: Net, e: Envelope)
  {
    forall p | p in n.flying :: p.env != e
  }

  // ---- coverage

  lemma SeenAcross(n: Net, e: Envelope, a: string, b: string)
    requires Spreading(n, e) && Quiet(n, e) && (a, b) in Crossings(n, e.header.key) && Seen(n, a, e)
    ensures Seen(n, b, e)
  {
    CrossingIffLinked(n, e.header.key, a, b);
  }

  lemma SeenIfReached(n: Net, e: Envelope, from: set<string>, b: string)
    requires Spreading(n, e) && Quiet(n, e) && forall a | a in from :: Seen(n, a, e)
    requires Reaches(Crossings(n, e.header.key), from, b)
    ensures Seen(n, b, e)
  {
    var edges, seen := Crossings(n, e.header.key), iset x | Seen(n, x, e);
    forall x, y | (x, y) in edges && x in seen ensures y in seen {
      SeenAcross(n, e, x, y);
    }
    ReachedStays(edges, from, b, seen);
  }

  lemma CoveredExactly(n: Net, r: Net, e: Envelope, from: set<string>, b: string)
    requires SameLinks(n, r) && RoutedOnce(r, e) && Spreading(r, e) && Quiet(r, e) && Traced(r, e, from)
    requires b in n.brokers
    ensures r.routed[(b, e)] == if Reaches(Crossings(n, e.header.key), from, b) then 1 else 0
  {
    SameCrossings(n, r, e.header.key);
    if Reaches(Crossings(r, e.header.key), from, b) {
      SeenIfReached(r, e, from, b);
    }
  }

  /** Exact coverage: once no copy of e is under way, the brokers that have routed e, once each,
      are exactly those that a path of links e can cross leads to from one of its publishers. */
  lemma CoverageExact(n: Net, events: seq<Event>, e: Envelope, ids: set<string>, b: string)
    requires Routable(e) && Start(n, e, ids) && Runs(n, events) && CalmRun(n, events, e, ids)
    requires Quiet(After(n, events), e) && b in n.brokers
    ensures var from := Publishers(n, events, e);
      After(n, events).routed[(b, e)] == if Reaches(Crossings(n, e.header.key), from, b) then 1 else 0
  {
    StartInv(n, e, ids);
    CalmRunInv(n, events, e, ids);
    FromStart(n, events, e, ids);
    CoveredExactly(n, After(n, events), e, Publishers(n, events, e), b);
  }

  /** Flood coverage: once no copy of e is under way, a data message has been routed, once, by
      every broker connected to a publisher by links in either direction, and by no other. */
  lemma FloodCoverage(n: Net, events: seq<Event>, e: Envelope, ids: set<string>, b: string)
    requires Routable(e) && Start(n, e, ids) && Runs(n, events) && CalmRun(n, events, e, ids)
    requires e.header.key.Named? && Quiet(After(n, events), e) && b in n.brokers
    ensures After(n, events).routed[(b, e)] == if Reaches(BothWays(n), Publishers(n, events, e), b) then 1 else 0
  {
    CoverageExact(n, events, e, ids, b);
  }

  /** A client message keyed RESET or HEARTBEAT_ACK is routed by the brokers that a path of dialled
      links leads to from a publisher, and by no other: the dialling side's worker keeps it. */
  lemma ReservedCoverage(n: Net, events: seq<Event>, e: Envelope, ids: set<string>, b: string)
    requires Routable(e) && Start(n, e, ids) && Runs(n, events) && CalmRun(n, events, e, ids)
    requires e.header.key in {RESET, HEARTBEAT_ACK} && Quiet(After(n, events), e) && b in n.brokers
    ensures After(n, events).routed[(b, e)] == if Reaches(Links(n), Publishers(n, events, e), b) then 1 else 0
  {
    CoverageExact(n, events, e, ids, b);
  }

  /** Everybody connected to a publisher is covered exactly when the key is a data key, or
      dialled links alone already lead to everybody. */
  lemma AllConnectedCovered(n: Net, events: seq<Event>, e: Envelope, ids: set<string>)
    requires Routable(e) && Start(n, e, ids) && Runs(n, events) && CalmRun(n, events, e, ids)
    requires Quiet(After(n, events), e)
    ensures var r, from := After(n, events), Publishers(n, events, e);
      (forall b | b in n.brokers && Reaches(BothWays(n), from, b) :: r.routed[(b, e)] == 1)
      <==> (e.header.key.Named?
            || forall b | b in n.brokers && Reaches(BothWays(n), from, b) :: Reaches(Links(n), from, b))
  {
    forall b | b in n.brokers
      ensures After(n, events).routed[(b, e)] ==
              if Reaches(Crossings(n, e.header.key), Publishers(n, events, e), b) then 1 else 0
    {
      CoverageExact(n, events, e, ids, b);
    }
  }

  // ---- exactly-once delivery to a subscriber anywhere in the mesh

  predicate Subscriber(n: Net, b: string, c: string, e: Envelope)
  {
    b in n.brokers && Ordinary(n, c) && B.Wants(n.brokers[b], c, e.header.topic)
  }

  /** Client c of broker b is subscribed and is not the one publishing e. */
  predicate Listening(n: Net, ev: Event, b: string, c: string, e: Envelope)
  {
    && Subscriber(n, b, c, e)
    && !(ev.Client? && ev.b == b && ev.id == c && B.Stamp(ev.env, n.brokers[b].id, ev.draw) == e)
  }

  predicate ListeningRun(n: Net, events: seq<Event>, b: string, c: string, e: Envelope)
    requires Runs(n, events)
    decreases |events|
  {
    events == [] || (Listening(n, events[0], b, c, e) && ListeningRun(Next(n, events[0]), events[1..], b, c, e))
  }

  /** Broker b has handed e to c as often as it has routed it. */
  predicate Handed(n: Net, b: string, c: string, e: Envelope)
  {
    n.handed[(b, c, e)] == if Seen(n, b, e) then 1 else 0
  }

  lemma ApplyHands(n: Net, b: string, c: string, at: string, s: B.State, out: B.Outcome, emits: set<Packet>,
                   e: Envelope)
    requires b in n.brokers && at in n.brokers && Handed(n, b, c, e)
    requires var u, order := e.header.uuid, n.brokers[at].order;
      && (u in s.order <==> u in order || (out.Routed? && out.env == e))
      && (out.Routed? && out.env == e ==> u !in order)
    requires at == b && out.Routed? && out.env == e ==> c in out.recipients
    ensures Handed(Apply(n, at, s, out, emits), b, c, e)
  {
  }

  lemma AbsorbHands(n: Net, held: Option<Packet>, b: string, c: string, at: string, env: Envelope, origin: B.Origin,
                    now: int, draw: string, e: Envelope, ids: set<string>)
    requires Routable(e) && Incoming(n, held, at, env, origin, draw, e, ids) && OnceInv(Restore(n, held), e, ids)
    requires Subscriber(n, b, c, e)
    requires at == b && origin == B.Local(c) ==> B.Stamp(env, n.brokers[b].id, draw) != e
    requires Handed(n, b, c, e)
    ensures var r := Absorb(n, at, env, origin, now, draw);
      Handed(r, b, c, e)
  {
    var (s, out) := B.Process(n.brokers[at], env, origin, now, draw);
    LessFlight(n, held, e, ids);
    IncomingAcceptable(n, {}, held, at, env, origin, draw, e, ids);
    StateSteps(n.brokers[at], {}, env, origin, now, draw, e, ids);
    B.RoutedWhen(n.brokers[at], env, origin, now, draw);
    ApplyHands(n, b, c, at, s, out, Emits(n, at, origin, out), e);
  }

  /** A copy of e does not come from a link named like a client that is no link. */
  lemma NotFromClient(n: Net, p: Packet, id: string, draw: string, c: string, e: Envelope, ids: set<string>)
    requires Routable(e) && OnceInv(n, e, ids) && p in n.flying && p.Flood? && LinkId(p.src) == c && Ordinary(n, c)
    ensures B.Stamp(p.env, id, draw) != e
  {
    assert p in n.sent;
    if B.Stamp(p.env, id, draw) == e {
      StampedCopy(p, id, draw, e, ids);
      assert false;
    }
  }

  lemma ArriveHands(n: Net, p: Packet, now: int, draw: string, b: string, c: string, e: Envelope, ids: set<string>)
    requires Routable(e) && OnceInv(n, e, ids) && p in n.flying && p.dst in n.brokers && Subscriber(n, b, c, e)
    requires Handed(n, b, c, e)
    ensures var r := Deliver(n, p, now, draw); Handed(r, b, c, e)
  {
    var rest := n.(flying := n.flying - multiset{p});
    assert Restore(rest, Some(p)) == n;
    if p.Flood? || p.env.header.key !in {RESET, HEARTBEAT_ACK} {
      var origin := if p.Flood? then B.Local(LinkId(p.src)) else B.Peer;
      if origin == B.Local(c) && p.dst == b {
        NotFromClient(n, p, n.brokers[b].id, draw, c, e, ids);
      }
      AbsorbHands(rest, Some(p), b, c, p.dst, p.env, origin, now, draw, e, ids);
    }
  }

  lemma NextHands(n: Net, ev: Event, b: string, c: string, e: Envelope, ids: set<string>)
    requires Routable(e) && OnceInv(n, e, ids) && Enabled(n, ev) && Naming(n, ev, e, ids) && Listening(n, ev, b, c, e)
    requires Handed(n, b, c, e)
    ensures var r := Next(n, ev); Handed(r, b, c, e)
  {
    match ev
    case Client(at, id, env, now, draw) =>
      AbsorbHands(n, None, b, c, at, env, B.Local(id), now, draw, e, ids);
    case Arrive(p, now, draw) =>
      ArriveHands(n, p, now, draw, b, c, e, ids);
    case Beat(_, _) =>
    case Sweep(_, _) =>
    case Lose(_) =>
  }

  lemma {:induction false} RunHands(n: Net, events: seq<Event>, b: string, c: string, e: Envelope, ids: set<string>)
    requires Routable(e) && OnceInv(n, e, ids) && Runs(n, events) && NamingRun(n, events, e, ids)
    requires ListeningRun(n, events, b, c, e)
    requires Handed(n, b, c, e)
    ensures Handed(After(n, events), b, c, e)
    decreases |events|
  {
    if events != [] {
      NextHands(n, events[0], b, c, e, ids);
      NextOnce(n, events[0], e, ids);
      RunHands(Next(n, events[0]), events[1..], b, c, e, ids);
    }
  }

  /** In every run, losses and forgotten links included, a client that stays subscribed to the
      topic of e is handed e exactly as often as its broker routes it. */
  lemma HandedAsRouted(n: Net, events: seq<Event>, e: Envelope, ids: set<string>, b: string, c: string)
    requires Routable(e) && Begins(n, e, ids) && Runs(n, events) && NamingRun(n, events, e, ids)
    requires b in n.brokers && ListeningRun(n, events, b, c, e)
    ensures After(n, events).handed[(b, c, e)] == After(n, events).routed[(b, e)]
  {
    BeginsOnce(n, e, ids);
    RunOnce(n, events, e, ids);
    RunHands(n, events, b, c, e, ids);
  }

  /** End to end: once no copy of e is under way, a client that stays subscribed to the topic of e
      has been handed e exactly once if its broker is reached from a publisher, and never otherwise. */
  lemma SubscriberGetsOneCopy(n: Net, events: seq<Event>, e: Envelope, ids: set<string>, b: string, c: string)
    requires Routable(e) && Start(n, e, ids) && Runs(n, events) && CalmRun(n, events, e, ids)
    requires Quiet(After(n, events), e) && b in n.brokers && ListeningRun(n, events, b, c, e)
    ensures var from := Publishers(n, events, e);
      After(n, events).handed[(b, c, e)] == if Reaches(Crossings(n, e.header.key), from, b) then 1 else 0
  {
    StartInv(n, e, ids);
    CalmRunInv(n, events, e, ids);
    CoverageExact(n, events, e, ids, b);
    HandedAsRouted(n, events, e, ids, b, c);
  }

  // ---- nobody else is handed anything

  /** One message at broker `at` and what is handed to c at b. */
  lemma AbsorbHandsOnlyTo(n: Net, at: string, env: Envelope, origin: B.Origin, now: int, draw: string,
                          b: string, c: string, e: Envelope)
    requires at in n.brokers
    ensures var r := Absorb(n, at, env, origin, now, draw);
      && r.handed[(b, c, e)] >= n.handed[(b, c, e)]
      && (r.handed[(b, c, e)] > n.handed[(b, c, e)] ==>
          b == at && B.Wants(n.brokers[b], c, e.header.topic) && !Seen(n, b, e) && origin != B.Local(c))
  {
    var out := B.Process(n.brokers[at], env, origin, now, draw).1;
    B.RoutedWhen(n.brokers[at], env, origin, now, draw);
    if out.Routed? {
      var handed := set d | d in out.recipients :: (at, d, out.env);
      assert (b, c, e) in handed <==> b == at && c in out.recipients && e == out.env;
    }
  }

  /** Broker b hands e to c only in a step that finds c subscribed, has not seen e before and does
      not come from c. */
  lemma NextHandsOnlyTo(n: Net, ev: Event, b: string, c: string, e: Envelope)
    requires Enabled(n, ev)
    ensures var r := Next(n, ev);
      && r.handed[(b, c, e)] >= n.handed[(b, c, e)]
      && (r.handed[(b, c, e)] > n.handed[(b, c, e)] ==>
          && b in n.brokers && B.Wants(n.brokers[b], c, e.header.topic) && !Seen(n, b, e)
          && !(ev.Client? && ev.b == b && ev.id == c))
  {
    match ev
    case Client(at, id, env, now, draw) => AbsorbHandsOnlyTo(n, at, env, B.Local(id), now, draw, b, c, e);
    case Arrive(p, now, draw) =>
      var rest := n.(flying := n.flying - multiset{p});
      var origin := if p.Flood? then B.Local(LinkId(p.src)) else B.Peer;
      AbsorbHandsOnlyTo(rest, p.dst, p.env, origin, now, draw, b, c, e);
    case _ =>
  }

  /** Throughout the run, b does not have c as a subscriber of the topic. */
  predicate NeverSubscribed(n: Net, events: seq<Event>, b: string, c: string, topic: string)
    requires Runs(n, events)
    decreases |events|
  {
    && (b in n.brokers ==> !B.Wants(n.brokers[b], c, topic))
    && (events == [] || NeverSubscribed(Next(n, events[0]), events[1..], b, c, topic))
  }

  /** In every run a client that is subscribed neither to the topic nor to everything is handed
      no message on it. */
  lemma {:induction false} StrangersGetNothing(n: Net, events: seq<Event>, b: string, c: string, e: Envelope)
    requires Runs(n, events) && NeverSubscribed(n, events, b, c, e.header.topic)
    ensures After(n, events).handed[(b, c, e)] == n.handed[(b, c, e)]
    decreases |events|
  {
    if events != [] {
      NextHandsOnlyTo(n, events[0], b, c, e);
      StrangersGetNothing(Next(n, events[0]), events[1..], b, c, e);
    }
  }

  /** Once b has seen e, c is handed no more of it. */
  lemma {:induction false} NoMoreOnceSeen(n: Net, events: seq<Event>, e: Envelope, ids: set<string>,
                                          b: string, c: string)
    requires Routable(e) && OnceInv(n, e, ids) && Runs(n, events) && NamingRun(n, events, e, ids)
    requires Seen(n, b, e)
    ensures After(n, events).handed[(b, c, e)] == n.handed[(b, c, e)]
    decreases |events|
  {
    if events != [] {
      NextOnce(n, events[0], e, ids);
      NextHandsOnlyTo(n, events[0], b, c, e);
      NoMoreOnceSeen(Next(n, events[0]), events[1..], e, ids, b, c);
    }
  }

  /** No echo: in every run, a client that is the first to publish e at its broker is never handed it. */
  lemma PublisherGetsNoEcho(n: Net, ev: Event, events: seq<Event>, e: Envelope, ids: set<string>)
    requires Routable(e) && Begins(n, e, ids) && Enabled(n, ev) && Naming(n, ev, e, ids) && Publishes(n, ev, e)
    requires Runs(Next(n, ev), events) && NamingRun(Next(n, ev), events, e, ids)
    ensures After(Next(n, ev), events).handed[(ev.b, ev.id, e)] == 0
  {
    BeginsOnce(n, e, ids);
    NextOnce(n, ev, e, ids);
    NextHandsOnlyTo(n, ev, ev.b, ev.id, e);
    NoMoreOnceSeen(Next(n, ev), events, e, ids, ev.b, ev.id);
  }

  // ---- why coverage in both directions asks for a data key

  const RESET_KEYED: Envelope := Envelope(Header(RESET, "c", "t", "", "u", "", 0, 0, ""), [])
  const DIALLER: B.State := B.State("a", map[], {}, [], {"b"})
  const DIALLED: B.State := B.State("b", map[LinkId("a") := 0, "c" := 0], {(LinkId("a"), "")}, [], {})
  const PAIR: Net := Net(map["a" := DIALLER, "b" := DIALLED], multiset{}, multiset{}, multiset{}, multiset{})

  const PUBLISH: Event := Client("b", "c", RESET_KEYED, 1, "d")
  const COMEBACK: Event := Arrive(Back("b", "a", RESET_KEYED), 2, "d")

  /** A client message keyed RESET, published on the dialled side of a handshaken link, never
      reaches the dialling broker. */
  lemma ResetKeyNotCovered()
    ensures Start(PAIR, RESET_KEYED, {"u"}) && ("b", "a") in BothWays(PAIR)
    ensures Runs(PAIR, [PUBLISH, COMEBACK])
    ensures var r := After(PAIR, [PUBLISH, COMEBACK]);
      Quiet(r, RESET_KEYED) && Seen(r, "b", RESET_KEYED) && !Seen(r, "a", RESET_KEYED)
  {
    PairStart();
    PairPublish();
    PairComeback(Next(PAIR, PUBLISH));
    RunsTwo(PAIR, PUBLISH, COMEBACK);
  }

  lemma RunsTwo(n: Net, first: Event, second: Event)
    requires Enabled(n, first) && Enabled(Next(n, first), second)
    ensures Runs(n, [first, second]) && After(n, [first, second]) == Next(Next(n, first), second)
  {
    var events, m := [first, second], Next(n, first);
    var r := Next(m, second);
    assert events[1..] == [second] && [second][1..] == [];
    assert Runs(r, []) && After(r, []) == r;
    assert Runs(m, [second]) && After(m, [second]) == r;
  }

  lemma PairNames()
    ensures Ordinary(PAIR, "c") && LinkId("a") != "c" && LinkId("a") != LinkId("b")
  {
    assert LinkId("a")[11] == 'a' && LinkId("b")[11] == 'b';
    assert |LinkId("a")| == 12 && |LinkId("b")| == 12;
  }

  lemma PairBegins()
    ensures Begins(PAIR, RESET_KEYED, {"u"})
  {
    assert Silent(PAIR) && Contained(PAIR);
    RestBegins(PAIR, RESET_KEYED, {"u"});
  }

  lemma PairLinks()
    ensures Graph(PAIR) && Handshaken(PAIR)
  {
    PairNames();
  }

  lemma PairStart()
    ensures Start(PAIR, RESET_KEYED, {"u"}) && ("b", "a") in BothWays(PAIR)
  {
    assert ("a", "b") in Links(PAIR);
    PairBegins();
    PairLinks();
  }

  const PUBLISHED: B.Outcome := B.Routed(RESET_KEYED, {LinkId("a")}, {})

  lemma PairProcess()
    ensures B.Process(DIALLED, RESET_KEYED, B.Local("c"), 1, "d").1 == PUBLISHED
    ensures B.Process(DIALLED, RESET_KEYED, B.Local("c"), 1, "d").0.order == ["u"]
  {
  }

  lemma PairEmits()
    ensures Emits(PAIR, "b", B.Local("c"), PUBLISHED) == {Back("b", "a", RESET_KEYED)}
  {
  }

  lemma PairPublish()
    ensures Enabled(PAIR, PUBLISH)
    ensures var n := Next(PAIR, PUBLISH);
      && n.brokers.Keys == {"a", "b"} && n.brokers["a"] == DIALLER && n.brokers["b"].order == ["u"]
      && n.flying == multiset{Back("b", "a", RESET_KEYED)}
  {
    PairNames();
    PairProcess();
    PairEmits();
  }

  lemma PairComeback(n: Net)
    requires n.brokers.Keys == {"a", "b"} && n.brokers["a"] == DIALLER && n.brokers["b"].order == ["u"]
    requires n.flying == multiset{Back("b", "a", RESET_KEYED)}
    ensures Enabled(n, COMEBACK)
    ensures var r := Next(n, COMEBACK);
      Quiet(r, RESET_KEYED) && Seen(r, "b", RESET_KEYED) && !Seen(r, "a", RESET_KEYED)
  {
  }
}

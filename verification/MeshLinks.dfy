/** Links come up and come back: whenever the dialled side knows a link's client,
    its wildcard subscription is in place or the handshake for it is under way. */
module MeshLinks {
  import opened Messages
  import opened Mesh
  import opened MeshOnce
  import opened MeshFlood
  import B = BrokerStep

  function ResetPacket(a: string, b: string): (p: Packet)
  {
    Back(b, a, Control(RESET, "", ""))
  }

  function SubscribePacket(a: string, b: string): (p: Packet)
  {
    Flood(a, b, Control(SUBSCRIBE, LinkId(a), ""))
  }

  /** The state of link a -> b as b and the wire hold it. */
  predicate Healthy(s: B.State, flying: multiset<Packet>, a: string, b: string)
  {
    || LinkId(a) !in s.clients
    || (LinkId(a), "") in s.pairs
    || ResetPacket(a, b) in flying
    || SubscribePacket(a, b) in flying
  }

  ghost predicate AllHealthy(n: Net)
  {
    forall a, b | Linked(n, a, b) && b in n.brokers :: Healthy(n.brokers[b], n.flying, a, b)
  }

  ghost predicate LinksInv(n: Net)
  {
    Graph(n) && Contained(n) && AllHealthy(n) && forall p | p in n.flying :: OnLink(n, p)
  }

  /** What one message does to the client l of a broker, if it is not the sender: nothing. */
  lemma OthersKeep(s: B.State, env: Envelope, origin: B.Origin, now: int, draw: string, l: string)
    requires origin != B.Local(l)
    ensures var r := B.Process(s, env, origin, now, draw).0;
      && r.peers == s.peers
      && (l in r.clients <==> l in s.clients)
      && ((l, "") in r.pairs <==> (l, "") in s.pairs)
  {
  }

  /** A link client's own message: it is reset if unknown, and never loses its subscription. */
  lemma OwnKeeps(s: B.State, env: Envelope, l: string, now: int, draw: string)
    requires env.header.key != DISCONNECT && env.header.key != UNSUBSCRIBE
    ensures var (r, out) := B.Process(s, env, B.Local(l), now, draw);
      && r.peers == s.peers
      && (l !in s.clients ==> out == B.ResetSent)
      && ((l, "") in s.pairs ==> (l, "") in r.pairs)
      && (l in s.clients && env.header.key == SUBSCRIBE && env.header.topic == "" ==> (l, "") in r.pairs)
  {
  }

  lemma EmitsOnLinks(n: Net, b: string, origin: B.Origin, out: B.Outcome)
    requires b in n.brokers && (out.Routed? ==> out.peers == n.brokers[b].peers)
    ensures forall p | p in Emits(n, b, origin, out) :: OnLink(n, p)
    ensures forall a | Linked(n, a, b) && origin == B.Local(LinkId(a)) && out == B.ResetSent ::
              ResetPacket(a, b) in Emits(n, b, origin, out)
  {
  }

  /** Link x -> y after broker b absorbed a message; `held` is the copy it came as. */
  lemma AbsorbHealthy(n: Net, held: Option<Packet>, b: string, env: Envelope, origin: B.Origin, now: int, draw: string,
                      x: string, y: string)
    requires Graph(n) && b in n.brokers && Linked(n, x, y)
    requires Healthy(n.brokers[y], Restore(n, held).flying, x, y)
    requires held.None? ==> origin.Local? && Ordinary(n, origin.id)
    requires held.Some? ==> held.value.dst == b && held.value.env == env && held.value.src in n.brokers
    requires held.Some? && held.value.Flood? ==> origin == B.Local(LinkId(held.value.src))
    requires held.Some? && held.value.Flood? ==> env.header.key != DISCONNECT && env.header.key != UNSUBSCRIBE
    requires held.Some? && held.value.Back? ==> origin == B.Peer && env.header.key != RESET
    ensures var r := Absorb(n, b, env, origin, now, draw); Healthy(r.brokers[y], r.flying, x, y)
  {
    var s, l := n.brokers[b], LinkId(x);
    var out := B.Process(s, env, origin, now, draw).1;
    if origin == B.Local(l) {
      assert held.Some? && held.value.Flood? && held.value.src == x;
      OwnKeeps(s, env, l, now, draw);
      EmitsOnLinks(n, b, origin, out);
    } else {
      OthersKeep(s, env, origin, now, draw, l);
      assert held.Some? ==> held.value != SubscribePacket(x, y) && held.value != ResetPacket(x, y);
    }
  }

  lemma AbsorbLinks(n: Net, held: Option<Packet>, b: string, env: Envelope, origin: B.Origin, now: int, draw: string)
    requires Graph(n) && Contained(n) && b in n.brokers && forall p | p in n.flying :: OnLink(n, p)
    requires origin.Peer? ==> !HandledLocally(env.header.key)
    ensures var r := Absorb(n, b, env, origin, now, draw);
      && Contained(r) && Graph(r) && SameLinks(n, r)
      && forall p | p in r.flying :: OnLink(r, p)
  {
    var r := Absorb(n, b, env, origin, now, draw);
    AbsorbContained(n, b, env, origin, now, draw);
    B.RoutedWhen(n.brokers[b], env, origin, now, draw);
    var out := B.Process(n.brokers[b], env, origin, now, draw).1;
    EmitsOnLinks(n, b, origin, out);
    PeersKept(n.brokers[b], env, origin, now, draw);
    KeepGraph(n, r);
    forall p | p in r.flying ensures OnLink(r, p) {
      assert p in n.flying || p in Emits(n, b, origin, out);
      assert OnLink(n, p);
    }
  }

  lemma PeersKept(s: B.State, env: Envelope, origin: B.Origin, now: int, draw: string)
    ensures B.Process(s, env, origin, now, draw).0.peers == s.peers
  {
  }

  /** A message from a client, or a copy `held` that is not a RESET coming back. */
  lemma AbsorbLinksInv(n: Net, held: Option<Packet>, b: string, env: Envelope, origin: B.Origin, now: int, draw: string)
    requires LinksInv(Restore(n, held)) && b in n.brokers
    requires held.None? ==> origin.Local? && Ordinary(n, origin.id)
    requires held.Some? ==> held.value.dst == b && held.value.env == env
    requires held.Some? && held.value.Flood? ==> origin == B.Local(LinkId(held.value.src))
    requires held.Some? && held.value.Back? ==> origin == B.Peer && env.header.key != RESET
    ensures LinksInv(Absorb(n, b, env, origin, now, draw))
  {
    var full, r := Restore(n, held), Absorb(n, b, env, origin, now, draw);
    if held.Some? {
      assert held.value in full.flying && OnLink(full, held.value);
    }
    assert forall p | p in n.flying :: p in full.flying && OnLink(full, p);
    KeepGraph(full, n);
    AbsorbLinks(n, held, b, env, origin, now, draw);
    forall x, y | Linked(r, x, y) && y in r.brokers ensures Healthy(r.brokers[y], r.flying, x, y) {
      assert Linked(n, x, y) && Linked(full, x, y);
      AbsorbHealthy(n, held, b, env, origin, now, draw, x, y);
    }
  }

  /** A RESET coming back makes the link renew its subscription; any launch keeps the rest. */
  lemma LaunchLinks(n: Net, held: Option<Packet>, p: Packet)
    requires LinksInv(Restore(n, held)) && OnLink(n, p) && p.Flood? && p.env.header.key in {SUBSCRIBE, HEARTBEAT}
    requires held.Some? ==> held.value.Back? && p == SubscribePacket(held.value.dst, held.value.src)
    ensures LinksInv(Launch(n, p))
  {
    var full, r := Restore(n, held), Launch(n, p);
    assert forall q | q in n.flying :: q in full.flying && OnLink(full, q);
    KeepGraph(full, r);
    forall x, y | Linked(r, x, y) && y in r.brokers ensures Healthy(r.brokers[y], r.flying, x, y) {
      assert Linked(full, x, y);
    }
  }

  lemma SweepLinks(n: Net, b: string, now: int)
    requires LinksInv(n) && b in n.brokers
    ensures LinksInv(Next(n, Sweep(b, now)))
  {
    var r := Next(n, Sweep(b, now));
    KeepGraph(n, r);
    forall p | p in r.flying ensures OnLink(r, p) {
      assert OnLink(n, p);
    }
    forall x, y | Linked(r, x, y) && y in r.brokers ensures Healthy(r.brokers[y], r.flying, x, y) {
      assert Linked(n, x, y);
    }
  }

  lemma DropAck(n: Net, p: Packet)
    requires LinksInv(Restore(n, Some(p))) && p.Back? && p.env.header.key == HEARTBEAT_ACK
    ensures LinksInv(n)
  {
    var full := Restore(n, Some(p));
    assert forall q | q in n.flying :: q in full.flying && OnLink(full, q);
    KeepGraph(full, n);
    forall x, y | Linked(n, x, y) && y in n.brokers ensures Healthy(n.brokers[y], n.flying, x, y) {
      assert Linked(full, x, y);
    }
  }

  lemma ArriveLinks(n: Net, p: Packet, now: int, draw: string)
    requires LinksInv(n) && p in n.flying && p.dst in n.brokers
    ensures LinksInv(Deliver(n, p, now, draw))
  {
    var rest := n.(flying := n.flying - multiset{p});
    assert Restore(rest, Some(p)) == n;
    assert OnLink(n, p);
    if p.Flood? {
      AbsorbLinksInv(rest, Some(p), p.dst, p.env, B.Local(LinkId(p.src)), now, draw);
    } else if p.env.header.key == RESET {
      LaunchLinks(rest, Some(p), SubscribePacket(p.dst, p.src));
    } else if p.env.header.key == HEARTBEAT_ACK {
      DropAck(rest, p);
    } else {
      AbsorbLinksInv(rest, Some(p), p.dst, p.env, B.Peer, now, draw);
    }
  }

  lemma NextLinks(n: Net, e: Event)
    requires LinksInv(n) && Enabled(n, e) && !e.Lose?
    ensures LinksInv(Next(n, e))
  {
    match e
    case Client(b, id, env, now, draw) => AbsorbLinksInv(n, None, b, env, B.Local(id), now, draw);
    case Arrive(p, now, draw) => ArriveLinks(n, p, now, draw);
    case Beat(a, b) => LaunchLinks(n, None, Flood(a, b, Control(HEARTBEAT, LinkId(a), "")));
    case Sweep(b, now) => SweepLinks(n, b, now);
  }

  lemma {:induction false} RunLinks(n: Net, events: seq<Event>)
    requires LinksInv(n) && Runs(n, events) && Lossless(events)
    ensures LinksInv(After(n, events))
    decreases |events|
  {
    if events != [] {
      LosslessTail(events);
      NextLinks(n, events[0]);
      RunLinks(Next(n, events[0]), events[1..]);
    }
  }

  /** Nothing is under way, and each link is up or its client unknown. */
  ghost predicate Resting(n: Net)
  {
    && n.flying == multiset{} && Contained(n) && Graph(n)
    && (forall a, b | Linked(n, a, b) && b in n.brokers ::
         LinkId(a) in n.brokers[b].clients ==> (LinkId(a), "") in n.brokers[b].pairs)
  }

  /** From links nobody has heard of, or links that are up, through any run without losses, in which
      brokers may forget links at any time: a link whose client is known has its wildcard
      subscription, unless its RESET or the SUBSCRIBE that answers it is still under way. */
  lemma LinksRecover(n: Net, events: seq<Event>)
    requires Resting(n) && Runs(n, events) && Lossless(events)
    ensures var r := After(n, events);
      forall a, b | Linked(r, a, b) && b in r.brokers && LinkId(a) in r.brokers[b].clients ::
        (LinkId(a), "") in r.brokers[b].pairs || ResetPacket(a, b) in r.flying || SubscribePacket(a, b) in r.flying
    ensures Graph(After(n, events))
  {
    RunLinks(n, events);
  }
}

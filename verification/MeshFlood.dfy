/** Flooding over a mesh whose links are up: as long as no copy is lost and no
    link is forgotten, a message some broker has seen goes on spreading across
    every link that lets its key through. */
module MeshFlood {
  import opened Messages
  import opened Mesh
  import opened MeshOnce
  import B = BrokerStep

  /** Peers exist, and the eight-character link names tell the brokers apart. */
  ghost predicate Graph(n: Net)
  {
    && (forall a, b | Linked(n, a, b) :: b in n.brokers)
    && (forall a, b | a in n.brokers && b in n.brokers && LinkId(a) == LinkId(b) :: a == b)
  }

  /** The dialled side of every link knows the link's client and its wildcard subscription. */
  ghost predicate Handshaken(n: Net)
  {
    forall a, b | Linked(n, a, b) && b in n.brokers ::
      LinkId(a) in n.brokers[b].clients && (LinkId(a), "") in n.brokers[b].pairs
  }

  /** Across every link: the neighbour has seen e, or a copy is on the way to it.  Towards the
      dialling side this is so for data keys only. */
  ghost predicate Spreading(n: Net, e: Envelope)
  {
    && (forall a, b | Linked(n, a, b) && Seen(n, a, e) :: Seen(n, b, e) || Flood(a, b, e) in n.flying)
    && (e.header.key.Named? ==>
        forall a, b | Linked(n, a, b) && Seen(n, b, e) :: Seen(n, a, e) || Back(b, a, e) in n.flying)
  }

  ghost predicate Inv(n: Net, e: Envelope, ids: set<string>)
  {
    OnceInv(n, e, ids) && Graph(n) && Handshaken(n) && Spreading(n, e)
  }

  lemma KeepGraph(n: Net, r: Net)
    requires Graph(n) && SameLinks(n, r)
    ensures Graph(r) && forall a, b :: Linked(r, a, b) <==> Linked(n, a, b)
  {
    forall a, b | Linked(r, a, b) ensures b in r.brokers {
      assert Linked(n, a, b);
    }
  }

  // ---- one broker absorbs one message

  lemma LinksReady(n: Net, b: string, e: Envelope, ids: set<string>)
    requires Handshaken(n) && FewIds(n, e, ids) && b in n.brokers
    ensures Ready(n.brokers[b], LinksInto(n, b), e, ids)
  {
    forall a | a in n.brokers && b in n.brokers[a].peers
      ensures LinkId(a) in n.brokers[b].clients && (LinkId(a), "") in n.brokers[b].pairs
    {
      assert Linked(n, a, b);
    }
  }

  /** A broker that routes e launches a copy on each of its links but the one it came from. */
  ghost predicate Reaching(n: Net, b: string, origin: B.Origin, out: B.Outcome, emits: set<Packet>, e: Envelope)
  {
    out.Routed? && out.env == e ==>
      && (forall x | Linked(n, b, x) :: Flood(b, x, e) in emits)
      && (forall a | Linked(n, a, b) && origin != B.Local(LinkId(a)) :: Back(b, a, e) in emits)
  }

  lemma EmitsReaching(n: Net, b: string, origin: B.Origin, s: B.State, out: B.Outcome, e: Envelope, ids: set<string>)
    requires b in n.brokers && Stepped(n.brokers[b], LinksInto(n, b), origin, s, out, e, ids)
    ensures Reaching(n, b, origin, out, Emits(n, b, origin, out), e)
  {
  }

  lemma ApplyHandshaken(n: Net, b: string, origin: B.Origin, s: B.State, out: B.Outcome, emits: set<Packet>,
                        e: Envelope, ids: set<string>)
    requires b in n.brokers && Handshaken(n) && Stepped(n.brokers[b], LinksInto(n, b), origin, s, out, e, ids)
    ensures Handshaken(Apply(n, b, s, out, emits))
  {
    var r := Apply(n, b, s, out, emits);
    forall x, y | Linked(r, x, y) && y in r.brokers
      ensures LinkId(x) in r.brokers[y].clients && (LinkId(x), "") in r.brokers[y].pairs
    {
      assert Linked(n, x, y);
      if y == b {
        assert LinkId(x) in LinksInto(n, b);
      }
    }
  }

  /** Broker b of n, with `held` just taken off its link, has gone to state s and launched `emits`. */
  ghost predicate Flooding(n: Net, held: Option<Packet>, b: string, origin: B.Origin, s: B.State, out: B.Outcome,
                           emits: set<Packet>, e: Envelope, ids: set<string>)
  {
    && b in n.brokers
    && Stepped(n.brokers[b], LinksInto(n, b), origin, s, out, e, ids)
    && Reaching(n, b, origin, out, emits, e)
    && (held.Some? && held.value.env == e ==> held.value.dst == b && e.header.uuid in s.order)
  }

  lemma SpreadForward(n: Net, held: Option<Packet>, b: string, origin: B.Origin, s: B.State, out: B.Outcome,
                      emits: set<Packet>, e: Envelope, ids: set<string>, x: string, y: string)
    requires Flooding(n, held, b, origin, s, out, emits, e, ids)
    requires Linked(n, x, y) && y in n.brokers
    requires Seen(n, x, e) ==> Seen(n, y, e) || Flood(x, y, e) in n.flying || held == Some(Flood(x, y, e))
    ensures var r := Apply(n, b, s, out, emits);
      Linked(r, x, y) && (Seen(r, x, e) ==> Seen(r, y, e) || Flood(x, y, e) in r.flying)
  {
  }

  lemma SpreadBackward(n: Net, held: Option<Packet>, b: string, origin: B.Origin, s: B.State, out: B.Outcome,
                       emits: set<Packet>, e: Envelope, ids: set<string>, x: string, y: string)
    requires Flooding(n, held, b, origin, s, out, emits, e, ids)
    requires Linked(n, x, y) && y in n.brokers
    requires Seen(n, y, e) ==> Seen(n, x, e) || Back(y, x, e) in n.flying || held == Some(Back(y, x, e))
    requires origin == B.Local(LinkId(x)) && out.Routed? && out.env == e ==> Seen(n, x, e)
    ensures var r := Apply(n, b, s, out, emits);
      Linked(r, x, y) && (Seen(r, y, e) ==> Seen(r, x, e) || Back(y, x, e) in r.flying)
  {
  }

  lemma ApplySpreading(n: Net, held: Option<Packet>, b: string, origin: B.Origin, s: B.State, out: B.Outcome,
                       emits: set<Packet>, e: Envelope, ids: set<string>)
    requires Flooding(n, held, b, origin, s, out, emits, e, ids)
    requires Graph(n) && Spreading(Restore(n, held), e)
    requires forall x | x in n.brokers && origin == B.Local(LinkId(x)) && out.Routed? && out.env == e :: Seen(n, x, e)
    ensures Spreading(Apply(n, b, s, out, emits), e)
  {
    var full, r := Restore(n, held), Apply(n, b, s, out, emits);
    forall x, y | Linked(r, x, y)
      ensures Seen(r, x, e) ==> Seen(r, y, e) || Flood(x, y, e) in r.flying
      ensures e.header.key.Named? && Seen(r, y, e) ==> Seen(r, x, e) || Back(y, x, e) in r.flying
    {
      assert Linked(n, x, y) && Linked(full, x, y);
      SpreadForward(n, held, b, origin, s, out, emits, e, ids, x, y);
      if e.header.key.Named? {
        SpreadBackward(n, held, b, origin, s, out, emits, e, ids, x, y);
      }
    }
  }

  /** A copy of e that arrives on a link is accepted, and e accepted from a link came from one that saw it. */
  lemma HeldAccepted(n: Net, held: Option<Packet>, b: string, env: Envelope, origin: B.Origin, draw: string,
                     e: Envelope, ids: set<string>)
    requires Routable(e) && Incoming(n, held, b, env, origin, draw, e, ids) && Inv(Restore(n, held), e, ids)
    ensures held.Some? && held.value.env == e ==> Accepts(n.brokers[b], env, origin, draw, e)
    ensures Accepts(n.brokers[b], env, origin, draw, e) ==>
              forall x | x in n.brokers && origin == B.Local(LinkId(x)) :: Seen(n, x, e)
  {
    var full := Restore(n, held);
    if held.Some? {
      assert held.value in full.flying && held.value in full.sent;
      if held.value.env == e {
        assert OnLink(full, held.value);
      } else if held.value.Flood? && B.Stamp(env, n.brokers[b].id, draw) == e {
        StampedCopy(held.value, n.brokers[b].id, draw, e, ids);
        assert false;
      }
    }
  }

  lemma AbsorbFlooding(n: Net, held: Option<Packet>, b: string, env: Envelope, origin: B.Origin, now: int,
                       draw: string, e: Envelope, ids: set<string>)
    requires Routable(e) && Incoming(n, held, b, env, origin, draw, e, ids) && Inv(Restore(n, held), e, ids)
    ensures var r := Absorb(n, b, env, origin, now, draw); Handshaken(r) && Spreading(r, e)
  {
    var (s, out) := B.Process(n.brokers[b], env, origin, now, draw);
    var full, emits := Restore(n, held), Emits(n, b, origin, out);
    LinksReady(full, b, e, ids);
    assert LinksInto(full, b) == LinksInto(n, b);
    IncomingAcceptable(n, LinksInto(n, b), held, b, env, origin, draw, e, ids);
    StateSteps(n.brokers[b], LinksInto(n, b), env, origin, now, draw, e, ids);
    EmitsReaching(n, b, origin, s, out, e, ids);
    HeldAccepted(n, held, b, env, origin, draw, e, ids);
    KeepGraph(full, n);
    ApplyHandshaken(n, b, origin, s, out, emits, e, ids);
    ApplySpreading(n, held, b, origin, s, out, emits, e, ids);
  }

  // ---- the other events

  /** Copies of e that the receiving end of the link passes on. */
  predicate Passes(p: Packet, e: Envelope)
  {
    p.env == e && (p.Flood? || e.header.key.Named?)
  }

  lemma SpreadingKept(n: Net, r: Net, e: Envelope)
    requires Spreading(n, e) && SameLinks(n, r)
    requires forall b :: Seen(n, b, e) <==> Seen(r, b, e)
    requires forall p | p in n.flying && Passes(p, e) :: p in r.flying
    ensures Spreading(r, e)
  {
    assert forall a, b | Linked(r, a, b) :: Linked(n, a, b);
    assert forall a, b :: Flood(a, b, e) in n.flying ==> Passes(Flood(a, b, e), e);
    assert e.header.key.Named? ==> forall a, b :: Back(a, b, e) in n.flying ==> Passes(Back(a, b, e), e);
  }

  lemma SweepHandshaken(n: Net, b: string, now: int)
    requires Handshaken(n) && b in n.brokers
    requires forall a | a in n.brokers :: LinkId(a) !in B.Overdue(n.brokers[b], now)
    ensures Handshaken(Next(n, Sweep(b, now)))
  {
    var r := Next(n, Sweep(b, now));
    forall x, y | Linked(r, x, y) && y in r.brokers
      ensures LinkId(x) in r.brokers[y].clients && (LinkId(x), "") in r.brokers[y].pairs
    {
      assert Linked(n, x, y);
    }
  }

  lemma SweepSeen(n: Net, b: string, now: int, e: Envelope)
    requires b in n.brokers
    ensures forall x :: Seen(n, x, e) <==> Seen(Next(n, Sweep(b, now)), x, e)
  {
  }

  lemma SameBrokersHandshaken(n: Net, r: Net)
    requires n.brokers == r.brokers && Handshaken(n)
    ensures Handshaken(r)
  {
    assert forall a, b | Linked(r, a, b) :: Linked(n, a, b);
  }

  /** A copy that stops at the worker of the link. */
  lemma KeptFlooding(n: Net, p: Packet, now: int, draw: string, e: Envelope)
    requires Handshaken(n) && Spreading(n, e) && p in n.flying && p.dst in n.brokers
    requires p.Back? && p.env.header.key in {RESET, HEARTBEAT_ACK}
    ensures var r := Deliver(n, p, now, draw); Handshaken(r) && Spreading(r, e)
  {
    var r := Deliver(n, p, now, draw);
    SameBrokersHandshaken(n, r);
    SameSeen(n, r, e);
    forall q | q in n.flying && Passes(q, e) ensures q in r.flying {
      assert q != p;
    }
    SpreadingKept(n, r, e);
  }

  lemma ArriveFlooding(n: Net, p: Packet, now: int, draw: string, e: Envelope, ids: set<string>)
    requires Routable(e) && Inv(n, e, ids) && p in n.flying && p.dst in n.brokers
    ensures var r := Deliver(n, p, now, draw); Handshaken(r) && Spreading(r, e)
  {
    if p.Back? && p.env.header.key in {RESET, HEARTBEAT_ACK} {
      KeptFlooding(n, p, now, draw, e);
    } else {
      var rest := n.(flying := n.flying - multiset{p});
      assert Restore(rest, Some(p)) == n;
      var origin := if p.Flood? then B.Local(LinkId(p.src)) else B.Peer;
      AbsorbFlooding(rest, Some(p), p.dst, p.env, origin, now, draw, e, ids);
    }
  }

  lemma BeatFlooding(n: Net, a: string, b: string, e: Envelope)
    requires Handshaken(n) && Spreading(n, e) && Enabled(n, Beat(a, b))
    ensures var r := Next(n, Beat(a, b)); Handshaken(r) && Spreading(r, e)
  {
    var r := Next(n, Beat(a, b));
    SameBrokersHandshaken(n, r);
    SameSeen(n, r, e);
    SpreadingKept(n, r, e);
  }

  // ---- calm runs: the uuid of e names e only, no losses, no link forgotten

  predicate Calm(n: Net, ev: Event, e: Envelope, ids: set<string>)
  {
    && Naming(n, ev, e, ids)
    && !ev.Lose?
    && (ev.Sweep? && ev.b in n.brokers ==>
        forall a | a in n.brokers :: LinkId(a) !in B.Overdue(n.brokers[ev.b], ev.now))
  }

  predicate CalmRun(n: Net, events: seq<Event>, e: Envelope, ids: set<string>)
    requires Runs(n, events)
    decreases |events|
  {
    events == [] || (Calm(n, events[0], e, ids) && CalmRun(Next(n, events[0]), events[1..], e, ids))
  }

  lemma NextFlooding(n: Net, ev: Event, e: Envelope, ids: set<string>)
    requires Routable(e) && Inv(n, e, ids) && Enabled(n, ev) && Calm(n, ev, e, ids)
    ensures Handshaken(Next(n, ev)) && Spreading(Next(n, ev), e)
  {
    match ev
    case Client(b, id, env, now, draw) => AbsorbFlooding(n, None, b, env, B.Local(id), now, draw, e, ids);
    case Arrive(p, now, draw) => ArriveFlooding(n, p, now, draw, e, ids);
    case Beat(a, b) => BeatFlooding(n, a, b, e);
    case Sweep(b, now) =>
      SweepHandshaken(n, b, now);
      SweepSeen(n, b, now, e);
      SpreadingKept(n, Next(n, ev), e);
  }

  lemma NextInv(n: Net, ev: Event, e: Envelope, ids: set<string>)
    requires Routable(e) && Inv(n, e, ids) && Enabled(n, ev) && Calm(n, ev, e, ids)
    ensures Inv(Next(n, ev), e, ids) && SameLinks(n, Next(n, ev))
  {
    NextOnce(n, ev, e, ids);
    NextFlooding(n, ev, e, ids);
    KeepGraph(n, Next(n, ev));
  }

  lemma {:induction false} CalmRunInv(n: Net, events: seq<Event>, e: Envelope, ids: set<string>)
    requires Routable(e) && Inv(n, e, ids) && Runs(n, events) && CalmRun(n, events, e, ids)
    ensures Inv(After(n, events), e, ids) && SameLinks(n, After(n, events)) && NamingRun(n, events, e, ids)
    decreases |events|
  {
    if events != [] {
      NextInv(n, events[0], e, ids);
      CalmRunInv(Next(n, events[0]), events[1..], e, ids);
    }
  }
}

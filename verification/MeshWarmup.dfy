/** How a mesh gets its links up: every link that beats becomes known, and a
    message published afterwards is covered as on links that were up all along. */
module MeshWarmup {
  import opened Messages
  import opened Mesh
  import opened Paths
  import opened MeshOnce
  import opened MeshFlood
  import opened MeshLinks
  import opened MeshDelivery
  import B = BrokerStep

  // ---- a link that beats becomes known

  function HeartbeatPacket(a: string, b: string): (p: Packet)
  {
    Flood(a, b, Control(HEARTBEAT, LinkId(a), ""))
  }

  predicate Alive(n: Net, l: (string, string))
  {
    || (l.1 in n.brokers && LinkId(l.0) in n.brokers[l.1].clients)
    || HeartbeatPacket(l.0, l.1) in n.flying
  }

  ghost predicate AllAlive(n: Net, links: Edges)
  {
    forall l | l in links :: l.0 in n.brokers && l.1 in n.brokers && Alive(n, l)
  }

  /** The links whose client is known. */
  function KnownLinks(n: Net): (r: Edges)
  {
    set l | l in Links(n) && l.1 in n.brokers && LinkId(l.0) in n.brokers[l.1].clients
  }

  /** Which links stay alive through an event: none that it sweeps, and the one that beats. */
  function Kept(n: Net, ev: Event, links: Edges): (r: Edges)
  {
    match ev
    case Beat(a, b) => links + {(a, b)}
    case Sweep(b, now) =>
      set l | l in links && !(l.1 == b && b in n.brokers && LinkId(l.0) in B.Overdue(n.brokers[b], now))
    case _ => links
  }

  /** The links that have beaten since they were last swept, or were in `links` and never swept. */
  function Beaten(n: Net, events: seq<Event>, links: Edges): (r: Edges)
    requires Runs(n, events)
    decreases |events|
  {
    if events == [] then links else Beaten(Next(n, events[0]), events[1..], Kept(n, events[0], links))
  }

  /** A message keeps every client known but a disconnecting sender, and makes its sender known. */
  lemma ProcessKnows(s: B.State, env: Envelope, origin: B.Origin, now: int, draw: string, c: string)
    requires origin == B.Local(c) ==> env.header.key != DISCONNECT
    ensures c in s.clients || origin == B.Local(c) ==> c in B.Process(s, env, origin, now, draw).0.clients
  {
  }

  lemma AbsorbAlive(n: Net, held: Option<Packet>, b: string, env: Envelope, origin: B.Origin, now: int, draw: string,
                    l: (string, string))
    requires b in n.brokers && l.0 in n.brokers && l.1 in n.brokers && Alive(Restore(n, held), l)
    requires held == Some(HeartbeatPacket(l.0, l.1)) ==> b == l.1 && origin == B.Local(LinkId(l.0))
    requires origin == B.Local(LinkId(l.0)) ==> env.header.key != DISCONNECT
    ensures Alive(Absorb(n, b, env, origin, now, draw), l)
  {
    ProcessKnows(n.brokers[b], env, origin, now, draw, LinkId(l.0));
  }

  lemma ArriveAlive(n: Net, p: Packet, now: int, draw: string, l: (string, string))
    requires Contained(n) && p in n.flying && p.dst in n.brokers
    requires l.0 in n.brokers && l.1 in n.brokers && Alive(n, l)
    ensures Alive(Deliver(n, p, now, draw), l)
  {
    var rest := n.(flying := n.flying - multiset{p});
    assert Restore(rest, Some(p)) == n;
    if p.Flood? || p.env.header.key !in {RESET, HEARTBEAT_ACK} {
      var origin := if p.Flood? then B.Local(LinkId(p.src)) else B.Peer;
      AbsorbAlive(rest, Some(p), p.dst, p.env, origin, now, draw, l);
    }
  }

  lemma NextAlive(n: Net, ev: Event, l: (string, string))
    requires Contained(n) && Enabled(n, ev) && !ev.Lose? && l.0 in n.brokers && l.1 in n.brokers
    requires Alive(n, l) || ev == Beat(l.0, l.1)
    requires l in Kept(n, ev, {l})
    ensures Alive(Next(n, ev), l)
  {
    match ev
    case Client(b, id, env, now, draw) => AbsorbAlive(n, None, b, env, B.Local(id), now, draw, l);
    case Arrive(p, now, draw) => ArriveAlive(n, p, now, draw, l);
    case Beat(_, _) =>
    case Sweep(_, _) =>
  }

  lemma NextAllAlive(n: Net, ev: Event, links: Edges)
    requires Contained(n) && Graph(n) && Enabled(n, ev) && !ev.Lose? && AllAlive(n, links)
    requires SameLinks(n, Next(n, ev))
    ensures AllAlive(Next(n, ev), Kept(n, ev, links))
  {
    forall l | l in Kept(n, ev, links) ensures l.0 in n.brokers && l.1 in n.brokers && Alive(Next(n, ev), l) {
      assert l in links || ev == Beat(l.0, l.1);
      assert l.1 in n.brokers by {
        if ev == Beat(l.0, l.1) {
          assert Linked(n, l.0, l.1);
        }
      }
      NextAlive(n, ev, l);
    }
  }

  /** Through a lossless run, every link that has beaten since it was last swept is known, or a
      heartbeat of it is under way. */
  lemma {:induction false} BeatenAlive(n: Net, events: seq<Event>, links: Edges)
    requires LinksInv(n) && AllAlive(n, links) && Runs(n, events) && Lossless(events)
    ensures AllAlive(After(n, events), Beaten(n, events, links)) && SameLinks(n, After(n, events))
    decreases |events|
  {
    if events != [] {
      LosslessTail(events);
      NextLinks(n, events[0]);
      LinksFixed(n, events[0]);
      NextAllAlive(n, events[0], links);
      BeatenAlive(Next(n, events[0]), events[1..], Kept(n, events[0], links));
    }
  }

  lemma AbsorbFixed(n: Net, b: string, env: Envelope, origin: B.Origin, now: int, draw: string)
    requires b in n.brokers
    ensures SameLinks(n, Absorb(n, b, env, origin, now, draw))
  {
    PeersKept(n.brokers[b], env, origin, now, draw);
  }

  lemma ArriveFixed(n: Net, p: Packet, now: int, draw: string)
    requires p in n.flying && p.dst in n.brokers
    ensures SameLinks(n, Deliver(n, p, now, draw))
  {
    var rest := n.(flying := n.flying - multiset{p});
    AbsorbFixed(rest, p.dst, p.env, if p.Flood? then B.Local(LinkId(p.src)) else B.Peer, now, draw);
  }

  lemma LinksFixed(n: Net, ev: Event)
    requires Enabled(n, ev)
    ensures SameLinks(n, Next(n, ev))
  {
    match ev
    case Client(b, id, env, now, draw) => AbsorbFixed(n, b, env, B.Local(id), now, draw);
    case Arrive(p, now, draw) => ArriveFixed(n, p, now, draw);
    case _ =>
  }

  /** The links come up by themselves: from links nobody has heard of, or links that are up, after a
      lossless run that leaves nothing under way and in which every link beats after it is last
      swept, or is known and never swept, the whole mesh is handshaken. */
  lemma LinksComeUp(n: Net, events: seq<Event>)
    requires Resting(n) && Runs(n, events) && Lossless(events)
    requires After(n, events).flying == multiset{} && Links(n) <= Beaten(n, events, KnownLinks(n))
    ensures var r := After(n, events); Handshaken(r) && Graph(r) && SameLinks(n, r)
  {
    var r := After(n, events);
    LinksRecover(n, events);
    BeatenAlive(n, events, KnownLinks(n));
    forall a, b | Linked(r, a, b) && b in r.brokers
      ensures LinkId(a) in r.brokers[b].clients && (LinkId(a), "") in r.brokers[b].pairs
    {
      assert (a, b) in Links(n);
    }
  }

  // ---- a run in which the uuid of e is not used leaves no trace of it

  /** No broker, copy or history mentions the uuid of e. */
  ghost predicate Absent(n: Net, u: string)
  {
    && (forall b | b in n.brokers :: B.Sound(n.brokers[b]) && u !in n.brokers[b].order)
    && (forall p | p in n.flying :: Clean(p, u))
    && (forall p | p in n.sent :: p.env.header.uuid != u)
    && (forall r | r in n.routed :: r.1.header.uuid != u)
    && (forall h | h in n.handed :: h.2.header.uuid != u)
  }

  /** A copy that no broker will take for the message u names. */
  predicate Clean(p: Packet, u: string)
  {
    && p.env.header.uuid != u
    && (p.env.header.uuid == "" ==>
        p.env.header.key in if p.Flood? then {SUBSCRIBE, HEARTBEAT} else {RESET, HEARTBEAT_ACK})
  }

  predicate Avoids(env: Envelope, origin: B.Origin, id: string, draw: string, u: string)
  {
    || (origin.Local? && HandledLocally(env.header.key))
    || (origin.Peer? && env.header.key in {RESET, HEARTBEAT_ACK, HEARTBEAT})
    || B.Stamp(env, id, draw).header.uuid !in {"", u}
  }

  lemma ProcessAvoids(s: B.State, env: Envelope, origin: B.Origin, now: int, draw: string, u: string)
    requires B.Sound(s) && u !in s.order && Avoids(env, origin, s.id, draw, u)
    ensures var (s', out) := B.Process(s, env, origin, now, draw);
      && B.Sound(s') && u !in s'.order
      && (out.Routed? ==> out.env.header.uuid !in {"", u})
  {
    B.StepSound(s, B.Message(env, origin, now, draw));
  }

  lemma ApplyAbsent(n: Net, b: string, s: B.State, out: B.Outcome, emits: set<Packet>, u: string)
    requires Absent(n, u) && B.Sound(s) && u !in s.order
    requires out.Routed? ==> out.env.header.uuid != u
    requires forall p | p in emits :: Clean(p, u)
    ensures Absent(Apply(n, b, s, out, emits), u)
  {
  }

  lemma AbsorbAbsent(n: Net, b: string, env: Envelope, origin: B.Origin, now: int, draw: string, u: string)
    requires Absent(n, u) && u != "" && b in n.brokers && Avoids(env, origin, n.brokers[b].id, draw, u)
    ensures Absent(Absorb(n, b, env, origin, now, draw), u)
  {
    var (s, out) := B.Process(n.brokers[b], env, origin, now, draw);
    ProcessAvoids(n.brokers[b], env, origin, now, draw, u);
    ApplyAbsent(n, b, s, out, Emits(n, b, origin, out), u);
  }

  /** Clients put no message with uuid u, and none without a uuid, into the mesh; otherwise anything goes. */
  predicate Unused(n: Net, ev: Event, u: string)
  {
    ev.Client? && ev.b in n.brokers ==> Avoids(ev.env, B.Local(ev.id), n.brokers[ev.b].id, ev.draw, u)
  }

  predicate UnusedRun(n: Net, events: seq<Event>, u: string)
    requires Runs(n, events)
    decreases |events|
  {
    events == [] || (Unused(n, events[0], u) && UnusedRun(Next(n, events[0]), events[1..], u))
  }

  lemma ArriveAbsent(n: Net, p: Packet, now: int, draw: string, u: string)
    requires Absent(n, u) && u != "" && p in n.flying && p.dst in n.brokers
    ensures Absent(Deliver(n, p, now, draw), u)
  {
    var rest := n.(flying := n.flying - multiset{p});
    assert Clean(p, u) && Absent(rest, u);
    if p.Flood? || p.env.header.key !in {RESET, HEARTBEAT_ACK} {
      AbsorbAbsent(rest, p.dst, p.env, if p.Flood? then B.Local(LinkId(p.src)) else B.Peer, now, draw, u);
    }
  }

  lemma SweepAbsent(n: Net, b: string, now: int, u: string)
    requires Absent(n, u) && b in n.brokers
    ensures Absent(Next(n, Sweep(b, now)), u)
  {
    B.StepSound(n.brokers[b], B.Sweep(now));
  }

  lemma NextAbsent(n: Net, ev: Event, u: string)
    requires Absent(n, u) && u != "" && Enabled(n, ev) && Unused(n, ev, u)
    ensures Absent(Next(n, ev), u)
  {
    match ev
    case Client(b, id, env, now, draw) => AbsorbAbsent(n, b, env, B.Local(id), now, draw, u);
    case Arrive(p, now, draw) => ArriveAbsent(n, p, now, draw, u);
    case Sweep(b, now) => SweepAbsent(n, b, now, u);
    case _ =>
  }

  /** However long the run is and however often the histories turn over. */
  lemma {:induction false} RunAbsent(n: Net, events: seq<Event>, u: string)
    requires Absent(n, u) && u != "" && Runs(n, events) && UnusedRun(n, events, u)
    ensures Absent(After(n, events), u)
    decreases |events|
  {
    if events != [] {
      NextAbsent(n, events[0], u);
      RunAbsent(Next(n, events[0]), events[1..], u);
    }
  }

  lemma AbsentBegins(n: Net, e: Envelope, ids: set<string>)
    requires Absent(n, e.header.uuid) && n.flying == multiset{} && Contained(n) && |ids| <= B.MAX_HISTORY
    ensures Begins(n, e, ids)
  {
    forall b | b in n.brokers ensures n.routed[(b, e)] == 0 {
      assert (b, e) !in n.routed;
    }
    forall b, c | b in n.brokers ensures n.handed[(b, c, e)] == 0 {
      assert (b, c, e) !in n.handed;
    }
    RestBegins(n, e, ids);
  }

  /** From links nobody has heard of, or links that are up, and after any lossless run that brings the
      links up and does not use the uuid of e, a message e published from then on covers exactly
      the brokers that CoverageExact names.  The ids of the first run are not bounded. */
  lemma CoverageOnceLinksAreUp(n: Net, warmup: seq<Event>, events: seq<Event>, e: Envelope, ids: set<string>,
                               b: string)
    requires Routable(e) && |ids| <= B.MAX_HISTORY && Resting(n) && Absent(n, e.header.uuid) && b in n.brokers
    requires Runs(n, warmup) && UnusedRun(n, warmup, e.header.uuid) && Lossless(warmup)
    requires After(n, warmup).flying == multiset{} && Links(n) <= Beaten(n, warmup, KnownLinks(n))
    requires var m := After(n, warmup);
      Runs(m, events) && CalmRun(m, events, e, ids) && Quiet(After(m, events), e)
    ensures var m := After(n, warmup);
      var from := Publishers(m, events, e);
      After(m, events).routed[(b, e)] == if Reaches(Crossings(n, e.header.key), from, b) then 1 else 0
  {
    var m := After(n, warmup);
    LinksComeUp(n, warmup);
    RunAbsent(n, warmup, e.header.uuid);
    RunContained(n, warmup);
    AbsentBegins(m, e, ids);
    CoverageExact(m, events, e, ids, b);
    SameCrossings(n, m, e.header.key);
  }
}

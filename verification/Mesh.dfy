/** Many brokers on an arbitrary graph of peer links, cycles included.  A link
    from A to B is B's key in A's peer table: A's floods reach B as messages of
    the local client LinkId(A), and B's traffic comes back because that client
    is subscribed to the wildcard. */
module Mesh {
  import opened Messages
  import B = BrokerStep

  /** A copy under way on a link: flooded by the dialling side, or sent back by
      the dialled side to the link's client. */
  datatype Packet =
    | Flood(src: string, dst: string, env: Envelope)
    | Back(src: string, dst: string, env: Envelope)

  /** `flying` is a multiset, so copies may be reordered in any way.  The other
      three are histories: every copy ever sent, every (broker, message) routed,
      and every (broker, client, message) handed to a client. */
  datatype Net = Net(
    brokers: map<string, B.State>,
    flying: multiset<Packet>,
    sent: multiset<Packet>,
    routed: multiset<(string, Envelope)>,
    handed: multiset<(string, string, Envelope)>)

  /** The routing id of the links a broker dials, from the broker's own id.  The brokers of a net
      are keyed by that id; see `SelfNamed`. */
  function LinkId(broker: string): (id: string)
  {
    "BrokerLink-" + if |broker| > 8 then broker[..8] else broker
  }

  /** The name is the word BrokerLink, a hyphen and the first eight characters of the broker's id. */
  lemma LinkIdShape(broker: string)
    ensures var id := LinkId(broker);
      && id[..11] == "BrokerLink-" && id[11..] <= broker
      && |id| == 11 + if |broker| < 8 then |broker| else 8
  {
  }

  /** Copies to every link client among `ids` at broker b. */
  function BackTo(n: Net, b: string, ids: set<string>, env: Envelope): (r: set<Packet>)
  {
    set a | a in n.brokers && LinkId(a) in ids && b in n.brokers[a].peers :: Back(b, a, env)
  }

  function Emits(n: Net, b: string, origin: B.Origin, out: B.Outcome): (r: set<Packet>)
  {
    match out
    case ResetSent => if origin.Local? then BackTo(n, b, {origin.id}, Control(RESET, "", "")) else {}
    case Acked => if origin.Local? then BackTo(n, b, {origin.id}, Control(HEARTBEAT_ACK, "", "")) else {}
    case Routed(env, recipients, peers) =>
      (set p | p in peers :: Flood(b, p, env)) + BackTo(n, b, recipients, env)
    case _ => {}
  }

  /** The net after broker b went to state s with the given outcome and launched `emits`. */
  function Apply(n: Net, b: string, s: B.State, out: B.Outcome, emits: set<Packet>): (r: Net)
  {
    Net(n.brokers[b := s],
        n.flying + multiset(emits),
        n.sent + multiset(emits),
        if out.Routed? then n.routed + multiset{(b, out.env)} else n.routed,
        if out.Routed? then n.handed + multiset(set c | c in out.recipients :: (b, c, out.env)) else n.handed)
  }

  function Absorb(n: Net, b: string, env: Envelope, origin: B.Origin, now: int, draw: string): (r: Net)
    requires b in n.brokers
  {
    var (s, out) := B.Process(n.brokers[b], env, origin, now, draw);
    Apply(n, b, s, out, Emits(n, b, origin, out))
  }

  function Launch(n: Net, p: Packet): (r: Net)
  {
    n.(flying := n.flying + multiset{p}, sent := n.sent + multiset{p})
  }

  /** A copy arrives.  Coming back, RESET makes the link renew its wildcard
      subscription and HEARTBEAT_ACK stops at the worker. */
  function Deliver(n: Net, p: Packet, now: int, draw: string): (r: Net)
    requires p in n.flying && p.dst in n.brokers
  {
    var rest := n.(flying := n.flying - multiset{p});
    match p
    case Flood(src, dst, env) => Absorb(rest, dst, env, B.Local(LinkId(src)), now, draw)
    case Back(src, dst, env) =>
      if env.header.key == RESET then Launch(rest, Flood(dst, src, Control(SUBSCRIBE, LinkId(dst), "")))
      else if env.header.key == HEARTBEAT_ACK then rest
      else Absorb(rest, dst, env, B.Peer, now, draw)
  }

  datatype Event =
    | Client(b: string, id: string, env: Envelope, now: int, draw: string)
    | Arrive(p: Packet, now: int, draw: string)
    | Beat(a: string, b: string)
    | Sweep(b: string, now: int)
    | Lose(p: Packet)

  predicate Ordinary(n: Net, id: string)
  {
    forall a | a in n.brokers :: LinkId(a) != id
  }

  predicate Enabled(n: Net, e: Event)
  {
    match e
    case Client(b, id, _, _, _) => b in n.brokers && Ordinary(n, id)
    case Arrive(p, _, _) => p in n.flying && p.dst in n.brokers
    case Beat(a, b) => a in n.brokers && b in n.brokers[a].peers
    case Sweep(b, _) => b in n.brokers
    case Lose(p) => p in n.flying
  }

  function Next(n: Net, e: Event): (r: Net)
    requires Enabled(n, e)
  {
    match e
    case Client(b, id, env, now, draw) => Absorb(n, b, env, B.Local(id), now, draw)
    case Arrive(p, now, draw) => Deliver(n, p, now, draw)
    case Beat(a, b) => Launch(n, Flood(a, b, Control(HEARTBEAT, LinkId(a), "")))
    case Sweep(b, now) =>
      n.(brokers := n.brokers[b := B.Step(n.brokers[b], B.Sweep(now))])
    case Lose(p) => n.(flying := n.flying - multiset{p})
  }

  /** Every event of the run is enabled when its turn comes. */
  predicate Runs(n: Net, events: seq<Event>)
    decreases |events|
  {
    events == [] || (Enabled(n, events[0]) && Runs(Next(n, events[0]), events[1..]))
  }

  function After(n: Net, events: seq<Event>): (r: Net)
    requires Runs(n, events)
    decreases |events|
  {
    if events == [] then n else After(Next(n, events[0]), events[1..])
  }

  predicate Lossless(events: seq<Event>)
  {
    forall e | e in events :: !e.Lose?
  }

  lemma LosslessTail(events: seq<Event>)
    requires Lossless(events) && events != []
    ensures !events[0].Lose? && Lossless(events[1..])
  {
  }

  // ---- brokers keep their ids

  /** Every broker is keyed by its own id. */
  predicate SelfNamed(n: Net)
  {
    forall b | b in n.brokers :: n.brokers[b].id == b
  }

  lemma AbsorbSelfNamed(n: Net, b: string, env: Envelope, origin: B.Origin, now: int, draw: string)
    requires SelfNamed(n) && b in n.brokers
    ensures SelfNamed(Absorb(n, b, env, origin, now, draw))
  {
    assert B.Process(n.brokers[b], env, origin, now, draw).0.id == n.brokers[b].id;
  }

  lemma NextSelfNamed(n: Net, e: Event)
    requires SelfNamed(n) && Enabled(n, e)
    ensures SelfNamed(Next(n, e))
  {
    match e
    case Client(b, id, env, now, draw) => AbsorbSelfNamed(n, b, env, B.Local(id), now, draw);
    case Arrive(p, now, draw) =>
      var rest := n.(flying := n.flying - multiset{p});
      AbsorbSelfNamed(rest, p.dst, p.env, if p.Flood? then B.Local(LinkId(p.src)) else B.Peer, now, draw);
    case _ =>
  }

  lemma {:induction false} RunSelfNamed(n: Net, events: seq<Event>)
    requires SelfNamed(n) && Runs(n, events)
    ensures SelfNamed(After(n, events))
    decreases |events|
  {
    if events != [] {
      NextSelfNamed(n, events[0]);
      RunSelfNamed(Next(n, events[0]), events[1..]);
    }
  }

  // ---- control keys never escape

  predicate Silent(n: Net)
  {
    n.flying == multiset{} && n.sent == multiset{} && n.routed == multiset{} && n.handed == multiset{}
  }

  /** What may be under way, and what may ever have been routed. */
  ghost predicate Contained(n: Net)
  {
    && (forall p | p in n.flying :: if p.Flood?
         then p.env.header.key !in {CONNECT, DISCONNECT, UNSUBSCRIBE}
         else !HandledLocally(p.env.header.key))
    && (forall r | r in n.routed :: !HandledLocally(r.1.header.key))
  }

  lemma ApplyContained(n: Net, b: string, s: B.State, out: B.Outcome, emits: set<Packet>)
    requires Contained(n)
    requires out.Routed? ==> !HandledLocally(out.env.header.key)
    requires forall p | p in emits :: !HandledLocally(p.env.header.key)
    ensures Contained(Apply(n, b, s, out, emits))
  {
  }

  lemma AbsorbContained(n: Net, b: string, env: Envelope, origin: B.Origin, now: int, draw: string)
    requires Contained(n) && b in n.brokers
    requires origin.Peer? ==> !HandledLocally(env.header.key)
    ensures Contained(Absorb(n, b, env, origin, now, draw))
  {
    var (s, out) := B.Process(n.brokers[b], env, origin, now, draw);
    RoutedNotLocal(n.brokers[b], env, origin, now, draw);
    EmitsNotLocal(n, b, origin, out);
    ApplyContained(n, b, s, out, Emits(n, b, origin, out));
  }

  lemma RoutedNotLocal(s: B.State, env: Envelope, origin: B.Origin, now: int, draw: string)
    requires origin.Peer? ==> !HandledLocally(env.header.key)
    ensures var out := B.Process(s, env, origin, now, draw).1; out.Routed? ==> !HandledLocally(out.env.header.key)
  {
  }

  lemma EmitsNotLocal(n: Net, b: string, origin: B.Origin, out: B.Outcome)
    requires out.Routed? ==> !HandledLocally(out.env.header.key)
    ensures forall p | p in Emits(n, b, origin, out) :: !HandledLocally(p.env.header.key)
  {
  }

  lemma NextContained(n: Net, e: Event)
    requires Contained(n) && Enabled(n, e)
    ensures Contained(Next(n, e))
  {
    match e
    case Client(b, id, env, now, draw) =>
      AbsorbContained(n, b, env, B.Local(id), now, draw);
    case Arrive(p, now, draw) =>
      var rest := n.(flying := n.flying - multiset{p});
      var origin := if p.Flood? then B.Local(LinkId(p.src)) else B.Peer;
      AbsorbContained(rest, p.dst, p.env, origin, now, draw);
    case _ =>
  }

  lemma {:induction false} RunContained(n: Net, events: seq<Event>)
    requires Contained(n) && Runs(n, events)
    ensures Contained(After(n, events))
    decreases |events|
  {
    if events != [] {
      NextContained(n, events[0]);
      RunContained(Next(n, events[0]), events[1..]);
    }
  }

  /** In every run from empty queues, over every graph, with losses, sweeps and
      links that are not yet handshaken, no broker ever routes a message keyed
      CONNECT, DISCONNECT, HEARTBEAT, SUBSCRIBE or UNSUBSCRIBE. */
  lemma ControlNeverRouted(n: Net, events: seq<Event>)
    requires Silent(n) && Runs(n, events)
    ensures forall b, env | (b, env) in After(n, events).routed ::
      env.header.key !in {CONNECT, DISCONNECT, HEARTBEAT, SUBSCRIBE, UNSUBSCRIBE}
  {
    RunContained(n, events);
  }
}

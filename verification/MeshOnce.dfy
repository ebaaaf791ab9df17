/** What dedup alone guarantees: in every run of the mesh, with losses, forgotten
    links, links that were never handshaken and reserved keys, each broker routes
    one message at most once and each direction of a link carries it at most once. */
module MeshOnce {
  import opened Messages
  import opened Sequences
  import opened Mesh
  import opened Paths
  import B = BrokerStep

  predicate Linked(n: Net, a: string, b: string)
  {
    a in n.brokers && b in n.brokers[a].peers
  }

  predicate Seen(n: Net, b: string, e: Envelope)
  {
    b in n.brokers && e.header.uuid in n.brokers[b].order
  }

  predicate OnLink(n: Net, p: Packet)
  {
    if p.Flood? then Linked(n, p.src, p.dst) else Linked(n, p.dst, p.src)
  }

  /** A stamped message that a broker may route. */
  predicate Routable(e: Envelope)
  {
    e.header.uuid != "" && !HandledLocally(e.header.key)
  }

  /** Everything accepted since u entered the history is one of `ids`; what is older is free. */
  ghost predicate Recent(order: seq<string>, u: string, ids: set<string>)
  {
    NoRepeats(order) && forall i, j | 0 <= i <= j < |order| && order[i] == u :: order[j] in ids
  }

  /** Few enough ids are in play since e was seen that no history ever evicts its uuid. */
  ghost predicate FewIds(n: Net, e: Envelope, ids: set<string>)
  {
    |ids| <= B.MAX_HISTORY && forall b | b in n.brokers :: Recent(n.brokers[b].order, e.header.uuid, ids)
  }

  /** A stamped message of the run; the uuid of e names e only. */
  predicate Known(env: Envelope, e: Envelope, ids: set<string>)
  {
    && env.header.uuid != "" && env.header.uuid in ids
    && (env.header.uuid == e.header.uuid ==> env == e)
  }

  predicate Proper(p: Packet, e: Envelope, ids: set<string>)
  {
    || Known(p.env, e, ids)
    || (p.env.header.uuid == "" &&
        p.env.header.key in if p.Flood? then {SUBSCRIBE, HEARTBEAT} else {RESET, HEARTBEAT_ACK})
  }

  ghost predicate ProperFlight(n: Net, e: Envelope, ids: set<string>)
  {
    forall p | p in n.flying :: Proper(p, e, ids)
  }

  /** Only brokers that routed e sent it, once per direction of a link. */
  ghost predicate SentOnce(n: Net, e: Envelope)
  {
    && n.flying <= n.sent
    && (forall p | p in n.sent && p.env == e :: OnLink(n, p) && Seen(n, p.src, e) && n.sent[p] == 1)
  }

  /** Each broker routed e exactly once if it has seen it, and handed it to no client twice. */
  ghost predicate RoutedOnce(n: Net, e: Envelope)
  {
    && (forall b | b in n.brokers :: n.routed[(b, e)] == if Seen(n, b, e) then 1 else 0)
    && (forall b, c | b in n.brokers :: n.handed[(b, c, e)] <= if Seen(n, b, e) then 1 else 0)
  }

  ghost predicate OnceInv(n: Net, e: Envelope, ids: set<string>)
  {
    FewIds(n, e, ids) && Contained(n) && ProperFlight(n, e, ids) && SentOnce(n, e) && RoutedOnce(n, e)
  }

  // ---- one broker step

  /** The part of a broker's state the mesh depends on; `links` are link clients it should serve. */
  ghost predicate Ready(s: B.State, links: set<string>, e: Envelope, ids: set<string>)
  {
    && |ids| <= B.MAX_HISTORY
    && (forall l | l in links :: l in s.clients && (l, "") in s.pairs)
    && Recent(s.order, e.header.uuid, ids)
  }

  ghost predicate Stepped(before: B.State, links: set<string>, origin: B.Origin, s: B.State, out: B.Outcome,
                          e: Envelope, ids: set<string>)
  {
    && s.peers == before.peers
    && Ready(s, links, e, ids)
    && (e.header.uuid in s.order <==> e.header.uuid in before.order || (out.Routed? && out.env == e))
    && (out.Routed? ==>
        && Known(out.env, e, ids) && !HandledLocally(out.env.header.key)
        && out.env.header.uuid !in before.order
        && out.peers == before.peers
        && (forall l | l in links && origin != B.Local(l) :: l in out.recipients))
  }

  /** The history may evict, but not the uuid of e: everything since it would have to fit in `ids`. */
  lemma RememberRecent(order: seq<string>, w: string, u: string, ids: set<string>)
    requires Recent(order, u, ids) && |ids| <= B.MAX_HISTORY && w in ids && w !in order
    ensures Recent(B.Remember(order, w), u, ids)
    ensures u in B.Remember(order, w) <==> u in order || u == w
  {
    var longer, r := order + [w], B.Remember(order, w);
    assert Recent(longer, u, ids) && (u in longer <==> u in order || u == w);
    if |longer| > B.MAX_HISTORY {
      if longer[0] == u {
        BoundedByRange(longer, ids);
        assert false;
      }
      assert longer == [longer[0]] + r;
      assert u in longer <==> u == longer[0] || u in r;
    }
  }

  lemma RouteSteps(s: B.State, links: set<string>, env: Envelope, origin: B.Origin, e: Envelope, ids: set<string>)
    requires Ready(s, links, e, ids) && Known(env, e, ids) && !HandledLocally(env.header.key)
    ensures var (s', out) := B.Route(s, env, origin);
      Stepped(s, links, origin, s', out, e, ids) && (env == e ==> e.header.uuid in s'.order)
  {
    if env.header.uuid !in s.order {
      RememberRecent(s.order, env.header.uuid, e.header.uuid, ids);
    }
  }

  lemma LocalSteps(s: B.State, links: set<string>, env: Envelope, c: string, now: int, e: Envelope, ids: set<string>)
    requires Ready(s, links, e, ids)
    requires HandledLocally(env.header.key) || Known(env, e, ids)
    requires c in links ==> env.header.key != DISCONNECT && env.header.key != UNSUBSCRIBE
    ensures var (s', out) := B.ProcessLocal(s, env, c, now);
      && Stepped(s, links, B.Local(c), s', out, e, ids)
      && (c in s.clients && !HandledLocally(env.header.key) && env == e ==> e.header.uuid in s'.order)
      && (out.Routed? ==> c in s.clients && out.env == env)
  {
    var seen := s.(clients := s.clients[c := now]);
    if c in s.clients && !HandledLocally(env.header.key) {
      RouteSteps(seen, links, env, B.Local(c), e, ids);
    }
  }

  /** What a link client may not send, and what must be stamped. */
  predicate Acceptable(s: B.State, links: set<string>, env: Envelope, origin: B.Origin, draw: string,
                       e: Envelope, ids: set<string>)
  {
    && (origin.Local? ==>
        && (HandledLocally(env.header.key) || Known(B.Stamp(env, s.id, draw), e, ids))
        && (origin.id in links ==> env.header.key != DISCONNECT && env.header.key != UNSUBSCRIBE))
    && (origin.Peer? ==> !HandledLocally(env.header.key) && Known(env, e, ids))
  }

  /** The message is e and the broker is to route it, unless it already has. */
  predicate Accepts(s: B.State, env: Envelope, origin: B.Origin, draw: string, e: Envelope)
  {
    match origin
    case Local(c) => c in s.clients && B.Stamp(env, s.id, draw) == e
    case Peer => env == e && e.header.key.Named?
  }

  lemma StateSteps(s: B.State, links: set<string>, env: Envelope, origin: B.Origin, now: int, draw: string,
                   e: Envelope, ids: set<string>)
    requires Routable(e) && Ready(s, links, e, ids) && Acceptable(s, links, env, origin, draw, e, ids)
    ensures var (s', out) := B.Process(s, env, origin, now, draw);
      && Stepped(s, links, origin, s', out, e, ids)
      && (Accepts(s, env, origin, draw, e) ==> e.header.uuid in s'.order)
      && (out.Routed? && out.env == e ==> Accepts(s, env, origin, draw, e))
  {
    var stamped := B.Stamp(env, s.id, draw);
    if origin.Local? {
      LocalSteps(s, links, stamped, origin.id, now, e, ids);
    } else {
      RouteSteps(s, links, stamped, B.Peer, e, ids);
    }
  }

  // ---- one broker of the net absorbs one message

  function Restore(n: Net, held: Option<Packet>): (r: Net)
  {
    if held.None? then n else n.(flying := n.flying + multiset{held.value})
  }

  /** What broker b is about to process: a client's message, or the copy `held` just taken off a link. */
  predicate Incoming(n: Net, held: Option<Packet>, b: string, env: Envelope, origin: B.Origin, draw: string,
                     e: Envelope, ids: set<string>)
  {
    && b in n.brokers
    && match held
       case None =>
         && origin.Local? && Ordinary(n, origin.id)
         && (HandledLocally(env.header.key) || Known(B.Stamp(env, n.brokers[b].id, draw), e, ids))
       case Some(Flood(src, dst, copy)) => dst == b && copy == env && origin == B.Local(LinkId(src))
       case Some(Back(src, dst, copy)) =>
         dst == b && copy == env && origin == B.Peer && env.header.key !in {RESET, HEARTBEAT_ACK}
  }

  /** The link clients that broker b serves. */
  function LinksInto(n: Net, b: string): (r: set<string>)
  {
    set a | a in n.brokers && b in n.brokers[a].peers :: LinkId(a)
  }

  lemma IncomingAcceptable(n: Net, links: set<string>, held: Option<Packet>, b: string, env: Envelope,
                           origin: B.Origin, draw: string, e: Envelope, ids: set<string>)
    requires Incoming(n, held, b, env, origin, draw, e, ids) && links <= LinksInto(n, b)
    requires Contained(Restore(n, held)) && ProperFlight(Restore(n, held), e, ids)
    ensures Acceptable(n.brokers[b], links, env, origin, draw, e, ids)
  {
    var full := Restore(n, held);
    if held.Some? {
      assert held.value in full.flying;
    }
  }

  /** Every copy in `emits` leaves b on one of its links, and carries e only if b routed e just now. */
  ghost predicate Launched(n: Net, b: string, out: B.Outcome, emits: set<Packet>, e: Envelope, ids: set<string>)
  {
    && (forall p | p in emits ::
         Proper(p, e, ids) && OnLink(n, p) && p.src == b && !HandledLocally(p.env.header.key))
    && (forall p | p in emits && p.env == e :: out.Routed? && out.env == e)
  }

  lemma EmitsLaunched(n: Net, links: set<string>, b: string, origin: B.Origin, s: B.State, out: B.Outcome,
                      e: Envelope, ids: set<string>)
    requires Routable(e) && b in n.brokers && Stepped(n.brokers[b], links, origin, s, out, e, ids)
    ensures Launched(n, b, out, Emits(n, b, origin, out), e, ids)
  {
  }

  /** Broker b of n has gone to state s and launched `emits`; `accepted` tells that the message was e. */
  ghost predicate Absorbing(n: Net, links: set<string>, b: string, origin: B.Origin, accepted: bool, s: B.State,
                            out: B.Outcome, emits: set<Packet>, e: Envelope, ids: set<string>)
  {
    && Routable(e) && b in n.brokers
    && Stepped(n.brokers[b], links, origin, s, out, e, ids)
    && Launched(n, b, out, emits, e, ids)
    && (accepted ==> e.header.uuid in s.order)
    && (out.Routed? && out.env == e ==> accepted)
  }

  ghost predicate SameLinks(n: Net, r: Net)
  {
    n.brokers.Keys == r.brokers.Keys && forall a | a in n.brokers :: n.brokers[a].peers == r.brokers[a].peers
  }

  /** Who has seen e only grows, by b at most, and by b if it accepted e. */
  ghost predicate Grows(n: Net, r: Net, b: string, accepted: bool, e: Envelope)
  {
    && (forall x | Seen(n, x, e) :: Seen(r, x, e))
    && (forall x | Seen(r, x, e) && !Seen(n, x, e) :: x == b && accepted)
    && (accepted ==> Seen(r, b, e))
  }

  /** A copy of e not yet used up: still to be sent, or under way. */
  predicate Open(n: Net, p: Packet)
  {
    p !in n.sent || p in n.flying
  }

  /** Nothing used up becomes open again, and a delivered copy of e is used up. */
  ghost predicate Shrinks(n: Net, r: Net, delivered: Option<Packet>, e: Envelope)
  {
    && (forall p: Packet | p.env == e && Open(r, p) :: Open(n, p))
    && (delivered.Some? && delivered.value.env == e ==>
        OnLink(n, delivered.value) && Open(n, delivered.value) && !Open(r, delivered.value))
  }

  lemma ApplyGrows(n: Net, links: set<string>, b: string, origin: B.Origin, accepted: bool, s: B.State,
                   out: B.Outcome, emits: set<Packet>, e: Envelope, ids: set<string>)
    requires Absorbing(n, links, b, origin, accepted, s, out, emits, e, ids) && FewIds(n, e, ids)
    ensures var r := Apply(n, b, s, out, emits); SameLinks(n, r) && Grows(n, r, b, accepted, e) && FewIds(r, e, ids)
  {
  }

  lemma ApplyFlight(n: Net, links: set<string>, b: string, origin: B.Origin, accepted: bool, s: B.State,
                    out: B.Outcome, emits: set<Packet>, e: Envelope, ids: set<string>)
    requires Absorbing(n, links, b, origin, accepted, s, out, emits, e, ids)
    requires Contained(n) && ProperFlight(n, e, ids)
    ensures var r := Apply(n, b, s, out, emits); Contained(r) && ProperFlight(r, e, ids)
  {
    ApplyContained(n, b, s, out, emits);
  }

  /** A broker that routes e now has not seen it before, so none of the copies was ever sent. */
  lemma EmitsNew(n: Net, held: Option<Packet>, links: set<string>, b: string, origin: B.Origin, accepted: bool,
                 s: B.State, out: B.Outcome, emits: set<Packet>, e: Envelope, ids: set<string>)
    requires Absorbing(n, links, b, origin, accepted, s, out, emits, e, ids)
    requires SentOnce(Restore(n, held), e)
    ensures forall p | p in emits && p.env == e :: p !in n.sent
  {
    var full := Restore(n, held);
    forall p | p in emits && p.env == e ensures p !in n.sent {
      assert !Seen(full, b, e);
    }
  }

  lemma ApplySentOnce(n: Net, held: Option<Packet>, b: string, s: B.State, out: B.Outcome, emits: set<Packet>,
                      e: Envelope)
    requires SentOnce(Restore(n, held), e)
    requires b in n.brokers && SameLinks(n, Apply(n, b, s, out, emits))
    requires forall p | p in emits && p.env == e ::
               p !in n.sent && OnLink(n, p) && p.src == b && e.header.uuid in s.order
    requires Seen(n, b, e) ==> e.header.uuid in s.order
    ensures SentOnce(Apply(n, b, s, out, emits), e)
  {
    var full, r := Restore(n, held), Apply(n, b, s, out, emits);
    assert n.flying <= full.flying;
    forall p | p in r.sent && p.env == e
      ensures OnLink(r, p) && Seen(r, p.src, e) && r.sent[p] == 1
    {
      assert p in emits || (p in full.sent && OnLink(full, p));
      assert OnLink(n, p);
    }
  }

  lemma ApplyRoutedOnce(n: Net, links: set<string>, b: string, origin: B.Origin, accepted: bool, s: B.State,
                        out: B.Outcome, emits: set<Packet>, e: Envelope, ids: set<string>)
    requires Absorbing(n, links, b, origin, accepted, s, out, emits, e, ids)
    requires RoutedOnce(n, e)
    ensures RoutedOnce(Apply(n, b, s, out, emits), e)
  {
    var r := Apply(n, b, s, out, emits);
    forall x | x in r.brokers ensures r.routed[(x, e)] == if Seen(r, x, e) then 1 else 0 {
      assert n.routed[(x, e)] == if Seen(n, x, e) then 1 else 0;
    }
    forall x, c | x in r.brokers ensures r.handed[(x, c, e)] <= if Seen(r, x, e) then 1 else 0 {
      assert n.handed[(x, c, e)] <= if Seen(n, x, e) then 1 else 0;
    }
  }

  lemma ApplyShrinks(n: Net, held: Option<Packet>, b: string, s: B.State, out: B.Outcome, emits: set<Packet>,
                     e: Envelope)
    requires SentOnce(Restore(n, held), e)
    requires forall p | p in emits && p.env == e :: p !in n.sent
    ensures Shrinks(Restore(n, held), Apply(n, b, s, out, emits), held, e)
  {
    var full, r := Restore(n, held), Apply(n, b, s, out, emits);
    if held.Some? && held.value.env == e {
      assert full.flying[held.value] <= full.sent[held.value] == 1;
    }
  }

  /** What survives taking the copy `held` off its link. */
  lemma LessFlight(n: Net, held: Option<Packet>, e: Envelope, ids: set<string>)
    requires OnceInv(Restore(n, held), e, ids)
    ensures FewIds(n, e, ids) && Contained(n) && ProperFlight(n, e, ids) && RoutedOnce(n, e)
  {
    var full := Restore(n, held);
    assert forall p | p in n.flying :: p in full.flying;
    assert forall b :: Seen(n, b, e) <==> Seen(full, b, e);
  }

  lemma AbsorbedOnce(n: Net, held: Option<Packet>, links: set<string>, b: string, origin: B.Origin, accepted: bool,
                     s: B.State, out: B.Outcome, emits: set<Packet>, e: Envelope, ids: set<string>)
    requires Absorbing(n, links, b, origin, accepted, s, out, emits, e, ids)
    requires OnceInv(Restore(n, held), e, ids)
    ensures var r := Apply(n, b, s, out, emits);
      && OnceInv(r, e, ids) && SameLinks(n, r) && Grows(n, r, b, accepted, e)
      && Shrinks(Restore(n, held), r, held, e)
  {
    LessFlight(n, held, e, ids);
    ApplyGrows(n, links, b, origin, accepted, s, out, emits, e, ids);
    ApplyFlight(n, links, b, origin, accepted, s, out, emits, e, ids);
    EmitsNew(n, held, links, b, origin, accepted, s, out, emits, e, ids);
    ApplySentOnce(n, held, b, s, out, emits, e);
    ApplyRoutedOnce(n, links, b, origin, accepted, s, out, emits, e, ids);
    ApplyShrinks(n, held, b, s, out, emits, e);
  }

  lemma AbsorbOnce(n: Net, held: Option<Packet>, b: string, env: Envelope, origin: B.Origin, now: int, draw: string,
                   e: Envelope, ids: set<string>)
    requires Routable(e) && Incoming(n, held, b, env, origin, draw, e, ids)
    requires OnceInv(Restore(n, held), e, ids)
    ensures var r := Absorb(n, b, env, origin, now, draw);
      && OnceInv(r, e, ids) && SameLinks(n, r)
      && Grows(n, r, b, Accepts(n.brokers[b], env, origin, draw, e), e)
      && Shrinks(Restore(n, held), r, held, e)
  {
    var (s, out) := B.Process(n.brokers[b], env, origin, now, draw);
    var accepted := Accepts(n.brokers[b], env, origin, draw, e);
    IncomingAcceptable(n, {}, held, b, env, origin, draw, e, ids);
    LessFlight(n, held, e, ids);
    StateSteps(n.brokers[b], {}, env, origin, now, draw, e, ids);
    EmitsLaunched(n, {}, b, origin, s, out, e, ids);
    AbsorbedOnce(n, held, {}, b, origin, accepted, s, out, Emits(n, b, origin, out), e, ids);
  }

  // ---- the other events

  /** The nets agree on the links, on who has seen e and on what was routed, handed over
      and sent of e; r may have fewer copies of e under way. */
  ghost predicate SameView(n: Net, r: Net, e: Envelope)
  {
    && SameLinks(n, r)
    && (forall b :: Seen(n, b, e) <==> Seen(r, b, e))
    && (forall p: Packet | p.env == e :: r.flying[p] <= n.flying[p] && n.sent[p] == r.sent[p])
    && n.routed == r.routed && n.handed == r.handed
  }

  lemma SameViewKeeps(n: Net, r: Net, e: Envelope, taken: Option<Packet>)
    requires SameView(n, r, e) && SentOnce(n, e) && RoutedOnce(n, e) && r.flying <= r.sent
    requires taken.Some? && taken.value.env == e ==> n.flying[taken.value] == r.flying[taken.value] + 1
    ensures SentOnce(r, e) && RoutedOnce(r, e) && Shrinks(n, r, taken, e)
  {
    forall p | p in r.sent && p.env == e ensures OnLink(r, p) && Seen(r, p.src, e) && r.sent[p] == 1 {
      assert p in n.sent && OnLink(n, p);
    }
    if taken.Some? && taken.value.env == e {
      assert n.flying[taken.value] <= n.sent[taken.value] == 1;
    }
  }

  /** A heartbeat, or the SUBSCRIBE that answers the RESET `held`. */
  lemma LaunchOnce(n: Net, held: Option<Packet>, p: Packet, e: Envelope, ids: set<string>)
    requires Routable(e) && OnceInv(Restore(n, held), e, ids)
    requires p.Flood? && p.env.header.uuid == "" && p.env.header.key in {SUBSCRIBE, HEARTBEAT}
    ensures var r := Launch(n, p); OnceInv(r, e, ids) && Shrinks(Restore(n, held), r, held, e)
  {
    LessFlight(n, held, e, ids);
    LaunchView(n, held, p, e);
    SameViewKeeps(Restore(n, held), Launch(n, p), e, held);
  }

  lemma LaunchView(n: Net, held: Option<Packet>, p: Packet, e: Envelope)
    requires p.env != e && SentOnce(Restore(n, held), e)
    ensures var r := Launch(n, p); SameView(Restore(n, held), r, e) && r.flying <= r.sent
  {
    assert n.flying <= Restore(n, held).flying <= n.sent;
  }

  /** The copy p is lost, or stops at the worker of the link. */
  lemma LoseOnce(n: Net, p: Packet, e: Envelope, ids: set<string>)
    requires Routable(e) && OnceInv(n, e, ids) && p in n.flying
    ensures var r := n.(flying := n.flying - multiset{p}); OnceInv(r, e, ids) && Shrinks(n, r, Some(p), e)
  {
    var r := n.(flying := n.flying - multiset{p});
    assert Restore(r, Some(p)) == n;
    LessFlight(r, Some(p), e, ids);
    LoseView(n, p, e);
    SameViewKeeps(n, r, e, Some(p));
  }

  lemma LoseView(n: Net, p: Packet, e: Envelope)
    requires n.flying <= n.sent && p in n.flying
    ensures var r := n.(flying := n.flying - multiset{p});
      SameView(n, r, e) && r.flying <= r.sent && n.flying[p] == r.flying[p] + 1
  {
  }

  lemma SweepOnce(n: Net, b: string, now: int, e: Envelope, ids: set<string>)
    requires OnceInv(n, e, ids) && b in n.brokers
    ensures var r := Next(n, Sweep(b, now)); OnceInv(r, e, ids) && SameView(n, r, e) && Shrinks(n, r, None, e)
  {
    SameViewKeeps(n, Next(n, Sweep(b, now)), e, None);
  }

  // ---- whole runs

  /** The one thing asked of the clients: what is routed is stamped with one of `ids`, and
      the uuid of e is stamped on e only. */
  predicate Naming(n: Net, ev: Event, e: Envelope, ids: set<string>)
  {
    ev.Client? && ev.b in n.brokers ==>
      HandledLocally(ev.env.header.key) || Known(B.Stamp(ev.env, n.brokers[ev.b].id, ev.draw), e, ids)
  }

  predicate NamingRun(n: Net, events: seq<Event>, e: Envelope, ids: set<string>)
    requires Runs(n, events)
    decreases |events|
  {
    events == [] || (Naming(n, events[0], e, ids) && NamingRun(Next(n, events[0]), events[1..], e, ids))
  }

  function Taken(ev: Event): (r: Option<Packet>)
  {
    if ev.Arrive? then Some(ev.p) else None
  }

  /** A client that its broker knows publishes e. */
  predicate Publishes(n: Net, ev: Event, e: Envelope)
  {
    && ev.Client? && ev.b in n.brokers && ev.id in n.brokers[ev.b].clients
    && B.Stamp(ev.env, n.brokers[ev.b].id, ev.draw) == e
  }

  /** How broker x can come to see e: from a client, or from a copy that its end of the link passes on. */
  predicate Brings(n: Net, ev: Event, x: string, e: Envelope)
  {
    match ev
    case Client(b, _, _, _, _) => x == b && Publishes(n, ev, e)
    case Arrive(p, _, _) => x == p.dst && p.env == e && (p.Flood? || e.header.key.Named?)
    case _ => false
  }

  ghost predicate Spreads(n: Net, r: Net, ev: Event, e: Envelope)
  {
    && (forall x | Seen(n, x, e) :: Seen(r, x, e))
    && (forall x | Seen(r, x, e) && !Seen(n, x, e) :: Brings(n, ev, x, e))
    && (Publishes(n, ev, e) ==> Seen(r, ev.b, e))
  }

  lemma GrowsSpreads(n: Net, r: Net, ev: Event, b: string, accepted: bool, e: Envelope)
    requires Grows(n, r, b, accepted, e)
    requires accepted ==> Brings(n, ev, b, e)
    requires Publishes(n, ev, e) ==> accepted && ev.b == b
    ensures Spreads(n, r, ev, e)
  {
  }

  /** Stamping changes no copy that carries e. */
  lemma StampedCopy(p: Packet, id: string, draw: string, e: Envelope, ids: set<string>)
    requires Routable(e) && p.Flood? && Proper(p, e, ids) && B.Stamp(p.env, id, draw) == e
    ensures p.env == e
  {
  }

  lemma ArriveAbsorbed(n: Net, p: Packet, origin: B.Origin, now: int, draw: string, e: Envelope, ids: set<string>)
    requires Routable(e) && OnceInv(n, e, ids) && p in n.flying && p.dst in n.brokers
    requires p.Flood? ==> origin == B.Local(LinkId(p.src))
    requires p.Back? ==> origin == B.Peer && p.env.header.key !in {RESET, HEARTBEAT_ACK}
    ensures var r := Absorb(n.(flying := n.flying - multiset{p}), p.dst, p.env, origin, now, draw);
      && OnceInv(r, e, ids) && SameLinks(n, r) && Shrinks(n, r, Some(p), e)
      && Spreads(n, r, Arrive(p, now, draw), e)
  {
    var rest, s := n.(flying := n.flying - multiset{p}), n.brokers[p.dst];
    assert Restore(rest, Some(p)) == n;
    assert Proper(p, e, ids);
    AbsorbOnce(rest, Some(p), p.dst, p.env, origin, now, draw, e, ids);
    if Accepts(s, p.env, origin, draw, e) && p.Flood? {
      StampedCopy(p, s.id, draw, e, ids);
    }
    SameSeen(rest, n, e);
    var r := Absorb(rest, p.dst, p.env, origin, now, draw);
    GrowsSpreads(n, r, Arrive(p, now, draw), p.dst, Accepts(s, p.env, origin, draw, e), e);
  }

  lemma SameSeen(n: Net, r: Net, e: Envelope)
    requires n.brokers == r.brokers
    ensures forall b :: Seen(n, b, e) <==> Seen(r, b, e)
  {
  }

  lemma SameSpreads(n: Net, r: Net, ev: Event, e: Envelope)
    requires forall b :: Seen(n, b, e) <==> Seen(r, b, e)
    requires !ev.Client?
    ensures Spreads(n, r, ev, e)
  {
  }

  lemma ArriveReset(n: Net, p: Packet, now: int, draw: string, e: Envelope, ids: set<string>)
    requires Routable(e) && OnceInv(n, e, ids) && p in n.flying && p.dst in n.brokers
    requires p.Back? && p.env.header.key == RESET
    ensures var r := Deliver(n, p, now, draw); OnceInv(r, e, ids) && n.brokers == r.brokers && Shrinks(n, r, Some(p), e)
  {
    var rest := n.(flying := n.flying - multiset{p});
    assert Restore(rest, Some(p)) == n;
    LaunchOnce(rest, Some(p), Flood(p.dst, p.src, Control(SUBSCRIBE, LinkId(p.dst), "")), e, ids);
  }

  /** RESET and HEARTBEAT_ACK coming back stop at the worker of the link. */
  lemma ArriveKept(n: Net, p: Packet, now: int, draw: string, e: Envelope, ids: set<string>)
    requires Routable(e) && OnceInv(n, e, ids) && p in n.flying && p.dst in n.brokers
    requires p.Back? && p.env.header.key in {RESET, HEARTBEAT_ACK}
    ensures var r := Deliver(n, p, now, draw); OnceInv(r, e, ids) && n.brokers == r.brokers && Shrinks(n, r, Some(p), e)
  {
    if p.env.header.key == RESET {
      ArriveReset(n, p, now, draw, e, ids);
    } else {
      LoseOnce(n, p, e, ids);
    }
  }

  lemma ArriveOnce(n: Net, p: Packet, now: int, draw: string, e: Envelope, ids: set<string>)
    requires Routable(e) && OnceInv(n, e, ids) && p in n.flying && p.dst in n.brokers
    ensures var r := Deliver(n, p, now, draw);
      && OnceInv(r, e, ids) && SameLinks(n, r) && Shrinks(n, r, Some(p), e)
      && Spreads(n, r, Arrive(p, now, draw), e)
  {
    if p.Back? && p.env.header.key in {RESET, HEARTBEAT_ACK} {
      ArriveKept(n, p, now, draw, e, ids);
      SameSeen(n, Deliver(n, p, now, draw), e);
      SameSpreads(n, Deliver(n, p, now, draw), Arrive(p, now, draw), e);
    } else {
      ArriveAbsorbed(n, p, if p.Flood? then B.Local(LinkId(p.src)) else B.Peer, now, draw, e, ids);
    }
  }

  lemma ClientOnce(n: Net, ev: Event, e: Envelope, ids: set<string>)
    requires Routable(e) && OnceInv(n, e, ids) && ev.Client? && Enabled(n, ev) && Naming(n, ev, e, ids)
    ensures var r := Next(n, ev);
      OnceInv(r, e, ids) && SameLinks(n, r) && Shrinks(n, r, None, e) && Spreads(n, r, ev, e)
  {
    AbsorbOnce(n, None, ev.b, ev.env, B.Local(ev.id), ev.now, ev.draw, e, ids);
    GrowsSpreads(n, Next(n, ev), ev, ev.b, Publishes(n, ev, e), e);
  }

  lemma BeatOnce(n: Net, a: string, b: string, e: Envelope, ids: set<string>)
    requires Routable(e) && OnceInv(n, e, ids) && Enabled(n, Beat(a, b))
    ensures var r := Next(n, Beat(a, b)); OnceInv(r, e, ids) && n.brokers == r.brokers && Shrinks(n, r, None, e)
  {
    LaunchOnce(n, None, Flood(a, b, Control(HEARTBEAT, LinkId(a), "")), e, ids);
  }

  lemma OtherOnce(n: Net, ev: Event, e: Envelope, ids: set<string>)
    requires Routable(e) && OnceInv(n, e, ids) && Enabled(n, ev) && !ev.Client? && !ev.Arrive?
    ensures var r := Next(n, ev);
      OnceInv(r, e, ids) && SameLinks(n, r) && Shrinks(n, r, None, e) && Spreads(n, r, ev, e)
  {
    match ev
    case Beat(a, b) => BeatOnce(n, a, b, e, ids);
    case Sweep(b, now) => SweepOnce(n, b, now, e, ids);
    case Lose(p) => LoseOnce(n, p, e, ids);
    SameSpreads(n, Next(n, ev), ev, e);
  }

  /** Every event keeps the invariant, uses up the delivered copy and spreads e only along a link. */
  lemma NextOnce(n: Net, ev: Event, e: Envelope, ids: set<string>)
    requires Routable(e) && OnceInv(n, e, ids) && Enabled(n, ev) && Naming(n, ev, e, ids)
    ensures var r := Next(n, ev);
      OnceInv(r, e, ids) && SameLinks(n, r) && Shrinks(n, r, Taken(ev), e) && Spreads(n, r, ev, e)
  {
    match ev
    case Client(_, _, _, _, _) => ClientOnce(n, ev, e, ids);
    case Arrive(p, now, draw) => ArriveOnce(n, p, now, draw, e, ids);
    case _ => OtherOnce(n, ev, e, ids);
  }

  lemma {:induction false} RunOnce(n: Net, events: seq<Event>, e: Envelope, ids: set<string>)
    requires Routable(e) && OnceInv(n, e, ids) && Runs(n, events) && NamingRun(n, events, e, ids)
    ensures OnceInv(After(n, events), e, ids) && SameLinks(n, After(n, events))
    decreases |events|
  {
    if events != [] {
      NextOnce(n, events[0], e, ids);
      RunOnce(Next(n, events[0]), events[1..], e, ids);
    }
  }

  /** Nothing is under way, and nothing that happened so far mentions e. */
  ghost predicate Begins(n: Net, e: Envelope, ids: set<string>)
  {
    && FewIds(n, e, ids) && Contained(n) && n.flying == multiset{}
    && (forall b :: !Seen(n, b, e))
    && (forall p | p in n.sent :: p.env != e)
    && (forall b | b in n.brokers :: n.routed[(b, e)] == 0)
    && (forall b, c | b in n.brokers :: n.handed[(b, c, e)] == 0)
  }

  lemma BeginsOnce(n: Net, e: Envelope, ids: set<string>)
    requires Begins(n, e, ids)
    ensures OnceInv(n, e, ids)
  {
  }

  /** Every mesh of sound brokers that is at rest and has no trace of e is such a beginning, however
      long it has been running and however full its histories are. */
  lemma RestBegins(n: Net, e: Envelope, ids: set<string>)
    requires |ids| <= B.MAX_HISTORY && Contained(n) && n.flying == multiset{}
    requires forall b | b in n.brokers :: B.Sound(n.brokers[b]) && e.header.uuid !in n.brokers[b].order
    requires forall p | p in n.sent :: p.env != e
    requires forall b | b in n.brokers :: n.routed[(b, e)] == 0
    requires forall b, c | b in n.brokers :: n.handed[(b, c, e)] == 0
    ensures Begins(n, e, ids)
  {
  }

  /** In every run that stamps at most 10000 ids and uses the uuid of e for e only, each
      broker routes e at most once and hands it to each client at most once, each direction of a
      link carries it at most once, and no copy of it is altered on the way. */
  lemma RoutedAndSentOnce(n: Net, events: seq<Event>, e: Envelope, ids: set<string>, b: string, c: string, p: Packet)
    requires Routable(e) && Begins(n, e, ids) && Runs(n, events) && NamingRun(n, events, e, ids)
    ensures var r := After(n, events);
      && (b in n.brokers ==> r.routed[(b, e)] <= 1 && r.handed[(b, c, e)] <= r.routed[(b, e)])
      && (p.env == e ==> r.sent[p] <= 1)
      && (p in r.sent && p.env == e ==> OnLink(n, p) && r.routed[(p.src, e)] == 1)
      && (p in r.flying && p.env.header.uuid == e.header.uuid ==> p.env == e)
  {
    BeginsOnce(n, e, ids);
    RunOnce(n, events, e, ids);
    var r := After(n, events);
    OnceIn(r, e, ids, b, c, p);
    if p in r.sent && p.env == e {
      assert OnLink(r, p);
    }
  }

  lemma OnceIn(n: Net, e: Envelope, ids: set<string>, b: string, c: string, p: Packet)
    requires Routable(e) && ProperFlight(n, e, ids) && SentOnce(n, e) && RoutedOnce(n, e)
    ensures b in n.brokers ==> n.routed[(b, e)] <= 1 && n.handed[(b, c, e)] <= n.routed[(b, e)]
    ensures p.env == e ==> n.sent[p] <= 1
    ensures p in n.sent && p.env == e ==> n.routed[(p.src, e)] == 1
    ensures p in n.flying && p.env.header.uuid == e.header.uuid ==> p.env == e
  {
    if p in n.flying {
      assert Proper(p, e, ids);
    }
  }

  // ---- where e can come from

  /** Every link, from the dialling side to the dialled one. */
  function Links(n: Net): (r: Edges)
  {
    set a, b | a in n.brokers && b in n.brokers[a].peers :: (a, b)
  }

  /** Every link, in both directions. */
  function BothWays(n: Net): (r: Edges)
  {
    Links(n) + set l | l in Links(n) :: (l.1, l.0)
  }

  /** Where a message with this key passes: RESET and HEARTBEAT_ACK stop on the way back. */
  function Crossings(n: Net, key: Key): (r: Edges)
  {
    if key.Named? then BothWays(n) else Links(n)
  }

  lemma CrossingIffLinked(n: Net, key: Key, a: string, b: string)
    ensures (a, b) in Crossings(n, key) <==> Linked(n, a, b) || (key.Named? && Linked(n, b, a))
  {
    assert (b, a) in Links(n) <==> Linked(n, b, a);
  }

  lemma SameCrossings(n: Net, r: Net, key: Key)
    requires SameLinks(n, r)
    ensures Links(n) == Links(r) && Crossings(n, key) == Crossings(r, key)
  {
    assert forall a, b :: (a, b) in Links(n) <==> (a, b) in Links(r);
  }

  function Publisher(n: Net, ev: Event, e: Envelope): (r: set<string>)
  {
    if Publishes(n, ev, e) then {ev.b} else {}
  }

  /** The brokers at which a known client published e. */
  function Publishers(n: Net, events: seq<Event>, e: Envelope): (r: set<string>)
    requires Runs(n, events)
    decreases |events|
  {
    if events == [] then {}
    else Publisher(n, events[0], e) + Publishers(Next(n, events[0]), events[1..], e)
  }

  /** Every broker that has seen e is reached from one in `from`, and all of those have seen it. */
  ghost predicate Traced(n: Net, e: Envelope, from: set<string>)
  {
    && (forall b | Seen(n, b, e) :: Reaches(Crossings(n, e.header.key), from, b))
    && (forall b | b in from :: Seen(n, b, e))
  }

  /** A broker that comes to see e is next to one that has, or is the publisher. */
  lemma BroughtReaches(n: Net, ev: Event, e: Envelope, from: set<string>, x: string)
    requires Enabled(n, ev) && Brings(n, ev, x, e) && SentOnce(n, e)
    requires forall b | Seen(n, b, e) :: Reaches(Crossings(n, e.header.key), from, b)
    ensures Reaches(Crossings(n, e.header.key), from + Publisher(n, ev, e), x)
  {
    var edges, more := Crossings(n, e.header.key), from + Publisher(n, ev, e);
    if ev.Client? {
      ReachesSelf(edges, more, x);
    } else {
      assert ev.p in n.sent && OnLink(n, ev.p);
      CrossingIffLinked(n, e.header.key, ev.p.src, x);
      ReachesStep(edges, from, ev.p.src, x);
      ReachesMore(edges, from, more, x);
    }
  }

  lemma SeenReaches(n: Net, r: Net, ev: Event, e: Envelope, from: set<string>, x: string)
    requires Enabled(n, ev) && SentOnce(n, e) && SameLinks(n, r)
    requires forall b | Seen(n, b, e) :: Reaches(Crossings(n, e.header.key), from, b)
    requires Seen(n, x, e) || Brings(n, ev, x, e)
    ensures Reaches(Crossings(r, e.header.key), from + Publisher(n, ev, e), x)
  {
    SameCrossings(n, r, e.header.key);
    if Seen(n, x, e) {
      ReachesMore(Crossings(n, e.header.key), from, from + Publisher(n, ev, e), x);
    } else {
      BroughtReaches(n, ev, e, from, x);
    }
  }

  lemma SpreadsTraced(n: Net, r: Net, ev: Event, e: Envelope, from: set<string>)
    requires Enabled(n, ev) && SentOnce(n, e) && SameLinks(n, r) && Spreads(n, r, ev, e) && Traced(n, e, from)
    ensures Traced(r, e, from + Publisher(n, ev, e))
  {
    forall x | Seen(r, x, e) ensures Reaches(Crossings(r, e.header.key), from + Publisher(n, ev, e), x) {
      SeenReaches(n, r, ev, e, from, x);
    }
  }

  lemma {:induction false} RunTraced(n: Net, events: seq<Event>, e: Envelope, ids: set<string>, from: set<string>)
    requires Routable(e) && OnceInv(n, e, ids) && Runs(n, events) && NamingRun(n, events, e, ids) && Traced(n, e, from)
    ensures Traced(After(n, events), e, from + Publishers(n, events, e))
    decreases |events|
  {
    if events == [] {
      assert from + Publishers(n, events, e) == from;
    } else {
      var r, here := Next(n, events[0]), Publisher(n, events[0], e);
      NextOnce(n, events[0], e, ids);
      SpreadsTraced(n, r, events[0], e, from);
      RunTraced(r, events[1..], e, ids, from + here);
      assert from + Publishers(n, events, e) == from + here + Publishers(r, events[1..], e);
    }
  }

  lemma BeginsTraced(n: Net, e: Envelope, ids: set<string>)
    requires Begins(n, e, ids)
    ensures Traced(n, e, {})
  {
  }

  lemma FromStart(n: Net, events: seq<Event>, e: Envelope, ids: set<string>)
    requires Routable(e) && Begins(n, e, ids) && Runs(n, events) && NamingRun(n, events, e, ids)
    ensures var r := After(n, events);
      OnceInv(r, e, ids) && SameLinks(n, r) && Traced(r, e, Publishers(n, events, e))
  {
    BeginsOnce(n, e, ids);
    BeginsTraced(n, e, ids);
    RunOnce(n, events, e, ids);
    RunTracedFrom(n, events, e, ids);
  }

  lemma RunTracedFrom(n: Net, events: seq<Event>, e: Envelope, ids: set<string>)
    requires Routable(e) && OnceInv(n, e, ids) && Runs(n, events) && NamingRun(n, events, e, ids) && Traced(n, e, {})
    ensures Traced(After(n, events), e, Publishers(n, events, e))
  {
    RunTraced(n, events, e, ids, {});
    assert {} + Publishers(n, events, e) == Publishers(n, events, e);
  }

  /** In every run, a broker that routed e is reached by a trail from one whose client published
      it, and every broker whose client published e routed it. */
  lemma RoutedComesFromPublisher(n: Net, events: seq<Event>, e: Envelope, ids: set<string>, b: string)
    requires Routable(e) && Begins(n, e, ids) && Runs(n, events) && NamingRun(n, events, e, ids) && b in n.brokers
    ensures var r := After(n, events);
      && (r.routed[(b, e)] == 1 ==> Reaches(Crossings(n, e.header.key), Publishers(n, events, e), b))
      && (b in Publishers(n, events, e) ==> r.routed[(b, e)] == 1)
  {
    FromStart(n, events, e, ids);
    SameCrossings(n, After(n, events), e.header.key);
  }
}

/** What goes out on the broker's sockets for every message, said of the state before
    it, and that the handshake and the mesh count on exactly these answers. */
module Answers {
  import opened Messages
  import opened Broker
  import B = BrokerStep
  import H = Handshake
  import M = Mesh
  import MeshOnce

  /** A bare header with this key and nothing else. */
  function Bare(key: Key): (r: Envelope)
  {
    Envelope(Header(key, "", "", "", "", "", 0, 0, ""), [])
  }

  /** Whatever the state, a client's control message floods nothing, and is answered to that client
      alone: with one RESET if the client was unknown and is not leaving, with one HEARTBEAT_ACK if it
      was known and sent a heartbeat, and with nothing otherwise. */
  lemma ControlAnswers(s: B.State, env: Envelope, c: string, now: int, draw: string)
    ensures var out, key := B.Process(s, env, B.Local(c), now, draw).1, env.header.key;
      var sends := ClientSends(out, B.Local(c));
      && (c !in s.clients && key != DISCONNECT ==> sends == multiset{(c, Bare(RESET))})
      && (c in s.clients && key == HEARTBEAT ==> sends == multiset{(c, Bare(HEARTBEAT_ACK))})
      && (key == DISCONNECT || (c in s.clients && key in {CONNECT, SUBSCRIBE, UNSUBSCRIBE}) ==> sends == multiset{})
      && (c !in s.clients || HandledLocally(key) ==> PeerSends(out) == multiset{})
  {
  }

  /** The message is to be routed, unless it is a duplicate. */
  predicate ForRouting(s: B.State, env: Envelope, origin: B.Origin)
  {
    match origin
    case Local(c) => c in s.clients && !HandledLocally(env.header.key)
    case Peer => env.header.key !in {RESET, HEARTBEAT_ACK, HEARTBEAT}
  }

  lemma EachOnce(recipients: set<string>, env: Envelope, d: string, x: Envelope)
    ensures ToEach(recipients, env)[(d, x)] == if x == env && d in recipients then 1 else 0
  {
    var pairs := set c | c in recipients :: (c, env);
    assert (d, x) in pairs <==> x == env && d in recipients;
  }

  /** A new message goes out stamped, in one copy to each known client subscribed to its topic or to
      everything, but not to the client it came from, and in one copy to each peer link; a
      duplicate, and what a peer may not send, goes out to nobody. */
  lemma RoutedAnswers(s: B.State, env: Envelope, origin: B.Origin, now: int, draw: string, d: string, x: Envelope)
    requires origin.Peer? || ForRouting(s, env, origin)
    ensures var out, stamped := B.Process(s, env, origin, now, draw).1, B.Stamp(env, s.id, draw);
      var isNew := ForRouting(s, env, origin) && stamped.header.uuid !in s.order && x == stamped;
      && ClientSends(out, origin)[(d, x)]
         == (if isNew && B.Wants(s, d, env.header.topic) && origin != B.Local(d) then 1 else 0)
      && PeerSends(out)[(d, x)] == (if isNew && d in s.peers then 1 else 0)
  {
    var out := B.Process(s, env, origin, now, draw).1;
    if out.Routed? {
      EachOnce(out.recipients, out.env, d, x);
      EachOnce(out.peers, out.env, d, x);
    }
  }

  /** The handshake's broker step appends RESET exactly when a RESET is sent to the client. */
  lemma HandshakeHearsReset(s: H.Sys, b: B.State, c: string, env: Envelope, now: int, draw: string)
    requires H.Agrees(s, b, c) && env.header.key != DISCONNECT
    ensures var out := B.Process(b, env, B.Local(c), now, draw).1;
      (exists x :: (c, x) in ClientSends(out, B.Local(c)) && x.header.key == RESET)
      <==> H.Received(s, H.RequestOf(env)).back == s.back + [H.Reset]
  {
    var out := B.Process(b, env, B.Local(c), now, draw).1;
    ControlAnswers(b, env, c, now, draw);
    if c !in b.clients {
      assert (c, Bare(RESET)) in ClientSends(out, B.Local(c));
    } else {
      assert s.back != s.back + [H.Reset];
      forall x ensures !((c, x) in ClientSends(out, B.Local(c)) && x.header.key == RESET) {
        if !HandledLocally(env.header.key) {
          RoutedAnswers(b, env, B.Local(c), now, draw, c, x);
        }
      }
    }
  }

  /** The copies a broker of the mesh launches are exactly what it sends to its link clients and
      floods to its peers. */
  lemma MeshCarriesSends(n: M.Net, b: string, origin: B.Origin, out: B.Outcome, other: string, env: Envelope)
    ensures M.Back(b, other, env) in M.Emits(n, b, origin, out)
            <==> MeshOnce.Linked(n, other, b) && (M.LinkId(other), env) in ClientSends(out, origin)
    ensures M.Flood(b, other, env) in M.Emits(n, b, origin, out) <==> (other, env) in PeerSends(out)
    ensures forall p | p in M.Emits(n, b, origin, out) :: p.src == b
  {
    if out.Routed? {
      EachOnce(out.recipients, out.env, M.LinkId(other), env);
      EachOnce(out.peers, out.env, other, env);
    }
  }

  /** What a broker of the mesh is recorded to hand to a client is what it sends to it. */
  lemma MeshHandsSends(n: M.Net, b: string, s: B.State, origin: B.Origin, out: B.Outcome, c: string, env: Envelope)
    requires out.Routed?
    ensures var r := M.Apply(n, b, s, out, M.Emits(n, b, origin, out));
      r.handed[(b, c, env)] == n.handed[(b, c, env)] + ClientSends(out, origin)[(c, env)]
  {
    EachOnce(out.recipients, out.env, c, env);
    var handed := set d | d in out.recipients :: (b, d, out.env);
    assert (b, c, env) in handed <==> env == out.env && c in out.recipients;
  }
}

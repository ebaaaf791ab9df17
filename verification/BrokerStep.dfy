/** One broker as a state machine: what a single message, a zombie sweep or a
    peer change does to its state, and what every run of such steps keeps. */
module BrokerStep {
  import opened Messages
  import opened Sequences

  const MAX_HISTORY: nat := 10000
  const CLIENT_TIMEOUT: int := 10_000   // milliseconds
  const CLEANUP_INTERVAL: int := 2_000  // milliseconds

  /** Where a message came from: a client on the ROUTER socket, or the inbound queue of a peer link. */
  datatype Origin = Local(id: string) | Peer

  /** `clients` maps a known client to when it was last seen, `pairs` is the
      subscription registry, `order` the bounded dedup history, oldest first. */
  datatype State = State(
    id: string,
    clients: map<string, int>,
    pairs: set<(string, string)>,
    order: seq<string>,
    peers: set<string>)

  /** What became of one message. */
  datatype Outcome =
    | Removed
    | ResetSent
    | Acked
    | KeptAlive
    | Subscribed
    | Unsubscribed
    | Ignored
    | Duplicate
    | Routed(env: Envelope, recipients: set<string>, peers: set<string>)

  function Stamp(env: Envelope, brokerId: string, draw: string): (r: Envelope)
  {
    if env.header.uuid == "" then
      env.(header := env.header.(uuid := draw, originBroker := brokerId))
    else env
  }

  /** Stamping gives a fresh message a uuid and its origin, and touches nothing else of it; a message
      that has a uuid is left alone. */
  lemma StampOnlyNames(env: Envelope, brokerId: string, draw: string)
    ensures var r := Stamp(env, brokerId, draw);
      && r.payload == env.payload
      && r.header.(uuid := env.header.uuid, originBroker := env.header.originBroker) == env.header
      && r.header.uuid == (if env.header.uuid == "" then draw else env.header.uuid)
      && r.header.originBroker == (if env.header.uuid == "" then brokerId else env.header.originBroker)
  {
  }

  /** Record an accepted uuid, evicting the oldest beyond the history bound. */
  function Remember(order: seq<string>, u: string): (r: seq<string>)
  {
    var longer := order + [u];
    if |longer| > MAX_HISTORY then longer[1..] else longer
  }

  function RemoveClients(s: State, gone: set<string>): (r: State)
  {
    s.(clients := s.clients - gone, pairs := set p | p in s.pairs && p.0 !in gone)
  }

  /** A known client that is subscribed to the topic or to everything. */
  predicate Wants(s: State, c: string, topic: string)
  {
    c in s.clients && ((c, topic) in s.pairs || (c, "") in s.pairs)
  }

  /** Who is handed a routed message: known clients subscribed to its topic or
      to the wildcard "", except the local client it came from. */
  function Recipients(s: State, topic: string, origin: Origin): (r: set<string>)
  {
    set c | c in s.clients && ((c, topic) in s.pairs || (c, "") in s.pairs) && origin != Local(c)
  }

  function Route(s: State, env: Envelope, origin: Origin): (r: (State, Outcome))
  {
    if env.header.uuid in s.order then (s, Duplicate)
    else (s.(order := Remember(s.order, env.header.uuid)),
          Routed(env, Recipients(s, env.header.topic, origin), s.peers))
  }

  function ProcessLocal(s: State, env: Envelope, c: string, now: int): (r: (State, Outcome))
  {
    var key, topic := env.header.key, env.header.topic;
    if key == DISCONNECT then (RemoveClients(s, {c}), Removed)
    else
      var seen := s.(clients := s.clients[c := now]);
      if c !in s.clients then (seen, ResetSent)
      else if key == CONNECT then (seen, KeptAlive)
      else if key == HEARTBEAT then (seen, Acked)
      else if key == SUBSCRIBE then (seen.(pairs := s.pairs + {(c, topic)}), Subscribed)
      else if key == UNSUBSCRIBE then (seen.(pairs := s.pairs - {(c, topic)}), Unsubscribed)
      else Route(seen, env, Local(c))
  }

  /** One message, as `processMessage` handles it; `draw` is the uuid it would draw. */
  function Process(s: State, env: Envelope, origin: Origin, now: int, draw: string): (r: (State, Outcome))
  {
    var stamped := Stamp(env, s.id, draw);
    match origin
    case Local(c) => ProcessLocal(s, stamped, c, now)
    case Peer =>
      var key := env.header.key;
      if key == RESET || key == HEARTBEAT_ACK || key == HEARTBEAT then (s, Ignored)
      else Route(s, stamped, Peer)
  }

  function Overdue(s: State, now: int): (r: set<string>)
  {
    set c | c in s.clients && now - s.clients[c] > CLIENT_TIMEOUT
  }

  datatype Input =
    | Message(env: Envelope, origin: Origin, now: int, draw: string)
    | Sweep(now: int)
    | AddPeer(key: string)
    | RemovePeer(key: string)

  function Step(s: State, i: Input): (r: State)
  {
    match i
    case Message(env, origin, now, draw) => Process(s, env, origin, now, draw).0
    case Sweep(now) => RemoveClients(s, Overdue(s, now))
    case AddPeer(key) => s.(peers := s.peers + {key})
    case RemovePeer(key) => s.(peers := s.peers - {key})
  }

  function Run(s: State, inputs: seq<Input>): (r: State)
    decreases |inputs|
  {
    if inputs == [] then s else Run(Step(s, inputs[0]), inputs[1..])
  }

  /** Every subscribed client is known, and the history has no repeats and respects its bound. */
  ghost predicate Sound(s: State)
  {
    && (forall p | p in s.pairs :: p.0 in s.clients)
    && NoRepeats(s.order)
    && |s.order| <= MAX_HISTORY
  }

  lemma RememberSound(order: seq<string>, u: string)
    requires NoRepeats(order) && |order| <= MAX_HISTORY && u !in order
    ensures NoRepeats(Remember(order, u)) && |Remember(order, u)| <= MAX_HISTORY
    ensures u in Remember(order, u)
  {
    var r := Remember(order, u);
    assert r[|r| - 1] == u;
  }

  lemma StepSound(s: State, i: Input)
    requires Sound(s)
    ensures Sound(Step(s, i))
  {
    if i.Message? {
      var u := Stamp(i.env, s.id, i.draw).header.uuid;
      if u !in s.order {
        RememberSound(s.order, u);
      }
    }
  }

  /** Over every run the registry holds only known clients, so the delivery loop's
      connected check never drops anybody and statistics reach only known clients. */
  lemma {:induction false} RunSound(s: State, inputs: seq<Input>)
    requires Sound(s)
    ensures Sound(Run(s, inputs))
    ensures var r := Run(s, inputs);
      forall c, t :: (c, t) in r.pairs ==> c in r.clients
    decreases |inputs|
  {
    if inputs != [] {
      StepSound(s, inputs[0]);
      RunSound(Step(s, inputs[0]), inputs[1..]);
    }
  }

  // ---- one client's life: RESET, traffic, removal, RESET, ...

  /** What an observer of client `c` sees the broker do. */
  datatype Mark = ResetMark | RemovalMark | RouteMark

  function Marks(s: State, i: Input, c: string): (r: seq<Mark>)
  {
    match i
    case Message(env, origin, now, draw) =>
      (match Process(s, env, origin, now, draw).1
       case ResetSent => if origin == Local(c) then [ResetMark] else []
       case Removed => if origin == Local(c) && c in s.clients then [RemovalMark] else []
       case Routed(_, _, _) => if origin == Local(c) then [RouteMark] else []
       case _ => [])
    case Sweep(now) => if c in Overdue(s, now) then [RemovalMark] else []
    case AddPeer(_) => []
    case RemovePeer(_) => []
  }

  function RunMarks(s: State, inputs: seq<Input>, c: string): (r: seq<Mark>)
    decreases |inputs|
  {
    if inputs == [] then [] else Marks(s, inputs[0], c) + RunMarks(Step(s, inputs[0]), inputs[1..], c)
  }

  /** The words of (RESET route* removal)* and their prefixes, read from the
      given state; the result is the state after the word, or None if it is not one. */
  function Life(marks: seq<Mark>, known: bool): (r: Option<bool>)
  {
    if marks == [] then Some(known)
    else match marks[0]
      case ResetMark => if known then None else Life(marks[1..], true)
      case RemovalMark => if known then Life(marks[1..], false) else None
      case RouteMark => if known then Life(marks[1..], true) else None
  }

  lemma {:induction false} LifeConcat(a: seq<Mark>, b: seq<Mark>, known: bool)
    requires Life(a, known).Some?
    ensures Life(a + b, known) == Life(b, Life(a, known).value)
  {
    if a == [] {
      assert a + b == b;
    } else {
      assert (a + b)[1..] == a[1..] + b;
      LifeConcat(a[1..], b, a[0] != RemovalMark);
    }
  }

  lemma StepLife(s: State, i: Input, c: string)
    ensures Life(Marks(s, i, c), c in s.clients) == Some(c in Step(s, i).clients)
  {
  }

  /** For each client, RESETs and effective removals strictly alternate starting
      with a RESET, and nothing from it is routed outside a RESET-removal span. */
  lemma {:induction false} RunLife(s: State, inputs: seq<Input>, c: string)
    ensures Life(RunMarks(s, inputs, c), c in s.clients) == Some(c in Run(s, inputs).clients)
    decreases |inputs|
  {
    if inputs != [] {
      StepLife(s, inputs[0], c);
      RunLife(Step(s, inputs[0]), inputs[1..], c);
      LifeConcat(Marks(s, inputs[0], c), RunMarks(Step(s, inputs[0]), inputs[1..], c), c in s.clients);
    }
  }

  /** A message is routed only if it is new, is not a key the broker answers itself when
      local, comes from a client already reset, and then it goes to exactly the recipients. */
  lemma RoutedWhen(s: State, env: Envelope, origin: Origin, now: int, draw: string)
    ensures var stamped, out := Stamp(env, s.id, draw), Process(s, env, origin, now, draw).1;
      && (out.Routed? <==>
          && stamped.header.uuid !in s.order
          && (origin.Local? ==> origin.id in s.clients && !HandledLocally(env.header.key))
          && (origin.Peer? ==> env.header.key !in {RESET, HEARTBEAT_ACK, HEARTBEAT}))
      && (out.Routed? ==>
          && out.env == stamped
          && out.peers == s.peers
          && forall c :: c in out.recipients <==>
               && c in s.clients
               && ((c, stamped.header.topic) in s.pairs || (c, "") in s.pairs)
               && !(origin.Local? && c == origin.id))
  {
  }
}

/** The socket worker: one loop turn of its thread, and the order in which its
    two queues reach the wire. */
module Worker {
  import opened Messages
  import L = Liveness

  /** The messages whose places are not among the refused ones, in order. */
  function Kept(envs: seq<Envelope>, refused: set<nat>): (r: seq<Envelope>)
  {
    if envs == [] then []
    else
      var k := |envs| - 1;
      Kept(envs[..k], refused) + if k in refused then [] else [envs[k]]
  }

  /** How many of the first i places are not refused. */
  function Rank(i: nat, refused: set<nat>): (r: nat)
  {
    |set j | 0 <= j < i && j !in refused|
  }

  lemma RankNext(i: nat, refused: set<nat>)
    ensures Rank(i + 1, refused) == Rank(i, refused) + if i in refused then 0 else 1
  {
    var below, upTo := set j | 0 <= j < i && j !in refused, set j | 0 <= j < i + 1 && j !in refused;
    assert upTo == below + if i in refused then {} else {i};
  }

  /** As many messages go out as are not refused. */
  lemma {:induction false} KeptCount(envs: seq<Envelope>, refused: set<nat>)
    ensures |Kept(envs, refused)| == Rank(|envs|, refused)
  {
    if envs == [] {
      assert (set j | 0 <= j < 0 && j !in refused) == {};
    } else {
      KeptCount(envs[..|envs| - 1], refused);
      RankNext(|envs| - 1, refused);
    }
  }

  /** A message that is not refused goes out, behind exactly the ones ahead of it that are not. */
  lemma {:induction false} KeptAt(envs: seq<Envelope>, refused: set<nat>, i: nat)
    requires i < |envs| && i !in refused
    ensures Rank(i, refused) < |Kept(envs, refused)| && Kept(envs, refused)[Rank(i, refused)] == envs[i]
  {
    var k := |envs| - 1;
    if i < k {
      KeptAt(envs[..k], refused, i);
    } else {
      KeptCount(envs[..k], refused);
    }
  }

  lemma {:induction false} KeptAll(envs: seq<Envelope>)
    ensures Kept(envs, {}) == envs
  {
    if envs != [] {
      KeptAll(envs[..|envs| - 1]);
    }
  }

  class ZmqWorker {
    const clientId: string
    var isOnline: bool
    var lastRxTime: int
    var lastHeartbeat: int
    var clock: int
    var controlQueue: seq<Envelope>
    var outboundQueue: seq<Envelope>
    var wire: seq<Envelope>

    ghost function Watching(): (w: L.Watch)
      reads this
    {
      L.Watch(isOnline, lastRxTime, clock)
    }

    constructor (id: string)
      ensures controlQueue == [] && outboundQueue == [] && wire == [] && clientId == id
    {
      clientId := id;
      isOnline, lastRxTime, lastHeartbeat, clock := false, 0, 0, 0;
      controlQueue, outboundQueue, wire := [], [], [];
    }

    /** What the thread does before its loop: the returned report is OFFLINE. */
    method Begin(now: int) returns (statuses: seq<bool>)
      modifies this`isOnline, this`lastRxTime, this`lastHeartbeat, this`clock
      ensures Watching() == L.Watch(false, now, now) && lastHeartbeat == now - L.HEARTBEAT_INTERVAL
      ensures statuses == L.Reports(now, [])
    {
      isOnline, lastRxTime, lastHeartbeat, clock := false, now, now - L.HEARTBEAT_INTERVAL, now;
      statuses := [isOnline];
    }

    /** `refused` are the places in the queue of the messages a full pipe refuses; they are dropped. */
    method DrainControl(refused: set<nat>)
      modifies this`controlQueue, this`wire
      ensures controlQueue == [] && wire == old(wire) + Kept(old(controlQueue), refused)
    {
      ghost var queue := controlQueue;
      var i := 0;
      while controlQueue != []
        invariant i <= |queue| && controlQueue == queue[i..]
        invariant wire == old(wire) + Kept(queue[..i], refused)
        decreases |controlQueue|
      {
        assert queue[..i + 1][..i] == queue[..i];
        if i !in refused {
          wire := wire + [controlQueue[0]];
        }
        controlQueue, i := controlQueue[1..], i + 1;
      }
      assert queue[..i] == queue;
    }

    method DrainOutbound(refused: set<nat>)
      modifies this`outboundQueue, this`wire
      ensures outboundQueue == [] && wire == old(wire) + Kept(old(outboundQueue), refused)
    {
      ghost var queue := outboundQueue;
      var i := 0;
      while outboundQueue != []
        invariant i <= |queue| && outboundQueue == queue[i..]
        invariant wire == old(wire) + Kept(queue[..i], refused)
        decreases |outboundQueue|
      {
        assert queue[..i + 1][..i] == queue[..i];
        if i !in refused {
          wire := wire + [outboundQueue[0]];
        }
        outboundQueue, i := outboundQueue[1..], i + 1;
      }
      assert queue[..i] == queue;
    }

    /** Both queues, the control queue first; with nothing refused, as the lanes machine drains them. */
    method SendQueues(control: set<nat>, data: set<nat>)
      modifies this`controlQueue, this`outboundQueue, this`wire
      ensures controlQueue == [] && outboundQueue == []
      ensures wire == old(wire) + Kept(old(controlQueue), control) + Kept(old(outboundQueue), data)
      ensures control == {} && data == {} ==> wire == old(wire) + Drained(old(controlQueue), old(outboundQueue))
    {
      DrainedIsKept(controlQueue, outboundQueue);
      DrainControl(control);
      DrainOutbound(data);
    }

    method Receive(inbound: Option<Envelope>, rxTime: int) returns (statuses: seq<bool>, passedOn: Option<Envelope>)
      modifies this`isOnline, this`lastRxTime
      ensures isOnline == (old(isOnline) || inbound.Some?)
      ensures lastRxTime == if inbound.Some? then rxTime else old(lastRxTime)
      ensures statuses == if inbound.Some? && !old(isOnline) then [true] else []
      ensures passedOn == if inbound.Some? && inbound.value.header.key != HEARTBEAT_ACK then inbound else None
    {
      statuses, passedOn := [], None;
      if inbound.Some? {
        lastRxTime := rxTime;
        if !isOnline {
          isOnline := true;
          statuses := [true];
        }
        if inbound.value.header.key != HEARTBEAT_ACK {
          passedOn := inbound;
        }
      }
    }

    /** A heartbeat when one is due; `refused` tells that the pipe is full. */
    method SendHeartbeat(now: int, refused: bool)
      modifies this`lastHeartbeat, this`wire
      ensures var beat := now - old(lastHeartbeat) > L.HEARTBEAT_INTERVAL;
        && lastHeartbeat == (if beat then now else old(lastHeartbeat))
        && wire == old(wire) + if beat && !refused then [Control(HEARTBEAT, clientId, "")] else []
    {
      if now - lastHeartbeat > L.HEARTBEAT_INTERVAL {
        if !refused {
          wire := wire + [Control(HEARTBEAT, clientId, "")];
        }
        lastHeartbeat := now;
      }
    }

    /** One turn: a message may have come in at `rxTime`; then the queues are drained and the
        clock sampled at `now`.  Returned are the status callbacks, in order, and the message
        passed on, HEARTBEAT_ACK stopping here.  `control`, `data` and `beatRefused` tell which
        sends a full pipe refuses. */
    method Turn(inbound: Option<Envelope>, rxTime: int, now: int, control: set<nat>, data: set<nat>, beatRefused: bool)
      returns (statuses: seq<bool>, passedOn: Option<Envelope>)
      modifies this
      ensures (Watching(), statuses) == L.Turn(old(Watching()), if inbound.Some? then Some(rxTime) else None, now)
      ensures passedOn == if inbound.Some? && inbound.value.header.key != HEARTBEAT_ACK then inbound else None
      ensures controlQueue == [] && outboundQueue == []
      ensures var beat := now - old(lastHeartbeat) > L.HEARTBEAT_INTERVAL;
        && lastHeartbeat == (if beat then now else old(lastHeartbeat))
        && wire == old(wire) + Kept(old(controlQueue), control) + Kept(old(outboundQueue), data) +
                   (if beat && !beatRefused then [Control(HEARTBEAT, clientId, "")] else [])
      ensures control == {} && data == {} ==>
        old(wire) + Drained(old(controlQueue), old(outboundQueue)) <= wire
    {
      statuses, passedOn := Receive(inbound, rxTime);
      SendQueues(control, data);
      clock := now;
      SendHeartbeat(now, beatRefused);
      if isOnline && now - lastRxTime > L.SERVER_TIMEOUT {
        isOnline := false;
        statuses := statuses + [false];
      }
    }
  }

  // ---- pushes from other threads come between the drains

  datatype Lane = ControlLane | DataLane

  /** The two queues, and the sends attempted so far. */
  datatype Lanes = Lanes(control: seq<Envelope>, outbound: seq<Envelope>, wire: seq<(Lane, Envelope)>)

  /** A drain goes on until its queue is empty, so it counts from its last look at the queue. */
  datatype Event = Push(lane: Lane, env: Envelope) | Drain(lane: Lane)

  function Tagged(lane: Lane, envs: seq<Envelope>): (r: seq<(Lane, Envelope)>)
  {
    seq(|envs|, i requires 0 <= i < |envs| => (lane, envs[i]))
  }

  function Next(l: Lanes, e: Event): (r: Lanes)
  {
    match e
    case Push(ControlLane, env) => l.(control := l.control + [env])
    case Push(DataLane, env) => l.(outbound := l.outbound + [env])
    case Drain(ControlLane) => l.(control := [], wire := l.wire + Tagged(ControlLane, l.control))
    case Drain(DataLane) => l.(outbound := [], wire := l.wire + Tagged(DataLane, l.outbound))
  }

  /** The messages on the wire, without their lanes. */
  function Untagged(wire: seq<(Lane, Envelope)>): (r: seq<Envelope>)
  {
    seq(|wire|, i requires 0 <= i < |wire| => wire[i].1)
  }

  /** What a control drain and then a data drain put on the wire. */
  function Drained(control: seq<Envelope>, outbound: seq<Envelope>): (r: seq<Envelope>)
  {
    Untagged(Next(Next(Lanes(control, outbound, []), Drain(ControlLane)), Drain(DataLane)).wire)
  }

  lemma UntaggedTwo(control: seq<Envelope>, outbound: seq<Envelope>)
    ensures Untagged([] + Tagged(ControlLane, control) + Tagged(DataLane, outbound)) == control + outbound
  {
  }

  lemma DrainedIsKept(control: seq<Envelope>, outbound: seq<Envelope>)
    ensures Drained(control, outbound) == Kept(control, {}) + Kept(outbound, {})
  {
    KeptAll(control);
    KeptAll(outbound);
    UntaggedTwo(control, outbound);
  }

  function After(l: Lanes, events: seq<Event>): (r: Lanes)
    decreases |events|
  {
    if events == [] then l else After(Next(l, events[0]), events[1..])
  }

  const EMPTY: Lanes := Lanes([], [], [])

  /** What went out on the wire from one queue. */
  function Sent(wire: seq<(Lane, Envelope)>, lane: Lane): (r: seq<Envelope>)
  {
    if wire == [] then []
    else
      var last := wire[|wire| - 1];
      Sent(wire[..|wire| - 1], lane) + if last.0 == lane then [last.1] else []
  }

  function Pushed(events: seq<Event>, lane: Lane): (r: seq<Envelope>)
  {
    if events == [] then []
    else
      var first := events[0];
      (if first.Push? && first.lane == lane then [first.env] else []) + Pushed(events[1..], lane)
  }

  function Waiting(l: Lanes, lane: Lane): (r: seq<Envelope>)
  {
    if lane == ControlLane then l.control else l.outbound
  }

  lemma {:induction false} SentTagged(wire: seq<(Lane, Envelope)>, lane: Lane, envs: seq<Envelope>, of: Lane)
    ensures Sent(wire + Tagged(lane, envs), of) == Sent(wire, of) + if lane == of then envs else []
  {
    var all := wire + Tagged(lane, envs);
    if envs == [] {
      assert all == wire;
    } else {
      var init := envs[..|envs| - 1];
      assert all[..|all| - 1] == wire + Tagged(lane, init);
      SentTagged(wire, lane, init, of);
      assert envs == init + [envs[|envs| - 1]];
    }
  }

  /** Sent so far and still waiting, on one lane. */
  function Taken(l: Lanes, lane: Lane): (r: seq<Envelope>)
  {
    Sent(l.wire, lane) + Waiting(l, lane)
  }

  lemma NextTaken(l: Lanes, e: Event, lane: Lane)
    ensures Taken(Next(l, e), lane) == Taken(l, lane) + Pushed([e], lane)
  {
    if e.Drain? {
      SentTagged(l.wire, e.lane, Waiting(l, e.lane), lane);
    }
  }

  lemma {:induction false} LanesFrom(l: Lanes, events: seq<Event>, lane: Lane)
    ensures Taken(After(l, events), lane) == Taken(l, lane) + Pushed(events, lane)
    decreases |events|
  {
    if events != [] {
      NextTaken(l, events[0], lane);
      LanesFrom(Next(l, events[0]), events[1..], lane);
      assert Pushed(events, lane) == Pushed([events[0]], lane) + Pushed(events[1..], lane);
    }
  }

  /** However pushes and drains interleave, each queue reaches the wire in the order it was
      filled, nothing lost and nothing twice. */
  lemma LanesKeepOrder(events: seq<Event>, lane: Lane)
    ensures var l := After(EMPTY, events); Sent(l.wire, lane) + Waiting(l, lane) == Pushed(events, lane)
  {
    LanesFrom(EMPTY, events, lane);
  }
}

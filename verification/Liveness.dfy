/** Timing: when the broker sweeps a silent client, why a heartbeating one is
    never swept, and when a worker reports OFFLINE.  Times are milliseconds. */
module Liveness {
  import opened Messages
  import B = BrokerStep

  const HEARTBEAT_INTERVAL: int := 3_000
  const SERVER_TIMEOUT: int := 10_000

  // ---- the broker loop

  /** `clock` is the loop's last clock sample. */
  datatype Loop = Loop(s: B.State, lastCleanup: int, clock: int)

  datatype Tick =
    | Heard(env: Envelope, origin: B.Origin, at: int, draw: string)
    | Sample(at: int)

  function Next(l: Loop, k: Tick): (r: Loop)
  {
    match k
    case Heard(env, origin, at, draw) => l.(s := B.Process(l.s, env, origin, at, draw).0)
    case Sample(at) =>
      if at - l.lastCleanup > B.CLEANUP_INTERVAL then Loop(B.Step(l.s, B.Sweep(at)), at, at)
      else l.(clock := at)
  }

  /** Time does not go back, and samples are at most d apart. */
  predicate Paced(l: Loop, k: Tick, d: int)
  {
    l.clock <= k.at && (k.Sample? ==> k.at <= l.clock + d)
  }

  predicate Fresh(l: Loop)
  {
    l.lastCleanup <= l.clock <= l.lastCleanup + B.CLEANUP_INTERVAL
  }

  lemma FreshNext(l: Loop, k: Tick, d: int)
    requires Fresh(l) && Paced(l, k, d)
    ensures Fresh(Next(l, k))
  {
  }

  predicate Silent(k: Tick, c: string)
  {
    k.Heard? ==> k.origin != B.Local(c)
  }

  predicate PacedRun(l: Loop, ticks: seq<Tick>, d: int)
    decreases |ticks|
  {
    ticks == [] || (Paced(l, ticks[0], d) && PacedRun(Next(l, ticks[0]), ticks[1..], d))
  }

  function After(l: Loop, ticks: seq<Tick>): (r: Loop)
    decreases |ticks|
  {
    if ticks == [] then l else After(Next(l, ticks[0]), ticks[1..])
  }

  /** When c first stops being known in the run, if it does. */
  function RemovedAt(l: Loop, ticks: seq<Tick>, c: string): (r: Option<int>)
    requires c in l.s.clients
    decreases |ticks|
  {
    if ticks == [] then None
    else
      var r := Next(l, ticks[0]);
      if c in r.s.clients then RemovedAt(r, ticks[1..], c) else Some(ticks[0].at)
  }

  /** One tick without a message from c: it stays with its old time stamp, or a sweep removes it when overdue. */
  lemma SilentTick(l: Loop, k: Tick, c: string)
    requires c in l.s.clients && Silent(k, c)
    ensures var r, seen := Next(l, k), l.s.clients[c];
      && (c in r.s.clients ==> r.s.clients[c] == seen)
      && (c !in r.s.clients <==>
          k.Sample? && k.at - l.lastCleanup > B.CLEANUP_INTERVAL && k.at - seen > B.CLIENT_TIMEOUT)
      && (k.Heard? ==> r.lastCleanup == l.lastCleanup && r.clock == l.clock)
  {
  }

  /** Zombie bounds: a client silent since `seen` is removed strictly later than 10s and
      no later than 12s + d after it; and while it is still known, the last clock sample
      is at most 12s after it. */
  lemma {:induction false} ZombieBounds(l: Loop, ticks: seq<Tick>, c: string, d: int)
    requires Fresh(l) && PacedRun(l, ticks, d) && (forall k | k in ticks :: Silent(k, c))
    requires c in l.s.clients && l.lastCleanup <= l.s.clients[c] + B.CLIENT_TIMEOUT
    ensures var seen := l.s.clients[c];
      match RemovedAt(l, ticks, c)
      case Some(t) => seen + 10_000 < t <= seen + 12_000 + d
      case None => After(l, ticks).clock <= seen + 12_000
    decreases |ticks|
  {
    if ticks != [] {
      assert ticks == [ticks[0]] + ticks[1..];
      var r := Next(l, ticks[0]);
      SilentTick(l, ticks[0], c);
      FreshNext(l, ticks[0], d);
      if c in r.s.clients {
        ZombieBounds(r, ticks[1..], c, d);
      }
    }
  }

  /** The same from the moment the client was last heard, whatever went before. */
  lemma SilentClientRemoved(l: Loop, last: Tick, ticks: seq<Tick>, c: string, d: int)
    requires Fresh(l) && last.Heard? && last.origin == B.Local(c) && last.env.header.key != DISCONNECT
    requires Paced(l, last, d) && PacedRun(Next(l, last), ticks, d) && (forall k | k in ticks :: Silent(k, c))
    ensures c in Next(l, last).s.clients
    ensures match RemovedAt(Next(l, last), ticks, c)
      case Some(t) => last.at + 10_000 < t <= last.at + 12_000 + d
      case None => After(Next(l, last), ticks).clock <= last.at + 12_000
  {
    FreshNext(l, last, d);
    ZombieBounds(Next(l, last), ticks, c, d);
  }

  // ---- heartbeats

  /** One client's worker and its broker.  `sampled` is the worker's last clock sample,
      `flight` the send times of heartbeats under way, `arrived` that of the last one processed. */
  datatype Beating = Beating(
    broker: B.State,
    sampled: int,
    lastHeartbeat: int,
    flight: seq<int>,
    arrived: int,
    clock: int)

  datatype Pulse =
    | WorkerLoop(at: int)
    | Arrive(at: int, draw: string)
    | BrokerSweep(at: int)
    | Message(env: Envelope, id: string, at: int, draw: string)

  /** Time does not go back; the worker loops at least every g, and a heartbeat is
      processed at most `delay` after it was sent. */
  predicate OnTime(b: Beating, p: Pulse, c: string, g: int, delay: int)
  {
    && b.clock <= p.at <= b.sampled + g
    && (b.flight != [] ==> p.at <= b.flight[0] + delay)
    && (p.Arrive? ==> b.flight != [])
    && (p.Message? && p.id == c ==> p.env.header.key != DISCONNECT)
  }

  function Pulsed(b: Beating, p: Pulse, c: string): (r: Beating)
    requires p.Arrive? ==> b.flight != []
  {
    match p
    case WorkerLoop(at) =>
      if at - b.lastHeartbeat > HEARTBEAT_INTERVAL
      then b.(sampled := at, lastHeartbeat := at, flight := b.flight + [at], clock := at)
      else b.(sampled := at, clock := at)
    case Arrive(at, draw) =>
      b.(broker := B.Process(b.broker, Control(HEARTBEAT, c, ""), B.Local(c), at, draw).0,
         flight := b.flight[1..], arrived := b.flight[0], clock := at)
    case BrokerSweep(at) => b.(broker := B.Step(b.broker, B.Sweep(at)), clock := at)
    case Message(env, id, at, draw) =>
      b.(broker := B.Process(b.broker, env, B.Local(id), at, draw).0, clock := at)
  }

  /** The k-th heartbeat from the last one processed on. */
  function Sent(b: Beating, k: nat): (r: int)
    requires k <= |b.flight|
  {
    if k == 0 then b.arrived else b.flight[k - 1]
  }

  /** Heartbeats follow each other closely enough, and the broker has not seen c before the last one. */
  ghost predicate Steady(b: Beating, c: string, g: int)
  {
    && (c in b.broker.clients ==> b.arrived <= b.broker.clients[c])
    && b.sampled - b.lastHeartbeat <= HEARTBEAT_INTERVAL
    && b.sampled <= b.clock && b.arrived <= b.clock
    && (forall k | 0 < k <= |b.flight| :: Sent(b, k) - Sent(b, k - 1) <= HEARTBEAT_INTERVAL + g)
    && (forall k | 0 < k <= |b.flight| :: Sent(b, k) <= b.clock)
    && b.lastHeartbeat == Sent(b, |b.flight|)
  }

  lemma LoopSteady(b: Beating, at: int, c: string, g: int, delay: int)
    requires Steady(b, c, g) && OnTime(b, WorkerLoop(at), c, g, delay)
    ensures Steady(Pulsed(b, WorkerLoop(at), c), c, g)
  {
    var r := Pulsed(b, WorkerLoop(at), c);
    forall k | 0 < k <= |r.flight|
      ensures Sent(r, k) - Sent(r, k - 1) <= HEARTBEAT_INTERVAL + g && Sent(r, k) <= r.clock
    {
      if k <= |b.flight| {
        assert Sent(r, k) == Sent(b, k) && Sent(r, k - 1) == Sent(b, k - 1);
      } else {
        assert Sent(r, k - 1) == Sent(b, |b.flight|);
      }
    }
  }

  lemma ArriveSteady(b: Beating, at: int, draw: string, c: string, g: int, delay: int)
    requires Steady(b, c, g) && OnTime(b, Arrive(at, draw), c, g, delay)
    ensures Steady(Pulsed(b, Arrive(at, draw), c), c, g)
  {
    var r := Pulsed(b, Arrive(at, draw), c);
    assert Sent(b, 1) == b.flight[0];
    assert forall k: nat | k <= |r.flight| :: Sent(r, k) == Sent(b, k + 1);
  }

  lemma SweepSteady(b: Beating, at: int, c: string, g: int, delay: int)
    requires Steady(b, c, g) && OnTime(b, BrokerSweep(at), c, g, delay)
    requires HEARTBEAT_INTERVAL + g + delay <= B.CLIENT_TIMEOUT && 0 <= delay
    ensures Steady(Pulsed(b, BrokerSweep(at), c), c, g)
    ensures c in b.broker.clients ==> c in Pulsed(b, BrokerSweep(at), c).broker.clients
  {
    if b.flight != [] {
      assert Sent(b, 1) - Sent(b, 0) <= HEARTBEAT_INTERVAL + g;
    }
    assert c in b.broker.clients ==> at - b.broker.clients[c] <= B.CLIENT_TIMEOUT;
    var r := Pulsed(b, BrokerSweep(at), c);
    assert forall k: nat | k <= |r.flight| :: Sent(r, k) == Sent(b, k);
  }

  lemma MessageSteady(b: Beating, env: Envelope, id: string, at: int, draw: string, c: string, g: int, delay: int)
    requires Steady(b, c, g) && OnTime(b, Message(env, id, at, draw), c, g, delay)
    ensures Steady(Pulsed(b, Message(env, id, at, draw), c), c, g)
    ensures c in b.broker.clients ==> c in Pulsed(b, Message(env, id, at, draw), c).broker.clients
  {
    var r := Pulsed(b, Message(env, id, at, draw), c);
    assert forall k: nat | k <= |r.flight| :: Sent(r, k) == Sent(b, k);
  }

  predicate Punctual(b: Beating, pulses: seq<Pulse>, c: string, g: int, delay: int)
    decreases |pulses|
  {
    pulses == [] ||
    (OnTime(b, pulses[0], c, g, delay) && Punctual(Pulsed(b, pulses[0], c), pulses[1..], c, g, delay))
  }

  function PulsedAll(b: Beating, pulses: seq<Pulse>, c: string, g: int, delay: int): (r: Beating)
    requires Punctual(b, pulses, c, g, delay)
    decreases |pulses|
  {
    if pulses == [] then b else PulsedAll(Pulsed(b, pulses[0], c), pulses[1..], c, g, delay)
  }

  lemma PulseSteady(b: Beating, p: Pulse, c: string, g: int, delay: int)
    requires HEARTBEAT_INTERVAL + g + delay <= B.CLIENT_TIMEOUT && 0 <= delay
    requires Steady(b, c, g) && OnTime(b, p, c, g, delay)
    ensures Steady(Pulsed(b, p, c), c, g)
    ensures c in b.broker.clients || p.Arrive? ==> c in Pulsed(b, p, c).broker.clients
  {
    match p
    case WorkerLoop(at) => LoopSteady(b, at, c, g, delay);
    case Arrive(at, draw) => ArriveSteady(b, at, draw, c, g, delay);
    case BrokerSweep(at) => SweepSteady(b, at, c, g, delay);
    case Message(env, id, at, draw) => MessageSteady(b, env, id, at, draw, c, g, delay);
  }

  lemma {:induction false} PulsesSteady(b: Beating, pulses: seq<Pulse>, c: string, g: int, delay: int)
    requires HEARTBEAT_INTERVAL + g + delay <= B.CLIENT_TIMEOUT && 0 <= delay
    requires Steady(b, c, g) && Punctual(b, pulses, c, g, delay)
    ensures var r := PulsedAll(b, pulses, c, g, delay);
      && Steady(r, c, g)
      && (c in b.broker.clients || (exists p | p in pulses :: p.Arrive?) ==> c in r.broker.clients)
    decreases |pulses|
  {
    if pulses != [] {
      assert pulses == [pulses[0]] + pulses[1..];
      PulseSteady(b, pulses[0], c, g, delay);
      PulsesSteady(Pulsed(b, pulses[0], c), pulses[1..], c, g, delay);
    }
  }

  /** A worker that starts at `now`: its first heartbeat is due with its first turn. */
  function Starting(broker: B.State, now: int): (r: Beating)
  {
    Beating(broker, now, now - HEARTBEAT_INTERVAL, [], now - HEARTBEAT_INTERVAL, now)
  }

  /** A client whose heartbeat spacing, 3s plus its loop gap, plus delay is at most 10s: from the
      start of its worker, the first heartbeat processed makes it known, and from the moment it
      is known it is never swept.  The broker may know it from an earlier life, if it was seen
      within the last 3s. */
  lemma HeartbeatKeepsAlive(broker: B.State, now: int, before: seq<Pulse>, after: seq<Pulse>, c: string,
                            g: int, delay: int)
    requires 3_000 + g + delay <= 10_000 && 0 <= delay
    requires c in broker.clients ==> now - 3_000 <= broker.clients[c]
    requires Punctual(Starting(broker, now), before, c, g, delay)
    requires Punctual(PulsedAll(Starting(broker, now), before, c, g, delay), after, c, g, delay)
    ensures var b := PulsedAll(Starting(broker, now), before, c, g, delay);
      && (c in broker.clients || (exists p | p in before :: p.Arrive?) ==> c in b.broker.clients)
      && (c in b.broker.clients ==> c in PulsedAll(b, after, c, g, delay).broker.clients)
  {
    PulsesSteady(Starting(broker, now), before, c, g, delay);
    PulsesSteady(PulsedAll(Starting(broker, now), before, c, g, delay), after, c, g, delay);
  }

  // ---- the worker's view of the server

  /** What the worker loop keeps about the server; `clock` is its last sample. */
  datatype Watch = Watch(online: bool, lastRx: int, clock: int)

  /** One turn of the worker loop: a message may have been received at `rx`, then the clock
      is sampled.  The result also holds the status callbacks made, in order. */
  function Turn(w: Watch, rx: Option<int>, now: int): (r: (Watch, seq<bool>))
  {
    var lastRx := if rx.Some? then rx.value else w.lastRx;
    var online := w.online || rx.Some?;
    var up := if rx.Some? && !w.online then [true] else [];
    if online && now - lastRx > SERVER_TIMEOUT then (Watch(false, lastRx, now), up + [false])
    else (Watch(online, lastRx, now), up)
  }

  datatype Poll = Poll(rx: Option<int>, now: int)

  function Statuses(w: Watch, polls: seq<Poll>): (r: seq<bool>)
    decreases |polls|
  {
    if polls == [] then []
    else
      var (next, said) := Turn(w, polls[0].rx, polls[0].now);
      said + Statuses(next, polls[1..])
  }

  /** Reports strictly alternate, the first one being `up`. */
  predicate Alternates(reports: seq<bool>, up: bool)
  {
    reports == [] || (reports[0] == up && Alternates(reports[1..], !up))
  }

  lemma Prepended(report: bool, reports: seq<bool>)
    requires Alternates(reports, !report)
    ensures Alternates([report] + reports, report)
  {
    assert ([report] + reports)[1..] == reports;
  }

  lemma TurnAlternates(w: Watch, rx: Option<int>, now: int, later: seq<bool>)
    requires Alternates(later, !Turn(w, rx, now).0.online)
    ensures Alternates(Turn(w, rx, now).1 + later, !w.online)
  {
    var said := Turn(w, rx, now).1;
    var up, down := rx.Some? && !w.online, |said| > 0 && !said[|said| - 1];
    if down {
      Prepended(false, later);
    }
    var rest := if down then [false] + later else later;
    if up {
      Prepended(true, rest);
    }
    assert said + later == if up then [true] + rest else rest;
  }

  /** ONLINE and OFFLINE reports strictly alternate over any run of the worker loop. */
  lemma {:induction false} StatusesAlternate(w: Watch, polls: seq<Poll>)
    ensures Alternates(Statuses(w, polls), !w.online)
    decreases |polls|
  {
    if polls != [] {
      var next := Turn(w, polls[0].rx, polls[0].now).0;
      StatusesAlternate(next, polls[1..]);
      TurnAlternates(w, polls[0].rx, polls[0].now, Statuses(next, polls[1..]));
    }
  }

  /** All the reports of a worker started at `now`, the OFFLINE before its loop included. */
  function Reports(now: int, polls: seq<Poll>): (r: seq<bool>)
  {
    [false] + Statuses(Watch(false, now, now), polls)
  }

  lemma ReportsAlternate(now: int, polls: seq<Poll>)
    ensures Alternates(Reports(now, polls), false)
  {
    StatusesAlternate(Watch(false, now, now), polls);
    Prepended(false, Statuses(Watch(false, now, now), polls));
  }

  function Watched(w: Watch, polls: seq<Poll>): (r: Watch)
    decreases |polls|
  {
    if polls == [] then w else Watched(Turn(w, polls[0].rx, polls[0].now).0, polls[1..])
  }

  /** When the server was last heard in the run, `since` if not at all. */
  function LastHeard(since: int, polls: seq<Poll>): (r: int)
    decreases |polls|
  {
    if polls == [] then since
    else LastHeard(if polls[0].rx.Some? then polls[0].rx.value else since, polls[1..])
  }

  /** Turns are at most g apart, and a message is received during its turn. */
  predicate Polled(clock: int, polls: seq<Poll>, g: int)
    decreases |polls|
  {
    polls == [] ||
    (&& clock <= polls[0].now <= clock + g
     && (polls[0].rx.Some? ==> clock <= polls[0].rx.value <= polls[0].now)
     && Polled(polls[0].now, polls[1..], g))
  }

  predicate Timely(w: Watch)
  {
    w.online ==> w.clock - w.lastRx <= SERVER_TIMEOUT
  }

  lemma {:induction false} WatchedTimely(w: Watch, polls: seq<Poll>, g: int)
    requires Timely(w) && Polled(w.clock, polls, g)
    ensures Timely(Watched(w, polls)) && Watched(w, polls).lastRx == LastHeard(w.lastRx, polls)
    decreases |polls|
  {
    if polls != [] {
      WatchedTimely(Turn(w, polls[0].rx, polls[0].now).0, polls[1..], g);
    }
  }

  lemma {:induction false} PolledSplit(w: Watch, polls: seq<Poll>, p: Poll, g: int)
    requires Polled(w.clock, polls + [p], g)
    ensures Polled(w.clock, polls, g) && Polled(Watched(w, polls).clock, [p], g)
    ensures LastHeard(w.lastRx, polls + [p]) == LastHeard(LastHeard(w.lastRx, polls), [p])
    decreases |polls|
  {
    if polls == [] {
      assert polls + [p] == [p];
    } else {
      assert (polls + [p])[0] == polls[0] && (polls + [p])[1..] == polls[1..] + [p];
      PolledSplit(Turn(w, polls[0].rx, polls[0].now).0, polls[1..], p, g);
    }
  }

  predicate EverHeard(polls: seq<Poll>)
  {
    polls != [] && (polls[0].rx.Some? || EverHeard(polls[1..]))
  }

  lemma {:induction false} WatchedOnline(w: Watch, heard: bool, polls: seq<Poll>, g: int)
    requires Polled(w.clock, polls, g) && (w.online <==> heard && w.clock - w.lastRx <= SERVER_TIMEOUT)
    ensures var r := Watched(w, polls);
      r.online <==> (heard || EverHeard(polls)) && r.clock - LastHeard(w.lastRx, polls) <= SERVER_TIMEOUT
    decreases |polls|
  {
    if polls != [] {
      var next := Turn(w, polls[0].rx, polls[0].now).0;
      WatchedOnline(next, heard || polls[0].rx.Some?, polls[1..], g);
    }
  }

  /** After any run of a worker started at `now`: the server counts as up exactly when it has been
      heard at all and the last time was no more than 10s before the last turn; and the turn in
      which a message comes in while it counts as down reports ONLINE first, and no other turn does. */
  lemma OnlineExactly(now: int, polls: seq<Poll>, p: Poll, g: int)
    requires Polled(now, polls, g)
    ensures var w := Watched(Watch(false, now, now), polls);
      && (w.online <==> EverHeard(polls) && w.clock - LastHeard(now, polls) <= 10_000)
      && (var said := Turn(w, p.rx, p.now).1;
          if p.rx.Some? && !w.online then said != [] && said[0] else true !in said)
  {
    WatchedOnline(Watch(false, now, now), false, polls, g);
  }

  /** Over any run of a worker whose turns are at most g apart: turn p reports OFFLINE exactly when
      the server counted as up, or was heard just now, and has been silent for more than 10s; it
      has then been silent for at most 10s + g. */
  lemma OfflineBounds(now: int, polls: seq<Poll>, p: Poll, g: int)
    requires Polled(now, polls + [p], g)
    ensures var w, heard := Watched(Watch(false, now, now), polls), LastHeard(now, polls + [p]);
      && (false in Turn(w, p.rx, p.now).1 <==> (w.online || p.rx.Some?) && p.now - heard > 10_000)
      && (false in Turn(w, p.rx, p.now).1 ==> p.now - heard <= 10_000 + g)
  {
    var start := Watch(false, now, now);
    PolledSplit(start, polls, p, g);
    WatchedTimely(start, polls, g);
    assert [p][1..] == [];
  }
}

/** Discovery: which beacons make a broker dial, when a silent peer is dropped,
    and how the peer table follows. */
module Discovery {
  import opened Messages
  import opened Sequences
  import opened Beacon
  import opened Paths
  import Uuid

  const PEER_TIMEOUT: int := 5_000 // milliseconds

  /** The order on uuids that decides who dials: lexicographic by character. */
  predicate Less(a: string, b: string)
  {
    b != [] && (a == [] || a[0] < b[0] || (a[0] == b[0] && Less(a[1..], b[1..])))
  }

  /** Up to k the two agree, and there a ends first or has the smaller character. */
  predicate FirstDifference(a: string, b: string, k: nat)
  {
    k <= |a| && k < |b| && a[..k] == b[..k] && (k == |a| || a[k] < b[k])
  }

  /** The order is the lexicographic one. */
  lemma {:induction false} LessIsLexicographic(a: string, b: string)
    ensures Less(a, b) <==> exists k: nat :: FirstDifference(a, b, k)
  {
    if a == [] || b == [] || a[0] != b[0] {
      assert b != [] && (a == [] || a[0] < b[0]) ==> FirstDifference(a, b, 0);
    } else {
      LessIsLexicographic(a[1..], b[1..]);
      if k: nat :| FirstDifference(a[1..], b[1..], k) {
        assert a[..k + 1] == [a[0]] + a[1..][..k] && b[..k + 1] == [b[0]] + b[1..][..k];
        assert FirstDifference(a, b, k + 1);
      }
      if k: nat :| FirstDifference(a, b, k) {
        assert a[1..][..k - 1] == a[..k][1..] && b[1..][..k - 1] == b[..k][1..];
        assert FirstDifference(a[1..], b[1..], k - 1);
      }
    }
  }

  lemma {:induction false} LessTransitive(a: string, b: string, c: string)
    requires Less(a, b) && Less(b, c)
    ensures Less(a, c)
  {
    if a != [] && a[0] == b[0] && b[0] == c[0] {
      LessTransitive(a[1..], b[1..], c[1..]);
    }
  }

  lemma {:induction false} LessTotal(a: string, b: string)
    ensures !(Less(a, b) && Less(b, a))
    ensures a != b ==> Less(a, b) || Less(b, a)
    ensures a == b ==> !Less(a, b)
  {
    if a != [] && b != [] && a[0] == b[0] {
      LessTotal(a[1..], b[1..]);
      assert a == [a[0]] + a[1..] && b == [b[0]] + b[1..];
    }
  }

  datatype Entry = Entry(address: string, lastSeen: int)

  datatype Disc = Disc(cluster: string, uuid: string, dialed: map<string, Entry>)

  function Address(ip: string, port: nat): (s: string)
  {
    "tcp://" + ip + ":" + ToDecimal(port)
  }

  /** The address dialled is the sender's host with the port its beacon advertises: it starts with
      tcp:// and the host, and the port is read back from it. */
  lemma AddressReads(ip: string, port: nat)
    requires 0 < port <= 65535
    ensures "tcp://" + ip + ":" <= Address(ip, port) && PortOf(Address(ip, port)) == Some(port)
  {
    assert Address(ip, port) == TCP + ip + ":" + ToDecimal(port);
    PortOfAddress(ip, port);
  }

  /** The peer a datagram makes this broker responsible for dialling, if any. */
  function Accepts(cluster: string, self: string, data: string): (r: Option<Beacon>)
    ensures r.Some? ==> 0 < r.value.routerPort <= 65535 && Less(self, r.value.uuid)
  {
    var b := DecodeFields(Split(data));
    if b.Some? && b.value.cluster == cluster && b.value.uuid != self && Less(self, b.value.uuid) then b else None
  }

  function Heard(d: Disc, ip: string, b: Beacon, now: int): (r: Disc)
    requires b.routerPort >= 0
  {
    d.(dialed := d.dialed[b.uuid := Entry(Address(ip, b.routerPort), now)])
  }

  function Stale(d: Disc, now: int): (r: set<string>)
  {
    set u | u in d.dialed && now - d.dialed[u].lastSeen > PEER_TIMEOUT
  }

  class BrokerDiscovery {
    const cluster: string
    const selfUuid: string
    var dialed: map<string, Entry>

    ghost function View(): (d: Disc)
      reads this
    {
      Disc(cluster, selfUuid, dialed)
    }

    constructor (cluster: string, selfUuid: string)
      ensures View() == Disc(cluster, selfUuid, map[])
    {
      this.cluster, this.selfUuid, this.dialed := cluster, selfUuid, map[];
    }

    /** The returned pair is the call to the dial callback, if one is made. */
    method OnDatagram(senderIp: string, data: string, now: int) returns (dial: Option<(string, string)>)
      modifies this`dialed
      ensures match Accepts(cluster, selfUuid, data)
        case None => View() == old(View()) && dial.None?
        case Some(b) =>
          && View() == Heard(old(View()), senderIp, b, now)
          && dial == if b.uuid in old(dialed) then None else Some((b.uuid, Address(senderIp, b.routerPort)))
    {
      dial := None;
      var decoded := DecodeBeacon(data);
      if decoded.None? {
        return;
      }
      var beacon := decoded.value;
      if beacon.cluster != cluster {
        return;
      }
      if beacon.uuid == selfUuid {
        return;
      }
      if !Less(selfUuid, beacon.uuid) {
        return;
      }
      var address := Address(senderIp, beacon.routerPort);
      if beacon.uuid !in dialed {
        dial := Some((beacon.uuid, address));
      }
      dialed := dialed[beacon.uuid := Entry(address, now)];
    }

    /** The returned uuids are the calls to the drop callback. */
    method ExpireStale(now: int) returns (lost: seq<string>)
      modifies this`dialed
      ensures NoRepeats(lost) && forall u :: u in lost <==> u in Stale(old(View()), now)
      ensures dialed == old(dialed) - Stale(old(View()), now)
    {
      lost := [];
      var todo := dialed.Keys;
      while todo != {}
        invariant todo <= dialed.Keys && NoRepeats(lost)
        invariant forall u :: u in lost <==> u in Stale(old(View()), now) && u !in todo
        invariant dialed == old(dialed) - (Stale(old(View()), now) - todo)
        decreases todo
      {
        var u :| u in todo;
        if now - dialed[u].lastSeen > PEER_TIMEOUT {
          lost := lost + [u];
          dialed := dialed - {u};
        }
        todo := todo - {u};
      }
    }
  }

  // ---- runs

  datatype Input = Datagram(ip: string, data: string, at: int) | Expire(at: int)

  function Next(d: Disc, i: Input): (r: Disc)
  {
    match i
    case Datagram(ip, data, at) =>
      var b := Accepts(d.cluster, d.uuid, data);
      if b.Some? then Heard(d, ip, b.value, at) else d
    case Expire(at) => d.(dialed := d.dialed - Stale(d, at))
  }

  function Run(d: Disc, inputs: seq<Input>): (r: Disc)
  {
    if inputs == [] then d else Next(Run(d, inputs[..|inputs| - 1]), inputs[|inputs| - 1])
  }

  datatype Call = Dial | Drop

  /** The callbacks one input makes for uuid u. */
  function Calls(d: Disc, i: Input, u: string): (r: seq<Call>)
  {
    match i
    case Datagram(_, data, _) =>
      var b := Accepts(d.cluster, d.uuid, data);
      if b.Some? && b.value.uuid == u && u !in d.dialed then [Dial] else []
    case Expire(at) => if u in Stale(d, at) then [Drop] else []
  }

  function RunCalls(d: Disc, inputs: seq<Input>, u: string): (r: seq<Call>)
  {
    if inputs == [] then []
    else
      var init := inputs[..|inputs| - 1];
      RunCalls(d, init, u) + Calls(Run(d, init), inputs[|inputs| - 1], u)
  }

  /** The call that comes next when calls alternate, starting with dial. */
  function Due(calls: seq<Call>): (r: Call)
  {
    if calls == [] || calls[|calls| - 1] == Drop then Dial else Drop
  }

  predicate Alternates(calls: seq<Call>)
  {
    calls == [] ||
    var init := calls[..|calls| - 1];
    Alternates(init) && calls[|calls| - 1] == Due(init)
  }

  /** At most one call per input: dial for a uuid that enters the table, drop for one that leaves it. */
  lemma CallsFollowTable(d: Disc, i: Input, u: string)
    ensures var before, after := u in d.dialed, u in Next(d, i).dialed;
      Calls(d, i, u) == if before == after then [] else if after then [Dial] else [Drop]
  {
  }

  /** For each uuid, dial and drop calls strictly alternate starting with dial, and the
      uuid is in the dialed table exactly between a dial and its drop. */
  lemma {:induction false} DialsAndDropsAlternate(d: Disc, inputs: seq<Input>, u: string)
    requires d.dialed == map[]
    ensures var calls := RunCalls(d, inputs, u);
      Alternates(calls) && (u in Run(d, inputs).dialed <==> calls != [] && calls[|calls| - 1] == Dial)
  {
    if inputs != [] {
      var init, last := inputs[..|inputs| - 1], inputs[|inputs| - 1];
      var calls := RunCalls(d, init, u);
      DialsAndDropsAlternate(d, init, u);
      CallsFollowTable(Run(d, init), last, u);
      var all := calls + Calls(Run(d, init), last, u);
      assert |all| == |calls| + 1 ==> all[..|all| - 1] == calls;
      assert |all| == |calls| ==> all == calls;
    }
  }

  /** The last beacon of u this broker acts on: where it came from, its port and when. */
  datatype Sighting = Sighting(ip: string, port: int, at: int)

  function LastBeacon(cluster: string, self: string, inputs: seq<Input>, u: string): (r: Option<Sighting>)
    ensures r.Some? ==> 0 < r.value.port <= 65535
  {
    if inputs == [] then None
    else
      var last := inputs[|inputs| - 1];
      var b := if last.Datagram? then Accepts(cluster, self, last.data) else None;
      if b.Some? && b.value.uuid == u then Some(Sighting(last.ip, b.value.routerPort, last.at))
      else LastBeacon(cluster, self, inputs[..|inputs| - 1], u)
  }

  lemma {:induction false} RunIdentity(d: Disc, inputs: seq<Input>)
    ensures Run(d, inputs).cluster == d.cluster && Run(d, inputs).uuid == d.uuid
  {
    if inputs != [] {
      RunIdentity(d, inputs[..|inputs| - 1]);
    }
  }

  /** The table holds, for each peer, the address and the time of its last beacon. */
  lemma {:induction false} TableHoldsLastBeacon(d: Disc, inputs: seq<Input>, u: string)
    requires d.dialed == map[]
    ensures var r, last := Run(d, inputs), LastBeacon(d.cluster, d.uuid, inputs, u);
      u in r.dialed ==> last.Some? && r.dialed[u] == Entry(Address(last.value.ip, last.value.port), last.value.at)
  {
    if inputs != [] {
      TableHoldsLastBeacon(d, inputs[..|inputs| - 1], u);
      RunIdentity(d, inputs[..|inputs| - 1]);
    }
  }

  /** A drop comes only more than five seconds after the last beacon of that peer, and an
      expiry pass drops every dialed peer silent that long. */
  lemma DropsOnlyTheSilent(d: Disc, inputs: seq<Input>, u: string, now: int)
    requires d.dialed == map[]
    ensures var heard := LastBeacon(d.cluster, d.uuid, inputs, u);
      Calls(Run(d, inputs), Expire(now), u) == [Drop] <==>
      u in Run(d, inputs).dialed && heard.Some? && now - heard.value.at > 5_000
  {
    TableHoldsLastBeacon(d, inputs, u);
  }

  // ---- the broker's peer table follows

  /** `manual` are the addresses linked by connectToPeer; `peers` the keys of the peer table. */
  datatype Peering = Peering(d: Disc, manual: set<string>, peers: set<string>)

  datatype Change = Discovered(i: Input) | Connect(address: string)

  function Follow(p: Peering, c: Change): (r: Peering)
  {
    match c
    case Connect(address) => p.(manual := p.manual + {address}, peers := p.peers + {address})
    case Discovered(i) =>
      var peers := match i
        case Expire(at) => p.peers - Stale(p.d, at)
        case Datagram(_, data, _) =>
          var b := Accepts(p.d.cluster, p.d.uuid, data);
          if b.Some? && b.value.uuid !in p.d.dialed then p.peers + {b.value.uuid} else p.peers;
      p.(d := Next(p.d, i), peers := peers)
  }

  /** The peer table is the manual links plus the dialed uuids. */
  predicate Mirrors(p: Peering)
  {
    p.peers == p.manual + p.d.dialed.Keys
  }

  /** No peer about to be dropped carries the name of a manual link. */
  predicate Clear(p: Peering, c: Change)
  {
    c.Discovered? && c.i.Expire? ==> Stale(p.d, c.i.at) !! p.manual
  }

  /** One step keeps the mirror exactly when it is clear. */
  lemma MirrorStep(p: Peering, c: Change)
    requires Mirrors(p)
    ensures Mirrors(Follow(p, c)) <==> Clear(p, c)
  {
    if c.Discovered? && c.i.Expire? {
      var stale := Stale(p.d, c.i.at);
      var r := Follow(p, c);
      assert stale <= p.d.dialed.Keys;
      assert r.d.dialed.Keys == p.d.dialed.Keys - stale;
      if !(stale !! p.manual) {
        var u :| u in stale && u in p.manual;
        assert u !in r.peers && u in r.manual;
      }
    } else if c.Discovered? {
      assert Next(p.d, c.i).dialed.Keys ==
        p.d.dialed.Keys + (var b := Accepts(p.d.cluster, p.d.uuid, c.i.data); if b.Some? then {b.value.uuid} else {});
    }
  }

  predicate MirrorsThroughout(p: Peering, changes: seq<Change>)
    decreases |changes|
  {
    Mirrors(p) && (changes == [] || MirrorsThroughout(Follow(p, changes[0]), changes[1..]))
  }

  predicate ClearThroughout(p: Peering, changes: seq<Change>)
    decreases |changes|
  {
    changes == [] || (Clear(p, changes[0]) && ClearThroughout(Follow(p, changes[0]), changes[1..]))
  }

  /** Over a whole run: the discovered keys of the peer table are the dialed uuids after
      every step, exactly when no dropped uuid is also the address of a manual link. */
  lemma {:induction false} PeersMirrorDialed(p: Peering, changes: seq<Change>)
    requires Mirrors(p)
    ensures MirrorsThroughout(p, changes) <==> ClearThroughout(p, changes)
    decreases |changes|
  {
    if changes != [] {
      MirrorStep(p, changes[0]);
      if Clear(p, changes[0]) {
        PeersMirrorDialed(Follow(p, changes[0]), changes[1..]);
      }
    }
  }

  /** The condition is needed, for every broker with a printed uuid and every manual link to
      tcp://host:port: a beacon that gives this address as its uuid takes the link down when it
      expires, because digits and a to f all sort before the letter t. */
  lemma MirrorCanBreak(cluster: string, draws: seq<nat>, host: string, port: nat, beaconPort: nat)
      returns (changes: seq<Change>)
    requires Uuid.Draws(draws) && NoBar(cluster) && NoBar(host) && 0 < beaconPort <= 65535
    ensures var p := Peering(Disc(cluster, Uuid.UuidOf(draws), map[]), {}, {});
      && Mirrors(p) && |changes| == 3 && changes[0] == Connect(Address(host, port))
      && !MirrorsThroughout(p, changes)
  {
    var self, addr := Uuid.UuidOf(draws), Address(host, port);
    AddressHasNoBar(host, port);
    UuidBelowAddress(draws, host, port);
    var p := Peering(Disc(cluster, self, map[]), {}, {});
    var data := EncodeBeacon(cluster, addr, beaconPort);
    BeaconRoundTrip(cluster, addr, beaconPort);
    LessTotal(self, addr);
    assert Accepts(cluster, self, data) == Some(Beacon(cluster, addr, beaconPort));
    changes := [Connect(addr), Discovered(Datagram("ip", data, 0)), Discovered(Expire(6_000))];
    TakesLinkDown(p, data, Beacon(cluster, addr, beaconPort), changes);
  }

  lemma TakesLinkDown(p: Peering, data: string, b: Beacon, changes: seq<Change>)
    requires Mirrors(p) && p.d.dialed == map[] && Accepts(p.d.cluster, p.d.uuid, data) == Some(b)
    requires changes == [Connect(b.uuid), Discovered(Datagram("ip", data, 0)), Discovered(Expire(6_000))]
    ensures !MirrorsThroughout(p, changes)
  {
    var p1 := Follow(p, changes[0]);
    var p2 := Follow(p1, changes[1]);
    assert b.uuid in Stale(p2.d, 6_000) && b.uuid in p2.manual;
    assert !Clear(p2, changes[2]) && !ClearThroughout(p2, changes[2..]);
    assert !ClearThroughout(p1, changes[1..]);
    PeersMirrorDialed(p, changes);
  }

  lemma AddressHasNoBar(host: string, port: nat)
    requires NoBar(host)
    ensures NoBar(Address(host, port))
  {
  }

  lemma UuidBelowAddress(draws: seq<nat>, host: string, port: nat)
    requires Uuid.Draws(draws)
    ensures Less(Uuid.UuidOf(draws), Address(host, port))
  {
    Uuid.UuidShape(draws);
  }

  // ---- many brokers: one link per pair

  /** `dials` holds every (dialler, dialled) pair there ever was, `heard` every
      (listener, cluster, uuid) read from a datagram. */
  datatype Lan = Lan(
    brokers: map<string, Disc>,
    dials: Edges,
    heard: set<(string, string, string)>)

  function Step(l: Lan, b: string, i: Input): (r: Lan)
    requires b in l.brokers
  {
    var d := l.brokers[b];
    var read := if i.Datagram? then DecodeFields(Split(i.data)) else None;
    var dialled := if i.Datagram? then Accepts(d.cluster, d.uuid, i.data) else None;
    Lan(l.brokers[b := Next(d, i)],
        if dialled.Some? && dialled.value.uuid !in d.dialed then l.dials + {(b, dialled.value.uuid)} else l.dials,
        if read.Some? then l.heard + {(b, read.value.cluster, read.value.uuid)} else l.heard)
  }

  predicate Steps(l: Lan, inputs: seq<(string, Input)>)
  {
    forall k | 0 <= k < |inputs| :: inputs[k].0 in l.brokers
  }

  function Rolled(l: Lan, inputs: seq<(string, Input)>): (r: Lan)
    requires Steps(l, inputs)
    ensures r.brokers.Keys == l.brokers.Keys
    decreases |inputs|
  {
    if inputs == [] then l
    else
      var next := Step(l, inputs[0].0, inputs[0].1);
      assert forall k | 0 <= k < |inputs| - 1 :: inputs[1..][k] == inputs[k + 1];
      Rolled(next, inputs[1..])
  }

  /** A broker dialled a uuid exactly when it has heard it in its own cluster and its own uuid is smaller. */
  ghost predicate Ordered(l: Lan)
  {
    && (forall b | b in l.brokers :: l.brokers[b].uuid == b)
    && (forall b, u :: (b, u) in l.dials <==>
         b in l.brokers && (b, l.brokers[b].cluster, u) in l.heard && Less(b, u))
    && (forall b, u | b in l.brokers && u in l.brokers[b].dialed :: (b, u) in l.dials)
  }

  lemma StepOrdered(l: Lan, b: string, i: Input)
    requires Ordered(l) && b in l.brokers
    ensures Ordered(Step(l, b, i))
  {
    var d, r := l.brokers[b], Step(l, b, i);
    LessTotal(b, b);
    forall x, u ensures (x, u) in r.dials <==>
        x in r.brokers && (x, r.brokers[x].cluster, u) in r.heard && Less(x, u)
    {
      assert (x, u) in l.dials <==> x in l.brokers && (x, l.brokers[x].cluster, u) in l.heard && Less(x, u);
    }
    forall x, u | x in r.brokers && u in r.brokers[x].dialed ensures (x, u) in r.dials {
      if x in l.brokers && u in l.brokers[x].dialed {
        assert (x, u) in l.dials;
      }
    }
  }

  lemma {:induction false} RolledOrdered(l: Lan, inputs: seq<(string, Input)>)
    requires Ordered(l) && Steps(l, inputs)
    ensures Ordered(Rolled(l, inputs))
    ensures forall b | b in l.brokers :: Rolled(l, inputs).brokers[b].cluster == l.brokers[b].cluster
    decreases |inputs|
  {
    if inputs != [] {
      StepOrdered(l, inputs[0].0, inputs[0].1);
      assert forall k | 0 <= k < |inputs| - 1 :: inputs[1..][k] == inputs[k + 1];
      RolledOrdered(Step(l, inputs[0].0, inputs[0].1), inputs[1..]);
    }
  }

  /** One link per pair: whatever datagrams arrive in whatever order, at most one of two
      brokers ever dials the other, and once both have heard each other's beacon in the
      same cluster exactly one has. */
  lemma OneLinkPerPair(l: Lan, inputs: seq<(string, Input)>, a: string, b: string)
    requires Ordered(l) && Steps(l, inputs)
    requires a in l.brokers && b in l.brokers && a != b
    ensures var r := Rolled(l, inputs);
      && !((a, b) in r.dials && (b, a) in r.dials)
      && (var cluster := l.brokers[a].cluster;
          l.brokers[b].cluster == cluster && (a, cluster, b) in r.heard && (b, cluster, a) in r.heard ==>
          (a, b) in r.dials || (b, a) in r.dials)
  {
    RolledOrdered(l, inputs);
    LessTotal(a, b);
  }

  predicate DialPath(l: Lan, path: seq<string>)
  {
    |path| >= 2 && Path(l.dials, path)
  }

  lemma {:induction false} PathAscends(l: Lan, path: seq<string>)
    requires Ordered(l) && DialPath(l, path)
    ensures Less(path[0], path[|path| - 1])
  {
    assert (path[1 - 1], path[1]) in l.dials;
    if |path| > 2 {
      forall i | 0 < i < |path| - 1 ensures (path[1..][i - 1], path[1..][i]) in l.dials {
        assert (path[i + 1 - 1], path[i + 1]) in l.dials;
      }
      PathAscends(l, path[1..]);
      LessTransitive(path[0], path[1], path[|path| - 1]);
    }
  }

  /** The dial graph never has a cycle. */
  lemma DialGraphAcyclic(l: Lan, inputs: seq<(string, Input)>, path: seq<string>)
    requires Ordered(l) && Steps(l, inputs) && DialPath(Rolled(l, inputs), path)
    ensures path[0] != path[|path| - 1]
  {
    RolledOrdered(l, inputs);
    PathAscends(Rolled(l, inputs), path);
    LessTotal(path[0], path[0]);
  }

  /** Receiving the beacon another broker prints counts as hearing that broker. */
  lemma PrintedBeaconHeard(l: Lan, b: string, i: Input, cluster: string, uuid: string, port: nat)
    requires b in l.brokers && NoBar(cluster) && NoBar(uuid) && 0 < port <= 65535
    requires i.Datagram? && i.data == EncodeBeacon(cluster, uuid, port)
    ensures (b, cluster, uuid) in Step(l, b, i).heard
  {
    BeaconRoundTrip(cluster, uuid, port);
  }

  lemma {:induction false} HeardGrows(l: Lan, inputs: seq<(string, Input)>)
    requires Steps(l, inputs)
    ensures l.heard <= Rolled(l, inputs).heard
    decreases |inputs|
  {
    if inputs != [] {
      assert forall k | 0 <= k < |inputs| - 1 :: inputs[1..][k] == inputs[k + 1];
      HeardGrows(Step(l, inputs[0].0, inputs[0].1), inputs[1..]);
    }
  }

  /** Input k brings broker b the beacon of `uuid` in the cluster. */
  predicate Brings(inputs: seq<(string, Input)>, k: nat, b: string, cluster: string, uuid: string, port: nat)
  {
    && k < |inputs| && inputs[k].0 == b && inputs[k].1.Datagram? && 0 < port <= 65535
    && inputs[k].1.data == EncodeBeacon(cluster, uuid, port)
  }

  lemma {:induction false} HeardOnceBrought(l: Lan, inputs: seq<(string, Input)>, k: nat, b: string, cluster: string,
                                            uuid: string, port: nat)
    requires Steps(l, inputs) && Brings(inputs, k, b, cluster, uuid, port) && NoBar(cluster) && NoBar(uuid)
    ensures (b, cluster, uuid) in Rolled(l, inputs).heard
    decreases |inputs|
  {
    var next := Step(l, inputs[0].0, inputs[0].1);
    assert forall k | 0 <= k < |inputs| - 1 :: inputs[1..][k] == inputs[k + 1];
    if k == 0 {
      PrintedBeaconHeard(l, b, inputs[0].1, cluster, uuid, port);
      HeardGrows(next, inputs[1..]);
    } else {
      HeardOnceBrought(next, inputs[1..], k - 1, b, cluster, uuid, port);
    }
  }

  /** Two brokers of one cluster that each received a beacon the other printed: exactly one dials. */
  lemma ExactlyOneDials(l: Lan, inputs: seq<(string, Input)>, a: string, b: string, i: nat, j: nat,
                        portA: nat, portB: nat)
    requires Ordered(l) && Steps(l, inputs)
    requires a in l.brokers && b in l.brokers && a != b && l.brokers[a].cluster == l.brokers[b].cluster
    requires NoBar(a) && NoBar(b) && NoBar(l.brokers[a].cluster)
    requires Brings(inputs, i, a, l.brokers[a].cluster, b, portB)
    requires Brings(inputs, j, b, l.brokers[a].cluster, a, portA)
    ensures (a, b) in Rolled(l, inputs).dials <==> (b, a) !in Rolled(l, inputs).dials
  {
    HeardOnceBrought(l, inputs, i, a, l.brokers[a].cluster, b, portB);
    HeardOnceBrought(l, inputs, j, b, l.brokers[a].cluster, a, portA);
    OneLinkPerPair(l, inputs, a, b);
  }
}

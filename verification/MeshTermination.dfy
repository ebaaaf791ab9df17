/** How far one message can spread: its copies, sent or arriving, number at most
    two per link in every run of the mesh. */
module MeshTermination {
  import opened Messages
  import opened Sequences
  import opened Mesh
  import opened MeshOnce

  function Floods(links: set<(string, string)>, e: Envelope): (r: set<Packet>)
  {
    set l | l in links :: Flood(l.0, l.1, e)
  }

  function Backs(links: set<(string, string)>, e: Envelope): (r: set<Packet>)
  {
    set l | l in links :: Back(l.1, l.0, e)
  }

  /** Both directions of every link, each carrying e. */
  function Copies(links: set<(string, string)>, e: Envelope): (r: set<Packet>)
  {
    Floods(links, e) + Backs(links, e)
  }

  lemma {:induction false} FloodsCount(links: set<(string, string)>, e: Envelope)
    ensures |Floods(links, e)| == |links|
  {
    if links != {} {
      var l :| l in links;
      FloodsCount(links - {l}, e);
      assert Floods(links, e) == Floods(links - {l}, e) + {Flood(l.0, l.1, e)};
    }
  }

  lemma {:induction false} BacksCount(links: set<(string, string)>, e: Envelope)
    ensures |Backs(links, e)| == |links|
  {
    if links != {} {
      var l :| l in links;
      BacksCount(links - {l}, e);
      assert Backs(links, e) == Backs(links - {l}, e) + {Back(l.1, l.0, e)};
    }
  }

  lemma CopiesCount(links: set<(string, string)>, e: Envelope)
    ensures |Copies(links, e)| == 2 * |links|
  {
    FloodsCount(links, e);
    BacksCount(links, e);
    assert Floods(links, e) !! Backs(links, e);
  }

  lemma OnLinkCopy(n: Net, p: Packet, e: Envelope)
    requires OnLink(n, p) && p.env == e
    ensures p in Copies(Links(n), e)
  {
    assert (if p.Flood? then (p.src, p.dst) else (p.dst, p.src)) in Links(n);
  }

  /** The copies of e that can still arrive. */
  function Remaining(n: Net, e: Envelope): (r: set<Packet>)
  {
    set p | p in Copies(Links(n), e) && Open(n, p)
  }

  function Arrivals(events: seq<Event>, e: Envelope): (r: nat)
  {
    if events == [] then 0
    else (if events[0].Arrive? && events[0].p.env == e then 1 else 0) + Arrivals(events[1..], e)
  }

  lemma RemainingAfter(n: Net, r: Net, taken: Option<Packet>, e: Envelope)
    requires SameLinks(n, r) && Shrinks(n, r, taken, e)
    ensures |Remaining(r, e)| + (if taken.Some? && taken.value.env == e then 1 else 0) <= |Remaining(n, e)|
  {
    SameCrossings(n, r, e.header.key);
    var before, after := Remaining(n, e), Remaining(r, e);
    if taken.Some? && taken.value.env == e {
      var p := taken.value;
      OnLinkCopy(n, p, e);
      assert p in before && p !in after;
      Subset(after + {p}, before);
    } else {
      Subset(after, before);
    }
  }

  lemma {:induction false} ArrivalsBounded(n: Net, events: seq<Event>, e: Envelope, ids: set<string>)
    requires Routable(e) && OnceInv(n, e, ids) && Runs(n, events) && NamingRun(n, events, e, ids)
    ensures Arrivals(events, e) <= |Remaining(n, e)|
    decreases |events|
  {
    if events != [] {
      NextOnce(n, events[0], e, ids);
      RemainingAfter(n, Next(n, events[0]), Taken(events[0]), e);
      ArrivalsBounded(Next(n, events[0]), events[1..], e, ids);
    }
  }

  /** The copies of e among `copies`, with their multiplicities. */
  ghost function Carrying(copies: multiset<Packet>, e: Envelope): (r: multiset<Packet>)
    ensures forall p :: r[p] == if p.env == e then copies[p] else 0
    decreases |copies|
  {
    if copies == multiset{} then multiset{}
    else
      var p :| p in copies;
      var rest := Carrying(copies - multiset{p}, e);
      if p.env == e then rest + multiset{p} else rest
  }

  lemma {:induction false} OncePerElement<T>(ms: multiset<T>, s: set<T>)
    requires forall x | x in ms :: ms[x] == 1 && x in s
    ensures |ms| <= |s|
  {
    if ms != multiset{} {
      var x :| x in ms;
      OncePerElement(ms - multiset{x}, s - {x});
    }
  }

  lemma SentBounded(n: Net, e: Envelope)
    requires SentOnce(n, e)
    ensures |Carrying(n.sent, e)| <= 2 * |Links(n)|
  {
    forall p | p in Carrying(n.sent, e) ensures p in Copies(Links(n), e) {
      assert p in n.sent;
      OnLinkCopy(n, p, e);
    }
    OncePerElement(Carrying(n.sent, e), Copies(Links(n), e));
    CopiesCount(Links(n), e);
  }

  lemma SentAtMost(n: Net, events: seq<Event>, e: Envelope, ids: set<string>)
    requires Routable(e) && OnceInv(n, e, ids) && Runs(n, events) && NamingRun(n, events, e, ids)
    ensures |Carrying(After(n, events).sent, e)| <= 2 * |Links(n)|
  {
    RunOnce(n, events, e, ids);
    SentBounded(After(n, events), e);
    SameCrossings(n, After(n, events), e.header.key);
  }

  lemma ArriveAtMost(n: Net, events: seq<Event>, e: Envelope, ids: set<string>)
    requires Routable(e) && OnceInv(n, e, ids) && Runs(n, events) && NamingRun(n, events, e, ids)
    ensures Arrivals(events, e) <= 2 * |Links(n)|
  {
    ArrivalsBounded(n, events, e, ids);
    CopiesCount(Links(n), e);
    Subset(Remaining(n, e), Copies(Links(n), e));
  }

  /** Flood termination: however long the run, on any graph, cycles included, with losses,
      forgotten links and any key a broker may route, the copies of one message that are ever
      sent number at most two per link, and so do those that arrive anywhere. */
  lemma FloodTermination(n: Net, events: seq<Event>, e: Envelope, ids: set<string>)
    requires Routable(e) && Begins(n, e, ids) && Runs(n, events) && NamingRun(n, events, e, ids)
    ensures |Carrying(After(n, events).sent, e)| <= 2 * |Links(n)|
    ensures Arrivals(events, e) <= 2 * |Links(n)|
  {
    BeginsOnce(n, e, ids);
    SentAtMost(n, events, e, ids);
    ArriveAtMost(n, events, e, ids);
  }
}

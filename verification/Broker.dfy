/** The broker object: known clients, registry, dedup history and peer table,
    updated in place.  Each method is proved against the step machine. */
module Broker {
  import opened Messages
  import opened Sequences
  import opened Registry
  import B = BrokerStep
  import L = Liveness

  const SYS_STATS := "__SYS_STATS__"

  /** One copy for each recipient. */
  function ToEach(recipients: set<string>, env: Envelope): (r: multiset<(string, Envelope)>)
  {
    multiset(set c | c in recipients :: (c, env))
  }

  /** What goes out on the ROUTER socket for an outcome, each copy once. */
  function ClientSends(out: B.Outcome, origin: B.Origin): (r: multiset<(string, Envelope)>)
  {
    match out
    case ResetSent => if origin.Local? then multiset{(origin.id, Control(RESET, "", ""))} else multiset{}
    case Acked => if origin.Local? then multiset{(origin.id, Control(HEARTBEAT_ACK, "", ""))} else multiset{}
    case Routed(env, recipients, _) => ToEach(recipients, env)
    case _ => multiset{}
  }

  /** What goes out on the peer links, one copy for each. */
  function PeerSends(out: B.Outcome): (r: multiset<(string, Envelope)>)
  {
    if out.Routed? then ToEach(out.peers, out.env) else multiset{}
  }

  /** One copy of env to each of the given clients. */
  function Addressed(ids: seq<string>, env: Envelope): (r: seq<(string, Envelope)>)
  {
    seq(|ids|, i requires 0 <= i < |ids| => (ids[i], env))
  }

  lemma AddressedOnce(ids: seq<string>, recipients: set<string>, env: Envelope)
    requires NoRepeats(ids) && forall c :: c in ids <==> c in recipients
    ensures multiset(Addressed(ids, env)) == ToEach(recipients, env)
  {
    var sends, pairs := Addressed(ids, env), set c | c in recipients :: (c, env);
    forall x ensures x in pairs <==> x in sends {
      if x in pairs {
        var i :| 0 <= i < |ids| && ids[i] == x.0;
        assert sends[i] == x;
      }
    }
    RangeAsMultiset(sends, pairs);
  }

  lemma TailMembers(s: seq<string>)
    requires NoRepeats(s) && s != []
    ensures forall u :: u in s[1..] <==> u in s && u != s[0]
  {
  }

  /** A new message is recorded, handed to its recipients and flooded: that is one routing step. */
  lemma RouteOf(s: B.State, r: B.State, env: Envelope, origin: B.Origin)
    requires env.header.uuid !in s.order && r == s.(order := B.Remember(s.order, env.header.uuid))
    ensures var (s', out) := B.Route(s, env, origin);
      && s' == r
      && ClientSends(out, origin) == ToEach(B.Recipients(r, env.header.topic, origin), env)
      && PeerSends(out) == ToEach(r.peers, env)
  {
    assert B.Recipients(s, env.header.topic, origin) == B.Recipients(r, env.header.topic, origin);
  }

  class ZmqBroker {
    const brokerId: string
    const subscriptions: SubscriptionRegistry
    var clients: map<string, int>
    var seenMessageIds: set<string>
    var messageIdOrder: seq<string>
    var peers: map<string, string>
    var lastCleanup: int

    ghost function View(): (s: B.State)
      reads this, subscriptions
    {
      B.State(brokerId, clients, subscriptions.Pairs(), messageIdOrder, peers.Keys)
    }

    /** The id set and the deque hold the same ids. */
    ghost predicate Valid()
      reads this, subscriptions
    {
      && subscriptions.Valid()
      && B.Sound(View())
      && (forall u :: u in seenMessageIds <==> u in messageIdOrder)
    }

    constructor (id: string, now: int)
      ensures Valid() && fresh(subscriptions)
      ensures View() == B.State(id, map[], {}, [], {}) && lastCleanup == now
    {
      brokerId := id;
      subscriptions := new SubscriptionRegistry();
      clients, seenMessageIds, messageIdOrder, peers := map[], {}, [], map[];
      lastCleanup := now;
    }

    method IsDuplicate(uuid: string) returns (duplicate: bool)
      requires Valid()
      modifies this`seenMessageIds, this`messageIdOrder
      ensures Valid()
      ensures duplicate <==> uuid in old(messageIdOrder)
      ensures messageIdOrder == if duplicate then old(messageIdOrder) else B.Remember(old(messageIdOrder), uuid)
    {
      if uuid in seenMessageIds {
        return true;
      }
      B.RememberSound(messageIdOrder, uuid);
      seenMessageIds := seenMessageIds + {uuid};
      messageIdOrder := messageIdOrder + [uuid];
      ghost var longer := messageIdOrder;
      assert NoRepeats(longer);
      if |messageIdOrder| > B.MAX_HISTORY {
        seenMessageIds := seenMessageIds - {messageIdOrder[0]};
        messageIdOrder := messageIdOrder[1..];
        TailMembers(longer);
      }
      return false;
    }

    method RemoveClient(c: string)
      requires Valid()
      modifies this`clients, subscriptions
      ensures Valid()
      ensures View() == B.RemoveClients(old(View()), {c})
    {
      subscriptions.RemoveClient(c);
      clients := clients - {c};
    }

    /** The registry's subscribers of a topic, none if it has no entry; all of them are known. */
    method Subscribers(topic: string) returns (subs: seq<string>)
      requires Valid()
      ensures NoRepeats(subs) && forall c :: c in subs <==> (c, topic) in subscriptions.Pairs()
      ensures forall c | c in subs :: c in clients
    {
      var found := subscriptions.SubscribersOf(topic);
      subs := if found.Some? then found.value else [];
      forall c | c in subs ensures c in clients {
        assert (c, topic) in View().pairs;
      }
    }

    /** One delivery loop: the subscribers in turn, except those to skip and the sender. */
    method Serve(ids: seq<string>, subs: seq<string>, skip: seq<string>, origin: B.Origin) returns (r: seq<string>)
      requires NoRepeats(ids) && NoRepeats(subs) && forall c | c in subs :: c in clients && (c in ids ==> c in skip)
      ensures NoRepeats(r)
      ensures forall c :: c in r <==> c in ids || (c in subs && c !in skip && origin != B.Local(c))
    {
      r := ids;
      for i := 0 to |subs|
        invariant NoRepeats(r)
        invariant forall c :: c in r <==> c in ids || (c in subs[..i] && c !in skip && origin != B.Local(c))
      {
        var c := subs[i];
        assert subs[..i + 1] == subs[..i] + [c];
        if c !in skip && origin != B.Local(c) && c in clients {
          r := r + [c];
        }
      }
      assert subs[..|subs|] == subs;
    }

    /** The delivery loops: exact subscribers first, then wildcard subscribers not already served. */
    method Deliver(topic: string, origin: B.Origin) returns (ids: seq<string>)
      requires Valid()
      ensures NoRepeats(ids)
      ensures forall c :: c in ids <==> c in B.Recipients(View(), topic, origin)
    {
      var exactSubs := Subscribers(topic);
      ids := Serve([], exactSubs, [], origin);
      if topic != "" {
        var wildcardSubs := Subscribers("");
        ids := Serve(ids, wildcardSubs, exactSubs, origin);
      }
    }

    method ProcessMessage(env: Envelope, origin: B.Origin, now: int, draw: string)
      returns (sends: seq<(string, Envelope)>, floods: seq<(string, Envelope)>, tap: Envelope)
      requires Valid()
      modifies this, subscriptions
      ensures Valid() && unchanged(`peers) && unchanged(`lastCleanup)
      ensures var (s, out) := B.Process(old(View()), env, origin, now, draw);
        && View() == s
        && multiset(sends) == ClientSends(out, origin)
        && multiset(floods) == PeerSends(out)
      ensures tap == B.Stamp(env, brokerId, draw)
    {
      var stamped := B.Stamp(env, brokerId, draw);
      sends, floods, tap := [], [], stamped;
      if origin.Local? {
        var done;
        done, sends := HandleLocal(stamped, origin.id, now);
        if done {
          return;
        }
      } else {
        var key := stamped.header.key;
        if key == RESET || key == HEARTBEAT_ACK || key == HEARTBEAT {
          return;
        }
      }
      sends, floods := RouteMessage(stamped, origin);
    }

    /** The part for local clients: removal, RESET of a new client, keep-alives and subscriptions.
        What is not done here is a known client's message still to be routed. */
    method HandleLocal(env: Envelope, c: string, now: int) returns (done: bool, sends: seq<(string, Envelope)>)
      requires Valid()
      modifies this`clients, subscriptions
      ensures Valid()
      ensures done ==>
        var (s, out) := B.ProcessLocal(old(View()), env, c, now);
        View() == s && !out.Routed? && multiset(sends) == ClientSends(out, B.Local(c))
      ensures !done ==>
        && View() == old(View()).(clients := old(clients)[c := now])
        && c in old(clients) && !HandledLocally(env.header.key)
    {
      done, sends := true, [];
      var key, topic := env.header.key, env.header.topic;
      if key == DISCONNECT {
        RemoveClient(c);
        return;
      }
      var newClient := c !in clients;
      clients := clients[c := now];
      if newClient {
        sends := [(c, Control(RESET, "", ""))];
        return;
      }
      if key == CONNECT || key == HEARTBEAT {
        if key == HEARTBEAT {
          sends := [(c, Control(HEARTBEAT_ACK, "", ""))];
        }
        return;
      }
      if key == SUBSCRIBE {
        var _ := subscriptions.Subscribe(c, topic);
        return;
      }
      if key == UNSUBSCRIBE {
        var _ := subscriptions.Unsubscribe(c, topic);
        return;
      }
      done := false;
    }

    method RouteMessage(env: Envelope, origin: B.Origin)
      returns (sends: seq<(string, Envelope)>, floods: seq<(string, Envelope)>)
      requires Valid()
      modifies this`seenMessageIds, this`messageIdOrder
      ensures Valid()
      ensures var (s, out) := B.Route(old(View()), env, origin);
        && View() == s
        && multiset(sends) == ClientSends(out, origin)
        && multiset(floods) == PeerSends(out)
    {
      var duplicate := IsDuplicate(env.header.uuid);
      if duplicate {
        return [], [];
      }
      sends := FanOut(env, origin);
      floods := Flood(env);
      RouteOf(old(View()), View(), env, origin);
    }

    method FanOut(env: Envelope, origin: B.Origin) returns (sends: seq<(string, Envelope)>)
      requires Valid()
      ensures multiset(sends) == ToEach(B.Recipients(View(), env.header.topic, origin), env)
    {
      var ids := Deliver(env.header.topic, origin);
      sends := Addressed(ids, env);
      AddressedOnce(ids, B.Recipients(View(), env.header.topic, origin), env);
    }

    /** One copy to every peer link; the table's order is not specified. */
    method Flood(env: Envelope) returns (floods: seq<(string, Envelope)>)
      ensures multiset(floods) == ToEach(peers.Keys, env)
    {
      var keys: seq<string> := [];
      var todo := peers.Keys;
      while todo != {}
        invariant todo <= peers.Keys && NoRepeats(keys)
        invariant forall k :: k in keys <==> k in peers.Keys && k !in todo
        decreases todo
      {
        var k :| k in todo;
        keys := keys + [k];
        todo := todo - {k};
      }
      floods := Addressed(keys, env);
      AddressedOnce(keys, peers.Keys, env);
    }

    method AddPeer(key: string, address: string)
      requires Valid()
      modifies this`peers
      ensures Valid() && View() == B.Step(old(View()), B.AddPeer(key))
      ensures peers == if key in old(peers) then old(peers) else old(peers)[key := address]
    {
      if key in peers {
        return;
      }
      peers := peers[key := address];
    }

    method RemovePeer(key: string)
      requires Valid()
      modifies this`peers
      ensures Valid() && View() == B.Step(old(View()), B.RemovePeer(key))
      ensures peers == old(peers) - {key}
    {
      if key !in peers {
        return;
      }
      peers := peers - {key};
    }

    /** The cleanup part of the broker loop: sweep when more than two seconds passed
        since the last sweep, removing exactly the overdue clients. */
    method Cleanup(now: int)
      requires Valid()
      modifies this`clients, this`lastCleanup, subscriptions
      ensures Valid()
      ensures if now - old(lastCleanup) > B.CLEANUP_INTERVAL
        then View() == B.Step(old(View()), B.Sweep(now)) && lastCleanup == now
        else View() == old(View()) && lastCleanup == old(lastCleanup)
      ensures var l := L.Next(L.Loop(old(View()), old(lastCleanup), now), L.Sample(now));
        View() == l.s && lastCleanup == l.lastCleanup
    {
      if now - lastCleanup > B.CLEANUP_INTERVAL {
        ghost var before := View();
        var todo := clients.Keys;
        ghost var gone := {};
        while todo != {}
          invariant Valid() && unchanged(`lastCleanup)
          invariant todo <= before.clients.Keys
          invariant gone == B.Overdue(before, now) - todo
          invariant View() == B.RemoveClients(before, gone)
          decreases todo
        {
          var c :| c in todo;
          assert c in clients && clients[c] == before.clients[c];
          if now - clients[c] > B.CLIENT_TIMEOUT {
            RemoveClient(c);
            gone := gone + {c};
          }
          todo := todo - {c};
        }
        lastCleanup := now;
      }
    }

    /** Statistics go once to each subscriber of the statistics topic, all of them known. */
    method StatsRecipients() returns (ids: seq<string>)
      requires Valid()
      ensures NoRepeats(ids)
      ensures forall c :: c in ids <==> c in clients && (c, "__SYS_STATS__") in subscriptions.Pairs()
    {
      var subs := subscriptions.SubscribersOf(SYS_STATS);
      ids := if subs.Some? then subs.value else [];
    }
  }
}

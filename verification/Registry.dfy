/** The client <-> topic subscription mapping: two maps that must stay mirror
    images under swap-and-pop removal, and refine one set of pairs. */
module Registry {
  import opened Messages
  import opened Sequences

  type Topics = map<string, set<string>>
  type Subscribers = map<string, seq<string>>

  /** Overwrite the first occurrence of x with the last element and drop the last. */
  function SwapPop(s: seq<string>, x: string): (r: seq<string>)
  {
    if x in s then s[IndexOf(s, x) := s[|s| - 1]][..|s| - 1] else s
  }

  function IndexOf(s: seq<string>, x: string): (i: nat)
    requires x in s
    ensures i < |s| && s[i] == x && x !in s[..i]
  {
    if s[0] == x then 0 else 1 + IndexOf(s[1..], x)
  }

  lemma SwapPopRemoves(s: seq<string>, x: string)
    requires NoRepeats(s)
    ensures NoRepeats(SwapPop(s, x))
    ensures forall y :: y in SwapPop(s, x) <==> y in s && y != x
  {
    if x in s {
      var i, r := IndexOf(s, x), SwapPop(s, x);
      assert forall k | 0 <= k < |r| :: r[k] == if k == i then s[|s| - 1] else s[k];
      forall y | y in s && y != x ensures y in r {
        var k :| 0 <= k < |s| && s[k] == y;
        assert r[if k == |s| - 1 then i else k] == y;
      }
    }
  }

  /** Drop one subscriber of one topic; an emptied entry is erased. */
  function Dropped(subs: Subscribers, topic: string, c: string): (r: Subscribers)
  {
    if topic !in subs then subs
    else
      var left := SwapPop(subs[topic], c);
      if left == [] then subs - {topic} else subs[topic := left]
  }

  /** The pair (c, t) as each of the two maps sees it. */
  predicate InTopics(m: Topics, c: string, t: string)
  {
    c in m && t in m[c]
  }

  predicate InSubscribers(m: Subscribers, c: string, t: string)
  {
    t in m && c in m[t]
  }

  /** No empty entry is kept and no vector repeats a client. */
  ghost predicate Tidy(topics: Topics, subs: Subscribers)
  {
    && (forall c | c in topics :: topics[c] != {})
    && (forall t | t in subs :: subs[t] != [] && NoRepeats(subs[t]))
  }

  lemma DroppedPairs(subs: Subscribers, topic: string, c: string)
    requires forall t | t in subs :: subs[t] != [] && NoRepeats(subs[t])
    ensures var r := Dropped(subs, topic, c);
      && (forall t | t in r :: r[t] != [] && NoRepeats(r[t]))
      && (forall d, t :: InSubscribers(r, d, t) <==> InSubscribers(subs, d, t) && !(d == c && t == topic))
  {
    if topic in subs {
      SwapPopRemoves(subs[topic], c);
    }
  }

  class SubscriptionRegistry {
    var clientTopics: Topics
    var topicSubscribers: Subscribers

    /** The set of (client, topic) pairs both maps stand for. */
    ghost function Pairs(): (r: set<(string, string)>)
      reads this
    {
      set c, t | c in clientTopics && t in clientTopics[c] :: (c, t)
    }

    ghost predicate Valid()
      reads this
    {
      && Tidy(clientTopics, topicSubscribers)
      && forall c, t :: InTopics(clientTopics, c, t) <==> InSubscribers(topicSubscribers, c, t)
    }

    constructor ()
      ensures Valid() && Pairs() == {}
    {
      clientTopics, topicSubscribers := map[], map[];
    }

    method Subscribe(c: string, topic: string) returns (created: bool)
      requires Valid()
      modifies this
      ensures Valid()
      ensures Pairs() == old(Pairs()) + {(c, topic)}
      ensures created <==> Pairs() != old(Pairs())
      ensures created <==> (c, topic) !in old(Pairs())
    {
      ghost var before := Pairs();
      assert (c, topic) in before <==> InTopics(clientTopics, c, topic);
      var topics := if c in clientTopics then clientTopics[c] else {};
      if topic in topics {
        return false;
      }
      clientTopics := clientTopics[c := topics + {topic}];
      var subs := if topic in topicSubscribers then topicSubscribers[topic] else [];
      topicSubscribers := topicSubscribers[topic := subs + [c]];
      assert c !in subs;
      assert forall d, t :: InTopics(clientTopics, d, t) <==>
        InTopics(old(clientTopics), d, t) || (d == c && t == topic);
      assert forall d, t :: InSubscribers(topicSubscribers, d, t) <==>
          InSubscribers(old(topicSubscribers), d, t) || (d == c && t == topic);
      assert Pairs() == before + {(c, topic)};
      return true;
    }

    method DropSubscriber(topic: string, c: string)
      requires forall t | t in topicSubscribers :: topicSubscribers[t] != [] && NoRepeats(topicSubscribers[t])
      modifies this`topicSubscribers
      ensures topicSubscribers == Dropped(old(topicSubscribers), topic, c)
    {
      if topic !in topicSubscribers {
        return;
      }
      var subs := topicSubscribers[topic];
      var pos := 0;
      while pos < |subs| && subs[pos] != c
        invariant 0 <= pos <= |subs|
        invariant c !in subs[..pos]
      {
        pos := pos + 1;
      }
      if pos < |subs| {
        assert IndexOf(subs, c) == pos by { FirstIndex(subs, c, pos); }
        subs := subs[pos := subs[|subs| - 1]];
        subs := subs[..|subs| - 1];
      } else {
        assert subs == subs[..pos];
      }
      if subs == [] {
        topicSubscribers := topicSubscribers - {topic};
      } else {
        topicSubscribers := topicSubscribers[topic := subs];
      }
    }

    method Unsubscribe(c: string, topic: string) returns (existed: bool)
      requires Valid()
      modifies this
      ensures Valid()
      ensures Pairs() == old(Pairs()) - {(c, topic)}
      ensures existed <==> Pairs() != old(Pairs())
      ensures existed <==> (c, topic) in old(Pairs())
    {
      ghost var before := Pairs();
      assert (c, topic) in before <==> InTopics(clientTopics, c, topic);
      if c !in clientTopics || topic !in clientTopics[c] {
        return false;
      }
      var left := clientTopics[c] - {topic};
      assert forall t | t in clientTopics[c] && t != topic :: t in left;
      if left == {} {
        clientTopics := clientTopics - {c};
      } else {
        clientTopics := clientTopics[c := left];
      }
      assert forall d, t :: InTopics(clientTopics, d, t) <==>
        InTopics(old(clientTopics), d, t) && !(d == c && t == topic);
      DroppedPairs(topicSubscribers, topic, c);
      DropSubscriber(topic, c);
      assert forall d, t :: (d, t) in Pairs() <==> InTopics(clientTopics, d, t);
      assert Pairs() == before - {(c, topic)};
      return true;
    }

    method RemoveClient(c: string)
      requires Valid()
      modifies this
      ensures Valid()
      ensures Pairs() == set p | p in old(Pairs()) && p.0 != c
    {
      if c in clientTopics {
        var todo := clientTopics[c];
        while todo != {}
          invariant unchanged(`clientTopics) && todo <= clientTopics[c]
          invariant forall t | t in topicSubscribers :: topicSubscribers[t] != [] && NoRepeats(topicSubscribers[t])
          invariant forall d, t :: InSubscribers(topicSubscribers, d, t) <==>
                      if d == c then t in todo else InTopics(clientTopics, d, t)
          decreases todo
        {
          var topic :| topic in todo;
          DroppedPairs(topicSubscribers, topic, c);
          DropSubscriber(topic, c);
          todo := todo - {topic};
        }
        clientTopics := clientTopics - {c};
      }
    }

    /** None when nobody subscribes to the topic. */
    method SubscribersOf(topic: string) returns (r: Option<seq<string>>)
      requires Valid()
      ensures r.None? <==> forall c :: (c, topic) !in Pairs()
      ensures r.Some? ==> NoRepeats(r.value) && forall c :: c in r.value <==> (c, topic) in Pairs()
    {
      assert forall c :: (c, topic) in Pairs() <==> InTopics(clientTopics, c, topic);
      if topic in topicSubscribers {
        r := Some(topicSubscribers[topic]);
        assert InSubscribers(topicSubscribers, r.value[0], topic);
      } else {
        r := None;
      }
    }

    /** None when the client has no subscriptions. */
    method SubscriptionsOf(c: string) returns (r: Option<set<string>>)
      requires Valid()
      ensures r.None? <==> forall t :: (c, t) !in Pairs()
      ensures r.Some? ==> forall t :: t in r.value <==> (c, t) in Pairs()
    {
      assert forall t :: (c, t) in Pairs() <==> InTopics(clientTopics, c, t);
      if c in clientTopics {
        var t :| t in clientTopics[c];
        assert (c, t) in Pairs();
        r := Some(clientTopics[c]);
      } else {
        r := None;
      }
    }
  }

  lemma FirstIndex(s: seq<string>, x: string, i: nat)
    requires i < |s| && s[i] == x && x !in s[..i]
    ensures IndexOf(s, x) == i
  {
  }

  // ---- sequences of operations

  datatype Op = Sub(c: string, t: string) | Unsub(c: string, t: string) | Drop(c: string)

  function Applied(pairs: set<(string, string)>, op: Op): (r: set<(string, string)>)
  {
    match op
    case Sub(c, t) => pairs + {(c, t)}
    case Unsub(c, t) => pairs - {(c, t)}
    case Drop(c) => set p | p in pairs && p.0 != c
  }

  /** A pair is present after a history exactly when some SUBSCRIBE for it has
      no later matching UNSUBSCRIBE or removal of its client. */
  ghost predicate Live(ops: seq<Op>, c: string, t: string)
  {
    exists i :: 0 <= i < |ops| && ops[i] == Sub(c, t) &&
      forall j | i < j < |ops| :: ops[j] != Unsub(c, t) && ops[j] != Drop(c)
  }

  function Folded(ops: seq<Op>): (r: set<(string, string)>)
  {
    if ops == [] then {} else Applied(Folded(ops[..|ops| - 1]), ops[|ops| - 1])
  }

  lemma {:induction false} FoldedIsLive(ops: seq<Op>, c: string, t: string)
    ensures (c, t) in Folded(ops) <==> Live(ops, c, t)
  {
    if ops != [] {
      var init, last := ops[..|ops| - 1], ops[|ops| - 1];
      FoldedIsLive(init, c, t);
      if last == Sub(c, t) {
        assert ops[|ops| - 1] == Sub(c, t);
      } else if Live(init, c, t) && last != Unsub(c, t) && last != Drop(c) {
        var i :| 0 <= i < |init| && init[i] == Sub(c, t) &&
          forall j | i < j < |init| :: init[j] != Unsub(c, t) && init[j] != Drop(c);
        assert ops[i] == Sub(c, t);
        assert forall j | i < j < |init| :: ops[j] == init[j];
      } else if Live(ops, c, t) {
        var i :| 0 <= i < |ops| && ops[i] == Sub(c, t) &&
          forall j | i < j < |ops| :: ops[j] != Unsub(c, t) && ops[j] != Drop(c);
        assert init[i] == Sub(c, t);
        assert forall j | i < j < |init| :: init[j] == ops[j];
      }
    }
  }

  /** Any sequence of operations leaves the registry standing for exactly the live pairs. */
  method Replay(ops: seq<Op>) returns (r: SubscriptionRegistry)
    ensures r.Valid()
    ensures forall c, t :: (c, t) in r.Pairs() <==> Live(ops, c, t)
  {
    r := new SubscriptionRegistry();
    for i := 0 to |ops|
      invariant fresh(r) && r.Valid() && r.Pairs() == Folded(ops[..i])
    {
      assert ops[..i + 1][..i] == ops[..i];
      match ops[i] {
        case Sub(c, t) => var _ := r.Subscribe(c, t);
        case Unsub(c, t) => var _ := r.Unsubscribe(c, t);
        case Drop(c) => r.RemoveClient(c);
      }
    }
    assert ops[..|ops|] == ops;
    forall c, t ensures (c, t) in r.Pairs() <==> Live(ops, c, t) {
      FoldedIsLive(ops, c, t);
    }
  }
}

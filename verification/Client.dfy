/** The client library object: handler table, outgoing queues and reply context,
    updated in place.  Its methods are proved against the handshake machine. */
module Client {
  import opened Messages
  import H = Handshake

  /** The replies a callback makes, in order, before it returns or throws: the callbacks are the
      user's code, and what they throw is caught for each of them separately. */
  type Callback = (int, Bytes) -> seq<Bytes>

  function ReplyTo(env: Envelope, clientId: string, data: Bytes): (r: Envelope)
  {
    var topic := env.header.replyTopic;
    Control(KeyOf(topic), clientId, topic).(payload := data)
  }

  function RepliesTo(env: Envelope, clientId: string, answers: seq<Bytes>): (r: seq<Envelope>)
  {
    if env.header.replyTopic == "" then []
    else seq(|answers|, i requires 0 <= i < |answers| => ReplyTo(env, clientId, answers[i]))
  }

  /** The replies of the first n callbacks to one message, in registration order. */
  function Replies(entries: seq<int>, n: nat, env: Envelope, clientId: string, f: Callback): (r: seq<Envelope>)
    requires n <= |entries|
  {
    if n == 0 then []
    else Replies(entries, n - 1, env, clientId, f) + RepliesTo(env, clientId, f(entries[n - 1], env.payload))
  }

  /** The keys for which the library uses its control queue. */
  predicate IsControl(k: Key)
  {
    !k.Named?
  }

  /** What the broker makes of a list of control messages. */
  function Requests(envs: seq<Envelope>): (r: seq<H.Request>)
  {
    seq(|envs|, i requires 0 <= i < |envs| => H.RequestOf(envs[i]))
  }

  /** SUBSCRIBE for each topic, in order. */
  function Subscribes(clientId: string, order: seq<string>): (r: seq<Envelope>)
  {
    seq(|order|, i requires 0 <= i < |order| => Control(SUBSCRIBE, clientId, order[i]))
  }

  /** The part of some messages with this key that goes to the control queue, and to the data queue. */
  function ForControl(key: Key, envs: seq<Envelope>): (r: seq<Envelope>)
  {
    if IsControl(key) then envs else []
  }

  function ForData(key: Key, envs: seq<Envelope>): (r: seq<Envelope>)
  {
    if IsControl(key) then [] else envs
  }

  lemma Extended(queue: seq<Envelope>, key: Key, envs: seq<Envelope>, more: seq<Envelope>)
    ensures queue + ForControl(key, envs) + ForControl(key, more) == queue + ForControl(key, envs + more)
    ensures queue + ForData(key, envs) + ForData(key, more) == queue + ForData(key, envs + more)
  {
  }

  lemma RequestsAppend(envs: seq<Envelope>, more: seq<Envelope>)
    ensures Requests(envs + more) == Requests(envs) + Requests(more)
  {
  }

  lemma RequestsOne(env: Envelope)
    ensures Requests([env]) == [H.RequestOf(env)]
  {
  }

  lemma RequestsSubscribes(clientId: string, order: seq<string>)
    ensures Requests(Subscribes(clientId, order)) == H.Subs(order)
  {
  }

  class ConnectionManager {
    const clientId: string
    var handlers: map<string, seq<int>>
    var connected: bool
    var control: seq<Envelope>
    var outbound: seq<Envelope>
    var currentReplyTopic: string

    /** This object is the client side of the protocol state s. */
    ghost predicate Stands(s: H.Sys)
      reads this
    {
      s.handlers == handlers && s.connected == connected && s.control == Requests(control)
    }

    constructor (id: string)
      ensures Stands(H.INITIAL) && clientId == id && currentReplyTopic == ""
      ensures control == [] && outbound == []
    {
      clientId := id;
      handlers, connected, control, outbound, currentReplyTopic := map[], false, [], [], "";
    }

    /** Control messages and data have a queue each. */
    method SendRaw(env: Envelope)
      modifies this`control, this`outbound
      ensures control == if IsControl(env.header.key) then old(control) + [env] else old(control)
      ensures outbound == if IsControl(env.header.key) then old(outbound) else old(outbound) + [env]
    {
      if IsControl(env.header.key) {
        control := control + [env];
      } else {
        outbound := outbound + [env];
      }
    }

    method PerformRegistration(key: string, instance: int, ghost s: H.Sys)
      requires Stands(s)
      modifies this`handlers, this`control, this`outbound
      ensures Stands(H.Next(s, H.Register(key, instance)))
      ensures handlers == H.Registered(old(handlers), key, instance) && outbound == old(outbound)
      ensures control == old(control) + if connected then [Control(SUBSCRIBE, clientId, key)] else []
    {
      var entries := if key in handlers then handlers[key] else [];
      handlers := handlers[key := entries + [instance]];
      if connected {
        var subscribe := Control(SUBSCRIBE, clientId, key);
        RequestsAppend(control, [subscribe]);
        RequestsOne(subscribe);
        SendRaw(subscribe);
      }
    }

    /** The entries of other instances, in order. */
    method OtherEntries(entries: seq<int>, instance: int) returns (left: seq<int>)
      ensures left == H.Without(entries, instance)
    {
      left := [];
      for i := 0 to |entries|
        invariant left == H.Without(entries[..i], instance)
      {
        H.WithoutConcat(entries[..i], [entries[i]], instance);
        assert entries[..i + 1] == entries[..i] + [entries[i]];
        if entries[i] != instance {
          left := left + [entries[i]];
        }
      }
      assert entries[..|entries|] == entries;
    }

    method PerformUnregistration(key: string, instance: int, ghost s: H.Sys)
      requires Stands(s)
      modifies this`handlers, this`control, this`outbound
      ensures Stands(H.Next(s, H.Unregister(key, instance)))
      ensures handlers == H.Unregistered(old(handlers), key, instance) && outbound == old(outbound)
      ensures var last := key in old(handlers) && key !in handlers;
        control == old(control) + if connected && last then [Control(UNSUBSCRIBE, clientId, key)] else []
    {
      if key !in handlers {
        return;
      }
      var left := OtherEntries(handlers[key], instance);
      if left == [] {
        handlers := handlers - {key};
        if connected {
          var unsubscribe := Control(UNSUBSCRIBE, clientId, key);
          RequestsAppend(control, [unsubscribe]);
          RequestsOne(unsubscribe);
          SendRaw(unsubscribe);
        }
      } else {
        handlers := handlers[key := left];
      }
    }

    /** SUBSCRIBE for every handler key; the returned order is the one used. */
    method SubscribeAll() returns (order: seq<string>)
      modifies this`control, this`outbound
      ensures H.Enumerates(order, handlers.Keys)
      ensures control == old(control) + Subscribes(clientId, order) && outbound == old(outbound)
    {
      order := [];
      var todo := handlers.Keys;
      while todo != {}
        invariant todo <= handlers.Keys && outbound == old(outbound)
        invariant forall t | t in order :: t in handlers.Keys
        invariant forall t | t in handlers.Keys :: t in order || t in todo
        invariant |order| + |todo| == |handlers.Keys|
        invariant control == old(control) + Subscribes(clientId, order)
        decreases todo
      {
        var topic :| topic in todo;
        assert Subscribes(clientId, order + [topic]) ==
          Subscribes(clientId, order) + [Control(SUBSCRIBE, clientId, topic)];
        SendRaw(Control(SUBSCRIBE, clientId, topic));
        order := order + [topic];
        todo := todo - {topic};
      }
    }

    /** The worker's status callback. */
    method OnStatus(online: bool, ghost s: H.Sys) returns (order: seq<string>)
      requires Stands(s)
      modifies this`connected, this`control, this`outbound
      ensures connected == online && outbound == old(outbound)
      ensures !online ==> control == old(control)
      ensures online ==> H.Enumerates(order, handlers.Keys)
      ensures online ==> control == old(control) + [Control(CONNECT, clientId, "")] + Subscribes(clientId, order)
      ensures online && H.Enabled(s, H.Online(order)) ==> Stands(H.Next(s, H.Online(order)))
    {
      connected := online;
      order := [];
      if online {
        var connect := Control(CONNECT, clientId, "");
        SendRaw(connect);
        order := SubscribeAll();
        RequestsAppend(old(control), [connect]);
        RequestsOne(connect);
        RequestsAppend(old(control) + [connect], Subscribes(clientId, order));
        RequestsSubscribes(clientId, order);
      }
    }

    /** RESET from the broker. */
    method ResubscribeAll(ghost s: H.Sys) returns (order: seq<string>)
      requires Stands(s) && s.inbox != [] && s.inbox[0] == H.Reset
      modifies this`control, this`outbound
      ensures H.Enumerates(order, handlers.Keys)
      ensures control == old(control) + Subscribes(clientId, order) && outbound == old(outbound)
      ensures Stands(H.Next(s, H.ProcessInbox(order)))
    {
      order := SubscribeAll();
      RequestsAppend(old(control), Subscribes(clientId, order));
      RequestsSubscribes(clientId, order);
    }

    /** Run the callbacks registered for the message's topic.  A reply made by one of
        them is addressed to the reply topic of this very message; without one, and
        after the call, there is nothing to reply to. */
    method HandleMessage(env: Envelope, f: Callback) returns (replies: seq<Envelope>)
      modifies this`currentReplyTopic, this`control, this`outbound
      ensures var topic := env.header.topic;
        replies == if topic in handlers then Replies(handlers[topic], |handlers[topic]|, env, clientId, f) else []
      ensures Queued(KeyOf(env.header.replyTopic), old(control), old(outbound), replies)
      ensures currentReplyTopic == ""
    {
      var topic := env.header.topic;
      var entries := if topic in handlers then handlers[topic] else [];
      currentReplyTopic := env.header.replyTopic;
      replies := [];
      for i := 0 to |entries|
        invariant currentReplyTopic == env.header.replyTopic
        invariant replies == Replies(entries, i, env, clientId, f)
        invariant Queued(KeyOf(env.header.replyTopic), old(control), old(outbound), replies)
      {
        var more := RunCallback(env, f(entries[i], env.payload));
        Extended(old(control), KeyOf(env.header.replyTopic), replies, more);
        Extended(old(outbound), KeyOf(env.header.replyTopic), replies, more);
        replies := replies + more;
      }
      currentReplyTopic := "";
    }

    /** The messages, all with this key, have gone to the queue for it, in order. */
    ghost predicate Queued(key: Key, control0: seq<Envelope>, outbound0: seq<Envelope>, envs: seq<Envelope>)
      reads this
    {
      control == control0 + ForControl(key, envs) && outbound == outbound0 + ForData(key, envs)
    }

    /** One callback and its replies. */
    method RunCallback(env: Envelope, answers: seq<Bytes>) returns (replies: seq<Envelope>)
      requires currentReplyTopic == env.header.replyTopic
      modifies this`control, this`outbound
      ensures replies == RepliesTo(env, clientId, answers)
      ensures Queued(KeyOf(env.header.replyTopic), old(control), old(outbound), replies)
    {
      replies := [];
      for i := 0 to |answers|
        invariant replies == RepliesTo(env, clientId, answers[..i])
        invariant Queued(KeyOf(env.header.replyTopic), old(control), old(outbound), replies)
      {
        var sent, reply := ReplyToSender(answers[i]);
        if sent {
          Extended(old(control), KeyOf(env.header.replyTopic), replies, [reply]);
          Extended(old(outbound), KeyOf(env.header.replyTopic), replies, [reply]);
          replies := replies + [reply];
        }
      }
      assert answers[..|answers|] == answers;
    }

    method ReplyToSender(data: Bytes) returns (sent: bool, reply: Envelope)
      modifies this`control, this`outbound
      ensures sent <==> currentReplyTopic != ""
      ensures reply == Control(KeyOf(currentReplyTopic), clientId, currentReplyTopic).(payload := data)
      ensures Queued(KeyOf(currentReplyTopic), old(control), old(outbound), if sent then [reply] else [])
    {
      reply := Control(KeyOf(currentReplyTopic), clientId, currentReplyTopic).(payload := data);
      sent := currentReplyTopic != "";
      if sent {
        SendRaw(reply);
      }
    }

    method MakeRequest(topic: string, replyTopic: string, payload: Bytes) returns (request: Envelope)
      ensures request.header.key == KeyOf(topic) && request.header.senderId == clientId
      ensures request.header.topic == topic && request.header.replyTopic == replyTopic && request.payload == payload
    {
      var bare := Control(KeyOf(topic), clientId, topic);
      request := bare.(header := bare.header.(replyTopic := replyTopic), payload := payload);
    }

    /** A request: register the private reply handler, send, wait, take the handler back.
        Whatever the answer, the handler table is as before. */
    method SendRequest(topic: string, payload: Bytes, draw: string, promise: int, answer: Option<Bytes>, ghost s: H.Sys)
        returns (request: Envelope, success: bool, response: Bytes)
      requires Stands(s)
      requires forall k | k in handlers :: handlers[k] != []
      requires topic + draw in handlers ==> promise !in handlers[topic + draw]
      modifies this`handlers, this`control, this`outbound
      ensures handlers == old(handlers)
      ensures request.header.key == KeyOf(topic) && request.header.senderId == clientId
      ensures request.header.topic == topic && request.header.replyTopic == topic + draw && request.payload == payload
      ensures success <==> answer.Some?
      ensures success ==> response == answer.value
      ensures outbound == old(outbound) + ForData(KeyOf(topic), [request])
      ensures var reply := topic + draw;
        control == old(control) + (if connected then [Control(SUBSCRIBE, clientId, reply)] else []) +
                   ForControl(KeyOf(topic), [request]) +
                   (if connected && reply !in handlers then [Control(UNSUBSCRIBE, clientId, reply)] else [])
    {
      var replyTopic := topic + draw;
      PerformRegistration(replyTopic, promise, s);
      request := MakeRequest(topic, replyTopic, payload);
      ghost var registered := H.Next(s, H.Register(replyTopic, promise));
      SendRaw(request);
      success := answer.Some?;
      response := if success then answer.value else [];
      H.RegisterUndone(old(handlers), replyTopic, promise);
      PerformUnregistration(replyTopic, promise, registered.(control := Requests(control)));
    }
  }

  /** Every reply to a message is addressed to that message's reply topic. */
  lemma {:induction false} RepliesAddressed(entries: seq<int>, n: nat, env: Envelope, clientId: string, f: Callback,
                                            r: Envelope)
    requires n <= |entries| && r in Replies(entries, n, env, clientId, f)
    ensures env.header.replyTopic != "" && r.header.topic == env.header.replyTopic
    ensures r.header.key == KeyOf(env.header.replyTopic) && r.header.senderId == clientId
    ensures exists i :: 0 <= i < n && r.payload in f(entries[i], env.payload)
  {
    if r in Replies(entries, n - 1, env, clientId, f) {
      RepliesAddressed(entries, n - 1, env, clientId, f, r);
    }
  }

  /** How many answers the first n callbacks make. */
  function AnswerCount(entries: seq<int>, n: nat, payload: Bytes, f: Callback): (r: nat)
    requires n <= |entries|
  {
    if n == 0 then 0 else AnswerCount(entries, n - 1, payload, f) + |f(entries[n - 1], payload)|
  }

  /** With a reply topic there are exactly as many replies as answers, and without one there is none. */
  lemma {:induction false} RepliesCounted(entries: seq<int>, n: nat, env: Envelope, clientId: string, f: Callback)
    requires n <= |entries|
    ensures |Replies(entries, n, env, clientId, f)|
            == if env.header.replyTopic == "" then 0 else AnswerCount(entries, n, env.payload, f)
  {
    if n > 0 {
      RepliesCounted(entries, n - 1, env, clientId, f);
    }
  }

  lemma {:induction false} RepliesGrow(entries: seq<int>, k: nat, n: nat, env: Envelope, clientId: string, f: Callback)
    requires k <= n <= |entries|
    ensures Replies(entries, k, env, clientId, f) <= Replies(entries, n, env, clientId, f)
  {
    if k < n {
      RepliesGrow(entries, k, n - 1, env, clientId, f);
    }
  }

  lemma LastReplies(entries: seq<int>, i: nat, env: Envelope, clientId: string, f: Callback, j: nat)
    requires i < |entries| && j < |f(entries[i], env.payload)| && env.header.replyTopic != ""
    ensures var at, replies := AnswerCount(entries, i, env.payload, f) + j, Replies(entries, i + 1, env, clientId, f);
      at < |replies| && replies[at].payload == f(entries[i], env.payload)[j]
  {
    var before, last := Replies(entries, i, env, clientId, f), RepliesTo(env, clientId, f(entries[i], env.payload));
    RepliesCounted(entries, i, env, clientId, f);
    assert Replies(entries, i + 1, env, clientId, f) == before + last && (before + last)[|before| + j] == last[j];
  }

  /** Every answer of every callback is sent, in the order of the callbacks and of their answers:
      answer j of callback i is the payload of the reply behind all earlier answers. */
  lemma RepliesComplete(entries: seq<int>, n: nat, env: Envelope, clientId: string, f: Callback, i: nat, j: nat)
    requires i < n <= |entries| && j < |f(entries[i], env.payload)| && env.header.replyTopic != ""
    ensures var at, replies := AnswerCount(entries, i, env.payload, f) + j, Replies(entries, n, env, clientId, f);
      at < |replies| && replies[at].payload == f(entries[i], env.payload)[j]
  {
    LastReplies(entries, i, env, clientId, f, j);
    RepliesGrow(entries, i + 1, n, env, clientId, f);
  }
}

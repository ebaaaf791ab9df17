/** Header and payload framing over a socket of multi-frame groups. */
module WireFrame {
  import opened Messages

  /** A frame and whether more frames of its group follow. */
  datatype Frame = Frame(data: Bytes, more: bool)

  /** The header codec seam: decoding an encoded header gives it back, nothing else is assumed. */
  datatype HeaderCodec = HeaderCodec(encode: Header -> Bytes, decode: Bytes -> Option<Header>)

  ghost predicate Lawful(c: HeaderCodec)
  {
    forall h :: c.decode(c.encode(h)) == Some(h)
  }

  const PROTOBUF: byte := 1

  function CodecFor(c: HeaderCodec, format: byte): (r: Option<HeaderCodec>)
  {
    if format == PROTOBUF then Some(c) else None
  }

  function EncodeHeader(c: HeaderCodec, h: Header): (r: Bytes)
  {
    [PROTOBUF] + c.encode(h)
  }

  function DecodeHeader(c: HeaderCodec, frame: Bytes): (r: Option<Header>)
  {
    var codec := if |frame| >= 1 then CodecFor(c, frame[0]) else None;
    if codec.Some? then codec.value.decode(frame[1..]) else None
  }

  /** A group is the list of its frames' data; on the socket every frame but the last is marked `more`. */
  function Frames(group: seq<Bytes>): (r: seq<Frame>)
  {
    seq(|group|, i requires 0 <= i < |group| => Frame(group[i], i + 1 < |group|))
  }

  function Stream(groups: seq<seq<Bytes>>): (r: seq<Frame>)
  {
    if groups == [] then [] else Frames(groups[0]) + Stream(groups[1..])
  }

  predicate WellFormed(groups: seq<seq<Bytes>>)
  {
    forall i | 0 <= i < |groups| :: groups[i] != []
  }

  /** What one group means: the header of its first frame and the data of its second, if any. */
  function ReadGroup(c: HeaderCodec, group: seq<Bytes>): (r: Option<Envelope>)
    requires group != []
  {
    var h := DecodeHeader(c, group[0]);
    if h.Some? then Some(Envelope(h.value, if |group| > 1 then group[1] else [])) else None
  }

  /** The group an envelope is sent as; the payload frame is left out when empty. */
  function GroupOf(c: HeaderCodec, env: Envelope): (r: seq<Bytes>)
    ensures r != []
  {
    [EncodeHeader(c, env.header)] + if env.payload == [] then [] else [env.payload]
  }

  lemma FramesTail(group: seq<Bytes>)
    requires group != []
    ensures Frames(group) == [Frame(group[0], |group| > 1)] + Frames(group[1..])
  {
  }

  lemma {:induction false} StreamConcat(a: seq<seq<Bytes>>, b: seq<seq<Bytes>>)
    ensures Stream(a + b) == Stream(a) + Stream(b)
  {
    if a == [] {
      assert a + b == b;
    } else {
      assert (a + b)[1..] == a[1..] + b;
      StreamConcat(a[1..], b);
    }
  }

  class Socket {
    var inbox: seq<Frame>
    var outbox: seq<Frame>
    var rcvmore: bool

    constructor (inbox: seq<Frame>)
      ensures this.inbox == inbox && outbox == []
    {
      this.inbox, outbox, rcvmore := inbox, [], false;
    }

    /** What is left of the current group, then whole groups. */
    ghost predicate Holds(group: seq<Bytes>, groups: seq<seq<Bytes>>)
      reads this
    {
      WellFormed(groups) && inbox == Frames(group) + Stream(groups)
    }

    method RecvFrame(ghost group: seq<Bytes>, ghost groups: seq<seq<Bytes>>) returns (data: Bytes)
      requires Holds(group, groups) && group != []
      modifies this`inbox, this`rcvmore
      ensures data == group[0]
      ensures Holds(group[1..], groups) && rcvmore == (|group| > 1)
    {
      FramesTail(group);
      var f := inbox[0];
      data, rcvmore := f.data, f.more;
      inbox := inbox[1..];
    }

    /** Discard what is left of the current group. */
    method DrainMultipart(ghost group: seq<Bytes>, ghost groups: seq<seq<Bytes>>)
      requires Holds(group, groups) && rcvmore == (group != [])
      modifies this`inbox, this`rcvmore
      ensures inbox == Stream(groups)
    {
      ghost var left := group;
      while rcvmore
        invariant Holds(left, groups) && rcvmore == (left != [])
        decreases |left|
      {
        var _ := RecvFrame(left, groups);
        left := left[1..];
      }
    }

    /** Receive one message whose routing frame, if any, is already consumed.  Exactly the current
        group leaves the socket, whatever is in it. */
    method Recv(c: HeaderCodec, ghost group: seq<Bytes>, ghost groups: seq<seq<Bytes>>) returns (r: Option<Envelope>)
      requires Holds(group, groups) && (group == [] ==> groups == [])
      modifies this`inbox, this`rcvmore
      ensures inbox == Stream(groups)
      ensures r == if group == [] then None else ReadGroup(c, group)
    {
      if inbox == [] {
        return None;
      }
      var headerFrame := RecvFrame(group, groups);
      var header := DecodeHeader(c, headerFrame);
      if header.None? {
        DrainMultipart(group[1..], groups);
        return None;
      }
      var payload := [];
      if rcvmore {
        payload := RecvFrame(group[1..], groups);
        DrainMultipart(group[2..], groups);
      }
      r := Some(Envelope(header.value, payload));
    }

    /** The broker's receive: the routing frame names the sender; a group of that frame alone is dropped. */
    method RouterRecv(c: HeaderCodec, ghost group: seq<Bytes>, ghost groups: seq<seq<Bytes>>)
        returns (r: Option<(Bytes, Envelope)>)
      requires Holds(group, groups) && group != []
      modifies this`inbox, this`rcvmore
      ensures inbox == Stream(groups)
      ensures r == RouterRead(c, group)
    {
      var identity := RecvFrame(group, groups);
      if !rcvmore {
        return None;
      }
      var env := Recv(c, group[1..], groups);
      r := if env.Some? then Some((identity, env.value)) else None;
    }

    /** Send a header frame and, if not empty, a payload frame; a full pipe refuses both. */
    method SendFrames(headerFrame: Bytes, payload: Bytes, accepted: bool) returns (sent: bool)
      modifies this`outbox
      ensures sent == accepted
      ensures outbox == old(outbox) +
        if accepted then Frames([headerFrame] + if payload == [] then [] else [payload]) else []
    {
      if !accepted {
        return false;
      }
      if payload == [] {
        outbox := outbox + [Frame(headerFrame, false)];
      } else {
        outbox := outbox + [Frame(headerFrame, true)];
        outbox := outbox + [Frame(payload, false)];
      }
      return true;
    }
  }

  function RouterRead(c: HeaderCodec, group: seq<Bytes>): (r: Option<(Bytes, Envelope)>)
    requires group != []
  {
    if |group| == 1 then None
    else
      var env := ReadGroup(c, group[1..]);
      if env.Some? then Some((group[0], env.value)) else None
  }

  /** Frame alignment: over any stream of groups, malformed ones included, the k-th receive
      yields what the k-th group means on its own. */
  method ReceiveAll(c: HeaderCodec, groups: seq<seq<Bytes>>) returns (results: seq<Option<Envelope>>)
    requires WellFormed(groups)
    ensures |results| == |groups|
    ensures forall k | 0 <= k < |groups| :: results[k] == ReadGroup(c, groups[k])
  {
    var socket := new Socket(Stream(groups));
    results := [];
    for k := 0 to |groups|
      invariant |results| == k && socket.inbox == Stream(groups[k..])
      invariant forall j | 0 <= j < k :: results[j] == ReadGroup(c, groups[j])
    {
      assert groups[k..][1..] == groups[k + 1..];
      var r := socket.Recv(c, groups[k], groups[k + 1..]);
      results := results + [r];
    }
  }

  lemma GroupRoundTrip(c: HeaderCodec, env: Envelope)
    requires Lawful(c)
    ensures ReadGroup(c, GroupOf(c, env)) == Some(env)
    ensures forall id: Bytes :: RouterRead(c, [id] + GroupOf(c, env)) == Some((id, env))
  {
    var frame := EncodeHeader(c, env.header);
    assert frame[1..] == c.encode(env.header);
    assert c.decode(c.encode(env.header)) == Some(env.header);
    forall id: Bytes ensures RouterRead(c, [id] + GroupOf(c, env)) == Some((id, env)) {
      assert ([id] + GroupOf(c, env))[1..] == GroupOf(c, env);
    }
  }

  /** A header frame starts with format byte 1, and a frame that does not is no header. */
  lemma HeaderFormat(c: HeaderCodec, h: Header, frame: Bytes)
    ensures forall payload: Bytes :: GroupOf(c, Envelope(h, payload))[0] == [1] + c.encode(h)
    ensures frame == [] || frame[0] != 1 ==> DecodeHeader(c, frame).None?
  {
  }

  /** Frames behind the payload are not part of the message. */
  lemma ExtraFramesIgnored(c: HeaderCodec, env: Envelope, extra: seq<Bytes>)
    requires Lawful(c) && env.payload != []
    ensures ReadGroup(c, GroupOf(c, env) + extra) == Some(env)
  {
    GroupRoundTrip(c, env);
    assert (GroupOf(c, env) + extra)[0] == GroupOf(c, env)[0] && (GroupOf(c, env) + extra)[1] == env.payload;
  }

  function Groups(c: HeaderCodec, envs: seq<Envelope>): (r: seq<seq<Bytes>>)
    ensures |r| == |envs| && WellFormed(r)
  {
    seq(|envs|, i requires 0 <= i < |envs| => GroupOf(c, envs[i]))
  }

  /** Send every envelope on a socket that accepts them all. */
  method SendAll(c: HeaderCodec, envs: seq<Envelope>) returns (socket: Socket)
    ensures fresh(socket) && socket.outbox == Stream(Groups(c, envs))
  {
    socket := new Socket([]);
    for k := 0 to |envs|
      invariant fresh(socket) && socket.outbox == Stream(Groups(c, envs[..k]))
    {
      var _ := socket.SendFrames(EncodeHeader(c, envs[k].header), envs[k].payload, true);
      var group := GroupOf(c, envs[k]);
      assert Groups(c, envs[..k + 1]) == Groups(c, envs[..k]) + [group];
      StreamConcat(Groups(c, envs[..k]), [group]);
      assert Stream([group]) == Frames(group) + Stream([]);
    }
    assert envs[..|envs|] == envs;
  }

  /** Sending any list of envelopes and receiving it gives the same list, empty payloads included. */
  method Relay(c: HeaderCodec, envs: seq<Envelope>) returns (received: seq<Envelope>)
    requires Lawful(c)
    ensures received == envs
  {
    var sender := SendAll(c, envs);
    var receiver := new Socket(sender.outbox);
    ghost var groups := Groups(c, envs);
    received := [];
    for k := 0 to |envs|
      invariant receiver.inbox == Stream(groups[k..])
      invariant received == envs[..k]
    {
      assert groups[k..][1..] == groups[k + 1..];
      GroupRoundTrip(c, envs[k]);
      var r := receiver.Recv(c, groups[k], groups[k + 1..]);
      received := received + [r.value];
    }
  }
}

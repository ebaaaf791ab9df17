/** Between the worker's two queues there is no order: exactly when a data message
    queued after a control message reaches the wire before it. */
module Overtaking {
  import opened Messages
  import opened Worker

  type Wire = seq<(Lane, Envelope)>

  /** Entry i of the wire is message number k of its queue. */
  predicate At(wire: Wire, i: nat, lane: Lane, k: nat)
  {
    i < |wire| && wire[i].0 == lane && |Sent(wire[..i], lane)| == k
  }

  /** Data message number m is on the wire, and control message number k is not ahead of it. */
  ghost predicate Overtakes(wire: Wire, m: nat, k: nat)
  {
    exists i: nat :: At(wire, i, DataLane, m) && |Sent(wire[..i], ControlLane)| <= k
  }

  predicate NoDrain(events: seq<Event>, lane: Lane)
  {
    Drain(lane) !in events
  }

  function FirstDrain(events: seq<Event>): (r: Option<Lane>)
  {
    if events == [] then None
    else if events[0].Drain? then Some(events[0].lane)
    else FirstDrain(events[1..])
  }

  lemma {:induction false} SentPrefix(wire: Wire, i: nat, j: nat, lane: Lane)
    requires i <= j <= |wire|
    ensures |Sent(wire[..i], lane)| <= |Sent(wire[..j], lane)|
    ensures i < j && wire[i].0 == lane ==> |Sent(wire[..i], lane)| < |Sent(wire[..j], lane)|
    decreases j
  {
    if i < j {
      assert wire[..j][..j - 1] == wire[..j - 1];
      SentPrefix(wire, i, j - 1, lane);
    }
  }

  lemma AtMeansSent(wire: Wire, i: nat, lane: Lane, k: nat)
    requires At(wire, i, lane, k)
    ensures k < |Sent(wire, lane)|
  {
    SentPrefix(wire, i, |wire|, lane);
    assert wire[..|wire|] == wire;
  }

  lemma NotSentYet(wire: Wire, m: nat, k: nat)
    requires |Sent(wire, DataLane)| <= m
    ensures !Overtakes(wire, m, k)
  {
    forall i: nat ensures !At(wire, i, DataLane, m) {
      if At(wire, i, DataLane, m) {
        AtMeansSent(wire, i, DataLane, m);
      }
    }
  }

  lemma {:induction false} WireGrows(l: Lanes, events: seq<Event>)
    ensures l.wire <= After(l, events).wire
    decreases |events|
  {
    if events != [] {
      WireGrows(Next(l, events[0]), events[1..]);
    }
  }

  /** Once data message m is on the wire, what went before it is settled. */
  lemma Settled(wire: Wire, longer: Wire, i: nat, m: nat, k: nat)
    requires wire <= longer && At(wire, i, DataLane, m)
    ensures Overtakes(longer, m, k) <==> |Sent(wire[..i], ControlLane)| <= k
  {
    assert longer[..i] == wire[..i];
    assert At(longer, i, DataLane, m);
    forall j: nat | At(longer, j, DataLane, m) ensures j == i {
      SentPrefix(longer, if i < j then i else j, if i < j then j else i, DataLane);
    }
  }

  /** Control message k is still queued, or already sent, and data message m still queued. */
  predicate Pending(l: Lanes, m: nat, k: nat)
  {
    |Sent(l.wire, DataLane)| <= m < |Taken(l, DataLane)| && k < |Taken(l, ControlLane)|
  }

  lemma DataDrained(l: Lanes, events: seq<Event>, m: nat, k: nat)
    requires Pending(l, m, k)
    ensures Overtakes(After(Next(l, Drain(DataLane)), events).wire, m, k) <==> |Sent(l.wire, ControlLane)| <= k
  {
    var next := Next(l, Drain(DataLane));
    var d := m - |Sent(l.wire, DataLane)|;
    var i := |l.wire| + d;
    assert next.wire[..i] == l.wire + Tagged(DataLane, l.outbound[..d]);
    SentTagged(l.wire, DataLane, l.outbound[..d], DataLane);
    SentTagged(l.wire, DataLane, l.outbound[..d], ControlLane);
    assert At(next.wire, i, DataLane, m);
    WireGrows(next, events);
    Settled(next.wire, After(next, events).wire, i, m, k);
  }

  lemma {:induction false} OvertakesFrom(l: Lanes, events: seq<Event>, m: nat, k: nat)
    requires Pending(l, m, k)
    ensures Overtakes(After(l, events).wire, m, k) <==>
            |Sent(l.wire, ControlLane)| <= k && FirstDrain(events) == Some(DataLane)
    decreases |events|
  {
    if events == [] {
      NotSentYet(l.wire, m, k);
    } else {
      var e, rest := events[0], events[1..];
      if e == Drain(DataLane) {
        DataDrained(l, rest, m, k);
      } else {
        NextTaken(l, e, ControlLane);
        NextTaken(l, e, DataLane);
        if e == Drain(ControlLane) {
          SentTagged(l.wire, ControlLane, l.control, ControlLane);
          SentTagged(l.wire, ControlLane, l.control, DataLane);
        }
        OvertakesFrom(Next(l, e), rest, m, k);
      }
    }
  }

  /** A control message leaves its queue with the next control drain. */
  lemma {:induction false} ControlLeaves(l: Lanes, events: seq<Event>, k: nat)
    requires |Sent(l.wire, ControlLane)| <= k < |Taken(l, ControlLane)|
    ensures |Sent(After(l, events).wire, ControlLane)| <= k <==> NoDrain(events, ControlLane)
    decreases |events|
  {
    if events != [] {
      var e, rest := events[0], events[1..];
      assert events == [e] + rest;
      NextTaken(l, e, ControlLane);
      if e.Drain? {
        SentTagged(l.wire, e.lane, Waiting(l, e.lane), ControlLane);
      }
      if e == Drain(ControlLane) {
        var next := Next(l, e);
        WireGrows(next, rest);
        var end := After(next, rest).wire;
        SentPrefix(end, |next.wire|, |end|, ControlLane);
        assert end[..|next.wire|] == next.wire && end[..|end|] == end;
      } else {
        ControlLeaves(Next(l, e), rest, k);
      }
    }
  }

  lemma {:induction false} AfterConcat(l: Lanes, a: seq<Event>, b: seq<Event>)
    ensures After(l, a + b) == After(After(l, a), b)
    decreases |a|
  {
    if a == [] {
      assert a + b == b;
    } else {
      assert (a + b)[0] == a[0] && (a + b)[1..] == a[1..] + b;
      AfterConcat(Next(l, a[0]), a[1..], b);
    }
  }

  /** A run in which `sub` is queued for control and, later, `request` for data. */
  function Story(before: seq<Event>, sub: Envelope, mid: seq<Event>, request: Envelope, after: seq<Event>)
    : (r: seq<Event>)
  {
    (before + [Push(ControlLane, sub)]) + (mid + [Push(DataLane, request)]) + after
  }

  /** In a run, how many data messages were queued before the request. */
  function Place(before: seq<Event>, mid: seq<Event>): (r: nat)
  {
    |Pushed(before, DataLane)| + |Pushed(mid, DataLane)|
  }

  lemma {:induction false} PushedConcat(a: seq<Event>, b: seq<Event>, lane: Lane)
    ensures Pushed(a + b, lane) == Pushed(a, lane) + Pushed(b, lane)
  {
    if a == [] {
      assert a + b == b;
    } else {
      assert (a + b)[0] == a[0] && (a + b)[1..] == a[1..] + b;
      PushedConcat(a[1..], b, lane);
    }
  }

  lemma PushedFive(a: seq<Event>, b: seq<Event>, c: seq<Event>, d: seq<Event>, e: seq<Event>, lane: Lane)
    ensures Pushed((a + b) + (c + d) + e, lane)
            == (Pushed(a, lane) + Pushed(b, lane)) + (Pushed(c, lane) + Pushed(d, lane)) + Pushed(e, lane)
  {
    PushedConcat((a + b) + (c + d), e, lane);
    PushedConcat(a + b, c + d, lane);
    PushedConcat(a, b, lane);
    PushedConcat(c, d, lane);
  }

  lemma PushedOne(on: Lane, env: Envelope, lane: Lane)
    ensures Pushed([Push(on, env)], lane) == if on == lane then [env] else []
  {
  }

  /** The two messages are number k of the control queue and number m of the data queue. */
  lemma StoryPlaces(before: seq<Event>, sub: Envelope, mid: seq<Event>, request: Envelope, after: seq<Event>)
    ensures var events := Story(before, sub, mid, request, after);
      var k, m := |Pushed(before, ControlLane)|, Place(before, mid);
      && k < |Pushed(events, ControlLane)| && Pushed(events, ControlLane)[k] == sub
      && m < |Pushed(events, DataLane)| && Pushed(events, DataLane)[m] == request
  {
    var s, r := [Push(ControlLane, sub)], [Push(DataLane, request)];
    PushedFive(before, s, mid, r, after, ControlLane);
    PushedFive(before, s, mid, r, after, DataLane);
    PushedOne(ControlLane, sub, ControlLane);
    PushedOne(ControlLane, sub, DataLane);
    PushedOne(DataLane, request, DataLane);
  }

  lemma AfterStory(before: seq<Event>, sub: Envelope, mid: seq<Event>, request: Envelope, after: seq<Event>)
    ensures var l := Next(After(EMPTY, before), Push(ControlLane, sub));
      After(EMPTY, Story(before, sub, mid, request, after))
      == After(Next(After(l, mid), Push(DataLane, request)), after)
  {
    var s, r := [Push(ControlLane, sub)], [Push(DataLane, request)];
    AfterConcat(EMPTY, (before + s) + (mid + r), after);
    AfterConcat(EMPTY, before + s, mid + r);
    AfterConcat(EMPTY, before, s);
    AfterOne(After(EMPTY, before), Push(ControlLane, sub));
    var l := Next(After(EMPTY, before), Push(ControlLane, sub));
    AfterConcat(l, mid, r);
    AfterOne(After(l, mid), Push(DataLane, request));
  }

  lemma AfterOne(l: Lanes, e: Event)
    ensures After(l, [e]) == Next(l, e)
  {
    assert [e][1..] == [];
  }

  /** For every run: the request goes out before the control message queued ahead of it if and
      only if no control drain comes between the two pushes and the first drain after them is
      the data drain. */
  lemma OvertakesIff(before: seq<Event>, sub: Envelope, mid: seq<Event>, request: Envelope, after: seq<Event>)
    ensures Overtakes(After(EMPTY, Story(before, sub, mid, request, after)).wire,
                      Place(before, mid), |Pushed(before, ControlLane)|)
            <==> NoDrain(mid, ControlLane) && FirstDrain(after) == Some(DataLane)
  {
    var m, k := Place(before, mid), |Pushed(before, ControlLane)|;
    var l1 := After(EMPTY, before);
    LanesFrom(EMPTY, before, ControlLane);
    LanesFrom(EMPTY, before, DataLane);
    var l2 := Next(l1, Push(ControlLane, sub));
    var l3 := After(l2, mid);
    LanesFrom(l2, mid, ControlLane);
    LanesFrom(l2, mid, DataLane);
    ControlLeaves(l2, mid, k);
    var l4 := Next(l3, Push(DataLane, request));
    OvertakesFrom(l4, after, m, k);
    AfterStory(before, sub, mid, request, after);
  }

  // ---- the worker's own loop: a control drain, a data drain, a control drain, ...

  function Other(lane: Lane): (r: Lane)
  {
    if lane == ControlLane then DataLane else ControlLane
  }

  /** The drains of the run alternate, the first one being of lane `due`. */
  predicate Alternates(events: seq<Event>, due: Lane)
  {
    events == [] ||
    match events[0]
    case Push(_, _) => Alternates(events[1..], due)
    case Drain(lane) => lane == due && Alternates(events[1..], Other(due))
  }

  /** The drain that comes next after the run. */
  function Due(events: seq<Event>, due: Lane): (r: Lane)
  {
    if events == [] then due
    else if events[0].Drain? then Due(events[1..], Other(events[0].lane))
    else Due(events[1..], due)
  }

  function LastDrain(events: seq<Event>): (r: Option<Lane>)
  {
    if events == [] then None
    else
      var later := LastDrain(events[1..]);
      if later.None? && events[0].Drain? then Some(events[0].lane) else later
  }

  lemma {:induction false} DueIsLast(events: seq<Event>, due: Lane)
    ensures Due(events, due) == match LastDrain(events) case None => due case Some(lane) => Other(lane)
  {
    if events != [] {
      DueIsLast(events[1..], if events[0].Drain? then Other(events[0].lane) else due);
    }
  }

  lemma {:induction false} AlternatesConcat(a: seq<Event>, b: seq<Event>, due: Lane)
    requires Alternates(a + b, due)
    ensures Alternates(a, due) && Alternates(b, Due(a, due))
  {
    if a == [] {
      assert a + b == b;
    } else {
      assert (a + b)[0] == a[0] && (a + b)[1..] == a[1..] + b;
      AlternatesConcat(a[1..], b, if a[0].Drain? then Other(due) else due);
    }
  }

  lemma {:induction false} FirstIsDue(events: seq<Event>, due: Lane)
    requires Alternates(events, due)
    ensures FirstDrain(events).Some? ==> FirstDrain(events) == Some(due)
  {
    if events != [] && events[0].Push? {
      FirstIsDue(events[1..], due);
    }
  }

  lemma {:induction false} QuietMiddle(mid: seq<Event>, due: Lane)
    requires Alternates(mid, due)
    ensures NoDrain(mid, ControlLane) && Due(mid, due) == DataLane
            <==> due == DataLane && NoDrain(mid, ControlLane) && NoDrain(mid, DataLane)
  {
    if mid != [] {
      assert mid == [mid[0]] + mid[1..];
      QuietMiddle(mid[1..], if mid[0].Drain? then Other(due) else due);
    }
  }

  lemma StoryAlternates(before: seq<Event>, sub: Envelope, mid: seq<Event>, request: Envelope, after: seq<Event>)
    requires Alternates(Story(before, sub, mid, request, after), ControlLane)
    ensures var due := Due(before, ControlLane); Alternates(mid, due) && Alternates(after, Due(mid, due))
  {
    var s, r := before + [Push(ControlLane, sub)], mid + [Push(DataLane, request)];
    AlternatesConcat(s + r, after, ControlLane);
    AlternatesConcat(s, r, ControlLane);
    DueConcat(s, r, ControlLane);
    AlternatesConcat(mid, [Push(DataLane, request)], Due(s, ControlLane));
    DueConcat(before, [Push(ControlLane, sub)], ControlLane);
    DueConcat(mid, [Push(DataLane, request)], Due(s, ControlLane));
  }

  lemma {:induction false} DueConcat(a: seq<Event>, b: seq<Event>, due: Lane)
    ensures Due(a + b, due) == Due(b, Due(a, due))
  {
    if a == [] {
      assert a + b == b;
    } else {
      assert (a + b)[0] == a[0] && (a + b)[1..] == a[1..] + b;
      DueConcat(a[1..], b, if a[0].Drain? then Other(a[0].lane) else due);
    }
  }

  /** In the worker's loop the request overtakes exactly when both pushes fall between the control
      drain and the data drain of one turn, and that data drain happens. */
  lemma LoopOvertakesIff(before: seq<Event>, sub: Envelope, mid: seq<Event>, request: Envelope, after: seq<Event>)
    requires Alternates(Story(before, sub, mid, request, after), ControlLane)
    ensures Overtakes(After(EMPTY, Story(before, sub, mid, request, after)).wire,
                      Place(before, mid), |Pushed(before, ControlLane)|)
            <==> LastDrain(before) == Some(ControlLane) && NoDrain(mid, ControlLane) && NoDrain(mid, DataLane)
                 && FirstDrain(after).Some?
  {
    var due := Due(before, ControlLane);
    OvertakesIff(before, sub, mid, request, after);
    StoryAlternates(before, sub, mid, request, after);
    DueIsLast(before, ControlLane);
    QuietMiddle(mid, due);
    FirstIsDue(after, Due(mid, due));
  }

  /** The condition can be met: a turn of the loop in which a SUBSCRIBE is overtaken by the
      request that was waiting for it. */
  lemma RequestCanOvertake(sub: Envelope, request: Envelope)
    ensures var s, r := Push(ControlLane, sub), Push(DataLane, request);
      var events := [Drain(ControlLane), s, r, Drain(DataLane), Drain(ControlLane)];
      Alternates(events, ControlLane) && After(EMPTY, events).wire == [(DataLane, request), (ControlLane, sub)]
  {
    var s, r := Push(ControlLane, sub), Push(DataLane, request);
    var events := [Drain(ControlLane), s, r, Drain(DataLane), Drain(ControlLane)];
    var l := Lanes([sub], [request], []);
    assert events[1..] == [s, r, Drain(DataLane), Drain(ControlLane)];
    assert events[1..][1..] == [r, Drain(DataLane), Drain(ControlLane)];
    assert events[1..][1..][1..] == [Drain(DataLane), Drain(ControlLane)];
    LastTurn(l, sub, request);
    assert Alternates(events[1..][1..], DataLane);
    assert After(Lanes([sub], [], []), events[1..][1..]).wire == [(DataLane, request), (ControlLane, sub)];
    assert Next(EMPTY, Drain(ControlLane)) == EMPTY;
    assert Next(EMPTY, s) == Lanes([sub], [], []);
  }

  lemma LastTurn(l: Lanes, sub: Envelope, request: Envelope)
    requires l == Lanes([sub], [request], [])
    ensures var events := [Drain(DataLane), Drain(ControlLane)];
      Alternates(events, DataLane) && After(l, events).wire == [(DataLane, request), (ControlLane, sub)]
  {
    var events := [Drain(DataLane), Drain(ControlLane)];
    assert events[1..] == [Drain(ControlLane)] && events[1..][1..] == [];
    AfterOne(Next(l, Drain(DataLane)), Drain(ControlLane));
  }
}

/** The broker's loop protection as a sliding window over the accepted ids. */
module Dedup {
  import opened Sequences
  import B = BrokerStep

  /** The window: the last MAX_HISTORY elements. */
  function Window(accepted: seq<string>): (r: seq<string>)
  {
    if |accepted| <= B.MAX_HISTORY then accepted else accepted[|accepted| - B.MAX_HISTORY..]
  }

  /** The reference: of the ids offered, those not in the window of ids accepted before them. */
  function Accepted(ids: seq<string>): (r: seq<string>)
  {
    if ids == [] then []
    else
      var before, u := Accepted(ids[..|ids| - 1]), ids[|ids| - 1];
      if u in Window(before) then before else before + [u]
  }

  /** The deque the broker keeps after the same offers. */
  function History(ids: seq<string>): (r: seq<string>)
  {
    if ids == [] then []
    else
      var before, u := History(ids[..|ids| - 1]), ids[|ids| - 1];
      if u in before then before else B.Remember(before, u)
  }

  lemma RememberSlides(accepted: seq<string>, u: string)
    ensures B.Remember(Window(accepted), u) == Window(accepted + [u])
  {
  }

  /** Over any run of offers the deque is exactly the window of the accepted ids. */
  lemma {:induction false} HistoryIsWindow(ids: seq<string>)
    ensures History(ids) == Window(Accepted(ids))
  {
    if ids != [] {
      HistoryIsWindow(ids[..|ids| - 1]);
      RememberSlides(Accepted(ids[..|ids| - 1]), ids[|ids| - 1]);
    }
  }

  /** An id is accepted again only after at least 10000 others in between,
      all different from it and from each other. */
  lemma {:induction false} Reaccepted(ids: seq<string>, i: nat, j: nat)
    requires i < j < |Accepted(ids)| && Accepted(ids)[i] == Accepted(ids)[j]
    ensures j - i > 10_000
    ensures var between := Accepted(ids)[j - 10_000..j];
      NoRepeats(between) && Accepted(ids)[j] !in between
  {
    var init := ids[..|ids| - 1];
    if j < |Accepted(init)| {
      Reaccepted(init, i, j);
      SameStretch(Accepted(init), Accepted(ids), j);
    } else {
      WindowDistinct(init);
      OutsideWindow(Accepted(init), Accepted(ids)[j], i);
      SameStretch(Accepted(init), Accepted(ids), j);
    }
  }

  lemma SameStretch(a: seq<string>, b: seq<string>, j: nat)
    requires a <= b && 10_000 <= j <= |a|
    ensures a[j - 10_000..j] == b[j - 10_000..j]
  {
  }

  /** An element that is outside the window lies more than its length back. */
  lemma OutsideWindow(accepted: seq<string>, u: string, i: nat)
    requires i < |accepted| && accepted[i] == u && u !in Window(accepted)
    ensures |accepted| - i > 10_000 && Window(accepted) == accepted[|accepted| - 10_000..|accepted|]
  {
    InWindow(accepted, u);
  }

  lemma {:induction false} WindowDistinct(ids: seq<string>)
    ensures NoRepeats(Window(Accepted(ids)))
  {
    if ids != [] {
      var before, u := Accepted(ids[..|ids| - 1]), ids[|ids| - 1];
      WindowDistinct(ids[..|ids| - 1]);
      if u !in Window(before) {
        RememberSlides(before, u);
        B.RememberSound(Window(before), u);
      }
    }
  }

  // ---- the broker's own runs

  function Offered(h: seq<string>, u: string): (r: seq<string>)
  {
    if u in h then h else B.Remember(h, u)
  }

  function OfferedAll(h: seq<string>, ids: seq<string>): (r: seq<string>)
    decreases |ids|
  {
    if ids == [] then h else OfferedAll(Offered(h, ids[0]), ids[1..])
  }

  /** The ids a broker input puts before the duplicate test. */
  function Tested(s: B.State, i: B.Input): (r: seq<string>)
  {
    if i.Message? then
      var out := B.Process(s, i.env, i.origin, i.now, i.draw).1;
      if out.Routed? || out.Duplicate? then [B.Stamp(i.env, s.id, i.draw).header.uuid] else []
    else []
  }

  function RunTested(s: B.State, inputs: seq<B.Input>): (r: seq<string>)
    decreases |inputs|
  {
    if inputs == [] then [] else Tested(s, inputs[0]) + RunTested(B.Step(s, inputs[0]), inputs[1..])
  }

  lemma {:induction false} OfferedConcat(h: seq<string>, a: seq<string>, b: seq<string>)
    ensures OfferedAll(h, a + b) == OfferedAll(OfferedAll(h, a), b)
    decreases |a|
  {
    if a == [] {
      assert a + b == b;
    } else {
      assert (a + b)[1..] == a[1..] + b;
      OfferedConcat(Offered(h, a[0]), a[1..], b);
    }
  }

  lemma {:induction false} OfferedIsHistory(ids: seq<string>)
    ensures OfferedAll([], ids) == History(ids)
  {
    if ids != [] {
      var init, u := ids[..|ids| - 1], ids[|ids| - 1];
      OfferedIsHistory(init);
      assert ids == init + [u];
      OfferedConcat([], init, [u]);
    }
  }

  lemma StepOrder(s: B.State, i: B.Input)
    ensures B.Step(s, i).order == OfferedAll(s.order, Tested(s, i))
  {
    if i.Message? {
      var u := B.Stamp(i.env, s.id, i.draw).header.uuid;
      assert OfferedAll(s.order, [u]) == Offered(s.order, u);
    }
  }

  lemma {:induction false} RunOrder(s: B.State, inputs: seq<B.Input>)
    ensures B.Run(s, inputs).order == OfferedAll(s.order, RunTested(s, inputs))
    decreases |inputs|
  {
    if inputs != [] {
      var next := B.Step(s, inputs[0]);
      RunOrder(next, inputs[1..]);
      OfferedConcat(s.order, Tested(s, inputs[0]), RunTested(next, inputs[1..]));
      StepOrder(s, inputs[0]);
    }
  }

  /** Over any broker run from an empty history, the duplicate test says yes exactly for the
      ids among the last 10000 accepted ones. */
  lemma DuplicateIffInWindow(s: B.State, inputs: seq<B.Input>, u: string)
    requires s.order == []
    ensures var accepted := Accepted(RunTested(s, inputs));
      u in B.Run(s, inputs).order
      <==> exists i :: 0 <= i < |accepted| && i >= |accepted| - 10_000 && accepted[i] == u
  {
    RunOrder(s, inputs);
    OfferedIsHistory(RunTested(s, inputs));
    HistoryIsWindow(RunTested(s, inputs));
    InWindow(Accepted(RunTested(s, inputs)), u);
  }

  lemma InWindow(accepted: seq<string>, u: string)
    ensures u in Window(accepted) <==> exists i :: 0 <= i < |accepted| && i >= |accepted| - 10_000 && accepted[i] == u
  {
    var w := Window(accepted);
    assert forall k | 0 <= k < |w| :: w[k] == accepted[|accepted| - |w| + k];
    if i :| 0 <= i < |accepted| && i >= |accepted| - 10_000 && accepted[i] == u {
      assert w[i - (|accepted| - |w|)] == u;
    }
  }
}

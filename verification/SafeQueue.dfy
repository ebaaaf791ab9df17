/** The bounded blocking queue: its critical sections, and every interleaving of
    threads through them with condition-variable waits, timeouts, spurious
    wakeups and stop. */
module SafeQueue {
  import opened Messages

  /** What the mutex protects. */
  datatype Core<T> = Core(queue: seq<T>, stopped: bool, maxSize: nat)

  datatype Attempt<+T> = Done(value: T) | Refused | MustWait

  predicate HasRoom<T>(c: Core<T>)
  {
    |c.queue| < c.maxSize
  }

  /** Between evaluating the wait predicate of push and releasing the lock. */
  function PushResult<T>(c: Core<T>, v: T): (r: Attempt<T>)
  {
    if c.stopped then Refused else if HasRoom(c) then Done(v) else MustWait
  }

  function PopResult<T>(c: Core<T>): (r: Attempt<T>)
  {
    if c.queue != [] then Done(c.queue[0]) else if c.stopped then Refused else MustWait
  }

  class SafeQueue<T> {
    var queue: seq<T>
    var stopped: bool
    const maxSize: nat

    ghost function View(): (c: Core<T>)
      reads this
    {
      Core(queue, stopped, maxSize)
    }

    constructor (maxSize: nat)
      ensures View() == Core([], false, maxSize)
    {
      this.maxSize := maxSize;
      queue, stopped := [], false;
    }

    /** One pass of push through the monitor; `notified` says condEmpty is notified. */
    method Push(v: T) returns (r: Attempt<T>, notified: bool)
      modifies this
      ensures r == PushResult(old(View()), v)
      ensures View() == if r.Done? then old(View()).(queue := old(queue) + [v]) else old(View())
      ensures notified <==> r.Done?
    {
      if !(|queue| < maxSize || stopped) {
        return MustWait, false;
      }
      if stopped {
        return Refused, false;
      }
      queue := queue + [v];
      return Done(v), true;
    }

    method Pop() returns (r: Attempt<T>, notified: bool)
      modifies this
      ensures r == PopResult(old(View()))
      ensures View() == if r.Done? then old(View()).(queue := old(queue)[1..]) else old(View())
      ensures notified <==> r.Done?
    {
      if !(queue != [] || stopped) {
        return MustWait, false;
      }
      if queue == [] && stopped {
        return Refused, false;
      }
      r, notified := Done(queue[0]), true;
      queue := queue[1..];
    }

    /** `notified` says condFull is notified. */
    method TryPop() returns (r: Option<T>, notified: bool)
      modifies this
      ensures r == if old(queue) == [] then None else Some(old(queue)[0])
      ensures View() == if old(queue) == [] then old(View()) else old(View()).(queue := old(queue)[1..])
      ensures notified <==> r.Some?
    {
      if queue == [] {
        return None, false;
      }
      r, notified := Some(queue[0]), true;
      queue := queue[1..];
    }

    method Stop()
      modifies this
      ensures View() == old(View()).(stopped := true)
    {
      stopped := true;
    }
  }

  // ---- interleavings

  datatype Job<T> = Job(value: T, timed: bool)

  /** Threads blocked in a wait (`wait…`), and threads a wakeup has reached that have
      not yet run again (`woke…`).  `pushed` and `popped` are histories. */
  datatype Monitor<T> = Monitor(
    core: Core<T>,
    waitPush: map<nat, Job<T>>,
    wokePush: map<nat, Job<T>>,
    waitPop: set<nat>,
    wokePop: set<nat>,
    pushed: seq<T>,
    popped: seq<T>)

  /** A critical section by thread t; `wake` is the waiter notify_one picks, if any. */
  datatype Event<T> =
    | StartPush(t: nat, job: Job<T>, wake: Option<nat>)
    | ResumePush(t: nat, wake: Option<nat>)
    | TimeoutPush(t: nat, wake: Option<nat>)
    | SpuriousPush(t: nat)
    | StartPop(t: nat, wake: Option<nat>)
    | ResumePop(t: nat, wake: Option<nat>)
    | SpuriousPop(t: nat)
    | TryPop(wake: Option<nat>)
    | Stop

  predicate Idle<T>(m: Monitor<T>, t: nat)
  {
    t !in m.waitPush && t !in m.wokePush && t !in m.waitPop && t !in m.wokePop
  }

  /** notify_one reaches one waiter, whichever, if there is one. */
  predicate Picks(wake: Option<nat>, waiting: set<nat>)
  {
    if waiting == {} then wake.None? else wake.Some? && wake.value in waiting
  }

  predicate Enabled<T>(m: Monitor<T>, e: Event<T>)
  {
    match e
    case StartPush(t, _, wake) => Idle(m, t) && Picks(wake, m.waitPop)
    case ResumePush(t, wake) => t in m.wokePush && Picks(wake, m.waitPop)
    case TimeoutPush(t, wake) =>
      && ((t in m.waitPush && m.waitPush[t].timed) || (t in m.wokePush && m.wokePush[t].timed))
      && Picks(wake, m.waitPop)
    case SpuriousPush(t) => t in m.waitPush
    case StartPop(t, wake) => Idle(m, t) && Picks(wake, m.waitPush.Keys)
    case ResumePop(t, wake) => t in m.wokePop && Picks(wake, m.waitPush.Keys)
    case SpuriousPop(t) => t in m.waitPop
    case TryPop(wake) => Picks(wake, m.waitPush.Keys)
    case Stop => true
  }

  function WakePopper<T>(m: Monitor<T>, wake: Option<nat>): (r: Monitor<T>)
  {
    if wake.Some? then m.(waitPop := m.waitPop - {wake.value}, wokePop := m.wokePop + {wake.value}) else m
  }

  function WakePusher<T>(m: Monitor<T>, wake: Option<nat>): (r: Monitor<T>)
  {
    if wake.Some? && wake.value in m.waitPush then
      m.(waitPush := m.waitPush - {wake.value}, wokePush := m.wokePush[wake.value := m.waitPush[wake.value]])
    else m
  }

  /** A thread outside the monitor's sets runs push once. */
  function RunPush<T>(m: Monitor<T>, t: nat, job: Job<T>, wait: bool, wake: Option<nat>): (r: Monitor<T>)
  {
    match PushResult(m.core, job.value)
    case Done(v) =>
      WakePopper(m.(core := m.core.(queue := m.core.queue + [v]), pushed := m.pushed + [v]), wake)
    case Refused => m
    case MustWait => if wait then m.(waitPush := m.waitPush[t := job]) else m
  }

  /** The front leaves, and the thread is handed v. */
  function Take<T>(m: Monitor<T>, v: T, wake: Option<nat>): (r: Monitor<T>)
    requires m.core.queue != []
  {
    WakePusher(m.(core := m.core.(queue := m.core.queue[1..]), popped := m.popped + [v]), wake)
  }

  function RunPop<T>(m: Monitor<T>, t: nat, wake: Option<nat>): (r: Monitor<T>)
  {
    match PopResult(m.core)
    case Done(v) => Take(m, v, wake)
    case Refused => m
    case MustWait => m.(waitPop := m.waitPop + {t})
  }

  function Next<T>(m: Monitor<T>, e: Event<T>): (r: Monitor<T>)
    requires Enabled(m, e)
  {
    match e
    case StartPush(t, job, wake) => RunPush(m, t, job, true, wake)
    case ResumePush(t, wake) => RunPush(m.(wokePush := m.wokePush - {t}), t, m.wokePush[t], true, wake)
    case TimeoutPush(t, wake) =>
      var job := if t in m.waitPush then m.waitPush[t] else m.wokePush[t];
      RunPush(m.(waitPush := m.waitPush - {t}, wokePush := m.wokePush - {t}), t, job, false, wake)
    case SpuriousPush(t) => WakePusher(m, Some(t))
    case StartPop(t, wake) => RunPop(m, t, wake)
    case ResumePop(t, wake) => RunPop(m.(wokePop := m.wokePop - {t}), t, wake)
    case SpuriousPop(t) => WakePopper(m, Some(t))
    case TryPop(wake) => if m.core.queue == [] then m else Take(m, m.core.queue[0], wake)
    case Stop =>
      m.(core := m.core.(stopped := true),
         waitPush := map[], wokePush := m.wokePush + m.waitPush,
         waitPop := {}, wokePop := m.wokePop + m.waitPop)
  }

  predicate Runs<T>(m: Monitor<T>, events: seq<Event<T>>)
    decreases |events|
  {
    events == [] || (Enabled(m, events[0]) && Runs(Next(m, events[0]), events[1..]))
  }

  function After<T>(m: Monitor<T>, events: seq<Event<T>>): (r: Monitor<T>)
    requires Runs(m, events)
    decreases |events|
  {
    if events == [] then m else After(Next(m, events[0]), events[1..])
  }

  function Fresh<T>(maxSize: nat): (m: Monitor<T>)
  {
    Monitor(Core([], false, maxSize), map[], map[], {}, {}, [], [])
  }

  /** Enough wakeups are under way for the room and the items there are. */
  ghost predicate Awake<T>(m: Monitor<T>)
  {
    && m.waitPush.Keys !! m.wokePush.Keys && m.waitPop !! m.wokePop
    && (m.waitPush.Keys != {} ==> m.core.maxSize <= |m.core.queue| + |m.wokePush.Keys|)
    && (m.waitPop != {} ==> |m.core.queue| <= |m.wokePop|)
    && (m.core.stopped ==> m.waitPush.Keys == {} && m.waitPop == {})
  }

  ghost predicate Faithful<T>(m: Monitor<T>)
  {
    m.pushed == m.popped + m.core.queue && |m.core.queue| <= m.core.maxSize
  }

  /** Awake, but for the thread that is about to run and one wakeup it may have used up. */
  ghost predicate NearlyAwake<T>(m: Monitor<T>, pushers: nat, poppers: nat)
  {
    && m.waitPush.Keys !! m.wokePush.Keys && m.waitPop !! m.wokePop
    && (m.waitPush.Keys != {} ==> m.core.maxSize <= |m.core.queue| + |m.wokePush.Keys| + pushers)
    && (m.waitPop != {} ==> |m.core.queue| <= |m.wokePop| + poppers)
    && (m.core.stopped ==> m.waitPush.Keys == {} && m.waitPop == {})
  }

  lemma WakePopperAwake<T>(m: Monitor<T>, wake: Option<nat>)
    requires NearlyAwake(m, 0, 1) && Picks(wake, m.waitPop)
    ensures Awake(WakePopper(m, wake))
  {
  }

  lemma WakePusherAwake<T>(m: Monitor<T>, wake: Option<nat>)
    requires NearlyAwake(m, 1, 0) && Picks(wake, m.waitPush.Keys)
    ensures Awake(WakePusher(m, wake))
  {
    if wake.Some? {
      var r := WakePusher(m, wake);
      assert r.wokePush.Keys == m.wokePush.Keys + {wake.value};
      assert r.waitPush.Keys == m.waitPush.Keys - {wake.value};
    }
  }

  lemma PushedAwake<T>(m: Monitor<T>, v: T, wake: Option<nat>)
    requires NearlyAwake(m, 1, 0) && Picks(wake, m.waitPop) && HasRoom(m.core)
    ensures Awake(WakePopper(m.(core := m.core.(queue := m.core.queue + [v]), pushed := m.pushed + [v]), wake))
  {
  }

  lemma BlockedAwake<T>(m: Monitor<T>, t: nat, job: Job<T>)
    requires NearlyAwake(m, 1, 0) && t !in m.wokePush && !m.core.stopped && !HasRoom(m.core)
    ensures Awake(m) && Awake(m.(waitPush := m.waitPush[t := job]))
  {
  }

  lemma RunPushAwake<T>(m: Monitor<T>, t: nat, job: Job<T>, wait: bool, wake: Option<nat>)
    requires NearlyAwake(m, 1, 0) && Picks(wake, m.waitPop)
    requires t !in m.wokePush
    ensures Awake(RunPush(m, t, job, wait, wake))
  {
    if !m.core.stopped {
      if HasRoom(m.core) {
        PushedAwake(m, job.value, wake);
      } else {
        BlockedAwake(m, t, job);
      }
    }
  }

  lemma TakeAwake<T>(m: Monitor<T>, v: T, wake: Option<nat>)
    requires m.core.queue != [] && NearlyAwake(m, 0, 1) && Picks(wake, m.waitPush.Keys)
    ensures Awake(Take(m, v, wake))
  {
  }

  lemma RunPopAwake<T>(m: Monitor<T>, t: nat, wake: Option<nat>)
    requires NearlyAwake(m, 0, 1) && Picks(wake, m.waitPush.Keys)
    requires t !in m.wokePop
    ensures Awake(RunPop(m, t, wake))
  {
    if m.core.queue != [] {
      TakeAwake(m, m.core.queue[0], wake);
    }
  }

  lemma NextAwake<T>(m: Monitor<T>, e: Event<T>)
    requires Awake(m) && Enabled(m, e)
    ensures Awake(Next(m, e))
  {
    match e
    case StartPush(t, job, wake) => RunPushAwake(m, t, job, true, wake);
    case ResumePush(t, wake) =>
      var r := m.(wokePush := m.wokePush - {t});
      assert r.wokePush.Keys == m.wokePush.Keys - {t};
      RunPushAwake(r, t, m.wokePush[t], true, wake);
    case TimeoutPush(t, wake) => TimeoutAwake(m, t, wake);
    case SpuriousPush(t) => WakePusherAwake(m, Some(t));
    case StartPop(t, wake) => RunPopAwake(m, t, wake);
    case ResumePop(t, wake) => RunPopAwake(m.(wokePop := m.wokePop - {t}), t, wake);
    case SpuriousPop(t) => WakePopperAwake(m, Some(t));
    case TryPop(wake) => if m.core.queue != [] { TakeAwake(m, m.core.queue[0], wake); }
    case Stop =>
      assert (m.wokePush + m.waitPush).Keys == m.wokePush.Keys + m.waitPush.Keys;
  }

  lemma TimeoutAwake<T>(m: Monitor<T>, t: nat, wake: Option<nat>)
    requires Awake(m) && Enabled(m, TimeoutPush(t, wake))
    ensures Awake(Next(m, TimeoutPush(t, wake)))
  {
    var r := m.(waitPush := m.waitPush - {t}, wokePush := m.wokePush - {t});
    assert r.waitPush.Keys == m.waitPush.Keys - {t} && r.wokePush.Keys == m.wokePush.Keys - {t};
    RunPushAwake(r, t, if t in m.waitPush then m.waitPush[t] else m.wokePush[t], false, wake);
  }

  /** What one critical section may do to the histories. */
  ghost predicate Records<T>(m: Monitor<T>, r: Monitor<T>)
  {
    && Faithful(r) && r.core.maxSize == m.core.maxSize
    && m.pushed <= r.pushed && m.popped <= r.popped
    && (m.core.stopped ==> r.core.stopped && r.pushed == m.pushed)
  }

  lemma RunPushRecords<T>(m: Monitor<T>, t: nat, job: Job<T>, wait: bool, wake: Option<nat>)
    requires Faithful(m)
    ensures Records(m, RunPush(m, t, job, wait, wake))
  {
  }

  lemma TakeRecords<T>(m: Monitor<T>, wake: Option<nat>)
    requires Faithful(m) && m.core.queue != []
    ensures Records(m, Take(m, m.core.queue[0], wake))
  {
    assert m.core.queue == [m.core.queue[0]] + m.core.queue[1..];
    assert m.popped + m.core.queue == (m.popped + [m.core.queue[0]]) + m.core.queue[1..];
  }

  lemma RunPopRecords<T>(m: Monitor<T>, t: nat, wake: Option<nat>)
    requires Faithful(m)
    ensures Records(m, RunPop(m, t, wake))
  {
    if m.core.queue != [] {
      TakeRecords(m, wake);
    }
  }

  lemma NextFaithful<T>(m: Monitor<T>, e: Event<T>)
    requires Faithful(m) && Enabled(m, e)
    ensures Records(m, Next(m, e))
  {
    match e
    case StartPush(t, job, wake) => RunPushRecords(m, t, job, true, wake);
    case ResumePush(t, wake) => RunPushRecords(m.(wokePush := m.wokePush - {t}), t, m.wokePush[t], true, wake);
    case TimeoutPush(t, wake) =>
      var job := if t in m.waitPush then m.waitPush[t] else m.wokePush[t];
      RunPushRecords(m.(waitPush := m.waitPush - {t}, wokePush := m.wokePush - {t}), t, job, false, wake);
    case StartPop(t, wake) => RunPopRecords(m, t, wake);
    case ResumePop(t, wake) => RunPopRecords(m.(wokePop := m.wokePop - {t}), t, wake);
    case TryPop(wake) => if m.core.queue != [] { TakeRecords(m, wake); }
    case _ =>
  }

  lemma {:induction false} RunInvariant<T>(m: Monitor<T>, events: seq<Event<T>>)
    requires Awake(m) && Faithful(m) && Runs(m, events)
    ensures var r := After(m, events);
      && Awake(r) && Faithful(r) && r.core.maxSize == m.core.maxSize
      && (m.core.stopped ==> r.core.stopped && r.pushed == m.pushed)
    decreases |events|
  {
    if events != [] {
      NextAwake(m, events[0]);
      NextFaithful(m, events[0]);
      RunInvariant(Next(m, events[0]), events[1..]);
    }
  }

  /** No lost wakeups, in every interleaving: room and a blocked pusher mean a woken pusher,
      an item and a blocked popper mean a woken popper, and once stopped nobody is blocked. */
  lemma NoLostWakeups<T>(maxSize: nat, events: seq<Event<T>>)
    requires Runs(Fresh(maxSize), events)
    ensures var m := After(Fresh(maxSize), events);
      && (HasRoom(m.core) && m.waitPush.Keys != {} ==> m.wokePush.Keys != {})
      && (m.core.queue != [] && m.waitPop != {} ==> m.wokePop != {})
      && (m.core.stopped ==> m.waitPush.Keys == {} && m.waitPop == {})
  {
    RunInvariant(Fresh(maxSize), events);
  }

  /** First in, first out, bounded: the successful pushes in order are the pops in order
      followed by the contents; and nothing is pushed after stop, so what the poppers
      still get is exactly what remained. */
  lemma QueueHistory<T>(maxSize: nat, before: seq<Event<T>>, after: seq<Event<T>>)
    requires Runs(Fresh(maxSize), before) && Runs(After(Fresh(maxSize), before), after)
    ensures var m := After(Fresh(maxSize), before); var r := After(m, after);
      && m.pushed == m.popped + m.core.queue && |m.core.queue| <= maxSize
      && (PopResult(m.core).Refused? ==> m.core.stopped && m.popped == m.pushed)
      && (m.core.stopped ==> r.pushed == m.pushed && r.popped + r.core.queue == m.popped + m.core.queue)
  {
    RunInvariant(Fresh(maxSize), before);
    RunInvariant(After(Fresh(maxSize), before), after);
  }

  /** What one pass of push or pop comes to, told by the histories alone, in every interleaving: a
      push is refused exactly after stop and waits exactly while maxSize values are neither popped
      nor lost; a pop is handed the next value in the order of the pushes, waits exactly while
      there is none, and is refused exactly when there is none and never will be. */
  lemma AttemptsByHistory<T>(maxSize: nat, events: seq<Event<T>>, v: T)
    requires Runs(Fresh(maxSize), events)
    ensures var m := After(Fresh(maxSize), events);
      && |m.popped| <= |m.pushed| <= |m.popped| + maxSize
      && PushResult(m.core, v) == (if m.core.stopped then Refused
                                   else if |m.pushed| < |m.popped| + maxSize then Done(v) else MustWait)
      && PopResult(m.core) == (if |m.popped| < |m.pushed| then Done(m.pushed[|m.popped|])
                               else if m.core.stopped then Refused else MustWait)
  {
    RunInvariant(Fresh(maxSize), events);
  }

  function Inside<T>(m: Monitor<T>): (r: nat)
  {
    |m.wokePush.Keys| + |m.wokePop|
  }

  lemma StoppedPushers<T>(m: Monitor<T>, e: Event<T>)
    requires Awake(m) && Enabled(m, e) && m.core.stopped && (e.StartPush? || e.ResumePush? || e.TimeoutPush?)
    ensures Inside(Next(m, e)) == if e.StartPush? then Inside(m) else Inside(m) - 1
  {
    if !e.StartPush? {
      assert (m.wokePush - {e.t}).Keys == m.wokePush.Keys - {e.t};
    }
  }

  lemma StoppedPoppers<T>(m: Monitor<T>, e: Event<T>)
    requires Awake(m) && Enabled(m, e) && m.core.stopped && (e.StartPop? || e.ResumePop? || e.TryPop?)
    ensures Inside(Next(m, e)) == if e.ResumePop? then Inside(m) - 1 else Inside(m)
  {
  }

  /** After stop a woken thread leaves the monitor the first time it runs, and no thread
      that enters stays: the threads inside only become fewer. */
  lemma StoppedThreadsLeave<T>(m: Monitor<T>, e: Event<T>)
    requires Awake(m) && Enabled(m, e) && m.core.stopped
    ensures Inside(Next(m, e)) ==
      if e.ResumePush? || e.ResumePop? || e.TimeoutPush? then Inside(m) - 1 else Inside(m)
  {
    match e
    case StartPush(_, _, _) => StoppedPushers(m, e);
    case ResumePush(_, _) => StoppedPushers(m, e);
    case TimeoutPush(_, _) => StoppedPushers(m, e);
    case StartPop(_, _) => StoppedPoppers(m, e);
    case ResumePop(_, _) => StoppedPoppers(m, e);
    case TryPop(_) => StoppedPoppers(m, e);
    case Stop => assert m.wokePush + m.waitPush == m.wokePush;
  }
}

/**
 Run to completion: in what order the dispatches of one event come, which regions they go to,
 what the result says, and when the defer queue is offered.
 */
module SmlCompletion {
  import opened SmlTable
  import opened SmlEngine
  import opened SmlSteps

  /** The region's answer to a dispatch. */
  ghost predicate Handles<C>(m: Machine, env: Env<C>, d: Dispatch<C>)
    requires Dispatchable(m, d)
  {
    Step(m, env, d.key, d.e, d.before.regions[d.r], d.before.w).handled
  }

  /** `ds` offers `e` under `key` to the regions from `r` on, in order. */
  ghost predicate Broadcasts<C>(m: Machine, ds: seq<Dispatch<C>>, key: Event, e: Event, r: nat) {
    forall i :: 0 <= i < |ds| ==> Dispatchable(m, ds[i]) && ds[i].key == key && ds[i].e == e && ds[i].r == r + i
  }

  ghost predicate AllDispatchable<C>(m: Machine, ds: seq<Dispatch<C>>) {
    forall i :: 0 <= i < |ds| ==> Dispatchable(m, ds[i])
  }

  /** The result of a broadcast that starts with `handled`: any answer in one build, the last one in the other. */
  ghost predicate Answer<C>(m: Machine, env: Env<C>, ds: seq<Dispatch<C>>, handled: bool)
    requires AllDispatchable(m, ds)
  {
    if m.anyRegion then handled || exists i :: 0 <= i < |ds| && Handles(m, env, ds[i])
    else if ds == [] then handled
    else Handles(m, env, ds[|ds| - 1])
  }

  lemma HandledMore<C>(m: Machine, env: Env<C>, first: Dispatch<C>, rest: seq<Dispatch<C>>)
    requires Dispatchable(m, first) && AllDispatchable(m, rest)
    ensures AllDispatchable(m, [first] + rest)
    ensures (exists i :: 0 <= i < |[first] + rest| && Handles(m, env, ([first] + rest)[i])) <==>
              Handles(m, env, first) || exists i :: 0 <= i < |rest| && Handles(m, env, rest[i])
  {
    var ds := [first] + rest;
    assert ds[0] == first && forall i :: 0 < i < |ds| ==> ds[i] == rest[i - 1];
    if i :| 0 <= i < |rest| && Handles(m, env, rest[i]) {
      assert Handles(m, env, ds[i + 1]);
    }
  }

  lemma AnswerMore<C>(m: Machine, env: Env<C>, first: Dispatch<C>, rest: seq<Dispatch<C>>, handled: bool)
    requires Dispatchable(m, first) && AllDispatchable(m, rest)
    ensures AllDispatchable(m, [first] + rest)
    ensures Answer(m, env, [first] + rest, handled)
        <==> Answer(m, env, rest, Handles(m, env, first) || (m.anyRegion && handled))
  {
    HandledMore(m, env, first, rest);
    if !m.anyRegion {
      LastAnswer(m, env, first, rest, handled);
    }
  }

  lemma LastAnswer<C>(m: Machine, env: Env<C>, first: Dispatch<C>, rest: seq<Dispatch<C>>, handled: bool)
    requires Dispatchable(m, first) && AllDispatchable(m, rest) && AllDispatchable(m, [first] + rest) && !m.anyRegion
    ensures Answer(m, env, [first] + rest, handled) <==> Answer(m, env, rest, Handles(m, env, first))
  {
    var ds := [first] + rest;
    assert ds[|ds| - 1] == if rest == [] then first else rest[|rest| - 1];
  }

  lemma BroadcastMore<C>(m: Machine, first: Dispatch<C>, rest: seq<Dispatch<C>>)
    requires Dispatchable(m, first) && Broadcasts(m, rest, first.key, first.e, first.r + 1)
    ensures Broadcasts(m, [first] + rest, first.key, first.e, first.r)
  {
  }

  ghost predicate IsBroadcast<C>(m: Machine, env: Env<C>, key: Event, e: Event, r: nat, handled: bool, c: Config<C>)
    requires WellFormed(m) && Valid(m, c) && r <= |c.regions|
  {
    var ds := RegionDispatches(m, env, key, e, r, c);
    && |ds| == |c.regions| - r && Broadcasts(m, ds, key, e, r) && AllDispatchable(m, ds)
    && (StepRegions(m, env, key, e, r, handled, c).0 <==> Answer(m, env, ds, handled))
  }

  lemma IsBroadcastMore<C>(m: Machine, env: Env<C>, key: Event, e: Event, r: nat, handled: bool, c: Config<C>)
    requires WellFormed(m) && Valid(m, c) && r < |c.regions|
    requires (e.OnEntry? ==> key.OnEntry?) && (e.OnExit? ==> key.OnExit?)
    requires var (h, next) := StepRegion(m, env, key, e, r, c);
             IsBroadcast(m, env, key, e, r + 1, h || (m.anyRegion && handled), next)
    ensures IsBroadcast(m, env, key, e, r, handled, c)
  {
    var first := Dispatch(key, e, r, c);
    var rest := RegionDispatches(m, env, key, e, r + 1, StepRegion(m, env, key, e, r, c).1);
    StepRegionsUnfold(m, env, key, e, r, handled, c);
    BroadcastMore(m, first, rest);
    AnswerMore(m, env, first, rest, handled);
  }

  lemma IsBroadcastNone<C>(m: Machine, env: Env<C>, key: Event, e: Event, handled: bool, c: Config<C>)
    requires WellFormed(m) && Valid(m, c)
    ensures IsBroadcast(m, env, key, e, |c.regions|, handled, c)
  {
  }

  lemma {:induction false} RegionsBroadcast<C>(m: Machine, env: Env<C>, key: Event, e: Event, r: nat, handled: bool,
                                               c: Config<C>)
    requires WellFormed(m) && Valid(m, c) && r <= |c.regions|
    requires (e.OnEntry? ==> key.OnEntry?) && (e.OnExit? ==> key.OnExit?)
    ensures IsBroadcast(m, env, key, e, r, handled, c)
    decreases |c.regions| - r
  {
    if r == |c.regions| {
      IsBroadcastNone(m, env, key, e, handled, c);
    } else {
      var (h, next) := StepRegion(m, env, key, e, r, c);
      RegionsBroadcast(m, env, key, e, r + 1, h || (m.anyRegion && handled), next);
      IsBroadcastMore(m, env, key, e, r, handled, c);
    }
  }

  /**
   The broadcast of one event: one dispatch per region, in order; its result is the last
   region's in one build and that of any region in the other.
   */
  lemma BroadcastResult<C>(m: Machine, env: Env<C>, key: Event, e: Event, c: Config<C>)
    requires WellFormed(m) && Valid(m, c) && (e.OnEntry? ==> key.OnEntry?) && (e.OnExit? ==> key.OnExit?)
    ensures var ds := RegionDispatches(m, env, key, e, 0, c);
            && |ds| == |c.regions| > 0 && Broadcasts(m, ds, key, e, 0)
            && (ProcessImpl(m, env, key, e, c).0 <==>
                  if m.anyRegion then exists i :: 0 <= i < |ds| && Handles(m, env, ds[i])
                  else Handles(m, env, ds[|ds| - 1]))
  {
    RegionsBroadcast(m, env, key, e, 0, false, c);
  }

  /** `ds` starts with a broadcast of `e` under `key` to `n` regions at position `from`. */
  ghost predicate BroadcastAt<C>(m: Machine, ds: seq<Dispatch<C>>, from: nat, n: nat, key: Event, e: Event) {
    from + n <= |ds| && Broadcasts(m, ds[from..from + n], key, e, 0)
  }

  lemma BroadcastIn<C>(m: Machine, before: seq<Dispatch<C>>, ds: seq<Dispatch<C>>, after: seq<Dispatch<C>>,
                       key: Event, e: Event)
    requires Broadcasts(m, ds, key, e, 0)
    ensures BroadcastAt(m, before + (ds + after), |before|, |ds|, key, e)
  {
    assert (before + (ds + after))[|before|..|before| + |ds|] == ds;
  }

  // ----- one event -----

  /** The lookup key: an entry or exit event is sent to the untargeted rows. */
  function Key(e: Event): Event {
    if e.OnEntry? then OnEntry(Any) else if e.OnExit? then OnExit(Any) else e
  }

  /** Where the event and the anonymous event leave the machine, before the queues are drained. */
  function Settled<C>(m: Machine, env: Env<C>, e: Event, c: Config<C>): (c2: Config<C>)
    requires WellFormed(m) && Valid(m, c)
    ensures Valid(m, c2)
  {
    ProcessInternal(m, env, Anonymous, ProcessImpl(m, env, Key(e), e, c).1)
  }

  /** The dispatches of the event, of the anonymous event, and of the drains. */
  function First<C>(m: Machine, env: Env<C>, e: Event, c: Config<C>): seq<Dispatch<C>>
    requires WellFormed(m) && Valid(m, c)
  {
    RegionDispatches(m, env, Key(e), e, 0, c)
  }

  function Second<C>(m: Machine, env: Env<C>, e: Event, c: Config<C>): seq<Dispatch<C>>
    requires WellFormed(m) && Valid(m, c)
  {
    InternalDispatches(m, env, Anonymous, ProcessImpl(m, env, Key(e), e, c).1)
  }

  function Drains<C(!new)>(m: Machine, env: Env<C>, rounds: nat, e: Event, c: Config<C>): seq<Dispatch<C>>
    requires WellFormed(m) && Valid(m, c)
  {
    var c2 := Settled(m, env, e, c);
    if ProcessImpl(m, env, Key(e), e, c).0 then
      DeferDispatches(m, env, |c2.w.defer|, c2)
      + QueueDispatches(m, env, rounds, DrainDefer(m, env, |c2.w.defer|, c2).c)
    else QueueDispatches(m, env, rounds, c2)
  }

  lemma EventParts<C(!new)>(m: Machine, env: Env<C>, rounds: nat, e: Event, c: Config<C>)
    requires WellFormed(m) && Valid(m, c)
    ensures EventDispatches(m, env, rounds, e, c)
         == First(m, env, e, c) + (Second(m, env, e, c) + Drains(m, env, rounds, e, c))
    ensures ProcessEvent(m, env, rounds, e, c).0 == ProcessImpl(m, env, Key(e), e, c).0
  {
    assert GenericKey(e) == Key(e);
    var queued := QueueDispatches(m, env, rounds, Settled(m, env, e, c));
    assert [] + queued == queued;
  }

  lemma PartSizes<C>(m: Machine, env: Env<C>, e: Event, c: Config<C>)
    requires WellFormed(m) && Valid(m, c)
    ensures |First(m, env, e, c)| == |c.regions|
    ensures |Second(m, env, e, c)| == if m.Enabled(Anonymous) then |c.regions| else 0
  {
    BroadcastResult(m, env, Key(e), e, c);
    BroadcastResult(m, env, Anonymous, Anonymous, ProcessImpl(m, env, Key(e), e, c).1);
  }

  lemma FirstOrder<C>(m: Machine, env: Env<C>, e: Event, c: Config<C>, rest: seq<Dispatch<C>>)
    requires WellFormed(m) && Valid(m, c)
    ensures BroadcastAt(m, First(m, env, e, c) + rest, 0, |c.regions|, Key(e), e)
  {
    BroadcastResult(m, env, Key(e), e, c);
    BroadcastIn(m, [], First(m, env, e, c), rest, Key(e), e);
    assert [] + (First(m, env, e, c) + rest) == First(m, env, e, c) + rest;
  }

  lemma SecondOrder<C>(m: Machine, env: Env<C>, e: Event, c: Config<C>, first: seq<Dispatch<C>>, rest: seq<Dispatch<C>>)
    requires WellFormed(m) && Valid(m, c) && m.Enabled(Anonymous)
    ensures BroadcastAt(m, first + (Second(m, env, e, c) + rest), |first|, |c.regions|, Anonymous, Anonymous)
  {
    BroadcastResult(m, env, Anonymous, Anonymous, ProcessImpl(m, env, Key(e), e, c).1);
    BroadcastIn(m, first, Second(m, env, e, c), rest, Anonymous, Anonymous);
  }

  /** The event goes to every region, then, if the machine knows it, the anonymous event goes to every region. */
  lemma EventFirst<C(!new)>(m: Machine, env: Env<C>, rounds: nat, e: Event, c: Config<C>)
    requires WellFormed(m) && Valid(m, c)
    ensures var ds, n := EventDispatches(m, env, rounds, e, c), |c.regions|;
            && BroadcastAt(m, ds, 0, n, Key(e), e)
            && (m.Enabled(Anonymous) ==> BroadcastAt(m, ds, n, n, Anonymous, Anonymous))
  {
    EventParts(m, env, rounds, e, c);
    PartSizes(m, env, e, c);
    var drains := Drains(m, env, rounds, e, c);
    FirstOrder(m, env, e, c, Second(m, env, e, c) + drains);
    if m.Enabled(Anonymous) {
      SecondOrder(m, env, e, c, First(m, env, e, c), drains);
    }
  }

  /** Where the dispatches of the drains start. */
  function DrainsAt<C>(m: Machine, c: Config<C>): nat {
    if m.Enabled(Anonymous) then |c.regions| + |c.regions| else |c.regions|
  }

  lemma DrainsIn<C(!new)>(m: Machine, env: Env<C>, rounds: nat, e: Event, c: Config<C>)
    requires WellFormed(m) && Valid(m, c)
    ensures var before := First(m, env, e, c) + Second(m, env, e, c);
            |before| == DrainsAt(m, c) && EventDispatches(m, env, rounds, e, c) == before + Drains(m, env, rounds, e, c)
  {
    EventParts(m, env, rounds, e, c);
    PartSizes(m, env, e, c);
    Assoc(First(m, env, e, c), Second(m, env, e, c), Drains(m, env, rounds, e, c));
  }

  /** A handled event is followed by the front of the defer queue, to every region. */
  lemma HandledOffersDeferred<C(!new)>(m: Machine, env: Env<C>, rounds: nat, e: Event, c: Config<C>)
    requires WellFormed(m) && Valid(m, c) && ProcessImpl(m, env, Key(e), e, c).0
    ensures ProcessEvent(m, env, rounds, e, c).0
    ensures c.w.defer != [] ==>
              BroadcastAt(m, EventDispatches(m, env, rounds, e, c), DrainsAt(m, c), |c.regions|,
                          c.w.defer[0], c.w.defer[0])
  {
    var c2 := Settled(m, env, e, c);
    EventParts(m, env, rounds, e, c);
    DrainsIn(m, env, rounds, e, c);
    QueuesGrow(m, env, e, c);
    DeferredFirst(m, env, First(m, env, e, c) + Second(m, env, e, c), rounds, c2,
                  DrainDefer(m, env, |c2.w.defer|, c2).c, c.w.defer);
  }

  /** An unhandled event is followed by the process queue, and takes nothing from the defer queue. */
  lemma UnhandledSkipsDeferred<C(!new)>(m: Machine, env: Env<C>, rounds: nat, e: Event, c: Config<C>)
    requires WellFormed(m) && Valid(m, c) && !ProcessImpl(m, env, Key(e), e, c).0
    ensures !ProcessEvent(m, env, rounds, e, c).0
    ensures c.w.defer <= ProcessEvent(m, env, rounds, e, c).1.w.defer
    ensures c.w.process != [] && rounds > 0 ==>
              BroadcastAt(m, EventDispatches(m, env, rounds, e, c), DrainsAt(m, c), |c.regions|,
                          c.w.process[0], c.w.process[0])
  {
    EventParts(m, env, rounds, e, c);
    DrainsIn(m, env, rounds, e, c);
    QueuesGrow(m, env, e, c);
    UnhandledKeepsDeferred(m, env, rounds, e, c);
    QueuedFirst(m, env, First(m, env, e, c) + Second(m, env, e, c), rounds, Settled(m, env, e, c), c.w.process);
  }

  lemma UnhandledKeepsDeferred<C(!new)>(m: Machine, env: Env<C>, rounds: nat, e: Event, c: Config<C>)
    requires WellFormed(m) && Valid(m, c) && !ProcessImpl(m, env, Key(e), e, c).0
    ensures c.w.defer <= ProcessEvent(m, env, rounds, e, c).1.w.defer
  {
    assert GenericKey(e) == Key(e);
    QueuesGrow(m, env, e, c);
    QueueKeepsDeferred(m, env, rounds, Settled(m, env, e, c));
  }

  /** Before the drains nothing leaves the queues. */
  lemma QueuesGrow<C(!new)>(m: Machine, env: Env<C>, e: Event, c: Config<C>)
    requires WellFormed(m) && Valid(m, c)
    ensures c.w.defer <= Settled(m, env, e, c).w.defer && c.w.process <= Settled(m, env, e, c).w.process
  {
    ImplOnlyPushes(m, env, Key(e), e, c);
    ImplOnlyPushes(m, env, Anonymous, Anonymous, ProcessImpl(m, env, Key(e), e, c).1);
  }

  lemma DeferredFirst<C(!new)>(m: Machine, env: Env<C>, before: seq<Dispatch<C>>, rounds: nat, c2: Config<C>,
                               c3: Config<C>, q: seq<Event>)
    requires WellFormed(m) && Valid(m, c2) && Valid(m, c3) && q <= c2.w.defer
    ensures q != [] ==>
              BroadcastAt(m, before + (DeferDispatches(m, env, |c2.w.defer|, c2) + QueueDispatches(m, env, rounds, c3)),
                          |before|, |c2.regions|, q[0], q[0])
  {
    if q != [] {
      var front := RegionDispatches(m, env, q[0], q[0], 0, c2);
      var deferred, queued := DeferDispatches(m, env, |c2.w.defer|, c2), QueueDispatches(m, env, rounds, c3);
      assert q[0] == c2.w.defer[0];
      DeferStarts(m, env, c2);
      BroadcastResult(m, env, q[0], q[0], c2);
      BroadcastIn(m, before, front, deferred[|front|..] + queued, q[0], q[0]);
      SplitAfter(front, deferred, queued);
    }
  }

  lemma DeferStarts<C(!new)>(m: Machine, env: Env<C>, c: Config<C>)
    requires WellFormed(m) && Valid(m, c) && c.w.defer != []
    ensures RegionDispatches(m, env, c.w.defer[0], c.w.defer[0], 0, c) <= DeferDispatches(m, env, |c.w.defer|, c)
  {
  }

  lemma SplitAfter<T>(front: seq<T>, a: seq<T>, b: seq<T>)
    requires front <= a
    ensures a + b == front + (a[|front|..] + b)
  {
  }

  lemma QueuedFirst<C(!new)>(m: Machine, env: Env<C>, before: seq<Dispatch<C>>, rounds: nat, c2: Config<C>,
                             q: seq<Event>)
    requires WellFormed(m) && Valid(m, c2) && q <= c2.w.process
    ensures q != [] && rounds > 0 ==>
              BroadcastAt(m, before + QueueDispatches(m, env, rounds, c2), |before|, |c2.regions|, q[0], q[0])
  {
    if q != [] && rounds > 0 {
      var front, queued := RegionDispatches(m, env, q[0], q[0], 0, c2), QueueDispatches(m, env, rounds, c2);
      assert q[0] == c2.w.process[0] && front <= queued;
      BroadcastResult(m, env, q[0], q[0], c2);
      BroadcastIn(m, before, front, queued[|front|..], q[0], q[0]);
      assert queued == front + queued[|front|..];
    }
  }

  /** The process-queue loop takes nothing from the defer queue. */
  lemma {:induction false} QueueKeepsDeferred<C(!new)>(m: Machine, env: Env<C>, rounds: nat, c: Config<C>)
    requires WellFormed(m) && Valid(m, c)
    ensures c.w.defer <= DrainQueue(m, env, rounds, c).c.w.defer
    decreases rounds
  {
    if rounds > 0 && c.w.process != [] {
      ImplOnlyPushes(m, env, c.w.process[0], c.w.process[0], c);
      QueueKeepsDeferred(m, env, rounds - 1, QueueStep(m, env, c));
      DrainQueueUnfold(m, env, rounds, c);
    }
  }
}

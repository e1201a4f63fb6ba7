/**
 A run taken apart into its dispatches, in the order in which they happen. A dispatch offers
 one event to one region. Between two dispatches only the queues change, so what every
 dispatch keeps of the regions, their traces and the context holds throughout the run.
 */
module SmlSteps {
  import opened SmlTable
  import opened SmlEngine

  datatype Dispatch<C> = Dispatch(key: Event, e: Event, r: nat, before: Config<C>)

  ghost predicate Dispatchable<C>(m: Machine, d: Dispatch<C>) {
    && WellFormed(m) && Valid(m, d.before) && d.r < |d.before.regions|
    && (d.e.OnEntry? ==> d.key.OnEntry?) && (d.e.OnExit? ==> d.key.OnExit?)
  }

  function After<C>(m: Machine, env: Env<C>, d: Dispatch<C>): (c: Config<C>)
    requires Dispatchable(m, d)
    ensures Valid(m, c)
  {
    StepRegion(m, env, d.key, d.e, d.r, d.before).1
  }

  /** The states of the region before and after the dispatch. */
  function Source<C>(m: Machine, d: Dispatch<C>): State
    requires Dispatchable(m, d)
  {
    States(m.table)[d.before.regions[d.r]]
  }

  function Target<C>(m: Machine, env: Env<C>, d: Dispatch<C>): State
    requires Dispatchable(m, d)
  {
    States(m.table)[After(m, env, d).regions[d.r]]
  }

  // ----- the dispatches of each part of the engine -----

  function RegionDispatches<C>(m: Machine, env: Env<C>, key: Event, e: Event, r: nat, c: Config<C>): seq<Dispatch<C>>
    requires WellFormed(m) && Valid(m, c) && r <= |c.regions|
    decreases |c.regions| - r
  {
    if r == |c.regions| then []
    else [Dispatch(key, e, r, c)] + RegionDispatches(m, env, key, e, r + 1, StepRegion(m, env, key, e, r, c).1)
  }

  function InternalDispatches<C>(m: Machine, env: Env<C>, e: Event, c: Config<C>): seq<Dispatch<C>>
    requires WellFormed(m) && Valid(m, c)
  {
    var key := HandlerKey(m, e);
    if m.Enabled(key) then RegionDispatches(m, env, key, e, 0, c) else []
  }

  function DeferDispatches<C(!new)>(m: Machine, env: Env<C>, size: nat, c: Config<C>): seq<Dispatch<C>>
    requires WellFormed(m) && Valid(m, c) && size <= |c.w.defer|
    decreases size
  {
    if size == 0 then []
    else
      var (h, c') := DeferStep(m, env, c);
      RegionDispatches(m, env, c.w.defer[0], c.w.defer[0], 0, c)
      + (if h then DeferDispatches(m, env, size - 1, c') else [])
  }

  function QueueDispatches<C(!new)>(m: Machine, env: Env<C>, rounds: nat, c: Config<C>): seq<Dispatch<C>>
    requires WellFormed(m) && Valid(m, c)
    decreases rounds
  {
    if rounds == 0 || c.w.process == [] then []
    else
      RegionDispatches(m, env, c.w.process[0], c.w.process[0], 0, c)
      + QueueDispatches(m, env, rounds - 1, QueueStep(m, env, c))
  }

  function EventDispatches<C(!new)>(m: Machine, env: Env<C>, rounds: nat, e: Event, c: Config<C>): seq<Dispatch<C>>
    requires WellFormed(m) && Valid(m, c)
  {
    var (h, c1) := ProcessImpl(m, env, GenericKey(e), e, c);
    var c2 := ProcessInternal(m, env, Anonymous, c1);
    var c3 := if h then DrainDefer(m, env, |c2.w.defer|, c2).c else c2;
    RegionDispatches(m, env, GenericKey(e), e, 0, c) + (InternalDispatches(m, env, Anonymous, c1)
    + ((if h then DeferDispatches(m, env, |c2.w.defer|, c2) else []) + QueueDispatches(m, env, rounds, c3)))
  }

  function RunFromDispatches<C(!new)>(m: Machine, env: Env<C>, rounds: nat, events: seq<Event>, c: Config<C>):
      seq<Dispatch<C>>
    requires WellFormed(m) && Valid(m, c)
    decreases |events|
  {
    if events == [] then []
    else
      EventDispatches(m, env, rounds, events[0], c)
      + RunFromDispatches(m, env, rounds, events[1..], ProcessEvent(m, env, rounds, events[0], c).1)
  }

  /** The entry events of `start`, one per region. */
  function EntryDispatches<C>(m: Machine, env: Env<C>, ctx: C): seq<Dispatch<C>>
    requires WellFormed(m)
  {
    InternalDispatches(m, env, OnEntry(Initial), InitialConfig(m, ctx))
  }

  /** Where the entry events of `start` leave the machine. */
  function AfterEntries<C>(m: Machine, env: Env<C>, ctx: C): (c: Config<C>)
    requires WellFormed(m)
    ensures Valid(m, c)
  {
    ProcessInternal(m, env, OnEntry(Initial), InitialConfig(m, ctx))
  }

  /** The rest of the run: what `start` does after the entry events, then the given events. */
  function LaterDispatches<C(!new)>(m: Machine, env: Env<C>, rounds: nat, events: seq<Event>, ctx: C): seq<Dispatch<C>>
    requires WellFormed(m)
  {
    var c1 := AfterEntries(m, env, ctx);
    var c2 := ProcessInternal(m, env, Anonymous, c1);
    InternalDispatches(m, env, Anonymous, c1) + (QueueDispatches(m, env, rounds, c2)
    + RunFromDispatches(m, env, rounds, events, DrainQueue(m, env, rounds, c2).c))
  }

  function RunDispatches<C(!new)>(m: Machine, env: Env<C>, rounds: nat, events: seq<Event>, ctx: C): seq<Dispatch<C>>
    requires WellFormed(m)
  {
    EntryDispatches(m, env, ctx) + LaterDispatches(m, env, rounds, events, ctx)
  }

  // ----- they make up the run -----

  /** Equal but for the queues, from which the drains take. */
  ghost predicate Same<C>(c: Config<C>, c': Config<C>) {
    && c.regions == c'.regions && c.traces == c'.traces && c.w.ctx == c'.w.ctx
    && c.w.deferLog == c'.w.deferLog && c.w.processLog == c'.w.processLog
  }

  /** `ds` leads from `c` to `c'`: each dispatch starts where the one before it ended. */
  ghost predicate Linked<C>(m: Machine, env: Env<C>, ds: seq<Dispatch<C>>, c: Config<C>, c': Config<C>)
    decreases |ds|
  {
    if ds == [] then Same(c, c')
    else Same(c, ds[0].before) && Dispatchable(m, ds[0]) && Linked(m, env, ds[1..], After(m, env, ds[0]), c')
  }

  lemma LinkedCons<C>(m: Machine, env: Env<C>, d: Dispatch<C>, ds: seq<Dispatch<C>>, c: Config<C>, c': Config<C>)
    requires Same(c, d.before) && Dispatchable(m, d) && Linked(m, env, ds, After(m, env, d), c')
    ensures Linked(m, env, [d] + ds, c, c')
  {
    assert ([d] + ds)[1..] == ds;
  }

  lemma {:induction false} LinkedConcat<C>(m: Machine, env: Env<C>, a: seq<Dispatch<C>>, b: seq<Dispatch<C>>,
                                           c: Config<C>, mid: Config<C>, c': Config<C>)
    requires Linked(m, env, a, c, mid) && Linked(m, env, b, mid, c')
    ensures Linked(m, env, a + b, c, c')
    decreases |a|
  {
    if a == [] {
      assert a + b == b;
      LinkedFromSame(m, env, b, c, mid, c');
    } else {
      var d, rest := a[0], a[1..];
      LinkedConcat(m, env, rest, b, After(m, env, d), mid, c');
      LinkedCons(m, env, d, rest + b, c, c');
      assert a == [d] + rest;
      Assoc([d], rest, b);
    }
  }

  lemma LinkedFromSame<C>(m: Machine, env: Env<C>, ds: seq<Dispatch<C>>, start: Config<C>, c: Config<C>, c': Config<C>)
    requires Same(start, c) && Linked(m, env, ds, c, c')
    ensures Linked(m, env, ds, start, c')
  {
  }

  lemma RegionsLinkedNone<C>(m: Machine, env: Env<C>, key: Event, e: Event, handled: bool, c: Config<C>)
    requires WellFormed(m) && Valid(m, c)
    ensures Linked(m, env, RegionDispatches(m, env, key, e, |c.regions|, c), c,
                   StepRegions(m, env, key, e, |c.regions|, handled, c).1)
  {
  }

  lemma {:induction false} RegionsLinked<C>(m: Machine, env: Env<C>, key: Event, e: Event, r: nat, handled: bool,
                                            c: Config<C>)
    requires WellFormed(m) && Valid(m, c) && r <= |c.regions|
    requires (e.OnEntry? ==> key.OnEntry?) && (e.OnExit? ==> key.OnExit?)
    ensures Linked(m, env, RegionDispatches(m, env, key, e, r, c), c, StepRegions(m, env, key, e, r, handled, c).1)
    decreases |c.regions| - r
  {
    if r == |c.regions| {
      RegionsLinkedNone(m, env, key, e, handled, c);
    } else {
      var (h, next) := StepRegion(m, env, key, e, r, c);
      RegionsLinked(m, env, key, e, r + 1, h || (m.anyRegion && handled), next);
      StepRegionsUnfold(m, env, key, e, r, handled, c);
      RegionsLinkedMore(m, env, key, e, r, c, StepRegions(m, env, key, e, r, handled, c).1);
    }
  }

  lemma RegionsLinkedMore<C>(m: Machine, env: Env<C>, key: Event, e: Event, r: nat, c: Config<C>, end: Config<C>)
    requires WellFormed(m) && Valid(m, c) && r < |c.regions|
    requires (e.OnEntry? ==> key.OnEntry?) && (e.OnExit? ==> key.OnExit?)
    requires var next := StepRegion(m, env, key, e, r, c).1;
             Linked(m, env, RegionDispatches(m, env, key, e, r + 1, next), next, end)
    ensures Linked(m, env, RegionDispatches(m, env, key, e, r, c), c, end)
  {
    LinkedCons(m, env, Dispatch(key, e, r, c),
               RegionDispatches(m, env, key, e, r + 1, StepRegion(m, env, key, e, r, c).1), c, end);
  }

  lemma ImplLinked<C>(m: Machine, env: Env<C>, key: Event, e: Event, c: Config<C>)
    requires WellFormed(m) && Valid(m, c) && (e.OnEntry? ==> key.OnEntry?) && (e.OnExit? ==> key.OnExit?)
    ensures Linked(m, env, RegionDispatches(m, env, key, e, 0, c), c, ProcessImpl(m, env, key, e, c).1)
  {
    RegionsLinked(m, env, key, e, 0, false, c);
  }

  lemma InternalLinked<C>(m: Machine, env: Env<C>, e: Event, c: Config<C>)
    requires WellFormed(m) && Valid(m, c)
    ensures Linked(m, env, InternalDispatches(m, env, e, c), c, ProcessInternal(m, env, e, c))
  {
    ImplLinked(m, env, HandlerKey(m, e), e, c);
  }

  lemma {:induction false} LinkedToSame<C>(m: Machine, env: Env<C>, ds: seq<Dispatch<C>>, c: Config<C>,
                                           end: Config<C>, end': Config<C>)
    requires Linked(m, env, ds, c, end) && Same(end, end')
    ensures Linked(m, env, ds, c, end')
    decreases |ds|
  {
    if ds != [] {
      LinkedToSame(m, env, ds[1..], After(m, env, ds[0]), end, end');
    }
  }

  lemma DeferStepLinked<C(!new)>(m: Machine, env: Env<C>, c: Config<C>)
    requires WellFormed(m) && Valid(m, c) && c.w.defer != []
    ensures Linked(m, env, RegionDispatches(m, env, c.w.defer[0], c.w.defer[0], 0, c), c, DeferStep(m, env, c).1)
  {
    var e := c.w.defer[0];
    ImplLinked(m, env, e, e, c);
    LinkedToSame(m, env, RegionDispatches(m, env, e, e, 0, c), c,
                 ProcessImpl(m, env, e, e, c).1, DeferStep(m, env, c).1);
  }

  lemma QueueStepLinked<C(!new)>(m: Machine, env: Env<C>, c: Config<C>)
    requires WellFormed(m) && Valid(m, c) && c.w.process != []
    ensures Linked(m, env, RegionDispatches(m, env, c.w.process[0], c.w.process[0], 0, c), c, QueueStep(m, env, c))
  {
    var e := c.w.process[0];
    ImplLinked(m, env, e, e, c);
    LinkedToSame(m, env, RegionDispatches(m, env, e, e, 0, c), c, ProcessImpl(m, env, e, e, c).1, QueueStep(m, env, c));
  }

  ghost predicate DeferIsLinked<C(!new)>(m: Machine, env: Env<C>, size: nat, c: Config<C>)
    requires WellFormed(m) && Valid(m, c) && size <= |c.w.defer|
  {
    Linked(m, env, DeferDispatches(m, env, size, c), c, DrainDefer(m, env, size, c).c)
  }

  /** One round, then the rest, is the drain. */
  lemma DeferLinkedMore<C(!new)>(m: Machine, env: Env<C>, size: nat, c: Config<C>)
    requires WellFormed(m) && Valid(m, c) && 0 < size <= |c.w.defer| && DeferStep(m, env, c).0
    requires DeferIsLinked(m, env, size - 1, DeferStep(m, env, c).1)
    ensures DeferIsLinked(m, env, size, c)
  {
    var next := DeferStep(m, env, c).1;
    DrainDeferUnfold(m, env, size, c);
    DeferStepLinked(m, env, c);
    LinkedConcat(m, env, RegionDispatches(m, env, c.w.defer[0], c.w.defer[0], 0, c),
                 DeferDispatches(m, env, size - 1, next), c, next, DrainDefer(m, env, size - 1, next).c);
  }

  lemma DeferLinkedNone<C(!new)>(m: Machine, env: Env<C>, c: Config<C>)
    requires WellFormed(m) && Valid(m, c)
    ensures DeferIsLinked(m, env, 0, c)
  {
  }

  lemma DeferLinkedOnce<C(!new)>(m: Machine, env: Env<C>, size: nat, c: Config<C>)
    requires WellFormed(m) && Valid(m, c) && 0 < size <= |c.w.defer| && !DeferStep(m, env, c).0
    ensures DeferIsLinked(m, env, size, c)
  {
    DrainDeferUnfold(m, env, size, c);
    DeferStepLinked(m, env, c);
    var first := RegionDispatches(m, env, c.w.defer[0], c.w.defer[0], 0, c);
    assert DeferDispatches(m, env, size, c) == first + [] == first;
  }

  lemma {:induction false} DeferLinked<C(!new)>(m: Machine, env: Env<C>, size: nat, c: Config<C>)
    requires WellFormed(m) && Valid(m, c) && size <= |c.w.defer|
    ensures DeferIsLinked(m, env, size, c)
    decreases size
  {
    if size == 0 {
      DeferLinkedNone(m, env, c);
    } else if DeferStep(m, env, c).0 {
      DeferLinked(m, env, size - 1, DeferStep(m, env, c).1);
      DeferLinkedMore(m, env, size, c);
    } else {
      DeferLinkedOnce(m, env, size, c);
    }
  }

  ghost predicate QueueIsLinked<C(!new)>(m: Machine, env: Env<C>, rounds: nat, c: Config<C>)
    requires WellFormed(m) && Valid(m, c)
  {
    Linked(m, env, QueueDispatches(m, env, rounds, c), c, DrainQueue(m, env, rounds, c).c)
  }

  lemma QueueLinkedMore<C(!new)>(m: Machine, env: Env<C>, rounds: nat, c: Config<C>)
    requires WellFormed(m) && Valid(m, c) && rounds > 0 && c.w.process != []
    requires QueueIsLinked(m, env, rounds - 1, QueueStep(m, env, c))
    ensures QueueIsLinked(m, env, rounds, c)
  {
    var next := QueueStep(m, env, c);
    DrainQueueUnfold(m, env, rounds, c);
    QueueStepLinked(m, env, c);
    LinkedConcat(m, env, RegionDispatches(m, env, c.w.process[0], c.w.process[0], 0, c),
                 QueueDispatches(m, env, rounds - 1, next), c, next, DrainQueue(m, env, rounds - 1, next).c);
  }

  lemma QueueLinkedNone<C(!new)>(m: Machine, env: Env<C>, rounds: nat, c: Config<C>)
    requires WellFormed(m) && Valid(m, c) && (rounds == 0 || c.w.process == [])
    ensures QueueIsLinked(m, env, rounds, c)
  {
  }

  lemma {:induction false} QueueLinked<C(!new)>(m: Machine, env: Env<C>, rounds: nat, c: Config<C>)
    requires WellFormed(m) && Valid(m, c)
    ensures QueueIsLinked(m, env, rounds, c)
    decreases rounds
  {
    if rounds > 0 && c.w.process != [] {
      var next := QueueStep(m, env, c);
      QueueLinked(m, env, rounds - 1, next);
      QueueLinkedMore(m, env, rounds, c);
    } else {
      QueueLinkedNone(m, env, rounds, c);
    }
  }

  lemma EventLinked<C(!new)>(m: Machine, env: Env<C>, rounds: nat, e: Event, c: Config<C>)
    requires WellFormed(m) && Valid(m, c)
    ensures Linked(m, env, EventDispatches(m, env, rounds, e, c), c, ProcessEvent(m, env, rounds, e, c).1)
  {
    var (h, c1) := ProcessImpl(m, env, GenericKey(e), e, c);
    var c2 := ProcessInternal(m, env, Anonymous, c1);
    var c3 := if h then DrainDefer(m, env, |c2.w.defer|, c2).c else c2;
    var c4 := DrainQueue(m, env, rounds, c3).c;
    var internal := InternalDispatches(m, env, Anonymous, c1);
    var deferred := if h then DeferDispatches(m, env, |c2.w.defer|, c2) else [];
    var queued := QueueDispatches(m, env, rounds, c3);
    ImplLinked(m, env, GenericKey(e), e, c);
    InternalLinked(m, env, Anonymous, c1);
    DeferLinked(m, env, |c2.w.defer|, c2);
    QueueLinked(m, env, rounds, c3);
    LinkedConcat(m, env, deferred, queued, c2, c3, c4);
    LinkedConcat(m, env, internal, deferred + queued, c1, c2, c4);
    LinkedConcat(m, env, RegionDispatches(m, env, GenericKey(e), e, 0, c), internal + (deferred + queued), c, c1, c4);
  }

  lemma {:induction false} RunFromLinked<C(!new)>(m: Machine, env: Env<C>, rounds: nat, events: seq<Event>,
                                                  c: Config<C>)
    requires WellFormed(m) && Valid(m, c)
    ensures Linked(m, env, RunFromDispatches(m, env, rounds, events, c), c, RunFrom(m, env, rounds, events, c))
    decreases |events|
  {
    if events != [] {
      var next := ProcessEvent(m, env, rounds, events[0], c).1;
      EventLinked(m, env, rounds, events[0], c);
      RunFromLinked(m, env, rounds, events[1..], next);
      LinkedConcat(m, env, EventDispatches(m, env, rounds, events[0], c),
                   RunFromDispatches(m, env, rounds, events[1..], next), c, next, RunFrom(m, env, rounds, events, c));
    }
  }

  lemma LaterLinked<C(!new)>(m: Machine, env: Env<C>, rounds: nat, events: seq<Event>, ctx: C)
    requires WellFormed(m)
    ensures Linked(m, env, LaterDispatches(m, env, rounds, events, ctx), AfterEntries(m, env, ctx),
                   Run(m, env, rounds, events, ctx))
  {
    var c1 := AfterEntries(m, env, ctx);
    var c2 := ProcessInternal(m, env, Anonymous, c1);
    var c3 := DrainQueue(m, env, rounds, c2).c;
    var end := Run(m, env, rounds, events, ctx);
    var queued, rest := QueueDispatches(m, env, rounds, c2), RunFromDispatches(m, env, rounds, events, c3);
    InternalLinked(m, env, Anonymous, c1);
    QueueLinked(m, env, rounds, c2);
    RunFromLinked(m, env, rounds, events, c3);
    LinkedConcat(m, env, queued, rest, c2, c3, end);
    LinkedConcat(m, env, InternalDispatches(m, env, Anonymous, c1), queued + rest, c1, c2, end);
  }

  /** Every run, from construction on, is the sequence of its dispatches. */
  lemma RunIsItsDispatches<C(!new)>(m: Machine, env: Env<C>, rounds: nat, events: seq<Event>, ctx: C)
    requires WellFormed(m)
    ensures Linked(m, env, RunDispatches(m, env, rounds, events, ctx), InitialConfig(m, ctx),
                   Run(m, env, rounds, events, ctx))
  {
    InternalLinked(m, env, OnEntry(Initial), InitialConfig(m, ctx));
    LaterLinked(m, env, rounds, events, ctx);
    LinkedConcat(m, env, EntryDispatches(m, env, ctx), LaterDispatches(m, env, rounds, events, ctx),
                 InitialConfig(m, ctx), AfterEntries(m, env, ctx), Run(m, env, rounds, events, ctx));
  }

  // ----- what a linked sequence says of its parts -----

  lemma {:induction false} LinkedAt<C>(m: Machine, env: Env<C>, ds: seq<Dispatch<C>>, c: Config<C>, c': Config<C>,
                                       i: nat)
    requires Linked(m, env, ds, c, c') && i < |ds|
    ensures Dispatchable(m, ds[i])
    ensures if i == 0 then Same(c, ds[0].before)
            else Dispatchable(m, ds[i - 1]) && Same(After(m, env, ds[i - 1]), ds[i].before)
    decreases |ds|
  {
    if i > 0 {
      LinkedAt(m, env, ds[1..], After(m, env, ds[0]), c', i - 1);
      if i > 1 {
        assert ds[1..][i - 2] == ds[i - 1];
      }
    }
  }

  /** What every dispatch keeps of regions, traces and context holds at every dispatch and at the end. */
  lemma {:induction false} LinkedKeeps<C(!new)>(m: Machine, env: Env<C>, ds: seq<Dispatch<C>>, c: Config<C>,
                                                c': Config<C>, P: (seq<nat>, seq<seq<Obs>>, C) -> bool)
    requires Linked(m, env, ds, c, c') && P(c.regions, c.traces, c.w.ctx)
    requires forall d {:trigger After(m, env, d)} ::
               Dispatchable(m, d) && P(d.before.regions, d.before.traces, d.before.w.ctx) ==>
                 P(After(m, env, d).regions, After(m, env, d).traces, After(m, env, d).w.ctx)
    ensures P(c'.regions, c'.traces, c'.w.ctx)
    ensures forall i :: 0 <= i < |ds| ==> P(ds[i].before.regions, ds[i].before.traces, ds[i].before.w.ctx)
    decreases |ds|
  {
    if ds != [] {
      LinkedKeeps(m, env, ds[1..], After(m, env, ds[0]), c', P);
      forall i | 0 <= i < |ds| ensures P(ds[i].before.regions, ds[i].before.traces, ds[i].before.w.ctx) {
        if i > 0 {
          assert ds[i] == ds[1..][i - 1];
        }
      }
    }
  }
}

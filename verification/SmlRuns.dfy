/**
 Laws of whole runs, from laws of one dispatch: the current states stay reachable, and the
 trace of every region is a chain of entries and exits, exactly as long as no entry or exit
 event is sent to the machine as an event of its own.
 */
module SmlRuns {
  import opened SmlTable
  import opened SmlEngine
  import opened SmlSteps
  import opened SmlTrace

  // ----- reachable states -----

  predicate Reachable(m: Machine, s: State) {
    s in InitialStates(m.table) || exists i :: 0 <= i < |m.table| && m.table[i].dst == s && s != Internal
  }

  lemma {:induction false} ExecuteRowsReach<C>(m: Machine, env: Env<C>, rows: seq<Row>, e: Event, cur: nat, w: World<C>)
    requires WellFormed(m) && ValidId(m, cur) && rows != [] && forall row :: row in rows ==> row in m.table
    requires Reachable(m, States(m.table)[cur])
    ensures Reachable(m, States(m.table)[ExecuteRows(m, env, rows, e, cur, w).cur])
    decreases |rows|
  {
    if GuardHolds(env, rows[0], e, w) {
      TargetIsState(m, rows[0]);
    } else if |rows| > 1 {
      ExecuteRowsReach(m, env, rows[1..], e, cur, w);
    }
  }

  lemma UnexpectedStepReaches<C>(m: Machine, env: Env<C>, e: Event, cur: nat, w: World<C>)
    requires WellFormed(m) && ValidId(m, cur) && Reachable(m, States(m.table)[cur])
    ensures Reachable(m, States(m.table)[UnexpectedStep(m, env, e, cur, w).cur])
  {
    var s := States(m.table)[cur];
    FoundRows(m, Unexpected(e), s);
    if m.Find(Unexpected(e), s).Found? {
      ExecuteRowsReach(m, env, m.Find(Unexpected(e), s).rows, Unexpected(e), cur, w);
    }
  }

  lemma SubThenRowsReach<C>(m: Machine, env: Env<C>, k: nat, rows: seq<Row>, e: Event, cur: nat, w: World<C>)
    requires WellFormed(m) && ValidId(m, cur) && rows != [] && forall row :: row in rows ==> row in m.table
    requires Reachable(m, States(m.table)[cur])
    ensures Reachable(m, States(m.table)[SubThenRows(m, env, k, rows, e, cur, w).cur])
  {
    ExecuteRowsReach(m, env, rows, e, cur, SubWorld(env, k, e, w));
  }

  lemma FoundReaches<C>(m: Machine, env: Env<C>, key: Event, e: Event, cur: nat, w: World<C>)
    requires WellFormed(m) && ValidId(m, cur) && Reachable(m, States(m.table)[cur])
    requires m.Find(key, States(m.table)[cur]).Found?
    ensures Reachable(m, States(m.table)[Step(m, env, key, e, cur, w).cur])
  {
    var s := States(m.table)[cur];
    FoundRows(m, key, s);
    var rows := m.Find(key, s).rows;
    ExecuteRowsReach(m, env, rows, e, cur, w);
    if s.Sub? {
      SubThenRowsReach(m, env, s.k, rows, e, cur, w);
    }
  }

  lemma StepReaches<C>(m: Machine, env: Env<C>, key: Event, e: Event, cur: nat, w: World<C>)
    requires WellFormed(m) && ValidId(m, cur) && Reachable(m, States(m.table)[cur])
    ensures Reachable(m, States(m.table)[Step(m, env, key, e, cur, w).cur])
  {
    match m.Find(key, States(m.table)[cur])
    case Unmapped => UnexpectedStepReaches(m, env, e, cur, w);
    case Found(_) => FoundReaches(m, env, key, e, cur, w);
  }

  ghost predicate AllReachable(m: Machine, regions: seq<nat>) {
    forall r :: 0 <= r < |regions| ==> regions[r] < |States(m.table)| && Reachable(m, States(m.table)[regions[r]])
  }

  lemma DispatchReaches<C>(m: Machine, env: Env<C>, d: Dispatch<C>)
    requires Dispatchable(m, d) && AllReachable(m, d.before.regions)
    ensures AllReachable(m, After(m, env, d).regions)
  {
    StepReaches(m, env, d.key, d.e, d.before.regions[d.r], d.before.w);
  }

  lemma StartReachable<C>(m: Machine, ctx: C)
    requires WellFormed(m)
    ensures AllReachable(m, InitialConfig(m, ctx).regions)
  {
    InitialIdsValid(m);
  }

  /** In every run every region's id names an initial state or the target of an external row. */
  lemma RunStaysReachable<C(!new)>(m: Machine, env: Env<C>, rounds: nat, events: seq<Event>, ctx: C)
    requires WellFormed(m)
    ensures AllReachable(m, Run(m, env, rounds, events, ctx).regions)
  {
    var P := (regions: seq<nat>, traces: seq<seq<Obs>>, x: C) => AllReachable(m, regions);
    forall d | Dispatchable(m, d) && AllReachable(m, d.before.regions)
      ensures AllReachable(m, After(m, env, d).regions)
    {
      DispatchReaches(m, env, d);
    }
    StartReachable(m, ctx);
    RunIsItsDispatches(m, env, rounds, events, ctx);
    LinkedKeeps(m, env, RunDispatches(m, env, rounds, events, ctx), InitialConfig(m, ctx),
                Run(m, env, rounds, events, ctx), P);
  }

  // ----- the start of a run: one entry per region -----

  /** The trace is a chain of entries and exits that ends in the region's current state. */
  ghost predicate Chain(m: Machine, cur: nat, trace: seq<Obs>) {
    cur < |States(m.table)| && Follow(Fresh, trace) == In(States(m.table)[cur])
  }

  lemma EntryStep<C>(m: Machine, env: Env<C>, key: Event, e: Event, cur: nat, w: World<C>)
    requires WellFormed(m) && Watched(m) && ValidId(m, cur) && key.OnEntry? && e.OnEntry?
    ensures var out := Step(m, env, key, e, cur, w);
            Chain(m, out.cur, [] + (Announced(e, States(m.table)[cur]) + out.obs))
  {
    var s, out := States(m.table)[cur], Step(m, env, key, e, cur, w);
    StepFollows(m, env, key, e, cur, w);
    FollowOne(Fresh, Entered(s));
    FollowConcat(Fresh, [Entered(s)], out.obs);
    assert [] + ([Entered(s)] + out.obs) == [Entered(s)] + out.obs;
  }

  ghost predicate AllChained<C>(m: Machine, c: Config<C>) {
    |c.regions| == |c.traces| && forall i :: 0 <= i < |c.regions| ==> Chain(m, c.regions[i], c.traces[i])
  }

  lemma EntryRegion<C(!new)>(m: Machine, env: Env<C>, key: Event, e: Event, r: nat, c: Config<C>)
    requires WellFormed(m) && Watched(m) && Valid(m, c) && r < |c.regions| && key.OnEntry? && e.OnEntry?
    requires forall i :: r <= i < |c.regions| ==> c.traces[i] == []
    requires forall i :: 0 <= i < r ==> Chain(m, c.regions[i], c.traces[i])
    ensures var c' := StepRegion(m, env, key, e, r, c).1;
            && (forall i :: r + 1 <= i < |c'.regions| ==> c'.traces[i] == [])
            && (forall i :: 0 <= i < r + 1 ==> Chain(m, c'.regions[i], c'.traces[i]))
  {
    EntryStep(m, env, key, e, c.regions[r], c.w);
    var c' := StepRegion(m, env, key, e, r, c).1;
    forall i | 0 <= i < r + 1 ensures Chain(m, c'.regions[i], c'.traces[i]) {
      if i < r {
        assert c'.regions[i] == c.regions[i] && c'.traces[i] == c.traces[i];
      }
    }
  }

  /** The entry event of `start` opens the chain of every region the loop passes. */
  lemma {:induction false} EntryBroadcast<C(!new)>(m: Machine, env: Env<C>, key: Event, e: Event, r: nat, handled: bool,
                                                   c: Config<C>)
    requires WellFormed(m) && Watched(m) && Valid(m, c) && r <= |c.regions| && key.OnEntry? && e.OnEntry?
    requires forall i :: r <= i < |c.regions| ==> c.traces[i] == []
    requires forall i :: 0 <= i < r ==> Chain(m, c.regions[i], c.traces[i])
    ensures AllChained(m, StepRegions(m, env, key, e, r, handled, c).1)
    decreases |c.regions| - r
  {
    if r < |c.regions| {
      var (h, c') := StepRegion(m, env, key, e, r, c);
      StepRegionsUnfold(m, env, key, e, r, handled, c);
      EntryRegion(m, env, key, e, r, c);
      EntryBroadcast(m, env, key, e, r + 1, h || (m.anyRegion && handled), c');
    }
  }

  lemma StartIsChained<C(!new)>(m: Machine, env: Env<C>, ctx: C)
    requires WellFormed(m) && Watched(m)
    ensures AllChained(m, AfterEntries(m, env, ctx))
  {
    WatchedHandlers(m, OnEntry(Initial));
    var c := InitialConfig(m, ctx);
    var key := HandlerKey(m, OnEntry(Initial));
    EntryBroadcast(m, env, key, OnEntry(Initial), 0, false, c);
    assert ProcessInternal(m, env, OnEntry(Initial), c) == StepRegions(m, env, key, OnEntry(Initial), 0, false, c).1;
  }

  // ----- an entry or exit event breaks the chain for good -----

  /** No continuation of the run brings the trace back to the inside of a state. */
  predicate Lost(g: Stage) {
    g.Leaving? || g.Broken?
  }

  lemma {:induction false} BrokenStays(obs: seq<Obs>)
    ensures Follow(Broken, obs) == Broken
    decreases |obs|
  {
    if obs != [] {
      BrokenStays(obs[1..]);
    }
  }

  lemma PiecesLost<C>(env: Env<C>, row: Row, e: Event, w: World<C>, g: Stage)
    requires Lost(g)
    ensures Lost(Follow(g, GuardObs(env, row, e, w))) && Lost(Follow(g, ActionObs(row, e)))
  {
    FollowOne(g, Ran(row, e));
    FollowOne(g, Guarded(row, e, GuardHolds(env, row, e, w)));
  }

  /** With an exit handler, an exit is observed, which has no place after another exit. */
  lemma ExitBreaks<C>(m: Machine, env: Env<C>, e: Event, cur: nat, w: World<C>, g: Stage)
    requires WellFormed(m) && Watched(m) && ValidId(m, cur) && Lost(g)
    ensures Follow(g, HandlerIf(m, env, OnExit(e), cur, w).1) == Broken
  {
    WatchedHandlers(m, OnExit(e));
    var obs := HandlerIf(m, env, OnExit(e), cur, w).1;
    assert obs[0] == Exited(States(m.table)[cur]);
    BrokenStays(obs[1..]);
  }

  lemma FireLost<C>(m: Machine, env: Env<C>, row: Row, e: Event, cur: nat, w: World<C>, g: Stage)
    requires WellFormed(m) && Watched(m) && ValidId(m, cur) && row in m.table && Lost(g)
    ensures Lost(Follow(g, Fire(m, env, row, e, cur, w).obs))
  {
    if row.dst == Internal {
      PiecesLost(env, row, e, w, g);
    } else {
      var w3, cur', o1, o4 := FireObs(m, env, row, e, cur, w);
      ExitBreaks(m, env, e, cur, w, g);
      BrokenPrefix(g, o1, [Changed(row.src, row.dst)] + ActionObs(row, e), o4);
    }
  }

  lemma BrokenPrefix(g: Stage, o1: seq<Obs>, o2: seq<Obs>, o3: seq<Obs>)
    requires Follow(g, o1) == Broken
    ensures Follow(g, o1 + o2 + o3) == Broken
  {
    FollowConcat(g, o1, o2);
    BrokenStays(o2);
    FollowConcat(g, o1 + o2, o3);
    BrokenStays(o3);
  }

  lemma {:induction false} ExecuteRowsLost<C>(m: Machine, env: Env<C>, rows: seq<Row>, e: Event, cur: nat, w: World<C>,
                                              g: Stage)
    requires WellFormed(m) && Watched(m) && ValidId(m, cur) && Lost(g)
    requires rows != [] && forall row :: row in rows ==> row in m.table
    ensures Lost(Follow(g, ExecuteRows(m, env, rows, e, cur, w).obs))
    decreases |rows|
  {
    var o := GuardObs(env, rows[0], e, w);
    var g' := Follow(g, o);
    PiecesLost(env, rows[0], e, w, g);
    if GuardHolds(env, rows[0], e, w) {
      FireLost(m, env, rows[0], e, cur, w, g');
      FollowConcat(g, o, Fire(m, env, rows[0], e, cur, w).obs);
    } else if |rows| > 1 {
      ExecuteRowsLost(m, env, rows[1..], e, cur, w, g');
      FollowConcat(g, o, ExecuteRows(m, env, rows[1..], e, cur, w).obs);
    }
  }

  lemma UnexpectedStepLost<C>(m: Machine, env: Env<C>, e: Event, cur: nat, w: World<C>, g: Stage)
    requires WellFormed(m) && Watched(m) && ValidId(m, cur) && Lost(g)
    ensures Lost(Follow(g, UnexpectedStep(m, env, e, cur, w).obs))
  {
    var s := States(m.table)[cur];
    FoundRows(m, Unexpected(e), s);
    if m.Find(Unexpected(e), s).Found? {
      ExecuteRowsLost(m, env, m.Find(Unexpected(e), s).rows, Unexpected(e), cur, w, g);
    }
  }

  lemma StepLost<C>(m: Machine, env: Env<C>, key: Event, e: Event, cur: nat, w: World<C>, g: Stage)
    requires WellFormed(m) && Watched(m) && ValidId(m, cur) && Lost(g)
    ensures Lost(Follow(g, Step(m, env, key, e, cur, w).obs))
  {
    match m.Find(key, States(m.table)[cur])
    case Unmapped =>
      if States(m.table)[cur].Sub? {
        OfferLost(env, States(m.table)[cur].k, e, w, g);
      } else {
        UnexpectedStepLost(m, env, e, cur, w, g);
      }
    case Found(_) => FoundLost(m, env, key, e, cur, w, g);
  }

  lemma FoundLost<C>(m: Machine, env: Env<C>, key: Event, e: Event, cur: nat, w: World<C>, g: Stage)
    requires WellFormed(m) && Watched(m) && ValidId(m, cur) && Lost(g) && m.Find(key, States(m.table)[cur]).Found?
    ensures Lost(Follow(g, Step(m, env, key, e, cur, w).obs))
  {
    var s := States(m.table)[cur];
    FoundRows(m, key, s);
    var rows := m.Find(key, s).rows;
    var out := ExecuteRows(m, env, rows, e, cur, w);
    ExecuteRowsLost(m, env, rows, e, cur, w, g);
    if s.Sub? {
      SubThenRowsLost(m, env, s.k, rows, e, cur, w, g);
      OfferLost(env, s.k, e, out.w, Follow(g, out.obs));
      FollowConcat(g, out.obs, OfferObs(env, s.k, e, out.w));
    }
  }

  lemma SubThenRowsLost<C>(m: Machine, env: Env<C>, k: nat, rows: seq<Row>, e: Event, cur: nat, w: World<C>, g: Stage)
    requires WellFormed(m) && Watched(m) && ValidId(m, cur) && Lost(g)
    requires rows != [] && forall row :: row in rows ==> row in m.table
    ensures Lost(Follow(g, SubThenRows(m, env, k, rows, e, cur, w).obs))
  {
    var offer := OfferObs(env, k, e, w);
    OfferLost(env, k, e, w, g);
    ExecuteRowsLost(m, env, rows, e, cur, SubWorld(env, k, e, w), Follow(g, offer));
    FollowConcat(g, offer, ExecuteRows(m, env, rows, e, cur, SubWorld(env, k, e, w)).obs);
  }

  lemma OfferLost<C>(env: Env<C>, k: nat, e: Event, w: World<C>, g: Stage)
    requires Lost(g)
    ensures Lost(Follow(g, OfferObs(env, k, e, w)))
  {
    FollowOne(g, OfferObs(env, k, e, w)[0]);
  }

  /** The stage of region `r`. */
  function StageOf<C>(c: Config<C>, r: nat): Stage
    requires r < |c.traces|
  {
    Follow(Fresh, c.traces[r])
  }

  lemma DispatchTrace<C>(m: Machine, env: Env<C>, d: Dispatch<C>)
    requires Dispatchable(m, d)
    ensures StageOf(After(m, env, d), d.r)
         == Follow(Follow(StageOf(d.before, d.r), Announced(d.e, Source(m, d))),
                   Step(m, env, d.key, d.e, d.before.regions[d.r], d.before.w).obs)
  {
    var a, o := Announced(d.e, Source(m, d)), Step(m, env, d.key, d.e, d.before.regions[d.r], d.before.w).obs;
    FollowConcat(Fresh, d.before.traces[d.r], a + o);
    FollowConcat(StageOf(d.before, d.r), a, o);
  }

  lemma AnnouncedLost(e: Event, s: State, g: Stage)
    requires Lost(g) || (g == In(s) && !Ordinary(e))
    ensures Lost(Follow(g, Announced(e, s)))
  {
    FollowOne(g, Entered(s));
    FollowOne(g, Exited(s));
  }

  /** A lost region stays lost, whatever is dispatched. */
  lemma {:induction false} LostStays<C>(m: Machine, env: Env<C>, ds: seq<Dispatch<C>>, c: Config<C>, c': Config<C>,
                                        r: nat)
    requires WellFormed(m) && Watched(m) && Linked(m, env, ds, c, c') && r < |c.traces| && Lost(StageOf(c, r))
    ensures r < |c'.traces| && Lost(StageOf(c', r))
    decreases |ds|
  {
    if ds != [] {
      var d := ds[0];
      if d.r == r {
        var g := Follow(StageOf(d.before, r), Announced(d.e, Source(m, d)));
        AnnouncedLost(d.e, Source(m, d), StageOf(d.before, r));
        StepLost(m, env, d.key, d.e, d.before.regions[r], d.before.w, g);
        DispatchTrace(m, env, d);
      }
      LostStays(m, env, ds[1..], After(m, env, d), c', r);
    }
  }

  lemma DispatchChains<C>(m: Machine, env: Env<C>, d: Dispatch<C>)
    requires Dispatchable(m, d) && Watched(m) && AllChained(m, d.before)
    ensures Ordinary(d.e) ==> AllChained(m, After(m, env, d))
    ensures !Ordinary(d.e) ==> Lost(StageOf(After(m, env, d), d.r))
  {
    var s, cur := Source(m, d), d.before.regions[d.r];
    assert StageOf(d.before, d.r) == In(s);
    DispatchTrace(m, env, d);
    if Ordinary(d.e) {
      StepFollows(m, env, d.key, d.e, cur, d.before.w);
    } else {
      AnnouncedLost(d.e, s, In(s));
      StepLost(m, env, d.key, d.e, cur, d.before.w, Follow(In(s), Announced(d.e, s)));
    }
  }

  /** The chain survives a sequence of dispatches exactly when all their events are ordinary. */
  lemma {:induction false} ChainedExactly<C>(m: Machine, env: Env<C>, ds: seq<Dispatch<C>>, c: Config<C>, c': Config<C>)
    requires WellFormed(m) && Watched(m) && Linked(m, env, ds, c, c') && AllChained(m, c)
    ensures AllChained(m, c') <==> forall i :: 0 <= i < |ds| ==> Ordinary(ds[i].e)
    decreases |ds|
  {
    if ds != [] {
      var d := ds[0];
      DispatchChains(m, env, d);
      if Ordinary(d.e) {
        ChainedExactly(m, env, ds[1..], After(m, env, d), c');
        assert forall i :: 0 < i < |ds| ==> ds[i] == ds[1..][i - 1];
      } else {
        LostStays(m, env, ds[1..], After(m, env, d), c', d.r);
      }
    }
  }

  /**
   The chain law, for every machine with untargeted entry and exit handlers, every meaning of
   its guards and actions, every list of events and every number of queue rounds: the traces
   are chains if and only if every event dispatched after the entry events of `start` is
   ordinary.
   */
  lemma RunIsChainedExactlyWhen<C(!new)>(m: Machine, env: Env<C>, rounds: nat, events: seq<Event>, ctx: C)
    requires WellFormed(m) && Watched(m)
    ensures var ds := LaterDispatches(m, env, rounds, events, ctx);
            AllChained(m, Run(m, env, rounds, events, ctx)) <==> forall i :: 0 <= i < |ds| ==> Ordinary(ds[i].e)
  {
    StartIsChained(m, env, ctx);
    LaterLinked(m, env, rounds, events, ctx);
    ChainedExactly(m, env, LaterDispatches(m, env, rounds, events, ctx), AfterEntries(m, env, ctx),
                   Run(m, env, rounds, events, ctx));
  }

  // ----- runs of ordinary events -----

  ghost predicate Ordinary(e: Event) {
    !e.OnEntry? && !e.OnExit?
  }

  ghost predicate AllOrdinary(es: seq<Event>) {
    forall i :: 0 <= i < |es| ==> Ordinary(es[i])
  }

  /** Actions push no entry or exit events to the queues. */
  ghost predicate PushesOrdinary<C(!new)>(env: Env<C>) {
    forall a, e, c :: AllOrdinary(env.action(a, e, c).deferred) && AllOrdinary(env.action(a, e, c).queued)
  }

  ghost predicate QueuesOrdinary<C>(w: World<C>) {
    AllOrdinary(w.defer) && AllOrdinary(w.process)
  }

  ghost predicate DispatchesOrdinary<C>(ds: seq<Dispatch<C>>) {
    forall i :: 0 <= i < |ds| ==> Ordinary(ds[i].e)
  }

  lemma ImplKeepsOrdinary<C(!new)>(m: Machine, env: Env<C>, key: Event, e: Event, c: Config<C>)
    requires WellFormed(m) && Valid(m, c) && PushesOrdinary(env) && QueuesOrdinary(c.w)
    ensures QueuesOrdinary(ProcessImpl(m, env, key, e, c).1.w)
  {
    StepRegionsStable(m, env, key, e, 0, false, c, w => QueuesOrdinary(w), (k, w) => true);
  }

  lemma {:induction false} RegionsOrdinary<C>(m: Machine, env: Env<C>, key: Event, e: Event, r: nat, c: Config<C>)
    requires WellFormed(m) && Valid(m, c) && r <= |c.regions| && Ordinary(e)
    ensures DispatchesOrdinary(RegionDispatches(m, env, key, e, r, c))
    decreases |c.regions| - r
  {
    if r < |c.regions| {
      RegionsOrdinary(m, env, key, e, r + 1, StepRegion(m, env, key, e, r, c).1);
    }
  }

  lemma OrdinaryTail(es: seq<Event>)
    requires AllOrdinary(es) && es != []
    ensures AllOrdinary(es[1..])
  {
  }

  lemma DeferStepOrdinary<C(!new)>(m: Machine, env: Env<C>, c: Config<C>)
    requires WellFormed(m) && Valid(m, c) && PushesOrdinary(env) && QueuesOrdinary(c.w) && c.w.defer != []
    ensures QueuesOrdinary(DeferStep(m, env, c).1.w)
  {
    ImplKeepsOrdinary(m, env, c.w.defer[0], c.w.defer[0], c);
    ImplOnlyPushes(m, env, c.w.defer[0], c.w.defer[0], c);
    OrdinaryTail(ProcessImpl(m, env, c.w.defer[0], c.w.defer[0], c).1.w.defer);
  }

  lemma QueueStepOrdinary<C(!new)>(m: Machine, env: Env<C>, c: Config<C>)
    requires WellFormed(m) && Valid(m, c) && PushesOrdinary(env) && QueuesOrdinary(c.w) && c.w.process != []
    ensures QueuesOrdinary(QueueStep(m, env, c).w)
  {
    ImplKeepsOrdinary(m, env, c.w.process[0], c.w.process[0], c);
    ImplOnlyPushes(m, env, c.w.process[0], c.w.process[0], c);
    OrdinaryTail(ProcessImpl(m, env, c.w.process[0], c.w.process[0], c).1.w.process);
  }

  lemma OrdinaryConcat<C>(a: seq<Dispatch<C>>, b: seq<Dispatch<C>>)
    requires DispatchesOrdinary(a) && DispatchesOrdinary(b)
    ensures DispatchesOrdinary(a + b)
  {
  }

  ghost predicate DeferKeepsOrdinary<C(!new)>(m: Machine, env: Env<C>, size: nat, c: Config<C>)
    requires WellFormed(m) && Valid(m, c) && size <= |c.w.defer|
  {
    DispatchesOrdinary(DeferDispatches(m, env, size, c)) && QueuesOrdinary(DrainDefer(m, env, size, c).c.w)
  }

  lemma DeferOrdinaryMore<C(!new)>(m: Machine, env: Env<C>, size: nat, c: Config<C>)
    requires WellFormed(m) && Valid(m, c) && PushesOrdinary(env) && QueuesOrdinary(c.w) && 0 < size <= |c.w.defer|
    requires DeferStep(m, env, c).0 ==> DeferKeepsOrdinary(m, env, size - 1, DeferStep(m, env, c).1)
    ensures DeferKeepsOrdinary(m, env, size, c)
  {
    var (h, c') := DeferStep(m, env, c);
    DeferStepOrdinary(m, env, c);
    RegionsOrdinary(m, env, c.w.defer[0], c.w.defer[0], 0, c);
    DrainDeferUnfold(m, env, size, c);
    OrdinaryConcat(RegionDispatches(m, env, c.w.defer[0], c.w.defer[0], 0, c),
                   if h then DeferDispatches(m, env, size - 1, c') else []);
  }

  lemma {:induction false} DeferOrdinary<C(!new)>(m: Machine, env: Env<C>, size: nat, c: Config<C>)
    requires WellFormed(m) && Valid(m, c) && PushesOrdinary(env) && QueuesOrdinary(c.w) && size <= |c.w.defer|
    ensures DeferKeepsOrdinary(m, env, size, c)
    decreases size
  {
    if size == 0 {
      DeferOrdinaryNone(m, env, c);
    } else {
      if DeferStep(m, env, c).0 {
        DeferStepOrdinary(m, env, c);
        DeferOrdinary(m, env, size - 1, DeferStep(m, env, c).1);
      }
      DeferOrdinaryMore(m, env, size, c);
    }
  }

  lemma DeferOrdinaryNone<C(!new)>(m: Machine, env: Env<C>, c: Config<C>)
    requires WellFormed(m) && Valid(m, c) && QueuesOrdinary(c.w)
    ensures DeferKeepsOrdinary(m, env, 0, c)
  {
  }

  ghost predicate QueueKeepsOrdinary<C(!new)>(m: Machine, env: Env<C>, rounds: nat, c: Config<C>)
    requires WellFormed(m) && Valid(m, c)
  {
    DispatchesOrdinary(QueueDispatches(m, env, rounds, c)) && QueuesOrdinary(DrainQueue(m, env, rounds, c).c.w)
  }

  lemma QueueOrdinaryMore<C(!new)>(m: Machine, env: Env<C>, rounds: nat, c: Config<C>)
    requires WellFormed(m) && Valid(m, c) && QueuesOrdinary(c.w) && rounds > 0 && c.w.process != []
    requires QueueKeepsOrdinary(m, env, rounds - 1, QueueStep(m, env, c))
    ensures QueueKeepsOrdinary(m, env, rounds, c)
  {
    RegionsOrdinary(m, env, c.w.process[0], c.w.process[0], 0, c);
    DrainQueueUnfold(m, env, rounds, c);
    OrdinaryConcat(RegionDispatches(m, env, c.w.process[0], c.w.process[0], 0, c),
                   QueueDispatches(m, env, rounds - 1, QueueStep(m, env, c)));
  }

  lemma {:induction false} QueueOrdinary<C(!new)>(m: Machine, env: Env<C>, rounds: nat, c: Config<C>)
    requires WellFormed(m) && Valid(m, c) && PushesOrdinary(env) && QueuesOrdinary(c.w)
    ensures QueueKeepsOrdinary(m, env, rounds, c)
    decreases rounds
  {
    if rounds > 0 && c.w.process != [] {
      QueueStepOrdinary(m, env, c);
      QueueOrdinary(m, env, rounds - 1, QueueStep(m, env, c));
      QueueOrdinaryMore(m, env, rounds, c);
    }
  }

  lemma InternalOrdinary<C(!new)>(m: Machine, env: Env<C>, c: Config<C>)
    requires WellFormed(m) && Valid(m, c) && PushesOrdinary(env) && QueuesOrdinary(c.w)
    ensures DispatchesOrdinary(InternalDispatches(m, env, Anonymous, c))
    ensures QueuesOrdinary(ProcessInternal(m, env, Anonymous, c).w)
  {
    RegionsOrdinary(m, env, Anonymous, Anonymous, 0, c);
    ImplKeepsOrdinary(m, env, Anonymous, Anonymous, c);
  }

  lemma EventOrdinary<C(!new)>(m: Machine, env: Env<C>, rounds: nat, e: Event, c: Config<C>)
    requires WellFormed(m) && Valid(m, c) && PushesOrdinary(env) && QueuesOrdinary(c.w) && Ordinary(e)
    ensures DispatchesOrdinary(EventDispatches(m, env, rounds, e, c))
    ensures QueuesOrdinary(ProcessEvent(m, env, rounds, e, c).1.w)
  {
    var (h, c1) := ProcessImpl(m, env, GenericKey(e), e, c);
    var c2 := ProcessInternal(m, env, Anonymous, c1);
    RegionsOrdinary(m, env, GenericKey(e), e, 0, c);
    ImplKeepsOrdinary(m, env, GenericKey(e), e, c);
    InternalOrdinary(m, env, c1);
    DeferOrdinary(m, env, |c2.w.defer|, c2);
    QueueOrdinary(m, env, rounds, if h then DrainDefer(m, env, |c2.w.defer|, c2).c else c2);
  }

  lemma {:induction false} RunFromOrdinary<C(!new)>(m: Machine, env: Env<C>, rounds: nat, events: seq<Event>,
                                                    c: Config<C>)
    requires WellFormed(m) && Valid(m, c) && PushesOrdinary(env) && QueuesOrdinary(c.w) && AllOrdinary(events)
    ensures DispatchesOrdinary(RunFromDispatches(m, env, rounds, events, c))
    decreases |events|
  {
    if events != [] {
      EventOrdinary(m, env, rounds, events[0], c);
      RunFromOrdinary(m, env, rounds, events[1..], ProcessEvent(m, env, rounds, events[0], c).1);
    }
  }

  lemma LaterOrdinary<C(!new)>(m: Machine, env: Env<C>, rounds: nat, events: seq<Event>, ctx: C)
    requires WellFormed(m) && PushesOrdinary(env) && AllOrdinary(events)
    ensures DispatchesOrdinary(LaterDispatches(m, env, rounds, events, ctx))
  {
    var c1 := AfterEntries(m, env, ctx);
    var c2 := ProcessInternal(m, env, Anonymous, c1);
    ImplKeepsOrdinary(m, env, HandlerKey(m, OnEntry(Initial)), OnEntry(Initial), InitialConfig(m, ctx));
    InternalOrdinary(m, env, c1);
    QueueOrdinary(m, env, rounds, c2);
    RunFromOrdinary(m, env, rounds, events, DrainQueue(m, env, rounds, c2).c);
  }

  ghost predicate Offers<C(!new)>(ds: seq<Dispatch<C>>, e: Event) {
    exists d :: d in ds && d.e == e
  }

  lemma OffersConcat<C(!new)>(a: seq<Dispatch<C>>, b: seq<Dispatch<C>>, e: Event)
    requires Offers(a, e) || Offers(b, e)
    ensures Offers(a + b, e)
  {
    if Offers(a, e) {
      var d :| d in a && d.e == e;
      assert d in a + b;
    } else {
      var d :| d in b && d.e == e;
      assert d in a + b;
    }
  }

  lemma OffersExtraordinary<C(!new)>(ds: seq<Dispatch<C>>, e: Event)
    requires Offers(ds, e) && !Ordinary(e)
    ensures !DispatchesOrdinary(ds)
  {
  }

  lemma RegionsOffer<C(!new)>(m: Machine, env: Env<C>, key: Event, e: Event, c: Config<C>)
    requires WellFormed(m) && Valid(m, c)
    ensures Offers(RegionDispatches(m, env, key, e, 0, c), e)
  {
    assert RegionDispatches(m, env, key, e, 0, c)[0].e == e;
  }

  /** Every event sent is dispatched, whatever happens before it. */
  lemma EventIsDispatched<C(!new)>(m: Machine, env: Env<C>, rounds: nat, e: Event, c: Config<C>)
    requires WellFormed(m) && Valid(m, c)
    ensures Offers(EventDispatches(m, env, rounds, e, c), e)
  {
    var (h, c1) := ProcessImpl(m, env, GenericKey(e), e, c);
    var c2 := ProcessInternal(m, env, Anonymous, c1);
    var c3 := if h then DrainDefer(m, env, |c2.w.defer|, c2).c else c2;
    RegionsOffer(m, env, GenericKey(e), e, c);
    var deferred := if h then DeferDispatches(m, env, |c2.w.defer|, c2) else [];
    OffersConcat(RegionDispatches(m, env, GenericKey(e), e, 0, c),
                 InternalDispatches(m, env, Anonymous, c1) + (deferred + QueueDispatches(m, env, rounds, c3)), e);
  }

  lemma {:induction false} SentIsDispatched<C(!new)>(m: Machine, env: Env<C>, rounds: nat, events: seq<Event>,
                                                     c: Config<C>, e: Event)
    requires WellFormed(m) && Valid(m, c) && e in events
    ensures Offers(RunFromDispatches(m, env, rounds, events, c), e)
    decreases |events|
  {
    if e == events[0] {
      EventIsDispatched(m, env, rounds, e, c);
    } else {
      SentIsDispatched(m, env, rounds, events[1..], ProcessEvent(m, env, rounds, events[0], c).1, e);
    }
    RunOffers(m, env, rounds, events, c, e);
  }

  lemma RunOffers<C(!new)>(m: Machine, env: Env<C>, rounds: nat, events: seq<Event>, c: Config<C>, e: Event)
    requires WellFormed(m) && Valid(m, c) && events != []
    requires var next := ProcessEvent(m, env, rounds, events[0], c).1;
             || Offers(EventDispatches(m, env, rounds, events[0], c), e)
             || Offers(RunFromDispatches(m, env, rounds, events[1..], next), e)
    ensures Offers(RunFromDispatches(m, env, rounds, events, c), e)
  {
    var next := ProcessEvent(m, env, rounds, events[0], c).1;
    OffersConcat(EventDispatches(m, env, rounds, events[0], c),
                 RunFromDispatches(m, env, rounds, events[1..], next), e);
  }

  /** What is offered after `start` is offered in the run. */
  lemma LaterOffers<C(!new)>(m: Machine, env: Env<C>, rounds: nat, events: seq<Event>, ctx: C, e: Event)
    requires WellFormed(m)
    requires Offers(RunFromDispatches(m, env, rounds, events, Start(m, env, rounds, InitialConfig(m, ctx))), e)
    ensures Offers(LaterDispatches(m, env, rounds, events, ctx), e)
  {
    var c1 := AfterEntries(m, env, ctx);
    var c2 := ProcessInternal(m, env, Anonymous, c1);
    var c3 := DrainQueue(m, env, rounds, c2).c;
    OffersConcat(QueueDispatches(m, env, rounds, c2), RunFromDispatches(m, env, rounds, events, c3), e);
    OffersConcat(InternalDispatches(m, env, Anonymous, c1),
                 QueueDispatches(m, env, rounds, c2) + RunFromDispatches(m, env, rounds, events, c3), e);
  }

  lemma LaterSent<C(!new)>(m: Machine, env: Env<C>, rounds: nat, events: seq<Event>, ctx: C, e: Event)
    requires WellFormed(m) && e in events && !Ordinary(e)
    ensures !DispatchesOrdinary(LaterDispatches(m, env, rounds, events, ctx))
  {
    SentIsDispatched(m, env, rounds, events, Start(m, env, rounds, InitialConfig(m, ctx)), e);
    LaterOffers(m, env, rounds, events, ctx, e);
    OffersExtraordinary(LaterDispatches(m, env, rounds, events, ctx), e);
  }

  /**
   On the inputs alone: when actions push no entry or exit events, a run is chained if and
   only if no entry or exit event is sent.
   */
  lemma RunIsChained<C(!new)>(m: Machine, env: Env<C>, rounds: nat, events: seq<Event>, ctx: C)
    requires WellFormed(m) && Watched(m) && PushesOrdinary(env)
    ensures AllChained(m, Run(m, env, rounds, events, ctx)) <==> AllOrdinary(events)
  {
    RunIsChainedExactlyWhen(m, env, rounds, events, ctx);
    if AllOrdinary(events) {
      LaterOrdinary(m, env, rounds, events, ctx);
    } else {
      var i: nat :| i < |events| && !Ordinary(events[i]);
      LaterSent(m, env, rounds, events, ctx, events[i]);
    }
  }
}

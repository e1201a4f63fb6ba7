/**
 Nested machines over whole runs of the parent, taken dispatch by dispatch: a nested machine
 changes only when the dispatched region was in its composite state or has just entered it,
 and every entry finds its regions as control last left them, also when the state is left
 and entered again within one event.
 */
module SmlHistory {
  import opened TypeLists
  import opened SmlTable
  import opened SmlEngine
  import opened SmlComposite
  import opened SmlSteps
  import opened SmlNested

  /** Every nested machine is well formed and in a valid configuration. */
  ghost predicate NestValid<C>(machines: seq<Machine>, p: Nest<C>) {
    && |p.subs| == |machines|
    && forall k :: 0 <= k < |machines| ==> WellFormed(machines[k]) && Valid(machines[k], SubConfig(p, k))
  }

  /** The nest as it is constructed: every nested machine in its initial configuration. */
  function InitialNest<C>(machines: seq<Machine>, ctx: C): Nest<C>
    requires forall k :: 0 <= k < |machines| ==> WellFormed(machines[k])
  {
    Nest(ctx,
         seq(|machines|, k requires 0 <= k < |machines| =>
           var c := InitialConfig(machines[k], ctx);
           Nested(c.regions, c.traces, [], [], [], [])),
         [])
  }

  lemma InitialNestValid<C>(machines: seq<Machine>, ctx: C)
    requires forall k :: 0 <= k < |machines| ==> WellFormed(machines[k])
    ensures NestValid(machines, InitialNest(machines, ctx)) && InitialNest(machines, ctx).visits == []
    ensures forall k, r :: 0 <= k < |machines| && 0 <= r < |InitialStates(machines[k].table)| ==>
              States(machines[k].table)[InitialNest(machines, ctx).subs[k].regions[r]]
              == InitialStates(machines[k].table)[r]
  {
    forall k | 0 <= k < |machines| ensures Valid(machines[k], SubConfig(InitialNest(machines, ctx), k)) {
      assert Valid(machines[k], InitialConfig(machines[k], ctx));
    }
  }

  /** Running and entering nested machines keeps them valid. */
  lemma EnterValid<C>(machines: seq<Machine>, k: nat, p: Nest<C>)
    requires NestValid(machines, p)
    ensures NestValid(machines, EnterSub(machines, k, p))
  {
    if k < |machines| {
      var table, p' := machines[k].table, EnterSub(machines, k, p);
      forall r | 0 <= r < |p'.subs[k].regions| ensures ValidId(machines[k], p'.subs[k].regions[r]) {
        UpdateCompositeSpec(table, p.subs[k].regions, r);
        InitialIdsDiffer(table, r, r);
      }
      forall j | 0 <= j < |machines| ensures WellFormed(machines[j]) && Valid(machines[j], SubConfig(p', j)) {
        assert Valid(machines[j], SubConfig(p, j));
      }
    }
  }

  lemma RunValid<C(!new)>(machines: seq<Machine>, env: Env<C>, rounds: nat, k: nat, e: Event, p: Nest<C>)
    requires NestValid(machines, p)
    ensures NestValid(machines, RunSub(machines, env, rounds, k, e, p).1)
  {
    var p' := RunSub(machines, env, rounds, k, e, p).1;
    forall j | 0 <= j < |machines| ensures WellFormed(machines[j]) && Valid(machines[j], SubConfig(p', j)) {
      assert Valid(machines[j], SubConfig(p, j));
    }
  }

  lemma ActionValid<C(!new)>(machines: seq<Machine>, env: Env<C>, rounds: nat, i: nat, e: Event, w: World<Nest<C>>)
    requires NestValid(machines, w.ctx)
    ensures NestValid(machines, Apply(w, ParentEnv(machines, env, rounds).action(i, e, w.ctx)).ctx)
  {
    var p := Apply(w, ParentEnv(machines, env, rounds).action(i, e, w.ctx)).ctx;
    forall k | 0 <= k < |machines| ensures WellFormed(machines[k]) && Valid(machines[k], SubConfig(p, k)) {
      assert Valid(machines[k], SubConfig(w.ctx, k));
    }
  }

  lemma NestValidStable<C(!new)>(machines: seq<Machine>, env: Env<C>, rounds: nat)
    ensures Stable(ParentEnv(machines, env, rounds), (x: World<Nest<C>>) => NestValid(machines, x.ctx),
                   (k: nat, x: World<Nest<C>>) => true)
  {
    var penv := ParentEnv(machines, env, rounds);
    var P := (x: World<Nest<C>>) => NestValid(machines, x.ctx);
    forall x: World<Nest<C>>, i, h | P(x) ensures P(Apply(x, penv.action(i, h, x.ctx))) {
      ActionValid(machines, env, rounds, i, h, x);
    }
    forall x: World<Nest<C>>, k, h | P(x) ensures P(SubWorld(penv, k, h, x)) {
      SubWorldValid(machines, env, rounds, k, h, x);
    }
    forall x: World<Nest<C>>, s: State | P(x) ensures P(EnterWorld(penv, s, x)) {
      EnterWorldValid(machines, env, rounds, s, x);
    }
    StableAlone(penv, P);
  }

  lemma SubWorldValid<C(!new)>(machines: seq<Machine>, env: Env<C>, rounds: nat, k: nat, e: Event, w: World<Nest<C>>)
    requires NestValid(machines, w.ctx)
    ensures NestValid(machines, SubWorld(ParentEnv(machines, env, rounds), k, e, w).ctx)
  {
    RunValid(machines, env, rounds, k, e, w.ctx);
  }

  lemma EnterWorldValid<C(!new)>(machines: seq<Machine>, env: Env<C>, rounds: nat, s: State, w: World<Nest<C>>)
    requires NestValid(machines, w.ctx)
    ensures NestValid(machines, EnterWorld(ParentEnv(machines, env, rounds), s, w).ctx)
  {
    if s.Sub? {
      EnterValid(machines, s.k, w.ctx);
    }
  }

  /** A property that actions, nested machines and entries keep is stable without further conditions. */
  lemma StableAlone<C(!new)>(env: Env<C>, P: World<C> -> bool)
    requires forall w: World<C>, a, e :: P(w) ==> P(Apply(w, env.action(a, e, w.ctx)))
    requires forall w: World<C>, k, e :: P(w) ==> P(SubWorld(env, k, e, w))
    requires forall w: World<C>, s: State :: P(w) ==> P(EnterWorld(env, s, w))
    ensures Stable(env, P, (k: nat, w: World<C>) => true)
  {
  }

  lemma StepValid<C(!new)>(m: Machine, machines: seq<Machine>, env: Env<C>, rounds: nat, key: Event, e: Event, cur: nat,
                           w: World<Nest<C>>)
    requires WellFormed(m) && ValidId(m, cur) && NestValid(machines, w.ctx)
    ensures NestValid(machines, Step(m, ParentEnv(machines, env, rounds), key, e, cur, w).w.ctx)
  {
    NestValidStable(machines, env, rounds);
    StepStable(m, ParentEnv(machines, env, rounds), key, e, cur, w,
               (x: World<Nest<C>>) => NestValid(machines, x.ctx), (k: nat, x: World<Nest<C>>) => true);
  }

  lemma AfterExitValid<C(!new)>(m: Machine, machines: seq<Machine>, env: Env<C>, rounds: nat, e: Event, cur: nat,
                                w: World<Nest<C>>)
    requires ValidId(m, cur) && NestValid(machines, w.ctx)
    ensures NestValid(machines, AfterExit(m, machines, env, rounds, e, cur, w))
  {
    NestValidStable(machines, env, rounds);
    HandlerStable(m, ParentEnv(machines, env, rounds), OnExit(e), cur, w,
                  (x: World<Nest<C>>) => NestValid(machines, x.ctx), (k: nat, x: World<Nest<C>>) => true);
  }

  // ----- what follows from one dispatch -----

  /** The dispatched region neither was in the composite state of machine `k` nor is. */
  ghost predicate Elsewhere<C(!new)>(m: Machine, env: Env<C>, d: Dispatch<C>, k: nat) {
    Dispatchable(m, d) && Source(m, d) != Sub(k) && Target(m, env, d) != Sub(k)
  }

  ghost predicate Enters<C(!new)>(m: Machine, env: Env<C>, d: Dispatch<C>, k: nat) {
    Dispatchable(m, d) && Source(m, d) != Sub(k) && Target(m, env, d) == Sub(k)
  }

  lemma DispatchMoved<C(!new)>(m: Machine, machines: seq<Machine>, env: Env<C>, rounds: nat, d: Dispatch<Nest<C>>)
    requires Dispatchable(m, d) && NestValid(machines, d.before.w.ctx)
    ensures var c := After(m, ParentEnv(machines, env, rounds), d);
            && NestValid(machines, c.w.ctx)
            && Moved(machines, Source(m, d), Target(m, ParentEnv(machines, env, rounds), d), d.before.w.ctx, c.w.ctx)
  {
    StepMoved(m, machines, env, rounds, d.key, d.e, d.before.regions[d.r], d.before.w);
    StepValid(m, machines, env, rounds, d.key, d.e, d.before.regions[d.r], d.before.w);
  }

  lemma MovedElsewhere<C(!new)>(machines: seq<Machine>, s: State, t: State, p: Nest<C>, p': Nest<C>, k: nat)
    requires Moved(machines, s, t, p, p') && k < |p.subs| && s != Sub(k) && t != Sub(k)
    ensures k < |p'.subs| && p'.subs[k] == p.subs[k]
  {
    if EnteredBetween(machines, s, t, p, p') {
      var q :| RanAtMost(s, p, q) && RanAtMost(t, EnterSub(machines, t.k, q), p');
      assert EnterSub(machines, t.k, q).subs[k] == q.subs[k];
    }
  }

  lemma MovedIn<C(!new)>(machines: seq<Machine>, s: State, p: Nest<C>, p': Nest<C>, k: nat)
    requires NestValid(machines, p) && k < |machines| && s != Sub(k) && Moved(machines, s, Sub(k), p, p')
    ensures p'.visits
         == p.visits + [Visit(k, p.subs[k].regions, UpdateComposite(machines[k].table, p.subs[k].regions))]
  {
    var q :| RanAtMost(s, p, q) && RanAtMost(Sub(k), EnterSub(machines, k, q), p');
    assert Valid(machines[k], SubConfig(p, k)) && q.subs[k] == p.subs[k];
  }

  // ----- runs -----

  /** `ds` are the dispatches of the run of the parent on `events`. */
  ghost function Dispatches<C(!new)>(m: Machine, machines: seq<Machine>, env: Env<C>, rounds: nat, events: seq<Event>,
                                     p: Nest<C>): seq<Dispatch<Nest<C>>>
    requires WellFormed(m)
  {
    RunDispatches(m, ParentEnv(machines, env, rounds), rounds, events, p)
  }

  lemma RunNestValid<C(!new)>(m: Machine, machines: seq<Machine>, env: Env<C>, rounds: nat, events: seq<Event>,
                              p: Nest<C>)
    requires WellFormed(m) && NestValid(machines, p)
    ensures forall d :: d in Dispatches(m, machines, env, rounds, events, p) ==>
              Dispatchable(m, d) && NestValid(machines, d.before.w.ctx)
  {
    var penv, ds := ParentEnv(machines, env, rounds), Dispatches(m, machines, env, rounds, events, p);
    var c, c' := InitialConfig(m, p), Run(m, penv, rounds, events, p);
    var P := (regions: seq<nat>, traces: seq<seq<Obs>>, n: Nest<C>) => NestValid(machines, n);
    RunIsItsDispatches(m, penv, rounds, events, p);
    forall d: Dispatch<Nest<C>> | Dispatchable(m, d) && NestValid(machines, d.before.w.ctx)
      ensures NestValid(machines, After(m, penv, d).w.ctx)
    {
      DispatchMoved(m, machines, env, rounds, d);
    }
    LinkedKeeps(m, penv, ds, c, c', P);
    forall i | 0 <= i < |ds| ensures Dispatchable(m, ds[i]) {
      LinkedAt(m, penv, ds, c, c', i);
    }
  }

  /**
   Over every run a nested machine changes only in a dispatch of a region that was in its
   composite state or has entered it; between dispatches nothing changes but the queues.
   */
  lemma NestedChangesOnlyInside<C(!new)>(m: Machine, machines: seq<Machine>, env: Env<C>, rounds: nat,
                                         events: seq<Event>, p: Nest<C>, k: nat)
    requires WellFormed(m) && NestValid(machines, p) && k < |machines|
    ensures var penv, ds := ParentEnv(machines, env, rounds), Dispatches(m, machines, env, rounds, events, p);
            && Linked(m, penv, ds, InitialConfig(m, p), Run(m, penv, rounds, events, p))
            && forall d :: d in ds ==>
                 && Dispatchable(m, d)
                 && NestValid(machines, d.before.w.ctx) && NestValid(machines, After(m, penv, d).w.ctx)
                 && (After(m, penv, d).w.ctx.subs[k] != d.before.w.ctx.subs[k] ==> !Elsewhere(m, penv, d, k))
  {
    var penv, ds := ParentEnv(machines, env, rounds), Dispatches(m, machines, env, rounds, events, p);
    RunIsItsDispatches(m, penv, rounds, events, p);
    RunNestValid(m, machines, env, rounds, events, p);
    forall d | d in ds
      ensures NestValid(machines, After(m, penv, d).w.ctx)
      ensures Elsewhere(m, penv, d, k) ==> After(m, penv, d).w.ctx.subs[k] == d.before.w.ctx.subs[k]
    {
      DispatchMoved(m, machines, env, rounds, d);
      if Elsewhere(m, penv, d, k) {
        MovedElsewhere(machines, Source(m, d), Target(m, penv, d), d.before.w.ctx, After(m, penv, d).w.ctx, k);
      }
    }
  }

  lemma UntouchedOnce<C(!new)>(m: Machine, machines: seq<Machine>, env: Env<C>, rounds: nat, events: seq<Event>,
                               p: Nest<C>, k: nat, j: nat)
    requires WellFormed(m) && NestValid(machines, p) && k < |machines|
    requires 0 < j < |Dispatches(m, machines, env, rounds, events, p)|
    requires Elsewhere(m, ParentEnv(machines, env, rounds), Dispatches(m, machines, env, rounds, events, p)[j - 1], k)
    ensures var ds := Dispatches(m, machines, env, rounds, events, p);
            && NestValid(machines, ds[j - 1].before.w.ctx) && NestValid(machines, ds[j].before.w.ctx)
            && ds[j].before.w.ctx.subs[k] == ds[j - 1].before.w.ctx.subs[k]
  {
    var penv, ds := ParentEnv(machines, env, rounds), Dispatches(m, machines, env, rounds, events, p);
    var d := ds[j - 1];
    RunNestValid(m, machines, env, rounds, events, p);
    RunIsItsDispatches(m, penv, rounds, events, p);
    LinkedAt(m, penv, ds, InitialConfig(m, p), Run(m, penv, rounds, events, p), j);
    assert d in ds && ds[j] in ds;
    DispatchMoved(m, machines, env, rounds, d);
    MovedElsewhere(machines, Source(m, d), Target(m, penv, d), d.before.w.ctx, After(m, penv, d).w.ctx, k);
  }

  /** While the dispatches are elsewhere, machine `k` stays as it is. */
  lemma {:induction false} UntouchedBetween<C(!new)>(m: Machine, machines: seq<Machine>, env: Env<C>, rounds: nat,
                                                     events: seq<Event>, p: Nest<C>, k: nat, i: nat, j: nat)
    requires WellFormed(m) && NestValid(machines, p) && k < |machines|
    requires i <= j < |Dispatches(m, machines, env, rounds, events, p)|
    requires forall x :: i <= x < j ==>
               Elsewhere(m, ParentEnv(machines, env, rounds), Dispatches(m, machines, env, rounds, events, p)[x], k)
    ensures var ds := Dispatches(m, machines, env, rounds, events, p);
            && NestValid(machines, ds[i].before.w.ctx) && NestValid(machines, ds[j].before.w.ctx)
            && ds[j].before.w.ctx.subs[k] == ds[i].before.w.ctx.subs[k]
    decreases j - i
  {
    if i == j {
      RunNestValid(m, machines, env, rounds, events, p);
    } else {
      UntouchedBetween(m, machines, env, rounds, events, p, k, i, j - 1);
      UntouchedOnce(m, machines, env, rounds, events, p, k, j);
    }
  }

  /** History regions are as in `before`, every other region is at its initial state. */
  ghost predicate Restored(table: seq<Row>, before: seq<nat>, after: seq<nat>)
    requires |before| == |InitialStates(table)|
  {
    |after| == |before| &&
    forall r :: 0 <= r < |after| ==>
      after[r] == if HistoryRegion(table, r) then before[r] else StateId(table, InitialStates(table)[r])
  }

  /** Every initial state is starred once, and only starred rows ask for history. */
  ghost predicate StarredOnce(table: seq<Row>) {
    Distinct(Starred(table)) && forall row :: row in table && row.history ==> row.initial
  }

  lemma UpdateRestores(m: Machine, regions: seq<nat>)
    requires WellFormed(m) && ValidRegions(m.table, regions) && StarredOnce(m.table)
    ensures Restored(m.table, regions, UpdateComposite(m.table, regions))
  {
    StarredOnceKeepsHistory(m.table);
    forall r | 0 <= r < |regions|
      ensures UpdateComposite(m.table, regions)[r]
           == if HistoryRegion(m.table, r) then regions[r] else StateId(m.table, InitialStates(m.table)[r])
    {
      UpdateCompositeSpec(m.table, regions, r);
    }
  }

  /**
   Every entry, in every run. Let dispatch `j` enter the composite state of machine `k`, and
   let the dispatches from `i` on before it be elsewhere; `i` may be the first dispatch, or
   follow the one that last left the state. Then the entry finds the regions as they were
   before dispatch `i`, that is, as control left them, and resets exactly those without
   history.
   */
  lemma ReentryRestoresHistory<C(!new)>(m: Machine, machines: seq<Machine>, env: Env<C>, rounds: nat,
                                        events: seq<Event>, p: Nest<C>, k: nat, i: nat, j: nat)
    requires WellFormed(m) && NestValid(machines, p) && k < |machines|
    requires i <= j < |Dispatches(m, machines, env, rounds, events, p)|
    requires forall x :: i <= x < j ==>
               Elsewhere(m, ParentEnv(machines, env, rounds), Dispatches(m, machines, env, rounds, events, p)[x], k)
    requires Enters(m, ParentEnv(machines, env, rounds), Dispatches(m, machines, env, rounds, events, p)[j], k)
    ensures var penv, ds := ParentEnv(machines, env, rounds), Dispatches(m, machines, env, rounds, events, p);
            && NestValid(machines, ds[i].before.w.ctx)
            && ds[i].before.w.ctx == (if i == 0 then p else LeftBy(m, penv, ds[i - 1]))
            && var left := ds[i].before.w.ctx.subs[k].regions;
               var entered := UpdateComposite(machines[k].table, left);
               && After(m, penv, ds[j]).w.ctx.visits == ds[j].before.w.ctx.visits + [Visit(k, left, entered)]
               && (StarredOnce(machines[k].table) ==> Restored(machines[k].table, left, entered))
  {
    var penv, ds := ParentEnv(machines, env, rounds), Dispatches(m, machines, env, rounds, events, p);
    RunNestValid(m, machines, env, rounds, events, p);
    UntouchedBetween(m, machines, env, rounds, events, p, k, i, j);
    RunIsItsDispatches(m, penv, rounds, events, p);
    LinkedAt(m, penv, ds, InitialConfig(m, p), Run(m, penv, rounds, events, p), i);
    assert ds[i] in ds && ds[j] in ds;
    DispatchMoved(m, machines, env, rounds, ds[j]);
    MovedIn(machines, Source(m, ds[j]), ds[j].before.w.ctx, After(m, penv, ds[j]).w.ctx, k);
    if StarredOnce(machines[k].table) {
      assert Valid(machines[k], SubConfig(ds[i].before.w.ctx, k));
      UpdateRestores(machines[k], ds[i].before.w.ctx.subs[k].regions);
    }
  }

  /** The context a dispatch leaves behind. */
  ghost function LeftBy<C(!new)>(m: Machine, env: Env<C>, d: Dispatch<C>): C {
    if Dispatchable(m, d) then After(m, env, d).w.ctx else d.before.w.ctx
  }

  /**
   The row that leaves a composite state and enters it, or another one, in the same step: the
   entry finds the regions as the exit handler left them.
   */
  lemma EntryFollowsExitHandler<C(!new)>(m: Machine, machines: seq<Machine>, env: Env<C>, rounds: nat, row: Row,
                                         e: Event, cur: nat, w: World<Nest<C>>)
    requires WellFormed(m) && ValidId(m, cur) && row in m.table && row.src == States(m.table)[cur]
    requires row.dst.Sub? && row.dst.k < |machines| && NestValid(machines, w.ctx)
    ensures NestValid(machines, AfterExit(m, machines, env, rounds, e, cur, w))
    ensures var k, out := row.dst.k, Fire(m, ParentEnv(machines, env, rounds), row, e, cur, w);
            var left := AfterExit(m, machines, env, rounds, e, cur, w).subs[k].regions;
            var entered := UpdateComposite(machines[k].table, left);
            && out.w.ctx.visits == w.ctx.visits + [Visit(k, left, entered)]
            && (StarredOnce(machines[k].table) ==> Restored(machines[k].table, left, entered))
  {
    var q, k := AfterExit(m, machines, env, rounds, e, cur, w), row.dst.k;
    FireExternalRan(m, machines, env, rounds, row, e, cur, w);
    AfterExitValid(m, machines, env, rounds, e, cur, w);
    assert Valid(machines[k], SubConfig(q, k));
    if StarredOnce(machines[k].table) {
      UpdateRestores(machines[k], q.subs[k].regions);
    }
  }

  // ----- from one composite state into another, or into itself, in one dispatch -----

  lemma {:induction false} RowsEnter<C(!new)>(m: Machine, machines: seq<Machine>, env: Env<C>, rounds: nat,
                                              rows: seq<Row>, e: Event, cur: nat, w: World<Nest<C>>, k: nat)
    requires WellFormed(m) && ValidId(m, cur) && rows != [] && NestValid(machines, w.ctx) && k < |machines|
    requires forall row :: row in rows ==> row in m.table && row.src == States(m.table)[cur]
    requires var out := ExecuteRows(m, ParentEnv(machines, env, rounds), rows, e, cur, w);
             out.w.ctx.visits != w.ctx.visits && States(m.table)[out.cur] == Sub(k)
    ensures NestValid(machines, AfterExit(m, machines, env, rounds, e, cur, w))
    ensures var left := AfterExit(m, machines, env, rounds, e, cur, w).subs[k].regions;
            ExecuteRows(m, ParentEnv(machines, env, rounds), rows, e, cur, w).w.ctx.visits
            == w.ctx.visits + [Visit(k, left, UpdateComposite(machines[k].table, left))]
    decreases |rows|
  {
    if GuardHolds(ParentEnv(machines, env, rounds), rows[0], e, w) {
      if rows[0].dst == Internal {
        ActionRan(machines, env, rounds, rows[0], e, w, rows[0].src);
      } else {
        TargetIsState(m, rows[0]);
        EntryFollowsExitHandler(m, machines, env, rounds, rows[0], e, cur, w);
      }
    } else if |rows| > 1 {
      RowsEnter(m, machines, env, rounds, rows[1..], e, cur, w, k);
    }
  }

  /** The nested machine `k` is offered the event first; then the exit handler of its state has run. */
  ghost function Leaving<C(!new)>(m: Machine, machines: seq<Machine>, env: Env<C>, rounds: nat, k: nat, e: Event,
                                  cur: nat, w: World<Nest<C>>): Nest<C>
    requires ValidId(m, cur)
  {
    AfterExit(m, machines, env, rounds, e, cur, SubWorld(ParentEnv(machines, env, rounds), k, e, w))
  }

  lemma CompositeEnters<C(!new)>(m: Machine, machines: seq<Machine>, env: Env<C>, rounds: nat, key: Event, e: Event,
                                 cur: nat, w: World<Nest<C>>, s: nat, k: nat)
    requires WellFormed(m) && ValidId(m, cur) && NestValid(machines, w.ctx) && k < |machines|
    requires States(m.table)[cur] == Sub(s) && (e.OnEntry? ==> key.OnEntry?)
    requires var out := Step(m, ParentEnv(machines, env, rounds), key, e, cur, w);
             out.w.ctx.visits != w.ctx.visits && States(m.table)[out.cur] == Sub(k)
    ensures NestValid(machines, Leaving(m, machines, env, rounds, s, e, cur, w))
    ensures var left := Leaving(m, machines, env, rounds, s, e, cur, w).subs[k].regions;
            Step(m, ParentEnv(machines, env, rounds), key, e, cur, w).w.ctx.visits
            == w.ctx.visits + [Visit(k, left, UpdateComposite(machines[k].table, left))]
  {
    var penv := ParentEnv(machines, env, rounds);
    FoundRows(m, key, Sub(s));
    SubRan(machines, env, rounds, s, e, w);
    SubWorldValid(machines, env, rounds, s, e, w);
    if e.OnEntry? && m.Find(key, Sub(s)).Found? {
      EntryRan(m, machines, env, rounds, key, e, cur, w);
    } else {
      RowsEnter(m, machines, env, rounds, m.Find(key, Sub(s)).rows, e, cur, SubWorld(penv, s, e, w), k);
    }
  }

  /**
   The entries `ReentryRestoresHistory` leaves out, in every run: a dispatch that takes its
   region from one composite state into another, or into itself. It starts from what the
   dispatch before it left; the nested machine of the state it leaves is offered the event and
   the exit handler runs; the entry finds the regions as they are then.
   */
  lemma CompositeEntryRestoresHistory<C(!new)>(m: Machine, machines: seq<Machine>, env: Env<C>, rounds: nat,
                                               events: seq<Event>, p: Nest<C>, s: nat, k: nat, j: nat)
    requires WellFormed(m) && NestValid(machines, p) && k < |machines|
    requires j < |Dispatches(m, machines, env, rounds, events, p)|
    requires var penv, d := ParentEnv(machines, env, rounds), Dispatches(m, machines, env, rounds, events, p)[j];
             && Dispatchable(m, d) && Source(m, d) == Sub(s) && Target(m, penv, d) == Sub(k)
             && After(m, penv, d).w.ctx.visits != d.before.w.ctx.visits
    ensures var penv, ds := ParentEnv(machines, env, rounds), Dispatches(m, machines, env, rounds, events, p);
            var d := ds[j];
            var leaving := Leaving(m, machines, env, rounds, s, d.e, d.before.regions[d.r], d.before.w);
            && d.before.w.ctx == (if j == 0 then p else LeftBy(m, penv, ds[j - 1]))
            && NestValid(machines, leaving)
            && var left := leaving.subs[k].regions;
               var entered := UpdateComposite(machines[k].table, left);
               && After(m, penv, d).w.ctx.visits == d.before.w.ctx.visits + [Visit(k, left, entered)]
               && (StarredOnce(machines[k].table) ==> Restored(machines[k].table, left, entered))
  {
    var penv, ds := ParentEnv(machines, env, rounds), Dispatches(m, machines, env, rounds, events, p);
    var d := ds[j];
    RunNestValid(m, machines, env, rounds, events, p);
    RunIsItsDispatches(m, penv, rounds, events, p);
    LinkedAt(m, penv, ds, InitialConfig(m, p), Run(m, penv, rounds, events, p), j);
    assert d in ds;
    CompositeEnters(m, machines, env, rounds, d.key, d.e, d.before.regions[d.r], d.before.w, s, k);
    if StarredOnce(machines[k].table) {
      var leaving := Leaving(m, machines, env, rounds, s, d.e, d.before.regions[d.r], d.before.w);
      assert Valid(machines[k], SubConfig(leaving, k));
      UpdateRestores(machines[k], leaving.subs[k].regions);
    }
  }

  /** Every entry of every run, from the start, is a reset of the regions found. */
  ghost predicate EveryVisitResets(machines: seq<Machine>, visits: seq<Visit>) {
    forall i :: 0 <= i < |visits| ==>
      var v := visits[i];
      && v.k < |machines| && |v.before| == |InitialStates(machines[v.k].table)|
      && v.after == UpdateComposite(machines[v.k].table, v.before)
  }

  lemma MovedResets<C(!new)>(machines: seq<Machine>, s: State, t: State, p: Nest<C>, p': Nest<C>)
    requires Moved(machines, s, t, p, p') && EveryVisitResets(machines, p.visits)
    ensures EveryVisitResets(machines, p'.visits)
  {
    if EnteredBetween(machines, s, t, p, p') {
      var q :| RanAtMost(s, p, q) && RanAtMost(t, EnterSub(machines, t.k, q), p');
      assert forall i :: 0 <= i < |p.visits| ==> p'.visits[i] == p.visits[i];
    }
  }

  lemma RunVisitsReset<C(!new)>(m: Machine, machines: seq<Machine>, env: Env<C>, rounds: nat, events: seq<Event>,
                                p: Nest<C>)
    requires WellFormed(m) && p.visits == []
    ensures EveryVisitResets(machines, Run(m, ParentEnv(machines, env, rounds), rounds, events, p).w.ctx.visits)
  {
    var penv := ParentEnv(machines, env, rounds);
    var P := (regions: seq<nat>, traces: seq<seq<Obs>>, n: Nest<C>) => EveryVisitResets(machines, n.visits);
    RunIsItsDispatches(m, penv, rounds, events, p);
    forall d: Dispatch<Nest<C>> | Dispatchable(m, d) && EveryVisitResets(machines, d.before.w.ctx.visits)
      ensures EveryVisitResets(machines, After(m, penv, d).w.ctx.visits)
    {
      StepMoved(m, machines, env, rounds, d.key, d.e, d.before.regions[d.r], d.before.w);
      MovedResets(machines, Source(m, d), Target(m, penv, d), d.before.w.ctx, After(m, penv, d).w.ctx);
    }
    LinkedKeeps(m, penv, Dispatches(m, machines, env, rounds, events, p), InitialConfig(m, p),
                Run(m, penv, rounds, events, p), P);
  }
}

/**
 What one dispatch of the parent does to its nested machines: only the machine of the state
 the region is in may run, an external row may enter the machine of its target, and then
 only that one may run. The laws of whole runs are in `SmlHistory`.
 */
module SmlNested {
  import opened SmlTable
  import opened SmlEngine
  import opened SmlComposite

  /** Only the nested machine of state `s`, if it is one, has run, and none has been entered. */
  ghost predicate RanAtMost<C>(s: State, p: Nest<C>, p': Nest<C>) {
    && p'.visits == p.visits && |p'.subs| == |p.subs|
    && forall k :: 0 <= k < |p.subs| && s != Sub(k) ==> p'.subs[k] == p.subs[k]
  }

  /** What happens in state `s` before it is left, the entry of the composite state `t`, what happens in `t`. */
  ghost predicate EnteredBetween<C(!new)>(machines: seq<Machine>, s: State, t: State, p: Nest<C>, p': Nest<C>) {
    t.Sub? && exists q :: RanAtMost(s, p, q) && RanAtMost(t, EnterSub(machines, t.k, q), p')
  }

  /** What a dispatch does to the nested machines when it takes its region from state `s` to state `t`. */
  ghost predicate Moved<C(!new)>(machines: seq<Machine>, s: State, t: State, p: Nest<C>, p': Nest<C>) {
    && (RanAtMost(s, p, p') || EnteredBetween(machines, s, t, p, p'))
    && (s != t && t.Sub? ==> EnteredBetween(machines, s, t, p, p'))
  }

  lemma MovedAfterRun<C(!new)>(machines: seq<Machine>, s: State, t: State, p: Nest<C>, q: Nest<C>, p': Nest<C>)
    requires RanAtMost(s, p, q) && Moved(machines, s, t, q, p')
    ensures Moved(machines, s, t, p, p')
  {
    if EnteredBetween(machines, s, t, q, p') {
      var x :| RanAtMost(s, q, x) && RanAtMost(t, EnterSub(machines, t.k, x), p');
      assert RanAtMost(s, p, x);
    }
  }

  // ----- the pieces of a dispatch -----

  lemma ActionRan<C(!new)>(machines: seq<Machine>, env: Env<C>, rounds: nat, row: Row, e: Event, w: World<Nest<C>>,
                           s: State)
    ensures RanAtMost(s, w.ctx, ActionWorld(ParentEnv(machines, env, rounds), row, e, w).ctx)
  {
  }

  lemma SubRan<C(!new)>(machines: seq<Machine>, env: Env<C>, rounds: nat, k: nat, e: Event, w: World<Nest<C>>)
    ensures RanAtMost(Sub(k), w.ctx, SubWorld(ParentEnv(machines, env, rounds), k, e, w).ctx)
  {
  }

  lemma {:induction false} RunHandlersRan<C(!new)>(machines: seq<Machine>, env: Env<C>, rounds: nat, rows: seq<Row>,
                                                   h: Event, w: World<Nest<C>>, s: State)
    ensures RanAtMost(s, w.ctx, RunHandlers(ParentEnv(machines, env, rounds), rows, h, w).0.ctx)
  {
    if rows != [] {
      if GuardHolds(ParentEnv(machines, env, rounds), rows[0], h, w) {
        ActionRan(machines, env, rounds, rows[0], h, w, s);
      } else {
        RunHandlersRan(machines, env, rounds, rows[1..], h, w, s);
      }
    }
  }

  lemma HandlerRan<C(!new)>(m: Machine, machines: seq<Machine>, env: Env<C>, rounds: nat, h: Event, cur: nat,
                            w: World<Nest<C>>)
    requires ValidId(m, cur)
    ensures RanAtMost(States(m.table)[cur], w.ctx, HandlerIf(m, ParentEnv(machines, env, rounds), h, cur, w).0.ctx)
  {
    var key, s := HandlerKey(m, h), States(m.table)[cur];
    if m.HasEntryExits() && m.Enabled(key) {
      var rows := if m.Find(key, s).Found? then m.Find(key, s).rows else [];
      RunHandlersRan(machines, env, rounds, rows, h, w, s);
      if s.Sub? {
        CompositeHandlerRan(machines, env, rounds, s.k, rows, h, w);
      }
    }
  }

  /** Handler rows of a composite state, before or after its nested machine. */
  lemma CompositeHandlerRan<C(!new)>(machines: seq<Machine>, env: Env<C>, rounds: nat, k: nat, rows: seq<Row>, h: Event,
                                     w: World<Nest<C>>)
    ensures var penv := ParentEnv(machines, env, rounds);
            && RanAtMost(Sub(k), w.ctx, SubWorld(penv, k, h, w).ctx)
            && RanAtMost(Sub(k), w.ctx, SubWorld(penv, k, h, RunHandlers(penv, rows, h, w).0).ctx)
            && RanAtMost(Sub(k), w.ctx, RunHandlers(penv, rows, h, SubWorld(penv, k, h, w)).0.ctx)
  {
    var penv := ParentEnv(machines, env, rounds);
    SubRan(machines, env, rounds, k, h, w);
    RunHandlersRan(machines, env, rounds, rows, h, SubWorld(penv, k, h, w), Sub(k));
    RunHandlersRan(machines, env, rounds, rows, h, w, Sub(k));
    SubRan(machines, env, rounds, k, h, RunHandlers(penv, rows, h, w).0);
  }

  /** The nest when a firing row has run the exit handler of the state it leaves. */
  ghost function AfterExit<C(!new)>(m: Machine, machines: seq<Machine>, env: Env<C>, rounds: nat, e: Event, cur: nat,
                                 w: World<Nest<C>>): Nest<C>
    requires ValidId(m, cur)
  {
    HandlerIf(m, ParentEnv(machines, env, rounds), OnExit(e), cur, w).0.ctx
  }

  /** An external row: exit handler, entry of its target, then action and entry handler there. */
  lemma FireExternalRan<C(!new)>(m: Machine, machines: seq<Machine>, env: Env<C>, rounds: nat, row: Row, e: Event,
                                 cur: nat, w: World<Nest<C>>)
    requires WellFormed(m) && ValidId(m, cur) && row in m.table && row.dst != Internal
    ensures var q := AfterExit(m, machines, env, rounds, e, cur, w);
            var out := Fire(m, ParentEnv(machines, env, rounds), row, e, cur, w);
            && States(m.table)[out.cur] == row.dst && RanAtMost(States(m.table)[cur], w.ctx, q)
            && RanAtMost(row.dst, if row.dst.Sub? then EnterSub(machines, row.dst.k, q) else q, out.w.ctx)
  {
    var penv := ParentEnv(machines, env, rounds);
    TargetIsState(m, row);
    HandlerRan(m, machines, env, rounds, OnExit(e), cur, w);
    var w1 := HandlerIf(m, penv, OnExit(e), cur, w).0;
    var w2 := EnterWorld(penv, row.dst, w1);
    ActionRan(machines, env, rounds, row, e, w2, row.dst);
    HandlerRan(m, machines, env, rounds, OnEntry(e), StateId(m.table, row.dst), ActionWorld(penv, row, e, w2));
  }

  lemma FireMoved<C(!new)>(m: Machine, machines: seq<Machine>, env: Env<C>, rounds: nat, row: Row, e: Event, cur: nat,
                           w: World<Nest<C>>)
    requires WellFormed(m) && ValidId(m, cur) && row in m.table && row.src == States(m.table)[cur]
    ensures var out := Fire(m, ParentEnv(machines, env, rounds), row, e, cur, w);
            Moved(machines, row.src, States(m.table)[out.cur], w.ctx, out.w.ctx)
  {
    if row.dst == Internal {
      ActionRan(machines, env, rounds, row, e, w, row.src);
    } else {
      FireExternalRan(m, machines, env, rounds, row, e, cur, w);
    }
  }

  lemma {:induction false} RowsMoved<C(!new)>(m: Machine, machines: seq<Machine>, env: Env<C>, rounds: nat,
                                              rows: seq<Row>, e: Event, cur: nat, w: World<Nest<C>>)
    requires WellFormed(m) && ValidId(m, cur) && rows != []
    requires forall row :: row in rows ==> row in m.table && row.src == States(m.table)[cur]
    ensures var out := ExecuteRows(m, ParentEnv(machines, env, rounds), rows, e, cur, w);
            Moved(machines, States(m.table)[cur], States(m.table)[out.cur], w.ctx, out.w.ctx)
    decreases |rows|
  {
    if GuardHolds(ParentEnv(machines, env, rounds), rows[0], e, w) {
      FireMoved(m, machines, env, rounds, rows[0], e, cur, w);
    } else if |rows| > 1 {
      RowsMoved(m, machines, env, rounds, rows[1..], e, cur, w);
    }
  }

  /** Internal rows leave the region in its state and enter nothing. */
  lemma {:induction false} InternalRowsRan<C(!new)>(m: Machine, machines: seq<Machine>, env: Env<C>, rounds: nat,
                                                    rows: seq<Row>, e: Event, cur: nat, w: World<Nest<C>>)
    requires WellFormed(m) && ValidId(m, cur) && rows != []
    requires forall row :: row in rows ==> row in m.table && row.dst == Internal
    ensures var out := ExecuteRows(m, ParentEnv(machines, env, rounds), rows, e, cur, w);
            out.cur == cur && RanAtMost(States(m.table)[cur], w.ctx, out.w.ctx)
    decreases |rows|
  {
    if GuardHolds(ParentEnv(machines, env, rounds), rows[0], e, w) {
      ActionRan(machines, env, rounds, rows[0], e, w, States(m.table)[cur]);
    } else if |rows| > 1 {
      InternalRowsRan(m, machines, env, rounds, rows[1..], e, cur, w);
    }
  }

  // ----- one dispatch -----

  lemma UnexpectedMoved<C(!new)>(m: Machine, machines: seq<Machine>, env: Env<C>, rounds: nat, e: Event, cur: nat,
                                 w: World<Nest<C>>)
    requires WellFormed(m) && ValidId(m, cur)
    ensures var out := UnexpectedStep(m, ParentEnv(machines, env, rounds), e, cur, w);
            Moved(machines, States(m.table)[cur], States(m.table)[out.cur], w.ctx, out.w.ctx)
  {
    var s := States(m.table)[cur];
    FoundRows(m, Unexpected(e), s);
    if m.Find(Unexpected(e), s).Found? {
      RowsMoved(m, machines, env, rounds, m.Find(Unexpected(e), s).rows, Unexpected(e), cur, w);
    }
  }

  lemma SubThenRowsMoved<C(!new)>(m: Machine, machines: seq<Machine>, env: Env<C>, rounds: nat, k: nat, rows: seq<Row>,
                                  e: Event, cur: nat, w: World<Nest<C>>)
    requires WellFormed(m) && ValidId(m, cur) && States(m.table)[cur] == Sub(k) && rows != []
    requires forall row :: row in rows ==> row in m.table && row.src == Sub(k)
    ensures var out := SubThenRows(m, ParentEnv(machines, env, rounds), k, rows, e, cur, w);
            Moved(machines, Sub(k), States(m.table)[out.cur], w.ctx, out.w.ctx)
  {
    var w' := SubWorld(ParentEnv(machines, env, rounds), k, e, w);
    SubRan(machines, env, rounds, k, e, w);
    RowsMoved(m, machines, env, rounds, rows, e, cur, w');
    var out := ExecuteRows(m, ParentEnv(machines, env, rounds), rows, e, cur, w');
    MovedAfterRun(machines, Sub(k), States(m.table)[out.cur], w.ctx, w'.ctx, out.w.ctx);
  }

  lemma EntryRan<C(!new)>(m: Machine, machines: seq<Machine>, env: Env<C>, rounds: nat, key: Event, e: Event, cur: nat,
                          w: World<Nest<C>>)
    requires WellFormed(m) && ValidId(m, cur) && States(m.table)[cur].Sub? && key.OnEntry? && e.OnEntry?
    requires m.Find(key, States(m.table)[cur]).Found?
    ensures var out := Step(m, ParentEnv(machines, env, rounds), key, e, cur, w);
            out.cur == cur && RanAtMost(States(m.table)[cur], w.ctx, out.w.ctx)
  {
    var s := States(m.table)[cur];
    FoundRows(m, key, s);
    var rows := m.Find(key, s).rows;
    InternalRowsRan(m, machines, env, rounds, rows, e, cur, w);
    SubRan(machines, env, rounds, s.k, e, ExecuteRows(m, ParentEnv(machines, env, rounds), rows, e, cur, w).w);
  }

  lemma CompositeMoved<C(!new)>(m: Machine, machines: seq<Machine>, env: Env<C>, rounds: nat, key: Event, e: Event,
                                cur: nat, w: World<Nest<C>>)
    requires WellFormed(m) && ValidId(m, cur) && States(m.table)[cur].Sub? && (e.OnEntry? ==> key.OnEntry?)
    ensures var out := Step(m, ParentEnv(machines, env, rounds), key, e, cur, w);
            Moved(machines, States(m.table)[cur], States(m.table)[out.cur], w.ctx, out.w.ctx)
  {
    var s := States(m.table)[cur];
    FoundRows(m, key, s);
    match m.Find(key, s)
    case Unmapped => SubRan(machines, env, rounds, s.k, e, w);
    case Found(rows) =>
      if e.OnEntry? {
        EntryRan(m, machines, env, rounds, key, e, cur, w);
      } else {
        SubThenRowsMoved(m, machines, env, rounds, s.k, rows, e, cur, w);
      }
  }

  lemma StepMoved<C(!new)>(m: Machine, machines: seq<Machine>, env: Env<C>, rounds: nat, key: Event, e: Event, cur: nat,
                           w: World<Nest<C>>)
    requires WellFormed(m) && ValidId(m, cur) && (e.OnEntry? ==> key.OnEntry?)
    ensures var out := Step(m, ParentEnv(machines, env, rounds), key, e, cur, w);
            Moved(machines, States(m.table)[cur], States(m.table)[out.cur], w.ctx, out.w.ctx)
  {
    var s := States(m.table)[cur];
    if s.Sub? {
      CompositeMoved(m, machines, env, rounds, key, e, cur, w);
    } else {
      FoundRows(m, key, s);
      match m.Find(key, s)
      case Unmapped => UnexpectedMoved(m, machines, env, rounds, e, cur, w);
      case Found(rows) => RowsMoved(m, machines, env, rounds, rows, e, cur, w);
    }
  }
}

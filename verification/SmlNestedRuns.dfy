/**
 A nested machine runs, and runs as a machine of its own: what a dispatch offers it is
 processed as `process_event` of that machine prescribes, on the shared context, and its answer
 decides whether the rows of the composite state are tried.
 */
module SmlNestedRuns {
  import opened TypeLists
  import opened SmlTable
  import opened SmlEngine
  import opened SmlComposite
  import opened SmlSteps
  import opened SmlNested
  import opened SmlHistory
  import R = SmlReplay

  /**
   From `w` to `w'` machine `k` has processed `e` to completion, with answer `h`: its regions,
   traces and queues and the shared context are what its own run makes of them, and nothing
   else has changed.
   */
  ghost predicate HasProcessed<C(!new)>(machines: seq<Machine>, env: Env<C>, rounds: nat, k: nat, e: Event,
                                        w: World<Nest<C>>, w': World<Nest<C>>, h: bool)
    requires NestValid(machines, w.ctx) && k < |machines|
  {
    && |w'.ctx.subs| == |w.ctx.subs|
    && (h, SubConfig(w'.ctx, k)) == ProcessEvent(machines[k], env, rounds, e, SubConfig(w.ctx, k))
    && (forall j :: 0 <= j < |w.ctx.subs| && j != k ==> w'.ctx.subs[j] == w.ctx.subs[j])
    && w'.ctx.visits == w.ctx.visits
    && w'.defer == w.defer && w'.process == w.process && w'.deferLog == w.deferLog && w'.processLog == w.processLog
  }

  /** Every region of machine `k` is in the terminate state. */
  ghost predicate Terminated<C>(machines: seq<Machine>, k: nat, p: Nest<C>)
    requires NestValid(machines, p) && k < |machines|
  {
    forall r :: 0 <= r < |p.subs[k].regions| ==> p.subs[k].regions[r] == StateId(machines[k].table, Terminate)
  }

  /** When terminate is a state of the machine, that is a matter of states, not of ids. */
  lemma TerminatedStates<C>(machines: seq<Machine>, k: nat, p: Nest<C>)
    requires NestValid(machines, p) && k < |machines| && Terminate in States(machines[k].table)
    ensures Terminated(machines, k, p) <==>
              forall r :: 0 <= r < |p.subs[k].regions| ==>
                            p.subs[k].regions[r] < |States(machines[k].table)|
                            && States(machines[k].table)[p.subs[k].regions[r]] == Terminate
  {
    var table := machines[k].table;
    assert Valid(machines[k], SubConfig(p, k));
    StateIdOf(table, Terminate);
    forall r | 0 <= r < |p.subs[k].regions|
      ensures p.subs[k].regions[r] == StateId(table, Terminate) <==>
                p.subs[k].regions[r] < |States(table)| && States(table)[p.subs[k].regions[r]] == Terminate
    {
      assert ValidId(machines[k], SubConfig(p, k).regions[r]);
      StatesDiffer(table, p.subs[k].regions[r], StateId(table, Terminate));
    }
  }

  lemma StatesDiffer(table: seq<Row>, i: nat, j: nat)
    requires i < |States(table)| && j < |States(table)|
    ensures States(table)[i] == States(table)[j] <==> i == j
  {
    UniqueIsRemoveDuplicates(AllStates(table));
  }

  lemma OfferProcesses<C(!new)>(machines: seq<Machine>, env: Env<C>, rounds: nat, k: nat, e: Event, w: World<Nest<C>>)
    requires NestValid(machines, w.ctx) && k < |machines|
    ensures var penv := ParentEnv(machines, env, rounds);
            HasProcessed(machines, env, rounds, k, e, w, SubWorld(penv, k, e, w), penv.subProcess(k, e, w.ctx).0)
  {
    assert Valid(machines[k], SubConfig(w.ctx, k));
  }

  /**
   A row of the parent itself reads the shared context, and its action changes that context and
   the parent's queues; every nested machine's regions and queues stay.
   */
  lemma ParentRowRuns<C(!new)>(m: Machine, machines: seq<Machine>, env: Env<C>, rounds: nat, row: Row, e: Event,
                               cur: nat, w: World<Nest<C>>)
    requires WellFormed(m) && ValidId(m, cur) && row in m.table && row.dst == Internal && row.action.Do?
    ensures var (out, f) := (ExecuteRow(m, ParentEnv(machines, env, rounds), row, e, cur, w),
                             env.action(row.action.id, e, w.ctx.ctx));
            if row.guard.Always? || env.guard(row.guard.id, e, w.ctx.ctx) then
              && out.handled && out.w.ctx == Nest(f.ctx, w.ctx.subs, w.ctx.visits)
              && out.w.defer == w.defer + f.deferred && out.w.process == w.process + f.queued
            else !out.handled && out.w == w
  {
  }

  /** The rows the parent has for the dispatched event in the state of its region. */
  function ParentRows<C>(m: Machine, d: Dispatch<C>): seq<Row>
    requires Dispatchable(m, d)
  {
    DeclaredRows(m.table, d.key, Source(m, d))
  }

  /** What a dispatch has done, when the nested machine went before the rows of its state. */
  ghost predicate NestedFirst<C(!new)>(m: Machine, machines: seq<Machine>, env: Env<C>, rounds: nat, k: nat,
                                       d: Dispatch<Nest<C>>, w1: World<Nest<C>>, h: bool)
    requires Dispatchable(m, d) && NestValid(machines, d.before.w.ctx) && k < |machines|
  {
    var (handled, c) := StepRegion(m, ParentEnv(machines, env, rounds), d.key, d.e, d.r, d.before);
    && HasProcessed(machines, env, rounds, k, d.e, d.before.w, w1, h)
    && if h || ParentRows(m, d) == [] then handled && c.regions == d.before.regions && c.w == w1
       else
         && (forall row :: row in ParentRows(m, d) ==> row in m.table)
         && var out := ExecuteRows(m, ParentEnv(machines, env, rounds), ParentRows(m, d), d.e,
                                   d.before.regions[d.r], w1);
            handled == out.handled && c.regions == d.before.regions[d.r := out.cur] && c.w == out.w
  }

  /**
   Every dispatch in a composite state but entry events and refused anonymous ones: machine `k`
   processes the event; if it handles it, or the state has no row for it, that is all;
   otherwise the rows of the state are tried, after it.
   */
  lemma NestedProcessesFirst<C(!new)>(m: Machine, machines: seq<Machine>, env: Env<C>, rounds: nat, k: nat,
                                      d: Dispatch<Nest<C>>)
    requires Dispatchable(m, d) && Source(m, d) == Sub(k) && NestValid(machines, d.before.w.ctx) && k < |machines|
    requires ParentRows(m, d) == [] ||
             (!d.e.OnEntry? && (d.e == Anonymous ==> Terminated(machines, k, d.before.w.ctx)))
    ensures exists w1, h :: NestedFirst(m, machines, env, rounds, k, d, w1, h)
  {
    var penv, w := ParentEnv(machines, env, rounds), d.before.w;
    var w1, h := SubWorld(penv, k, d.e, w), penv.subProcess(k, d.e, w.ctx).0;
    OfferProcesses(machines, env, rounds, k, d.e, w);
    FoundRows(m, d.key, Sub(k));
    assert d.before.regions[d.r := d.before.regions[d.r]] == d.before.regions;
    assert NestedFirst(m, machines, env, rounds, k, d, w1, h);
  }

  /** An anonymous event with rows in the composite state waits until the nested machine has terminated. */
  lemma AnonymousWaits<C(!new)>(m: Machine, machines: seq<Machine>, env: Env<C>, rounds: nat, k: nat,
                                d: Dispatch<Nest<C>>)
    requires Dispatchable(m, d) && Source(m, d) == Sub(k) && NestValid(machines, d.before.w.ctx) && k < |machines|
    requires d.e == Anonymous && ParentRows(m, d) != [] && !Terminated(machines, k, d.before.w.ctx)
    ensures StepRegion(m, ParentEnv(machines, env, rounds), d.key, d.e, d.r, d.before)
         == (false, d.before)
  {
    FoundRows(m, d.key, Sub(k));
    var c := StepRegion(m, ParentEnv(machines, env, rounds), d.key, d.e, d.r, d.before).1;
    assert c.regions == d.before.regions;
    assert d.before.traces[d.r] + ([] + []) == d.before.traces[d.r];
    assert c.traces == d.before.traces;
  }

  /** An entry event with rows in the composite state: the rows first, then machine `k` processes it. */
  lemma EntryGoesInAfterRows<C(!new)>(m: Machine, machines: seq<Machine>, env: Env<C>, rounds: nat, k: nat,
                                      d: Dispatch<Nest<C>>)
    requires Dispatchable(m, d) && Source(m, d) == Sub(k) && NestValid(machines, d.before.w.ctx) && k < |machines|
    requires d.e.OnEntry? && ParentRows(m, d) != []
    ensures forall row :: row in ParentRows(m, d) ==> row in m.table
    ensures var out := ExecuteRows(m, ParentEnv(machines, env, rounds), ParentRows(m, d), d.e,
                                   d.before.regions[d.r], d.before.w);
            var (handled, c) := StepRegion(m, ParentEnv(machines, env, rounds), d.key, d.e, d.r, d.before);
            && handled && c.regions == d.before.regions && NestValid(machines, out.w.ctx)
            && exists h :: HasProcessed(machines, env, rounds, k, d.e, out.w, c.w, h)
  {
    var penv, cur := ParentEnv(machines, env, rounds), d.before.regions[d.r];
    FoundRows(m, d.key, Sub(k));
    var rows := ParentRows(m, d);
    var out := ExecuteRows(m, penv, rows, d.e, cur, d.before.w);
    InternalRowsRan(m, machines, env, rounds, rows, d.e, cur, d.before.w);
    RowsValid(m, machines, env, rounds, rows, d.e, cur, d.before.w);
    OfferProcesses(machines, env, rounds, k, d.e, out.w);
    assert d.before.regions[d.r := cur] == d.before.regions;
  }

  lemma RowsValid<C(!new)>(m: Machine, machines: seq<Machine>, env: Env<C>, rounds: nat, rows: seq<Row>, e: Event,
                           cur: nat, w: World<Nest<C>>)
    requires WellFormed(m) && ValidId(m, cur) && rows != [] && forall row :: row in rows ==> row in m.table
    requires NestValid(machines, w.ctx)
    ensures NestValid(machines, ExecuteRows(m, ParentEnv(machines, env, rounds), rows, e, cur, w).w.ctx)
  {
    NestValidStable(machines, env, rounds);
    ExecuteRowsStable(m, ParentEnv(machines, env, rounds), rows, e, cur, w,
                      (x: World<Nest<C>>) => NestValid(machines, x.ctx), (k: nat, x: World<Nest<C>>) => true);
  }

  /** So it is for every dispatch of every run. */
  lemma RunNestedProcessesFirst<C(!new)>(m: Machine, machines: seq<Machine>, env: Env<C>, rounds: nat,
                                         events: seq<Event>, p: Nest<C>, k: nat, d: Dispatch<Nest<C>>)
    requires WellFormed(m) && NestValid(machines, p) && k < |machines|
    requires d in Dispatches(m, machines, env, rounds, events, p)
    ensures Dispatchable(m, d) && NestValid(machines, d.before.w.ctx)
    ensures Source(m, d) == Sub(k) && (ParentRows(m, d) == [] || !d.e.OnEntry?) ==>
              if ParentRows(m, d) != [] && d.e == Anonymous && !Terminated(machines, k, d.before.w.ctx) then
                StepRegion(m, ParentEnv(machines, env, rounds), d.key, d.e, d.r, d.before) == (false, d.before)
              else exists w1, h :: NestedFirst(m, machines, env, rounds, k, d, w1, h)
  {
    RunNestValid(m, machines, env, rounds, events, p);
    if Source(m, d) == Sub(k) && (ParentRows(m, d) == [] || !d.e.OnEntry?) {
      if ParentRows(m, d) != [] && d.e == Anonymous && !Terminated(machines, k, d.before.w.ctx) {
        AnonymousWaits(m, machines, env, rounds, k, d);
      } else {
        NestedProcessesFirst(m, machines, env, rounds, k, d);
      }
    }
  }

  // ----- exit and entry handlers of a composite state -----

  lemma HandlerRowsValid<C(!new)>(machines: seq<Machine>, env: Env<C>, rounds: nat, rows: seq<Row>, h: Event,
                                  w: World<Nest<C>>)
    requires NestValid(machines, w.ctx)
    ensures NestValid(machines, RunHandlers(ParentEnv(machines, env, rounds), rows, h, w).0.ctx)
  {
    NestValidStable(machines, env, rounds);
    RunHandlersStable(ParentEnv(machines, env, rounds), rows, h, w,
                      (x: World<Nest<C>>) => NestValid(machines, x.ctx), (k: nat, x: World<Nest<C>>) => true);
  }

  /** The handler rows of the composite state of machine `k`. */
  function HandlerRowsAt(m: Machine, h: Event, k: nat): seq<Row> {
    DeclaredRows(m.table, R.KeyOf(m, h), Sub(k))
  }

  /** Entering a composite state: its handler rows, then machine `k` processes the entry event. */
  lemma EntryHandlerGoesIn<C(!new)>(m: Machine, machines: seq<Machine>, env: Env<C>, rounds: nat, k: nat, h: Event,
                                    cur: nat, w: World<Nest<C>>)
    requires ValidId(m, cur) && States(m.table)[cur] == Sub(k) && NestValid(machines, w.ctx) && k < |machines|
    requires h.OnEntry? && m.HasEntryExits() && m.Enabled(R.KeyOf(m, h))
    ensures var w1 := RunHandlers(ParentEnv(machines, env, rounds), HandlerRowsAt(m, h, k), h, w).0;
            && NestValid(machines, w1.ctx)
            && exists handled ::
                 HasProcessed(machines, env, rounds, k, h, w1,
                              HandlerIf(m, ParentEnv(machines, env, rounds), h, cur, w).0, handled)
  {
    var penv := ParentEnv(machines, env, rounds);
    var w1 := RunHandlers(penv, HandlerRowsAt(m, h, k), h, w).0;
    FoundRows(m, R.KeyOf(m, h), Sub(k));
    HandlerRowsValid(machines, env, rounds, HandlerRowsAt(m, h, k), h, w);
    OfferProcesses(machines, env, rounds, k, h, w1);
    assert HandlerIf(m, penv, h, cur, w).0 == SubWorld(penv, k, h, w1);
  }

  /** Machine `k` has processed the exit event; if it did not handle it the handler rows have run after it. */
  ghost predicate LeftFromInside<C(!new)>(m: Machine, machines: seq<Machine>, env: Env<C>, rounds: nat, k: nat,
                                          h: Event, w: World<Nest<C>>, w1: World<Nest<C>>, w2: World<Nest<C>>,
                                          handled: bool)
    requires NestValid(machines, w.ctx) && k < |machines|
  {
    && HasProcessed(machines, env, rounds, k, h, w, w1, handled)
    && w2 == if handled then w1 else RunHandlers(ParentEnv(machines, env, rounds), HandlerRowsAt(m, h, k), h, w1).0
  }

  /** Leaving a composite state: machine `k` goes first. */
  lemma ExitHandlerGoesIn<C(!new)>(m: Machine, machines: seq<Machine>, env: Env<C>, rounds: nat, k: nat, h: Event,
                                   cur: nat, w: World<Nest<C>>)
    requires ValidId(m, cur) && States(m.table)[cur] == Sub(k) && NestValid(machines, w.ctx) && k < |machines|
    requires h.OnExit? && m.HasEntryExits() && m.Enabled(R.KeyOf(m, h))
    ensures exists w1, handled ::
              LeftFromInside(m, machines, env, rounds, k, h, w, w1,
                             HandlerIf(m, ParentEnv(machines, env, rounds), h, cur, w).0, handled)
  {
    var penv := ParentEnv(machines, env, rounds);
    var w1, handled := SubWorld(penv, k, h, w), penv.subProcess(k, h, w.ctx).0;
    FoundRows(m, R.KeyOf(m, h), Sub(k));
    OfferProcesses(machines, env, rounds, k, h, w);
    assert LeftFromInside(m, machines, env, rounds, k, h, w, w1, HandlerIf(m, penv, h, cur, w).0, handled);
  }
}

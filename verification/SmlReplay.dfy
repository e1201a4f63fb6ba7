/**
 The trace tells the truth. What a dispatch does to the context and the queues is what its
 observations say, replayed one by one with the meaning of guards, actions and nested
 machines; every guard and every offer has the result observed. So an action that is seen has
 run, on the context of that moment and with its event, and each of its pushes is in the queue
 it was meant for. Over a run the replay of all observations gives the context and all pushes.
 */
module SmlReplay {
  import opened SmlTable
  import opened SmlEngine
  import opened SmlSteps

  /** An action replaces the context, defers and queues; nested machines are run and entered. */
  function ReplayOne<C>(env: Env<C>, o: Obs, w: World<C>): World<C> {
    match o
    case Ran(row, e) =>
      if row.action.NoAction? then w
      else
        var f := env.action(row.action.id, e, w.ctx);
        World(f.ctx, w.defer + f.deferred, w.process + f.queued, w.deferLog + f.deferred, w.processLog + f.queued)
    case Offered(k, e, _) => w.(ctx := env.subProcess(k, e, w.ctx).1)
    case Changed(_, dst) => if dst.Sub? then w.(ctx := env.subEnter(dst.k, w.ctx)) else w
    case _ => w
  }

  predicate TrueOne<C>(env: Env<C>, o: Obs, w: World<C>) {
    match o
    case Guarded(row, e, result) => row.guard.Check? && result == env.guard(row.guard.id, e, w.ctx)
    case Ran(row, _) => row.action.Do?
    case Offered(k, e, handled) => handled == env.subProcess(k, e, w.ctx).0
    case _ => true
  }

  function Replay<C>(env: Env<C>, obs: seq<Obs>, w: World<C>): World<C>
    decreases |obs|
  {
    if obs == [] then w else Replay(env, obs[1..], ReplayOne(env, obs[0], w))
  }

  predicate Truthful<C>(env: Env<C>, obs: seq<Obs>, w: World<C>)
    decreases |obs|
  {
    obs == [] || (TrueOne(env, obs[0], w) && Truthful(env, obs[1..], ReplayOne(env, obs[0], w)))
  }

  /** `obs` is true of `w` and leads to `w'`. */
  ghost predicate Tells<C>(env: Env<C>, obs: seq<Obs>, w: World<C>, w': World<C>) {
    Truthful(env, obs, w) && Replay(env, obs, w) == w'
  }

  lemma TellsNothing<C>(env: Env<C>, w: World<C>)
    ensures Tells(env, [], w, w)
  {
  }

  lemma TellsOne<C>(env: Env<C>, o: Obs, w: World<C>)
    requires TrueOne(env, o, w)
    ensures Tells(env, [o], w, ReplayOne(env, o, w))
  {
    assert [o][1..] == [];
  }

  lemma {:induction false} TellsConcat<C>(env: Env<C>, a: seq<Obs>, b: seq<Obs>, w: World<C>, w1: World<C>,
                                          w2: World<C>)
    requires Tells(env, a, w, w1) && Tells(env, b, w1, w2)
    ensures Tells(env, a + b, w, w2)
    decreases |a|
  {
    if a == [] {
      assert a + b == b;
    } else {
      assert (a + b)[0] == a[0] && (a + b)[1..] == a[1..] + b;
      TellsConcat(env, a[1..], b, ReplayOne(env, a[0], w), w1, w2);
    }
  }

  // ----- the pieces -----

  lemma GuardTells<C>(env: Env<C>, row: Row, e: Event, w: World<C>)
    ensures Tells(env, GuardObs(env, row, e, w), w, w)
  {
    if row.guard.Check? {
      TellsOne(env, Guarded(row, e, GuardHolds(env, row, e, w)), w);
    }
  }

  lemma ActionTells<C>(env: Env<C>, row: Row, e: Event, w: World<C>)
    ensures Tells(env, ActionObs(row, e), w, ActionWorld(env, row, e, w))
  {
    if row.action.Do? {
      TellsOne(env, Ran(row, e), w);
    }
  }

  lemma OfferTells<C>(env: Env<C>, k: nat, e: Event, w: World<C>)
    ensures Tells(env, OfferObs(env, k, e, w), w, SubWorld(env, k, e, w))
  {
    TellsOne(env, Offered(k, e, env.subProcess(k, e, w.ctx).0), w);
  }

  lemma {:induction false} RunHandlersTell<C>(env: Env<C>, rows: seq<Row>, h: Event, w: World<C>)
    ensures var (w', obs) := RunHandlers(env, rows, h, w); Tells(env, obs, w, w')
  {
    if rows != [] {
      var o := GuardObs(env, rows[0], h, w);
      GuardTells(env, rows[0], h, w);
      if GuardHolds(env, rows[0], h, w) {
        ActionTells(env, rows[0], h, w);
        TellsConcat(env, o, ActionObs(rows[0], h), w, w, ActionWorld(env, rows[0], h, w));
      } else {
        RunHandlersTell(env, rows[1..], h, w);
        var (w', obs) := RunHandlers(env, rows[1..], h, w);
        TellsConcat(env, o, obs, w, w, w');
      }
    }
  }

  lemma OfferThenRowsTell<C>(env: Env<C>, k: nat, rows: seq<Row>, h: Event, w: World<C>)
    ensures var (w', obs) := RunHandlers(env, rows, h, SubWorld(env, k, h, w));
            Tells(env, OfferObs(env, k, h, w) + obs, w, w')
  {
    var (w', obs) := RunHandlers(env, rows, h, SubWorld(env, k, h, w));
    OfferTells(env, k, h, w);
    RunHandlersTell(env, rows, h, SubWorld(env, k, h, w));
    TellsConcat(env, OfferObs(env, k, h, w), obs, w, SubWorld(env, k, h, w), w');
  }

  lemma RowsThenOfferTell<C>(env: Env<C>, k: nat, rows: seq<Row>, h: Event, w: World<C>)
    ensures var (w', obs) := RunHandlers(env, rows, h, w);
            Tells(env, obs + OfferObs(env, k, h, w'), w, SubWorld(env, k, h, w'))
  {
    var (w', obs) := RunHandlers(env, rows, h, w);
    RunHandlersTell(env, rows, h, w);
    OfferTells(env, k, h, w');
    TellsConcat(env, obs, OfferObs(env, k, h, w'), w, w', SubWorld(env, k, h, w'));
  }

  lemma LogTells<C>(env: Env<C>, o: Obs, obs: seq<Obs>, w: World<C>, w': World<C>)
    requires (o.Entered? || o.Exited?) && Tells(env, obs, w, w')
    ensures Tells(env, [o] + obs, w, w')
  {
    TellsOne(env, o, w);
    TellsConcat(env, [o], obs, w, w, w');
  }

  lemma HandlerTells<C>(m: Machine, env: Env<C>, h: Event, cur: nat, w: World<C>)
    requires ValidId(m, cur)
    ensures var (w', obs) := HandlerIf(m, env, h, cur, w); Tells(env, obs, w, w')
  {
    var key, s := HandlerKey(m, h), States(m.table)[cur];
    if m.HasEntryExits() && m.Enabled(key) {
      var rows := if m.Find(key, s).Found? then m.Find(key, s).rows else [];
      var log := if h.OnEntry? then Entered(s) else Exited(s);
      var (w', obs) := HandlerIf(m, env, h, cur, w);
      if s.Sub? {
        OfferTells(env, s.k, h, w);
        OfferThenRowsTell(env, s.k, rows, h, w);
        RowsThenOfferTell(env, s.k, rows, h, w);
      } else {
        RunHandlersTell(env, rows, h, w);
      }
      assert obs == [log] + obs[1..];
      LogTells(env, log, obs[1..], w, w');
    }
  }

  // ----- transitions -----

  lemma ExternalTells<C>(m: Machine, env: Env<C>, row: Row, e: Event, cur: nat, w: World<C>)
    requires WellFormed(m) && ValidId(m, cur) && row in m.table && row.dst != Internal
    ensures var out := Fire(m, env, row, e, cur, w); Tells(env, out.obs, w, out.w)
  {
    TargetIsState(m, row);
    var (w1, o1) := HandlerIf(m, env, OnExit(e), cur, w);
    var w2 := EnterWorld(env, row.dst, w1);
    var w3 := ActionWorld(env, row, e, w2);
    var (w4, o4) := HandlerIf(m, env, OnEntry(e), StateId(m.table, row.dst), w3);
    HandlerTells(m, env, OnExit(e), cur, w);
    TellsOne(env, Changed(row.src, row.dst), w1);
    ActionTells(env, row, e, w2);
    HandlerTells(m, env, OnEntry(e), StateId(m.table, row.dst), w3);
    TellsConcat(env, o1, [Changed(row.src, row.dst)], w, w1, w2);
    TellsConcat(env, o1 + [Changed(row.src, row.dst)], ActionObs(row, e), w, w2, w3);
    TellsConcat(env, o1 + [Changed(row.src, row.dst)] + ActionObs(row, e), o4, w, w3, w4);
  }

  lemma FireTells<C>(m: Machine, env: Env<C>, row: Row, e: Event, cur: nat, w: World<C>)
    requires WellFormed(m) && ValidId(m, cur) && row in m.table
    ensures var out := Fire(m, env, row, e, cur, w); Tells(env, out.obs, w, out.w)
  {
    if row.dst == Internal {
      ActionTells(env, row, e, w);
    } else {
      ExternalTells(m, env, row, e, cur, w);
    }
  }

  lemma {:induction false} RowsTell<C>(m: Machine, env: Env<C>, rows: seq<Row>, e: Event, cur: nat, w: World<C>)
    requires WellFormed(m) && ValidId(m, cur) && rows != [] && forall row :: row in rows ==> row in m.table
    ensures var out := ExecuteRows(m, env, rows, e, cur, w); Tells(env, out.obs, w, out.w)
    decreases |rows|
  {
    var o := GuardObs(env, rows[0], e, w);
    GuardTells(env, rows[0], e, w);
    if GuardHolds(env, rows[0], e, w) {
      var out := Fire(m, env, rows[0], e, cur, w);
      FireTells(m, env, rows[0], e, cur, w);
      TellsConcat(env, o, out.obs, w, w, out.w);
    } else if |rows| > 1 {
      var out := ExecuteRows(m, env, rows[1..], e, cur, w);
      RowsTell(m, env, rows[1..], e, cur, w);
      TellsConcat(env, o, out.obs, w, w, out.w);
    }
  }

  lemma UnexpectedTells<C>(m: Machine, env: Env<C>, e: Event, cur: nat, w: World<C>)
    requires WellFormed(m) && ValidId(m, cur)
    ensures var out := UnexpectedStep(m, env, e, cur, w); Tells(env, out.obs, w, out.w)
  {
    var s := States(m.table)[cur];
    FoundRows(m, Unexpected(e), s);
    if m.Find(Unexpected(e), s).Found? {
      RowsTell(m, env, m.Find(Unexpected(e), s).rows, Unexpected(e), cur, w);
    }
  }

  lemma SubThenRowsTells<C>(m: Machine, env: Env<C>, k: nat, rows: seq<Row>, e: Event, cur: nat, w: World<C>)
    requires WellFormed(m) && ValidId(m, cur) && rows != [] && forall row :: row in rows ==> row in m.table
    ensures var out := SubThenRows(m, env, k, rows, e, cur, w); Tells(env, out.obs, w, out.w)
  {
    var w' := SubWorld(env, k, e, w);
    OfferTells(env, k, e, w);
    RowsTell(m, env, rows, e, cur, w');
    var out := ExecuteRows(m, env, rows, e, cur, w');
    TellsConcat(env, OfferObs(env, k, e, w), out.obs, w, w', out.w);
  }

  lemma CompositeTells<C>(m: Machine, env: Env<C>, key: Event, e: Event, cur: nat, w: World<C>)
    requires WellFormed(m) && ValidId(m, cur) && States(m.table)[cur].Sub?
    ensures var out := Step(m, env, key, e, cur, w); Tells(env, out.obs, w, out.w)
  {
    var s := States(m.table)[cur];
    FoundRows(m, key, s);
    match m.Find(key, s)
    case Unmapped => OfferTells(env, s.k, e, w);
    case Found(rows) =>
      if e.OnEntry? {
        var out := ExecuteRows(m, env, rows, e, cur, w);
        RowsTell(m, env, rows, e, cur, w);
        OfferTells(env, s.k, e, out.w);
        TellsConcat(env, out.obs, OfferObs(env, s.k, e, out.w), w, out.w, SubWorld(env, s.k, e, out.w));
      } else {
        SubThenRowsTells(m, env, s.k, rows, e, cur, w);
      }
  }

  /** One dispatch, in a simple or a composite state: its observations are true and tell all it did. */
  lemma StepTells<C>(m: Machine, env: Env<C>, key: Event, e: Event, cur: nat, w: World<C>)
    requires WellFormed(m) && ValidId(m, cur)
    ensures var out := Step(m, env, key, e, cur, w);
            Truthful(env, out.obs, w) && out.w == Replay(env, out.obs, w)
  {
    var s := States(m.table)[cur];
    if s.Sub? {
      CompositeTells(m, env, key, e, cur, w);
    } else {
      FoundRows(m, key, s);
      match m.Find(key, s)
      case Unmapped => UnexpectedTells(m, env, e, cur, w);
      case Found(rows) => RowsTell(m, env, rows, e, cur, w);
    }
  }

  /** And nothing is missing: a row that fires has its action observed, between exit and entry. */
  lemma FiringRunsItsAction<C>(m: Machine, env: Env<C>, row: Row, e: Event, cur: nat, w: World<C>)
    requires WellFormed(m) && ValidId(m, cur) && row in m.table && row.action.Do?
    ensures var obs := Fire(m, env, row, e, cur, w).obs;
            if row.dst == Internal then obs == [Ran(row, e)]
            else exists i :: 0 <= i < |obs| - 1 && obs[i] == Changed(row.src, row.dst) && obs[i + 1] == Ran(row, e)
  {
    if row.dst != Internal {
      var o1 := HandlerIf(m, env, OnExit(e), cur, w).1;
      var obs := Fire(m, env, row, e, cur, w).obs;
      assert obs[|o1|] == Changed(row.src, row.dst) && obs[|o1| + 1] == Ran(row, e);
    }
  }

  // ----- entry and exit handlers -----

  /** The rows whose event is `key`: those of a handler targeted at the triggering event, if the machine knows one. */
  function KeyOf(m: Machine, h: Event): Event {
    if m.Enabled(h) then h else if h.OnEntry? then OnEntry(Any) else OnExit(Any)
  }

  predicate Holds<C>(env: Env<C>, row: Row, e: Event, w: World<C>) {
    row.guard.Always? || env.guard(row.guard.id, e, w.ctx)
  }

  /** The first row whose guard holds, and only that one, runs its action. */
  lemma {:induction false} FirstHandlerRuns<C>(env: Env<C>, rows: seq<Row>, h: Event, w: World<C>, i: nat)
    requires i < |rows| && Holds(env, rows[i], h, w) && forall j :: 0 <= j < i ==> !Holds(env, rows[j], h, w)
    ensures var obs := RunHandlers(env, rows, h, w).1;
            && (rows[i].action.Do? ==> obs != [] && obs[|obs| - 1] == Ran(rows[i], h))
            && (forall o :: o in obs && o.Ran? ==> o == Ran(rows[i], h))
            && (forall o :: o in obs ==> o.Ran? || o.Guarded?)
  {
    if i > 0 {
      assert forall j :: 0 <= j < i ==> rows[1..][j] == rows[j + 1];
      FirstHandlerRuns(env, rows[1..], h, w, i - 1);
    }
  }

  lemma {:induction false} NoHandlerRuns<C>(env: Env<C>, rows: seq<Row>, h: Event, w: World<C>)
    requires forall j :: 0 <= j < |rows| ==> !Holds(env, rows[j], h, w)
    ensures forall o :: o in RunHandlers(env, rows, h, w).1 ==> o.Guarded?
  {
    if rows != [] {
      NoHandlerRuns(env, rows[1..], h, w);
    }
  }

  /**
   Entering or leaving a simple state: of the rows declared there for the handler's key, the
   first whose guard holds runs its action with the handler's event, and no other row does.
   A row targeted at the triggering event, in whatever state, hides the untargeted ones.
   */
  lemma HandlerRuns<C>(m: Machine, env: Env<C>, h: Event, cur: nat, w: World<C>, i: nat)
    requires ValidId(m, cur) && !States(m.table)[cur].Sub? && (h.OnEntry? || h.OnExit?)
    requires var rows := DeclaredRows(m.table, KeyOf(m, h), States(m.table)[cur]);
             && i < |rows| && Holds(env, rows[i], h, w)
             && forall j :: 0 <= j < i ==> !Holds(env, rows[j], h, w)
    ensures var row, obs := DeclaredRows(m.table, KeyOf(m, h), States(m.table)[cur])[i], HandlerIf(m, env, h, cur, w).1;
            && row.event == (if m.Enabled(h) then h else if h.OnEntry? then OnEntry(Any) else OnExit(Any))
            && (row.action.Do? ==> Ran(row, h) in obs)
            && forall o :: o in obs && o.Ran? ==> o == Ran(row, h)
  {
    var key, s := KeyOf(m, h), States(m.table)[cur];
    var rows := DeclaredRows(m.table, key, s);
    FoundRows(m, key, s);
    assert rows[i] in rows;
    RowMakesEnabled(m, rows[i]);
    FirstHandlerRuns(env, rows, h, w, i);
  }

  lemma RowMakesEnabled(m: Machine, row: Row)
    requires row in m.table
    ensures m.Enabled(row.event) && (row.event.OnEntry? || row.event.OnExit? ==> m.HasEntryExits())
  {
    var i :| 0 <= i < |m.table| && m.table[i] == row;
    assert m.table[i].event == row.event;
  }

  // ----- runs -----

  /** What region `d.r` shows of a dispatch. */
  function Observed<C>(m: Machine, env: Env<C>, d: Dispatch<C>): seq<Obs>
    requires Dispatchable(m, d)
  {
    After(m, env, d).traces[d.r][|d.before.traces[d.r]|..]
  }

  lemma DispatchTells<C>(m: Machine, env: Env<C>, d: Dispatch<C>)
    requires Dispatchable(m, d)
    ensures d.before.traces[d.r] <= After(m, env, d).traces[d.r]
    ensures Tells(env, Observed(m, env, d), d.before.w, After(m, env, d).w)
  {
    var out := Step(m, env, d.key, d.e, d.before.regions[d.r], d.before.w);
    var announced := Announced(d.e, Source(m, d));
    StepTells(m, env, d.key, d.e, d.before.regions[d.r], d.before.w);
    assert Observed(m, env, d) == announced + out.obs;
    if announced != [] {
      LogTells(env, announced[0], out.obs, d.before.w, out.w);
    } else {
      assert announced + out.obs == out.obs;
    }
  }

  /** The observations of all dispatches, in the order of the run. */
  function AllObserved<C>(m: Machine, env: Env<C>, ds: seq<Dispatch<C>>): seq<Obs>
    requires forall d :: d in ds ==> Dispatchable(m, d)
    decreases |ds|
  {
    if ds == [] then [] else Observed(m, env, ds[0]) + AllObserved(m, env, ds[1..])
  }

  /** The same context and the same pushes so far; the queues may differ by what the drains took. */
  ghost predicate Alike<C>(w: World<C>, w': World<C>) {
    w.ctx == w'.ctx && w.deferLog == w'.deferLog && w.processLog == w'.processLog
  }

  lemma {:induction false} ReplayAlike<C>(env: Env<C>, obs: seq<Obs>, w: World<C>, w': World<C>)
    requires Alike(w, w')
    ensures Alike(Replay(env, obs, w), Replay(env, obs, w')) && (Truthful(env, obs, w) <==> Truthful(env, obs, w'))
    decreases |obs|
  {
    if obs != [] {
      ReplayAlike(env, obs[1..], ReplayOne(env, obs[0], w), ReplayOne(env, obs[0], w'));
    }
  }

  lemma {:induction false} LinkedDispatchable<C>(m: Machine, env: Env<C>, ds: seq<Dispatch<C>>, c: Config<C>,
                                                 c': Config<C>)
    requires Linked(m, env, ds, c, c')
    ensures forall d :: d in ds ==> Dispatchable(m, d)
    decreases |ds|
  {
    if ds != [] {
      LinkedDispatchable(m, env, ds[1..], After(m, env, ds[0]), c');
    }
  }

  /** From `w`, up to the queues, the observations of `ds` are true and lead to `w'`, up to the queues. */
  ghost predicate Accounts<C>(m: Machine, env: Env<C>, ds: seq<Dispatch<C>>, w: World<C>, w': World<C>)
    requires forall d :: d in ds ==> Dispatchable(m, d)
  {
    Truthful(env, AllObserved(m, env, ds), w) && Alike(Replay(env, AllObserved(m, env, ds), w), w')
  }

  lemma AccountsMore<C>(m: Machine, env: Env<C>, d: Dispatch<C>, ds: seq<Dispatch<C>>, w: World<C>, w': World<C>)
    requires Dispatchable(m, d) && (forall x :: x in ds ==> Dispatchable(m, x)) && Alike(w, d.before.w)
    requires Accounts(m, env, ds, After(m, env, d).w, w')
    ensures forall x :: x in [d] + ds ==> Dispatchable(m, x)
    ensures Accounts(m, env, [d] + ds, w, w')
  {
    var first, rest := Observed(m, env, d), AllObserved(m, env, ds);
    assert ([d] + ds)[1..] == ds;
    DispatchTells(m, env, d);
    TellsConcat(env, first, rest, d.before.w, After(m, env, d).w, Replay(env, rest, After(m, env, d).w));
    ReplayAlike(env, first + rest, w, d.before.w);
  }

  lemma {:induction false} LinkedAccounts<C>(m: Machine, env: Env<C>, ds: seq<Dispatch<C>>, c: Config<C>, c': Config<C>)
    requires Linked(m, env, ds, c, c')
    ensures forall d :: d in ds ==> Dispatchable(m, d)
    ensures Accounts(m, env, ds, c.w, c'.w)
    decreases |ds|
  {
    LinkedDispatchable(m, env, ds, c, c');
    if ds != [] {
      LinkedAccounts(m, env, ds[1..], After(m, env, ds[0]), c');
      AccountsMore(m, env, ds[0], ds[1..], c.w, c'.w);
      assert ds == [ds[0]] + ds[1..];
    }
  }

  /**
   Over every run: the observations of all its dispatches are true, and replaying them from the
   empty world gives the context of the run and every event ever deferred and queued.
   */
  lemma RunIsReplayed<C(!new)>(m: Machine, env: Env<C>, rounds: nat, events: seq<Event>, ctx: C)
    requires WellFormed(m)
    ensures forall d :: d in RunDispatches(m, env, rounds, events, ctx) ==> Dispatchable(m, d)
    ensures var obs := AllObserved(m, env, RunDispatches(m, env, rounds, events, ctx));
            var start, w := World(ctx, [], [], [], []), Run(m, env, rounds, events, ctx).w;
            && Truthful(env, obs, start)
            && w.ctx == Replay(env, obs, start).ctx
            && w.deferLog == Replay(env, obs, start).deferLog && w.processLog == Replay(env, obs, start).processLog
  {
    RunIsItsDispatches(m, env, rounds, events, ctx);
    LinkedAccounts(m, env, RunDispatches(m, env, rounds, events, ctx), InitialConfig(m, ctx),
                   Run(m, env, rounds, events, ctx));
  }
}

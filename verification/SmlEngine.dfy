/**
 The run-time of the state machine: row execution with entry and exit handlers, dispatch of
 one event to one region, the loop over orthogonal regions, the anonymous event, the defer
 queue and the process queue. Everything here is a function on values; `SmlMachine` holds
 the class whose methods compute these functions in place.
 */
module SmlEngine {
  import opened SmlTable

  /** What an action does: a new context and the events it pushes to the two queues. */
  datatype Effect<C> = Effect(ctx: C, deferred: seq<Event>, queued: seq<Event>)

  /** The meaning of guard and action names, and the nested machines, over a context `C`. */
  datatype Env<!C> = Env(
    guard: (nat, Event, C) -> bool,
    action: (nat, Event, C) -> Effect<C>,
    subProcess: (nat, Event, C) -> (bool, C),
    subEnter: (nat, C) -> C,
    subTerminated: (nat, C) -> bool)

  /** The context and both queues; the two logs record every push ever made. */
  datatype World<C> = World(ctx: C, defer: seq<Event>, process: seq<Event>,
                            deferLog: seq<Event>, processLog: seq<Event>)

  /**
   What the logger policy sees of one region: guards and actions with the event they are given,
   state changes, entry and exit events, and events offered to nested machines.
   */
  datatype Obs =
    | Guarded(row: Row, e: Event, result: bool)
    | Ran(row: Row, e: Event)
    | Offered(k: nat, e: Event, handled: bool)
    | Exited(s: State)
    | Changed(src: State, dst: State)
    | Entered(s: State)

  datatype Out<C> = Out(handled: bool, cur: nat, w: World<C>, obs: seq<Obs>)

  /**
   `subEvents` are the internal events of the nested machines, which count among the parent's
   events. `anyRegion` selects the build: with fold expressions the last region's result is
   returned, without them the results of all regions are or-ed.
   */
  datatype Machine = Machine(table: seq<Row>, subEvents: seq<Event>, anyRegion: bool) {

    predicate Enabled(e: Event) {
      HasEvent(table, e) || e in subEvents
    }

    predicate HasEntryExits() {
      || (exists i :: 0 <= i < |table| && (table[i].event.OnEntry? || table[i].event.OnExit?))
      || (exists i :: 0 <= i < |subEvents| && (subEvents[i].OnEntry? || subEvents[i].OnExit?))
    }

    predicate HasUnexpected() {
      || (exists i :: 0 <= i < |table| && table[i].event.Unexpected?)
      || (exists i :: 0 <= i < |subEvents| && subEvents[i].Unexpected?)
    }

    function Find(e: Event, s: State): Found {
      Lookup(Compile(table), e, s)
    }
  }

  /** Entry and exit rows have no target, and `unexpected_event` is handled for ordinary events only. */
  ghost predicate WellFormed(m: Machine) {
    && |States(m.table)| <= 0x1_0000
    && InitialStates(m.table) != []
    && (forall row :: row in m.table ==> row.src != Internal)
    && (forall row :: row in m.table && (row.event.OnEntry? || row.event.OnExit?) ==> row.dst == Internal)
    && (forall e :: m.Enabled(e) && e.Unexpected? ==> !OwnRowsOnly(e.of))
  }

  ghost predicate ValidId(m: Machine, cur: nat) {
    cur < |States(m.table)|
  }

  // ----- one row -----

  predicate GuardHolds<C>(env: Env<C>, row: Row, e: Event, w: World<C>) {
    row.guard.Always? || env.guard(row.guard.id, e, w.ctx)
  }

  function GuardObs<C>(env: Env<C>, row: Row, e: Event, w: World<C>): seq<Obs> {
    if row.guard.Always? then [] else [Guarded(row, e, GuardHolds(env, row, e, w))]
  }

  function Apply<C>(w: World<C>, f: Effect<C>): World<C> {
    World(f.ctx, w.defer + f.deferred, w.process + f.queued, w.deferLog + f.deferred, w.processLog + f.queued)
  }

  function ActionWorld<C>(env: Env<C>, row: Row, e: Event, w: World<C>): World<C> {
    if row.action.NoAction? then w else Apply(w, env.action(row.action.id, e, w.ctx))
  }

  function ActionObs(row: Row, e: Event): seq<Obs> {
    if row.action.NoAction? then [] else [Ran(row, e)]
  }

  function SubWorld<C>(env: Env<C>, k: nat, e: Event, w: World<C>): World<C> {
    w.(ctx := env.subProcess(k, e, w.ctx).1)
  }

  function OfferObs<C>(env: Env<C>, k: nat, e: Event, w: World<C>): seq<Obs> {
    [Offered(k, e, env.subProcess(k, e, w.ctx).0)]
  }

  /** `update_composite_states`, when the new state is a nested machine. */
  function EnterWorld<C>(env: Env<C>, dst: State, w: World<C>): World<C> {
    if dst.Sub? then w.(ctx := env.subEnter(dst.k, w.ctx)) else w
  }

  // ----- entry and exit handlers -----

  /** Handler rows: the first whose guard holds runs its action. */
  function RunHandlers<C>(env: Env<C>, rows: seq<Row>, h: Event, w: World<C>): (World<C>, seq<Obs>) {
    if rows == [] then (w, [])
    else if GuardHolds(env, rows[0], h, w) then
      (ActionWorld(env, rows[0], h, w), GuardObs(env, rows[0], h, w) + ActionObs(rows[0], h))
    else
      var (w', obs) := RunHandlers(env, rows[1..], h, w);
      (w', GuardObs(env, rows[0], h, w) + obs)
  }

  /** A handler targeted at the triggering event shadows the untargeted ones, for every state. */
  function HandlerKey(m: Machine, h: Event): Event {
    if h.OnEntry? then (if m.Enabled(h) then h else OnEntry(Any))
    else if h.OnExit? then (if m.Enabled(h) then h else OnExit(Any))
    else h
  }

  /** `process_internal_event` of `on_entry` or `on_exit` at one region. */
  function Handler<C>(m: Machine, env: Env<C>, h: Event, cur: nat, w: World<C>): (World<C>, seq<Obs>)
    requires cur < |States(m.table)|
  {
    var key := HandlerKey(m, h);
    if !m.Enabled(key) then (w, [])
    else
      var s := States(m.table)[cur];
      var log := [if h.OnEntry? then Entered(s) else Exited(s)];
      match m.Find(key, s)
      case Unmapped =>
        if s.Sub? then (SubWorld(env, s.k, h, w), log + OfferObs(env, s.k, h, w)) else (w, log)
      case Found(rows) =>
        if !s.Sub? then
          var (w', obs) := RunHandlers(env, rows, h, w);
          (w', log + obs)
        else if h.OnEntry? then
          var (w', obs) := RunHandlers(env, rows, h, w);
          (SubWorld(env, s.k, h, w'), log + (obs + OfferObs(env, s.k, h, w')))
        else if env.subProcess(s.k, h, w.ctx).0 then
          (SubWorld(env, s.k, h, w), log + OfferObs(env, s.k, h, w))
        else
          var (w', obs) := RunHandlers(env, rows, h, SubWorld(env, s.k, h, w));
          (w', log + (OfferObs(env, s.k, h, w) + obs))
  }

  function HandlerIf<C>(m: Machine, env: Env<C>, h: Event, cur: nat, w: World<C>): (World<C>, seq<Obs>)
    requires cur < |States(m.table)|
  {
    if m.HasEntryExits() then Handler(m, env, h, cur, w) else (w, [])
  }

  // ----- transitions -----

  /** `transition::execute` after its guard: exit, change state, action, entry. */
  function Fire<C>(m: Machine, env: Env<C>, row: Row, e: Event, cur: nat, w: World<C>): (out: Out<C>)
    requires WellFormed(m) && ValidId(m, cur) && row in m.table
    ensures ValidId(m, out.cur)
  {
    if row.dst == Internal then
      Out(true, cur, ActionWorld(env, row, e, w), ActionObs(row, e))
    else
      TargetIsState(m, row);
      var (w1, o1) := HandlerIf(m, env, OnExit(e), cur, w);
      var cur' := StateId(m.table, row.dst);
      var w2 := EnterWorld(env, row.dst, w1);
      var w3 := ActionWorld(env, row, e, w2);
      var (w4, o4) := HandlerIf(m, env, OnEntry(e), cur', w3);
      Out(true, cur', w4, o1 + [Changed(row.src, row.dst)] + ActionObs(row, e) + o4)
  }

  lemma TargetIsState(m: Machine, row: Row)
    requires WellFormed(m) && row in m.table
    ensures StateId(m.table, row.dst) < |States(m.table)|
    ensures States(m.table)[StateId(m.table, row.dst)] == row.dst
  {
    var i :| 0 <= i < |m.table| && m.table[i] == row;
    StatesSpec(m.table, row.dst);
    StateIdOf(m.table, row.dst);
  }

  function ExecuteRow<C>(m: Machine, env: Env<C>, row: Row, e: Event, cur: nat, w: World<C>): (out: Out<C>)
    requires WellFormed(m) && ValidId(m, cur) && row in m.table
    ensures ValidId(m, out.cur)
  {
    if GuardHolds(env, row, e, w) then
      var out := Fire(m, env, row, e, cur, w);
      out.(obs := GuardObs(env, row, e, w) + out.obs)
    else
      Out(false, cur, w, GuardObs(env, row, e, w))
  }

  /** `transitions<T, Ts...>::execute`; the last row of an `on_exit` event reports unhandled. */
  function ExecuteRows<C>(m: Machine, env: Env<C>, rows: seq<Row>, e: Event, cur: nat, w: World<C>): (out: Out<C>)
    requires WellFormed(m) && ValidId(m, cur) && rows != [] && forall row :: row in rows ==> row in m.table
    ensures ValidId(m, out.cur)
    decreases |rows|
  {
    var out := ExecuteRow(m, env, rows[0], e, cur, w);
    if |rows| == 1 then
      (if e.OnExit? then out.(handled := false) else out)
    else if out.handled then out
    else
      var rest := ExecuteRows(m, env, rows[1..], e, out.cur, out.w);
      rest.(obs := out.obs + rest.obs)
  }

  lemma FoundRows(m: Machine, e: Event, s: State)
    ensures m.Find(e, s) == if DeclaredRows(m.table, e, s) == [] then Unmapped else Found(DeclaredRows(m.table, e, s))
    ensures m.Find(e, s).Found? ==>
              m.Find(e, s).rows != []
              && forall row :: row in m.Find(e, s).rows ==>
                   row in m.table && row.src == s && (row.event == e || (row.event == Any && !OwnRowsOnly(e)))
  {
    LookupIsDeclared(m.table, e, s);
    forall row | row in DeclaredRows(m.table, e, s)
      ensures row in m.table && row.src == s && (row.event == e || (row.event == Any && !OwnRowsOnly(e)))
    {
      SelectIsFilter(m.table, e, s, row);
      SelectIsFilter(m.table, Any, s, row);
    }
  }

  /** `transitions<true_type>::execute`: the event is offered once more, as an unexpected event. */
  function UnexpectedStep<C>(m: Machine, env: Env<C>, e: Event, cur: nat, w: World<C>): (out: Out<C>)
    requires WellFormed(m) && ValidId(m, cur)
    ensures ValidId(m, out.cur)
  {
    var s := States(m.table)[cur];
    FoundRows(m, Unexpected(e), s);
    if m.HasUnexpected() && m.Enabled(Unexpected(e)) && m.Find(Unexpected(e), s).Found? then
      ExecuteRows(m, env, m.Find(Unexpected(e), s).rows, Unexpected(e), cur, w).(handled := false)
    else
      Out(false, cur, w, [])
  }

  /** The nested machine first, then the rows of the composite state if it did not handle the event. */
  function SubThenRows<C>(m: Machine, env: Env<C>, k: nat, rows: seq<Row>, e: Event, cur: nat, w: World<C>):
      (out: Out<C>)
    requires WellFormed(m) && ValidId(m, cur) && rows != [] && forall row :: row in rows ==> row in m.table
    ensures ValidId(m, out.cur)
  {
    var w' := SubWorld(env, k, e, w);
    if env.subProcess(k, e, w.ctx).0 then Out(true, cur, w', OfferObs(env, k, e, w))
    else
      var out := ExecuteRows(m, env, rows, e, cur, w');
      out.(obs := OfferObs(env, k, e, w) + out.obs)
  }

  /** Dispatch of one event, looked up under `key`, to a region in state `cur`. */
  function Step<C>(m: Machine, env: Env<C>, key: Event, e: Event, cur: nat, w: World<C>): (out: Out<C>)
    requires WellFormed(m) && ValidId(m, cur)
    ensures ValidId(m, out.cur)
  {
    var s := States(m.table)[cur];
    FoundRows(m, key, s);
    match m.Find(key, s)
    case Unmapped =>
      if s.Sub? then Out(true, cur, SubWorld(env, s.k, e, w), OfferObs(env, s.k, e, w))
      else UnexpectedStep(m, env, e, cur, w)
    case Found(rows) =>
      if !s.Sub? then ExecuteRows(m, env, rows, e, cur, w)
      else if e == Anonymous then
        (if env.subTerminated(s.k, w.ctx) then SubThenRows(m, env, s.k, rows, e, cur, w)
         else Out(false, cur, w, []))
      else if e.OnEntry? then
        var out := ExecuteRows(m, env, rows, e, cur, w);
        out.(handled := true, w := SubWorld(env, s.k, e, out.w), obs := out.obs + OfferObs(env, s.k, e, out.w))
      else SubThenRows(m, env, s.k, rows, e, cur, w)
  }

  // ----- the whole machine -----

  /** One id and one observed trace per orthogonal region. */
  datatype Config<C> = Config(regions: seq<nat>, traces: seq<seq<Obs>>, w: World<C>)

  ghost predicate Valid<C>(m: Machine, c: Config<C>) {
    && |c.regions| == |c.traces| == |InitialStates(m.table)|
    && forall r :: 0 <= r < |c.regions| ==> ValidId(m, c.regions[r])
  }

  /** An entry or exit event sent to the whole machine is logged in each region it reaches. */
  function Announced(e: Event, s: State): seq<Obs> {
    if e.OnEntry? then [Entered(s)] else if e.OnExit? then [Exited(s)] else []
  }

  function StepRegion<C>(m: Machine, env: Env<C>, key: Event, e: Event, r: nat, c: Config<C>): (o: (bool, Config<C>))
    requires WellFormed(m) && Valid(m, c) && r < |c.regions|
    ensures Valid(m, o.1)
  {
    var out := Step(m, env, key, e, c.regions[r], c.w);
    var obs := Announced(e, States(m.table)[c.regions[r]]) + out.obs;
    (out.handled, Config(c.regions[r := out.cur], c.traces[r := c.traces[r] + obs], out.w))
  }

  /** The regions from `r` on, in order. */
  function StepRegions<C>(m: Machine, env: Env<C>, key: Event, e: Event, r: nat, handled: bool, c: Config<C>):
      (o: (bool, Config<C>))
    requires WellFormed(m) && Valid(m, c) && r <= |c.regions|
    ensures Valid(m, o.1)
    decreases |c.regions| - r
  {
    if r == |c.regions| then (handled, c)
    else
      var (h, c') := StepRegion(m, env, key, e, r, c);
      StepRegions(m, env, key, e, r + 1, h || (m.anyRegion && handled), c')
  }

  lemma StepRegionsUnfold<C>(m: Machine, env: Env<C>, key: Event, e: Event, r: nat, handled: bool, c: Config<C>)
    requires WellFormed(m) && Valid(m, c) && r < |c.regions|
    ensures var (h, c') := StepRegion(m, env, key, e, r, c);
            StepRegions(m, env, key, e, r, handled, c)
            == StepRegions(m, env, key, e, r + 1, h || (m.anyRegion && handled), c')
  {
  }

  function ProcessImpl<C>(m: Machine, env: Env<C>, key: Event, e: Event, c: Config<C>): (o: (bool, Config<C>))
    requires WellFormed(m) && Valid(m, c)
    ensures Valid(m, o.1)
  {
    StepRegions(m, env, key, e, 0, false, c)
  }

  /** The lookup key of an event given to `process_event`: handlers lose their target. */
  function GenericKey(e: Event): Event {
    match e
    case OnEntry(_) => OnEntry(Any)
    case OnExit(_) => OnExit(Any)
    case _ => e
  }

  function ProcessInternal<C>(m: Machine, env: Env<C>, e: Event, c: Config<C>): (c': Config<C>)
    requires WellFormed(m) && Valid(m, c)
    ensures Valid(m, c')
  {
    var key := HandlerKey(m, e);
    if m.Enabled(key) then ProcessImpl(m, env, key, e, c).1 else c
  }


  // ----- a property kept by every primitive step is kept by every event -----

  /**
   `P` is kept by actions, by entering a nested machine, and by running nested machine `k`
   where `A(k, _)` holds. `A` is never lost, and entering machine `k` establishes it.
   */
  ghost predicate Stable<C(!new)>(env: Env<C>, P: World<C> -> bool, A: (nat, World<C>) -> bool) {
    && (forall w: World<C>, a, e :: P(w) ==> P(Apply(w, env.action(a, e, w.ctx))))
    && (forall w: World<C>, a, e :: Keeps(A, w, Apply(w, env.action(a, e, w.ctx))))
    && (forall w: World<C>, k, e :: P(w) && A(k, w) ==> P(SubWorld(env, k, e, w)))
    && (forall w: World<C>, k, e :: Keeps(A, w, SubWorld(env, k, e, w)))
    && (forall w: World<C>, s: State :: P(w) ==> P(EnterWorld(env, s, w)) && MayRun(A, s, EnterWorld(env, s, w)))
    && (forall w: World<C>, s: State :: Keeps(A, w, EnterWorld(env, s, w)))
  }

  ghost predicate Keeps<C(!new)>(A: (nat, World<C>) -> bool, w: World<C>, w': World<C>) {
    forall j :: A(j, w) ==> A(j, w')
  }

  ghost predicate MayRun<C(!new)>(A: (nat, World<C>) -> bool, s: State, w: World<C>) {
    s.Sub? ==> A(s.k, w)
  }

  lemma {:induction false} RunHandlersStable<C(!new)>(env: Env<C>, rows: seq<Row>, h: Event, w: World<C>,
                                                      P: World<C> -> bool, A: (nat, World<C>) -> bool)
    requires Stable(env, P, A) && P(w)
    ensures P(RunHandlers(env, rows, h, w).0) && Keeps(A, w, RunHandlers(env, rows, h, w).0)
  {
    if rows != [] && !GuardHolds(env, rows[0], h, w) {
      RunHandlersStable(env, rows[1..], h, w, P, A);
    }
  }

  lemma HandlerStable<C(!new)>(m: Machine, env: Env<C>, h: Event, cur: nat, w: World<C>,
                               P: World<C> -> bool, A: (nat, World<C>) -> bool)
    requires Stable(env, P, A) && P(w) && cur < |States(m.table)| && MayRun(A, States(m.table)[cur], w)
    ensures P(HandlerIf(m, env, h, cur, w).0) && Keeps(A, w, HandlerIf(m, env, h, cur, w).0)
  {
    var key, s := HandlerKey(m, h), States(m.table)[cur];
    if m.HasEntryExits() && m.Enabled(key) && m.Find(key, s).Found? {
      RunHandlersStable(env, m.Find(key, s).rows, h, w, P, A);
      if s.Sub? {
        RunHandlersStable(env, m.Find(key, s).rows, h, SubWorld(env, s.k, h, w), P, A);
      }
    }
  }

  lemma FireStable<C(!new)>(m: Machine, env: Env<C>, row: Row, e: Event, cur: nat, w: World<C>,
                            P: World<C> -> bool, A: (nat, World<C>) -> bool)
    requires WellFormed(m) && ValidId(m, cur) && row in m.table
    requires Stable(env, P, A) && P(w) && MayRun(A, States(m.table)[cur], w)
    ensures var out := Fire(m, env, row, e, cur, w);
            P(out.w) && Keeps(A, w, out.w) && MayRun(A, States(m.table)[out.cur], out.w)
  {
    if row.dst != Internal {
      TargetIsState(m, row);
      HandlerStable(m, env, OnExit(e), cur, w, P, A);
      var w1 := HandlerIf(m, env, OnExit(e), cur, w).0;
      var w2 := EnterWorld(env, row.dst, w1);
      var w3 := ActionWorld(env, row, e, w2);
      assert P(w3) && Keeps(A, w2, w3) && MayRun(A, row.dst, w3);
      HandlerStable(m, env, OnEntry(e), StateId(m.table, row.dst), w3, P, A);
    }
  }

  lemma {:induction false} ExecuteRowsStable<C(!new)>(m: Machine, env: Env<C>, rows: seq<Row>, e: Event, cur: nat,
                                                      w: World<C>, P: World<C> -> bool, A: (nat, World<C>) -> bool)
    requires WellFormed(m) && ValidId(m, cur) && rows != [] && forall row :: row in rows ==> row in m.table
    requires Stable(env, P, A) && P(w) && MayRun(A, States(m.table)[cur], w)
    ensures var out := ExecuteRows(m, env, rows, e, cur, w);
            P(out.w) && Keeps(A, w, out.w) && MayRun(A, States(m.table)[out.cur], out.w)
    decreases |rows|
  {
    if GuardHolds(env, rows[0], e, w) {
      FireStable(m, env, rows[0], e, cur, w, P, A);
    } else if |rows| > 1 {
      ExecuteRowsStable(m, env, rows[1..], e, cur, w, P, A);
    }
  }

  ghost predicate OutStable<C(!new)>(m: Machine, w: World<C>, out: Out<C>, P: World<C> -> bool,
                                     A: (nat, World<C>) -> bool)
    requires ValidId(m, out.cur)
  {
    P(out.w) && Keeps(A, w, out.w) && MayRun(A, States(m.table)[out.cur], out.w)
  }

  lemma UnexpectedStepStable<C(!new)>(m: Machine, env: Env<C>, e: Event, cur: nat, w: World<C>,
                                      P: World<C> -> bool, A: (nat, World<C>) -> bool)
    requires WellFormed(m) && ValidId(m, cur)
    requires Stable(env, P, A) && P(w) && MayRun(A, States(m.table)[cur], w)
    ensures OutStable(m, w, UnexpectedStep(m, env, e, cur, w), P, A)
  {
    var s := States(m.table)[cur];
    FoundRows(m, Unexpected(e), s);
    if m.Find(Unexpected(e), s).Found? {
      ExecuteRowsStable(m, env, m.Find(Unexpected(e), s).rows, Unexpected(e), cur, w, P, A);
    }
  }

  lemma SubThenRowsStable<C(!new)>(m: Machine, env: Env<C>, k: nat, rows: seq<Row>, e: Event, cur: nat, w: World<C>,
                                   P: World<C> -> bool, A: (nat, World<C>) -> bool)
    requires WellFormed(m) && ValidId(m, cur) && rows != [] && forall row :: row in rows ==> row in m.table
    requires Stable(env, P, A) && P(w) && States(m.table)[cur] == Sub(k) && A(k, w)
    ensures OutStable(m, w, SubThenRows(m, env, k, rows, e, cur, w), P, A)
  {
    var w' := SubWorld(env, k, e, w);
    assert P(w') && Keeps(A, w, w') && A(k, w');
    ExecuteRowsStable(m, env, rows, e, cur, w', P, A);
  }

  lemma StepStable<C(!new)>(m: Machine, env: Env<C>, key: Event, e: Event, cur: nat, w: World<C>,
                            P: World<C> -> bool, A: (nat, World<C>) -> bool)
    requires WellFormed(m) && ValidId(m, cur)
    requires Stable(env, P, A) && P(w) && MayRun(A, States(m.table)[cur], w)
    ensures OutStable(m, w, Step(m, env, key, e, cur, w), P, A)
  {
    var s := States(m.table)[cur];
    FoundRows(m, key, s);
    match m.Find(key, s)
    case Unmapped =>
      if !s.Sub? {
        UnexpectedStepStable(m, env, e, cur, w, P, A);
      }
    case Found(rows) =>
      if s.Sub? {
        SubThenRowsStable(m, env, s.k, rows, e, cur, w, P, A);
      }
      ExecuteRowsStable(m, env, rows, e, cur, w, P, A);
      if s.Sub? && e.OnEntry? {
        var out := ExecuteRows(m, env, rows, e, cur, w);
        assert A(s.k, out.w);
      }
  }

  ghost predicate AllMayRun<C(!new)>(m: Machine, A: (nat, World<C>) -> bool, c: Config<C>)
    requires Valid(m, c)
  {
    forall r :: 0 <= r < |c.regions| ==> MayRun(A, States(m.table)[c.regions[r]], c.w)
  }

  lemma {:induction false} StepRegionsStable<C(!new)>(m: Machine, env: Env<C>, key: Event, e: Event, r: nat,
                                                      handled: bool, c: Config<C>, P: World<C> -> bool,
                                                      A: (nat, World<C>) -> bool)
    requires WellFormed(m) && Valid(m, c) && r <= |c.regions|
    requires Stable(env, P, A) && P(c.w) && AllMayRun(m, A, c)
    ensures var c' := StepRegions(m, env, key, e, r, handled, c).1;
            P(c'.w) && AllMayRun(m, A, c') && Keeps(A, c.w, c'.w)
    decreases |c.regions| - r
  {
    if r < |c.regions| {
      StepStable(m, env, key, e, c.regions[r], c.w, P, A);
      var (h, c') := StepRegion(m, env, key, e, r, c);
      forall i | 0 <= i < |c'.regions| ensures MayRun(A, States(m.table)[c'.regions[i]], c'.w) {
        assert MayRun(A, States(m.table)[c.regions[i]], c.w);
      }
      StepRegionsStable(m, env, key, e, r + 1, h || (m.anyRegion && handled), c', P, A);
    }
  }

  // ----- first instance: dispatching an event only appends to the queues -----

  ghost predicate Pushed<C>(w: World<C>, w': World<C>) {
    && w.deferLog <= w'.deferLog && w'.defer == w.defer + w'.deferLog[|w.deferLog|..]
    && w.processLog <= w'.processLog && w'.process == w.process + w'.processLog[|w.processLog|..]
  }

  lemma PushedApply<C>(w0: World<C>, w: World<C>, f: Effect<C>)
    requires Pushed(w0, w)
    ensures Pushed(w0, Apply(w, f))
  {
    assert Apply(w, f).deferLog[|w0.deferLog|..] == w.deferLog[|w0.deferLog|..] + f.deferred;
    assert Apply(w, f).processLog[|w0.processLog|..] == w.processLog[|w0.processLog|..] + f.queued;
  }

  lemma PushedStable<C(!new)>(env: Env<C>, w0: World<C>)
    ensures Stable(env, (w: World<C>) => Pushed(w0, w), (k: nat, w: World<C>) => true)
  {
    var P := (w: World<C>) => Pushed(w0, w);
    forall w, a, e | P(w) ensures P(Apply(w, env.action(a, e, w.ctx))) {
      PushedApply(w0, w, env.action(a, e, w.ctx));
    }
  }

  /** Whatever a handler defers or queues lands behind what the queues held, in order. */
  lemma ImplOnlyPushes<C(!new)>(m: Machine, env: Env<C>, key: Event, e: Event, c: Config<C>)
    requires WellFormed(m) && Valid(m, c)
    ensures Pushed(c.w, ProcessImpl(m, env, key, e, c).1.w)
  {
    PushedStable(env, c.w);
    StepRegionsStable(m, env, key, e, 0, false, c, (w: World<C>) => Pushed(c.w, w), (k: nat, w: World<C>) => true);
  }

  // ----- the queues -----

  /** `process_event_no_defer`: the front event is removed if some handler took it. */
  function DeferStep<C(!new)>(m: Machine, env: Env<C>, c: Config<C>): (o: (bool, Config<C>))
    requires WellFormed(m) && Valid(m, c) && c.w.defer != []
    ensures Valid(m, o.1)
    ensures |o.1.w.defer| >= |c.w.defer| - 1
  {
    var e := c.w.defer[0];
    ImplOnlyPushes(m, env, e, e, c);
    var (h, c') := ProcessImpl(m, env, e, e, c);
    (h, if h then c'.(w := c'.w.(defer := c'.w.defer[1..])) else c')
  }

  /** The events a drain loop offered, how many of them were removed, and where it ended. */
  datatype Drain<C> = Drain(offered: seq<Event>, taken: nat, c: Config<C>)

  /** The loop of `process_defer_events`: `size` iterations at most, stopping at the first event nobody takes. */
  function DrainDefer<C(!new)>(m: Machine, env: Env<C>, size: nat, c: Config<C>): (d: Drain<C>)
    requires WellFormed(m) && Valid(m, c) && size <= |c.w.defer|
    ensures Valid(m, d.c)
    decreases size
  {
    if size == 0 then Drain([], 0, c)
    else
      var (h, c') := DeferStep(m, env, c);
      if !h then Drain([c.w.defer[0]], 0, c')
      else
        var d := DrainDefer(m, env, size - 1, c');
        d.(offered := [c.w.defer[0]] + d.offered, taken := d.taken + 1)
  }

  /** `process_event_no_queue` followed by the removal of the front event. */
  function QueueStep<C(!new)>(m: Machine, env: Env<C>, c: Config<C>): (c': Config<C>)
    requires WellFormed(m) && Valid(m, c) && c.w.process != []
    ensures Valid(m, c')
  {
    var e := c.w.process[0];
    ImplOnlyPushes(m, env, e, e, c);
    var c' := ProcessImpl(m, env, e, e, c).1;
    c'.(w := c'.w.(process := c'.w.process[1..]))
  }

  /** The first `rounds` iterations of the queue loop, or all of them if it ends sooner. The source sets no bound. */
  function DrainQueue<C(!new)>(m: Machine, env: Env<C>, rounds: nat, c: Config<C>): (d: Drain<C>)
    requires WellFormed(m) && Valid(m, c)
    ensures Valid(m, d.c)
    decreases rounds
  {
    if rounds == 0 || c.w.process == [] then Drain([], 0, c)
    else
      var d := DrainQueue(m, env, rounds - 1, QueueStep(m, env, c));
      d.(offered := [c.w.process[0]] + d.offered, taken := d.taken + 1)
  }

  lemma DrainDeferUnfold<C(!new)>(m: Machine, env: Env<C>, size: nat, c: Config<C>)
    requires WellFormed(m) && Valid(m, c) && 0 < size <= |c.w.defer|
    ensures var (h, c') := DeferStep(m, env, c);
            && (!h ==> DrainDefer(m, env, size, c) == Drain([c.w.defer[0]], 0, c'))
            && (h ==> size - 1 <= |c'.w.defer|)
            && (h ==> var d := DrainDefer(m, env, size - 1, c');
                      DrainDefer(m, env, size, c) == Drain([c.w.defer[0]] + d.offered, d.taken + 1, d.c))
  {
  }

  lemma DrainQueueUnfold<C(!new)>(m: Machine, env: Env<C>, rounds: nat, c: Config<C>)
    requires WellFormed(m) && Valid(m, c) && rounds > 0 && c.w.process != []
    ensures var d := DrainQueue(m, env, rounds - 1, QueueStep(m, env, c));
            DrainQueue(m, env, rounds, c) == Drain([c.w.process[0]] + d.offered, d.taken + 1, d.c)
  {
  }

  /** `process_event`: dispatch, one anonymous pass, the defer queue if the event was handled, the process queue. */
  function ProcessEvent<C(!new)>(m: Machine, env: Env<C>, rounds: nat, e: Event, c: Config<C>): (o: (bool, Config<C>))
    requires WellFormed(m) && Valid(m, c)
    ensures Valid(m, o.1)
  {
    var (h, c1) := ProcessImpl(m, env, GenericKey(e), e, c);
    var c2 := ProcessInternal(m, env, Anonymous, c1);
    var c3 := if h then DrainDefer(m, env, |c2.w.defer|, c2).c else c2;
    (h, DrainQueue(m, env, rounds, c3).c)
  }

  /** Region `r` starts in the `r`-th initial state, nothing observed and nothing queued. */
  function InitialConfig<C>(m: Machine, ctx: C): (c: Config<C>)
    requires WellFormed(m)
    ensures Valid(m, c)
    ensures forall r :: 0 <= r < |c.regions| ==> States(m.table)[c.regions[r]] == InitialStates(m.table)[r]
    ensures (forall r :: 0 <= r < |c.traces| ==> c.traces[r] == []) && c.w == World(ctx, [], [], [], [])
  {
    var initial := InitialStates(m.table);
    InitialIdsValid(m);
    Config(seq(|initial|, i requires 0 <= i < |initial| => StateId(m.table, initial[i])),
           seq(|initial|, _ => []), World(ctx, [], [], [], []))
  }

  lemma InitialIdsValid(m: Machine)
    requires WellFormed(m)
    ensures forall i :: 0 <= i < |InitialStates(m.table)| ==>
              && ValidId(m, StateId(m.table, InitialStates(m.table)[i]))
              && States(m.table)[StateId(m.table, InitialStates(m.table)[i])] == InitialStates(m.table)[i]
  {
    forall i | 0 <= i < |InitialStates(m.table)|
      ensures ValidId(m, StateId(m.table, InitialStates(m.table)[i]))
      ensures States(m.table)[StateId(m.table, InitialStates(m.table)[i])] == InitialStates(m.table)[i]
    {
      InitialStatesSpec(m.table, InitialStates(m.table)[i]);
      StateIdOf(m.table, InitialStates(m.table)[i]);
    }
  }

  function Start<C(!new)>(m: Machine, env: Env<C>, rounds: nat, c: Config<C>): (c': Config<C>)
    requires WellFormed(m) && Valid(m, c)
    ensures Valid(m, c')
  {
    var c1 := ProcessInternal(m, env, OnEntry(Initial), c);
    var c2 := ProcessInternal(m, env, Anonymous, c1);
    DrainQueue(m, env, rounds, c2).c
  }

  /** Further events, each processed to completion or for its number of queue rounds. */
  function RunFrom<C(!new)>(m: Machine, env: Env<C>, rounds: nat, events: seq<Event>, c: Config<C>): (c': Config<C>)
    requires WellFormed(m) && Valid(m, c)
    ensures Valid(m, c')
    decreases |events|
  {
    if events == [] then c
    else RunFrom(m, env, rounds, events[1..], ProcessEvent(m, env, rounds, events[0], c).1)
  }

  /** A run: construction, start, then the given events. */
  function Run<C(!new)>(m: Machine, env: Env<C>, rounds: nat, events: seq<Event>, ctx: C): (c: Config<C>)
    requires WellFormed(m)
    ensures Valid(m, c)
  {
    RunFrom(m, env, rounds, events, Start(m, env, rounds, InitialConfig(m, ctx)))
  }
}

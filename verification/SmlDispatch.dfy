/**
 The four dispatch policies, over any list of states and any way of executing the mapping of
 one state. `current_state` is passed by reference to the executed code, which may change it:
 only `fold_expr` reads it again afterwards.
 */
module SmlDispatch {
  import opened TypeLists
  import opened SmlTable
  import E = SmlEngine

  datatype Result<W> = Result(handled: bool, cur: nat, w: W)

  type Exec<!W> = (State, nat, W) -> Result<W>

  function JumpTable<W>(states: seq<State>, cur: nat, w: W, exec: Exec<W>): Result<W>
    requires cur < |states|
  {
    exec(states[cur], cur, w)
  }

  /** `branch_stm` compares with `n`, the number of the first listed state, and recurses. */
  function BranchStm<W>(n: nat, states: seq<State>, cur: nat, w: W, exec: Exec<W>): Result<W>
    decreases |states|
  {
    if states == [] then Result(false, cur, w)
    else if cur == n then exec(states[0], cur, w)
    else BranchStm(n + 1, states[1..], cur, w, exec)
  }

  /** `switch_stm` has one case and defers every other value to the rest of the list. */
  function SwitchStm<W>(n: nat, states: seq<State>, cur: nat, w: W, exec: Exec<W>): Result<W>
    decreases |states|
  {
    if states == [] then Result(false, cur, w)
    else
      match cur == n
      case true => exec(states[0], cur, w)
      case false => SwitchStm(n + 1, states[1..], cur, w, exec)
  }

  /** The `||` fold: each operand compares the current value of `current_state`, until one returns true. */
  function FoldExpr<W>(n: nat, states: seq<State>, cur: nat, w: W, exec: Exec<W>): Result<W>
    decreases |states|
  {
    if states == [] then Result(false, cur, w)
    else
      var o := if cur == n then exec(states[0], cur, w) else Result(false, cur, w);
      if o.handled then o else FoldExpr(n + 1, states[1..], o.cur, o.w, exec)
  }

  lemma {:induction false} BranchFrom<W>(n: nat, states: seq<State>, cur: nat, w: W, exec: Exec<W>)
    requires n <= cur
    ensures BranchStm(n, states, cur, w, exec) == SwitchStm(n, states, cur, w, exec)
         == if cur - n < |states| then exec(states[cur - n], cur, w) else Result(false, cur, w)
    decreases |states|
  {
    if states != [] && cur != n {
      BranchFrom(n + 1, states[1..], cur, w, exec);
    }
  }

  /** The jump table, the branch chain and the switch chain agree for every in-range state. */
  lemma DispatchesAgree<W>(states: seq<State>, cur: nat, w: W, exec: Exec<W>)
    requires cur < |states|
    ensures JumpTable(states, cur, w, exec) == BranchStm(0, states, cur, w, exec) == SwitchStm(0, states, cur, w, exec)
  {
    BranchFrom(0, states, cur, w, exec);
  }

  lemma {:induction false} FoldSkips<W>(n: nat, states: seq<State>, cur: nat, w: W, exec: Exec<W>)
    ensures cur < n || n + |states| <= cur ==> FoldExpr(n, states, cur, w, exec) == Result(false, cur, w)
    ensures n <= cur < n + |states| ==>
              var o := exec(states[cur - n], cur, w);
              FoldExpr(n, states, cur, w, exec)
              == if o.handled then o else FoldExpr(cur + 1, states[cur + 1 - n..], o.cur, o.w, exec)
    decreases |states|
  {
    if states != [] && cur != n {
      FoldSkips(n + 1, states[1..], cur, w, exec);
      if n <= cur < n + |states| {
        assert states[1..][cur + 1 - (n + 1)..] == states[cur + 1 - n..];
      }
    } else if states != [] {
      var o := exec(states[0], cur, w);
      if !o.handled {
        assert states[cur + 1 - n..] == states[1..];
      }
    }
  }

  /**
   What the fold does, exactly: it is the jump table, unless the execution returned false and
   left a larger state id; then the event is dispatched once more, to that state.
   */
  lemma FoldIsJumpOrTwice<W>(states: seq<State>, cur: nat, w: W, exec: Exec<W>)
    requires cur < |states|
    ensures var o := JumpTable(states, cur, w, exec);
            FoldExpr(0, states, cur, w, exec)
            == if o.handled || o.cur <= cur || o.cur >= |states| then o
               else FoldExpr(0, states, o.cur, o.w, exec)
  {
    var o := JumpTable(states, cur, w, exec);
    FoldSkips(0, states, cur, w, exec);
    if !o.handled {
      FoldSkips(cur + 1, states[cur + 1..], o.cur, o.w, exec);
      if cur < o.cur < |states| {
        FoldSkips(0, states, o.cur, o.w, exec);
        assert states[cur + 1..][o.cur - (cur + 1)] == states[o.cur];
        assert states[cur + 1..][o.cur + 1 - (cur + 1)..] == states[o.cur + 1..];
      }
    }
  }

  // ----- the engine's own executions -----

  /** The world, and everything observed so far. */
  datatype Traced<C> = Traced(w: E.World<C>, obs: seq<E.Obs>)

  /** The execution of a state's mapping for one event, as the engine does it. */
  ghost function EngineExec<C>(m: E.Machine, env: E.Env<C>, key: Event, e: Event): Exec<Traced<C>>
    requires E.WellFormed(m)
  {
    (s: State, cur: nat, x: Traced<C>) =>
      if cur < |States(m.table)| then
        var out := E.Step(m, env, key, e, cur, x.w);
        Result(out.handled, out.cur, Traced(out.w, x.obs + out.obs))
      else Result(false, cur, x)
  }

  /** `fold_expr` and the jump table have the same result, new state, world and trace. */
  ghost predicate FoldAgrees<C>(m: E.Machine, env: E.Env<C>, key: Event, e: Event, cur: nat, x: Traced<C>)
    requires E.WellFormed(m) && E.ValidId(m, cur)
  {
    FoldExpr(0, States(m.table), cur, x, EngineExec(m, env, key, e))
    == JumpTable(States(m.table), cur, x, EngineExec(m, env, key, e))
  }

  lemma {:induction false} UnhandledStays<C>(m: E.Machine, env: E.Env<C>, rows: seq<Row>, e: Event, cur: nat,
                                             w: E.World<C>)
    requires E.WellFormed(m) && E.ValidId(m, cur) && rows != [] && forall row :: row in rows ==> row in m.table
    requires e.OnExit? ==> forall row :: row in rows ==> row.dst == Internal
    ensures var out := E.ExecuteRows(m, env, rows, e, cur, w); !out.handled ==> out.cur == cur
    decreases |rows|
  {
    if |rows| > 1 && !E.GuardHolds(env, rows[0], e, w) {
      UnhandledStays(m, env, rows[1..], e, cur, w);
    }
  }

  lemma StepStays<C>(m: E.Machine, env: E.Env<C>, key: Event, e: Event, cur: nat, w: E.World<C>)
    requires E.WellFormed(m) && E.ValidId(m, cur) && (e.OnExit? ==> key.OnExit?)
    ensures var s := States(m.table)[cur];
            var out := E.Step(m, env, key, e, cur, w);
            !out.handled && out.cur != cur ==> m.Find(key, s).Unmapped? && m.Find(Unexpected(e), s).Found?
  {
    var s := States(m.table)[cur];
    E.FoundRows(m, key, s);
    match m.Find(key, s)
    case Unmapped =>
    case Found(rows) =>
      if e.OnExit? {
        HandlerRowsAreInternal(m, key, s);
      }
      UnhandledStays(m, env, rows, e, cur, w);
      if s.Sub? {
        SubUnhandledStays(m, env, s.k, rows, e, cur, w);
      }
  }

  lemma SubUnhandledStays<C>(m: E.Machine, env: E.Env<C>, k: nat, rows: seq<Row>, e: Event, cur: nat, w: E.World<C>)
    requires E.WellFormed(m) && E.ValidId(m, cur) && rows != [] && forall row :: row in rows ==> row in m.table
    requires e.OnExit? ==> forall row :: row in rows ==> row.dst == Internal
    ensures var out := E.SubThenRows(m, env, k, rows, e, cur, w); !out.handled ==> out.cur == cur
  {
    UnhandledStays(m, env, rows, e, cur, E.SubWorld(env, k, e, w));
  }

  lemma HandlerRowsAreInternal(m: E.Machine, key: Event, s: State)
    requires E.WellFormed(m) && key.OnExit? && m.Find(key, s).Found?
    ensures forall row :: row in m.Find(key, s).rows ==> row.dst == Internal
  {
    E.FoundRows(m, key, s);
  }

  // ----- when the fold agrees, from the table alone -----

  /** The unexpected-event rows that an event without a row of its own falls back on. */
  function Fallback(m: E.Machine, e: Event, s: State): seq<Row> {
    var found := m.Find(Unexpected(e), s);
    if m.HasUnexpected() && m.Enabled(Unexpected(e)) && found.Found? then found.rows else []
  }

  lemma FallbackRows(m: E.Machine, e: Event, s: State)
    ensures forall row :: row in Fallback(m, e, s) ==> row in m.table
  {
    E.FoundRows(m, Unexpected(e), s);
  }

  /** For some meaning of the guards row `i` is the first whose guard holds. */
  predicate CanFire(rows: seq<Row>, i: nat)
    requires i < |rows|
  {
    forall j :: 0 <= j < i ==> rows[j].guard.Check? && rows[j].guard != rows[i].guard
  }

  /** Dispatching the event in state `t` does nothing and shows nothing, whatever guards and actions mean. */
  predicate Quiet(m: E.Machine, key: Event, e: Event, t: State) {
    var rows := Fallback(m, e, t);
    && !t.Sub? && m.Find(key, t).Unmapped?
    && (rows == [] || (rows[0].guard.Always? && rows[0].dst == Internal && rows[0].action.NoAction?))
  }

  /** Row `i` of the fallback can move the region to a larger id. */
  predicate MovesUp(m: E.Machine, e: Event, cur: nat, i: nat)
    requires E.ValidId(m, cur) && i < |Fallback(m, e, States(m.table)[cur])|
  {
    var rows := Fallback(m, e, States(m.table)[cur]);
    CanFire(rows, i) && rows[i].dst != Internal && StateId(m.table, rows[i].dst) > cur
  }

  /** The event is mapped or goes to a nested machine, or every move to a larger id ends in a quiet state. */
  predicate FoldSafe(m: E.Machine, key: Event, e: Event, cur: nat)
    requires E.ValidId(m, cur)
  {
    var s := States(m.table)[cur];
    || s.Sub? || m.Find(key, s).Found?
    || forall i :: 0 <= i < |Fallback(m, e, s)| && MovesUp(m, e, cur, i) ==> Quiet(m, key, e, Fallback(m, e, s)[i].dst)
  }

  /** A move is the work of the first row whose guard holds. */
  lemma {:induction false} MoverFired<C>(m: E.Machine, env: E.Env<C>, rows: seq<Row>, e: Event, cur: nat, w: E.World<C>)
    returns (i: nat)
    requires E.WellFormed(m) && E.ValidId(m, cur) && rows != [] && forall row :: row in rows ==> row in m.table
    requires E.ExecuteRows(m, env, rows, e, cur, w).cur != cur
    ensures i < |rows| && CanFire(rows, i) && E.GuardHolds(env, rows[i], e, w)
    ensures rows[i].dst != Internal && E.ExecuteRows(m, env, rows, e, cur, w).cur == StateId(m.table, rows[i].dst)
    decreases |rows|
  {
    if E.GuardHolds(env, rows[0], e, w) {
      i := 0;
    } else {
      var i' := MoverFired(m, env, rows[1..], e, cur, w);
      i := i' + 1;
      assert forall j :: 0 < j < i ==> rows[j] == rows[1..][j - 1];
    }
  }

  lemma QuietStep<C>(m: E.Machine, env: E.Env<C>, key: Event, e: Event, cur: nat, w: E.World<C>)
    requires E.WellFormed(m) && E.ValidId(m, cur) && Quiet(m, key, e, States(m.table)[cur])
    ensures E.Step(m, env, key, e, cur, w) == E.Out(false, cur, w, [])
  {
    E.FoundRows(m, key, States(m.table)[cur]);
    E.FoundRows(m, Unexpected(e), States(m.table)[cur]);
  }

  lemma StepIsFallback<C>(m: E.Machine, env: E.Env<C>, key: Event, e: Event, cur: nat, w: E.World<C>)
    requires E.WellFormed(m) && E.ValidId(m, cur) && (e.OnExit? ==> key.OnExit?)
    requires var out := E.Step(m, env, key, e, cur, w); !out.handled && out.cur != cur
    ensures var s, rows := States(m.table)[cur], Fallback(m, e, States(m.table)[cur]);
            && !s.Sub? && m.Find(key, s).Unmapped? && rows != [] && (forall row :: row in rows ==> row in m.table)
            && E.Step(m, env, key, e, cur, w).cur == E.ExecuteRows(m, env, rows, Unexpected(e), cur, w).cur
  {
    StepStays(m, env, key, e, cur, w);
    E.FoundRows(m, Unexpected(e), States(m.table)[cur]);
  }

  /** The fallback row behind an unhandled move. */
  lemma StepMover<C>(m: E.Machine, env: E.Env<C>, key: Event, e: Event, cur: nat, w: E.World<C>) returns (i: nat)
    requires E.WellFormed(m) && E.ValidId(m, cur) && (e.OnExit? ==> key.OnExit?)
    requires var out := E.Step(m, env, key, e, cur, w); !out.handled && out.cur != cur
    ensures !States(m.table)[cur].Sub? && m.Find(key, States(m.table)[cur]).Unmapped?
    ensures var rows, t := Fallback(m, e, States(m.table)[cur]), E.Step(m, env, key, e, cur, w).cur;
            && i < |rows| && CanFire(rows, i) && rows[i].dst != Internal
            && t == StateId(m.table, rows[i].dst) && States(m.table)[t] == rows[i].dst
  {
    var rows := Fallback(m, e, States(m.table)[cur]);
    StepIsFallback(m, env, key, e, cur, w);
    FallbackRows(m, e, States(m.table)[cur]);
    i := MoverFired(m, env, rows, Unexpected(e), cur, w);
    E.TargetIsState(m, rows[i]);
  }

  lemma QuietAgrees<C>(m: E.Machine, env: E.Env<C>, key: Event, e: Event, cur: nat, x: Traced<C>)
    requires E.WellFormed(m) && E.ValidId(m, cur) && Quiet(m, key, e, States(m.table)[cur])
    ensures FoldExpr(0, States(m.table), cur, x, EngineExec(m, env, key, e)) == Result(false, cur, x)
  {
    QuietStep(m, env, key, e, cur, x.w);
    assert x.obs + [] == x.obs;
    FoldIsJumpOrTwice(States(m.table), cur, x, EngineExec(m, env, key, e));
  }

  lemma FoldSafeAgrees<C>(m: E.Machine, env: E.Env<C>, key: Event, e: Event, cur: nat, x: Traced<C>)
    requires E.WellFormed(m) && E.ValidId(m, cur) && (e.OnExit? ==> key.OnExit?) && FoldSafe(m, key, e, cur)
    ensures FoldAgrees(m, env, key, e, cur, x)
  {
    var out := E.Step(m, env, key, e, cur, x.w);
    FoldIsJumpOrTwice(States(m.table), cur, x, EngineExec(m, env, key, e));
    if !out.handled && out.cur > cur {
      var i := StepMover(m, env, key, e, cur, x.w);
      assert MovesUp(m, e, cur, i);
      QuietAgrees(m, env, key, e, out.cur, Traced(out.w, x.obs + out.obs));
    }
  }

  /** Guards that single out row `i` of the fallback, and hold for every row of the event itself. */
  ghost function Chooser<C>(e: Event, guard: Guard): E.Env<C> {
    E.Env((g: nat, h: Event, c: C) => h == e || (h == Unexpected(e) && guard == Check(g)),
          (a: nat, h: Event, c: C) => E.Effect(c, [], []),
          (k: nat, h: Event, c: C) => (true, c),
          (k: nat, c: C) => c,
          (k: nat, c: C) => true)
  }

  lemma {:induction false} ChosenFires<C>(m: E.Machine, rows: seq<Row>, i: nat, guard: Guard, e: Event, cur: nat,
                                          w: E.World<C>)
    requires E.WellFormed(m) && E.ValidId(m, cur) && rows != [] && forall row :: row in rows ==> row in m.table
    requires i < |rows| && rows[i].guard == guard && CanFire(rows, i) && rows[i].dst != Internal && e != Unexpected(e)
    ensures E.ExecuteRows(m, Chooser(e, guard), rows, Unexpected(e), cur, w).cur == StateId(m.table, rows[i].dst)
    decreases |rows|
  {
    assert E.GuardHolds(Chooser(e, guard), rows[i], Unexpected(e), w);
    if i > 0 {
      assert !E.GuardHolds(Chooser(e, guard), rows[0], Unexpected(e), w);
      assert forall j :: 0 <= j < i ==> rows[1..][j] == rows[j + 1];
      ChosenFires(m, rows[1..], i - 1, guard, e, cur, w);
    }
  }

  /** Where the event is mapped, or in a composite state, the second dispatch is handled. */
  lemma SecondHandled<C>(m: E.Machine, guard: Guard, key: Event, e: Event, cur: nat, w: E.World<C>)
    requires E.WellFormed(m) && E.ValidId(m, cur) && !OwnRowsOnly(e)
    requires States(m.table)[cur].Sub? || m.Find(key, States(m.table)[cur]).Found?
    ensures E.Step(m, Chooser(e, guard), key, e, cur, w).handled
  {
    E.FoundRows(m, key, States(m.table)[cur]);
  }

  /** Elsewhere a state that is not quiet shows the second dispatch in the trace. */
  lemma SecondObserved<C>(m: E.Machine, env: E.Env<C>, key: Event, e: Event, cur: nat, w: E.World<C>)
    requires E.WellFormed(m) && E.ValidId(m, cur) && !Quiet(m, key, e, States(m.table)[cur])
    requires !States(m.table)[cur].Sub? && m.Find(key, States(m.table)[cur]).Unmapped?
    ensures E.Step(m, env, key, e, cur, w).obs != []
  {
    E.FoundRows(m, key, States(m.table)[cur]);
    FallbackRows(m, e, States(m.table)[cur]);
    RowsObserved(m, env, Fallback(m, e, States(m.table)[cur]), Unexpected(e), cur, w);
  }

  lemma RowsObserved<C>(m: E.Machine, env: E.Env<C>, rows: seq<Row>, e: Event, cur: nat, w: E.World<C>)
    requires E.WellFormed(m) && E.ValidId(m, cur) && rows != [] && forall row :: row in rows ==> row in m.table
    requires !(rows[0].guard.Always? && rows[0].dst == Internal && rows[0].action.NoAction?)
    ensures E.ExecuteRows(m, env, rows, e, cur, w).obs != []
  {
  }

  lemma {:induction false} FoldGrows<C>(m: E.Machine, env: E.Env<C>, key: Event, e: Event, n: nat, states: seq<State>,
                                        cur: nat, x: Traced<C>)
    requires E.WellFormed(m)
    ensures |FoldExpr(n, states, cur, x, EngineExec(m, env, key, e)).w.obs| >= |x.obs|
    decreases |states|
  {
    if states != [] {
      var exec := EngineExec(m, env, key, e);
      var o := if cur == n then exec(states[0], cur, x) else Result(false, cur, x);
      FoldGrows(m, env, key, e, n + 1, states[1..], o.cur, o.w);
    }
  }

  /** A row that can move the region up into a state that is not quiet makes the fold differ. */
  lemma FoldDiffers<C>(m: E.Machine, key: Event, e: Event, cur: nat, x: Traced<C>, i: nat) returns (env: E.Env<C>)
    requires E.WellFormed(m) && E.ValidId(m, cur)
    requires !States(m.table)[cur].Sub? && m.Find(key, States(m.table)[cur]).Unmapped?
    requires i < |Fallback(m, e, States(m.table)[cur])| && MovesUp(m, e, cur, i)
    requires !Quiet(m, key, e, Fallback(m, e, States(m.table)[cur])[i].dst)
    ensures !FoldAgrees(m, env, key, e, cur, x)
  {
    var s, rows := States(m.table)[cur], Fallback(m, e, States(m.table)[cur]);
    var row := rows[i];
    env := Chooser(e, row.guard);
    var exec := EngineExec(m, env, key, e);
    E.FoundRows(m, key, s);
    FallbackRows(m, e, s);
    E.TargetIsState(m, row);
    ChosenFires(m, rows, i, row.guard, e, cur, x.w);
    var o := exec(s, cur, x);
    assert !o.handled && o.cur == StateId(m.table, row.dst);
    FoldIsJumpOrTwice(States(m.table), cur, x, exec);
    FoldIsJumpOrTwice(States(m.table), o.cur, o.w, exec);
    var o2 := exec(row.dst, o.cur, o.w);
    if row.dst.Sub? || m.Find(key, row.dst).Found? {
      SecondHandled(m, row.guard, key, e, o.cur, o.w.w);
    } else {
      SecondObserved(m, env, key, e, o.cur, o.w.w);
      FoldGrows(m, env, key, e, 0, States(m.table), o2.cur, o2.w);
    }
  }

  /**
   The fold agrees with the other policies for every meaning of guards, actions and nested
   machines if and only if the table is safe in this sense.
   */
  lemma FoldAgreesExactlyWhen<C(!new)>(m: E.Machine, key: Event, e: Event, cur: nat, x: Traced<C>)
    requires E.WellFormed(m) && E.ValidId(m, cur) && (e.OnExit? ==> key.OnExit?)
    ensures (forall env: E.Env<C> :: FoldAgrees(m, env, key, e, cur, x)) <==> FoldSafe(m, key, e, cur)
  {
    if FoldSafe(m, key, e, cur) {
      forall env: E.Env<C> ensures FoldAgrees(m, env, key, e, cur, x) {
        FoldSafeAgrees(m, env, key, e, cur, x);
      }
    } else {
      var rows := Fallback(m, e, States(m.table)[cur]);
      var i: nat :| i < |rows| && MovesUp(m, e, cur, i) && !Quiet(m, key, e, rows[i].dst);
      var env := FoldDiffers(m, key, e, cur, x, i);
      assert !FoldAgrees(m, env, key, e, cur, x);
    }
  }

  /** A table that is not safe: state 0 falls back on a row to state 1, which handles event 1. */
  function TwiceTable(): seq<Row> {
    [Row(Named(0), Named(1), Unexpected(Plain(1)), Always, NoAction, true, false),
     Row(Named(1), Named(0), Plain(1), Always, NoAction, false, false)]
  }

  lemma TwiceStates()
    ensures States(TwiceTable()) == [Named(0), Named(1)]
    ensures InitialStates(TwiceTable()) == [Named(0)]
    ensures StateId(TwiceTable(), Named(0)) == 0 && StateId(TwiceTable(), Named(1)) == 1
  {
    var t := TwiceTable();
    assert AllStates(t[1..]) == [Named(1), Named(0)] + AllStates(t[1..][1..]);
    var all := [Named(0), Named(1), Named(1), Named(0)];
    assert AllStates(t) == all;
    assert UniqueFrom([], all) == UniqueFrom([Named(0)], all[1..]) by { assert [] + [Named(0)] == [Named(0)]; }
    assert UniqueFrom([Named(0)], all[1..]) == UniqueFrom([Named(0), Named(1)], all[1..][1..]);
    assert UniqueFrom([Named(0), Named(1)], all[1..][1..]) == UniqueFrom([Named(0), Named(1)], all[1..][1..][1..]);
    assert UniqueFrom([Named(0), Named(1)], all[1..][1..][1..])
        == UniqueFrom([Named(0), Named(1)], all[1..][1..][1..][1..]);
    assert Starred(t[1..]) == [] + Starred(t[1..][1..]);
    assert Starred(t) == [Named(0)];
    assert IndexOf([Named(0), Named(1)][1..], Named(1)) == 0;
  }

  lemma TwoRows(m: E.Machine, a: Row, b: Row)
    requires m == E.Machine([a, b], [], false) && a.event == Unexpected(Plain(1)) && b.event == Plain(1)
    ensures m.HasUnexpected() && !m.HasEntryExits()
    ensures forall e :: m.Enabled(e) <==> HasEvent(m.table, e)
    ensures forall e :: HasEvent(m.table, e) <==> e == a.event || e == b.event
  {
    assert m.table[0] == a && m.table[1] == b;
  }

  lemma TwiceFind(m: E.Machine, e: Event, s: State)
    requires m == E.Machine(TwiceTable(), [], false) && e != Any && s != Internal
    ensures m.Find(e, s)
         == if e == Unexpected(Plain(1)) && s == Named(0) then Found([TwiceTable()[0]])
            else if e == Plain(1) && s == Named(1) then Found([TwiceTable()[1]])
            else Unmapped
  {
    E.FoundRows(m, e, s);
    TwiceSelect(e, s);
    TwiceSelect(Any, s);
    TwoRows(m, TwiceTable()[0], TwiceTable()[1]);
  }

  lemma TwiceWellFormed(m: E.Machine)
    requires m == E.Machine(TwiceTable(), [], false)
    ensures E.WellFormed(m) && m.HasUnexpected() && !m.HasEntryExits() && m.Enabled(Unexpected(Plain(1)))
  {
    TwiceStates();
    TwoRows(m, TwiceTable()[0], TwiceTable()[1]);
  }

  lemma TwiceSelect(e: Event, s: State)
    ensures Select(TwiceTable(), e, s)
         == (if e == Unexpected(Plain(1)) && s == Named(0) then [TwiceTable()[0]] else [])
            + (if e == Plain(1) && s == Named(1) then [TwiceTable()[1]] else [])
  {
    var t := TwiceTable();
    assert Select(t[1..], e, s)
        == (if t[1].event == e && t[1].src == s then [t[1]] else []) + Select(t[1..][1..], e, s);
  }

  /** A single unguarded row without action, between simple states, in a machine without entry and exit rows. */
  lemma SingleRowFires<C>(m: E.Machine, env: E.Env<C>, e: Event, cur: nat, w: E.World<C>, row: Row)
    requires E.WellFormed(m) && E.ValidId(m, cur) && !m.HasEntryExits() && row in m.table
    requires row.guard.Always? && row.action.NoAction? && row.dst.Named? && (e.Plain? || e.Unexpected?)
    ensures var out := E.ExecuteRows(m, env, [row], e, cur, w);
            out.handled && out.cur == StateId(m.table, row.dst) && out.w == w
  {
  }

  lemma TwiceUnhandled<C>(m: E.Machine, env: E.Env<C>, w: E.World<C>)
    requires m == E.Machine(TwiceTable(), [], false) && E.WellFormed(m)
    requires States(m.table) == [Named(0), Named(1)]
    ensures var out := E.Step(m, env, Plain(1), Plain(1), 0, w); !out.handled && out.cur == 1 && out.w == w
  {
    TwiceStates();
    TwiceWellFormed(m);
    TwiceFind(m, Plain(1), Named(0));
    TwiceFind(m, Unexpected(Plain(1)), Named(0));
    SingleRowFires(m, env, Unexpected(Plain(1)), 0, w, m.table[0]);
  }

  lemma TwiceHandled<C>(m: E.Machine, env: E.Env<C>, w: E.World<C>)
    requires m == E.Machine(TwiceTable(), [], false) && E.WellFormed(m)
    requires States(m.table) == [Named(0), Named(1)]
    ensures var out := E.Step(m, env, Plain(1), Plain(1), 1, w); out.handled && out.cur == 0 && out.w == w
  {
    TwiceStates();
    TwiceWellFormed(m);
    TwiceFind(m, Plain(1), Named(1));
    SingleRowFires(m, env, Plain(1), 1, w, m.table[1]);
  }

  lemma FoldDispatchesTwice<C>(env: E.Env<C>, x: Traced<C>)
    ensures var m := E.Machine(TwiceTable(), [], false);
            && E.WellFormed(m) && States(m.table) == [Named(0), Named(1)]
            && var jump := JumpTable(States(m.table), 0, x, EngineExec(m, env, Plain(1), Plain(1)));
               var fold := FoldExpr(0, States(m.table), 0, x, EngineExec(m, env, Plain(1), Plain(1)));
               !jump.handled && jump.cur == 1 && fold.handled && fold.cur == 0
  {
    var m := E.Machine(TwiceTable(), [], false);
    TwiceStates();
    TwiceWellFormed(m);
    TwiceUnhandled(m, env, x.w);
    TwiceHandled(m, env, x.w);
    var exec := EngineExec(m, env, Plain(1), Plain(1));
    var o := exec(Named(0), 0, x);
    assert !o.handled && o.cur == 1 && o.w.w == x.w;
    FoldIsJumpOrTwice(States(m.table), 0, x, exec);
    FoldIsJumpOrTwice(States(m.table), 1, o.w, exec);
  }
}

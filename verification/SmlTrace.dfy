/**
 What one region does in a step: with entry and exit handlers its trace is a chain
 entry(s0) exit(s0) entry(s1) exit(s1) ... that ends with the entry of its current state,
 every external transition's action lies between the exit and the next entry, and internal
 transitions add neither.
 */
module SmlTrace {
  import opened SmlTable
  import opened SmlEngine

  /** Where a region stands between two observations. */
  datatype Stage =
    | Fresh
    | In(s: State)
    | Leaving(s: State)
    | Arriving(src: State, dst: State, ran: bool)
    | Broken

  function Next(g: Stage, o: Obs): Stage {
    match g
    case Fresh => if o.Entered? then In(o.s) else Broken
    case In(s) =>
      (match o
       case Guarded(row, _, _) => if row.src == s then g else Broken
       case Ran(row, _) => if row.src == s && row.dst == Internal then g else Broken
       case Offered(k, _, _) => if s == Sub(k) then g else Broken
       case Exited(t) => if t == s then Leaving(s) else Broken
       case _ => Broken)
    case Leaving(s) =>
      (match o
       case Guarded(row, _, _) => if row.src == s && row.event.OnExit? then g else Broken
       case Ran(row, _) => if row.src == s && row.event.OnExit? && row.dst == Internal then g else Broken
       case Offered(k, _, _) => if s == Sub(k) then g else Broken
       case Changed(src, dst) => if src == s then Arriving(s, dst, false) else Broken
       case _ => Broken)
    case Arriving(src, dst, ran) =>
      (match o
       case Ran(row, _) =>
         if row.src == src && row.dst == dst && dst != Internal && !ran then g.(ran := true) else Broken
       case Entered(t) => if t == dst then In(t) else Broken
       case _ => Broken)
    case Broken => Broken
  }

  function Follow(g: Stage, obs: seq<Obs>): Stage
    decreases |obs|
  {
    if obs == [] then g else Follow(Next(g, obs[0]), obs[1..])
  }

  lemma {:induction false} FollowConcat(g: Stage, a: seq<Obs>, b: seq<Obs>)
    ensures Follow(g, a + b) == Follow(Follow(g, a), b)
    decreases |a|
  {
    if a == [] {
      assert a + b == b;
    } else {
      assert (a + b)[1..] == a[1..] + b;
      FollowConcat(Next(g, a[0]), a[1..], b);
    }
  }

  lemma FollowOne(g: Stage, o: Obs)
    ensures Follow(g, [o]) == Next(g, o)
  {
  }

  /** Untargeted entry and exit handlers exist, so every entry and every exit is observed. */
  ghost predicate Watched(m: Machine) {
    HasEvent(m.table, OnEntry(Any)) && HasEvent(m.table, OnExit(Any))
  }

  lemma WatchedHandlers(m: Machine, h: Event)
    requires Watched(m) && (h.OnEntry? || h.OnExit?)
    ensures m.HasEntryExits() && m.Enabled(HandlerKey(m, h))
  {
    var i :| 0 <= i < |m.table| && m.table[i].event == OnEntry(Any);
    assert m.table[i].event.OnEntry?;
  }

  /** Internal rows at `s`, those of an exit event while `s` is being left. */
  ghost predicate HandlerRows(rows: seq<Row>, s: State, g: Stage) {
    && (g == In(s) || (g == Leaving(s) && forall row :: row in rows ==> row.event.OnExit?))
    && forall row :: row in rows ==> row.src == s && row.dst == Internal
  }

  /** The rows found for an entry or exit event are such rows. */
  lemma FoundHandlerRows(m: Machine, h: Event, s: State, g: Stage)
    requires WellFormed(m) && (if h.OnEntry? then g == In(s) else h.OnExit? && g == Leaving(s))
    ensures var found := m.Find(HandlerKey(m, h), s); found.Found? ==> HandlerRows(found.rows, s, g)
  {
    FoundRows(m, HandlerKey(m, h), s);
  }

  /** Guards and actions of internal rows at `s` leave the stage as it is. */
  lemma {:induction false} HandlersStay<C>(env: Env<C>, rows: seq<Row>, h: Event, w: World<C>, g: Stage, s: State)
    requires HandlerRows(rows, s, g)
    ensures Follow(g, RunHandlers(env, rows, h, w).1) == g
  {
    if rows != [] {
      var o := GuardObs(env, rows[0], h, w);
      assert Follow(g, o) == g;
      if GuardHolds(env, rows[0], h, w) {
        assert Follow(g, ActionObs(rows[0], h)) == g;
        FollowConcat(g, o, ActionObs(rows[0], h));
      } else {
        HandlersStay(env, rows[1..], h, w, g, s);
        FollowConcat(g, o, RunHandlers(env, rows[1..], h, w).1);
      }
    }
  }

  lemma HandlerFollows<C>(m: Machine, env: Env<C>, h: Event, cur: nat, w: World<C>, g: Stage, g': Stage)
    requires WellFormed(m) && Watched(m) && ValidId(m, cur) && (h.OnEntry? || h.OnExit?)
    requires var s := States(m.table)[cur];
             if h.OnEntry? then g' == In(s) && Next(g, Entered(s)) == g'
             else g' == Leaving(s) && Next(g, Exited(s)) == g'
    ensures Follow(g, HandlerIf(m, env, h, cur, w).1) == g'
  {
    var s := States(m.table)[cur];
    var key := HandlerKey(m, h);
    WatchedHandlers(m, h);
    FoundHandlerRows(m, h, s, g');
    var log := [if h.OnEntry? then Entered(s) else Exited(s)];
    FollowOne(g, log[0]);
    if s.Sub? {
      CompositeHandlerFollows(m, env, h, cur, w, g', s.k);
    } else if m.Find(key, s).Found? {
      HandlersStay(env, m.Find(key, s).rows, h, w, g', s);
    }
    var obs := HandlerIf(m, env, h, cur, w).1;
    assert obs == log + obs[1..];
    FollowConcat(g, log, obs[1..]);
  }

  /** In a composite state the event is offered to the nested machine, before or after the handler rows. */
  lemma CompositeHandlerFollows<C>(m: Machine, env: Env<C>, h: Event, cur: nat, w: World<C>, g: Stage, k: nat)
    requires WellFormed(m) && Watched(m) && ValidId(m, cur) && States(m.table)[cur] == Sub(k)
    requires if h.OnEntry? then g == In(Sub(k)) else h.OnExit? && g == Leaving(Sub(k))
    ensures HandlerIf(m, env, h, cur, w).1 != [] && Follow(g, HandlerIf(m, env, h, cur, w).1[1..]) == g
  {
    var key := HandlerKey(m, h);
    WatchedHandlers(m, h);
    FoundHandlerRows(m, h, Sub(k), g);
    if m.Find(key, Sub(k)).Unmapped? {
      FollowOne(g, OfferObs(env, k, h, w)[0]);
    } else if h.OnEntry? {
      RowsThenOfferStay(env, k, m.Find(key, Sub(k)).rows, h, w, g);
    } else {
      OfferThenRowsStay(env, k, m.Find(key, Sub(k)).rows, h, w, g);
    }
  }

  lemma RowsThenOfferStay<C>(env: Env<C>, k: nat, rows: seq<Row>, h: Event, w: World<C>, g: Stage)
    requires HandlerRows(rows, Sub(k), g)
    ensures var (w', obs) := RunHandlers(env, rows, h, w); Follow(g, obs + OfferObs(env, k, h, w')) == g
  {
    HandlersStay(env, rows, h, w, g, Sub(k));
    var after := OfferObs(env, k, h, RunHandlers(env, rows, h, w).0);
    FollowOne(g, after[0]);
    FollowConcat(g, RunHandlers(env, rows, h, w).1, after);
  }

  lemma OfferThenRowsStay<C>(env: Env<C>, k: nat, rows: seq<Row>, h: Event, w: World<C>, g: Stage)
    requires HandlerRows(rows, Sub(k), g)
    ensures Follow(g, OfferObs(env, k, h, w)) == g
    ensures Follow(g, OfferObs(env, k, h, w) + RunHandlers(env, rows, h, SubWorld(env, k, h, w)).1) == g
  {
    var w' := SubWorld(env, k, h, w);
    HandlersStay(env, rows, h, w', g, Sub(k));
    FollowOne(g, OfferObs(env, k, h, w)[0]);
    FollowConcat(g, OfferObs(env, k, h, w), RunHandlers(env, rows, h, w').1);
  }

  /** The pieces of an external transition's trace, in order. */
  lemma FireObs<C>(m: Machine, env: Env<C>, row: Row, e: Event, cur: nat, w: World<C>)
    returns (w3: World<C>, cur': nat, o1: seq<Obs>, o4: seq<Obs>)
    requires WellFormed(m) && ValidId(m, cur) && row in m.table && row.dst != Internal
    ensures ValidId(m, cur') && States(m.table)[cur'] == row.dst
    ensures o1 == HandlerIf(m, env, OnExit(e), cur, w).1 && o4 == HandlerIf(m, env, OnEntry(e), cur', w3).1
    ensures var out := Fire(m, env, row, e, cur, w);
            out.cur == cur' && out.obs == o1 + ([Changed(row.src, row.dst)] + ActionObs(row, e)) + o4
  {
    TargetIsState(m, row);
    cur' := StateId(m.table, row.dst);
    var (w1, o) := HandlerIf(m, env, OnExit(e), cur, w);
    o1 := o;
    w3 := ActionWorld(env, row, e, EnterWorld(env, row.dst, w1));
    o4 := HandlerIf(m, env, OnEntry(e), cur', w3).1;
    assert o1 + [Changed(row.src, row.dst)] + ActionObs(row, e)
        == o1 + ([Changed(row.src, row.dst)] + ActionObs(row, e));
  }

  lemma FireFollows<C>(m: Machine, env: Env<C>, row: Row, e: Event, cur: nat, w: World<C>)
    requires WellFormed(m) && Watched(m) && ValidId(m, cur) && row in m.table && row.src == States(m.table)[cur]
    ensures var out := Fire(m, env, row, e, cur, w);
            Follow(In(row.src), out.obs) == In(States(m.table)[out.cur])
  {
    if row.dst == Internal {
      assert Follow(In(row.src), ActionObs(row, e)) == In(row.src);
    } else {
      FireExternalFollows(m, env, row, e, cur, w);
    }
  }

  lemma FireExternalFollows<C>(m: Machine, env: Env<C>, row: Row, e: Event, cur: nat, w: World<C>)
    requires WellFormed(m) && Watched(m) && ValidId(m, cur) && row in m.table && row.src == States(m.table)[cur]
    requires row.dst != Internal
    ensures var out := Fire(m, env, row, e, cur, w);
            Follow(In(row.src), out.obs) == In(States(m.table)[out.cur])
  {
    var w3, cur', o1, o4 := FireObs(m, env, row, e, cur, w);
    ExitFollows(m, env, e, cur, w);
    EntryFollows(m, env, row, e, cur', w3);
    PiecesFollow(row, e, o1, o4);
  }

  lemma ExitFollows<C>(m: Machine, env: Env<C>, e: Event, cur: nat, w: World<C>)
    requires WellFormed(m) && Watched(m) && ValidId(m, cur)
    ensures var s := States(m.table)[cur]; Follow(In(s), HandlerIf(m, env, OnExit(e), cur, w).1) == Leaving(s)
  {
    HandlerFollows(m, env, OnExit(e), cur, w, In(States(m.table)[cur]), Leaving(States(m.table)[cur]));
  }

  lemma EntryFollows<C>(m: Machine, env: Env<C>, row: Row, e: Event, cur: nat, w: World<C>)
    requires WellFormed(m) && Watched(m) && ValidId(m, cur) && States(m.table)[cur] == row.dst
    ensures Follow(Arriving(row.src, row.dst, row.action.Do?), HandlerIf(m, env, OnEntry(e), cur, w).1) == In(row.dst)
  {
    HandlerFollows(m, env, OnEntry(e), cur, w, Arriving(row.src, row.dst, row.action.Do?), In(row.dst));
  }

  lemma PiecesFollow(row: Row, e: Event, o1: seq<Obs>, o4: seq<Obs>)
    requires row.dst != Internal && Follow(In(row.src), o1) == Leaving(row.src)
    requires Follow(Arriving(row.src, row.dst, row.action.Do?), o4) == In(row.dst)
    ensures Follow(In(row.src), o1 + ([Changed(row.src, row.dst)] + ActionObs(row, e)) + o4) == In(row.dst)
  {
    ChangeFollows(row, e);
    FollowThree(In(row.src), o1, Leaving(row.src), [Changed(row.src, row.dst)] + ActionObs(row, e),
                Arriving(row.src, row.dst, row.action.Do?), o4, In(row.dst));
  }

  lemma FollowThree(g: Stage, o1: seq<Obs>, g1: Stage, o2: seq<Obs>, g2: Stage, o3: seq<Obs>, g3: Stage)
    requires Follow(g, o1) == g1 && Follow(g1, o2) == g2 && Follow(g2, o3) == g3
    ensures Follow(g, o1 + o2 + o3) == g3
  {
    FollowConcat(g, o1, o2);
    FollowConcat(g, o1 + o2, o3);
  }

  /** The state changes, then the action runs, if there is one. */
  lemma ChangeFollows(row: Row, e: Event)
    requires row.dst != Internal
    ensures Follow(Leaving(row.src), [Changed(row.src, row.dst)] + ActionObs(row, e))
         == Arriving(row.src, row.dst, row.action.Do?)
  {
    FollowOne(Leaving(row.src), Changed(row.src, row.dst));
    FollowOne(Arriving(row.src, row.dst, false), Ran(row, e));
    FollowConcat(Leaving(row.src), [Changed(row.src, row.dst)], ActionObs(row, e));
  }

  lemma {:induction false} ExecuteRowsFollow<C>(m: Machine, env: Env<C>, rows: seq<Row>, e: Event, cur: nat,
                                                w: World<C>)
    requires WellFormed(m) && Watched(m) && ValidId(m, cur) && rows != []
    requires forall row :: row in rows ==> row in m.table && row.src == States(m.table)[cur]
    ensures var out := ExecuteRows(m, env, rows, e, cur, w);
            Follow(In(States(m.table)[cur]), out.obs) == In(States(m.table)[out.cur])
    decreases |rows|
  {
    var s := States(m.table)[cur];
    var o := GuardObs(env, rows[0], e, w);
    assert Follow(In(s), o) == In(s);
    if GuardHolds(env, rows[0], e, w) {
      FireFollows(m, env, rows[0], e, cur, w);
      FollowConcat(In(s), o, Fire(m, env, rows[0], e, cur, w).obs);
    } else if |rows| > 1 {
      ExecuteRowsFollow(m, env, rows[1..], e, cur, w);
      FollowConcat(In(s), o, ExecuteRows(m, env, rows[1..], e, cur, w).obs);
    }
  }

  lemma UnexpectedStepFollows<C>(m: Machine, env: Env<C>, e: Event, cur: nat, w: World<C>)
    requires WellFormed(m) && Watched(m) && ValidId(m, cur)
    ensures var out := UnexpectedStep(m, env, e, cur, w);
            Follow(In(States(m.table)[cur]), out.obs) == In(States(m.table)[out.cur])
  {
    var s := States(m.table)[cur];
    FoundRows(m, Unexpected(e), s);
    if m.Find(Unexpected(e), s).Found? {
      ExecuteRowsFollow(m, env, m.Find(Unexpected(e), s).rows, Unexpected(e), cur, w);
    }
  }

  lemma SubThenRowsFollow<C>(m: Machine, env: Env<C>, k: nat, rows: seq<Row>, e: Event, cur: nat, w: World<C>)
    requires WellFormed(m) && Watched(m) && ValidId(m, cur) && rows != [] && States(m.table)[cur] == Sub(k)
    requires forall row :: row in rows ==> row in m.table && row.src == States(m.table)[cur]
    ensures var out := SubThenRows(m, env, k, rows, e, cur, w);
            Follow(In(States(m.table)[cur]), out.obs) == In(States(m.table)[out.cur])
  {
    ExecuteRowsFollow(m, env, rows, e, cur, SubWorld(env, k, e, w));
    var offer := OfferObs(env, k, e, w);
    FollowOne(In(Sub(k)), offer[0]);
    FollowConcat(In(Sub(k)), offer, ExecuteRows(m, env, rows, e, cur, SubWorld(env, k, e, w)).obs);
  }

  lemma CompositeStepFollows<C>(m: Machine, env: Env<C>, key: Event, e: Event, cur: nat, w: World<C>, k: nat)
    requires WellFormed(m) && Watched(m) && ValidId(m, cur) && States(m.table)[cur] == Sub(k)
    requires e.OnEntry? ==> key.OnEntry?
    ensures var out := Step(m, env, key, e, cur, w);
            Follow(In(Sub(k)), out.obs) == In(States(m.table)[out.cur])
  {
    FoundRows(m, key, Sub(k));
    FollowOne(In(Sub(k)), OfferObs(env, k, e, w)[0]);
    match m.Find(key, Sub(k))
    case Unmapped =>
    case Found(rows) =>
      if e.OnEntry? {
        ExecuteRowsFollow(m, env, rows, e, cur, w);
        InternalRowsStay(m, env, rows, e, cur, w);
        var out := ExecuteRows(m, env, rows, e, cur, w);
        FollowOne(In(Sub(k)), OfferObs(env, k, e, out.w)[0]);
        FollowConcat(In(Sub(k)), out.obs, OfferObs(env, k, e, out.w));
      } else {
        SubThenRowsFollow(m, env, k, rows, e, cur, w);
      }
  }

  lemma {:induction false} InternalRowsStay<C>(m: Machine, env: Env<C>, rows: seq<Row>, e: Event, cur: nat,
                                               w: World<C>)
    requires WellFormed(m) && ValidId(m, cur) && rows != []
    requires forall row :: row in rows ==> row in m.table && row.dst == Internal
    ensures ExecuteRows(m, env, rows, e, cur, w).cur == cur
    decreases |rows|
  {
    if |rows| > 1 && !GuardHolds(env, rows[0], e, w) {
      InternalRowsStay(m, env, rows[1..], e, cur, w);
    }
  }

  lemma StepFollows<C>(m: Machine, env: Env<C>, key: Event, e: Event, cur: nat, w: World<C>)
    requires WellFormed(m) && Watched(m) && ValidId(m, cur) && (e.OnEntry? ==> key.OnEntry?)
    ensures var out := Step(m, env, key, e, cur, w);
            Follow(In(States(m.table)[cur]), out.obs) == In(States(m.table)[out.cur])
  {
    var s := States(m.table)[cur];
    if s.Sub? {
      CompositeStepFollows(m, env, key, e, cur, w, s.k);
    } else {
      FoundRows(m, key, s);
      match m.Find(key, s)
      case Unmapped => UnexpectedStepFollows(m, env, e, cur, w);
      case Found(rows) => ExecuteRowsFollow(m, env, rows, e, cur, w);
    }
  }
}

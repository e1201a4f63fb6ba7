/**
 Laws of the engine: dispatch through the compiled index is a linear scan of the declared
 table, and both queues are first-in first-out and lose nothing.
 */
module SmlLaws {
  import opened SmlTable
  import opened SmlEngine

  // ----- the compiled dispatch against the declared table -----

  /**
   Visit the declared rows in order; a row of `key` at the current state whose guard holds is
   fired and ends the scan. An exit event is reported handled only by a row that is not the
   last one for it.
   */
  function Scan<C>(m: Machine, env: Env<C>, rows: seq<Row>, key: Event, e: Event, cur: nat, w: World<C>): (out: Out<C>)
    requires WellFormed(m) && ValidId(m, cur) && forall row :: row in rows ==> row in m.table
    ensures ValidId(m, out.cur)
    decreases |rows|
  {
    var s := States(m.table)[cur];
    if rows == [] then Out(false, cur, w, [])
    else if rows[0].event != key || rows[0].src != s then Scan(m, env, rows[1..], key, e, cur, w)
    else if GuardHolds(env, rows[0], e, w) then
      var out := Fire(m, env, rows[0], e, cur, w);
      out.(handled := !e.OnExit? || Select(rows[1..], key, s) != [], obs := GuardObs(env, rows[0], e, w) + out.obs)
    else
      var rest := Scan(m, env, rows[1..], key, e, cur, w);
      rest.(obs := GuardObs(env, rows[0], e, w) + rest.obs)
  }

  /** The whole declared table for `key`, then for the wildcard if `key` may fall back on it. */
  function ScanDeclared<C>(m: Machine, env: Env<C>, key: Event, e: Event, cur: nat, w: World<C>): (out: Out<C>)
    requires WellFormed(m) && ValidId(m, cur)
  {
    var own := Scan(m, env, m.table, key, e, cur, w);
    if own.handled || OwnRowsOnly(key) then own
    else
      var any := Scan(m, env, m.table, Any, e, cur, w);
      any.(obs := own.obs + any.obs)
  }

  predicate Declared(m: Machine, key: Event, s: State) {
    DeclaredRows(m.table, key, s) != []
  }

  /** One dispatch told by the declared table alone, in a simple or a composite state. */
  function ScanStep<C>(m: Machine, env: Env<C>, key: Event, e: Event, cur: nat, w: World<C>): Out<C>
    requires WellFormed(m) && ValidId(m, cur)
  {
    var s := States(m.table)[cur];
    if !s.Sub? then
      if Declared(m, key, s) then ScanDeclared(m, env, key, e, cur, w)
      else if m.HasUnexpected() && m.Enabled(Unexpected(e)) && Declared(m, Unexpected(e), s) then
        ScanDeclared(m, env, Unexpected(e), Unexpected(e), cur, w).(handled := false)
      else Out(false, cur, w, [])
    else if !Declared(m, key, s) then Out(true, cur, SubWorld(env, s.k, e, w), OfferObs(env, s.k, e, w))
    else if e == Anonymous && !env.subTerminated(s.k, w.ctx) then Out(false, cur, w, [])
    else if e.OnEntry? then
      var out := ScanDeclared(m, env, key, e, cur, w);
      out.(handled := true, w := SubWorld(env, s.k, e, out.w), obs := out.obs + OfferObs(env, s.k, e, out.w))
    else if env.subProcess(s.k, e, w.ctx).0 then
      Out(true, cur, SubWorld(env, s.k, e, w), OfferObs(env, s.k, e, w))
    else
      var out := ScanDeclared(m, env, key, e, cur, SubWorld(env, s.k, e, w));
      out.(obs := OfferObs(env, s.k, e, w) + out.obs)
  }

  lemma {:induction false} ScanIsExecute<C>(m: Machine, env: Env<C>, rows: seq<Row>, key: Event, e: Event, cur: nat,
                                            w: World<C>)
    requires WellFormed(m) && ValidId(m, cur) && forall row :: row in rows ==> row in m.table
    ensures var sel := Select(rows, key, States(m.table)[cur]);
            && (forall row :: row in sel ==> row in m.table)
            && Scan(m, env, rows, key, e, cur, w)
               == if sel == [] then Out(false, cur, w, []) else ExecuteRows(m, env, sel, e, cur, w)
    decreases |rows|
  {
    var s := States(m.table)[cur];
    forall row | row in Select(rows, key, s) ensures row in m.table {
      SelectIsFilter(rows, key, s, row);
    }
    if rows != [] {
      ScanIsExecute(m, env, rows[1..], key, e, cur, w);
      if rows[0].event == key && rows[0].src == s {
        ScanMatching(m, env, rows, key, e, cur, w);
      } else {
        assert Select(rows, key, s) == Select(rows[1..], key, s);
      }
    }
  }

  lemma ScanMatching<C>(m: Machine, env: Env<C>, rows: seq<Row>, key: Event, e: Event, cur: nat, w: World<C>)
    requires WellFormed(m) && ValidId(m, cur) && rows != [] && forall row :: row in rows ==> row in m.table
    requires rows[0].event == key && rows[0].src == States(m.table)[cur]
    requires forall row :: row in Select(rows[1..], key, States(m.table)[cur]) ==> row in m.table
    requires var sel := Select(rows[1..], key, States(m.table)[cur]);
             Scan(m, env, rows[1..], key, e, cur, w)
             == if sel == [] then Out(false, cur, w, []) else ExecuteRows(m, env, sel, e, cur, w)
    ensures var sel := [rows[0]] + Select(rows[1..], key, States(m.table)[cur]);
            && Select(rows, key, States(m.table)[cur]) == sel && (forall row :: row in sel ==> row in m.table)
            && Scan(m, env, rows, key, e, cur, w) == ExecuteRows(m, env, sel, e, cur, w)
  {
    ExecuteFirst(m, env, rows[0], Select(rows[1..], key, States(m.table)[cur]), e, cur, w);
  }

  /** The first row either fires and ends the execution, or leaves only its guard in the trace. */
  lemma ExecuteFirst<C>(m: Machine, env: Env<C>, row: Row, rest: seq<Row>, e: Event, cur: nat, w: World<C>)
    requires WellFormed(m) && ValidId(m, cur) && row in m.table && forall r :: r in rest ==> r in m.table
    ensures var out := ExecuteRows(m, env, [row] + rest, e, cur, w);
            if GuardHolds(env, row, e, w) then
              out == ExecuteRow(m, env, row, e, cur, w).(handled := !e.OnExit? || rest != [])
            else
              var o := if rest == [] then Out(false, cur, w, []) else ExecuteRows(m, env, rest, e, cur, w);
              out == o.(obs := GuardObs(env, row, e, w) + o.obs)
  {
    assert ([row] + rest)[1..] == rest && ([row] + rest)[0] == row;
    var o := GuardObs(env, row, e, w);
    assert o + [] == o;
  }

  lemma {:induction false} ExecuteConcat<C>(m: Machine, env: Env<C>, a: seq<Row>, b: seq<Row>, e: Event, cur: nat,
                                            w: World<C>)
    requires WellFormed(m) && ValidId(m, cur) && !e.OnExit? && a != [] && b != []
    requires (forall row :: row in a ==> row in m.table) && (forall row :: row in b ==> row in m.table)
    ensures var first := ExecuteRows(m, env, a, e, cur, w);
            ExecuteRows(m, env, a + b, e, cur, w)
            == if first.handled then first
               else
                 var rest := ExecuteRows(m, env, b, e, cur, w);
                 rest.(obs := first.obs + rest.obs)
    decreases |a|
  {
    ExecuteFirst(m, env, a[0], a[1..], e, cur, w);
    ExecuteFirst(m, env, a[0], a[1..] + b, e, cur, w);
    assert a == [a[0]] + a[1..] && a + b == [a[0]] + (a[1..] + b);
    var o := GuardObs(env, a[0], e, w);
    if |a| == 1 {
      assert a[1..] + b == b && o + [] == o;
    } else if !GuardHolds(env, a[0], e, w) {
      ExecuteConcat(m, env, a[1..], b, e, cur, w);
      Assoc(o, ExecuteRows(m, env, a[1..], e, cur, w).obs, ExecuteRows(m, env, b, e, cur, w).obs);
    }
  }

  /** The rows found under `key` do what the scan of the declared table does. */
  lemma FoundIsScan<C>(m: Machine, env: Env<C>, key: Event, e: Event, cur: nat, w: World<C>)
    requires WellFormed(m) && ValidId(m, cur) && (e.OnExit? ==> key.OnExit?) && Declared(m, key, States(m.table)[cur])
    ensures var rows := DeclaredRows(m.table, key, States(m.table)[cur]);
            && (forall row :: row in rows ==> row in m.table)
            && ExecuteRows(m, env, rows, e, cur, w) == ScanDeclared(m, env, key, e, cur, w)
  {
    var s := States(m.table)[cur];
    var own, any := Select(m.table, key, s), Select(m.table, Any, s);
    ScanIsExecute(m, env, m.table, key, e, cur, w);
    if !OwnRowsOnly(key) {
      ScanIsExecute(m, env, m.table, Any, e, cur, w);
      if own != [] && any != [] {
        ExecuteConcat(m, env, own, any, e, cur, w);
      } else if any == [] {
        OwnRowsAlone(m, env, key, e, cur, w);
      } else {
        assert own + any == any;
        assert [] + ExecuteRows(m, env, any, e, cur, w).obs == ExecuteRows(m, env, any, e, cur, w).obs;
      }
    }
  }

  lemma OwnRowsAlone<C>(m: Machine, env: Env<C>, key: Event, e: Event, cur: nat, w: World<C>)
    requires WellFormed(m) && ValidId(m, cur) && !e.OnExit? && !OwnRowsOnly(key)
    requires Select(m.table, key, States(m.table)[cur]) != [] && Select(m.table, Any, States(m.table)[cur]) == []
    ensures ScanDeclared(m, env, key, e, cur, w) == Scan(m, env, m.table, key, e, cur, w)
    ensures Select(m.table, key, States(m.table)[cur]) + Select(m.table, Any, States(m.table)[cur])
         == Select(m.table, key, States(m.table)[cur])
  {
    var s := States(m.table)[cur];
    ScanIsExecute(m, env, m.table, key, e, cur, w);
    ScanIsExecute(m, env, m.table, Any, e, cur, w);
    UnhandledIsGuards(m, env, Select(m.table, key, s), e, cur, w);
    var own := Scan(m, env, m.table, key, e, cur, w);
    assert own.obs + [] == own.obs;
  }

  lemma UnexpectedIsScan<C>(m: Machine, env: Env<C>, e: Event, cur: nat, w: World<C>)
    requires WellFormed(m) && ValidId(m, cur)
    ensures UnexpectedStep(m, env, e, cur, w)
         == if m.HasUnexpected() && m.Enabled(Unexpected(e)) && Declared(m, Unexpected(e), States(m.table)[cur]) then
              ScanDeclared(m, env, Unexpected(e), Unexpected(e), cur, w).(handled := false)
            else Out(false, cur, w, [])
  {
    FoundRows(m, Unexpected(e), States(m.table)[cur]);
    if Declared(m, Unexpected(e), States(m.table)[cur]) {
      FoundIsScan(m, env, Unexpected(e), Unexpected(e), cur, w);
    }
  }

  /**
   Every dispatch through the compiled index, of any event in any state, simple or composite,
   does what a scan of the declared table does: same result, state, world and trace. In a
   simple state the unexpected-event path is taken exactly when the event has no row there,
   not when every guard fails.
   */
  lemma StepIsLinearScan<C>(m: Machine, env: Env<C>, key: Event, e: Event, cur: nat, w: World<C>)
    requires WellFormed(m) && ValidId(m, cur) && (e.OnExit? ==> key.OnExit?)
    ensures Step(m, env, key, e, cur, w) == ScanStep(m, env, key, e, cur, w)
  {
    var s := States(m.table)[cur];
    FoundRows(m, key, s);
    if Declared(m, key, s) {
      FoundIsScan(m, env, key, e, cur, w);
      if s.Sub? {
        FoundIsScan(m, env, key, e, cur, SubWorld(env, s.k, e, w));
      }
    } else if !s.Sub? {
      UnexpectedIsScan(m, env, e, cur, w);
    }
  }

  /**
   An execution is handled exactly when some guard holds, of an exit event's rows some guard
   but the last row's; when none holds nothing but the guards is observed.
   */
  lemma {:induction false} UnhandledIsGuards<C>(m: Machine, env: Env<C>, rows: seq<Row>, e: Event, cur: nat,
                                                w: World<C>)
    requires WellFormed(m) && ValidId(m, cur) && rows != [] && forall row :: row in rows ==> row in m.table
    ensures var out := ExecuteRows(m, env, rows, e, cur, w);
            && (out.handled <==>
                  exists i :: 0 <= i < |rows| && (rows[i].guard.Always? || env.guard(rows[i].guard.id, e, w.ctx))
                              && (e.OnExit? ==> i < |rows| - 1))
            && ((forall i :: 0 <= i < |rows| ==> rows[i].guard.Check? && !env.guard(rows[i].guard.id, e, w.ctx)) ==>
                  out.cur == cur && out.w == w)
    decreases |rows|
  {
    if |rows| > 1 && !GuardHolds(env, rows[0], e, w) {
      UnhandledIsGuards(m, env, rows[1..], e, cur, w);
      if i :| 0 <= i < |rows| && GuardHolds(env, rows[i], e, w) && (e.OnExit? ==> i < |rows| - 1) {
        assert rows[1..][i - 1] == rows[i];
      }
    }
  }

  // ----- the queues -----

  /** Conservation for one queue: what left it, then what it holds, is what it held, then what was pushed since. */
  ghost predicate Moved(q: seq<Event>, log: seq<Event>, left: seq<Event>, q': seq<Event>, log': seq<Event>) {
    log <= log' && left + q' == q + log'[|log|..]
  }

  lemma MovedTrans(q: seq<Event>, log: seq<Event>, left1: seq<Event>, q1: seq<Event>, log1: seq<Event>,
                   left2: seq<Event>, q2: seq<Event>, log2: seq<Event>)
    requires Moved(q, log, left1, q1, log1) && Moved(q1, log1, left2, q2, log2)
    ensures Moved(q, log, left1 + left2, q2, log2)
  {
    assert log2[|log|..] == log1[|log|..] + log2[|log1|..];
    calc {
      (left1 + left2) + q2;
      left1 + (left2 + q2);
      left1 + (q1 + log2[|log1|..]);
      (left1 + q1) + log2[|log1|..];
      (q + log1[|log|..]) + log2[|log1|..];
      q + log2[|log|..];
    }
  }

  ghost predicate DeferMoved<C>(w: World<C>, left: seq<Event>, w': World<C>) {
    Moved(w.defer, w.deferLog, left, w'.defer, w'.deferLog)
  }

  ghost predicate QueueMoved<C>(w: World<C>, left: seq<Event>, w': World<C>) {
    Moved(w.process, w.processLog, left, w'.process, w'.processLog)
  }

  lemma PushedMoves<C>(w: World<C>, w': World<C>)
    requires Pushed(w, w')
    ensures DeferMoved(w, [], w') && QueueMoved(w, [], w')
    ensures w.defer != [] ==> DeferMoved(w, [w.defer[0]], w'.(defer := w'.defer[1..]))
    ensures w.process != [] ==> QueueMoved(w, [w.process[0]], w'.(process := w'.process[1..]))
  {
    assert w.defer != [] ==> [w.defer[0]] + w'.defer[1..] == w'.defer;
    assert w.process != [] ==> [w.process[0]] + w'.process[1..] == w'.process;
  }

  /**
   What a defer drain of at most `size` rounds does: the events offered come from the front
   and in order; the events taken leave; the loop stops early only at an event nobody took.
   */
  ghost predicate DrainedFrom<C>(w: World<C>, size: nat, d: Drain<C>)
    requires size <= |w.defer|
  {
    && d.taken <= size && |d.offered| == (if d.taken < size then d.taken + 1 else size)
    && d.offered == w.defer[..|d.offered|]
    && DeferMoved(w, w.defer[..d.taken], d.c.w)
    && QueueMoved(w, [], d.c.w)
  }

  lemma {:induction false} DrainDeferConserves<C(!new)>(m: Machine, env: Env<C>, size: nat, c: Config<C>)
    requires WellFormed(m) && Valid(m, c) && size <= |c.w.defer|
    ensures DrainedFrom(c.w, size, DrainDefer(m, env, size, c))
    decreases size
  {
    if size > 0 {
      var (h, c') := DeferStep(m, env, c);
      DeferStepQueue(m, env, c);
      DrainDeferUnfold(m, env, size, c);
      if h {
        DrainDeferConserves(m, env, size - 1, c');
        DrainDeferStep(c.w, c'.w, DrainDefer(m, env, size - 1, c'), size);
      } else {
        FrontIsPrefix(c.w.defer);
      }
    } else {
      assert c.w.defer[..0] == [];
    }
  }

  lemma FrontIsPrefix<T>(q: seq<T>)
    requires q != []
    ensures q[..0] == [] && q[..1] == [q[0]]
  {
  }

  lemma DeferStepQueue<C(!new)>(m: Machine, env: Env<C>, c: Config<C>)
    requires WellFormed(m) && Valid(m, c) && c.w.defer != []
    ensures var (h, c') := DeferStep(m, env, c);
            && QueueMoved(c.w, [], c'.w)
            && DeferMoved(c.w, if h then [c.w.defer[0]] else [], c'.w)
            && (h ==> c.w.defer[1..] <= c'.w.defer)
  {
    var e := c.w.defer[0];
    ImplOnlyPushes(m, env, e, e, c);
    PushedMoves(c.w, ProcessImpl(m, env, e, e, c).1.w);
  }

  lemma DrainDeferStep<C>(w: World<C>, w': World<C>, d: Drain<C>, size: nat)
    requires 0 < size <= |w.defer| && w.defer[1..] <= w'.defer
    requires DeferMoved(w, [w.defer[0]], w') && QueueMoved(w, [], w')
    requires DrainedFrom(w', size - 1, d)
    ensures DrainedFrom(w, size, Drain([w.defer[0]] + d.offered, d.taken + 1, d.c))
  {
    FrontOf(w.defer, w'.defer, d.taken);
    FrontOf(w.defer, w'.defer, |d.offered|);
    MovedTrans(w.defer, w.deferLog, [w.defer[0]], w'.defer, w'.deferLog,
               w'.defer[..d.taken], d.c.w.defer, d.c.w.deferLog);
    MovedTrans(w.process, w.processLog, [], w'.process, w'.processLog, [], d.c.w.process, d.c.w.processLog);
  }

  lemma FrontOf(q: seq<Event>, q': seq<Event>, n: nat)
    requires q != [] && n < |q| && q[1..] <= q'
    ensures [q[0]] + q'[..n] == q[..n + 1]
  {
    assert q'[..n] == q[1..][..n];
  }

  lemma DropFront<T>(q: seq<T>, n: nat, q': seq<T>, pushed: seq<T>)
    requires n <= |q| && q[..n] + q' == q + pushed
    ensures q' == q[n..] + pushed
  {
    assert q' == (q[..n] + q')[n..];
    assert q[n..] + pushed == (q + pushed)[n..];
  }

  /** Exactly the events not taken remain, in order, followed by those deferred meanwhile. */
  lemma DrainDeferKeepsOrder<C(!new)>(m: Machine, env: Env<C>, size: nat, c: Config<C>)
    requires WellFormed(m) && Valid(m, c) && size <= |c.w.defer|
    ensures var d := DrainDefer(m, env, size, c);
            && d.taken <= size && c.w.deferLog <= d.c.w.deferLog
            && d.c.w.defer == c.w.defer[d.taken..] + d.c.w.deferLog[|c.w.deferLog|..]
  {
    DrainDeferConserves(m, env, size, c);
    var d := DrainDefer(m, env, size, c);
    DropFront(c.w.defer, d.taken, d.c.w.defer, d.c.w.deferLog[|c.w.deferLog|..]);
  }

  /** The process queue at every point of the loop: offered ++ remaining = initial ++ pushed. */
  ghost predicate QueueDrainedFrom<C>(w: World<C>, rounds: nat, d: Drain<C>) {
    && QueueMoved(w, d.offered, d.c.w)
    && |d.offered| == d.taken <= rounds && (d.taken < rounds ==> d.c.w.process == [])
    && DeferMoved(w, [], d.c.w)
  }

  lemma {:induction false} DrainQueueConserves<C(!new)>(m: Machine, env: Env<C>, rounds: nat, c: Config<C>)
    requires WellFormed(m) && Valid(m, c)
    ensures QueueDrainedFrom(c.w, rounds, DrainQueue(m, env, rounds, c))
    decreases rounds
  {
    if rounds > 0 && c.w.process != [] {
      var c' := QueueStep(m, env, c);
      QueueStepMoves(m, env, c);
      DrainQueueUnfold(m, env, rounds, c);
      DrainQueueConserves(m, env, rounds - 1, c');
      DrainQueueStep(c.w, c'.w, rounds, DrainQueue(m, env, rounds - 1, c'));
    }
  }

  lemma DrainQueueStep<C>(w: World<C>, w': World<C>, rounds: nat, d: Drain<C>)
    requires rounds > 0 && w.process != [] && QueueMoved(w, [w.process[0]], w') && DeferMoved(w, [], w')
    requires QueueDrainedFrom(w', rounds - 1, d)
    ensures QueueDrainedFrom(w, rounds, Drain([w.process[0]] + d.offered, d.taken + 1, d.c))
  {
    MovedTrans(w.process, w.processLog, [w.process[0]], w'.process, w'.processLog,
               d.offered, d.c.w.process, d.c.w.processLog);
    MovedTrans(w.defer, w.deferLog, [], w'.defer, w'.deferLog, [], d.c.w.defer, d.c.w.deferLog);
  }

  lemma QueueStepMoves<C(!new)>(m: Machine, env: Env<C>, c: Config<C>)
    requires WellFormed(m) && Valid(m, c) && c.w.process != []
    ensures var c' := QueueStep(m, env, c);
            Valid(m, c') && QueueMoved(c.w, [c.w.process[0]], c'.w) && DeferMoved(c.w, [], c'.w)
  {
    var e := c.w.process[0];
    ImplOnlyPushes(m, env, e, e, c);
    PushedMoves(c.w, ProcessImpl(m, env, e, e, c).1.w);
  }

  /** The bound on the rounds does not matter once the queue has run empty. */
  lemma {:induction false} DrainQueueStable<C(!new)>(m: Machine, env: Env<C>, rounds: nat, more: nat, c: Config<C>)
    requires WellFormed(m) && Valid(m, c) && rounds <= more && RunsEmpty(m, env, rounds, c)
    ensures SameDrain(m, env, rounds, more, c)
    decreases rounds
  {
    if c.w.process == [] {
      SameDrainEmpty(m, env, rounds, more, c);
    } else {
      var next := QueueStep(m, env, c);
      RunsEmptyNext(m, env, rounds, c);
      DrainQueueStable(m, env, rounds - 1, more - 1, next);
      SameDrainNext(m, env, rounds, more, c);
    }
  }

  ghost predicate SameDrain<C(!new)>(m: Machine, env: Env<C>, rounds: nat, more: nat, c: Config<C>)
    requires WellFormed(m) && Valid(m, c)
  {
    DrainQueue(m, env, more, c) == DrainQueue(m, env, rounds, c)
  }

  lemma SameDrainEmpty<C(!new)>(m: Machine, env: Env<C>, rounds: nat, more: nat, c: Config<C>)
    requires WellFormed(m) && Valid(m, c) && c.w.process == []
    ensures SameDrain(m, env, rounds, more, c)
  {
  }

  lemma SameDrainNext<C(!new)>(m: Machine, env: Env<C>, rounds: nat, more: nat, c: Config<C>)
    requires WellFormed(m) && Valid(m, c) && c.w.process != [] && rounds > 0 && more > 0
    requires SameDrain(m, env, rounds - 1, more - 1, QueueStep(m, env, c))
    ensures SameDrain(m, env, rounds, more, c)
  {
    DrainQueueUnfold(m, env, rounds, c);
    DrainQueueUnfold(m, env, more, c);
  }

  /** The queue loop ends by itself within `rounds` iterations. */
  ghost predicate RunsEmpty<C(!new)>(m: Machine, env: Env<C>, rounds: nat, c: Config<C>)
    requires WellFormed(m) && Valid(m, c)
  {
    DrainQueue(m, env, rounds, c).c.w.process == []
  }

  lemma RunsEmptyNext<C(!new)>(m: Machine, env: Env<C>, rounds: nat, c: Config<C>)
    requires WellFormed(m) && Valid(m, c) && c.w.process != [] && RunsEmpty(m, env, rounds, c)
    ensures rounds > 0 && RunsEmpty(m, env, rounds - 1, QueueStep(m, env, c))
  {
  }

  /** So once an event has run to completion the number of rounds allowed is immaterial. */
  lemma CompletedEvent<C(!new)>(m: Machine, env: Env<C>, rounds: nat, more: nat, e: Event, c: Config<C>)
    requires WellFormed(m) && Valid(m, c) && rounds <= more
    requires ProcessEvent(m, env, rounds, e, c).1.w.process == []
    ensures ProcessEvent(m, env, more, e, c) == ProcessEvent(m, env, rounds, e, c)
  {
    var (h, c1) := ProcessImpl(m, env, GenericKey(e), e, c);
    var c2 := ProcessInternal(m, env, Anonymous, c1);
    DrainQueueStable(m, env, rounds, more, if h then DrainDefer(m, env, |c2.w.defer|, c2).c else c2);
  }

  lemma CompletedStart<C(!new)>(m: Machine, env: Env<C>, rounds: nat, more: nat, c: Config<C>)
    requires WellFormed(m) && Valid(m, c) && rounds <= more && Start(m, env, rounds, c).w.process == []
    ensures Start(m, env, more, c) == Start(m, env, rounds, c)
  {
    var c1 := ProcessInternal(m, env, OnEntry(Initial), c);
    DrainQueueStable(m, env, rounds, more, ProcessInternal(m, env, Anonymous, c1));
  }

  /** A queue holds exactly its last pushes, in push order: nothing is lost, repeated or overtaken. */
  ghost predicate IsTail(q: seq<Event>, log: seq<Event>) {
    |q| <= |log| && q == log[|log| - |q|..]
  }

  ghost predicate Fifo<C>(w: World<C>) {
    IsTail(w.defer, w.deferLog) && IsTail(w.process, w.processLog)
  }

  lemma MovedIsTail(q: seq<Event>, log: seq<Event>, left: seq<Event>, q': seq<Event>, log': seq<Event>)
    requires IsTail(q, log) && Moved(q, log, left, q', log')
    ensures IsTail(q', log')
  {
    var gone := log[..|log| - |q|];
    assert log' == log + log'[|log|..];
    assert log == gone + q;
    assert log' == gone + (q + log'[|log|..]) == gone + (left + q') == (gone + left) + q';
  }

  lemma MovesAreFifo<C>(w: World<C>, left1: seq<Event>, left2: seq<Event>, w': World<C>)
    requires Fifo(w) && DeferMoved(w, left1, w') && QueueMoved(w, left2, w')
    ensures Fifo(w')
  {
    MovedIsTail(w.defer, w.deferLog, left1, w'.defer, w'.deferLog);
    MovedIsTail(w.process, w.processLog, left2, w'.process, w'.processLog);
  }

  lemma ImplIsFifo<C(!new)>(m: Machine, env: Env<C>, key: Event, e: Event, c: Config<C>)
    requires WellFormed(m) && Valid(m, c) && Fifo(c.w)
    ensures Fifo(ProcessImpl(m, env, key, e, c).1.w)
  {
    ImplOnlyPushes(m, env, key, e, c);
    PushedMoves(c.w, ProcessImpl(m, env, key, e, c).1.w);
    MovesAreFifo(c.w, [], [], ProcessImpl(m, env, key, e, c).1.w);
  }

  lemma DrainDeferIsFifo<C(!new)>(m: Machine, env: Env<C>, size: nat, c: Config<C>)
    requires WellFormed(m) && Valid(m, c) && Fifo(c.w) && size <= |c.w.defer|
    ensures Fifo(DrainDefer(m, env, size, c).c.w)
  {
    DrainDeferConserves(m, env, size, c);
    var d := DrainDefer(m, env, size, c);
    MovesAreFifo(c.w, c.w.defer[..d.taken], [], d.c.w);
  }

  lemma DrainQueueIsFifo<C(!new)>(m: Machine, env: Env<C>, rounds: nat, c: Config<C>)
    requires WellFormed(m) && Valid(m, c) && Fifo(c.w)
    ensures Fifo(DrainQueue(m, env, rounds, c).c.w)
  {
    DrainQueueConserves(m, env, rounds, c);
    var d := DrainQueue(m, env, rounds, c);
    MovesAreFifo(c.w, [], d.offered, d.c.w);
  }

  lemma ProcessEventIsFifo<C(!new)>(m: Machine, env: Env<C>, rounds: nat, e: Event, c: Config<C>)
    requires WellFormed(m) && Valid(m, c) && Fifo(c.w)
    ensures Fifo(ProcessEvent(m, env, rounds, e, c).1.w)
  {
    ImplIsFifo(m, env, GenericKey(e), e, c);
    var (h, c1) := ProcessImpl(m, env, GenericKey(e), e, c);
    ImplIsFifo(m, env, Anonymous, Anonymous, c1);
    var c2 := ProcessInternal(m, env, Anonymous, c1);
    DrainDeferIsFifo(m, env, |c2.w.defer|, c2);
    var c3 := if h then DrainDefer(m, env, |c2.w.defer|, c2).c else c2;
    DrainQueueIsFifo(m, env, rounds, c3);
  }

  lemma StartIsFifo<C(!new)>(m: Machine, env: Env<C>, rounds: nat, c: Config<C>)
    requires WellFormed(m) && Valid(m, c) && Fifo(c.w)
    ensures Fifo(Start(m, env, rounds, c).w)
  {
    ImplIsFifo(m, env, HandlerKey(m, OnEntry(Initial)), OnEntry(Initial), c);
    var c1 := ProcessInternal(m, env, OnEntry(Initial), c);
    ImplIsFifo(m, env, Anonymous, Anonymous, c1);
    DrainQueueIsFifo(m, env, rounds, ProcessInternal(m, env, Anonymous, c1));
  }

  lemma {:induction false} RunFromIsFifo<C(!new)>(m: Machine, env: Env<C>, rounds: nat, events: seq<Event>,
                                                  c: Config<C>)
    requires WellFormed(m) && Valid(m, c) && Fifo(c.w)
    ensures Fifo(RunFrom(m, env, rounds, events, c).w)
    decreases |events|
  {
    if events != [] {
      ProcessEventIsFifo(m, env, rounds, events[0], c);
      RunFromIsFifo(m, env, rounds, events[1..], ProcessEvent(m, env, rounds, events[0], c).1);
    }
  }

  /** Over every run both queues are first-in first-out. */
  lemma RunIsFifo<C(!new)>(m: Machine, env: Env<C>, rounds: nat, events: seq<Event>, ctx: C)
    requires WellFormed(m)
    ensures Fifo(Run(m, env, rounds, events, ctx).w)
  {
    StartIsFifo(m, env, rounds, InitialConfig(m, ctx));
    RunFromIsFifo(m, env, rounds, events, Start(m, env, rounds, InitialConfig(m, ctx)));
  }
}

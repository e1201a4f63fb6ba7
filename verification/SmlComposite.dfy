/**
 Composite states: a machine whose states may be nested machines, each with its own regions
 and queues. The parent is the engine run over a context that holds the nested machines;
 entering a composite state resets the nested regions that carry no history. The laws of
 runs are in `SmlHistory`.
 */
module SmlComposite {
  import opened TypeLists
  import opened SmlTable
  import opened SmlEngine

  /** Everything a nested machine owns. */
  datatype Nested = Nested(regions: seq<nat>, traces: seq<seq<Obs>>, defer: seq<Event>, process: seq<Event>,
                           deferLog: seq<Event>, processLog: seq<Event>)

  /** One entry into the composite state of machine `k`: its regions just before and just after the reset. */
  datatype Visit = Visit(k: nat, before: seq<nat>, after: seq<nat>)

  /** The parent's context: the shared context, the nested machines, and the record of entries. */
  datatype Nest<C> = Nest(ctx: C, subs: seq<Nested>, visits: seq<Visit>)

  // ----- update_composite_states -----

  /** The source compares the number of starred rows without history with the number of distinct initial states. */
  predicate HasHistory(table: seq<Row>) {
    |InitialStates(table)| != |ResetStates(table)|
  }

  function InitialIds(table: seq<Row>): seq<nat> {
    seq(|InitialStates(table)|, i requires 0 <= i < |InitialStates(table)| => StateId(table, InitialStates(table)[i]))
  }

  function ResetEach(table: seq<Row>, states: seq<State>, regions: seq<nat>): (r: seq<nat>)
    requires |regions| == |InitialStates(table)|
    ensures |r| == |regions|
    decreases |states|
  {
    if states == [] then regions
    else
      var i := IndexOf(InitialStates(table), states[0]);
      ResetEach(table, states[1..], if i < |regions| then regions[i := StateId(table, states[0])] else regions)
  }

  function UpdateComposite(table: seq<Row>, regions: seq<nat>): (r: seq<nat>)
    requires |regions| == |InitialStates(table)|
    ensures |r| == |regions|
  {
    if HasHistory(table) then ResetEach(table, ResetStates(table), regions) else InitialIds(table)
  }

  /** Region `r` carries history: every starred row of its initial state asks for it. */
  predicate HistoryRegion(table: seq<Row>, r: nat)
    requires r < |InitialStates(table)|
  {
    InitialStates(table)[r] !in ResetStates(table)
  }

  lemma {:induction false} ResetStatesSpec(table: seq<Row>, s: State)
    ensures s in ResetStates(table) <==>
              exists i :: 0 <= i < |table| && table[i].initial && !table[i].history && table[i].src == s
    ensures s in ResetStates(table) ==> s in InitialStates(table)
  {
    InitialStatesSpec(table, s);
    if table != [] {
      ResetStatesSpec(table[1..], s);
      if s in ResetStates(table[1..]) {
        var i :| 0 <= i < |table[1..]| && table[1..][i].initial && !table[1..][i].history && table[1..][i].src == s;
        assert table[i + 1] == table[1..][i];
      }
      if i :| 0 < i < |table| && table[i].initial && !table[i].history && table[i].src == s {
        assert table[1..][i - 1] == table[i];
      }
    }
  }

  lemma {:induction false} ResetEachSpec(table: seq<Row>, states: seq<State>, regions: seq<nat>, r: nat)
    requires |regions| == |InitialStates(table)| && r < |regions|
    requires forall s :: s in states ==> s in InitialStates(table)
    ensures ResetEach(table, states, regions)[r]
         == if InitialStates(table)[r] in states then StateId(table, InitialStates(table)[r]) else regions[r]
    decreases |states|
  {
    if states != [] {
      var i := IndexOf(InitialStates(table), states[0]);
      InitialStatesSpec(table, states[0]);
      IndexOfDistinct(InitialStates(table), r);
      assert states == [states[0]] + states[1..];
      ResetEachSpec(table, states[1..], regions[i := StateId(table, states[0])], r);
    }
  }

  /** Entering resets every region without history, and keeps the others if `HasHistory`. */
  lemma UpdateCompositeSpec(table: seq<Row>, regions: seq<nat>, r: nat)
    requires |regions| == |InitialStates(table)| && r < |regions|
    ensures UpdateComposite(table, regions)[r]
         == if HistoryRegion(table, r) && HasHistory(table) then regions[r]
            else StateId(table, InitialStates(table)[r])
  {
    forall s | s in ResetStates(table) ensures s in InitialStates(table) {
      ResetStatesSpec(table, s);
    }
    ResetEachSpec(table, ResetStates(table), regions, r);
  }

  ghost predicate ValidRegions(table: seq<Row>, regions: seq<nat>) {
    |regions| == |InitialStates(table)| && forall r :: 0 <= r < |regions| ==> regions[r] < |States(table)|
  }

  /** Entering keeps every history region, whatever states the regions are in. */
  ghost predicate KeepsHistory(table: seq<Row>) {
    forall regions, r :: ValidRegions(table, regions) && 0 <= r < |regions| && HistoryRegion(table, r) ==>
      UpdateComposite(table, regions)[r] == regions[r]
  }

  lemma InitialIdsDiffer(table: seq<Row>, i: nat, j: nat)
    requires |States(table)| <= 0x1_0000 && i < |InitialStates(table)| && j < |InitialStates(table)|
    ensures StateId(table, InitialStates(table)[i]) < |States(table)|
    ensures i != j ==> StateId(table, InitialStates(table)[i]) != StateId(table, InitialStates(table)[j])
  {
    var a, b := InitialStates(table)[i], InitialStates(table)[j];
    InitialStatesSpec(table, a);
    InitialStatesSpec(table, b);
    StateIdOf(table, a);
    StateIdOf(table, b);
  }

  /** History is kept exactly when the two counts differ, or no region asks for history. */
  lemma HistoryKeptExactlyWhen(table: seq<Row>)
    requires |States(table)| <= 0x1_0000 && InitialStates(table) != []
    ensures KeepsHistory(table) <==>
              HasHistory(table) || forall r :: 0 <= r < |InitialStates(table)| ==> !HistoryRegion(table, r)
  {
    if HasHistory(table) || forall r :: 0 <= r < |InitialStates(table)| ==> !HistoryRegion(table, r) {
      forall regions, r | ValidRegions(table, regions) && 0 <= r < |regions| && HistoryRegion(table, r)
        ensures UpdateComposite(table, regions)[r] == regions[r]
      {
        UpdateCompositeSpec(table, regions, r);
      }
    } else {
      var r :| 0 <= r < |InitialStates(table)| && HistoryRegion(table, r);
      var other := ResetStates(table)[0];
      assert other in ResetStates(table);
      ResetStatesSpec(table, other);
      var j := IndexOf(InitialStates(table), other);
      InitialIdsDiffer(table, r, j);
      var regions := InitialIds(table)[r := StateId(table, other)];
      forall i | 0 <= i < |regions| ensures regions[i] < |States(table)| {
        InitialIdsDiffer(table, i, j);
        InitialIdsDiffer(table, j, j);
      }
      assert ValidRegions(table, regions);
      UpdateCompositeSpec(table, regions, r);
    }
  }

  lemma {:induction false} ResetCount(table: seq<Row>)
    requires forall row :: row in table && row.history ==> row.initial
    ensures |ResetStates(table)| <= |Starred(table)|
    ensures (exists i :: 0 <= i < |table| && table[i].history) ==> |ResetStates(table)| < |Starred(table)|
  {
    if table != [] {
      ResetCount(table[1..]);
      if i :| 0 < i < |table| && table[i].history {
        assert table[1..][i - 1].history;
      }
    }
  }

  /** A table that stars each initial state once keeps history. */
  lemma StarredOnceKeepsHistory(table: seq<Row>)
    requires |States(table)| <= 0x1_0000 && InitialStates(table) != []
    requires forall row :: row in table && row.history ==> row.initial
    requires Distinct(Starred(table))
    ensures KeepsHistory(table)
  {
    HistoryKeptExactlyWhen(table);
    UniqueIsRemoveDuplicates(Starred(table));
    DistinctIsFixed(Starred(table));
    ResetCount(table);
    if r :| 0 <= r < |InitialStates(table)| && HistoryRegion(table, r) {
      InitialStatesSpec(table, InitialStates(table)[r]);
      var i :| 0 <= i < |table| && table[i].initial && table[i].src == InitialStates(table)[r];
      ResetStatesSpec(table, InitialStates(table)[r]);
      assert table[i].history;
    }
  }

  /** Two initial states, the first starred twice without history, the second once with it. */
  function StarredTwice(a: State, b: State): seq<Row> {
    [Row(a, b, Plain(0), Always, NoAction, true, false),
     Row(a, a, Plain(1), Always, NoAction, true, false),
     Row(b, a, Plain(1), Always, NoAction, true, true)]
  }

  lemma StarredTwiceCounts(a: State, b: State)
    requires a != b
    ensures InitialStates(StarredTwice(a, b)) == [a, b] && ResetStates(StarredTwice(a, b)) == [a, a]
  {
    var table := StarredTwice(a, b);
    assert Starred(table[1..]) == [a] + Starred(table[1..][1..]);
    assert Starred(table[1..][1..]) == [b] + Starred(table[1..][1..][1..]);
    assert Starred(table) == [a, a, b];
    assert ResetStates(table[1..]) == [a] + ResetStates(table[1..][1..]);
    assert ResetStates(table[1..][1..]) == [] + ResetStates(table[1..][1..][1..]);
    var s := [a, a, b];
    assert UniqueFrom([], s) == UniqueFrom([a], s[1..]) by { assert [] + [a] == [a]; }
    assert UniqueFrom([a], s[1..]) == UniqueFrom([a], s[1..][1..]);
    assert UniqueFrom([a], s[1..][1..]) == UniqueFrom([a, b], s[1..][1..][1..]);
  }

  /** Starring one state twice makes the counts equal, and the history region is reset like the other. */
  lemma StarredTwiceLosesHistory(a: State, b: State)
    requires a != b
    ensures var table := StarredTwice(a, b);
            && |InitialStates(table)| == 2 && HistoryRegion(table, 1) && !KeepsHistory(table)
            && forall regions :: |regions| == 2 ==> UpdateComposite(table, regions)[1] == StateId(table, b)
  {
    var table := StarredTwice(a, b);
    StarredTwiceCounts(a, b);
    AllStatesLength(table);
    UniqueIsNotLonger(AllStates(table));
    HistoryKeptExactlyWhen(table);
    assert HistoryRegion(table, 1) && !HasHistory(table);
    forall regions | |regions| == 2 ensures UpdateComposite(table, regions)[1] == StateId(table, b) {
      UpdateCompositeSpec(table, regions, 1);
    }
  }

  // ----- the parent's environment -----

  function SubConfig<C>(p: Nest<C>, k: nat): Config<C>
    requires k < |p.subs|
  {
    var n := p.subs[k];
    Config(n.regions, n.traces, World(p.ctx, n.defer, n.process, n.deferLog, n.processLog))
  }

  function PutSub<C>(p: Nest<C>, k: nat, c: Config<C>): Nest<C>
    requires k < |p.subs|
  {
    Nest(c.w.ctx,
         p.subs[k := Nested(c.regions, c.traces, c.w.defer, c.w.process, c.w.deferLog, c.w.processLog)],
         p.visits)
  }

  /** `process_event` of nested machine `k`; it shares the context but owns its regions and queues. */
  ghost function RunSub<C(!new)>(machines: seq<Machine>, env: Env<C>, rounds: nat, k: nat, e: Event, p: Nest<C>):
      (bool, Nest<C>)
  {
    if k < |machines| && k < |p.subs| && WellFormed(machines[k]) && Valid(machines[k], SubConfig(p, k)) then
      var (h, c) := ProcessEvent(machines[k], env, rounds, e, SubConfig(p, k));
      (h, PutSub(p, k, c))
    else (false, p)
  }

  function EnterSub<C>(machines: seq<Machine>, k: nat, p: Nest<C>): Nest<C> {
    if k < |machines| && k < |p.subs| && |p.subs[k].regions| == |InitialStates(machines[k].table)| then
      var before := p.subs[k].regions;
      var after := UpdateComposite(machines[k].table, before);
      Nest(p.ctx, p.subs[k := p.subs[k].(regions := after)], p.visits + [Visit(k, before, after)])
    else p
  }

  predicate SubTerminated<C>(machines: seq<Machine>, k: nat, p: Nest<C>) {
    k < |machines| && k < |p.subs| &&
    forall r :: 0 <= r < |p.subs[k].regions| ==> p.subs[k].regions[r] == StateId(machines[k].table, Terminate)
  }

  ghost function ParentEnv<C(!new)>(machines: seq<Machine>, env: Env<C>, rounds: nat): Env<Nest<C>> {
    Env((g: nat, e: Event, p: Nest<C>) => env.guard(g, e, p.ctx),
        (a: nat, e: Event, p: Nest<C>) =>
          var f := env.action(a, e, p.ctx);
          Effect(p.(ctx := f.ctx), f.deferred, f.queued),
        (k: nat, e: Event, p: Nest<C>) => RunSub(machines, env, rounds, k, e, p),
        (k: nat, p: Nest<C>) => EnterSub(machines, k, p),
        (k: nat, p: Nest<C>) => SubTerminated(machines, k, p))
  }
}

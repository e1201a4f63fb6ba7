/**
 A machine whose action queues an entry event: the run dispatches it as an event of its own,
 and the region's trace shows an entry that no transition made. So the chain law of `SmlRuns`
 does need a word about what actions push.
 */
module SmlPushedEntry {
  import opened TypeLists
  import opened SmlTable
  import opened SmlEngine
  import opened SmlSteps
  import opened SmlTrace
  import opened SmlRuns

  /** One state, with an internal row for event 0 and untargeted entry and exit handlers. */
  function Table(): seq<Row> {
    [Row(Named(0), Internal, Plain(0), Always, Do(0), true, false),
     Row(Named(0), Internal, OnEntry(Any), Always, NoAction, false, false),
     Row(Named(0), Internal, OnExit(Any), Always, NoAction, false, false)]
  }

  function Pusher(): Machine {
    Machine(Table(), [], false)
  }

  /** The action queues an entry event. */
  ghost function PushEnv<C>(): Env<C> {
    Env((g: nat, e: Event, c: C) => true,
        (a: nat, e: Event, c: C) => Effect(c, [], [OnEntry(Plain(0))]),
        (k: nat, e: Event, c: C) => (false, c),
        (k: nat, c: C) => c,
        (k: nat, c: C) => false)
  }

  // ----- the table -----

  lemma TableStates()
    ensures States(Table()) == [Named(0), Internal] && InitialStates(Table()) == [Named(0)]
    ensures StateId(Table(), Named(0)) == 0
  {
    var t := Table();
    var all := [Named(0), Internal, Named(0), Internal, Named(0), Internal];
    assert AllStates(t[1..][1..]) == [Named(0), Internal] + AllStates(t[1..][1..][1..]);
    assert AllStates(t[1..]) == [Named(0), Internal] + AllStates(t[1..][1..]);
    assert AllStates(t) == all;
    UniqueOfTwo(Named(0), Internal, all);
    TableStarred();
  }

  /** A list that starts with two different elements and repeats only these. */
  lemma UniqueOfTwo<T(!new)>(a: T, b: T, ts: seq<T>)
    requires a != b && |ts| > 2 && ts[0] == a && ts[1] == b && forall t :: t in ts[2..] ==> t == a || t == b
    ensures Unique(ts) == [a, b]
  {
    assert ts[1..][0] == b && ts[1..][1..] == ts[2..];
    assert [] + [a] == [a] && [a] + [b] == [a, b];
    assert Unique(ts) == UniqueFrom([a], ts[1..]) == UniqueFrom([a, b], ts[1..][1..]);
    UniqueFromSeen([a, b], ts[2..]);
  }

  lemma TableStarred()
    ensures Starred(Table()) == [Named(0)]
  {
    var t := Table();
    assert Starred(t[1..][1..]) == [] + Starred(t[1..][1..][1..]);
    assert Starred(t[1..]) == [] + Starred(t[1..][1..]);
  }

  lemma TableEvents(e: Event)
    ensures HasEvent(Table(), e) <==> e == Plain(0) || e == OnEntry(Any) || e == OnExit(Any)
  {
    var t := Table();
    assert t[0].event == Plain(0) && t[1].event == OnEntry(Any) && t[2].event == OnExit(Any);
  }

  lemma TableSelect(e: Event)
    ensures Select(Table(), e, Named(0))
         == if e == Plain(0) then [Table()[0]]
            else if e == OnEntry(Any) then [Table()[1]]
            else if e == OnExit(Any) then [Table()[2]]
            else []
  {
    var t := Table();
    var s := Named(0);
    assert Select(t[1..][1..], e, s) == (if t[2].event == e then [t[2]] else []) + Select(t[1..][1..][1..], e, s);
    assert Select(t[1..], e, s) == (if t[1].event == e then [t[1]] else []) + Select(t[1..][1..], e, s);
  }

  lemma PusherWellFormed()
    ensures WellFormed(Pusher()) && Watched(Pusher())
    ensures Pusher().HasEntryExits() && forall e :: Pusher().Enabled(e) <==> HasEvent(Table(), e)
  {
    TableStates();
    TableEvents(OnEntry(Any));
    TableEvents(OnExit(Any));
    assert Table()[1].event.OnEntry?;
    forall e | Pusher().Enabled(e) ensures !e.Unexpected? {
      TableEvents(e);
    }
  }

  lemma PusherFinds(e: Event)
    requires e == Plain(0) || e == OnEntry(Any)
    ensures Pusher().Find(e, Named(0)) == Found([if e == Plain(0) then Table()[0] else Table()[1]])
  {
    FoundRows(Pusher(), e, Named(0));
    TableEvents(e);
    TableSelect(e);
    TableSelect(Any);
  }

  /** What the run needs to know of the machine, its row for event 0 and its entry row. */
  ghost predicate Pushes(m: Machine, row: Row, entry: Row) {
    && WellFormed(m) && Watched(m) && row in m.table && entry in m.table
    && States(m.table) == [Named(0), Internal] && InitialStates(m.table) == [Named(0)]
    && StateId(m.table, Named(0)) == 0
    && row.guard.Always? && row.dst == Internal && row.action == Do(0)
    && entry.guard.Always? && entry.dst == Internal && entry.action == NoAction
    && m.Find(Plain(0), Named(0)) == Found([row]) && m.Find(OnEntry(Any), Named(0)) == Found([entry])
    && m.Enabled(OnEntry(Any)) && !m.Enabled(OnEntry(Initial)) && !m.Enabled(Anonymous)
  }

  lemma PusherPushes()
    ensures Pushes(Pusher(), Table()[0], Table()[1])
  {
    PusherWellFormed();
    TableStates();
    TableEvents(OnEntry(Any));
    TableEvents(OnEntry(Initial));
    TableEvents(Anonymous);
    PusherFinds(Plain(0));
    PusherFinds(OnEntry(Any));
  }

  // ----- the run -----

  /** The single region in state 0, nothing deferred, and this process queue. */
  ghost predicate Resting<C>(m: Machine, c: Config<C>, process: seq<Event>) {
    Valid(m, c) && c.regions == [0] && c.w.defer == [] && c.w.process == process
  }

  lemma InternalRow<C>(m: Machine, row: Row, e: Event, w: World<C>)
    requires WellFormed(m) && ValidId(m, 0) && row in m.table
    requires row.guard.Always? && row.dst == Internal && !e.OnExit?
    ensures ExecuteRows(m, PushEnv(), [row], e, 0, w)
         == Out(true, 0, ActionWorld(PushEnv(), row, e, w), ActionObs(row, e))
  {
    assert [] + ActionObs(row, e) == ActionObs(row, e);
  }

  lemma RegionAlone<C>(m: Machine, key: Event, e: Event, c: Config<C>)
    requires WellFormed(m) && Valid(m, c) && |c.regions| == 1
    ensures ProcessImpl(m, PushEnv(), key, e, c) == StepRegion(m, PushEnv(), key, e, 0, c)
  {
    StepRegionsUnfold(m, PushEnv(), key, e, 0, false, c);
  }

  lemma AfterStart<C>(m: Machine, row: Row, entry: Row, ctx: C)
    requires Pushes(m, row, entry)
    ensures Resting(m, AfterEntries(m, PushEnv(), ctx), [])
  {
    var c := InitialConfig(m, ctx);
    RegionAlone(m, OnEntry(Any), OnEntry(Initial), c);
    InternalRow(m, entry, OnEntry(Initial), c.w);
  }

  lemma AfterEvent<C>(m: Machine, row: Row, entry: Row, c: Config<C>)
    requires Pushes(m, row, entry) && Resting(m, c, [])
    ensures var (h, c') := ProcessImpl(m, PushEnv(), Plain(0), Plain(0), c);
            h && Resting(m, c', [OnEntry(Plain(0))])
  {
    RegionAlone(m, Plain(0), Plain(0), c);
    InternalRow(m, row, Plain(0), c.w);
  }

  lemma QueuedIsDispatched<C(!new)>(m: Machine, rounds: nat, c: Config<C>)
    requires WellFormed(m) && Resting(m, c, [OnEntry(Plain(0))]) && rounds > 0
    ensures Offers(QueueDispatches(m, PushEnv(), rounds, c), OnEntry(Plain(0)))
  {
    var e := OnEntry(Plain(0));
    RegionsOffer(m, PushEnv(), e, e, c);
    OffersConcat(RegionDispatches(m, PushEnv(), e, e, 0, c),
                 QueueDispatches(m, PushEnv(), rounds - 1, QueueStep(m, PushEnv(), c)), e);
  }

  lemma EventDispatchesEntry<C(!new)>(m: Machine, row: Row, entry: Row, rounds: nat, c: Config<C>)
    requires Pushes(m, row, entry) && Resting(m, c, []) && rounds > 0
    ensures Offers(EventDispatches(m, PushEnv(), rounds, Plain(0), c), OnEntry(Plain(0)))
  {
    AfterEvent(m, row, entry, c);
    var c' := ProcessImpl(m, PushEnv(), Plain(0), Plain(0), c).1;
    QueuedIsDispatched(m, rounds, c');
    var queued := QueueDispatches(m, PushEnv(), rounds, c');
    assert DrainDefer(m, PushEnv(), 0, c').c == c';
    OffersConcat([], queued, OnEntry(Plain(0)));
    OffersConcat([], [] + queued, OnEntry(Plain(0)));
    OffersConcat(RegionDispatches(m, PushEnv(), Plain(0), Plain(0), 0, c), [] + ([] + queued), OnEntry(Plain(0)));
  }

  lemma BreaksTheChain<C(!new)>(m: Machine, row: Row, entry: Row, rounds: nat, ctx: C)
    requires Pushes(m, row, entry) && rounds > 0
    ensures !AllChained(m, Run(m, PushEnv(), rounds, [Plain(0)], ctx))
  {
    AfterStart(m, row, entry, ctx);
    var c := AfterEntries(m, PushEnv(), ctx);
    assert DrainQueue(m, PushEnv(), rounds, c).c == c;
    EventDispatchesEntry(m, row, entry, rounds, c);
    var next := ProcessEvent(m, PushEnv(), rounds, Plain(0), c).1;
    OffersConcat(EventDispatches(m, PushEnv(), rounds, Plain(0), c),
                 RunFromDispatches(m, PushEnv(), rounds, [Plain(0)][1..], next), OnEntry(Plain(0)));
    LaterOffers(m, PushEnv(), rounds, [Plain(0)], ctx, OnEntry(Plain(0)));
    OffersExtraordinary(LaterDispatches(m, PushEnv(), rounds, [Plain(0)], ctx), OnEntry(Plain(0)));
    RunIsChainedExactlyWhen(m, PushEnv(), rounds, [Plain(0)], ctx);
  }

  /** Well formed, with both handlers, sent one ordinary event: and yet the run is not chained. */
  lemma PushedEntryBreaksTheChain<C(!new)>(rounds: nat, ctx: C)
    requires rounds > 0
    ensures WellFormed(Pusher()) && Watched(Pusher()) && AllOrdinary([Plain(0)])
    ensures !AllChained(Pusher(), Run(Pusher(), PushEnv(), rounds, [Plain(0)], ctx))
  {
    PusherPushes();
    BreaksTheChain(Pusher(), Table()[0], Table()[1], rounds, ctx);
  }
}

/**
 `sm_impl` as an object: `current_state_` is an array with one id per region, the two queues
 and the context are fields, and every method updates them in place. Each method is proved
 to compute the function of `SmlEngine` of the same step.
 */
module SmlMachine {
  import opened SmlTable
  import opened SmlEngine
  import opened SmlLaws

  class SmImpl<C(!new)> {
    const m: Machine
    const env: Env<C>
    var currentState: array<nat>
    var ctx: C
    var deferQueue: seq<Event>
    var processQueue: seq<Event>
    ghost var deferLog: seq<Event>
    ghost var processLog: seq<Event>
    ghost var traces: seq<seq<Obs>>

    ghost function World(): World<C>
      reads this
    {
      SmlEngine.World.World(ctx, deferQueue, processQueue, deferLog, processLog)
    }

    ghost function View(): Config<C>
      reads this, currentState
    {
      Config(currentState[..], traces, World())
    }

    ghost predicate Good()
      reads this, currentState
    {
      WellFormed(m) && Valid(m, View())
    }

    constructor (m: Machine, env: Env<C>, ctx: C)
      requires WellFormed(m)
      ensures this.m == m && this.env == env && fresh(currentState)
      ensures Good() && View() == InitialConfig(m, ctx)
      ensures currentState.Length == |InitialStates(m.table)| && deferQueue == processQueue == []
      ensures forall r :: 0 <= r < currentState.Length ==>
                currentState[r] < |States(m.table)| && States(m.table)[currentState[r]] == InitialStates(m.table)[r]
    {
      this.m, this.env, this.ctx := m, env, ctx;
      currentState := new nat[|InitialStates(m.table)|];
      deferQueue, processQueue, deferLog, processLog := [], [], [], [];
      traces := seq(|InitialStates(m.table)|, _ => []);
      new;
      Initialize();
      assert View() == InitialConfig(m, ctx);
    }

    /** `initialize`: each region starts in its initial state. */
    method Initialize()
      requires WellFormed(m) && currentState.Length == |InitialStates(m.table)|
      modifies currentState
      ensures currentState[..] == InitialConfig(m, ctx).regions
      ensures forall r :: 0 <= r < currentState.Length ==>
                currentState[r] < |States(m.table)| && States(m.table)[currentState[r]] == InitialStates(m.table)[r]
    {
      InitialIdsValid(m);
      var initial := InitialStates(m.table);
      for region := 0 to currentState.Length
        invariant forall i :: 0 <= i < region ==> currentState[i] == StateId(m.table, initial[i])
      {
        currentState[region] := StateId(m.table, initial[region]);
      }
    }

    /** Runs an action: it replaces the context and may push to both queues. */
    method Act(row: Row, e: Event)
      modifies this`ctx, this`deferQueue, this`processQueue, this`deferLog, this`processLog
      ensures World() == ActionWorld(env, row, e, old(World()))
    {
      if row.action.Do? {
        var f := env.action(row.action.id, e, ctx);
        ctx, deferQueue, processQueue := f.ctx, deferQueue + f.deferred, processQueue + f.queued;
        deferLog, processLog := deferLog + f.deferred, processLog + f.queued;
      }
    }

    /** Offers an event to nested machine `k`. */
    method ProcessSub(k: nat, e: Event) returns (handled: bool, ghost obs: seq<Obs>)
      modifies this`ctx
      ensures World() == SubWorld(env, k, e, old(World())) && handled == env.subProcess(k, e, old(ctx)).0
      ensures obs == OfferObs(env, k, e, old(World()))
    {
      obs := OfferObs(env, k, e, World());
      var r := env.subProcess(k, e, ctx);
      handled, ctx := r.0, r.1;
    }

    /** The first handler row whose guard holds runs its action. */
    method RunHandlerRows(rows: seq<Row>, h: Event) returns (ghost obs: seq<Obs>)
      modifies this`ctx, this`deferQueue, this`processQueue, this`deferLog, this`processLog
      ensures (World(), obs) == RunHandlers(env, rows, h, old(World()))
      decreases |rows|
    {
      obs := [];
      if rows != [] {
        ghost var o := GuardObs(env, rows[0], h, World());
        if rows[0].guard.Always? || env.guard(rows[0].guard.id, h, ctx) {
          Act(rows[0], h);
          obs := o + ActionObs(rows[0], h);
        } else {
          ghost var rest := RunHandlerRows(rows[1..], h);
          obs := o + rest;
        }
      }
    }

    /** `process_internal_event` of an entry or exit event at one region. */
    method ProcessInternalEvent(h: Event, region: nat) returns (ghost obs: seq<Obs>)
      requires Good() && region < currentState.Length
      modifies this`ctx, this`deferQueue, this`processQueue, this`deferLog, this`processLog
      ensures (World(), obs) == HandlerIf(m, env, h, currentState[region], old(World()))
    {
      obs := [];
      var key := HandlerKey(m, h);
      if m.HasEntryExits() && m.Enabled(key) {
        var s := States(m.table)[currentState[region]];
        ghost var log := [if h.OnEntry? then Entered(s) else Exited(s)];
        ghost var more := [];
        match m.Find(key, s) {
        case Unmapped =>
          if s.Sub? {
            var _, offer := ProcessSub(s.k, h);
            more := offer;
          }
          assert log + [] == log;
        case Found(rows) =>
          if !s.Sub? {
            more := RunHandlerRows(rows, h);
          } else if h.OnEntry? {
            more := RunHandlerRows(rows, h);
            var _, offer := ProcessSub(s.k, h);
            more := more + offer;
          } else {
            var handled, offer := ProcessSub(s.k, h);
            more := offer;
            if !handled {
              ghost var ran := RunHandlerRows(rows, h);
              more := more + ran;
            }
          }
        }
        obs := log + more;
      }
    }

    /** `update_current_state`, and `update_composite_states` for a nested machine. */
    method UpdateCurrentState(region: nat, dst: State)
      requires region < currentState.Length
      modifies this`ctx, currentState
      ensures currentState[..] == old(currentState[..])[region := StateId(m.table, dst)]
      ensures World() == EnterWorld(env, dst, old(World()))
    {
      currentState[region] := StateId(m.table, dst);
      if dst.Sub? {
        ctx := env.subEnter(dst.k, ctx);
      }
    }

    /** What a step on one region must have done. */
    ghost predicate Did(region: nat, before: seq<nat>, out: Out<C>, handled: bool, obs: seq<Obs>)
      requires region < |before|
      reads this, currentState
    {
      currentState[..] == before[region := out.cur] && World() == out.w && handled == out.handled && obs == out.obs
    }

    /** What `transition::execute` does once the guard holds: exit, new state, action, entry. */
    method FireTransition(region: nat, row: Row, e: Event) returns (ghost obs: seq<Obs>)
      requires Good() && region < currentState.Length && row in m.table
      modifies this`ctx, this`deferQueue, this`processQueue, this`deferLog, this`processLog, currentState
      ensures Good()
      ensures var out := Fire(m, env, row, e, old(currentState[region]), old(World()));
              Did(region, old(currentState[..]), out, out.handled, obs)
    {
      if row.dst == Internal {
        Act(row, e);
        obs := ActionObs(row, e);
      } else {
        TargetIsState(m, row);
        ghost var o1 := ProcessInternalEvent(OnExit(e), region);
        UpdateCurrentState(region, row.dst);
        Act(row, e);
        ghost var o4 := ProcessInternalEvent(OnEntry(e), region);
        obs := o1 + [Changed(row.src, row.dst)] + ActionObs(row, e) + o4;
      }
    }

    /** `transition::execute`: the guard, then the transition. */
    method ExecuteTransition(region: nat, row: Row, e: Event) returns (fired: bool, ghost obs: seq<Obs>)
      requires Good() && region < currentState.Length && row in m.table
      modifies this`ctx, this`deferQueue, this`processQueue, this`deferLog, this`processLog, currentState
      ensures Good()
      ensures Did(region, old(currentState[..]),
                  ExecuteRow(m, env, row, e, old(currentState[region]), old(World())), fired, obs)
    {
      obs := GuardObs(env, row, e, World());
      if !(row.guard.Always? || env.guard(row.guard.id, e, ctx)) {
        return false, obs;
      }
      ghost var o := FireTransition(region, row, e);
      return true, obs + o;
    }

    /** `transitions::execute`: the rows in order until one fires. */
    method ExecuteTransitions(region: nat, rows: seq<Row>, e: Event) returns (handled: bool, ghost obs: seq<Obs>)
      requires Good() && region < currentState.Length && rows != [] && forall row :: row in rows ==> row in m.table
      modifies this`ctx, this`deferQueue, this`processQueue, this`deferLog, this`processLog, currentState
      ensures Good()
      ensures Did(region, old(currentState[..]),
                  ExecuteRows(m, env, rows, e, old(currentState[region]), old(World())), handled, obs)
      decreases |rows|
    {
      handled, obs := ExecuteTransition(region, rows[0], e);
      if |rows| == 1 {
        if e.OnExit? {
          handled := false;
        }
      } else if !handled {
        ghost var rest;
        handled, rest := ExecuteTransitions(region, rows[1..], e);
        obs := obs + rest;
      }
    }

    /** The unmapped case: the event is offered as an unexpected event, and reported unhandled. */
    method ProcessUnexpected(region: nat, e: Event) returns (handled: bool, ghost obs: seq<Obs>)
      requires Good() && region < currentState.Length
      modifies this`ctx, this`deferQueue, this`processQueue, this`deferLog, this`processLog, currentState
      ensures Good()
      ensures Did(region, old(currentState[..]),
                  UnexpectedStep(m, env, e, old(currentState[region]), old(World())), handled, obs)
    {
      handled, obs := false, [];
      var s := States(m.table)[currentState[region]];
      FoundRows(m, Unexpected(e), s);
      if m.HasUnexpected() && m.Enabled(Unexpected(e)) && m.Find(Unexpected(e), s).Found? {
        var _, o := ExecuteTransitions(region, m.Find(Unexpected(e), s).rows, Unexpected(e));
        obs := o;
      }
    }

    /** The mapping of the region's current state is looked up and executed. */
    method Dispatch(region: nat, key: Event, e: Event) returns (handled: bool, ghost obs: seq<Obs>)
      requires Good() && region < currentState.Length
      modifies this`ctx, this`deferQueue, this`processQueue, this`deferLog, this`processLog, currentState
      ensures Good()
      ensures Did(region, old(currentState[..]),
                  Step(m, env, key, e, old(currentState[region]), old(World())), handled, obs)
    {
      var s := States(m.table)[currentState[region]];
      FoundRows(m, key, s);
      obs := [];
      match m.Find(key, s)
      case Unmapped =>
        if s.Sub? {
          handled, obs := ProcessSub(s.k, e);
          handled := true;
        } else {
          handled, obs := ProcessUnexpected(region, e);
        }
      case Found(rows) =>
        if !s.Sub? {
          handled, obs := ExecuteTransitions(region, rows, e);
        } else if e == Anonymous && !env.subTerminated(s.k, ctx) {
          handled := false;
        } else if e.OnEntry? {
          handled, obs := ExecuteTransitions(region, rows, e);
          var _, offer := ProcessSub(s.k, e);
          handled, obs := true, obs + offer;
        } else {
          handled, obs := ProcessSub(s.k, e);
          if !handled {
            ghost var ran;
            handled, ran := ExecuteTransitions(region, rows, e);
            obs := obs + ran;
          }
        }
    }

    method DispatchTraced(region: nat, key: Event, e: Event) returns (handled: bool)
      requires Good() && region < currentState.Length
      modifies this, currentState
      ensures Good() && currentState == old(currentState)
      ensures (handled, View()) == StepRegion(m, env, key, e, region, old(View()))
    {
      ghost var s := States(m.table)[currentState[region]];
      ghost var obs;
      handled, obs := Dispatch(region, key, e);
      traces := traces[region := traces[region] + (Announced(e, s) + obs)];
    }

    /** `process_event_impl`: the event is dispatched to every region in turn. */
    method ProcessEventImpl(key: Event, e: Event) returns (handled: bool)
      requires Good()
      modifies this, currentState
      ensures Good() && currentState == old(currentState)
      ensures (handled, View()) == ProcessImpl(m, env, key, e, old(View()))
    {
      handled := false;
      var region := 0;
      ghost var c := View();
      while region < currentState.Length
        invariant region <= currentState.Length && Good() && c == View() && currentState == old(currentState)
        invariant StepRegions(m, env, key, e, region, handled, c) == ProcessImpl(m, env, key, e, old(View()))
      {
        StepRegionsUnfold(m, env, key, e, region, handled, c);
        c := StepRegion(m, env, key, e, region, c).1;
        var h := DispatchTraced(region, key, e);
        handled := h || (m.anyRegion && handled);
        region := region + 1;
      }
    }

    method ProcessInternalEvents(e: Event)
      requires Good()
      modifies this, currentState
      ensures Good() && currentState == old(currentState)
      ensures View() == ProcessInternal(m, env, e, old(View()))
    {
      var key := HandlerKey(m, e);
      if m.Enabled(key) {
        var _ := ProcessEventImpl(key, e);
      }
    }

    /** `process_event_no_defer`: the front event is removed if some handler took it. */
    method ProcessEventNoDefer() returns (handled: bool)
      requires Good() && deferQueue != []
      modifies this, currentState
      ensures Good() && currentState == old(currentState)
      ensures (handled, View()) == DeferStep(m, env, old(View()))
    {
      var e := deferQueue[0];
      ImplOnlyPushes(m, env, e, e, View());
      handled := ProcessEventImpl(e, e);
      if handled {
        deferQueue := deferQueue[1..];
      }
    }

    /** `process_defer_events`: `size` is fixed before the loop; the loop ends at the first event nobody takes. */
    method ProcessDeferEvents()
      requires Good()
      modifies this, currentState
      ensures Good() && currentState == old(currentState)
      ensures View() == DrainDefer(m, env, |old(deferQueue)|, old(View())).c
    {
      var size := |deferQueue|;
      ghost var end := DrainDefer(m, env, size, View()).c;
      while size > 0
        invariant 0 <= size <= |deferQueue| && Good() && currentState == old(currentState)
        invariant DrainDefer(m, env, size, View()).c == end
      {
        var handled := ProcessEventNoDefer();
        if !handled {
          return;
        }
        size := size - 1;
      }
    }

    /** `process_event_no_queue` and the removal of the front event. */
    method ProcessEventNoQueue()
      requires Good() && processQueue != []
      modifies this, currentState
      ensures Good() && currentState == old(currentState)
      ensures View() == QueueStep(m, env, old(View()))
    {
      var e := processQueue[0];
      ImplOnlyPushes(m, env, e, e, View());
      var _ := ProcessEventImpl(e, e);
      processQueue := processQueue[1..];
    }

    /** `process_queued_events`, for at most `rounds` iterations; `empty` says that the loop ended by itself. */
    method ProcessQueuedEvents(rounds: nat) returns (empty: bool)
      requires Good()
      modifies this, currentState
      ensures Good() && currentState == old(currentState)
      ensures View() == DrainQueue(m, env, rounds, old(View())).c
      ensures empty <==> processQueue == []
    {
      var left := rounds;
      ghost var end := DrainQueue(m, env, rounds, View()).c;
      while left > 0 && processQueue != []
        invariant 0 <= left <= rounds && Good() && currentState == old(currentState)
        invariant DrainQueue(m, env, left, View()).c == end
      {
        ProcessEventNoQueue();
        left := left - 1;
      }
      empty := processQueue == [];
    }

    /** `process_event`; if the queue runs empty within the rounds, the result is that of the unbounded loop. */
    method ProcessEvent(rounds: nat, e: Event) returns (handled: bool)
      requires Good()
      modifies this, currentState
      ensures Good() && currentState == old(currentState)
      ensures (handled, View()) == SmlEngine.ProcessEvent(m, env, rounds, e, old(View()))
      ensures processQueue == [] ==> forall more: nat :: more >= rounds ==>
                (handled, View()) == SmlEngine.ProcessEvent(m, env, more, e, old(View()))
    {
      ghost var c := View();
      handled := ProcessEventImpl(GenericKey(e), e);
      ProcessInternalEvents(Anonymous);
      if handled {
        ProcessDeferEvents();
      }
      var empty := ProcessQueuedEvents(rounds);
      if empty {
        forall more: nat | more >= rounds
          ensures SmlEngine.ProcessEvent(m, env, more, e, c) == SmlEngine.ProcessEvent(m, env, rounds, e, c)
        {
          CompletedEvent(m, env, rounds, more, e, c);
        }
      }
    }

    method Start(rounds: nat)
      requires Good()
      modifies this, currentState
      ensures Good() && currentState == old(currentState)
      ensures View() == SmlEngine.Start(m, env, rounds, old(View()))
      ensures processQueue == [] ==> forall more: nat :: more >= rounds ==>
                View() == SmlEngine.Start(m, env, more, old(View()))
    {
      ghost var c := View();
      ProcessInternalEvents(OnEntry(Initial));
      ProcessInternalEvents(Anonymous);
      var empty := ProcessQueuedEvents(rounds);
      if empty {
        forall more: nat | more >= rounds
          ensures SmlEngine.Start(m, env, more, c) == SmlEngine.Start(m, env, rounds, c)
        {
          CompletedStart(m, env, rounds, more, c);
        }
      }
    }
  }
}

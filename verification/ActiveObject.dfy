/**
 The active object: one worker thread loops over a thread-safe queue of callbacks; any thread
 may send; the destructor sends a last callback that sets `done_` and joins the worker. The
 callbacks here are those of the background saver, which append a value to a vector.
 */
module ActiveObject {
  import Q = ThreadsafeQueue

  datatype Callback<T> = Store(v: T) | DoDone

  /** The worker tests `done_`, waits and pops, runs the callback, and starts over. */
  datatype Worker<T> = AtLoop | InPop | Running(cb: Callback<T>) | Exited

  datatype Owner = Alive | Joining | Joined

  datatype State<T> = State(q: Q.State<Callback<T>>, worker: Worker<T>, done: bool,
                            received: seq<T>, executed: seq<Callback<T>>, owner: Owner)

  datatype Step<T> =
    | Send(v: T, wake: Q.Option<nat>)
    | Destroy(wake: Q.Option<nat>)
    | Test
    | Take
    | Execute
    | SpuriousWake
    | Join

  function Init<T>(): State<T> {
    State(Q.Init(1), AtLoop, false, [], [], Alive)
  }

  /** The step of the queue that a step of the object contains. */
  function QueueStep<T>(step: Step<T>): Q.Step<Callback<T>> {
    match step
    case Send(v, wake) => Q.Push(Store(v), wake)
    case Destroy(wake) => Q.Push(DoDone, wake)
    case Test => Q.Call(0)
    case SpuriousWake => Q.SpuriousWake(0)
    case _ => Q.Lock(0)
  }

  ghost predicate Enabled<T>(s: State<T>, step: Step<T>) {
    match step
    case Send(_, _) => s.owner != Joined && Q.Enabled(s.q, QueueStep(step))
    case Destroy(_) => s.owner == Alive && Q.Enabled(s.q, QueueStep(step))
    case Test => s.worker == AtLoop && (s.done || Q.Enabled(s.q, QueueStep(step)))
    case Take => s.worker == InPop && Q.Enabled(s.q, QueueStep(step))
    case Execute => s.worker.Running?
    case SpuriousWake => s.worker == InPop && Q.Enabled(s.q, QueueStep(step))
    case Join => s.owner == Joining && s.worker == Exited
  }

  predicate WorkerStep<T>(step: Step<T>) {
    step.Test? || step.Take? || step.Execute? || step.SpuriousWake?
  }

  function Apply<T>(s: State<T>, step: Step<T>): State<T> {
    match step
    case Send(_, _) => s.(q := Q.Apply(s.q, QueueStep(step)))
    case Destroy(_) => s.(q := Q.Apply(s.q, QueueStep(step)), owner := Joining)
    case Test =>
      if s.done then s.(worker := Exited) else s.(q := Q.Apply(s.q, QueueStep(step)), worker := InPop)
    case Take =>
      var q' := Q.Apply(s.q, QueueStep(step));
      if s.q.queue == [] then s.(q := q') else s.(q := q', worker := Running(s.q.queue[0]))
    case Execute =>
      if !s.worker.Running? then s
      else
        var s' := s.(executed := s.executed + [s.worker.cb], worker := AtLoop);
        if s.worker.cb.Store? then s'.(received := s.received + [s.worker.cb.v]) else s'.(done := true)
    case SpuriousWake => s.(q := Q.Apply(s.q, QueueStep(step)))
    case Join => s.(owner := Joined)
  }

  // ----- the invariant -----

  function Values<T>(cbs: seq<Callback<T>>): seq<T> {
    if cbs == [] then []
    else
      var last := cbs[|cbs| - 1];
      Values(cbs[..|cbs| - 1]) + (if last.Store? then [last.v] else [])
  }

  lemma ValuesExtend<T>(cbs: seq<Callback<T>>, cb: Callback<T>)
    ensures Values(cbs + [cb]) == Values(cbs) + (if cb.Store? then [cb.v] else [])
  {
    assert (cbs + [cb])[..|cbs + [cb]| - 1] == cbs;
  }

  ghost predicate NoDone<T>(cbs: seq<Callback<T>>) {
    forall i :: 0 <= i < |cbs| ==> cbs[i].Store?
  }

  /** `p` is the position of the only done message. */
  ghost predicate DoneAt<T>(cbs: seq<Callback<T>>, p: nat) {
    p < |cbs| && cbs[p].DoDone? && forall i :: 0 <= i < |cbs| && i != p ==> cbs[i].Store?
  }

  function InHand<T>(s: State<T>): seq<Callback<T>> {
    if s.worker.Running? then [s.worker.cb] else []
  }

  ghost predicate Inv<T>(s: State<T>) {
    && Q.Inv(s.q) && |s.q.consumers| == 1
    && s.executed + InHand(s) == s.q.popped
    && s.received == Values(s.executed)
    && (s.owner == Alive ==> NoDone(s.q.pushed))
    && (s.owner != Alive ==> exists p :: DoneAt(s.q.pushed, p))
    && (s.done <==> !NoDone(s.executed))
    && (s.done ==> NoDone(s.executed[..|s.executed| - 1]) && (s.worker == AtLoop || s.worker == Exited))
    && (s.worker == Exited ==> s.done)
    && (s.owner == Joined ==> s.worker == Exited)
    && (s.worker == InPop <==> s.q.consumers[0] != Q.Outside)
  }

  lemma InitInv<T>()
    ensures Inv<T>(Init())
  {
    Q.InitInv<Callback<T>>(1);
  }

  lemma SendInv<T>(s: State<T>, step: Step<T>)
    requires Inv(s) && Enabled(s, step) && (step.Send? || step.Destroy?)
    ensures Inv(Apply(s, step))
  {
    Q.StepInv(s.q, QueueStep(step));
    if step.Destroy? {
      DoneAppended(s.q.pushed);
    } else {
      StoreAppended(s.q.pushed, step.v);
    }
  }

  lemma DoneAppended<T>(cbs: seq<Callback<T>>)
    requires NoDone(cbs)
    ensures DoneAt(cbs + [DoDone], |cbs|)
  {
  }

  lemma StoreAppended<T>(cbs: seq<Callback<T>>, v: T)
    ensures NoDone(cbs) ==> NoDone(cbs + [Store(v)])
    ensures (exists p :: DoneAt(cbs, p)) ==> exists p :: DoneAt(cbs + [Store(v)], p)
  {
    if p :| DoneAt(cbs, p) {
      assert DoneAt(cbs + [Store(v)], p);
    }
  }

  lemma TakeInv<T>(s: State<T>)
    requires Inv(s) && Enabled(s, Take)
    ensures Inv(Apply(s, Take))
  {
    Q.StepInv(s.q, Q.Lock(0));
    assert s.executed + [] == s.executed;
  }

  lemma ExecuteInv<T>(s: State<T>)
    requires Inv(s) && Enabled(s, Execute)
    ensures Inv(Apply(s, Execute))
  {
    ValuesExtend(s.executed, s.worker.cb);
    var s' := Apply(s, Execute);
    assert s'.executed + [] == s.executed + InHand(s);
    assert s'.executed[..|s'.executed| - 1] == s.executed;
    assert s'.executed[|s.executed|] == s.worker.cb;
    if s.worker.cb.DoDone? {
      assert !NoDone(s'.executed);
    }
  }

  lemma StepInv<T>(s: State<T>, step: Step<T>)
    requires Inv(s) && Enabled(s, step)
    ensures Inv(Apply(s, step))
  {
    match step
    case Send(_, _) => SendInv(s, step);
    case Destroy(_) => SendInv(s, step);
    case Test => if !s.done { Q.StepInv(s.q, Q.Call(0)); }
    case Take => TakeInv(s);
    case Execute => ExecuteInv(s);
    case SpuriousWake => Q.StepInv(s.q, Q.SpuriousWake(0));
    case Join =>
  }

  ghost predicate ValidRun<T>(s: State<T>, steps: seq<Step<T>>)
    decreases |steps|
  {
    steps == [] || (Enabled(s, steps[0]) && ValidRun(Apply(s, steps[0]), steps[1..]))
  }

  function Exec<T>(s: State<T>, steps: seq<Step<T>>): State<T>
    decreases |steps|
  {
    if steps == [] then s else Exec(Apply(s, steps[0]), steps[1..])
  }

  lemma {:induction false} RunInv<T>(s: State<T>, steps: seq<Step<T>>)
    requires Inv(s) && ValidRun(s, steps)
    ensures Inv(Exec(s, steps))
    decreases |steps|
  {
    if steps != [] {
      StepInv(s, steps[0]);
      RunInv(Apply(s, steps[0]), steps[1..]);
    }
  }

  // ----- what every run guarantees -----

  /** In every interleaving the callbacks executed are a prefix of those pushed, and their effects are in that order. */
  lemma ExecutedIsPrefix<T>(steps: seq<Step<T>>)
    requires ValidRun(Init(), steps)
    ensures var s := Exec(Init(), steps);
            s.executed <= s.q.pushed && s.received == Values(s.executed)
  {
    InitInv<T>();
    RunInv(Init(), steps);
    var s := Exec(Init(), steps);
    assert s.q.pushed == s.executed + (InHand(s) + s.q.queue);
  }

  /**
   Once the destructor has joined, exactly the callbacks up to the done message have run, each
   once and in push order; if no send followed the done message, that is all of them and the
   queue is empty.
   */
  lemma JoinedRanEverything<T>(steps: seq<Step<T>>, p: nat)
    requires ValidRun(Init(), steps)
    requires var s := Exec(Init(), steps); s.owner == Joined && DoneAt(s.q.pushed, p)
    ensures var s := Exec(Init(), steps);
            && s.executed == s.q.pushed[..p + 1]
            && s.received == Values(s.q.pushed[..p])
            && (p + 1 == |s.q.pushed| ==> s.executed == s.q.pushed && s.q.queue == [])
  {
    InitInv<T>();
    RunInv(Init(), steps);
    var s := Exec(Init(), steps);
    JoinedExecuted(s, p);
    ValuesExtend(s.q.pushed[..p], DoDone);
    assert s.q.pushed[..p + 1] == s.q.pushed[..p] + [DoDone];
  }

  lemma JoinedExecuted<T>(s: State<T>, p: nat)
    requires Inv(s) && s.owner == Joined && DoneAt(s.q.pushed, p)
    ensures s.executed == s.q.pushed[..p + 1] && s.q.pushed == s.executed + s.q.queue
  {
    DonePending(s, p);
    assert s.executed + InHand(s) == s.executed;
    assert s.q.pushed[..|s.executed|] == s.executed;
  }

  // ----- termination of the join -----

  /** Worker steps still to come: three per callback up to the done message, whose position fixes the bound. */
  function Remaining<T>(s: State<T>, p: nat): int {
    3 * (p + 1 - |s.executed|) +
    match s.worker
    case AtLoop => 2
    case InPop => 1
    case Running(_) => 0
    case Exited => 0
  }

  lemma DonePending<T>(s: State<T>, p: nat)
    requires Inv(s) && DoneAt(s.q.pushed, p)
    ensures |s.executed| <= p + 1 && (s.done <==> |s.executed| == p + 1)
    ensures !s.done && !s.worker.Running? ==> s.q.queue != []
  {
    var n := |s.executed|;
    assert s.q.pushed == s.executed + (InHand(s) + s.q.queue);
    assert |s.q.pushed| == n + |InHand(s)| + |s.q.queue|;
    assert forall i :: 0 <= i < n ==> s.executed[i] == s.q.pushed[i];
    if s.done {
      assert s.executed == s.executed[..n - 1] + [s.executed[n - 1]];
    }
  }

  /** Until the worker has exited one of its steps is enabled, and it never goes back to sleep. */
  lemma WorkerProgress<T>(s: State<T>, p: nat)
    requires Inv(s) && DoneAt(s.q.pushed, p) && s.worker != Exited
    ensures Enabled(s, if s.worker == AtLoop then Test else if s.worker == InPop then Take else Execute)
    ensures !Enabled(s, SpuriousWake)
  {
    DonePending(s, p);
    if s.worker == InPop && s.q.consumers[0] == Q.Sleeping {
      assert Q.SomeSleeps(s.q);
      var i := Q.CountWitness(s.q.consumers);
    }
  }

  /** Every worker step uses up the bound; steps of other threads leave it alone. */
  lemma RemainingDecreases<T>(s: State<T>, p: nat, step: Step<T>)
    requires Inv(s) && DoneAt(s.q.pushed, p) && Enabled(s, step)
    ensures DoneAt(Apply(s, step).q.pushed, p)
    ensures 0 <= Remaining(Apply(s, step), p)
    ensures if WorkerStep(step) then Remaining(Apply(s, step), p) < Remaining(s, p)
            else Remaining(Apply(s, step), p) == Remaining(s, p)
  {
    DonePending(s, p);
    StepInv(s, step);
    if s.worker != Exited {
      WorkerProgress(s, p);
    }
    var s' := Apply(s, step);
    assert s.q.pushed <= s'.q.pushed;
    assert DoneAt(s'.q.pushed, p);
    DonePending(s', p);
  }

  function WorkerSteps<T>(steps: seq<Step<T>>): nat {
    if steps == [] then 0 else (if WorkerStep(steps[0]) then 1 else 0) + WorkerSteps(steps[1..])
  }

  /** From the moment the done message is pushed, the worker takes at most `Remaining` further steps, in any run. */
  lemma {:induction false} WorkerTerminates<T>(s: State<T>, p: nat, steps: seq<Step<T>>)
    requires Inv(s) && DoneAt(s.q.pushed, p) && ValidRun(s, steps)
    ensures WorkerSteps(steps) <= Remaining(s, p)
    decreases |steps|
  {
    DonePending(s, p);
    if steps != [] {
      StepInv(s, steps[0]);
      RemainingDecreases(s, p, steps[0]);
      WorkerTerminates(Apply(s, steps[0]), p, steps[1..]);
    }
  }
}

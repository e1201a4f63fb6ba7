/**
 The thread-safe queue, as a protocol over all interleavings. Everything under the mutex is
 one step; waiting on the condition variable releases it, and a waiter may also wake without
 being notified. Any number of producers push; consumers are numbered.
 */
module ThreadsafeQueue {

  /** Where a consumer is in `wait_and_pop`. `Notified` and `Woken` have yet to re-take the lock. */
  datatype Phase = Outside | Entering | Sleeping | Notified | Woken

  datatype Option<T> = None | Some(value: T)

  datatype State<T> = State(queue: seq<T>, consumers: seq<Phase>, pushed: seq<T>, popped: seq<T>)

  /** `Push` names the waiter that `notify_one` picks, if there is one. */
  datatype Step<T> =
    | Push(v: T, wake: Option<nat>)
    | TryPop(c: nat)
    | Call(c: nat)
    | Lock(c: nat)
    | SpuriousWake(c: nat)

  function Init<T>(consumers: nat): State<T> {
    State([], seq(consumers, _ => Outside), [], [])
  }

  ghost predicate SomeSleeps<T>(s: State<T>) {
    exists i :: 0 <= i < |s.consumers| && s.consumers[i] == Sleeping
  }

  ghost predicate Enabled<T>(s: State<T>, step: Step<T>) {
    match step
    case Push(_, None) => !SomeSleeps(s)
    case Push(_, Some(i)) => i < |s.consumers| && s.consumers[i] == Sleeping
    case TryPop(c) => c < |s.consumers| && s.consumers[c] == Outside
    case Call(c) => c < |s.consumers| && s.consumers[c] == Outside
    case Lock(c) =>
      c < |s.consumers| && (s.consumers[c] == Entering || s.consumers[c] == Notified || s.consumers[c] == Woken)
    case SpuriousWake(c) => c < |s.consumers| && s.consumers[c] == Sleeping
  }

  function SetPhase<T>(s: State<T>, c: nat, p: Phase): State<T> {
    if c < |s.consumers| then s.(consumers := s.consumers[c := p]) else s
  }

  function PopFront<T>(s: State<T>): State<T>
    requires s.queue != []
  {
    s.(queue := s.queue[1..], popped := s.popped + [s.queue[0]])
  }

  /** With the lock held, the predicate of `wait` decides between popping and sleeping. */
  function Apply<T>(s: State<T>, step: Step<T>): State<T> {
    match step
    case Push(v, wake) =>
      var s' := s.(queue := s.queue + [v], pushed := s.pushed + [v]);
      if wake.Some? then SetPhase(s', wake.value, Notified) else s'
    case TryPop(_) => if s.queue == [] then s else PopFront(s)
    case Call(c) => SetPhase(s, c, Entering)
    case Lock(c) => if s.queue == [] then SetPhase(s, c, Sleeping) else SetPhase(PopFront(s), c, Outside)
    case SpuriousWake(c) => SetPhase(s, c, Woken)
  }

  function CountNotified(cs: seq<Phase>): nat {
    if cs == [] then 0 else (if cs[0] == Notified then 1 else 0) + CountNotified(cs[1..])
  }

  lemma {:induction false} CountUpdate(cs: seq<Phase>, i: nat, p: Phase)
    requires i < |cs|
    ensures CountNotified(cs[i := p])
         == CountNotified(cs) - (if cs[i] == Notified then 1 else 0) + (if p == Notified then 1 else 0)
  {
    if i > 0 {
      CountUpdate(cs[1..], i - 1, p);
      assert cs[i := p][1..] == cs[1..][i - 1 := p];
    } else {
      assert cs[i := p][1..] == cs[1..];
    }
  }

  lemma {:induction false} CountWitness(cs: seq<Phase>) returns (i: nat)
    requires CountNotified(cs) > 0
    ensures i < |cs| && cs[i] == Notified
  {
    if cs[0] == Notified {
      i := 0;
    } else {
      i := CountWitness(cs[1..]);
      i := i + 1;
    }
  }

  /** First-in first-out with nothing lost, and enough notifications under way for the queued items. */
  ghost predicate Inv<T>(s: State<T>) {
    && s.popped + s.queue == s.pushed
    && (SomeSleeps(s) ==> CountNotified(s.consumers) >= |s.queue|)
  }

  lemma {:induction false} InitInv<T>(consumers: nat)
    ensures Inv<T>(Init(consumers)) && CountNotified(Init<T>(consumers).consumers) == 0
  {
    NoneNotified(Init<T>(consumers).consumers);
  }

  lemma {:induction false} NoneNotified(cs: seq<Phase>)
    requires forall i :: 0 <= i < |cs| ==> cs[i] != Notified
    ensures CountNotified(cs) == 0
  {
    if cs != [] {
      NoneNotified(cs[1..]);
    }
  }

  lemma StepInv<T>(s: State<T>, step: Step<T>)
    requires Inv(s) && Enabled(s, step)
    ensures Inv(Apply(s, step))
  {
    var s' := Apply(s, step);
    match step
    case Push(v, wake) =>
      if wake.Some? {
        CountUpdate(s.consumers, wake.value, Notified);
      }
      assert s.popped + (s.queue + [v]) == (s.popped + s.queue) + [v];
    case TryPop(c) =>
    case Call(c) =>
      CountUpdate(s.consumers, c, Entering);
      SleepersKept(s, c, Entering);
    case Lock(c) =>
      CountUpdate(s.consumers, c, if s.queue == [] then Sleeping else Outside);
      if s.queue != [] {
        SleepersKept(s, c, Outside);
      }
    case SpuriousWake(c) =>
      CountUpdate(s.consumers, c, Woken);
  }

  lemma SleepersKept<T>(s: State<T>, c: nat, p: Phase)
    requires c < |s.consumers| && p != Sleeping
    ensures SomeSleeps(SetPhase(s, c, p)) ==> SomeSleeps(s)
  {
  }

  ghost predicate ValidRun<T>(s: State<T>, steps: seq<Step<T>>)
    decreases |steps|
  {
    steps == [] || (Enabled(s, steps[0]) && ValidRun(Apply(s, steps[0]), steps[1..]))
  }

  function Exec<T>(s: State<T>, steps: seq<Step<T>>): State<T>
    decreases |steps|
  {
    if steps == [] then s else Exec(Apply(s, steps[0]), steps[1..])
  }

  lemma {:induction false} RunInv<T>(s: State<T>, steps: seq<Step<T>>)
    requires Inv(s) && ValidRun(s, steps)
    ensures Inv(Exec(s, steps))
    decreases |steps|
  {
    if steps != [] {
      StepInv(s, steps[0]);
      RunInv(Apply(s, steps[0]), steps[1..]);
    }
  }

  /**
   No wakeup is lost in any run: while a consumer sleeps un-notified, at least as many
   consumers are notified and on their way to the lock as there are items; the items popped
   so far, followed by the queue, are exactly the items pushed.
   */
  lemma NoWakeupIsLost<T>(consumers: nat, steps: seq<Step<T>>)
    requires ValidRun(Init(consumers), steps)
    ensures var s := Exec(Init(consumers), steps);
            && s.popped + s.queue == s.pushed
            && (SomeSleeps(s) ==> CountNotified(s.consumers) >= |s.queue|)
  {
    InitInv<T>(consumers);
    RunInv(Init(consumers), steps);
  }

  /** Hence a waiting consumer and a queued item never wait for each other: someone can take the lock and pop. */
  lemma SomeoneCanPop<T>(s: State<T>, c: nat) returns (d: nat)
    requires Inv(s) && s.queue != [] && c < |s.consumers| && s.consumers[c] != Outside
    ensures Enabled(s, Lock(d)) && Apply(s, Lock(d)).popped == s.popped + [s.queue[0]]
  {
    d := c;
    if s.consumers[c] == Sleeping {
      d := CountWitness(s.consumers);
    }
  }

  // ----- what the consumers are given -----

  function PushedBy<T>(step: Step<T>): seq<T> {
    if step.Push? then [step.v] else []
  }

  /** What the step's call returns: a pop that finds a value returns the front. */
  function ReturnedBy<T>(s: State<T>, step: Step<T>): seq<T> {
    if (step.TryPop? || step.Lock?) && s.queue != [] then [s.queue[0]] else []
  }

  /** The values pushed, in order. */
  function Pushes<T>(steps: seq<Step<T>>): seq<T> {
    if steps == [] then [] else PushedBy(steps[0]) + Pushes(steps[1..])
  }

  /** The values returned, in order. */
  function Returned<T>(s: State<T>, steps: seq<Step<T>>): seq<T>
    decreases |steps|
  {
    if steps == [] then [] else ReturnedBy(s, steps[0]) + Returned(Apply(s, steps[0]), steps[1..])
  }

  /** The value returned leaves the front of the queue, the value pushed joins its back. */
  lemma StepMovesQueue<T>(s: State<T>, step: Step<T>)
    ensures s.queue + PushedBy(step) == ReturnedBy(s, step) + Apply(s, step).queue
    ensures Apply(s, step).popped == s.popped + ReturnedBy(s, step)
    ensures Apply(s, step).pushed == s.pushed + PushedBy(step)
  {
  }

  lemma Regroup<T>(a: seq<T>, b: seq<T>, c: seq<T>)
    ensures (a + b) + c == a + (b + c)
  {
  }

  lemma {:induction false} QueueDelivers<T>(s: State<T>, steps: seq<Step<T>>)
    ensures Returned(s, steps) + Exec(s, steps).queue == s.queue + Pushes(steps)
    decreases |steps|
  {
    if steps != [] {
      var next, rest := Apply(s, steps[0]), steps[1..];
      StepMovesQueue(s, steps[0]);
      QueueDelivers(next, rest);
      Regroup(ReturnedBy(s, steps[0]), Returned(next, rest), Exec(next, rest).queue);
      Regroup(ReturnedBy(s, steps[0]), next.queue, Pushes(rest));
      Regroup(s.queue, PushedBy(steps[0]), Pushes(rest));
    }
  }

  /** In every run the values returned, followed by those still queued, are the values pushed, in order. */
  lemma ReturnsWhatWasPushed<T>(consumers: nat, steps: seq<Step<T>>)
    ensures Returned(Init(consumers), steps) + Exec(Init(consumers), steps).queue == Pushes(steps)
  {
    QueueDelivers(Init<T>(consumers), steps);
  }

  // ----- the object -----

  /** The queue with its mutex held; the waiters of the condition variable are in `phases`. */
  class Monitor<T> {
    var queue: seq<T>
    var phases: seq<Phase>
    ghost var pushed: seq<T>
    ghost var popped: seq<T>

    ghost function View(): State<T>
      reads this
    {
      State(queue, phases, pushed, popped)
    }

    constructor (consumers: nat)
      ensures View() == Init(consumers)
    {
      queue, phases, pushed, popped := [], seq(consumers, _ => Outside), [], [];
    }

    /** `notify_one`, given the waiter it picks. */
    method NotifyOne(wake: Option<nat>)
      requires wake.Some? ==> wake.value < |phases| && phases[wake.value] == Sleeping
      modifies this`phases
      ensures phases == if wake.Some? then old(phases)[wake.value := Notified] else old(phases)
    {
      if wake.Some? {
        phases := phases[wake.value := Notified];
      }
    }

    method PushValue(v: T, wake: Option<nat>)
      requires Enabled(View(), Push(v, wake))
      modifies this
      ensures View() == Apply(old(View()), Push(v, wake))
    {
      queue := queue + [v];
      pushed := pushed + [v];
      NotifyOne(wake);
    }

    /** One pass through the body of `wait_and_pop`, from taking the lock to returning or sleeping. */
    method WaitAndPop(c: nat) returns (value: Option<T>)
      requires Enabled(View(), Lock(c))
      modifies this
      ensures View() == Apply(old(View()), Lock(c))
      ensures if old(queue) == [] then value == None && (queue, popped) == old((queue, popped))
              else value.Some? && [value.value] + queue == old(queue) && popped == old(popped) + [value.value]
    {
      if queue == [] {
        phases := phases[c := Sleeping];
        return None;
      }
      value := Some(queue[0]);
      popped := popped + [queue[0]];
      queue := queue[1..];
      phases := phases[c := Outside];
    }

    method TryPopValue(c: nat) returns (value: Option<T>)
      requires Enabled(View(), TryPop(c))
      modifies this
      ensures View() == Apply(old(View()), TryPop(c))
      ensures if old(queue) == [] then value == None && (queue, popped) == old((queue, popped))
              else value.Some? && [value.value] + queue == old(queue) && popped == old(popped) + [value.value]
    {
      if queue == [] {
        return None;
      }
      value := Some(queue[0]);
      popped := popped + [queue[0]];
      queue := queue[1..];
    }
  }
}

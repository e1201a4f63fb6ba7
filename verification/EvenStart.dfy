/**
 The start barrier: every callable runs on its own thread, signals that it is ready, and waits
 for the go signal, which the launching thread gives after waiting for every ready flag.
 */
module EvenStart {

  /** A thread before its launch, before it signals, waiting for go, running its callable, and done. */
  datatype Thread = Unlaunched | Launched | Ready | Started | Finished

  /** The launching thread: launching, waiting for ready flag `k`, past `go.set_value()`. */
  datatype Main = Launching | Waiting(k: nat) | Gone

  /** `calls[i]` counts the calls of callable `i`. */
  datatype State = State(threads: seq<Thread>, main: Main, calls: seq<nat>)

  datatype Step = Launch(i: nat) | AllLaunched | SetReady(i: nat) | SeeReady | Go | Start(i: nat) | Finish(i: nat)

  function Init(n: nat): State {
    State(seq(n, _ => Unlaunched), Launching, seq(n, _ => 0))
  }

  predicate HasSignalled(t: Thread) {
    t == Ready || t == Started || t == Finished
  }

  predicate Enabled(s: State, step: Step) {
    var n := |s.threads|;
    match step
    case Launch(i) => i < n && s.main == Launching && s.threads[i] == Unlaunched
    case AllLaunched => s.main == Launching && Unlaunched !in s.threads
    case SetReady(i) => i < n && s.threads[i] == Launched
    case SeeReady => s.main.Waiting? && s.main.k < n && HasSignalled(s.threads[s.main.k])
    case Go => s.main == Waiting(n)
    case Start(i) => i < n && i < |s.calls| && s.threads[i] == Ready && s.main == Gone
    case Finish(i) => i < n && s.threads[i] == Started
  }

  function Apply(s: State, step: Step): State
    requires Enabled(s, step)
  {
    match step
    case Launch(i) => s.(threads := s.threads[i := Launched])
    case AllLaunched => s.(main := Waiting(0))
    case SetReady(i) => s.(threads := s.threads[i := Ready])
    case SeeReady => s.(main := Waiting(s.main.k + 1))
    case Go => s.(main := Gone)
    case Start(i) => s.(threads := s.threads[i := Started], calls := s.calls[i := s.calls[i] + 1])
    case Finish(i) => s.(threads := s.threads[i := Finished])
  }

  /** Flags below `k` are seen; go is given only when all are; each callable was called once if it started. */
  ghost predicate Inv(s: State) {
    && |s.calls| == |s.threads|
    && (s.main.Waiting? ==> s.main.k <= |s.threads|)
    && (forall i :: 0 <= i < |s.threads| ==>
          && s.calls[i] == (if s.threads[i] == Started || s.threads[i] == Finished then 1 else 0)
          && (s.main == Gone ==> HasSignalled(s.threads[i]))
          && (s.main.Waiting? ==> s.threads[i] != Unlaunched && (i < s.main.k ==> HasSignalled(s.threads[i])))
          && (s.calls[i] > 0 ==> s.main == Gone))
  }

  lemma StepInv(s: State, step: Step)
    requires Inv(s) && Enabled(s, step)
    ensures Inv(Apply(s, step))
  {
  }

  ghost predicate ValidRun(s: State, steps: seq<Step>)
    decreases |steps|
  {
    steps == [] || (Enabled(s, steps[0]) && ValidRun(Apply(s, steps[0]), steps[1..]))
  }

  function Exec(s: State, steps: seq<Step>): State
    requires ValidRun(s, steps)
    decreases |steps|
  {
    if steps == [] then s else Exec(Apply(s, steps[0]), steps[1..])
  }

  lemma {:induction false} RunInv(s: State, steps: seq<Step>)
    requires Inv(s) && ValidRun(s, steps)
    ensures Inv(Exec(s, steps))
    decreases |steps|
  {
    if steps != [] {
      StepInv(s, steps[0]);
      RunInv(Apply(s, steps[0]), steps[1..]);
    }
  }

  /** In every run: once any callable has been called, every thread has signalled; none is called twice. */
  lemma NobodyStartsEarly(n: nat, steps: seq<Step>)
    requires ValidRun(Init(n), steps)
    ensures var s := Exec(Init(n), steps);
            && (forall i :: 0 <= i < |s.calls| ==> s.calls[i] <= 1)
            && ((exists i :: 0 <= i < |s.calls| && s.calls[i] > 0) ==>
                  forall j :: 0 <= j < |s.threads| ==> HasSignalled(s.threads[j]))
  {
    RunInv(Init(n), steps);
  }

  // ----- progress and termination -----

  /** Until every callable has finished, some step can be taken. */
  lemma NeverStuck(s: State) returns (step: Step)
    requires Inv(s) && exists i :: 0 <= i < |s.threads| && s.threads[i] != Finished
    ensures Enabled(s, step)
  {
    match s.main
    case Launching =>
      if Unlaunched in s.threads {
        var i :| 0 <= i < |s.threads| && s.threads[i] == Unlaunched;
        step := Launch(i);
      } else {
        step := AllLaunched;
      }
    case Waiting(k) =>
      if k == |s.threads| {
        step := Go;
      } else if HasSignalled(s.threads[k]) {
        step := SeeReady;
      } else {
        step := SetReady(k);
      }
    case Gone =>
      var i :| 0 <= i < |s.threads| && s.threads[i] != Finished;
      step := if s.threads[i] == Ready then Start(i) else Finish(i);
  }

  function Rank(t: Thread): nat {
    match t
    case Unlaunched => 4
    case Launched => 3
    case Ready => 2
    case Started => 1
    case Finished => 0
  }

  function Ranks(ts: seq<Thread>): nat {
    if ts == [] then 0 else Rank(ts[0]) + Ranks(ts[1..])
  }

  /** Steps left to take. */
  function Measure(s: State): int {
    Ranks(s.threads) +
    match s.main
    case Launching => |s.threads| + 2
    case Waiting(k) => |s.threads| - k + 1
    case Gone => 0
  }

  lemma {:induction false} RanksUpdate(ts: seq<Thread>, i: nat, t: Thread)
    requires i < |ts|
    ensures Ranks(ts[i := t]) == Ranks(ts) - Rank(ts[i]) + Rank(t)
  {
    if i == 0 {
      assert ts[i := t][1..] == ts[1..];
    } else {
      RanksUpdate(ts[1..], i - 1, t);
      assert ts[i := t][1..] == ts[1..][i - 1 := t];
    }
  }

  /** Every step uses up exactly one, so every run has the same length. */
  lemma MeasureDecreases(s: State, step: Step)
    requires Inv(s) && Enabled(s, step)
    ensures 0 <= Measure(Apply(s, step)) == Measure(s) - 1
  {
    match step
    case Launch(i) => RanksUpdate(s.threads, i, Launched);
    case SetReady(i) => RanksUpdate(s.threads, i, Ready);
    case Start(i) => RanksUpdate(s.threads, i, Started);
    case Finish(i) => RanksUpdate(s.threads, i, Finished);
    case AllLaunched =>
    case SeeReady =>
    case Go =>
  }

  lemma {:induction false} RanksInit(ts: seq<Thread>)
    requires forall i :: 0 <= i < |ts| ==> ts[i] == Unlaunched
    ensures Ranks(ts) == 4 * |ts|
  {
    if ts != [] {
      RanksInit(ts[1..]);
    }
  }

  lemma {:induction false} RunMeasure(s: State, steps: seq<Step>)
    requires Inv(s) && ValidRun(s, steps)
    ensures Measure(Exec(s, steps)) == Measure(s) - |steps|
    decreases |steps|
  {
    if steps != [] {
      StepInv(s, steps[0]);
      MeasureDecreases(s, steps[0]);
      RunMeasure(Apply(s, steps[0]), steps[1..]);
    }
  }

  /** Every run is at most 5n + 2 steps long, and one of that length has finished every callable, called once. */
  lemma EveryRunFinishes(n: nat, steps: seq<Step>)
    requires ValidRun(Init(n), steps)
    ensures |steps| <= 5 * n + 2
    ensures |steps| == 5 * n + 2 ==>
              var s := Exec(Init(n), steps);
              forall i :: 0 <= i < n ==> |s.threads| == |s.calls| == n && s.threads[i] == Finished && s.calls[i] == 1
  {
    var s := Exec(Init(n), steps);
    RunInv(Init(n), steps);
    RunMeasure(Init(n), steps);
    RanksInit(Init(n).threads);
    ThreadsKept(Init(n), steps);
    if |steps| == 5 * n + 2 {
      RanksZero(s.threads);
    }
  }

  lemma {:induction false} ThreadsKept(s: State, steps: seq<Step>)
    requires ValidRun(s, steps)
    ensures |Exec(s, steps).threads| == |s.threads|
    decreases |steps|
  {
    if steps != [] {
      ThreadsKept(Apply(s, steps[0]), steps[1..]);
    }
  }

  lemma {:induction false} RanksZero(ts: seq<Thread>)
    requires Ranks(ts) == 0
    ensures forall i :: 0 <= i < |ts| ==> ts[i] == Finished
  {
    if ts != [] {
      RanksZero(ts[1..]);
      assert ts == [ts[0]] + ts[1..];
    }
  }
}

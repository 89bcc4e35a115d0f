/** ManualPromiseFuture of src/bench_async_future.cpp: workers claim task indices with one fetch_add each and
    fulfil the promise of the index. StdAsync_LaunchDeferred, which runs the tasks one after the other when
    their futures are read, is the sequential reference. */
module PromiseFutures {
  import opened Tally

  /** What a task produces: a value, or an exception that travels through the future. */
  datatype Outcome = Value(v: int) | Thrown(e: int)

  datatype Worker =
    | Fetch
    | Claimed(idx: nat) | Computed(idx: nat, outcome: Outcome)
    | Exited
    | Broken                         // a promise was set a second time

  datatype State = State(
    taskIndex: nat, promises: seq<Option<Outcome>>, workers: seq<Worker>,
    claimedBy: seq<nat>)             // history: the worker that claimed each index

  function Init(workers: nat, tasks: nat): State {
    State(0, seq(tasks, _ => None), seq(workers, _ => Fetch), [])
  }

  predicate Enabled(s: State, t: nat) {
    t < |s.workers| && !s.workers[t].Exited? && !s.workers[t].Broken?
  }

  function Step(s: State, t: nat, work: nat -> Outcome): State
    requires Enabled(s, t)
  {
    match s.workers[t]
    case Fetch =>
      if s.taskIndex < |s.promises| then
        s.(taskIndex := s.taskIndex + 1, claimedBy := s.claimedBy + [t],
           workers := s.workers[t := Claimed(s.taskIndex)])
      else s.(taskIndex := s.taskIndex + 1, workers := s.workers[t := Exited])
    case Claimed(idx) => s.(workers := s.workers[t := Computed(idx, work(idx))])
    case Computed(idx, outcome) =>
      if idx < |s.promises| && s.promises[idx].None? then
        s.(promises := s.promises[idx := Some(outcome)], workers := s.workers[t := Fetch])
      else s.(workers := s.workers[t := Broken])
    case _ => s
  }

  predicate Final(s: State) {
    forall t | 0 <= t < |s.workers| :: s.workers[t].Exited?
  }

  // ----- the invariant -----

  function HasExited(w: Worker): int {
    if w.Exited? then 1 else 0
  }

  predicate Holds(w: Worker, idx: nat) {
    (w.Claimed? || w.Computed?) && w.idx == idx
  }

  ghost predicate WorkerFits(s: State, t: nat, work: nat -> Outcome)
    requires t < |s.workers|
  {
    match s.workers[t]
    case Fetch => true
    case Claimed(idx) => idx < |s.claimedBy| && s.claimedBy[idx] == t
    case Computed(idx, outcome) => idx < |s.claimedBy| && s.claimedBy[idx] == t && outcome == work(idx)
    case Exited => |s.claimedBy| == |s.promises|
    case Broken => false
  }

  /** Indices are handed out without gap or repetition; a claimed promise holds the outcome of its task, unless
      the worker that claimed it is still at it. */
  ghost predicate Inv(s: State, work: nat -> Outcome) {
    && |s.claimedBy| <= |s.promises|
    && s.taskIndex == |s.claimedBy| + Sum(s.workers, HasExited)
    && (s.taskIndex > |s.claimedBy| ==> |s.claimedBy| == |s.promises|)
    && (forall t | 0 <= t < |s.workers| :: WorkerFits(s, t, work))
    && (forall k | 0 <= k < |s.claimedBy| ::
          && s.claimedBy[k] < |s.workers|
          && s.promises[k] == if Holds(s.workers[s.claimedBy[k]], k) then None else Some(work(k)))
    && (forall k | |s.claimedBy| <= k < |s.promises| :: s.promises[k].None?)
  }

  lemma InitInv(workers: nat, tasks: nat, work: nat -> Outcome)
    ensures Inv(Init(workers, tasks), work)
  {
    SumConstant(Init(workers, tasks).workers, HasExited, 0);
  }

  lemma StepInv(s: State, t: nat, work: nat -> Outcome)
    requires Inv(s, work) && Enabled(s, t)
    ensures Inv(Step(s, t, work), work)
  {
    var s' := Step(s, t, work);
    assert WorkerFits(s, t, work);
    SumUpdate(s.workers, HasExited, t, s'.workers[t]);
    SumNonNegative(s.workers, HasExited);
    forall u | 0 <= u < |s'.workers| ensures WorkerFits(s', u, work) {
      assert WorkerFits(s, u, work);
    }
  }

  // ----- whole runs -----

  ghost predicate Runs(s: State, moves: seq<nat>, s': State, work: nat -> Outcome)
    decreases |moves|
  {
    if moves == [] then s == s'
    else Enabled(s, moves[0]) && Runs(Step(s, moves[0], work), moves[1..], s', work)
  }

  function Load(w: Worker): int {
    match w
    case Claimed(_) => 3 case Computed(_, _) => 2 case Fetch => 1
    case _ => 0
  }

  function Measure(s: State): int {
    4 * (|s.promises| - |s.claimedBy|) + Sum(s.workers, Load)
  }

  lemma StepMeasure(s: State, t: nat, work: nat -> Outcome)
    requires Inv(s, work) && Enabled(s, t)
    ensures 0 <= Measure(Step(s, t, work)) < Measure(s)
  {
    var s' := Step(s, t, work);
    assert WorkerFits(s, t, work);
    StepInv(s, t, work);
    SumUpdate(s.workers, Load, t, s'.workers[t]);
    SumNonNegative(s'.workers, Load);
  }

  lemma {:induction false} RunInv(s: State, moves: seq<nat>, s': State, work: nat -> Outcome)
    requires Inv(s, work) && Runs(s, moves, s', work)
    ensures Inv(s', work) && |s'.workers| == |s.workers| && |s'.promises| == |s.promises|
    ensures |moves| + Measure(s') <= Measure(s)
    decreases |moves|
  {
    if moves != [] {
      var t := moves[0];
      StepInv(s, t, work);
      StepMeasure(s, t, work);
      RunInv(Step(s, t, work), moves[1..], s', work);
    }
  }

  /** In every run no promise is set twice; a run of at least one worker can only stop with all workers joined,
      and then every promise holds the outcome of its own task. */
  lemma {:induction false} RunsComplete(workers: nat, tasks: nat, work: nat -> Outcome, moves: seq<nat>, s: State)
    requires 1 <= workers && Runs(Init(workers, tasks), moves, s, work)
    ensures |moves| <= Measure(Init(workers, tasks))
    ensures forall t | 0 <= t < |s.workers| :: !s.workers[t].Broken?
    ensures (forall t: nat :: !Enabled(s, t)) <==> Final(s)
    ensures Final(s) ==>
              && s.taskIndex == tasks + workers
              && s.promises == seq(tasks, k requires 0 <= k => Some(work(k)))
  {
    InitInv(workers, tasks, work);
    RunInv(Init(workers, tasks), moves, s, work);
    SumNonNegative(s.workers, Load);
    forall t: nat | t < |s.workers| ensures !s.workers[t].Broken? && (!Enabled(s, t) <==> s.workers[t].Exited?) {
      assert WorkerFits(s, t, work);
    }
    if Final(s) {
      assert WorkerFits(s, 0, work);
      SumConstant(s.workers, HasExited, 1);
    }
  }

  /** After the joins, every future has an outcome, so that none of the reads blocks for ever, exactly when there
      was a worker or nothing to do. */
  lemma {:induction false} AllSetIff(workers: nat, tasks: nat, work: nat -> Outcome, moves: seq<nat>, s: State)
    requires Runs(Init(workers, tasks), moves, s, work) && Final(s)
    ensures (forall k | 0 <= k < |s.promises| :: s.promises[k].Some?) <==> 1 <= workers || tasks == 0
  {
    InitInv(workers, tasks, work);
    RunInv(Init(workers, tasks), moves, s, work);
    if 1 <= workers {
      RunsComplete(workers, tasks, work, moves, s);
    } else if 0 < tasks {
      assert s.promises[0].None?;
    }
  }

  // ----- the totals -----

  /** Adding up futures in order; the first exception ends the sum. */
  function Add(total: Outcome, next: Outcome): Outcome {
    if total.Thrown? then total else if next.Thrown? then next else Value(total.v + next.v)
  }

  /** The sequential total of the first `n` tasks. */
  function Sequential(work: nat -> Outcome, n: nat): Outcome {
    if n == 0 then Value(0) else Add(Sequential(work, n - 1), work(n - 1))
  }

  /** The sum of the values of the first `n` tasks. */
  function ValueSum(work: nat -> Outcome, n: nat): int
    requires forall k: nat | k < n :: work(k).Value?
  {
    if n == 0 then 0 else ValueSum(work, n - 1) + work(n - 1).v
  }

  /** The total means: the sum of the values if no task throws, else the exception of the first that does. */
  lemma {:induction false} TotalMeans(work: nat -> Outcome, n: nat)
    ensures (forall k: nat | k < n :: work(k).Value?) ==> Sequential(work, n) == Value(ValueSum(work, n))
    ensures forall k: nat | k < n && work(k).Thrown? && (forall j: nat | j < k :: work(j).Value?) ::
              Sequential(work, n) == work(k)
  {
    if 0 < n {
      TotalMeans(work, n - 1);
    }
  }

  /** Reads the futures in order, as after the joins. */
  method Collect(promises: seq<Option<Outcome>>, ghost work: nat -> Outcome) returns (total: Outcome)
    requires forall k | 0 <= k < |promises| :: promises[k] == Some(work(k))
    ensures total == Sequential(work, |promises|)
  {
    total := Value(0);
    var i := 0;
    while i < |promises|
      invariant i <= |promises| && total.Value? && total == Sequential(work, i)
    {
      match promises[i].value {
        case Thrown(e) =>
          total := Thrown(e);
          ThrownStays(work, i + 1, |promises|);
          return;
        case Value(v) => total := Value(total.v + v);
      }
      i := i + 1;
    }
  }

  lemma {:induction false} ThrownStays(work: nat -> Outcome, k: nat, n: nat)
    requires k <= n && Sequential(work, k).Thrown?
    ensures Sequential(work, n) == Sequential(work, k)
  {
    if k < n {
      ThrownStays(work, k, n - 1);
    }
  }

  /** The deferred reference: each task is run when its future is read. */
  method Deferred(work: nat -> Outcome, tasks: nat) returns (total: Outcome)
    ensures total == Sequential(work, tasks)
  {
    total := Value(0);
    for i := 0 to tasks
      invariant total.Value? && total == Sequential(work, i)
    {
      var outcome := work(i);
      if outcome.Thrown? {
        ThrownStays(work, i + 1, tasks);
        return outcome;
      }
      total := Value(total.v + outcome.v);
    }
  }

  // ----- the benchmark -----

  class PromiseFuture {
    const work: nat -> Outcome
    var taskIndex: nat
    var promises: array<Option<Outcome>>
    var workers: seq<Worker>
    // history
    var claimedBy: seq<nat>

    function View(): State
      reads this, promises
    {
      State(taskIndex, promises[..], workers, claimedBy)
    }

    constructor (work: nat -> Outcome, workers: nat, tasks: nat)
      ensures View() == Init(workers, tasks) && this.work == work && fresh(promises)
    {
      this.work := work;
      taskIndex, claimedBy := 0, [];
      promises := new Option<Outcome>[tasks](_ => None);
      this.workers := seq(workers, _ => Fetch);
    }

    /** The next action of worker `t`. */
    method Turn(t: nat)
      requires Enabled(View(), t)
      modifies this`taskIndex, this`workers, this`claimedBy, promises
      ensures View() == Step(old(View()), t, work)
    {
      match workers[t] {
        case Fetch =>
          var idx := taskIndex;
          taskIndex := taskIndex + 1;
          if idx >= promises.Length {
            workers := workers[t := Exited];
          } else {
            claimedBy, workers := claimedBy + [t], workers[t := Claimed(idx)];
          }
        case Claimed(idx) => workers := workers[t := Computed(idx, work(idx))];
        case Computed(idx, outcome) =>
          if idx < promises.Length && promises[idx].None? {
            promises[idx] := Some(outcome);
            workers := workers[t := Fetch];
          } else {
            workers := workers[t := Broken];
          }
      }
    }

    /** Runs the workers under an arbitrary scheduler, joins them and adds up the futures: the total is the one
        of the deferred reference. */
    method Run() returns (total: Outcome)
      requires View() == Init(|workers|, promises.Length) && 1 <= |workers|
      modifies this`taskIndex, this`workers, this`claimedBy, promises
      ensures total == Sequential(work, promises.Length)
      ensures taskIndex == promises.Length + |workers|
    {
      InitInv(|workers|, promises.Length, work);
      var n := |workers|;
      while exists t | 0 <= t < |workers| :: !workers[t].Exited?
        invariant Inv(View(), work) && |workers| == n
        decreases Measure(View())
      {
        var t: nat :| t < |workers| && !workers[t].Exited?;
        assert WorkerFits(View(), t, work);
        StepInv(View(), t, work);
        StepMeasure(View(), t, work);
        Turn(t);
      }
      assert WorkerFits(View(), 0, work);
      SumConstant(workers, HasExited, 1);
      total := Collect(promises[..], work);
    }
  }
}

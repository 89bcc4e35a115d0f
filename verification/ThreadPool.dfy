/** The thread pool of include/thread_pool.hpp: workers, any number of submitting threads, and the destructor.

    `stop_` is stored by the destructor without the mutex, so the wait of a worker is written out as finely as
    the code runs it: two loads for the predicate, then the gap in which the predicate is known to be false but
    the worker has not joined the wait set yet, then releasing the mutex and joining the wait set in one action.

    Tasks are numbered in the order in which submit accepts them. */
module ThreadPools {
  import opened Tally

  datatype Worker =
    | WLock
    | WStop1 | WEmpty1                 // the predicate: stop_.load() || !tasks_.empty()
    | WGap                             // predicate false, about to block
    | WAsleep | WWoken
    | WStop2 | WEmpty2                 // stop_.load() && tasks_.empty()
    | WTake | WUnlock(task: nat) | WRun(task: nat)
    | WUnlockExit | WExit
    | WUndefined                       // front() was called on an empty queue

  datatype Submitter = SIdle | SLock | SCheck | SUnlockThrow | SThrew | SPush | SUnlock | SNotify | SAccepted

  datatype Destroyer = DIdle | DStore | DNotify | DJoin(left: nat) | DDone

  datatype Thread = W(i: nat) | S(i: nat) | D

  datatype State = State(
    mtx: Option<Thread>, tasks: seq<nat>, stop: bool,
    workers: seq<Worker>, subs: seq<Submitter>, destroyer: Destroyer,
    // history: the worker that took each taken task, and how often each accepted task has been run
    takenBy: seq<nat>, runs: seq<nat>)

  /** The constructor starts at least one worker. */
  function Init(workers: nat, submitters: nat): State {
    State(None, [], false, seq(if workers == 0 then 1 else workers, _ => WLock), seq(submitters, _ => SIdle), DIdle,
          [], [])
  }

  function Wake(w: Worker): Worker {
    if w.WAsleep? then WWoken else w
  }

  predicate Outside(sub: Submitter) {
    sub.SIdle? || sub.SThrew? || sub.SAccepted?
  }

  predicate Enabled(s: State, t: Thread) {
    match t
    case W(i) =>
      && i < |s.workers| && !s.workers[i].WAsleep? && !s.workers[i].WExit? && !s.workers[i].WUndefined?
      && (s.workers[i].WLock? || s.workers[i].WWoken? ==> s.mtx.None?)
    case S(i) => i < |s.subs| && !Outside(s.subs[i]) && (s.subs[i].SLock? ==> s.mtx.None?)
    case D =>
      match s.destroyer
      case DIdle => false
      case DJoin(l) => 0 < l <= |s.workers| ==> s.workers[|s.workers| - l].WExit?
      case DDone => false
      case _ => true
  }

  function WorkerStep(s: State, i: nat): State
    requires Enabled(s, W(i))
  {
    match s.workers[i]
    case WLock => s.(mtx := Some(W(i)), workers := s.workers[i := WStop1])
    case WWoken => s.(mtx := Some(W(i)), workers := s.workers[i := WStop1])
    case WStop1 => s.(workers := s.workers[i := if s.stop then WStop2 else WEmpty1])
    case WEmpty1 => s.(workers := s.workers[i := if s.tasks != [] then WStop2 else WGap])
    case WGap => s.(mtx := None, workers := s.workers[i := WAsleep])
    case WStop2 => s.(workers := s.workers[i := if s.stop then WEmpty2 else WTake])
    case WEmpty2 => s.(workers := s.workers[i := if s.tasks == [] then WUnlockExit else WTake])
    case WTake =>
      if s.tasks == [] then s.(workers := s.workers[i := WUndefined])
      else s.(tasks := s.tasks[1..], takenBy := s.takenBy + [i], workers := s.workers[i := WUnlock(s.tasks[0])])
    case WUnlock(task) => s.(mtx := None, workers := s.workers[i := WRun(task)])
    case WRun(task) =>
      s.(runs := if task < |s.runs| then s.runs[task := s.runs[task] + 1] else s.runs,
         workers := s.workers[i := WLock])
    case WUnlockExit => s.(mtx := None, workers := s.workers[i := WExit])
    case _ => s
  }

  /** `pick` is the sleeper that a notify_one would wake. */
  predicate Wakes(s: State, pick: nat) {
    || (pick < |s.workers| && s.workers[pick].WAsleep?)
    || (forall w | 0 <= w < |s.workers| :: !s.workers[w].WAsleep?)
  }

  function SubmitStep(s: State, i: nat, pick: nat): State
    requires Enabled(s, S(i))
  {
    match s.subs[i]
    case SLock => s.(mtx := Some(S(i)), subs := s.subs[i := SCheck])
    case SCheck => s.(subs := s.subs[i := if s.stop then SUnlockThrow else SPush])
    case SUnlockThrow => s.(mtx := None, subs := s.subs[i := SThrew])
    case SPush =>
      s.(tasks := s.tasks + [|s.runs|], runs := s.runs + [0], subs := s.subs[i := SUnlock])
    case SUnlock => s.(mtx := None, subs := s.subs[i := SNotify])
    case SNotify =>
      s.(subs := s.subs[i := SAccepted],
         workers := if pick < |s.workers| then s.workers[pick := Wake(s.workers[pick])] else s.workers)
    case _ => s
  }

  function DestroyStep(s: State): State
    requires Enabled(s, D)
  {
    match s.destroyer
    case DStore => s.(stop := true, destroyer := DNotify)
    case DNotify =>
      s.(workers := seq(|s.workers|, w requires 0 <= w < |s.workers| => Wake(s.workers[w])),
         destroyer := DJoin(|s.workers|))
    case DJoin(l) => s.(destroyer := if l == 0 then DDone else DJoin(l - 1))
    case _ => s
  }

  // ----- moves: actions of open calls, new calls, spurious wake-ups -----

  datatype Move = Act(t: Thread, pick: nat) | Submit(i: nat) | Destroy | Nap(w: nat)

  predicate Allowed(s: State, m: Move) {
    match m
    case Act(t, pick) => Enabled(s, t) && (t.S? ==> Wakes(s, pick))
    case Submit(i) => i < |s.subs| && Outside(s.subs[i])
    case Destroy => s.destroyer.DIdle?
    case Nap(w) => w < |s.workers| && s.workers[w].WAsleep?
  }

  function Step(s: State, t: Thread, pick: nat): State
    requires Enabled(s, t)
  {
    match t
    case W(i) => WorkerStep(s, i)
    case S(i) => SubmitStep(s, i, pick)
    case D => DestroyStep(s)
  }

  function Apply(s: State, m: Move): State
    requires Allowed(s, m)
  {
    match m
    case Act(t, pick) => Step(s, t, pick)
    case Submit(i) => s.(subs := s.subs[i := SLock])
    case Destroy => s.(destroyer := DStore)
    case Nap(w) => s.(workers := s.workers[w := WWoken])
  }

  ghost predicate Runs(s: State, moves: seq<Move>, s': State)
    decreases |moves|
  {
    if moves == [] then s == s'
    else Allowed(s, moves[0]) && Runs(Apply(s, moves[0]), moves[1..], s')
  }

  // ----- the invariant -----

  predicate Locked(w: Worker) {
    match w
    case WStop1 | WEmpty1 | WGap | WStop2 | WEmpty2 | WTake | WUnlock(_) | WUnlockExit | WUndefined => true
    case _ => false
  }

  predicate InLock(s: State, t: Thread) {
    match t
    case W(i) => i < |s.workers| && Locked(s.workers[i])
    case S(i) =>
      && i < |s.subs|
      && (s.subs[i].SCheck? || s.subs[i].SUnlockThrow? || s.subs[i].SPush? || s.subs[i].SUnlock?)
    case D => false
  }

  ghost predicate LockOwned(s: State) {
    forall t: Thread :: InLock(s, t) <==> s.mtx == Some(t)
  }

  /** The task a worker has taken and not finished. */
  function InHand(w: Worker): Option<nat> {
    match w
    case WUnlock(task) => Some(task)
    case WRun(task) => Some(task)
    case _ => None
  }

  function Ids(from: nat, to: nat): seq<nat>
    requires from <= to
  {
    seq(to - from, i requires 0 <= i => from + i)
  }

  /** Tasks are taken in order of acceptance; a taken task has been run once, unless the worker that took it
      still has it in hand; a queued task has not been run. */
  ghost predicate TasksFit(s: State) {
    && |s.takenBy| <= |s.runs|
    && s.tasks == Ids(|s.takenBy|, |s.runs|)
    && (forall k | |s.takenBy| <= k < |s.runs| :: s.runs[k] == 0)
    && (forall k | 0 <= k < |s.takenBy| ::
          && s.takenBy[k] < |s.workers|
          && s.runs[k] == if InHand(s.workers[s.takenBy[k]]) == Some(k) then 0 else 1)
    && (forall w | 0 <= w < |s.workers| && InHand(s.workers[w]).Some? ::
          var k := InHand(s.workers[w]).value; k < |s.takenBy| && s.takenBy[k] == w)
  }

  /** No task is queued and none can be queued any more. */
  ghost predicate Drained(s: State) {
    s.stop && s.tasks == [] && forall i | 0 <= i < |s.subs| :: !s.subs[i].SPush?
  }

  ghost predicate WorkerFits(s: State, w: Worker) {
    match w
    case WGap => s.tasks == []
    case WStop2 => s.stop || s.tasks != []
    case WEmpty2 => s.stop
    case WTake => s.tasks != []
    case WUnlockExit => Drained(s)
    case WExit => Drained(s)
    case WUndefined => false
    case _ => true
  }

  ghost predicate DestroyerFits(s: State) {
    match s.destroyer
    case DIdle => !s.stop
    case DStore => !s.stop
    case DNotify => s.stop
    case DJoin(l) => s.stop && l <= |s.workers| && forall w | 0 <= w < |s.workers| - l :: s.workers[w].WExit?
    case DDone => s.stop && forall w | 0 <= w < |s.workers| :: s.workers[w].WExit?
  }

  ghost predicate Inv(s: State) {
    && s.workers != []
    && LockOwned(s)
    && TasksFit(s)
    && (forall w | 0 <= w < |s.workers| :: WorkerFits(s, s.workers[w]))
    && (forall i | 0 <= i < |s.subs| && (s.subs[i].SUnlockThrow? || s.subs[i].SThrew?) :: s.stop)
    && DestroyerFits(s)
  }

  lemma {:induction false} InitInv(workers: nat, submitters: nat)
    ensures Inv(Init(workers, submitters))
  {}

  // ----- every move keeps the invariant -----

  lemma {:induction false} WorkerLock(s: State, i: nat)
    requires LockOwned(s) && Enabled(s, W(i))
    ensures LockOwned(WorkerStep(s, i))
  {
    var s' := WorkerStep(s, i);
    forall t: Thread ensures InLock(s', t) <==> s'.mtx == Some(t) {
      assert InLock(s, t) <==> s.mtx == Some(t);
      assert InLock(s, W(i)) <==> s.mtx == Some(W(i));
    }
  }

  lemma {:induction false} SubmitLock(s: State, i: nat, pick: nat)
    requires LockOwned(s) && Enabled(s, S(i))
    ensures LockOwned(SubmitStep(s, i, pick))
  {
    var s' := SubmitStep(s, i, pick);
    forall t: Thread ensures InLock(s', t) <==> s'.mtx == Some(t) {
      assert InLock(s, t) <==> s.mtx == Some(t);
      assert InLock(s, S(i)) <==> s.mtx == Some(S(i));
    }
  }

  lemma {:induction false} OtherLock(s: State, m: Move)
    requires LockOwned(s) && Allowed(s, m) && (m.Act? ==> m.t.D?)
    ensures LockOwned(Apply(s, m))
  {
    var s' := Apply(s, m);
    forall t: Thread ensures InLock(s', t) <==> s'.mtx == Some(t) {
      assert InLock(s, t) <==> s.mtx == Some(t);
    }
  }

  lemma {:induction false} TakeFits(s: State, i: nat)
    requires TasksFit(s) && Enabled(s, W(i)) && s.workers[i].WTake? && s.tasks != []
    ensures TasksFit(WorkerStep(s, i))
  {}

  lemma {:induction false} RunFits(s: State, i: nat)
    requires TasksFit(s) && Enabled(s, W(i)) && s.workers[i].WRun?
    ensures TasksFit(WorkerStep(s, i))
  {}

  /** Tasks, takers and runs are the same, and every worker has the same task in hand. */
  lemma {:induction false} SameFits(s: State, s': State)
    requires TasksFit(s)
    requires s'.tasks == s.tasks && s'.takenBy == s.takenBy && s'.runs == s.runs && |s'.workers| == |s.workers|
    requires forall w | 0 <= w < |s.workers| :: InHand(s'.workers[w]) == InHand(s.workers[w])
    ensures TasksFit(s')
  {}

  lemma {:induction false} WorkerTasks(s: State, i: nat)
    requires TasksFit(s) && Enabled(s, W(i)) && WorkerFits(s, s.workers[i])
    ensures TasksFit(WorkerStep(s, i))
  {
    if s.workers[i].WTake? {
      TakeFits(s, i);
    } else if s.workers[i].WRun? {
      RunFits(s, i);
    } else {
      SameFits(s, WorkerStep(s, i));
    }
  }

  lemma {:induction false} MoveTasks(s: State, m: Move)
    requires Inv(s) && Allowed(s, m)
    ensures TasksFit(Apply(s, m))
  {
    match m {
      case Act(t, pick) =>
        match t {
          case W(i) =>
            assert WorkerFits(s, s.workers[i]);
            WorkerTasks(s, i);
          case S(i) =>
            if !s.subs[i].SPush? {
              SameFits(s, Apply(s, m));
            }
          case D => SameFits(s, Apply(s, m));
        }
      case _ => SameFits(s, Apply(s, m));
    }
  }

  /** Once drained, always drained: no task is accepted any more. */
  lemma {:induction false} DrainedStays(s: State, m: Move)
    requires Inv(s) && Drained(s) && Allowed(s, m)
    ensures Drained(Apply(s, m)) && |Apply(s, m).runs| == |s.runs|
  {
    if m.Act? && m.t.W? {
      assert WorkerFits(s, s.workers[m.t.i]);
    }
  }

  lemma {:induction false} WorkerStepFits(s: State, i: nat)
    requires Inv(s) && Enabled(s, W(i))
    ensures WorkerFits(WorkerStep(s, i), WorkerStep(s, i).workers[i])
  {
    assert WorkerFits(s, s.workers[i]);
    if s.workers[i].WEmpty2? {
      forall j | 0 <= j < |s.subs| ensures !s.subs[j].SPush? {
        assert InLock(s, S(j)) <==> s.mtx == Some(S(j));
        assert InLock(s, W(i)) <==> s.mtx == Some(W(i));
      }
    }
    if Drained(s) {
      DrainedStays(s, Act(W(i), 0));
    }
  }

  /** To a worker, a move of anybody else is at most a wake-up; while the worker owns the lock the queue stays
      as it is. */
  lemma {:induction false} OthersLeave(s: State, m: Move, w: nat)
    requires LockOwned(s) && Allowed(s, m) && w < |s.workers| && !(m.Act? && m.t == W(w))
    ensures var s' := Apply(s, m);
            && |s'.workers| == |s.workers| && (s'.workers[w] == s.workers[w] || s'.workers[w] == WWoken)
            && (s.stop ==> s'.stop)
            && (Locked(s.workers[w]) ==> s'.tasks == s.tasks)
  {
    assert InLock(s, W(w)) <==> s.mtx == Some(W(w));
    if m.Act? {
      assert InLock(s, m.t) <==> s.mtx == Some(m.t);
    }
  }

  lemma {:induction false} MoveWorkers(s: State, m: Move)
    requires Inv(s) && Allowed(s, m)
    ensures var s' := Apply(s, m); forall w | 0 <= w < |s'.workers| :: WorkerFits(s', s'.workers[w])
  {
    var s' := Apply(s, m);
    if Drained(s) {
      DrainedStays(s, m);
    }
    forall w | 0 <= w < |s'.workers| ensures WorkerFits(s', s'.workers[w]) {
      if m.Act? && m.t == W(w) {
        WorkerStepFits(s, w);
      } else {
        OthersLeave(s, m, w);
      }
    }
  }

  lemma {:induction false} MoveSubmitters(s: State, m: Move)
    requires Inv(s) && Allowed(s, m)
    ensures var s' := Apply(s, m);
            forall i | 0 <= i < |s'.subs| && (s'.subs[i].SUnlockThrow? || s'.subs[i].SThrew?) :: s'.stop
  {}

  lemma {:induction false} ExitStays(s: State, m: Move, w: nat)
    requires Allowed(s, m) && w < |s.workers| && s.workers[w].WExit?
    ensures w < |Apply(s, m).workers| && Apply(s, m).workers[w].WExit?
  {}

  lemma {:induction false} DestroyFits(s: State)
    requires DestroyerFits(s) && Enabled(s, D)
    ensures DestroyerFits(DestroyStep(s)) && |DestroyStep(s).workers| == |s.workers|
  {}

  lemma {:induction false} MoveDestroyer(s: State, m: Move)
    requires Inv(s) && Allowed(s, m)
    ensures DestroyerFits(Apply(s, m)) && |Apply(s, m).workers| == |s.workers|
  {
    if m.Act? && m.t.D? {
      DestroyFits(s);
    } else if m.Act? {
      forall w: nat | w < |s.workers| && s.workers[w].WExit? ensures Apply(s, m).workers[w].WExit? {
        ExitStays(s, m, w);
      }
    }
  }

  lemma {:induction false} MoveInv(s: State, m: Move)
    requires Inv(s) && Allowed(s, m)
    ensures Inv(Apply(s, m)) && |Apply(s, m).workers| == |s.workers|
  {
    if m.Act? && m.t.W? {
      WorkerLock(s, m.t.i);
    } else if m.Act? && m.t.S? {
      SubmitLock(s, m.t.i, m.pick);
    } else {
      OtherLock(s, m);
    }
    MoveTasks(s, m);
    MoveWorkers(s, m);
    MoveSubmitters(s, m);
    MoveDestroyer(s, m);
  }

  lemma {:induction false} RunInv(s: State, moves: seq<Move>, s': State)
    requires Inv(s) && Runs(s, moves, s')
    ensures Inv(s') && |s'.workers| == |s.workers|
    decreases |moves|
  {
    if moves != [] {
      MoveInv(s, moves[0]);
      RunInv(Apply(s, moves[0]), moves[1..], s');
    }
  }

  // ----- what the pool promises about tasks -----

  /** In every run, no task is run twice, and tasks are taken first in, first out: the tasks not yet taken are
      exactly the ones accepted after the last taken one, in order. */
  lemma {:induction false} TasksInOrder(workers: nat, submitters: nat, moves: seq<Move>, s: State)
    requires Runs(Init(workers, submitters), moves, s)
    ensures |s.takenBy| <= |s.runs| && s.tasks == Ids(|s.takenBy|, |s.runs|)
    ensures forall k | 0 <= k < |s.runs| :: s.runs[k] <= 1
    ensures forall k | |s.takenBy| <= k < |s.runs| :: s.runs[k] == 0
  {
    InitInv(workers, submitters);
    RunInv(Init(workers, submitters), moves, s);
  }

  /** From the moment some worker has left, for ever: the queue is empty, no further task is accepted, and a
      submit that looks at stop_ throws. */
  lemma {:induction false} ExitMeansDrained(s: State, w: nat, moves: seq<Move>, s': State, i: nat)
    requires Inv(s) && w < |s.workers| && s.workers[w].WExit? && Runs(s, moves, s')
    ensures s'.tasks == [] && |s'.runs| == |s.runs|
    ensures Enabled(s', S(i)) && s'.subs[i].SCheck? ==> SubmitStep(s', i, 0).subs[i].SUnlockThrow?
    decreases |moves|
  {
    assert WorkerFits(s, s.workers[w]);
    if moves != [] {
      var next := Apply(s, moves[0]);
      MoveInv(s, moves[0]);
      DrainedStays(s, moves[0]);
      ExitStays(s, moves[0], w);
      ExitMeansDrained(next, w, moves[1..], s', i);
    }
  }

  /** When all workers have been joined, every accepted task has been run exactly once. */
  lemma {:induction false} AllJoinedAllRan(workers: nat, submitters: nat, moves: seq<Move>, s: State)
    requires Runs(Init(workers, submitters), moves, s)
    requires forall w | 0 <= w < |s.workers| :: s.workers[w].WExit?
    ensures forall k | 0 <= k < |s.runs| :: s.runs[k] == 1
  {
    InitInv(workers, submitters);
    RunInv(Init(workers, submitters), moves, s);
    assert WorkerFits(s, s.workers[0]);
  }

  /** The pool has the workers it was asked for, and at least one. */
  lemma {:induction false} WorkersStarted(workers: nat, submitters: nat, moves: seq<Move>, s: State)
    requires Runs(Init(workers, submitters), moves, s)
    ensures |s.workers| == (if workers == 0 then 1 else workers) && |s.subs| == submitters
  {
    InitInv(workers, submitters);
    RunInv(Init(workers, submitters), moves, s);
    RunKeepsClients(Init(workers, submitters), moves, s);
  }

  lemma {:induction false} RunKeepsClients(s: State, moves: seq<Move>, s': State)
    requires Runs(s, moves, s')
    ensures |s'.subs| == |s.subs|
    decreases |moves|
  {
    if moves != [] {
      RunKeepsClients(Apply(s, moves[0]), moves[1..], s');
    }
  }

  // ----- every accepted submit has a task -----

  /** With this move a submit returns normally. */
  predicate Returns(s: State, m: Move)
    requires Allowed(s, m)
  {
    m.Act? && m.t.S? && m.t.i < |Apply(s, m).subs| && Apply(s, m).subs[m.t.i].SAccepted?
  }

  /** How many submits have returned normally in the course of a run. */
  function Accepted(s: State, moves: seq<Move>): nat
    decreases |moves|
  {
    if moves == [] || !Allowed(s, moves[0]) then 0
    else (if Returns(s, moves[0]) then 1 else 0) + Accepted(Apply(s, moves[0]), moves[1..])
  }

  /** Has queued its task and not returned yet. */
  function Owes(sub: Submitter): int {
    if sub.SUnlock? || sub.SNotify? then 1 else 0
  }

  lemma {:induction false} MoveAccepts(s: State, m: Move)
    requires Allowed(s, m)
    ensures var s' := Apply(s, m);
            |s'.runs| - Sum(s'.subs, Owes) == |s.runs| - Sum(s.subs, Owes) + if Returns(s, m) then 1 else 0
  {
    match m {
      case Submit(i) => SumUpdate(s.subs, Owes, i, SLock);
      case Act(t, pick) =>
        if t.S? {
          SumUpdate(s.subs, Owes, t.i, Apply(s, m).subs[t.i]);
        }
      case _ =>
    }
  }

  lemma {:induction false} RunAccepts(s: State, moves: seq<Move>, s': State)
    requires Runs(s, moves, s')
    ensures |s'.runs| - Sum(s'.subs, Owes) == |s.runs| - Sum(s.subs, Owes) + Accepted(s, moves)
    decreases |moves|
  {
    if moves != [] {
      MoveAccepts(s, moves[0]);
      RunAccepts(Apply(s, moves[0]), moves[1..], s');
    }
  }

  /** In every run the tasks are exactly those of the submits that have returned normally and of those that have
      queued theirs and are about to; where nobody can act any more, each submit that has returned normally has
      had its own task run exactly once. */
  lemma {:induction false} EverySubmitHasItsTask(workers: nat, submitters: nat, moves: seq<Move>, s: State)
    requires Runs(Init(workers, submitters), moves, s)
    ensures |s.runs| == Accepted(Init(workers, submitters), moves) + Sum(s.subs, Owes)
    ensures Stopped(s) ==> |s.runs| == Accepted(Init(workers, submitters), moves)
    ensures Stopped(s) ==> forall k | 0 <= k < |s.runs| :: s.runs[k] == 1
  {
    var start := Init(workers, submitters);
    SumConstant(start.subs, Owes, 0);
    RunAccepts(start, moves, s);
    if Stopped(s) {
      NoTaskStranded(workers, submitters, moves, s);
      SumConstant(s.subs, Owes, 0);
    }
  }

  // ----- no task is stranded -----

  /** While a task is queued, some worker is awake, or some submit is about to call notify_one. */
  ghost predicate Attended(s: State) {
    s.tasks != [] ==>
      || (exists w :: 0 <= w < |s.workers| && !s.workers[w].WAsleep?)
      || (exists i :: 0 <= i < |s.subs| && (s.subs[i].SUnlock? || s.subs[i].SNotify?))
  }

  lemma {:induction false} WorkerAttends(s: State, i: nat)
    requires Inv(s) && Enabled(s, W(i)) && WorkerStep(s, i).tasks != []
    ensures !WorkerStep(s, i).workers[i].WAsleep?
  {
    assert WorkerFits(s, s.workers[i]);
  }

  lemma {:induction false} SubmitAttends(s: State, i: nat, pick: nat)
    requires Inv(s) && Enabled(s, S(i)) && Wakes(s, pick) && Attended(s)
    ensures Attended(SubmitStep(s, i, pick))
  {
    var s' := SubmitStep(s, i, pick);
    if s.subs[i].SPush? {
      assert s'.subs[i].SUnlock?;
    } else if s.subs[i].SUnlock? {
      assert s'.subs[i].SNotify?;
    } else if s.subs[i].SNotify? {
      var w := if pick < |s.workers| then pick else 0;
      assert !s'.workers[w].WAsleep?;
    } else if s.tasks != [] {
      if j :| 0 <= j < |s.subs| && (s.subs[j].SUnlock? || s.subs[j].SNotify?) {
        assert s'.subs[j] == s.subs[j];
      } else {
        var w :| 0 <= w < |s.workers| && !s.workers[w].WAsleep?;
        assert s'.workers[w] == s.workers[w];
      }
    }
  }

  lemma {:induction false} OtherAttends(s: State, m: Move)
    requires Inv(s) && Allowed(s, m) && Attended(s) && (m.Act? ==> m.t.D?)
    ensures Attended(Apply(s, m))
  {
    var s' := Apply(s, m);
    if s.tasks != [] {
      if j :| 0 <= j < |s.subs| && (s.subs[j].SUnlock? || s.subs[j].SNotify?) {
        assert s'.subs[j] == s.subs[j];
      } else {
        var w :| 0 <= w < |s.workers| && !s.workers[w].WAsleep?;
        assert !s'.workers[w].WAsleep?;
      }
    }
  }

  lemma {:induction false} MoveAttends(s: State, m: Move)
    requires Inv(s) && Attended(s) && Allowed(s, m)
    ensures Attended(Apply(s, m))
  {
    if m.Act? && m.t.W? {
      if WorkerStep(s, m.t.i).tasks != [] {
        WorkerAttends(s, m.t.i);
      }
    } else if m.Act? && m.t.S? {
      SubmitAttends(s, m.t.i, m.pick);
    } else {
      OtherAttends(s, m);
    }
  }

  lemma {:induction false} RunAttends(s: State, moves: seq<Move>, s': State)
    requires Inv(s) && Attended(s) && Runs(s, moves, s')
    ensures Inv(s') && Attended(s')
    decreases |moves|
  {
    if moves != [] {
      MoveInv(s, moves[0]);
      MoveAttends(s, moves[0]);
      RunAttends(Apply(s, moves[0]), moves[1..], s');
    }
  }

  lemma {:induction false} StoppedIdle(s: State)
    requires Inv(s) && Stopped(s) && Attended(s)
    ensures s.tasks == [] && forall k | 0 <= k < |s.runs| :: s.runs[k] == 1
    ensures forall i | 0 <= i < |s.subs| :: Outside(s.subs[i])
  {
    if s.mtx.Some? {
      OwnerMoves(s);
    }
    forall i: nat | i < |s.subs| ensures Outside(s.subs[i]) {
      assert !Enabled(s, S(i));
    }
    forall w: nat | w < |s.workers|
      ensures InHand(s.workers[w]).None? && (s.workers[w].WAsleep? || s.tasks == [])
    {
      assert !Enabled(s, W(w)) && WorkerFits(s, s.workers[w]);
    }
  }

  /** No accepted task is left behind while the pool lives: in every run, while a task is queued some worker is
      awake or some submit owes its notify_one; and where nobody can act any more, the queue is empty, every
      submit has returned or thrown and every accepted task has run exactly once, so that every future is
      ready. */
  lemma {:induction false} NoTaskStranded(workers: nat, submitters: nat, moves: seq<Move>, s: State)
    requires Runs(Init(workers, submitters), moves, s)
    ensures Attended(s)
    ensures Stopped(s) ==> s.tasks == [] && forall k | 0 <= k < |s.runs| :: s.runs[k] == 1
    ensures Stopped(s) ==> forall i | 0 <= i < |s.subs| :: Outside(s.subs[i])
  {
    InitInv(workers, submitters);
    RunAttends(Init(workers, submitters), moves, s);
    if Stopped(s) {
      StoppedIdle(s);
    }
  }

  /** No new call; spurious wake-ups may happen. */
  predicate NoCalls(moves: seq<Move>) {
    forall i | 0 <= i < |moves| :: moves[i].Act? || moves[i].Nap?
  }

  /** The number of spurious wake-ups in a schedule. */
  function Naps(moves: seq<Move>): nat {
    if moves == [] then 0 else (if moves[0].Nap? then 1 else 0) + Naps(moves[1..])
  }

  lemma {:induction false} NapMeasure(s: State, w: nat)
    requires w < |s.workers| && s.workers[w].WAsleep?
    ensures Measure(Apply(s, Nap(w))) == Measure(s) + 4
  {
    SumUpdate(s.workers, WorkerLoad, w, WWoken);
  }

  /** Without new calls a run from any state of the pool can be long only by spurious wake-ups. */
  lemma {:induction false} RunsBounded(s: State, moves: seq<Move>, s': State)
    requires Inv(s) && NoCalls(moves) && Runs(s, moves, s')
    ensures Inv(s') && 0 <= Measure(s') && |moves| + Measure(s') <= Measure(s) + 5 * Naps(moves)
    decreases |moves|
  {
    if moves == [] {
      MeasureNonNegative(s);
    } else {
      MoveInv(s, moves[0]);
      if moves[0].Nap? {
        NapMeasure(s, moves[0].w);
      } else {
        ActMeasure(s, moves[0]);
      }
      RunsBounded(Apply(s, moves[0]), moves[1..], s');
    }
  }

  // ----- when the destructor returns -----

  /** No submit is in progress, as the lifetime rules demand when the destructor runs. */
  predicate Quiet(s: State) {
    forall i | 0 <= i < |s.subs| :: Outside(s.subs[i])
  }

  /** No new call and no spurious wake-up. */
  predicate OnlyActs(moves: seq<Move>) {
    forall i | 0 <= i < |moves| :: moves[i].Act?
  }

  /** The worker has found its predicate false, or is about to, and is not in the wait set yet. */
  predicate Gap(s: State, w: Worker) {
    w.WGap? || (w.WEmpty1? && s.tasks == [])
  }

  predicate Doomed(s: State, w: Worker) {
    Gap(s, w) || w.WAsleep?
  }

  ghost predicate InGap(s: State) {
    exists w :: 0 <= w < |s.workers| && Gap(s, s.workers[w])
  }

  /** The destructor has called notify_all. */
  predicate Notified(s: State) {
    s.destroyer.DJoin? || s.destroyer.DDone?
  }

  /** With no notify to come, a worker in the gap or asleep stays there. */
  lemma {:induction false} DoomedStays(s: State, m: Move, w: nat)
    requires Inv(s) && Quiet(s) && Notified(s) && m.Act? && Allowed(s, m)
    requires w < |s.workers| && Doomed(s, s.workers[w])
    ensures var s' := Apply(s, m); Quiet(s') && Notified(s') && w < |s'.workers| && Doomed(s', s'.workers[w])
  {
    if m.t.W? {
      assert WorkerFits(s, s.workers[m.t.i]);
    }
  }

  lemma {:induction false} NeverJoins(s: State, moves: seq<Move>, s': State, w: nat)
    requires Inv(s) && Quiet(s) && Notified(s) && OnlyActs(moves) && Runs(s, moves, s')
    requires w < |s.workers| && Doomed(s, s.workers[w])
    ensures !s'.destroyer.DDone?
    decreases |moves|
  {
    if moves != [] {
      MoveInv(s, moves[0]);
      DoomedStays(s, moves[0], w);
      NeverJoins(Apply(s, moves[0]), moves[1..], s', w);
    }
  }

  ghost predicate NoneDoomed(s: State) {
    forall w | 0 <= w < |s.workers| :: !Doomed(s, s.workers[w])
  }

  lemma {:induction false} NoneDoomedStays(s: State, m: Move)
    requires Inv(s) && Quiet(s) && Notified(s) && NoneDoomed(s) && m.Act? && Allowed(s, m)
    ensures var s' := Apply(s, m); Quiet(s') && Notified(s') && NoneDoomed(s')
  {
    var s' := Apply(s, m);
    forall w | 0 <= w < |s'.workers| ensures !Doomed(s', s'.workers[w]) {
      assert !Doomed(s, s.workers[w]);
      assert InLock(s, W(w)) <==> s.mtx == Some(W(w));
      assert InLock(s, m.t) <==> s.mtx == Some(m.t);
    }
  }

  function WorkerLoad(w: Worker): int {
    match w
    case WUnlock(_) => 10 case WRun(_) => 9 case WLock => 8 case WWoken => 8 case WStop1 => 7 case WEmpty1 => 6
    case WStop2 => 5 case WGap => 5 case WEmpty2 => 4 case WAsleep => 4 case WTake => 3 case WUnlockExit => 1
    case _ => 0
  }

  function SubmitterLoad(sub: Submitter): int {
    match sub
    case SLock => 40 case SCheck => 39 case SPush => 38 case SUnlock => 10 case SNotify => 9 case SUnlockThrow => 1
    case _ => 0
  }

  /** The notify_all may wake every worker. */
  function DestroyerLoad(d: Destroyer, workers: nat): int {
    match d
    case DStore => 5 * workers + 3 case DNotify => 5 * workers + 2 case DJoin(l) => l + 1
    case _ => 0
  }

  /** The actions left in the calls that are open, the workers' answers to them included. */
  function Measure(s: State): int {
    20 * |s.tasks| + Sum(s.workers, WorkerLoad) + Sum(s.subs, SubmitterLoad)
    + DestroyerLoad(s.destroyer, |s.workers|)
  }

  lemma {:induction false} MeasureNonNegative(s: State)
    ensures 0 <= Measure(s)
  {
    SumNonNegative(s.workers, WorkerLoad);
    SumNonNegative(s.subs, SubmitterLoad);
  }

  lemma {:induction false} WorkerMeasure(s: State, i: nat)
    requires Enabled(s, W(i)) && WorkerFits(s, s.workers[i])
    ensures Measure(WorkerStep(s, i)) < Measure(s)
  {
    SumUpdate(s.workers, WorkerLoad, i, WorkerStep(s, i).workers[i]);
  }

  lemma {:induction false} SubmitMeasure(s: State, i: nat, pick: nat)
    requires Enabled(s, S(i))
    ensures Measure(SubmitStep(s, i, pick)) < Measure(s)
  {
    var s' := SubmitStep(s, i, pick);
    SumUpdate(s.subs, SubmitterLoad, i, s'.subs[i]);
    if s.subs[i].SNotify? && pick < |s.workers| {
      SumUpdate(s.workers, WorkerLoad, pick, s'.workers[pick]);
    }
  }

  lemma {:induction false} WakeLoad(a: seq<Worker>, b: seq<Worker>)
    requires |a| == |b| && forall i | 0 <= i < |a| :: b[i] == Wake(a[i])
    ensures Sum(b, WorkerLoad) <= Sum(a, WorkerLoad) + 4 * |a|
  {
    if a != [] {
      WakeLoad(a[..|a| - 1], b[..|b| - 1]);
    }
  }

  lemma {:induction false} DestroyMeasure(s: State)
    requires Enabled(s, D)
    ensures Measure(DestroyStep(s)) < Measure(s)
  {
    if s.destroyer.DNotify? {
      WakeLoad(s.workers, DestroyStep(s).workers);
    }
  }

  /** Every action of every open call, and of the workers, uses up one of a bounded number of actions. */
  lemma {:induction false} ActMeasure(s: State, m: Move)
    requires Inv(s) && m.Act? && Allowed(s, m)
    ensures 0 <= Measure(Apply(s, m)) < Measure(s)
  {
    MeasureNonNegative(Apply(s, m));
    match m.t
    case W(i) =>
      assert WorkerFits(s, s.workers[i]);
      WorkerMeasure(s, i);
    case S(i) => SubmitMeasure(s, i, m.pick);
    case D => DestroyMeasure(s);
  }

  lemma {:induction false} JoinProgress(s: State)
    requires Inv(s) && Quiet(s) && NoneDoomed(s) && s.destroyer.DJoin?
    ensures exists t: Thread :: Enabled(s, t)
  {
    if s.mtx.Some? {
      OwnerMoves(s);
    } else if !Enabled(s, D) {
      var w := |s.workers| - s.destroyer.left;
      assert !Doomed(s, s.workers[w]) && WorkerFits(s, s.workers[w]);
      assert Enabled(s, W(w));
    }
  }

  /** Whoever holds the mutex can act. */
  lemma {:induction false} OwnerMoves(s: State)
    requires Inv(s) && s.mtx.Some?
    ensures Enabled(s, s.mtx.value)
  {
    assert InLock(s, s.mtx.value);
    match s.mtx.value
    case W(w) => assert WorkerFits(s, s.workers[w]);
    case _ =>
  }

  /** Without a worker in the gap, every run from the notify_all on is bounded and can only end with all
      workers joined. Nobody sleeps any more, so no wake-up can be spurious. */
  lemma {:induction false} AlwaysJoins(s: State, moves: seq<Move>, s': State)
    requires Inv(s) && Quiet(s) && Notified(s) && NoneDoomed(s) && NoCalls(moves) && Runs(s, moves, s')
    ensures Inv(s') && Quiet(s') && Notified(s') && NoneDoomed(s')
    ensures 0 <= |moves| + Measure(s') <= Measure(s) || moves == []
    ensures (forall t: Thread :: !Enabled(s', t)) ==> s'.destroyer.DDone?
    decreases |moves|
  {
    if moves != [] {
      assert moves[0].Nap? ==> !Doomed(s, s.workers[moves[0].w]);
      MoveInv(s, moves[0]);
      NoneDoomedStays(s, moves[0]);
      ActMeasure(s, moves[0]);
      AlwaysJoins(Apply(s, moves[0]), moves[1..], s');
    } else if s.destroyer.DJoin? {
      JoinProgress(s);
    }
  }

  lemma {:induction false} JoinRun(s: State) returns (moves: seq<Move>, s': State)
    requires Inv(s) && Quiet(s) && Notified(s) && NoneDoomed(s)
    ensures OnlyActs(moves) && Runs(s, moves, s') && s'.destroyer.DDone?
    decreases Measure(s)
  {
    if s.destroyer.DDone? {
      moves, s' := [], s;
    } else {
      JoinProgress(s);
      var t: Thread :| Enabled(s, t);
      var m := Act(t, 0);
      MoveInv(s, m);
      NoneDoomedStays(s, m);
      ActMeasure(s, m);
      var rest;
      rest, s' := JoinRun(Apply(s, m));
      moves := RunsAfter(s, m, rest, s');
    }
  }

  /** The state right after the notify_all of the destructor. */
  lemma {:induction false} AfterNotify(s: State)
    requires Inv(s) && Quiet(s) && s.destroyer.DNotify?
    ensures var n := DestroyStep(s);
            Inv(n) && Quiet(n) && Notified(n) && (InGap(s) <==> !NoneDoomed(n))
  {
    var n := DestroyStep(s);
    assert n == Apply(s, Act(D, 0));
    MoveInv(s, Act(D, 0));
    if InGap(s) {
      var w :| 0 <= w < |s.workers| && Gap(s, s.workers[w]);
      assert Doomed(n, n.workers[w]);
    } else {
      forall w | 0 <= w < |n.workers| ensures !Doomed(n, n.workers[w]) {
        assert !Gap(s, s.workers[w]);
      }
    }
  }

  /** Some run from `n` ends with the workers joined, and needs no spurious wake-up for it. */
  ghost predicate MayReturn(n: State) {
    exists moves, s' :: OnlyActs(moves) && Runs(n, moves, s') && s'.destroyer.DDone?
  }

  /** Every run from `n` that comes to a stop, with spurious wake-ups or without, ends with the workers joined. */
  ghost predicate MustReturn(n: State) {
    forall moves, s' :: NoCalls(moves) && Runs(n, moves, s') && Stopped(s') ==> s'.destroyer.DDone?
  }

  /** The same for the runs without spurious wake-ups. */
  ghost predicate MustReturnUnlessWoken(n: State) {
    forall moves, s' :: OnlyActs(moves) && Runs(n, moves, s') && Stopped(s') ==> s'.destroyer.DDone?
  }

  ghost predicate Stopped(s: State) {
    forall t: Thread :: !Enabled(s, t)
  }

  /** A run to a stop, without spurious wake-ups, in which the destructor does not return. */
  ghost predicate Hangs(s: State, moves: seq<Move>, s': State) {
    OnlyActs(moves) && Runs(s, moves, s') && Stopped(s') && !s'.destroyer.DDone?
  }

  lemma {:induction false} OneHangs(s: State, moves: seq<Move>, s': State)
    requires Hangs(s, moves, s')
    ensures !MustReturn(s) && !MustReturnUnlessWoken(s)
  {
    assert NoCalls(moves);
  }

  lemma {:induction false} ReturnsWithoutGap(n: State)
    requires Inv(n) && Quiet(n) && Notified(n) && NoneDoomed(n)
    ensures MayReturn(n) && MustReturn(n)
  {
    var moves, s' := JoinRun(n);
    forall moves, s' | NoCalls(moves) && Runs(n, moves, s') && Stopped(s') ensures s'.destroyer.DDone? {
      AlwaysJoins(n, moves, s');
    }
  }

  lemma {:induction false} HangsInGap(n: State)
    requires Inv(n) && Quiet(n) && Notified(n) && !NoneDoomed(n)
    ensures !MayReturn(n) && !MustReturn(n)
  {
    var w :| 0 <= w < |n.workers| && Doomed(n, n.workers[w]);
    forall moves, s' | OnlyActs(moves) && Runs(n, moves, s') ensures !s'.destroyer.DDone? {
      NeverJoins(n, moves, s', w);
    }
    var moves, s' := HangingRun(n);
    OneHangs(n, moves, s');
  }

  /** At the notify_all it is decided: with no worker in the gap between its predicate and the wait set every
      run returns, whatever wakes up spuriously; otherwise no run does, unless a spurious wake-up saves it. */
  lemma {:induction false} DestructorReturnsIffNoGap(s: State)
    requires Inv(s) && Quiet(s) && s.destroyer.DNotify?
    ensures MustReturn(DestroyStep(s)) <==> !InGap(s)
    ensures MayReturn(DestroyStep(s)) <==> !InGap(s)
  {
    AfterNotify(s);
    if InGap(s) {
      HangsInGap(DestroyStep(s));
    } else {
      ReturnsWithoutGap(DestroyStep(s));
    }
  }

  /** Every run after the notify_all comes to a stop. */
  lemma {:induction false} StuckRun(s: State) returns (moves: seq<Move>, s': State)
    requires Inv(s) && Quiet(s) && Notified(s)
    ensures OnlyActs(moves) && Runs(s, moves, s') && forall t: Thread :: !Enabled(s', t)
    decreases Measure(s)
  {
    if t: Thread :| Enabled(s, t) {
      var m := Act(t, 0);
      MoveInv(s, m);
      ActMeasure(s, m);
      QuietStays(s, m);
      var rest;
      rest, s' := StuckRun(Apply(s, m));
      moves := RunsAfter(s, m, rest, s');
    } else {
      moves, s' := [], s;
    }
  }

  lemma {:induction false} QuietStays(s: State, m: Move)
    requires Quiet(s) && Notified(s) && m.Act? && Allowed(s, m)
    ensures Quiet(Apply(s, m)) && Notified(Apply(s, m))
  {}

  // ----- when the destructor is called -----

  ghost predicate AllAsleep(s: State) {
    forall w | 0 <= w < |s.workers| :: s.workers[w].WAsleep?
  }

  /** The destructor has been called and has not stored stop_ yet. */
  ghost predicate AtEntry(s: State) {
    Inv(s) && Quiet(s) && s.destroyer.DStore?
  }

  lemma {:induction false} RunsThen(s: State, a: seq<Move>, s': State, b: seq<Move>, s'': State)
    requires Runs(s, a, s') && Runs(s', b, s'')
    ensures Runs(s, a + b, s'')
    decreases |a|
  {
    if a == [] {
      assert a + b == b;
    } else {
      RunsThen(Apply(s, a[0]), a[1..], s', b, s'');
      assert (a + b)[1..] == a[1..] + b;
    }
  }

  /** While some worker is awake, some worker that is awake can act. */
  lemma {:induction false} AwakeMoves(s: State, w: nat) returns (i: nat)
    requires AtEntry(s) && w < |s.workers| && !s.workers[w].WAsleep?
    ensures Enabled(s, W(i))
  {
    i := w;
    assert WorkerFits(s, s.workers[w]);
    if s.mtx.Some? {
      OwnerMoves(s);
      assert InLock(s, s.mtx.value);
      i := s.mtx.value.i;
    }
  }

  lemma {:induction false} WorkerAtEntry(s: State, i: nat)
    requires AtEntry(s) && Enabled(s, W(i))
    ensures AtEntry(Apply(s, Act(W(i), 0))) && 0 <= Measure(Apply(s, Act(W(i), 0))) < Measure(s)
  {
    MoveInv(s, Act(W(i), 0));
    ActMeasure(s, Act(W(i), 0));
  }

  /** A worker goes to sleep only from the gap. */
  lemma {:induction false} StaysAwake(s: State, i: nat)
    requires Enabled(s, W(i)) && !InGap(s)
    ensures !WorkerStep(s, i).workers[i].WAsleep?
  {
    assert !Gap(s, s.workers[i]);
  }

  /** Before stop_ is stored, the workers can run on until one of them is in the gap, unless all sleep. */
  lemma {:induction false} ReachGap(s: State, w: nat) returns (moves: seq<Move>, s': State)
    requires AtEntry(s) && w < |s.workers| && !s.workers[w].WAsleep?
    ensures OnlyActs(moves) && Runs(s, moves, s') && AtEntry(s') && InGap(s')
    decreases Measure(s)
  {
    if InGap(s) {
      moves, s' := [], s;
    } else {
      var i := AwakeMoves(s, w);
      var m := Act(W(i), 0);
      WorkerAtEntry(s, i);
      StaysAwake(s, i);
      var rest;
      rest, s' := ReachGap(Apply(s, m), i);
      moves := RunsAfter(s, m, rest, s');
    }
  }

  lemma {:induction false} RunsAfter(s: State, m: Move, rest: seq<Move>, s': State) returns (moves: seq<Move>)
    requires m.Act? && Allowed(s, m) && OnlyActs(rest) && Runs(Apply(s, m), rest, s')
    ensures moves == [m] + rest && OnlyActs(moves) && Runs(s, moves, s')
  {
    moves := [m] + rest;
    assert moves[1..] == rest;
  }

  /** They can also run on until all sleep. */
  lemma {:induction false} ReachSleep(s: State) returns (moves: seq<Move>, s': State)
    requires AtEntry(s)
    ensures OnlyActs(moves) && Runs(s, moves, s') && AtEntry(s') && AllAsleep(s')
    decreases Measure(s)
  {
    if w: nat :| w < |s.workers| && !s.workers[w].WAsleep? {
      var i := AwakeMoves(s, w);
      var m := Act(W(i), 0);
      WorkerAtEntry(s, i);
      var rest;
      rest, s' := ReachSleep(Apply(s, m));
      moves := RunsAfter(s, m, rest, s');
    } else {
      moves, s' := [], s;
    }
  }

  /** The store of stop_ and the notify_all, with nothing in between. */
  lemma {:induction false} StoreAndNotify(s: State) returns (n: State)
    requires AtEntry(s)
    ensures Runs(s, [Act(D, 0), Act(D, 0)], n)
    ensures Inv(n) && Quiet(n) && Notified(n) && (InGap(s) <==> !NoneDoomed(n))
  {
    var stored := Apply(s, Act(D, 0));
    MoveInv(s, Act(D, 0));
    AfterNotify(stored);
    n := Apply(stored, Act(D, 0));
    assert forall w | 0 <= w < |s.workers| :: Gap(stored, stored.workers[w]) <==> Gap(s, s.workers[w]);
    assert [Act(D, 0), Act(D, 0)][1..] == [Act(D, 0)];
    assert Runs(stored, [Act(D, 0)], n);
  }

  /** The run `a`, the store, the notify_all, the run `b`. */
  lemma {:induction false} AroundNotify(s: State, a: seq<Move>, s1: State, n: State, b: seq<Move>, s2: State)
      returns (moves: seq<Move>)
    requires OnlyActs(a) && Runs(s, a, s1)
    requires Runs(s1, [Act(D, 0), Act(D, 0)], n)
    requires OnlyActs(b) && Runs(n, b, s2)
    ensures OnlyActs(moves) && Runs(s, moves, s2)
  {
    RunsThen(s1, [Act(D, 0), Act(D, 0)], n, b, s2);
    RunsThen(s, a, s1, [Act(D, 0), Act(D, 0)] + b, s2);
    moves := a + ([Act(D, 0), Act(D, 0)] + b);
  }

  lemma {:induction false} HangingRun(n: State) returns (b: seq<Move>, s: State)
    requires Inv(n) && Quiet(n) && Notified(n) && !NoneDoomed(n)
    ensures Hangs(n, b, s)
  {
    var w :| 0 <= w < |n.workers| && Doomed(n, n.workers[w]);
    b, s := StuckRun(n);
    NeverJoins(n, b, s, w);
  }

  /** Some run hangs: into the gap, past the store and the notify_all, and on until nobody can act. */
  lemma {:induction false} AwakeMayHang(s: State, w: nat) returns (moves: seq<Move>, s': State)
    requires AtEntry(s) && w < |s.workers| && !s.workers[w].WAsleep?
    ensures Hangs(s, moves, s')
  {
    var a, s1 := ReachGap(s, w);
    var n := StoreAndNotify(s1);
    var b;
    b, s' := HangingRun(n);
    moves := AroundNotify(s, a, s1, n, b, s');
  }

  lemma {:induction false} SomeRunReturns(s: State)
    requires AtEntry(s)
    ensures MayReturn(s)
  {
    var a, s1 := ReachSleep(s);
    var n := StoreAndNotify(s1);
    var b, s2 := JoinRun(n);
    var moves := AroundNotify(s, a, s1, n, b, s2);
  }

  /** Even with all workers asleep: one of them wakes spuriously before stop_ is stored and goes into the gap. */
  lemma {:induction false} NapMayHang(s: State)
    requires AtEntry(s) && AllAsleep(s)
    ensures !MustReturn(s)
  {
    MoveInv(s, Nap(0));
    var rest, s' := AwakeMayHang(Apply(s, Nap(0)), 0);
    var moves := [Nap(0)] + rest;
    assert NoCalls(moves) && Runs(s, moves, s');
  }

  /** No state of the pool, when the destructor is called, guarantees that it returns: some run returns, and some
      run comes to a stop in which it has not. */
  lemma {:induction false} DestructorMayHang(s: State)
    requires AtEntry(s)
    ensures MayReturn(s) && !MustReturn(s)
  {
    SomeRunReturns(s);
    if w: nat :| w < |s.workers| && !s.workers[w].WAsleep? {
      var moves, s' := AwakeMayHang(s, w);
      OneHangs(s, moves, s');
    } else {
      NapMayHang(s);
    }
  }

  /** With all workers asleep the destructor alone can act, and it wakes them all. */
  lemma {:induction false} AsleepReturns(s: State, moves: seq<Move>, s': State)
    requires AtEntry(s) && AllAsleep(s)
    requires OnlyActs(moves) && Runs(s, moves, s') && Stopped(s')
    ensures s'.destroyer.DDone?
  {
    assert Enabled(s, D);
    var stored := Apply(s, moves[0]);
    assert moves[0].t.D?;
    MoveInv(s, moves[0]);
    assert Enabled(stored, D);
    var rest := moves[1..];
    assert rest[0].t.D?;
    AfterNotify(stored);
    AlwaysJoins(Apply(stored, rest[0]), rest[1..], s');
  }

  /** If no wake-up is spurious, every run returns if and only if all workers are in the wait set when the
      destructor is called. */
  lemma {:induction false} DestructorReturnsIffAllAsleep(s: State)
    requires AtEntry(s)
    ensures MustReturnUnlessWoken(s) <==> AllAsleep(s)
  {
    if w: nat :| w < |s.workers| && !s.workers[w].WAsleep? {
      var moves, s' := AwakeMayHang(s, w);
      OneHangs(s, moves, s');
    } else {
      forall moves, s' | OnlyActs(moves) && Runs(s, moves, s') && Stopped(s') ensures s'.destroyer.DDone? {
        AsleepReturns(s, moves, s');
      }
    }
  }

  function Sleeps(w: Worker): int {
    if w.WAsleep? then 1 else 0
  }

  lemma {:induction false} NapLeavesFewer(s: State, w: nat)
    requires Inv(s) && w < |s.workers| && s.workers[w].WAsleep?
    ensures var s' := Apply(s, Nap(w)); Inv(s') && 0 <= Sum(s'.workers, Sleeps) < Sum(s.workers, Sleeps)
  {
    MoveInv(s, Nap(w));
    SumUpdate(s.workers, Sleeps, w, WWoken);
    SumNonNegative(Apply(s, Nap(w)).workers, Sleeps);
  }

  /** Spurious wake-ups can reach every sleeper. */
  lemma {:induction false} WakeSleepers(s: State) returns (naps: seq<Move>, s': State)
    requires Inv(s) && Quiet(s) && Notified(s)
    requires forall w | 0 <= w < |s.workers| :: !Gap(s, s.workers[w])
    ensures NoCalls(naps) && Runs(s, naps, s')
    ensures Inv(s') && Quiet(s') && Notified(s') && NoneDoomed(s')
    decreases Sum(s.workers, Sleeps)
  {
    if w: nat :| w < |s.workers| && s.workers[w].WAsleep? {
      NapLeavesFewer(s, w);
      var rest;
      rest, s' := WakeSleepers(Apply(s, Nap(w)));
      naps := [Nap(w)] + rest;
    } else {
      naps, s' := [], s;
    }
  }

  /** A destructor that hangs can still be saved by spurious wake-ups. */
  lemma {:induction false} NapsRescue(s: State) returns (moves: seq<Move>, s': State)
    requires Inv(s) && Quiet(s) && Notified(s) && Stopped(s)
    ensures NoCalls(moves) && Runs(s, moves, s') && s'.destroyer.DDone?
  {
    if s.mtx.Some? {
      OwnerMoves(s);
    }
    forall w | 0 <= w < |s.workers| ensures !Gap(s, s.workers[w]) {
      assert !Enabled(s, W(w));
    }
    var naps, woken := WakeSleepers(s);
    var b;
    b, s' := JoinRun(woken);
    RunsThen(s, naps, woken, b, s');
    moves := naps + b;
  }

  /** The bad moment can be reached in a pool of any size: the destructor is called at once, and runs on when
      some worker has looked at stop_ and at the queue. */
  lemma {:induction false} GapIsReachable(workers: nat, submitters: nat) returns (moves: seq<Move>, s: State)
    ensures Runs(Init(workers, submitters), moves, s)
    ensures Inv(s) && Quiet(s) && s.destroyer.DNotify? && InGap(s)
  {
    var start := Init(workers, submitters);
    InitInv(workers, submitters);
    MoveInv(start, Destroy);
    var called := Apply(start, Destroy);
    var a, s1 := ReachGap(called, 0);
    s := Apply(s1, Act(D, 0));
    MoveInv(s1, Act(D, 0));
    var w :| 0 <= w < |s1.workers| && Gap(s1, s1.workers[w]);
    assert Gap(s, s.workers[w]);
    assert Runs(s1, [Act(D, 0)], s);
    RunsThen(called, a, s1, [Act(D, 0)], s);
    moves := [Destroy] + (a + [Act(D, 0)]);
  }

  // ----- the pool object -----

  /** Some thread can act. */
  predicate Busy(s: State) {
    || (exists i: nat :: i < |s.workers| && Enabled(s, W(i)))
    || (exists i: nat :: i < |s.subs| && Enabled(s, S(i)))
    || Enabled(s, D)
  }

  lemma {:induction false} IdleIsStopped(s: State)
    requires !Busy(s)
    ensures Stopped(s)
  {
    forall t: Thread ensures !Enabled(s, t) {
      match t
      case W(i) => assert i < |s.workers| ==> !Enabled(s, W(i));
      case S(i) => assert i < |s.subs| ==> !Enabled(s, S(i));
      case D =>
    }
  }

  lemma {:induction false} SomebodyBusy(s: State)
    requires exists t: Thread :: Enabled(s, t)
    ensures Busy(s)
  {
    var t: Thread :| Enabled(s, t);
    match t
    case W(i) => assert i < |s.workers|;
    case S(i) => assert i < |s.subs|;
    case D =>
  }

  class ThreadPool {
    var mtx: Option<Thread>
    var tasks: seq<nat>
    var stop: bool
    var workers: seq<Worker>
    var subs: seq<Submitter>
    var destroyer: Destroyer
    // history
    var takenBy: seq<nat>
    var runs: seq<nat>

    function View(): State
      reads this
    {
      State(mtx, tasks, stop, workers, subs, destroyer, takenBy, runs)
    }

    constructor (numThreads: nat, submitters: nat)
      ensures View() == Init(numThreads, submitters)
    {
      mtx, tasks, stop, destroyer, takenBy, runs := None, [], false, DIdle, [], [];
      var n := if numThreads == 0 then 1 else numThreads;
      workers, subs := seq(n, _ => WLock), seq(submitters, _ => SIdle);
    }

    /** The next action of a worker in its loop. */
    method WorkerTurn(i: nat)
      requires Enabled(View(), W(i)) && TasksFit(View())
      modifies this
      ensures View() == WorkerStep(old(View()), i)
    {
      match workers[i] {
        case WLock => mtx, workers := Some(W(i)), workers[i := WStop1];
        case WWoken => mtx, workers := Some(W(i)), workers[i := WStop1];
        case WStop1 => workers := workers[i := if stop then WStop2 else WEmpty1];
        case WEmpty1 => workers := workers[i := if tasks != [] then WStop2 else WGap];
        case WGap => mtx, workers := None, workers[i := WAsleep];
        case WStop2 => workers := workers[i := if stop then WEmpty2 else WTake];
        case WEmpty2 => workers := workers[i := if tasks == [] then WUnlockExit else WTake];
        case WTake =>
          if tasks == [] {
            workers := workers[i := WUndefined];
          } else {
            workers, takenBy, tasks := workers[i := WUnlock(tasks[0])], takenBy + [i], tasks[1..];
          }
        case WUnlock(task) => mtx, workers := None, workers[i := WRun(task)];
        case WRun(task) =>
          assert InHand(workers[i]) == Some(task);
          runs, workers := runs[task := runs[task] + 1], workers[i := WLock];
        case WUnlockExit => mtx, workers := None, workers[i := WExit];
      }
    }

    /** The next action of a thread inside submit. */
    method SubmitTurn(i: nat, pick: nat)
      requires Enabled(View(), S(i))
      modifies this
      ensures View() == SubmitStep(old(View()), i, pick)
    {
      match subs[i] {
        case SLock => mtx, subs := Some(S(i)), subs[i := SCheck];
        case SCheck => subs := subs[i := if stop then SUnlockThrow else SPush];
        case SUnlockThrow => mtx, subs := None, subs[i := SThrew];
        case SPush => tasks, runs, subs := tasks + [|runs|], runs + [0], subs[i := SUnlock];
        case SUnlock => mtx, subs := None, subs[i := SNotify];
        case SNotify =>
          if pick < |workers| && workers[pick].WAsleep? {
            workers := workers[pick := WWoken];
          }
          subs := subs[i := SAccepted];
      }
    }

    /** The next action of the destructor. */
    method DestroyTurn()
      requires Enabled(View(), D)
      modifies this
      ensures View() == DestroyStep(old(View()))
    {
      match destroyer {
        case DStore => stop, destroyer := true, DNotify;
        case DNotify =>
          NotifyAll();
          destroyer := DJoin(|workers|);
        case DJoin(l) => destroyer := if l == 0 then DDone else DJoin(l - 1);
      }
    }

    method NotifyAll()
      modifies this`workers
      ensures |workers| == |old(workers)| && forall w | 0 <= w < |workers| :: workers[w] == Wake(old(workers)[w])
    {
      var i := 0;
      while i < |workers|
        invariant i <= |workers| == |old(workers)|
        invariant forall w | 0 <= w < |workers| ::
                    workers[w] == if w < i then Wake(old(workers)[w]) else old(workers)[w]
      {
        workers := workers[i := Wake(workers[i])];
        i := i + 1;
      }
    }

    /** Some thread that can act, and the sleeper that a notify_one of it would wake. */
    method Choose() returns (t: Thread, pick: nat)
      requires Busy(View())
      ensures Allowed(View(), Act(t, pick))
    {
      pick := 0;
      if w: nat :| w < |workers| && workers[w].WAsleep? {
        pick := w;
      }
      if
      case i: nat :| i < |workers| && Enabled(View(), W(i)) => t := W(i);
      case i: nat :| i < |subs| && Enabled(View(), S(i)) => t := S(i);
      case Enabled(View(), D) => t := D;
    }

    method Turn(t: Thread, pick: nat)
      requires Inv(View()) && Allowed(View(), Act(t, pick))
      modifies this
      ensures View() == Apply(old(View()), Act(t, pick))
      ensures Inv(View()) && Measure(View()) < old(Measure(View()))
    {
      MoveInv(View(), Act(t, pick));
      ActMeasure(View(), Act(t, pick));
      match t
      case W(i) => WorkerTurn(i);
      case S(i) => SubmitTurn(i, pick);
      case D => DestroyTurn();
    }

    /** A new submit, the call of the destructor, a spurious wake-up, or none of them. */
    method Extra()
      requires Inv(View()) && Attended(View())
      modifies this
      ensures Inv(View()) && Attended(View())
    {
      ghost var s := View();
      if
      case i: nat :| i < |subs| && Outside(subs[i]) =>
        subs := subs[i := SLock];
        MoveInv(s, Submit(i));
        MoveAttends(s, Submit(i));
      case destroyer.DIdle? =>
        destroyer := DStore;
        MoveInv(s, Destroy);
        MoveAttends(s, Destroy);
      case w: nat :| w < |workers| && workers[w].WAsleep? =>
        workers := workers[w := WWoken];
        MoveInv(s, Nap(w));
        MoveAttends(s, Nap(w));
      case true =>
    }

    /** Runs the pool under an arbitrary scheduler, with up to `extra` new calls and spurious wake-ups at
        arbitrary moments, until nobody can act: every task that was accepted has then run exactly once. */
    method Run(extra: nat)
      requires Inv(View()) && Attended(View())
      modifies this
      ensures Inv(View()) && Stopped(View())
      ensures tasks == [] && forall k | 0 <= k < |runs| :: runs[k] == 1
      ensures forall i | 0 <= i < |subs| :: Outside(subs[i])
    {
      var left := extra;
      while 0 < left || Busy(View())
        invariant Inv(View()) && Attended(View())
        decreases left, Measure(View())
      {
        MeasureNonNegative(View());
        var more: bool := *;
        if 0 < left && (more || !Busy(View())) {
          Extra();
          left := left - 1;
        } else {
          var t, pick := Choose();
          MoveAttends(View(), Act(t, pick));
          Turn(t, pick);
        }
      }
      IdleIsStopped(View());
      StoppedIdle(View());
    }

    /** The destructor from its notify_all on, with no worker in the gap: it returns under every scheduler, and
        there is nobody left to wake spuriously. */
    method NotifyAndJoin()
      requires Inv(View()) && Quiet(View()) && destroyer.DNotify? && !InGap(View())
      modifies this
      ensures destroyer.DDone? && tasks == [] && forall k | 0 <= k < |runs| :: runs[k] == 1
    {
      AfterNotify(View());
      DestroyTurn();
      while !destroyer.DDone?
        invariant Inv(View()) && Quiet(View()) && Notified(View()) && NoneDoomed(View())
        invariant forall w | 0 <= w < |workers| :: !workers[w].WAsleep?
        decreases Measure(View())
      {
        MeasureNonNegative(View());
        JoinProgress(View());
        SomebodyBusy(View());
        var t, pick := Choose();
        NoneDoomedStays(View(), Act(t, pick));
        Turn(t, pick);
        assert forall w | 0 <= w < |workers| :: !Doomed(View(), workers[w]);
      }
      assert WorkerFits(View(), workers[0]);
    }

    /** The whole destructor of a pool whose workers all sleep, where no worker wakes spuriously before the
        notify_all. */
    method Close()
      requires AtEntry(View()) && AllAsleep(View())
      modifies this
      ensures destroyer.DDone? && tasks == [] && forall k | 0 <= k < |runs| :: runs[k] == 1
    {
      MoveInv(View(), Act(D, 0));
      DestroyTurn();
      NotifyAndJoin();
    }
  }
}

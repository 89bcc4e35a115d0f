/** The coroutine benchmarks of src/bench_coroutines.cpp: one thread launches tasks and waits for them, the
    timer worker resumes the ones that suspended, and the timer service is destroyed at the end.

    Every task has one co_await in the middle. It either suspends and schedules its handle, or (await_ready)
    goes on at once on the launching thread. */
module Coroutines {
  import opened Tally
  import T = TimerServices

  datatype Kind = Cpu | Io(duration: int) | Mixed(duration: int)

  /** The delay the co_await schedules, if it suspends: YieldAwaiter always does, IoAwaiter only for a positive
      duration. */
  function Delay(kind: Kind): Option<int> {
    match kind
    case Cpu => Some(0)
    case _ => if kind.duration <= 0 then None else Some(kind.duration)
  }

  datatype Caller =
    | Launch(i: nat)               // the loop that creates and resumes task i
    | First(i: nat)                // in task i, before its co_await
    | Suspend(i: nat)              // in await_suspend of task i, that is, inside schedule
    | Second(i: nat)               // in task i, after a co_await that did not suspend
    | Store(i: nat)                // in final_suspend of task i
    | Scan(k: nat)                 // in wait_all, about to load flag k
    | Returned | Destroying | Finished

  datatype State = State(
    timer: T.State, caller: Caller, flags: seq<bool>,
    // history: the bodies that have ended, and the timer entry of each task that suspended
    ended: seq<bool>, entry: seq<Option<nat>>)

  function Init(tasks: nat, now: int): State {
    State(T.Init(1, now), Launch(0), seq(tasks, _ => false), seq(tasks, _ => false), seq(tasks, _ => None))
  }

  datatype Move = CallerAct | WorkerAct(pick: nat) | Rescan | Nap | Tick(now: int)

  predicate Sized(s: State, kinds: seq<Kind>) {
    |s.flags| == |s.ended| == |s.entry| == |kinds| && |s.timer.clients| == 1
  }

  /** The task whose handle the worker is running. */
  function Running(s: State): Option<nat> {
    if s.timer.worker.RResume? && s.timer.worker.id < |s.timer.pushed| then
      Some(s.timer.pushed[s.timer.worker.id].handle)
    else None
  }

  predicate Allowed(s: State, m: Move, kinds: seq<Kind>)
    requires Sized(s, kinds)
  {
    match m
    case CallerAct =>
      (match s.caller
       case Launch(i) => i <= |kinds|
       case First(i) => i < |kinds| && s.timer.clients[0].CIdle?
       case Suspend(i) => i < |kinds| && (s.timer.clients[0].CIdle? || T.Enabled(s.timer, T.C(0)))
       case Second(i) => i < |kinds|
       case Store(i) => i < |kinds|
       case Scan(k) => k < |kinds| ==> s.flags[k]
       case Returned => s.timer.destroyer.DIdle?
       case Destroying => s.timer.destroyer.DDone? || T.Enabled(s.timer, T.D)
       case Finished => false)
    case WorkerAct(pick) => T.Allowed(s.timer, T.Act(T.R, pick))
    case Rescan => s.caller.Scan? && s.caller.k < |kinds| && !s.flags[s.caller.k]
    case Nap => T.Allowed(s.timer, T.Nap)
    case Tick(now) => T.Allowed(s.timer, T.Tick(now))
  }

  function CallerStep(s: State, kinds: seq<Kind>): State
    requires Sized(s, kinds) && Allowed(s, CallerAct, kinds)
  {
    match s.caller
    case Launch(i) => s.(caller := if i < |kinds| then First(i) else Scan(0))
    case First(i) =>
      (match Delay(kinds[i])
       case None => s.(caller := Second(i))
       case Some(d) => s.(timer := T.Apply(s.timer, T.Schedule(0, d, i)), caller := Suspend(i)))
    case Suspend(i) =>
      if s.timer.clients[0].CIdle? then s.(caller := Launch(i + 1))
      else s.(timer := T.Apply(s.timer, T.Act(T.C(0), 0)),
              entry := if s.timer.clients[0].CPush? then s.entry[i := Some(|s.timer.pushed|)] else s.entry)
    case Second(i) => s.(ended := s.ended[i := true], caller := Store(i))
    case Store(i) => s.(flags := s.flags[i := true], caller := Launch(i + 1))
    case Scan(k) => s.(caller := if k < |kinds| then Scan(k + 1) else Returned)
    case Returned => s.(timer := T.Apply(s.timer, T.Destroy), caller := Destroying)
    case Destroying =>
      if s.timer.destroyer.DDone? then s.(caller := Finished)
      else s.(timer := T.Apply(s.timer, T.Act(T.D, 0)))
    case Finished => s
  }

  /** The worker: inside a resumed handle the body ends, then final_suspend stores the flag, then resume
      returns; everything else is the loop of the timer service. */
  function WorkerStep(s: State, pick: nat, kinds: seq<Kind>): State
    requires Sized(s, kinds) && Allowed(s, WorkerAct(pick), kinds)
  {
    var run := Running(s);
    if run.Some? && run.value < |kinds| && !s.ended[run.value] then s.(ended := s.ended[run.value := true])
    else if run.Some? && run.value < |kinds| && !s.flags[run.value] then s.(flags := s.flags[run.value := true])
    else s.(timer := T.Apply(s.timer, T.Act(T.R, pick)))
  }

  function Apply(s: State, m: Move, kinds: seq<Kind>): State
    requires Sized(s, kinds) && Allowed(s, m, kinds)
  {
    match m
    case CallerAct => CallerStep(s, kinds)
    case WorkerAct(pick) => WorkerStep(s, pick, kinds)
    case Rescan => s.(caller := Scan(0))
    case Nap => s.(timer := T.Apply(s.timer, T.Nap))
    case Tick(now) => s.(timer := T.Apply(s.timer, T.Tick(now)))
  }

  ghost predicate Runs(s: State, moves: seq<Move>, s': State, kinds: seq<Kind>)
    decreases |moves|
  {
    if moves == [] then s == s'
    else Sized(s, kinds) && Allowed(s, moves[0], kinds) && Runs(Apply(s, moves[0], kinds), moves[1..], s', kinds)
  }

  // ----- where a task is -----

  /** The task runs on the launching thread; it leaves when its entry is pushed. */
  predicate OnCaller(s: State, j: nat) {
    || s.caller == First(j) || s.caller == Second(j) || s.caller == Store(j)
    || (s.caller == Suspend(j) && s.timer.clients != [] && (s.timer.clients[0].CLock? || s.timer.clients[0].CPush?))
  }

  ghost predicate InHeap(s: State, j: nat) {
    exists id :: id in s.timer.heap && id < |s.timer.pushed| && s.timer.pushed[id].handle == j
  }

  predicate OnWorker(s: State, j: nat) {
    && T.InHand(s.timer.worker).Some?
    && var id := T.InHand(s.timer.worker).value;
       id < |s.timer.pushed| && s.timer.pushed[id].handle == j
  }

  /** Tasks below this one have been started and have left the launching thread. */
  function Launched(s: State, n: nat): nat {
    match s.caller
    case Launch(i) => i
    case First(i) => i
    case Suspend(i) => i
    case Second(i) => i
    case Store(i) => i
    case _ => n
  }

  // ----- the invariant -----

  ghost predicate CallerFits(s: State, kinds: seq<Kind>)
    requires Sized(s, kinds)
  {
    var client := s.timer.clients[0];
    && (s.caller.Destroying? || s.caller.Finished? <==> !s.timer.destroyer.DIdle?)
    && match s.caller
       case Launch(i) => i <= |kinds| && client.CIdle?
       case First(i) => i < |kinds| && client.CIdle? && s.entry[i].None? && !s.ended[i]
       case Suspend(i) =>
         && i < |kinds| && Delay(kinds[i]).Some?
         && (if client.CLock? || client.CPush? then s.entry[i].None? && !s.ended[i] && client.handle == i
             else s.entry[i].Some?)
       case Second(i) => i < |kinds| && client.CIdle? && Delay(kinds[i]).None? && s.entry[i].None? && !s.ended[i]
       case Store(i) => i < |kinds| && client.CIdle? && Delay(kinds[i]).None? && s.entry[i].None? && s.ended[i]
                        && !s.flags[i]
       case Scan(k) => k <= |kinds| && client.CIdle? && forall j | 0 <= j < k :: s.flags[j]
       case Finished => client.CIdle? && (forall j | 0 <= j < |kinds| :: s.flags[j]) && s.timer.destroyer.DDone?
       case _ => client.CIdle? && forall j | 0 <= j < |kinds| :: s.flags[j]
  }

  /** Entries and tasks refer to each other. */
  ghost predicate EntriesFit(s: State, kinds: seq<Kind>)
    requires Sized(s, kinds)
  {
    && (forall j | 0 <= j < |kinds| && s.entry[j].Some? ::
          s.entry[j].value < |s.timer.pushed| && s.timer.pushed[s.entry[j].value].handle == j)
    && (forall id | 0 <= id < |s.timer.pushed| ::
          var h := s.timer.pushed[id].handle; h < |kinds| && s.entry[h] == Some(id))
  }

  /** The flags of one task: it has not been started; or it never suspended; or its entry tells. */
  ghost predicate TaskFits(s: State, kinds: seq<Kind>, j: nat)
    requires Sized(s, kinds) && j < |kinds|
  {
    && (s.flags[j] ==> s.ended[j])
    && match s.entry[j]
       case None =>
         if j < Launched(s, |kinds|) then s.flags[j] && Delay(kinds[j]).None?
         else !s.flags[j] && (s.ended[j] ==> s.caller == Store(j))
       case Some(id) =>
         && (j < Launched(s, |kinds|) || s.caller == Suspend(j)) && Delay(kinds[j]).Some?
         && (id in s.timer.heap || s.timer.worker == T.RUnlockRun(id) ==> !s.ended[j])
         && (id < |s.timer.resumes| && s.timer.resumes[id] == 1 ==> s.flags[j])
  }

  ghost predicate Inv(s: State, kinds: seq<Kind>) {
    && Sized(s, kinds)
    && T.Inv(s.timer)
    && CallerFits(s, kinds)
    && EntriesFit(s, kinds)
    && forall j | 0 <= j < |kinds| :: TaskFits(s, kinds, j)
  }

  lemma {:induction false} InitInv(kinds: seq<Kind>, now: int)
    ensures Inv(Init(|kinds|, now), kinds)
  {
    T.InitInv(1, now);
  }

  /** Every move does to the timer service what one of its own moves does, or leaves it alone. */
  lemma {:induction false} TimerMoves(s: State, m: Move, kinds: seq<Kind>)
    requires Inv(s, kinds) && Allowed(s, m, kinds)
    ensures T.Inv(Apply(s, m, kinds).timer) && Sized(Apply(s, m, kinds), kinds)
  {
    var s' := Apply(s, m, kinds);
    match m {
      case CallerAct =>
        match s.caller {
          case First(i) =>
            if Delay(kinds[i]).Some? {
              T.MoveInv(s.timer, T.Schedule(0, Delay(kinds[i]).value, i));
            }
          case Suspend(i) =>
            if !s.timer.clients[0].CIdle? {
              T.MoveInv(s.timer, T.Act(T.C(0), 0));
            }
          case Returned => T.MoveInv(s.timer, T.Destroy);
          case Destroying =>
            if !s.timer.destroyer.DDone? {
              T.MoveInv(s.timer, T.Act(T.D, 0));
            }
          case _ =>
        }
      case WorkerAct(pick) => T.MoveInv(s.timer, T.Act(T.R, pick));
      case Rescan =>
      case Nap => T.MoveInv(s.timer, T.Nap);
      case Tick(now) => T.MoveInv(s.timer, T.Tick(now));
    }
  }

  lemma {:induction false} CallerKeepsRole(s: State, kinds: seq<Kind>)
    requires Inv(s, kinds) && Allowed(s, CallerAct, kinds)
    ensures var s' := CallerStep(s, kinds); Sized(s', kinds) && CallerFits(s', kinds)
  {
    var l := Launched(s, |kinds|);
    if l < |kinds| {
      assert TaskFits(s, kinds, l);
    }
  }

  /** Task `i`, which has no entry yet, gets the next one. */
  lemma {:induction false} NewEntry(s: State, s': State, i: nat, e: T.Entry, kinds: seq<Kind>)
    requires Sized(s, kinds) && Sized(s', kinds) && EntriesFit(s, kinds)
    requires i < |kinds| && s.entry[i].None? && e.handle == i
    requires s'.entry == s.entry[i := Some(|s.timer.pushed|)] && s'.timer.pushed == s.timer.pushed + [e]
    ensures EntriesFit(s', kinds)
  {}

  lemma {:induction false} CallerKeepsEntries(s: State, kinds: seq<Kind>)
    requires Inv(s, kinds) && Allowed(s, CallerAct, kinds)
    ensures var s' := CallerStep(s, kinds); Sized(s', kinds) && EntriesFit(s', kinds)
  {
    var s' := CallerStep(s, kinds);
    var client := s.timer.clients[0];
    if s.caller.Suspend? && client.CPush? {
      NewEntry(s, s', s.caller.i, T.Entry(client.when, client.handle), kinds);
    } else {
      assert s'.timer.pushed == s.timer.pushed && s'.entry == s.entry;
    }
  }

  lemma {:induction false} CallerKeepsTasks(s: State, kinds: seq<Kind>)
    requires Inv(s, kinds) && Allowed(s, CallerAct, kinds)
    ensures var s' := CallerStep(s, kinds);
            Sized(s', kinds) && forall j | 0 <= j < |kinds| :: TaskFits(s', kinds, j)
  {
    var s' := CallerStep(s, kinds);
    forall j | 0 <= j < |kinds| ensures TaskFits(s', kinds, j) {
      assert TaskFits(s, kinds, j);
    }
  }

  /** The timer service moves to `t` without starting or finishing a call of schedule, and an entry leaves the
      hand of the worker only when its task is done. */
  ghost predicate Carries(s: State, t: T.State) {
    && t.pushed == s.timer.pushed && t.clients == s.timer.clients && t.destroyer == s.timer.destroyer
    && |t.resumes| == |s.timer.resumes|
    && (forall id: nat | id in t.heap || t.worker == T.RUnlockRun(id) ::
          id in s.timer.heap || s.timer.worker == T.RUnlockRun(id))
    && (forall id | 0 <= id < |t.resumes| && t.resumes[id] == 1 ::
          s.timer.resumes[id] == 1 || (Running(s).Some? && s.timer.worker.id == id))
  }

  lemma {:induction false} TimerKeeps(s: State, t: T.State, kinds: seq<Kind>)
    requires Inv(s, kinds) && Carries(s, t)
    requires Running(s).Some? && Running(s).value < |kinds| ==> s.flags[Running(s).value]
    ensures var s' := s.(timer := t);
            && Sized(s', kinds) && CallerFits(s', kinds) && EntriesFit(s', kinds)
            && forall j | 0 <= j < |kinds| :: TaskFits(s', kinds, j)
  {
    var s' := s.(timer := t);
    forall j | 0 <= j < |kinds| ensures TaskFits(s', kinds, j) {
      assert TaskFits(s, kinds, j);
    }
  }

  /** The body of the running task ends, or its flag is stored. */
  lemma {:induction false} RunningKeeps(s: State, j: nat, kinds: seq<Kind>)
    requires Inv(s, kinds) && Running(s) == Some(j) && j < |kinds| && !s.flags[j]
    ensures var s' := if s.ended[j] then s.(flags := s.flags[j := true]) else s.(ended := s.ended[j := true]);
            && Sized(s', kinds) && CallerFits(s', kinds) && EntriesFit(s', kinds)
            && forall k | 0 <= k < |kinds| :: TaskFits(s', kinds, k)
  {
    var s' := if s.ended[j] then s.(flags := s.flags[j := true]) else s.(ended := s.ended[j := true]);
    assert TaskFits(s, kinds, j);
    forall k | 0 <= k < |kinds| ensures TaskFits(s', kinds, k) {
      assert TaskFits(s, kinds, k);
    }
  }

  lemma {:induction false} WorkerKeeps(s: State, pick: nat, kinds: seq<Kind>)
    requires Inv(s, kinds) && Allowed(s, WorkerAct(pick), kinds)
    ensures var s' := WorkerStep(s, pick, kinds);
            && Sized(s', kinds) && CallerFits(s', kinds) && EntriesFit(s', kinds)
            && forall j | 0 <= j < |kinds| :: TaskFits(s', kinds, j)
  {
    var run := Running(s);
    if run.Some? && run.value < |kinds| {
      assert TaskFits(s, kinds, run.value);
    }
    if run.Some? && run.value < |kinds| && !s.flags[run.value] {
      RunningKeeps(s, run.value, kinds);
    } else {
      TimerKeeps(s, T.Apply(s.timer, T.Act(T.R, pick)), kinds);
    }
  }

  lemma {:induction false} OthersKeep(s: State, m: Move, kinds: seq<Kind>)
    requires Inv(s, kinds) && Allowed(s, m, kinds) && !m.CallerAct? && !m.WorkerAct?
    ensures var s' := Apply(s, m, kinds);
            && Sized(s', kinds) && CallerFits(s', kinds) && EntriesFit(s', kinds)
            && forall j | 0 <= j < |kinds| :: TaskFits(s', kinds, j)
  {
    var s' := Apply(s, m, kinds);
    forall j | 0 <= j < |kinds| ensures TaskFits(s', kinds, j) {
      assert TaskFits(s, kinds, j);
    }
  }

  lemma {:induction false} MoveInv(s: State, m: Move, kinds: seq<Kind>)
    requires Inv(s, kinds) && Allowed(s, m, kinds)
    ensures Inv(Apply(s, m, kinds), kinds)
  {
    TimerMoves(s, m, kinds);
    match m {
      case CallerAct =>
        CallerKeepsRole(s, kinds);
        CallerKeepsEntries(s, kinds);
        CallerKeepsTasks(s, kinds);
      case WorkerAct(pick) =>
        WorkerKeeps(s, pick, kinds);
      case _ => OthersKeep(s, m, kinds);
    }
  }

  lemma {:induction false} RunInv(s: State, moves: seq<Move>, s': State, kinds: seq<Kind>)
    requires Inv(s, kinds) && Runs(s, moves, s', kinds)
    ensures Inv(s', kinds)
    decreases |moves|
  {
    if moves != [] {
      MoveInv(s, moves[0], kinds);
      RunInv(Apply(s, moves[0], kinds), moves[1..], s', kinds);
    }
  }

  // ----- what the benchmark relies on -----

  predicate Started(s: State, kinds: seq<Kind>, j: nat) {
    j < Launched(s, |kinds|) || s.caller in {First(j), Suspend(j), Second(j), Store(j)}
  }

  /** The task is on the launching thread, in the heap or on the worker, and not in two of these places. */
  ghost predicate InOnePlace(s: State, j: nat) {
    && (OnCaller(s, j) || InHeap(s, j) || OnWorker(s, j))
    && !(OnCaller(s, j) && InHeap(s, j)) && !(InHeap(s, j) && OnWorker(s, j)) && !(OnWorker(s, j) && OnCaller(s, j))
  }

  lemma {:induction false} UnfinishedPlace(s: State, kinds: seq<Kind>, j: nat)
    requires Inv(s, kinds) && j < |kinds| && !s.flags[j] && Started(s, kinds, j)
    ensures InOnePlace(s, j)
  {
    assert TaskFits(s, kinds, j);
    if s.entry[j].Some? {
      var id := s.entry[j].value;
      assert s.timer.pushed[id].handle == j;
      assert id in s.timer.heap ==> InHeap(s, j);
    }
  }

  /** In every run a task that has been started and is not done is in exactly one place: on the launching thread,
      in the heap, or on the worker. */
  lemma {:induction false} ExactlyOnePlace(kinds: seq<Kind>, now: int, moves: seq<Move>, s: State, j: nat)
    requires Runs(Init(|kinds|, now), moves, s, kinds)
    requires j < |kinds| && j < |s.flags| && !s.flags[j] && Started(s, kinds, j)
    ensures InOnePlace(s, j)
  {
    InitInv(kinds, now);
    RunInv(Init(|kinds|, now), moves, s, kinds);
    UnfinishedPlace(s, kinds, j);
  }

  /** In every run a task has at most one entry, ever; so its handle is resumed at most once. */
  lemma {:induction false} OneEntryPerTask(
      kinds: seq<Kind>, now: int, moves: seq<Move>, s: State, a: nat, b: nat)
    requires Runs(Init(|kinds|, now), moves, s, kinds)
    requires a < |s.timer.pushed| && b < |s.timer.pushed|
    requires s.timer.pushed[a].handle == s.timer.pushed[b].handle
    ensures a == b && a < |s.timer.resumes| && s.timer.resumes[a] <= 1
  {
    InitInv(kinds, now);
    RunInv(Init(|kinds|, now), moves, s, kinds);
  }

  /** A flag is set only after the body of its task has ended, and it stays set. */
  lemma {:induction false} FlagsAreHonest(s: State, m: Move, kinds: seq<Kind>, j: nat)
    requires Inv(s, kinds) && Allowed(s, m, kinds) && j < |kinds|
    ensures s.flags[j] ==> s.ended[j]
    ensures var s' := Apply(s, m, kinds); |s'.flags| == |kinds| && (s.flags[j] ==> s'.flags[j])
  {
    assert TaskFits(s, kinds, j);
  }

  /** No task that the heap holds has ended. */
  lemma {:induction false} InHeapNotEnded(s: State, kinds: seq<Kind>)
    requires Inv(s, kinds)
    ensures forall id | id in s.timer.heap ::
              id < |s.timer.pushed| && s.timer.pushed[id].handle < |kinds| && !s.ended[s.timer.pushed[id].handle]
  {
    forall id | id in s.timer.heap
      ensures id < |s.timer.pushed| && s.timer.pushed[id].handle < |kinds| && !s.ended[s.timer.pushed[id].handle]
    {
      assert TaskFits(s, kinds, s.timer.pushed[id].handle);
    }
  }

  /** Every task is done, every entry has been resumed, and the heap is empty. */
  ghost predicate AllDone(s: State, kinds: seq<Kind>) {
    && Sized(s, kinds) && |s.timer.resumes| == |s.timer.pushed|
    && (forall j | 0 <= j < |kinds| :: s.flags[j] && s.ended[j])
    && s.timer.heap == {}
    && (s.caller.Finished? ==>
          && s.timer.worker.RExit?
          && forall id | 0 <= id < |s.timer.pushed| :: s.timer.resumes[id] == 1)
  }

  lemma {:induction false} ReturnedAllDone(s: State, kinds: seq<Kind>)
    requires Inv(s, kinds) && (s.caller.Returned? || s.caller.Destroying? || s.caller.Finished?)
    ensures AllDone(s, kinds)
  {
    forall j | 0 <= j < |kinds| ensures s.flags[j] && s.ended[j] {
      assert TaskFits(s, kinds, j);
    }
    InHeapNotEnded(s, kinds);
  }

  /** wait_all loads the flags one by one, but when it returns all tasks are done at the same time, and nothing
      is left in the heap or for the destructor to wait for. */
  lemma {:induction false} WaitAllReturnsWhenAllDone(kinds: seq<Kind>, now: int, moves: seq<Move>, s: State)
    requires Runs(Init(|kinds|, now), moves, s, kinds)
    requires s.caller.Returned? || s.caller.Destroying? || s.caller.Finished?
    ensures AllDone(s, kinds)
  {
    InitInv(kinds, now);
    RunInv(Init(|kinds|, now), moves, s, kinds);
    ReturnedAllDone(s, kinds);
  }

  // ----- who is scheduled, and when -----

  /** When wait_all has returned, exactly the tasks that yield and those that wait for a positive duration have a
      timer entry. */
  lemma {:induction false} ScheduledIffSuspends(kinds: seq<Kind>, now: int, moves: seq<Move>, s: State, j: nat)
    requires Runs(Init(|kinds|, now), moves, s, kinds) && j < |kinds|
    requires s.caller.Returned? || s.caller.Destroying? || s.caller.Finished?
    ensures Sized(s, kinds) && (s.entry[j].Some? <==> kinds[j].Cpu? || 0 < kinds[j].duration)
    ensures s.entry[j].Some? ==> s.entry[j].value < |s.timer.pushed| && s.timer.pushed[s.entry[j].value].handle == j
  {
    InitInv(kinds, now);
    RunInv(Init(|kinds|, now), moves, s, kinds);
    assert TaskFits(s, kinds, j);
  }

  /** Task `j` is about to push an entry due at `when`, or has pushed it. */
  ghost predicate DueAt(s: State, j: nat, when: int) {
    && j < |s.entry| && |s.timer.clients| == 1
    && match s.entry[j]
       case None =>
         s.caller == Suspend(j) && (s.timer.clients[0] == T.CLock(when, j) || s.timer.clients[0] == T.CPush(when, j))
       case Some(id) => id < |s.timer.pushed| && s.timer.pushed[id] == T.Entry(when, j)
  }

  lemma {:induction false} MoveKeepsDue(s: State, m: Move, kinds: seq<Kind>, j: nat, when: int)
    requires Inv(s, kinds) && Allowed(s, m, kinds) && DueAt(s, j, when)
    ensures DueAt(Apply(s, m, kinds), j, when)
  {}

  lemma {:induction false} RunKeepsDue(
      s: State, moves: seq<Move>, s': State, kinds: seq<Kind>, j: nat, when: int)
    requires Inv(s, kinds) && Runs(s, moves, s', kinds) && DueAt(s, j, when)
    ensures DueAt(s', j, when)
    decreases |moves|
  {
    if moves != [] {
      MoveInv(s, moves[0], kinds);
      MoveKeepsDue(s, moves[0], kinds, j, when);
      RunKeepsDue(Apply(s, moves[0], kinds), moves[1..], s', kinds, j, when);
    }
  }

  /** In every run the entry of a task is due at the time of its co_await plus the duration it waits for; a task
      that only yields is due at once. */
  lemma {:induction false} DeadlineIsDuration(
      kinds: seq<Kind>, now: int, before: seq<Move>, s: State, after: seq<Move>, s': State, j: nat)
    requires Runs(Init(|kinds|, now), before, s, kinds) && j < |kinds| && s.caller == First(j)
    requires kinds[j].Cpu? || 0 < kinds[j].duration
    requires Sized(s, kinds) && Allowed(s, CallerAct, kinds)
    requires Runs(Apply(s, CallerAct, kinds), after, s', kinds)
    ensures DueAt(s', j, s.timer.clock + if kinds[j].Cpu? then 0 else kinds[j].duration)
  {
    InitInv(kinds, now);
    RunInv(Init(|kinds|, now), before, s, kinds);
    MoveInv(s, CallerAct, kinds);
    RunKeepsDue(Apply(s, CallerAct, kinds), after, s', kinds, j,
                s.timer.clock + if kinds[j].Cpu? then 0 else kinds[j].duration);
  }

  // ----- progress -----

  ghost predicate Stopped(s: State, kinds: seq<Kind>)
    requires Sized(s, kinds)
  {
    !Allowed(s, CallerAct, kinds) && forall pick :: !Allowed(s, WorkerAct(pick), kinds)
  }

  lemma {:induction false} TopExists(t: T.State)
    requires T.Inv(t) && t.heap != {}
    ensures exists pick: nat :: T.IsTop(t, pick)
  {
    var pick := Least(t, t.heap);
    assert T.IsTop(t, pick);
  }

  lemma {:induction false} Least(t: T.State, ids: set<nat>) returns (pick: nat)
    requires T.Inv(t) && ids != {} && ids <= t.heap
    ensures pick in ids && forall k | k in ids :: k < |t.pushed| && t.pushed[pick].when <= t.pushed[k].when
    decreases ids
  {
    pick :| pick in ids;
    if ids != {pick} {
      assert ids == {pick} + (ids - {pick});
      var other := Least(t, ids - {pick});
      if t.pushed[other].when < t.pushed[pick].when {
        pick := other;
      }
    }
  }

  lemma {:induction false} WorkerStopped(s: State, kinds: seq<Kind>)
    requires Inv(s, kinds) && Stopped(s, kinds)
    ensures !T.Enabled(s.timer, T.R)
  {
    if T.Enabled(s.timer, T.R) {
      var pick: nat := 0;
      if s.timer.worker.RTop? {
        TopExists(s.timer);
        pick :| T.IsTop(s.timer, pick);
      }
      assert Allowed(s, WorkerAct(pick), kinds);
    }
  }

  /** There are entries in the heap, and the clock has reached the deadline of none of them. */
  ghost predicate OnlyFuture(t: T.State) {
    t.heap != {} && forall id | id in t.heap :: id < |t.pushed| && t.clock < t.pushed[id].when
  }

  lemma {:induction false} StoppedShape(s: State, kinds: seq<Kind>)
    requires Inv(s, kinds) && Stopped(s, kinds)
    ensures s.caller.Finished? || OnlyFuture(s.timer)
  {
    WorkerStopped(s, kinds);
    forall t: T.Thread ensures !T.Enabled(s.timer, t) {
      match t
      case R =>
      case C(i) => assert !Allowed(s, CallerAct, kinds);
      case D => assert !Allowed(s, CallerAct, kinds);
    }
    assert T.Stopped(s.timer);
    if !s.timer.worker.RExit? {
      T.StoppedShape(s.timer);
      if s.caller.Scan? {
        UnfinishedPlace(s, kinds, s.caller.k);
      }
    }
  }

  /** No deadlock: in every run, where neither thread can act the run is over, or it waits for the clock. */
  lemma {:induction false} StoppedOnlyByClock(kinds: seq<Kind>, now: int, moves: seq<Move>, s: State)
    requires Runs(Init(|kinds|, now), moves, s, kinds) && Sized(s, kinds) && Stopped(s, kinds)
    ensures s.caller.Finished? || OnlyFuture(s.timer)
  {
    InitInv(kinds, now);
    RunInv(Init(|kinds|, now), moves, s, kinds);
    StoppedShape(s, kinds);
  }

  function NotYet(b: bool): int {
    if b then 0 else 1
  }

  function CallerLoad(caller: Caller, n: nat): int {
    match caller
    case Launch(i) => 50 * (n - i) + n + 60 case First(i) => 50 * (n - i) + n + 59
    case Suspend(i) => 50 * (n - i) + n + 30 case Second(i) => 50 * (n - i) + n + 58
    case Store(i) => 50 * (n - i) + n + 57 case Scan(k) => 30 + n - k
    case Returned => 25 case Destroying => 1 case Finished => 0
  }

  /** The actions left until the run is over or only the clock holds it up. */
  function Measure(s: State): int {
    T.Measure(s.timer) + CallerLoad(s.caller, |s.flags|) + Sum(s.ended, NotYet) + Sum(s.flags, NotYet)
  }

  lemma {:induction false} MeasureNonNegative(s: State, kinds: seq<Kind>)
    requires Inv(s, kinds)
    ensures 0 <= Measure(s)
  {
    T.MeasureNonNegative(s.timer);
    SumNonNegative(s.ended, NotYet);
    SumNonNegative(s.flags, NotYet);
  }

  lemma {:induction false} FirstMeasure(s: State, kinds: seq<Kind>)
    requires Inv(s, kinds) && Allowed(s, CallerAct, kinds) && s.caller.First?
    ensures Measure(CallerStep(s, kinds)) < Measure(s)
  {
    if Delay(kinds[s.caller.i]).Some? {
      SumUpdate(s.timer.clients, T.ClientLoad, 0, CallerStep(s, kinds).timer.clients[0]);
    }
  }

  lemma {:induction false} SuspendMeasure(s: State, kinds: seq<Kind>)
    requires Inv(s, kinds) && Allowed(s, CallerAct, kinds) && s.caller.Suspend?
    ensures Measure(CallerStep(s, kinds)) < Measure(s)
  {
    if !s.timer.clients[0].CIdle? {
      T.ActMeasure(s.timer, T.Act(T.C(0), 0));
    }
  }

  lemma {:induction false} ClosingMeasure(s: State, kinds: seq<Kind>)
    requires Inv(s, kinds) && Allowed(s, CallerAct, kinds) && (s.caller.Returned? || s.caller.Destroying?)
    ensures Measure(CallerStep(s, kinds)) < Measure(s)
  {
    if s.caller.Destroying? && !s.timer.destroyer.DDone? {
      T.ActMeasure(s.timer, T.Act(T.D, 0));
    }
  }

  lemma {:induction false} CallerMeasure(s: State, kinds: seq<Kind>)
    requires Inv(s, kinds) && Allowed(s, CallerAct, kinds)
    ensures Measure(CallerStep(s, kinds)) < Measure(s)
  {
    match s.caller {
      case First(_) => FirstMeasure(s, kinds);
      case Suspend(_) => SuspendMeasure(s, kinds);
      case Second(i) => SumUpdate(s.ended, NotYet, i, true);
      case Store(i) => SumUpdate(s.flags, NotYet, i, true);
      case Returned => ClosingMeasure(s, kinds);
      case Destroying => ClosingMeasure(s, kinds);
      case _ =>
    }
  }

  lemma {:induction false} WorkerMeasure(s: State, pick: nat, kinds: seq<Kind>)
    requires Inv(s, kinds) && Allowed(s, WorkerAct(pick), kinds)
    ensures Measure(WorkerStep(s, pick, kinds)) < Measure(s)
  {
    var run := Running(s);
    if run.Some? && run.value < |kinds| && !s.ended[run.value] {
      SumUpdate(s.ended, NotYet, run.value, true);
    } else if run.Some? && run.value < |kinds| && !s.flags[run.value] {
      SumUpdate(s.flags, NotYet, run.value, true);
    } else {
      T.ActMeasure(s.timer, T.Act(T.R, pick));
    }
  }

  predicate OnlyActs(moves: seq<Move>) {
    forall i | 0 <= i < |moves| :: moves[i].CallerAct? || moves[i].WorkerAct?
  }

  lemma {:induction false} ActsComplete(s: State, moves: seq<Move>, s': State, kinds: seq<Kind>)
    requires Inv(s, kinds) && OnlyActs(moves) && Runs(s, moves, s', kinds)
    ensures |moves| <= Measure(s)
    ensures Inv(s', kinds)
    ensures (Stopped(s', kinds) && forall e | e in s'.timer.pushed :: e.when <= s'.timer.clock) ==>
              s'.caller.Finished?
    decreases |moves|
  {
    MeasureNonNegative(s, kinds);
    if moves != [] {
      MoveInv(s, moves[0], kinds);
      match moves[0] {
        case CallerAct => CallerMeasure(s, kinds);
        case WorkerAct(pick) => WorkerMeasure(s, pick, kinds);
      }
      ActsComplete(Apply(s, moves[0], kinds), moves[1..], s', kinds);
    } else if Stopped(s, kinds) {
      StoppedShape(s, kinds);
    }
  }

  /** From any point of any run, with the clock standing still the run goes on for a bounded number of actions;
      when the clock has passed all deadlines set so far, the place where it stops is the end: all tasks done
      and the timer service destroyed. */
  lemma {:induction false} RunsComplete(
      kinds: seq<Kind>, now: int, before: seq<Move>, s: State, moves: seq<Move>, s': State)
    requires Runs(Init(|kinds|, now), before, s, kinds) && OnlyActs(moves) && Runs(s, moves, s', kinds)
    ensures |moves| <= Measure(s) && Sized(s', kinds)
    ensures (Stopped(s', kinds) && forall e | e in s'.timer.pushed :: e.when <= s'.timer.clock) ==>
              s'.caller.Finished? && AllDone(s', kinds)
  {
    InitInv(kinds, now);
    RunInv(Init(|kinds|, now), before, s, kinds);
    ActsComplete(s, moves, s', kinds);
    if s'.caller.Finished? {
      ReturnedAllDone(s', kinds);
    }
  }

  // ----- waiting for the clock -----

  /** The task has no entry yet, or its entry is not due. */
  predicate Early(e: Option<nat>, t: T.State) {
    e.Some? && e.value < |t.pushed| ==> t.clock < t.pushed[e.value].when
  }

  /** How many tasks may still make the run wait for the clock. */
  function Undue(entry: seq<Option<nat>>, t: T.State): nat {
    if entry == [] then 0
    else Undue(entry[..|entry| - 1], t) + if Early(entry[|entry| - 1], t) then 1 else 0
  }

  lemma {:induction false} UndueMonotone(a: seq<Option<nat>>, t: T.State, b: seq<Option<nat>>, t': T.State)
    requires |a| == |b| && forall j | 0 <= j < |a| :: Early(b[j], t') ==> Early(a[j], t)
    ensures Undue(b, t') <= Undue(a, t)
    ensures (exists j :: 0 <= j < |a| && Early(a[j], t) && !Early(b[j], t')) ==> Undue(b, t') < Undue(a, t)
  {
    if a != [] {
      var m := |a| - 1;
      assert forall j | 0 <= j < m :: a[..m][j] == a[j] && b[..m][j] == b[j];
      UndueMonotone(a[..m], t, b[..m], t');
    }
  }

  lemma {:induction false} ActKeepsClock(s: State, m: Move, kinds: seq<Kind>)
    requires Inv(s, kinds) && Allowed(s, m, kinds) && (m.CallerAct? || m.WorkerAct?)
    ensures var s' := Apply(s, m, kinds);
            && s'.timer.clock == s.timer.clock && |s'.entry| == |s.entry|
            && s.timer.pushed <= s'.timer.pushed
            && forall j | 0 <= j < |kinds| && s.entry[j].Some? :: s'.entry[j] == s.entry[j]
  {
    var l := Launched(s, |kinds|);
    if l < |kinds| {
      assert TaskFits(s, kinds, l);
    }
  }

  /** While the clock stands still no task becomes undue. */
  lemma {:induction false} ActKeepsUndue(s: State, m: Move, kinds: seq<Kind>)
    requires Inv(s, kinds) && Allowed(s, m, kinds) && (m.CallerAct? || m.WorkerAct?)
    ensures var s' := Apply(s, m, kinds); Undue(s'.entry, s'.timer) <= Undue(s.entry, s.timer)
  {
    var s' := Apply(s, m, kinds);
    ActKeepsClock(s, m, kinds);
    UndueMonotone(s.entry, s.timer, s'.entry, s'.timer);
  }

  /** Where nobody can act, the clock has only to pass the deadlines for the run to go on. */
  lemma {:induction false} TickHelps(s: State, now: int, kinds: seq<Kind>)
    requires Inv(s, kinds) && Stopped(s, kinds) && !s.caller.Finished?
    requires s.timer.clock <= now && forall e | e in s.timer.pushed :: e.when <= now
    ensures var s' := Apply(s, Tick(now), kinds); Undue(s'.entry, s'.timer) < Undue(s.entry, s.timer)
  {
    var s' := Apply(s, Tick(now), kinds);
    StoppedShape(s, kinds);
    var id :| id in s.timer.heap;
    var j := s.timer.pushed[id].handle;
    assert s.entry[j] == Some(id) && s.timer.pushed[id] in s.timer.pushed;
    assert Early(s.entry[j], s.timer) && !Early(s'.entry[j], s'.timer);
    UndueMonotone(s.entry, s.timer, s'.entry, s'.timer);
  }

  lemma {:induction false} ActPaid(s: State, m: Move, kinds: seq<Kind>)
    requires Inv(s, kinds) && Allowed(s, m, kinds) && (m.CallerAct? || m.WorkerAct?)
    ensures var s' := Apply(s, m, kinds);
            && Inv(s', kinds) && 0 <= Measure(s') < Measure(s)
            && Undue(s'.entry, s'.timer) <= Undue(s.entry, s.timer)
  {
    MoveInv(s, m, kinds);
    MeasureNonNegative(Apply(s, m, kinds), kinds);
    ActKeepsUndue(s, m, kinds);
    match m
    case CallerAct => CallerMeasure(s, kinds);
    case WorkerAct(pick) => WorkerMeasure(s, pick, kinds);
  }

  // ----- the benchmark -----

  class CoroutineRun {
    const kinds: seq<Kind>
    const timers: T.TimerService
    var caller: Caller
    var done: seq<bool>
    // history
    var ended: seq<bool>
    var entry: seq<Option<nat>>

    function View(): State
      reads this, timers
    {
      State(timers.View(), caller, done, ended, entry)
    }

    constructor (kinds: seq<Kind>, now: int)
      ensures View() == Init(|kinds|, now) && this.kinds == kinds && fresh(timers)
    {
      this.kinds := kinds;
      timers := new T.TimerService(1, now);
      caller := Launch(0);
      done, ended, entry := seq(|kinds|, _ => false), seq(|kinds|, _ => false), seq(|kinds|, _ => None);
    }

    /** The next action of the launching thread: the launch loop, wait_all, the destructor. */
    method CallerTurn()
      requires Inv(View(), kinds) && Allowed(View(), CallerAct, kinds)
      modifies this, timers
      ensures View() == CallerStep(old(View()), kinds)
    {
      match caller {
        case Launch(i) => caller := if i < |kinds| then First(i) else Scan(0);
        case First(i) =>
          match Delay(kinds[i]) {
            case None => caller := Second(i);
            case Some(d) =>
              timers.Schedule(0, d, i);
              caller := Suspend(i);
          }
        case Suspend(i) =>
          if timers.clients[0].CIdle? {
            caller := Launch(i + 1);
          } else {
            if timers.clients[0].CPush? {
              entry := entry[i := Some(|timers.pushed|)];
            }
            timers.ScheduleTurn(0);
          }
        case Second(i) => ended, caller := ended[i := true], Store(i);
        case Store(i) => done, caller := done[i := true], Launch(i + 1);
        case Scan(k) => caller := if k < |kinds| then Scan(k + 1) else Returned;
        case Returned =>
          timers.Shutdown();
          caller := Destroying;
        case Destroying =>
          if timers.destroyer.DDone? {
            caller := Finished;
          } else {
            timers.DestroyTurn();
          }
      }
    }

    /** The next action of the timer worker. */
    method WorkerTurn(pick: nat)
      requires Inv(View(), kinds) && Allowed(View(), WorkerAct(pick), kinds)
      modifies this, timers
      ensures View() == WorkerStep(old(View()), pick, kinds)
    {
      if timers.worker.RResume? {
        var i := timers.pushed[timers.worker.id].handle;
        if !ended[i] {
          ended := ended[i := true];
          return;
        } else if !done[i] {
          done := done[i := true];
          return;
        }
      }
      timers.WorkerTurn(pick);
    }

    /** The entry that top() returns, where the worker asks for it. */
    method Pick() returns (pick: nat)
      requires Inv(View(), kinds) && T.Enabled(timers.View(), T.R)
      ensures Allowed(View(), WorkerAct(pick), kinds)
    {
      pick := 0;
      if timers.worker.RTop? {
        TopExists(timers.View());
        pick :| pick in timers.heap && T.IsTop(timers.View(), pick);
      }
    }

    /** The launching thread or the worker, whoever can, performs its next action. */
    method AnyTurn()
      requires Inv(View(), kinds)
      requires Allowed(View(), CallerAct, kinds) || T.Enabled(timers.View(), T.R)
      modifies this, timers
      ensures Inv(View(), kinds) && 0 <= Measure(View()) < old(Measure(View()))
      ensures Undue(entry, timers.View()) <= old(Undue(entry, timers.View()))
    {
      if
      case Allowed(View(), CallerAct, kinds) =>
        ActPaid(View(), CallerAct, kinds);
        CallerTurn();
      case T.Enabled(timers.View(), T.R) =>
        var pick := Pick();
        ActPaid(View(), WorkerAct(pick), kinds);
        WorkerTurn(pick);
    }

    /** Another round of wait_all, a spurious wake-up, or time passes. */
    method Extra()
      requires Inv(View(), kinds)
      modifies this`caller, timers
      ensures Inv(View(), kinds)
    {
      if
      case caller.Scan? && caller.k < |kinds| && !done[caller.k] =>
        MoveInv(View(), Rescan, kinds);
        caller := Scan(0);
      case timers.worker.RAsleep? || timers.worker.RAsleepUntil? =>
        MoveInv(View(), Nap, kinds);
        timers.Notify();
      case true =>
        var now: int := *;
        if timers.clock <= now {
          MoveInv(View(), Tick(now), kinds);
          timers.Tick(now);
        }
    }

    /** Nobody can act: the clock passes the deadlines that have been set. */
    method WaitForClock()
      requires Inv(View(), kinds) && Stopped(View(), kinds) && !caller.Finished?
      modifies timers
      ensures Inv(View(), kinds) && Undue(entry, timers.View()) < old(Undue(entry, timers.View()))
    {
      var now := timers.Latest();
      MoveInv(View(), Tick(now), kinds);
      TickHelps(View(), now, kinds);
      timers.Tick(now);
    }

    /** Runs the benchmark under an arbitrary scheduler, with up to `extra` rounds of wait_all, spurious wake-ups
        and clock changes at arbitrary moments: it ends, with every task done and resumed exactly once. */
    method Run(extra: nat)
      requires Inv(View(), kinds)
      modifies this, timers
      ensures Inv(View(), kinds) && caller.Finished? && AllDone(View(), kinds)
    {
      var left := extra;
      while !caller.Finished?
        invariant Inv(View(), kinds)
        decreases left, Undue(entry, timers.View()), Measure(View())
      {
        MeasureNonNegative(View(), kinds);
        var more: bool := *;
        if more && 0 < left {
          Extra();
          left := left - 1;
        } else if Allowed(View(), CallerAct, kinds) || T.Enabled(timers.View(), T.R) {
          AnyTurn();
        } else {
          WaitForClock();
        }
      }
      ReturnedAllDone(View(), kinds);
    }
  }
}

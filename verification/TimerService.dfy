/** TimerService of src/bench_coroutines.cpp: one worker thread that resumes coroutine handles in deadline
    order, any number of threads that call schedule, and the destructor.

    The clock is any monotone value. The priority queue is its abstract specification: a set of entries of
    which top() is one with the least deadline. Entries are numbered in the order in which they are pushed. */
module TimerServices {
  import opened Tally

  datatype Entry = Entry(when: int, handle: nat)

  datatype Worker =
    | RLock                          // about to lock and go round the loop
    | RLoop | RPred | RTop
    | RPop(id: nat) | RUnlockRun(id: nat) | RResume(id: nat)
    | RAsleep | RWoken               // in wait, without a deadline
    | RAsleepUntil(until: int)       // in wait_until
    | RUnlockExit | RExit

  datatype Client = CIdle | CLock(when: int, handle: nat) | CPush(when: int, handle: nat) | CUnlock | CNotify

  datatype Destroyer = DIdle | DLock | DSet | DUnlock | DNotify | DJoin | DDone

  datatype Thread = R | C(i: nat) | D

  datatype State = State(
    mtx: Option<Thread>, heap: set<nat>, stop: bool, clock: int,
    worker: Worker, clients: seq<Client>, destroyer: Destroyer,
    // history: every entry ever pushed, and how often it has been resumed
    pushed: seq<Entry>, resumes: seq<nat>)

  function Init(clients: nat, now: int): State {
    State(None, {}, false, now, RLock, seq(clients, _ => CIdle), DIdle, [], [])
  }

  predicate WorkerReady(s: State) {
    match s.worker
    case RLock => s.mtx.None?
    case RWoken => s.mtx.None?
    case RAsleep => false
    case RAsleepUntil(until) => until <= s.clock
    case RExit => false
    case _ => true
  }

  predicate Enabled(s: State, t: Thread) {
    match t
    case R => WorkerReady(s)
    case C(i) => i < |s.clients| && !s.clients[i].CIdle? && (s.clients[i].CLock? ==> s.mtx.None?)
    case D =>
      match s.destroyer
      case DIdle => false
      case DLock => s.mtx.None?
      case DJoin => s.worker.RExit?
      case DDone => false
      case _ => true
  }

  /** `id` is an entry that top() may return. */
  predicate IsTop(s: State, id: nat) {
    && id in s.heap && id < |s.pushed|
    && forall k | k in s.heap && k < |s.pushed| :: s.pushed[id].when <= s.pushed[k].when
  }

  /** The next action of the worker; `pick` is the entry that top() returns. */
  function WorkerStep(s: State, pick: nat): State
    requires Enabled(s, R)
  {
    match s.worker
    case RLock => s.(mtx := Some(R), worker := RLoop)
    case RWoken => s.(mtx := Some(R), worker := RPred)
    case RLoop => s.(worker := if s.heap == {} then (if s.stop then RUnlockExit else RPred) else RTop)
    case RPred => if s.stop || s.heap != {} then s.(worker := RLoop) else s.(mtx := None, worker := RAsleep)
    case RTop =>
      if pick < |s.pushed| && s.pushed[pick].when > s.clock then
        s.(mtx := None, worker := RAsleepUntil(s.pushed[pick].when))
      else s.(worker := RPop(pick))
    case RAsleepUntil(_) => s.(worker := RLock)                   // the deadline has passed
    case RPop(id) => s.(heap := s.heap - {id}, worker := RUnlockRun(id))
    case RUnlockRun(id) => s.(mtx := None, worker := RResume(id))
    case RResume(id) =>
      s.(resumes := if id < |s.resumes| then s.resumes[id := s.resumes[id] + 1] else s.resumes, worker := RLock)
    case RUnlockExit => s.(mtx := None, worker := RExit)
    case _ => s
  }

  /** A notify_one, a notify_all or a spurious wake-up: the worker is the only thread that ever waits. */
  function Wake(w: Worker): Worker {
    match w
    case RAsleep => RWoken
    case RAsleepUntil(_) => RLock
    case _ => w
  }

  /** The next action of a thread inside schedule. */
  function ClientStep(s: State, i: nat): State
    requires Enabled(s, C(i))
  {
    match s.clients[i]
    case CLock(when, h) => s.(mtx := Some(C(i)), clients := s.clients[i := CPush(when, h)])
    case CPush(when, h) =>
      s.(heap := s.heap + {|s.pushed|}, pushed := s.pushed + [Entry(when, h)], resumes := s.resumes + [0],
         clients := s.clients[i := CUnlock])
    case CUnlock => s.(mtx := None, clients := s.clients[i := CNotify])
    case CNotify => s.(worker := Wake(s.worker), clients := s.clients[i := CIdle])
    case CIdle => s
  }

  function DestroyStep(s: State): State
    requires Enabled(s, D)
  {
    match s.destroyer
    case DLock => s.(mtx := Some(D), destroyer := DSet)
    case DSet => s.(stop := true, destroyer := DUnlock)
    case DUnlock => s.(mtx := None, destroyer := DNotify)
    case DNotify => s.(worker := Wake(s.worker), destroyer := DJoin)
    case DJoin => s.(destroyer := DDone)
    case _ => s
  }

  datatype Move =
    | Act(t: Thread, pick: nat) | Schedule(i: nat, delay: int, handle: nat) | Destroy | Nap | Tick(now: int)

  predicate Allowed(s: State, m: Move) {
    match m
    case Act(t, pick) => Enabled(s, t) && (t.R? && s.worker.RTop? ==> IsTop(s, pick))
    case Schedule(i, _, _) => i < |s.clients| && s.clients[i].CIdle?
    case Destroy => s.destroyer.DIdle?
    case Nap => s.worker.RAsleep? || s.worker.RAsleepUntil?
    case Tick(now) => s.clock <= now
  }

  function Apply(s: State, m: Move): State
    requires Allowed(s, m)
  {
    match m
    case Act(R, pick) => WorkerStep(s, pick)
    case Act(C(i), _) => ClientStep(s, i)
    case Act(D, _) => DestroyStep(s)
    case Schedule(i, delay, h) => s.(clients := s.clients[i := CLock(s.clock + delay, h)])
    case Destroy => s.(destroyer := DLock)
    case Nap => s.(worker := Wake(s.worker))
    case Tick(now) => s.(clock := now)
  }

  ghost predicate Runs(s: State, moves: seq<Move>, s': State)
    decreases |moves|
  {
    if moves == [] then s == s'
    else Allowed(s, moves[0]) && Runs(Apply(s, moves[0]), moves[1..], s')
  }

  // ----- the invariant -----

  predicate WorkerLocked(w: Worker) {
    match w
    case RLoop | RPred | RTop | RPop(_) | RUnlockRun(_) | RUnlockExit => true
    case _ => false
  }

  predicate InLock(s: State, t: Thread) {
    match t
    case R => WorkerLocked(s.worker)
    case C(i) => i < |s.clients| && (s.clients[i].CPush? || s.clients[i].CUnlock?)
    case D => s.destroyer.DSet? || s.destroyer.DUnlock?
  }

  ghost predicate LockOwned(s: State) {
    forall t: Thread :: InLock(s, t) <==> s.mtx == Some(t)
  }

  /** The entry that the worker has popped and not finished resuming. */
  function InHand(w: Worker): Option<nat> {
    match w
    case RUnlockRun(id) => Some(id)
    case RResume(id) => Some(id)
    case _ => None
  }

  /** A pushed entry is in the heap, or in the hand of the worker, or has been resumed once. */
  ghost predicate EntriesFit(s: State) {
    && |s.resumes| == |s.pushed|
    && (forall id | id in s.heap :: id < |s.pushed|)
    && (forall id | 0 <= id < |s.pushed| ::
          s.resumes[id] == if id in s.heap || InHand(s.worker) == Some(id) then 0 else 1)
    && (InHand(s.worker).Some? ==> InHand(s.worker).value < |s.pushed| && InHand(s.worker).value !in s.heap)
  }

  /** Some thread has pushed an entry and not yet called notify_one for it. */
  ghost predicate NotifyPending(s: State) {
    exists i :: 0 <= i < |s.clients| && (s.clients[i].CUnlock? || s.clients[i].CNotify?)
  }

  predicate StopPending(s: State) {
    s.destroyer.DUnlock? || s.destroyer.DNotify?
  }

  ghost predicate WorkerFits(s: State) {
    match s.worker
    case RTop => s.heap != {}
    case RPop(id) => IsTop(s, id) && s.pushed[id].when <= s.clock
    case RUnlockRun(id) => id < |s.pushed| && s.pushed[id].when <= s.clock
    case RResume(id) => id < |s.pushed| && s.pushed[id].when <= s.clock
    case RAsleep => (s.heap != {} ==> NotifyPending(s)) && (s.stop ==> StopPending(s))
    case RAsleepUntil(until) =>
      && s.heap != {}
      && forall id | id in s.heap && id < |s.pushed| && s.pushed[id].when < until :: NotifyPending(s)
    case RUnlockExit => s.stop && s.heap == {}
    case RExit => s.stop
    case _ => true
  }

  predicate DestroyerFits(s: State) {
    match s.destroyer
    case DIdle => !s.stop
    case DLock => !s.stop
    case DSet => !s.stop
    case DDone => s.stop && s.worker.RExit?
    case _ => s.stop
  }

  ghost predicate Inv(s: State) {
    LockOwned(s) && EntriesFit(s) && WorkerFits(s) && DestroyerFits(s)
  }

  lemma {:induction false} InitInv(clients: nat, now: int)
    ensures Inv(Init(clients, now))
  {}

  lemma {:induction false} MoveLock(s: State, m: Move)
    requires LockOwned(s) && Allowed(s, m)
    ensures LockOwned(Apply(s, m))
  {
    var s' := Apply(s, m);
    forall t: Thread ensures InLock(s', t) <==> s'.mtx == Some(t) {
      assert InLock(s, t) <==> s.mtx == Some(t);
      if m.Act? {
        assert InLock(s, m.t) <==> s.mtx == Some(m.t);
      }
    }
  }

  lemma {:induction false} SameEntries(s: State, s': State)
    requires EntriesFit(s)
    requires s'.heap == s.heap && s'.pushed == s.pushed && s'.resumes == s.resumes
    requires InHand(s'.worker) == InHand(s.worker)
    ensures EntriesFit(s')
  {}

  lemma {:induction false} PushEntry(s: State, i: nat)
    requires EntriesFit(s) && Enabled(s, C(i)) && s.clients[i].CPush?
    ensures EntriesFit(ClientStep(s, i))
  {}

  lemma {:induction false} HandEntry(s: State, pick: nat)
    requires EntriesFit(s) && Enabled(s, R) && (s.worker.RResume? || (s.worker.RPop? && s.worker.id in s.heap))
    ensures EntriesFit(WorkerStep(s, pick))
  {}

  lemma {:induction false} MoveEntries(s: State, m: Move)
    requires Inv(s) && Allowed(s, m)
    ensures EntriesFit(Apply(s, m))
  {
    if m.Act? && m.t.R? && (s.worker.RPop? || s.worker.RResume?) {
      HandEntry(s, m.pick);
    } else if m.Act? && m.t.C? && s.clients[m.t.i].CPush? {
      PushEntry(s, m.t.i);
    } else {
      SameEntries(s, Apply(s, m));
    }
  }

  lemma {:induction false} WorkerMoves(s: State, pick: nat)
    requires Inv(s) && Allowed(s, Act(R, pick))
    ensures WorkerFits(WorkerStep(s, pick))
  {}

  lemma {:induction false} ClientMoves(s: State, i: nat)
    requires Inv(s) && Enabled(s, C(i))
    ensures WorkerFits(ClientStep(s, i))
  {
    var s' := ClientStep(s, i);
    assert InLock(s, C(i)) <==> s.mtx == Some(C(i));
    assert InLock(s, R) <==> s.mtx == Some(R);
    if NotifyPending(s) && !s.clients[i].CNotify? {
      var j :| 0 <= j < |s.clients| && (s.clients[j].CUnlock? || s.clients[j].CNotify?);
      assert s'.clients[j].CUnlock? || s'.clients[j].CNotify?;
    }
    if s.clients[i].CPush? {
      assert s'.clients[i].CUnlock?;
    }
  }

  lemma {:induction false} OtherMoves(s: State, m: Move)
    requires Inv(s) && Allowed(s, m) && (m.Act? ==> m.t.D?)
    ensures WorkerFits(Apply(s, m))
  {
    var s' := Apply(s, m);
    assert InLock(s, D) <==> s.mtx == Some(D);
    assert InLock(s, R) <==> s.mtx == Some(R);
    if NotifyPending(s) {
      var j :| 0 <= j < |s.clients| && (s.clients[j].CUnlock? || s.clients[j].CNotify?);
      assert s'.clients[j] == s.clients[j];
    }
  }

  lemma {:induction false} MoveInv(s: State, m: Move)
    requires Inv(s) && Allowed(s, m)
    ensures Inv(Apply(s, m))
  {
    MoveLock(s, m);
    MoveEntries(s, m);
    if m.Act? && m.t.R? {
      WorkerMoves(s, m.pick);
    } else if m.Act? && m.t.C? {
      ClientMoves(s, m.t.i);
    } else {
      OtherMoves(s, m);
    }
    assert InLock(s, D) <==> s.mtx == Some(D);
  }

  lemma {:induction false} RunInv(s: State, moves: seq<Move>, s': State)
    requires Inv(s) && Runs(s, moves, s')
    ensures Inv(s')
    decreases |moves|
  {
    if moves != [] {
      MoveInv(s, moves[0]);
      RunInv(Apply(s, moves[0]), moves[1..], s');
    }
  }

  // ----- what the service promises -----

  /** While the worker sleeps until `until`, every entry due before that has a notify pending; while it sleeps
      without a deadline, so has every entry. */
  lemma {:induction false} NothingMissed(clients: nat, now: int, moves: seq<Move>, s: State, id: nat)
    requires Runs(Init(clients, now), moves, s) && id in s.heap
    ensures id < |s.pushed|
    ensures s.worker.RAsleep? ==> NotifyPending(s)
    ensures s.worker.RAsleepUntil? && s.pushed[id].when < s.worker.until ==> NotifyPending(s)
  {
    InitInv(clients, now);
    RunInv(Init(clients, now), moves, s);
  }

  /** No entry is resumed twice; what is resumed is due, and when it was popped no earlier entry was in the
      heap; what has not been resumed is still in the heap or in the hand of the worker. */
  lemma {:induction false} ResumedOnceInOrder(clients: nat, now: int, moves: seq<Move>, s: State, id: nat)
    requires Runs(Init(clients, now), moves, s)
    ensures |s.resumes| == |s.pushed|
    ensures id < |s.pushed| ==> s.resumes[id] <= 1
    ensures id < |s.pushed| ==> (s.resumes[id] == 0 <==> id in s.heap || InHand(s.worker) == Some(id))
    ensures s.worker == RPop(id) ==>
              IsTop(s, id) && forall k | k in s.heap :: k < |s.pushed| && s.pushed[id].when <= s.pushed[k].when
    ensures s.worker == RResume(id) ==> id < |s.pushed| && s.pushed[id].when <= s.clock && s.resumes[id] == 0
  {
    InitInv(clients, now);
    RunInv(Init(clients, now), moves, s);
  }

  /** In every run the worker leaves only when the service has been stopped and the heap is empty. */
  lemma {:induction false} LeavesOnlyWhenEmpty(clients: nat, now: int, moves: seq<Move>, s: State, pick: nat)
    requires Runs(Init(clients, now), moves, s)
    requires Allowed(s, Act(R, pick)) && WorkerStep(s, pick).worker.RExit?
    ensures s.stop && s.heap == {}
  {
    InitInv(clients, now);
    RunInv(Init(clients, now), moves, s);
  }

  // ----- progress -----

  ghost predicate Stopped(s: State) {
    forall t: Thread :: !Enabled(s, t)
  }

  lemma {:induction false} StoppedShape(s: State)
    requires Inv(s) && Stopped(s) && !s.worker.RExit?
    ensures forall id | id in s.heap :: id < |s.pushed| && s.clock < s.pushed[id].when
    ensures forall i | 0 <= i < |s.clients| :: s.clients[i].CIdle?
    ensures s.stop ==> s.heap != {}
  {
    OwnerMoves(s);
    forall i: nat | i < |s.clients| ensures s.clients[i].CIdle? {
      assert !Enabled(s, C(i));
    }
    assert !Enabled(s, R) && !Enabled(s, D);
  }

  /** In every run, when no thread can act and the worker has not left, no entry in the heap is due: only the
      clock holds the service up. */
  lemma {:induction false} StoppedOnlyByClock(clients: nat, now: int, moves: seq<Move>, s: State)
    requires Runs(Init(clients, now), moves, s) && Stopped(s) && !s.worker.RExit?
    ensures forall id | id in s.heap :: id < |s.pushed| && s.clock < s.pushed[id].when
    ensures forall i | 0 <= i < |s.clients| :: s.clients[i].CIdle?
    ensures s.stop ==> s.heap != {}
  {
    InitInv(clients, now);
    RunInv(Init(clients, now), moves, s);
    StoppedShape(s);
  }

  /** Whoever holds the mutex can act. */
  lemma {:induction false} OwnerMoves(s: State)
    requires Inv(s)
    ensures s.mtx.Some? ==> Enabled(s, s.mtx.value)
  {
    if s.mtx.Some? {
      assert InLock(s, s.mtx.value);
    }
  }

  function WorkerLoad(s: State): int {
    match s.worker
    case RUnlockRun(_) => 8 case RResume(_) => 7 case RWoken => 6 case RLock => 5 case RLoop => 4
    case RPred => if s.stop || s.heap != {} then 5 else 3
    case RTop => 3 case RPop(_) => 2 case RAsleep => 2
    case RAsleepUntil(until) => if until <= s.clock then 6 else 2
    case RUnlockExit => 1 case RExit => 0
  }

  function ClientLoad(c: Client): int {
    match c
    case CLock(_, _) => 20 case CPush(_, _) => 19 case CUnlock => 6 case CNotify => 5 case CIdle => 0
  }

  function DestroyerLoad(d: Destroyer): int {
    match d
    case DLock => 9 case DSet => 8 case DUnlock => 7 case DNotify => 6 case DJoin => 1
    case _ => 0
  }

  /** The actions left until only the clock can hold things up. */
  function Measure(s: State): int {
    12 * |s.heap| + WorkerLoad(s) + Sum(s.clients, ClientLoad) + DestroyerLoad(s.destroyer)
  }

  lemma {:induction false} MeasureNonNegative(s: State)
    ensures 0 <= Measure(s)
  {
    SumNonNegative(s.clients, ClientLoad);
  }

  lemma {:induction false} WorkerLoadDrops(s: State, pick: nat)
    requires WorkerReady(s) && (s.worker.RTop? ==> s.heap != {}) && (s.worker.RPop? ==> s.worker.id in s.heap)
    requires s.worker.RTop? ==> pick < |s.pushed|
    ensures var s' := WorkerStep(s, pick);
            && s'.clients == s.clients && s'.destroyer == s.destroyer
            && 12 * |s'.heap| + WorkerLoad(s') < 12 * |s.heap| + WorkerLoad(s)
  {
    match s.worker
    case RPop(id) => assert |s.heap - {id}| == |s.heap| - 1;
    case _ =>
  }

  lemma {:induction false} WorkerMeasure(s: State, pick: nat)
    requires Inv(s) && Allowed(s, Act(R, pick))
    ensures Measure(WorkerStep(s, pick)) < Measure(s)
  {
    WorkerLoadDrops(s, pick);
  }

  lemma {:induction false} ClientMeasure(s: State, i: nat)
    requires Inv(s) && Enabled(s, C(i))
    ensures Measure(ClientStep(s, i)) < Measure(s)
  {
    assert InLock(s, C(i)) <==> s.mtx == Some(C(i));
    assert InLock(s, R) <==> s.mtx == Some(R);
    SumUpdate(s.clients, ClientLoad, i, ClientStep(s, i).clients[i]);
    if s.clients[i].CPush? {
      assert |s.heap + {|s.pushed|}| == |s.heap| + 1;
    }
  }

  lemma {:induction false} ActMeasure(s: State, m: Move)
    requires Inv(s) && m.Act? && Allowed(s, m)
    ensures 0 <= Measure(Apply(s, m)) < Measure(s)
  {
    MeasureNonNegative(Apply(s, m));
    match m.t
    case R => WorkerMeasure(s, m.pick);
    case C(i) => ClientMeasure(s, i);
    case D =>
      assert InLock(s, D) <==> s.mtx == Some(D);
      assert InLock(s, R) <==> s.mtx == Some(R);
  }

  predicate OnlyActs(moves: seq<Move>) {
    forall i | 0 <= i < |moves| :: moves[i].Act?
  }

  /** With the clock standing still, every run is bounded, and where it stops every entry that was due has been
      resumed, unless the worker had already been told to leave and has left. */
  lemma {:induction false} DueEntriesAreResumed(s: State, moves: seq<Move>, s': State)
    requires Inv(s) && OnlyActs(moves) && Runs(s, moves, s')
    ensures |moves| <= Measure(s)
    ensures Inv(s') && s'.clock == s.clock
    ensures Stopped(s') && !s'.worker.RExit? ==>
              forall id | 0 <= id < |s'.pushed| && s'.pushed[id].when <= s'.clock :: s'.resumes[id] == 1
    decreases |moves|
  {
    MeasureNonNegative(s);
    if moves != [] {
      MoveInv(s, moves[0]);
      ActMeasure(s, moves[0]);
      DueEntriesAreResumed(Apply(s, moves[0]), moves[1..], s');
    } else if Stopped(s) && !s.worker.RExit? {
      StoppedShape(s);
      assert !Enabled(s, R);
    }
  }

  // ----- deadlines -----

  predicate NoScheduleOf(moves: seq<Move>, i: nat) {
    forall k | 0 <= k < |moves| && moves[k].Schedule? :: moves[k].i != i
  }

  /** Client `i` is about to push entry `e`, or `e` has been pushed, under a number from `from` on. */
  ghost predicate Promised(s: State, i: nat, e: Entry, from: nat) {
    && i < |s.clients| && from <= |s.pushed|
    && (|| s.clients[i] == CLock(e.when, e.handle) || s.clients[i] == CPush(e.when, e.handle)
        || exists id :: from <= id < |s.pushed| && s.pushed[id] == e)
  }

  lemma {:induction false} MovePromised(s: State, m: Move, i: nat, e: Entry, from: nat)
    requires Promised(s, i, e, from) && Allowed(s, m) && (m.Schedule? ==> m.i != i)
    ensures Promised(Apply(s, m), i, e, from)
  {
    var s' := Apply(s, m);
    if id :| from <= id < |s.pushed| && s.pushed[id] == e {
      assert s'.pushed[id] == e;
    } else if m.Act? && m.t == C(i) && s.clients[i].CPush? {
      assert s'.pushed[|s.pushed|] == e;
    }
  }

  lemma {:induction false} RunPromised(s: State, moves: seq<Move>, s': State, i: nat, e: Entry, from: nat)
    requires Promised(s, i, e, from) && Runs(s, moves, s') && NoScheduleOf(moves, i)
    ensures Promised(s', i, e, from)
    decreases |moves|
  {
    if moves != [] {
      MovePromised(s, moves[0], i, e, from);
      RunPromised(Apply(s, moves[0]), moves[1..], s', i, e, from);
    }
  }

  /** What has been resumed was due. */
  ghost predicate ResumedDue(s: State) {
    forall id | 0 <= id < |s.pushed| && id < |s.resumes| && 0 < s.resumes[id] :: s.pushed[id].when <= s.clock
  }

  lemma {:induction false} RunResumedDue(s: State, moves: seq<Move>, s': State)
    requires Inv(s) && ResumedDue(s) && Runs(s, moves, s')
    ensures Inv(s') && ResumedDue(s')
    decreases |moves|
  {
    if moves != [] {
      MoveInv(s, moves[0]);
      RunResumedDue(Apply(s, moves[0]), moves[1..], s');
    }
  }

  /** In every run a call of schedule with a delay and a handle pushes an entry for that handle which is due that
      delay after the call, and the entry is not resumed before. */
  lemma {:induction false} DelayHonoured(
      clients: nat, now: int, before: seq<Move>, s: State, i: nat, delay: int, handle: nat, after: seq<Move>,
      s': State)
      returns (id: nat)
    requires Runs(Init(clients, now), before, s) && Allowed(s, Move.Schedule(i, delay, handle))
    requires Runs(Apply(s, Move.Schedule(i, delay, handle)), after, s') && NoScheduleOf(after, i)
    requires i < |s'.clients| && s'.clients[i].CIdle?
    ensures |s.pushed| <= id < |s'.pushed| == |s'.resumes|
    ensures s'.pushed[id] == Entry(s.clock + delay, handle)
    ensures s'.worker == RResume(id) || 0 < s'.resumes[id] ==> s.clock + delay <= s'.clock
  {
    var called := Apply(s, Move.Schedule(i, delay, handle));
    var e := Entry(s.clock + delay, handle);
    InitInv(clients, now);
    RunResumedDue(Init(clients, now), before, s);
    MoveInv(s, Move.Schedule(i, delay, handle));
    RunResumedDue(called, after, s');
    RunPromised(called, after, s', i, e, |s.pushed|);
    id :| |s.pushed| <= id < |s'.pushed| && s'.pushed[id] == e;
  }

  // ----- what the destructor leaves behind -----

  predicate NobodyInside(s: State) {
    forall i | 0 <= i < |s.clients| :: s.clients[i].CIdle?
  }

  predicate NoSchedule(moves: seq<Move>) {
    forall i | 0 <= i < |moves| :: !moves[i].Schedule?
  }

  /** With nobody inside schedule, a worker that has left has left an empty heap. */
  ghost predicate Closing(s: State) {
    Inv(s) && NobodyInside(s) && (s.worker.RExit? ==> s.heap == {})
  }

  lemma {:induction false} StaysClosing(s: State, moves: seq<Move>, s': State)
    requires Closing(s) && NoSchedule(moves) && Runs(s, moves, s')
    ensures Closing(s')
    decreases |moves|
  {
    if moves != [] {
      MoveInv(s, moves[0]);
      StaysClosing(Apply(s, moves[0]), moves[1..], s');
    }
  }

  lemma {:induction false} ClosingStops(s: State)
    requires Closing(s) && Stopped(s) && !s.destroyer.DIdle? && forall e | e in s.pushed :: e.when <= s.clock
    ensures s.destroyer.DDone?
  {
    OwnerMoves(s);
    if !s.worker.RExit? {
      StoppedShape(s);
    }
    assert !Enabled(s, D);
  }

  /** Where no schedule is in progress when the destructor is called and none starts later, no entry is left
      behind: when the worker has left, or the destructor has returned, every entry ever pushed has been resumed
      exactly once; and where nobody can act with all deadlines past, the destructor has returned. */
  lemma {:induction false} DestructorResumesAll(
      clients: nat, now: int, before: seq<Move>, s: State, after: seq<Move>, s': State)
    requires Runs(Init(clients, now), before, s) && s.destroyer.DIdle? && NobodyInside(s)
    requires NoSchedule(after) && Runs(s, after, s')
    ensures |s'.resumes| == |s'.pushed|
    ensures s'.worker.RExit? || s'.destroyer.DDone? ==>
              s'.heap == {} && forall id | 0 <= id < |s'.pushed| :: s'.resumes[id] == 1
    ensures Stopped(s') && !s'.destroyer.DIdle? && (forall e | e in s'.pushed :: e.when <= s'.clock) ==>
              s'.destroyer.DDone?
  {
    InitInv(clients, now);
    RunInv(Init(clients, now), before, s);
    StaysClosing(s, after, s');
    if Stopped(s') && !s'.destroyer.DIdle? && forall e | e in s'.pushed :: e.when <= s'.clock {
      ClosingStops(s');
    }
  }

  // ----- the service object -----

  class TimerService {
    var mtx: Option<Thread>
    var heap: set<nat>
    var stop: bool
    var clock: int
    var worker: Worker
    var clients: seq<Client>
    var destroyer: Destroyer
    // history
    var pushed: seq<Entry>
    var resumes: seq<nat>

    function View(): State
      reads this
    {
      State(mtx, heap, stop, clock, worker, clients, destroyer, pushed, resumes)
    }

    constructor (clients: nat, now: int)
      ensures View() == Init(clients, now)
    {
      mtx, heap, stop, clock, worker, destroyer := None, {}, false, now, RLock, DIdle;
      this.clients, pushed, resumes := seq(clients, _ => CIdle), [], [];
    }

    /** The next action of run(). */
    method WorkerTurn(pick: nat)
      requires Inv(View()) && Allowed(View(), Act(R, pick))
      modifies this
      ensures View() == WorkerStep(old(View()), pick)
    {
      match worker {
        case RLock => mtx, worker := Some(R), RLoop;
        case RWoken => mtx, worker := Some(R), RPred;
        case RLoop =>
          if stop && heap == {} {
            worker := RUnlockExit;
          } else if heap == {} {
            worker := RPred;
          } else {
            worker := RTop;
          }
        case RPred =>
          if stop || heap != {} {
            worker := RLoop;
          } else {
            mtx, worker := None, RAsleep;
          }
        case RTop =>
          if pushed[pick].when > clock {
            mtx, worker := None, RAsleepUntil(pushed[pick].when);
          } else {
            worker := RPop(pick);
          }
        case RAsleepUntil(_) => worker := RLock;
        case RPop(id) => heap, worker := heap - {id}, RUnlockRun(id);
        case RUnlockRun(id) => mtx, worker := None, RResume(id);
        case RResume(id) => resumes, worker := resumes[id := resumes[id] + 1], RLock;
        case RUnlockExit => mtx, worker := None, RExit;
      }
    }

    method Notify()
      modifies this`worker
      ensures worker == Wake(old(worker))
    {
      match worker {
        case RAsleep => worker := RWoken;
        case RAsleepUntil(_) => worker := RLock;
        case _ =>
      }
    }

    /** Thread `i` enters schedule. */
    method Schedule(i: nat, delay: int, handle: nat)
      requires Allowed(View(), Move.Schedule(i, delay, handle))
      modifies this`clients
      ensures View() == Apply(old(View()), Move.Schedule(i, delay, handle))
    {
      clients := clients[i := CLock(clock + delay, handle)];
    }

    /** The destructor begins. */
    method Shutdown()
      requires Allowed(View(), Destroy)
      modifies this`destroyer
      ensures View() == Apply(old(View()), Destroy)
    {
      destroyer := DLock;
    }

    /** The next action of thread `i` inside schedule. */
    method ScheduleTurn(i: nat)
      requires Enabled(View(), C(i))
      modifies this
      ensures View() == ClientStep(old(View()), i)
    {
      match clients[i] {
        case CLock(when, h) => mtx, clients := Some(C(i)), clients[i := CPush(when, h)];
        case CPush(when, h) =>
          heap, resumes := heap + {|pushed|}, resumes + [0];
          pushed, clients := pushed + [Entry(when, h)], clients[i := CUnlock];
        case CUnlock => mtx, clients := None, clients[i := CNotify];
        case CNotify =>
          Notify();
          clients := clients[i := CIdle];
      }
    }

    /** The next action of the destructor. */
    method DestroyTurn()
      requires Enabled(View(), D)
      modifies this
      ensures View() == DestroyStep(old(View()))
    {
      match destroyer {
        case DLock => mtx, destroyer := Some(D), DSet;
        case DSet => stop, destroyer := true, DUnlock;
        case DUnlock => mtx, destroyer := None, DNotify;
        case DNotify =>
          Notify();
          destroyer := DJoin;
        case DJoin => destroyer := DDone;
      }
    }

    method Tick(now: int)
      requires clock <= now
      modifies this`clock
      ensures View() == Apply(old(View()), Move.Tick(now))
    {
      clock := now;
    }

    /** The latest deadline set so far, or the present. */
    method Latest() returns (now: int)
      ensures clock <= now && forall e | e in pushed :: e.when <= now
    {
      now := clock;
      for i := 0 to |pushed|
        invariant clock <= now && forall e | e in pushed[..i] :: e.when <= now
      {
        if now < pushed[i].when {
          now := pushed[i].when;
        }
      }
    }
  }
}

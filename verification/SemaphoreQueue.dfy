/** The bounded queue of include/semaphore_queue.hpp as a state machine over its atomic steps.

    Any number of threads call push, pop, close and shutdown in any order; between two steps of one
    thread every other thread may run. A thread that is inside a call is described by a program counter
    (`Pc`) that names the next atomic action: one flag load, one semaphore operation, one lock or unlock,
    one access to the guarded queue. */
module SemaphoreQueues {
  import opened Tally

  /** A queued item, tagged with the thread that pushed it. */
  datatype Entry = Entry(pusher: nat, item: int)

  datatype Pc =
    | Idle
    // push
    | PushShut1(item: int) | PushClosed1(item: int)
    | PushAcquire(item: int)
    | PushShut2(item: int) | PushClosed2(item: int) | PushGiveBack
    | PushLock(item: int)
    | PushShut3(item: int) | PushClosed3(item: int) | PushGiveBackLocked | PushUnlockFail
    | PushEnqueue(item: int) | PushUnlock | PushSignal
    | PushDone(ok: bool)
    // pop
    | PopLock1 | PopEmpty1 | PopShut1 | PopClosed1 | PopUnlockFail | PopUnlock1
    | PopAcquire
    | PopLock2 | PopTake | PopSignal(item: int) | PopUnlockOk(item: int) | PopUnlock2
    | PopShut2 | PopClosed2 | PopGiveBack
    | PopDone(got: Option<int>)
    // close and shutdown; `size` is max_size_ + 1, `next` the producers to wake afterwards
    | StoreShut(size: nat)
    | StoreClosed(size: nat, next: nat)
    | WakeConsumers(left: nat, next: nat)
    | WakeProducers(left: nat)
    | CloseDone | ShutdownDone

  datatype Call = Push(item: int) | Pop | Close | Shutdown

  /** The fields of the queue object, then its history: everything ever enqueued and dequeued, the thread
      that took each dequeued item, and the wake permits that close and shutdown have released so far. */
  datatype Shared = Shared(
    mtx: Option<nat>, queue: seq<Entry>, empty: nat, filled: nat, cap: nat, closed: bool, shut: bool,
    enqueued: seq<Entry>, dequeued: seq<Entry>, takers: seq<nat>, wokenConsumers: nat, wokenProducers: nat)

  datatype State = State(sh: Shared, pcs: seq<Pc>)

  function Init(threads: nat, cap: nat): State {
    State(Shared(None, [], cap, 0, cap, false, false, [], [], [], 0, 0), seq(threads, _ => Idle))
  }

  /** The states in which a thread owns the mutex. */
  predicate InLock(pc: Pc) {
    match pc
    case PushShut3(_) | PushClosed3(_) | PushGiveBackLocked | PushUnlockFail | PushEnqueue(_) | PushUnlock
       | PopEmpty1 | PopShut1 | PopClosed1 | PopUnlockFail | PopUnlock1 | PopTake | PopSignal(_) | PopUnlockOk(_)
       | PopUnlock2 => true
    case _ => false
  }

  predicate AwaitsLock(pc: Pc) {
    pc.PushLock? || pc.PopLock1? || pc.PopLock2?
  }

  /** Between calls: nothing called yet, or a result waiting for the caller. */
  predicate Outside(pc: Pc) {
    pc.Idle? || pc.PushDone? || pc.PopDone? || pc.CloseDone? || pc.ShutdownDone?
  }

  /** A thread at `pc` is inside a call and its next action does not block. */
  predicate CanAct(sh: Shared, pc: Pc) {
    && !Outside(pc)
    && (AwaitsLock(pc) ==> sh.mtx.None?)
    && (pc.PushAcquire? ==> 0 < sh.empty)
    && (pc.PopAcquire? ==> 0 < sh.filled)
  }

  predicate Enabled(s: State, t: nat) {
    t < |s.pcs| && CanAct(s.sh, s.pcs[t])
  }

  function Start(sh: Shared, call: Call): Pc {
    match call
    case Push(x) => PushShut1(x)
    case Pop => PopLock1
    case Close => StoreClosed(sh.cap + 1, 0)
    case Shutdown => StoreShut(sh.cap + 1)
  }

  /** One atomic action of thread `t`, which is at `pc`: the new shared fields and the next action. */
  function Act(sh: Shared, t: nat, pc: Pc): (Shared, Pc)
    requires CanAct(sh, pc)
  {
    match pc
    // push
    case PushShut1(x) => (sh, if sh.shut then PushDone(false) else PushClosed1(x))
    case PushClosed1(x) => (sh, if sh.closed then PushDone(false) else PushAcquire(x))
    case PushAcquire(x) => (sh.(empty := sh.empty - 1), PushShut2(x))
    case PushShut2(x) => (sh, if sh.shut then PushGiveBack else PushClosed2(x))
    case PushClosed2(x) => (sh, if sh.closed then PushGiveBack else PushLock(x))
    case PushGiveBack => (sh.(empty := sh.empty + 1), PushDone(false))
    case PushLock(x) => (sh.(mtx := Some(t)), PushShut3(x))
    case PushShut3(x) => (sh, if sh.shut then PushGiveBackLocked else PushClosed3(x))
    case PushClosed3(x) => (sh, if sh.closed then PushGiveBackLocked else PushEnqueue(x))
    case PushGiveBackLocked => (sh.(empty := sh.empty + 1), PushUnlockFail)
    case PushUnlockFail => (sh.(mtx := None), PushDone(false))
    case PushEnqueue(x) =>
      (sh.(queue := sh.queue + [Entry(t, x)], enqueued := sh.enqueued + [Entry(t, x)]), PushUnlock)
    case PushUnlock => (sh.(mtx := None), PushSignal)
    case PushSignal => (sh.(filled := sh.filled + 1), PushDone(true))
    // pop
    case PopLock1 => (sh.(mtx := Some(t)), PopEmpty1)
    case PopEmpty1 => (sh, if sh.queue == [] then PopShut1 else PopUnlock1)
    case PopShut1 => (sh, if sh.shut then PopUnlockFail else PopClosed1)
    case PopClosed1 => (sh, if sh.closed then PopUnlockFail else PopUnlock1)
    case PopUnlockFail => (sh.(mtx := None), PopDone(None))
    case PopUnlock1 => (sh.(mtx := None), PopAcquire)
    case PopAcquire => (sh.(filled := sh.filled - 1), PopLock2)
    case PopLock2 => (sh.(mtx := Some(t)), PopTake)
    case PopTake =>
      if sh.queue == [] then (sh, PopUnlock2)
      else (sh.(queue := sh.queue[1..], dequeued := sh.dequeued + [sh.queue[0]], takers := sh.takers + [t]),
            PopSignal(sh.queue[0].item))
    case PopSignal(x) => (sh.(empty := sh.empty + 1), PopUnlockOk(x))
    case PopUnlockOk(x) => (sh.(mtx := None), PopDone(Some(x)))
    case PopUnlock2 => (sh.(mtx := None), PopShut2)
    case PopShut2 => (sh, if sh.shut then PopGiveBack else PopClosed2)
    case PopClosed2 => (sh, if sh.closed then PopGiveBack else PopLock1)
    case PopGiveBack => (sh.(filled := sh.filled + 1), PopDone(None))
    // close and shutdown
    case StoreShut(n) => (sh.(shut := true), StoreClosed(n, n))
    case StoreClosed(n, p) => (sh.(closed := true), WakeConsumers(n, p))
    case WakeConsumers(l, p) =>
      if l == 0 then (sh, if p == 0 then CloseDone else WakeProducers(p))
      else (sh.(filled := sh.filled + 1, wokenConsumers := sh.wokenConsumers + 1), WakeConsumers(l - 1, p))
    case WakeProducers(l) =>
      if l == 0 then (sh, ShutdownDone)
      else (sh.(empty := sh.empty + 1, wokenProducers := sh.wokenProducers + 1), WakeProducers(l - 1))
  }

  function Step(s: State, t: nat): State
    requires Enabled(s, t)
  {
    var (sh, pc) := Act(s.sh, t, s.pcs[t]);
    State(sh, s.pcs[t := pc])
  }

  /** Thread `t` picks up its last result, if any, and enters `call`. */
  function Begin(s: State, t: nat, call: Call): State
    requires t < |s.pcs|
  {
    s.(pcs := s.pcs[t := Start(s.sh, call)])
  }

  // ----- the invariant -----

  /** Holds an empty-slot permit: acquired and neither returned nor turned into a queued item. */
  function HoldsEmpty(pc: Pc): int {
    match pc
    case PushShut2(_) | PushClosed2(_) | PushGiveBack | PushLock(_) | PushShut3(_) | PushClosed3(_)
       | PushGiveBackLocked | PushEnqueue(_) | PopSignal(_) => 1
    case _ => 0
  }

  /** Holds a filled-slot permit (pop), or has queued an item and still owes its permit (push). */
  function HoldsFilled(pc: Pc): int {
    match pc
    case PushUnlock | PushSignal | PopLock2 | PopTake | PopUnlock2 | PopShut2 | PopClosed2 | PopGiveBack => 1
    case _ => 0
  }

  /** Has passed the last flag check and is about to enqueue. */
  function Committed(pc: Pc): int {
    if pc.PushEnqueue? then 1 else 0
  }

  /** Found the queue empty under the lock, having taken a permit. */
  predicate FoundEmpty(pc: Pc) {
    pc.PopUnlock2? || pc.PopShut2? || pc.PopClosed2? || pc.PopGiveBack?
  }

  /** A pop that has decided to return false, or can only go on to decide it. */
  predicate GivesUp(pc: Pc) {
    pc.PopUnlockFail? || FoundEmpty(pc) || pc == PopDone(None)
  }

  /** A push that would still enqueue if it ran on alone. */
  predicate MayEnqueue(sh: Shared, pc: Pc) {
    pc.PushEnqueue? || (pc.PushClosed3? && !sh.closed)
  }

  /** Nothing is queued and no push can queue anything any more. */
  ghost predicate Settled(s: State) {
    && s.sh.queue == []
    && (s.sh.closed || s.sh.shut)
    && forall u | 0 <= u < |s.pcs| :: !MayEnqueue(s.sh, s.pcs[u])
  }

  ghost predicate LockOwned(s: State) {
    && (s.sh.mtx.Some? ==> s.sh.mtx.value < |s.pcs|)
    && forall u | 0 <= u < |s.pcs| :: InLock(s.pcs[u]) <==> s.sh.mtx == Some(u)
  }

  /** What a program counter says about the flags and the wake permits; it stays true as those grow. */
  ghost predicate Fits(sh: Shared, pc: Pc) {
    match pc
    case StoreShut(size) => size == sh.cap + 1
    case StoreClosed(size, next) => size == sh.cap + 1 && NextFits(sh, next)
    case WakeConsumers(left, next) =>
      sh.closed && left + sh.wokenConsumers >= sh.cap + 1 && NextFits(sh, next)
    case WakeProducers(left) => Closed(sh) && sh.shut && left + sh.wokenProducers >= sh.cap + 1
    case CloseDone => Closed(sh)
    case ShutdownDone => Closed(sh) && ShutDown(sh)
    case PopUnlock2 | PopShut2 | PopClosed2 | PopGiveBack => sh.closed
    case _ => true
  }

  predicate NextFits(sh: Shared, next: nat) {
    next == 0 || (next == sh.cap + 1 && sh.shut)
  }

  /** Some close or shutdown has released all its consumer permits. */
  predicate Closed(sh: Shared) {
    sh.closed && sh.wokenConsumers >= sh.cap + 1
  }

  /** Some shutdown has released all its producer permits. */
  predicate ShutDown(sh: Shared) {
    sh.shut && sh.wokenProducers >= sh.cap + 1
  }

  /** A pop that saw an empty queue still holds the lock, so the queue is still empty. */
  predicate Peeked(sh: Shared, pc: Pc) {
    pc.PopShut1? || pc.PopClosed1? ==> sh.queue == []
  }

  ghost predicate Permits(s: State) {
    && s.sh.empty + Sum(s.pcs, HoldsEmpty) + |s.sh.queue| == s.sh.cap + s.sh.wokenProducers
    && s.sh.filled + Sum(s.pcs, HoldsFilled) == |s.sh.queue| + s.sh.wokenConsumers
    && |s.sh.queue| + Sum(s.pcs, Committed) <= s.sh.cap
    && (0 < s.sh.wokenConsumers ==> s.sh.closed)
    && (0 < s.sh.wokenProducers ==> s.sh.closed && s.sh.shut)
  }

  ghost predicate Inv(s: State) {
    && LockOwned(s)
    && Permits(s)
    && s.sh.dequeued + s.sh.queue == s.sh.enqueued
    && |s.sh.takers| == |s.sh.dequeued|
    && (forall u | 0 <= u < |s.pcs| :: Fits(s.sh, s.pcs[u]) && Peeked(s.sh, s.pcs[u]))
    && (forall u | 0 <= u < |s.pcs| && GivesUp(s.pcs[u]) :: Settled(s))
  }

  // ----- what one action does, without regard to the other threads -----

  lemma ActEmptyPermits(sh: Shared, t: nat, pc: Pc)
    requires CanAct(sh, pc)
    ensures var (sh', pc') := Act(sh, t, pc);
            sh'.empty + HoldsEmpty(pc') + |sh'.queue| - sh'.wokenProducers
            == sh.empty + HoldsEmpty(pc) + |sh.queue| - sh.wokenProducers
  {}

  lemma ActFilledPermits(sh: Shared, t: nat, pc: Pc)
    requires CanAct(sh, pc) && (pc.PopClosed2? ==> sh.closed)
    ensures var (sh', pc') := Act(sh, t, pc);
            sh'.filled + HoldsFilled(pc') - |sh'.queue| - sh'.wokenConsumers
            == sh.filled + HoldsFilled(pc) - |sh.queue| - sh.wokenConsumers
  {}

  /** Room for a new commitment comes from a permit held while no flag is set. */
  lemma ActCapacity(sh: Shared, t: nat, pc: Pc)
    requires CanAct(sh, pc)
    ensures var (sh', pc') := Act(sh, t, pc);
            || |sh'.queue| + Committed(pc') <= |sh.queue| + Committed(pc)
            || (!sh.closed && sh' == sh && HoldsEmpty(pc) == 1)
  {}

  lemma ActWakes(sh: Shared, t: nat, pc: Pc)
    requires CanAct(sh, pc) && Fits(sh, pc)
    ensures var sh' := Act(sh, t, pc).0;
            && (sh.wokenConsumers < sh'.wokenConsumers ==> sh.closed)
            && (sh.wokenProducers < sh'.wokenProducers ==> sh.closed && sh.shut)
  {}

  lemma ActHistory(sh: Shared, t: nat, pc: Pc)
    requires CanAct(sh, pc) && sh.dequeued + sh.queue == sh.enqueued
    ensures var sh' := Act(sh, t, pc).0;
            && sh'.dequeued + sh'.queue == sh'.enqueued
            && |sh'.takers| - |sh'.dequeued| == |sh.takers| - |sh.dequeued|
  {}

  /** Flags and wake permits only grow, and the capacity never changes. */
  ghost predicate Grows(sh: Shared, sh': Shared) {
    && sh.cap == sh'.cap
    && (sh.closed ==> sh'.closed)
    && (sh.shut ==> sh'.shut)
    && sh.wokenConsumers <= sh'.wokenConsumers
    && sh.wokenProducers <= sh'.wokenProducers
  }

  lemma ActGrows(sh: Shared, t: nat, pc: Pc)
    requires CanAct(sh, pc)
    ensures Grows(sh, Act(sh, t, pc).0)
  {}

  lemma ActFits(sh: Shared, t: nat, pc: Pc)
    requires CanAct(sh, pc) && Fits(sh, pc)
    requires pc.PopTake? ==> sh.queue != [] || sh.closed
    ensures var (sh', pc') := Act(sh, t, pc); Fits(sh', pc')
  {}

  lemma ActPeeked(sh: Shared, t: nat, pc: Pc)
    requires CanAct(sh, pc) && Peeked(sh, pc)
    ensures var (sh', pc') := Act(sh, t, pc); Peeked(sh', pc')
  {}

  lemma ActLock(sh: Shared, t: nat, pc: Pc)
    requires CanAct(sh, pc)
    requires InLock(pc) <==> sh.mtx == Some(t)
    ensures var (sh', pc') := Act(sh, t, pc);
            && (InLock(pc') <==> sh'.mtx == Some(t))
            && (sh'.mtx == sh.mtx || (sh.mtx in {None, Some(t)} && sh'.mtx in {None, Some(t)}))
            && (sh'.queue != sh.queue ==> InLock(pc))
  {}

  lemma ActSettled(sh: Shared, t: nat, pc: Pc)
    requires CanAct(sh, pc) && sh.queue == [] && (sh.closed || sh.shut) && !MayEnqueue(sh, pc)
    ensures var (sh', pc') := Act(sh, t, pc);
            && sh'.queue == [] && (sh'.closed || sh'.shut) && !MayEnqueue(sh', pc')
            && sh'.enqueued == sh.enqueued && sh'.dequeued == sh.dequeued
  {}

  /** A pop starts to give up only where it owns the lock, the queue is empty and a flag is set. */
  lemma ActGivesUp(sh: Shared, t: nat, pc: Pc)
    requires CanAct(sh, pc) && Peeked(sh, pc) && Fits(sh, pc)
    requires pc.PopTake? ==> sh.queue != [] || sh.closed
    requires GivesUp(Act(sh, t, pc).1) && !GivesUp(pc)
    ensures var (sh', pc') := Act(sh, t, pc);
            InLock(pc) && sh'.queue == [] && (sh'.closed || sh'.shut) && sh' == sh
  {}

  // ----- every step of every thread keeps the invariant -----

  lemma SumsAfter(pcs: seq<Pc>, t: nat, pc: Pc)
    requires t < |pcs|
    ensures Sum(pcs[t := pc], HoldsEmpty) == Sum(pcs, HoldsEmpty) - HoldsEmpty(pcs[t]) + HoldsEmpty(pc)
    ensures Sum(pcs[t := pc], HoldsFilled) == Sum(pcs, HoldsFilled) - HoldsFilled(pcs[t]) + HoldsFilled(pc)
    ensures Sum(pcs[t := pc], Committed) == Sum(pcs, Committed) - Committed(pcs[t]) + Committed(pc)
    ensures 0 <= Sum(pcs, Committed) <= Sum(pcs, HoldsEmpty) - HoldsEmpty(pcs[t]) + Committed(pcs[t])
    ensures HoldsFilled(pcs[t]) <= Sum(pcs, HoldsFilled)
  {
    SumUpdate(pcs, HoldsEmpty, t, pc);
    SumUpdate(pcs, HoldsFilled, t, pc);
    SumUpdate(pcs, Committed, t, pc);
    SumNonNegative(pcs, Committed);
    SumUpdate(pcs, HoldsEmpty, t, Idle);
    SumUpdate(pcs, Committed, t, Idle);
    SumMonotone(pcs[t := Idle], Committed, HoldsEmpty);
    SumAtLeast(pcs, HoldsFilled, t);
  }

  /** A pop that finds the queue empty holds a wake permit, so the queue has been closed. */
  lemma EmptyMeansClosed(s: State, t: nat)
    requires Permits(s) && t < |s.pcs| && HoldsFilled(s.pcs[t]) == 1 && s.sh.queue == []
    ensures s.sh.closed
  {
    SumAtLeast(s.pcs, HoldsFilled, t);
  }

  lemma StepPermits(s: State, t: nat)
    requires Inv(s) && Enabled(s, t)
    ensures Permits(Step(s, t))
  {
    var s' := Step(s, t);
    assert Fits(s.sh, s.pcs[t]);
    ActEmptyPermits(s.sh, t, s.pcs[t]);
    ActFilledPermits(s.sh, t, s.pcs[t]);
    ActCapacity(s.sh, t, s.pcs[t]);
    ActWakes(s.sh, t, s.pcs[t]);
    ActGrows(s.sh, t, s.pcs[t]);
    SumsAfter(s.pcs, t, s'.pcs[t]);
  }

  lemma StepLockOwned(s: State, t: nat)
    requires LockOwned(s) && Enabled(s, t)
    ensures LockOwned(Step(s, t))
    ensures Step(s, t).sh.queue != s.sh.queue ==> s.sh.mtx == Some(t)
  {
    ActLock(s.sh, t, s.pcs[t]);
  }

  lemma StepFits(s: State, t: nat)
    requires Inv(s) && Enabled(s, t)
    ensures var s' := Step(s, t); forall u | 0 <= u < |s'.pcs| :: Fits(s'.sh, s'.pcs[u]) && Peeked(s'.sh, s'.pcs[u])
  {
    var s' := Step(s, t);
    var pc := s.pcs[t];
    assert Fits(s.sh, pc) && Peeked(s.sh, pc);
    if pc.PopTake? && s.sh.queue == [] {
      EmptyMeansClosed(s, t);
    }
    ActFits(s.sh, t, pc);
    ActPeeked(s.sh, t, pc);
    ActGrows(s.sh, t, pc);
    StepLockOwned(s, t);
    forall u | 0 <= u < |s.pcs| && u != t ensures Fits(s'.sh, s'.pcs[u]) && Peeked(s'.sh, s'.pcs[u]) {
      assert Fits(s.sh, s.pcs[u]) && Peeked(s.sh, s.pcs[u]);
    }
  }

  /** Once settled, always settled, with the history frozen. */
  lemma StepSettled(s: State, t: nat)
    requires Settled(s) && Enabled(s, t)
    ensures Settled(Step(s, t))
    ensures Step(s, t).sh.enqueued == s.sh.enqueued && Step(s, t).sh.dequeued == s.sh.dequeued
  {
    ActSettled(s.sh, t, s.pcs[t]);
    ActGrows(s.sh, t, s.pcs[t]);
  }

  lemma StepGivesUp(s: State, t: nat)
    requires Inv(s) && Enabled(s, t)
    ensures var s' := Step(s, t); forall u | 0 <= u < |s'.pcs| && GivesUp(s'.pcs[u]) :: Settled(s')
  {
    var s' := Step(s, t);
    var pc := s.pcs[t];
    if u :| 0 <= u < |s.pcs| && GivesUp(s.pcs[u]) {
      StepSettled(s, t);
    } else if GivesUp(s'.pcs[t]) {
      assert Fits(s.sh, pc) && Peeked(s.sh, pc);
      if pc.PopTake? && s.sh.queue == [] {
        EmptyMeansClosed(s, t);
      }
      ActGivesUp(s.sh, t, pc);
      assert Settled(s');
    }
  }

  lemma StepInv(s: State, t: nat)
    requires Inv(s) && Enabled(s, t)
    ensures Inv(Step(s, t))
  {
    StepPermits(s, t);
    StepLockOwned(s, t);
    StepFits(s, t);
    StepGivesUp(s, t);
    ActHistory(s.sh, t, s.pcs[t]);
  }

  lemma StartFits(sh: Shared, call: Call)
    ensures var pc := Start(sh, call);
            && Fits(sh, pc) && Peeked(sh, pc) && !GivesUp(pc) && !MayEnqueue(sh, pc) && !InLock(pc)
            && HoldsEmpty(pc) == HoldsFilled(pc) == Committed(pc) == 0
  {}

  lemma OutsideHoldsNothing(pc: Pc)
    requires Outside(pc)
    ensures HoldsEmpty(pc) == HoldsFilled(pc) == Committed(pc) == 0 && !InLock(pc)
  {}

  lemma BeginPermits(s: State, t: nat, call: Call)
    requires Permits(s) && t < |s.pcs| && Outside(s.pcs[t])
    ensures Permits(Begin(s, t, call))
  {
    StartFits(s.sh, call);
    OutsideHoldsNothing(s.pcs[t]);
    SumsAfter(s.pcs, t, Start(s.sh, call));
  }

  lemma BeginInv(s: State, t: nat, call: Call)
    requires Inv(s) && t < |s.pcs| && Outside(s.pcs[t])
    ensures Inv(Begin(s, t, call))
    ensures Settled(s) ==> Settled(Begin(s, t, call))
  {
    StartFits(s.sh, call);
    OutsideHoldsNothing(s.pcs[t]);
    BeginPermits(s, t, call);
  }

  lemma InitInv(threads: nat, cap: nat)
    ensures Inv(Init(threads, cap))
  {
    var pcs := Init(threads, cap).pcs;
    SumConstant(pcs, HoldsEmpty, 0);
    SumConstant(pcs, HoldsFilled, 0);
    SumConstant(pcs, Committed, 0);
  }

  // ----- whole runs: any threads, any calls, any interleaving -----

  ghost predicate Next(s: State, s': State) {
    || (exists t: nat :: Enabled(s, t) && s' == Step(s, t))
    || (exists t: nat, call :: t < |s.pcs| && Outside(s.pcs[t]) && s' == Begin(s, t, call))
  }

  ghost predicate NextAt(run: seq<State>, i: nat) {
    i + 1 < |run| && Next(run[i], run[i + 1])
  }

  ghost predicate IsRun(run: seq<State>) {
    0 < |run| && forall i | 0 <= i < |run| - 1 :: NextAt(run, i)
  }

  ghost predicate Reachable(s: State, threads: nat, cap: nat) {
    exists run :: IsRun(run) && run[0] == Init(threads, cap) && run[|run| - 1] == s
  }

  lemma NextInv(s: State, s': State)
    requires Inv(s) && Next(s, s')
    ensures Inv(s') && s'.sh.cap == s.sh.cap && |s'.pcs| == |s.pcs|
  {
    if t: nat :| Enabled(s, t) && s' == Step(s, t) {
      StepInv(s, t);
      ActGrows(s.sh, t, s.pcs[t]);
    } else {
      var t: nat, call :| t < |s.pcs| && Outside(s.pcs[t]) && s' == Begin(s, t, call);
      BeginInv(s, t, call);
    }
  }

  lemma NextSettled(s: State, s': State)
    requires Settled(s) && Next(s, s')
    ensures Settled(s') && s'.sh.enqueued == s.sh.enqueued && s'.sh.dequeued == s.sh.dequeued
  {
    if t: nat :| Enabled(s, t) && s' == Step(s, t) {
      StepSettled(s, t);
    } else {
      var t: nat, call :| t < |s.pcs| && Outside(s.pcs[t]) && s' == Begin(s, t, call);
      StartFits(s.sh, call);
    }
  }

  lemma {:induction false} RunInv(run: seq<State>, i: nat)
    requires IsRun(run) && Inv(run[0]) && i < |run|
    ensures Inv(run[i]) && run[i].sh.cap == run[0].sh.cap && |run[i].pcs| == |run[0].pcs|
  {
    if 0 < i {
      RunInv(run, i - 1);
      assert NextAt(run, i - 1);
      NextInv(run[i - 1], run[i]);
    }
  }

  lemma ReachableInv(s: State, threads: nat, cap: nat)
    requires Reachable(s, threads, cap)
    ensures Inv(s) && s.sh.cap == cap && |s.pcs| == threads
  {
    var run :| IsRun(run) && run[0] == Init(threads, cap) && run[|run| - 1] == s;
    InitInv(threads, cap);
    RunInv(run, |run| - 1);
  }

  /** The queue never holds more than `cap` items, even when shutdown has added any number of surplus
      empty-slot permits. */
  lemma CapacityHolds(s: State, threads: nat, cap: nat)
    requires Reachable(s, threads, cap)
    ensures |s.sh.queue| <= cap
  {
    ReachableInv(s, threads, cap);
    SumNonNegative(s.pcs, Committed);
  }

  /** No permit is ever lost or invented. */
  lemma PermitsConserved(s: State, threads: nat, cap: nat)
    requires Reachable(s, threads, cap)
    ensures s.sh.empty + Sum(s.pcs, HoldsEmpty) + |s.sh.queue| == cap + s.sh.wokenProducers
    ensures s.sh.filled + Sum(s.pcs, HoldsFilled) == |s.sh.queue| + s.sh.wokenConsumers
  {
    ReachableInv(s, threads, cap);
  }

  /** The loop in pop never goes round: a pop that found the queue empty always leaves with false. */
  lemma PopNeverRetries(s: State, threads: nat, cap: nat, t: nat)
    requires Reachable(s, threads, cap)
    requires Enabled(s, t) && s.pcs[t].PopClosed2?
    ensures Step(s, t).pcs[t] == PopGiveBack
  {
    ReachableInv(s, threads, cap);
    assert Fits(s.sh, s.pcs[t]);
  }

  lemma {:induction false} SettledForever(run: seq<State>, i: nat, j: nat)
    requires IsRun(run) && i <= j < |run| && Settled(run[i])
    ensures Settled(run[j])
    ensures run[j].sh.enqueued == run[i].sh.enqueued && run[j].sh.dequeued == run[i].sh.dequeued
  {
    if i < j {
      SettledForever(run, i, j - 1);
      assert NextAt(run, j - 1);
      NextSettled(run[j - 1], run[j]);
    }
  }

  /** From the moment a pop decides to return false, the queue stays empty, nothing is enqueued any more and
      everything ever enqueued has been dequeued. */
  lemma {:induction false} DrainIsFinal(run: seq<State>, i: nat, j: nat, t: nat, threads: nat, cap: nat)
    requires IsRun(run) && run[0] == Init(threads, cap)
    requires i <= j < |run| && t < |run[i].pcs| && GivesUp(run[i].pcs[t])
    ensures run[j].sh.queue == []
    ensures run[j].sh.dequeued == run[j].sh.enqueued == run[i].sh.enqueued
  {
    InitInv(threads, cap);
    RunInv(run, i);
    RunInv(run, j);
    SettledForever(run, i, j);
  }

  // ----- order -----

  /** The items of one pusher, in order. */
  function From(es: seq<Entry>, p: nat): seq<int> {
    if es == [] then []
    else From(es[..|es| - 1], p) + (if es[|es| - 1].pusher == p then [es[|es| - 1].item] else [])
  }

  lemma {:induction false} FromConcat(a: seq<Entry>, b: seq<Entry>, p: nat)
    ensures From(a + b, p) == From(a, p) + From(b, p)
  {
    if b == [] {
      assert a + b == a;
    } else {
      var m := |b| - 1;
      assert (a + b)[..|a| + m] == a + b[..m];
      FromConcat(a, b[..m], p);
    }
  }

  /** FIFO in every interleaving: the dequeued items are a prefix of the enqueued ones, overall and for each
      pusher, and what is missing from the prefix is exactly what is still queued. */
  lemma FifoHolds(s: State, threads: nat, cap: nat, p: nat)
    requires Reachable(s, threads, cap)
    ensures s.sh.dequeued + s.sh.queue == s.sh.enqueued
    ensures From(s.sh.dequeued, p) + From(s.sh.queue, p) == From(s.sh.enqueued, p)
  {
    ReachableInv(s, threads, cap);
    FromConcat(s.sh.dequeued, s.sh.queue, p);
  }

  // ----- progress -----

  /** An upper bound on the actions left in the current call. */
  function Rank(pc: Pc): int {
    match pc
    case PushShut1(_) => 11 case PushClosed1(_) => 10 case PushAcquire(_) => 9 case PushShut2(_) => 8
    case PushClosed2(_) => 7 case PushLock(_) => 6 case PushShut3(_) => 5 case PushClosed3(_) => 4
    case PushEnqueue(_) => 3 case PushUnlock => 2 case PushSignal => 1
    case PushGiveBackLocked => 2 case PushUnlockFail => 1 case PushGiveBack => 1
    case PopLock1 => 12 case PopEmpty1 => 11 case PopShut1 => 10 case PopClosed1 => 9 case PopUnlock1 => 8
    case PopAcquire => 7 case PopLock2 => 6 case PopTake => 5 case PopUnlock2 => 4 case PopShut2 => 3
    case PopClosed2 => 2 case PopGiveBack => 1 case PopSignal(_) => 2 case PopUnlockOk(_) => 1
    case PopUnlockFail => 1
    case StoreShut(n) => 2 * n + 4 case StoreClosed(n, p) => n + p + 3 case WakeConsumers(l, p) => l + p + 2
    case WakeProducers(l) => l + 1
    case _ => 0
  }

  lemma PushRank(sh: Shared, t: nat, pc: Pc)
    requires CanAct(sh, pc) && InPush(pc)
    ensures Rank(Act(sh, t, pc).1) < Rank(pc)
  {}

  lemma PopRank(sh: Shared, t: nat, pc: Pc)
    requires CanAct(sh, pc) && InPop(pc) && (pc.PopClosed2? ==> sh.closed)
    ensures Rank(Act(sh, t, pc).1) < Rank(pc)
  {}

  lemma ActRank(sh: Shared, t: nat, pc: Pc)
    requires CanAct(sh, pc) && (pc.PopClosed2? ==> sh.closed)
    ensures Rank(Act(sh, t, pc).1) < Rank(pc)
  {
    if InPush(pc) {
      PushRank(sh, t, pc);
    } else if InPop(pc) {
      PopRank(sh, t, pc);
    }
  }

  lemma RankNonNegative(pc: Pc)
    ensures 0 <= Rank(pc)
    ensures Rank(pc) == 0 <==> Outside(pc)
  {}

  /** Every action of every thread uses up one of a bounded number of actions: without new calls, a run
      from `s` has at most Sum(s.pcs, Rank) steps. */
  lemma StepRank(s: State, t: nat)
    requires Inv(s) && Enabled(s, t)
    ensures 0 <= Sum(Step(s, t).pcs, Rank) < Sum(s.pcs, Rank)
  {
    var s' := Step(s, t);
    assert Fits(s.sh, s.pcs[t]);
    ActRank(s.sh, t, s.pcs[t]);
    SumUpdate(s.pcs, Rank, t, s'.pcs[t]);
    RanksNonNegative(s'.pcs);
  }

  ghost predicate Stuck(s: State) {
    forall t | 0 <= t < |s.pcs| :: !Enabled(s, t)
  }

  /** Whoever holds the mutex can act. */
  lemma OwnerMoves(s: State)
    requires LockOwned(s)
    ensures s.sh.mtx.Some? ==> Enabled(s, s.sh.mtx.value)
  {
    if s.sh.mtx.Some? {
      assert InLock(s.pcs[s.sh.mtx.value]);
    }
  }

  /** When no thread can act, the mutex is free, every open call waits for a permit, pops wait only because
      the queue is empty and never woken, pushes only because the queue is full and never shut down. */
  lemma StuckShape(s: State)
    requires Inv(s) && Stuck(s)
    ensures s.sh.mtx.None?
    ensures forall t | 0 <= t < |s.pcs| :: Outside(s.pcs[t]) || s.pcs[t].PushAcquire? || s.pcs[t].PopAcquire?
    ensures forall t | 0 <= t < |s.pcs| ::
              (s.pcs[t].PushAcquire? ==> s.sh.empty == 0) && (s.pcs[t].PopAcquire? ==> s.sh.filled == 0)
    ensures s.sh.filled == |s.sh.queue| + s.sh.wokenConsumers
    ensures s.sh.empty == s.sh.cap + s.sh.wokenProducers - |s.sh.queue|
  {
    OwnerMoves(s);
    forall t | 0 <= t < |s.pcs|
      ensures Outside(s.pcs[t]) || s.pcs[t].PushAcquire? || s.pcs[t].PopAcquire?
      ensures HoldsEmpty(s.pcs[t]) == HoldsFilled(s.pcs[t]) == 0
      ensures (s.pcs[t].PushAcquire? ==> s.sh.empty == 0) && (s.pcs[t].PopAcquire? ==> s.sh.filled == 0)
    {
      assert !Enabled(s, t);
    }
    SumConstant(s.pcs, HoldsEmpty, 0);
    SumConstant(s.pcs, HoldsFilled, 0);
  }

  /** A push and a pop are never both left waiting for each other when the capacity is positive. */
  lemma NoMutualWait(s: State, t: nat, u: nat)
    requires Inv(s) && 1 <= s.sh.cap
    requires t < |s.pcs| && u < |s.pcs| && s.pcs[t].PushAcquire? && s.pcs[u].PopAcquire?
    ensures !Stuck(s)
  {
    if Stuck(s) {
      StuckShape(s);
    }
  }

  lemma ReachInit(threads: nat, cap: nat)
    ensures Reachable(Init(threads, cap), threads, cap)
  {
    assert IsRun([Init(threads, cap)]);
  }

  lemma ReachNext(s: State, s': State, threads: nat, cap: nat)
    requires Reachable(s, threads, cap) && Next(s, s')
    ensures Reachable(s', threads, cap)
  {
    var run :| IsRun(run) && run[0] == Init(threads, cap) && run[|run| - 1] == s;
    var longer := run + [s'];
    forall i | 0 <= i < |longer| - 1 ensures NextAt(longer, i) {
      if i < |run| - 1 {
        assert NextAt(run, i);
      }
    }
    assert IsRun(longer);
  }

  /** Thread `t` acts on its own: the other program counters `pcs` stay as they are. */
  lemma ReachAct(sh: Shared, pcs: seq<Pc>, t: nat, pc: Pc, sh': Shared, pc': Pc, threads: nat, cap: nat)
    requires t < |pcs| && Reachable(State(sh, pcs[t := pc]), threads, cap)
    requires CanAct(sh, pc) && Act(sh, t, pc) == (sh', pc')
    ensures Reachable(State(sh', pcs[t := pc']), threads, cap)
  {
    var s := State(sh, pcs[t := pc]);
    assert pcs[t := pc][t := pc'] == pcs[t := pc'];
    assert Step(s, t) == State(sh', pcs[t := pc']);
    ReachNext(s, Step(s, t), threads, cap);
  }

  lemma ReachBegin(s: State, t: nat, call: Call, threads: nat, cap: nat) returns (s': State)
    requires Reachable(s, threads, cap) && t < |s.pcs| && Outside(s.pcs[t])
    ensures s' == Begin(s, t, call) && Reachable(s', threads, cap)
  {
    s' := Begin(s, t, call);
    ReachNext(s, s', threads, cap);
  }

  /** No thread can act while one push and one pop wait for a permit. */
  ghost predicate MutualWait(s: State) {
    && Stuck(s)
    && (exists t: nat :: t < |s.pcs| && s.pcs[t].PushAcquire?)
    && (exists u: nat :: u < |s.pcs| && s.pcs[u].PopAcquire?)
  }

  /** Thread 0 runs a push up to its first semaphore. */
  lemma PushReachesAcquire(threads: nat, cap: nat) returns (s: State)
    requires 0 < threads
    ensures Reachable(s, threads, cap)
    ensures s == State(Init(threads, cap).sh, Init(threads, cap).pcs[0 := PushAcquire(0)])
  {
    var (sh, pcs) := (Init(threads, cap).sh, Init(threads, cap).pcs);
    ReachInit(threads, cap);
    s := ReachBegin(Init(threads, cap), 0, Push(0), threads, cap);
    ReachAct(sh, pcs, 0, PushShut1(0), sh, PushClosed1(0), threads, cap);
    ReachAct(sh, pcs, 0, PushClosed1(0), sh, PushAcquire(0), threads, cap);
    s := State(sh, pcs[0 := PushAcquire(0)]);
  }

  /** Thread 1 starts a pop and finds nothing queued. */
  lemma PopPeeks(sh: Shared, pcs: seq<Pc>, threads: nat, cap: nat)
    requires Reachable(State(sh, pcs), threads, cap) && 1 < |pcs| && pcs[1].Idle?
    requires sh.mtx.None? && sh.queue == []
    ensures Reachable(State(sh.(mtx := Some(1)), pcs[1 := PopShut1]), threads, cap)
  {
    var locked := sh.(mtx := Some(1));
    var s := ReachBegin(State(sh, pcs), 1, Pop, threads, cap);
    ReachAct(sh, pcs, 1, PopLock1, locked, PopEmpty1, threads, cap);
    ReachAct(locked, pcs, 1, PopEmpty1, locked, PopShut1, threads, cap);
  }

  lemma PopPassesFlags(sh: Shared, pcs: seq<Pc>, threads: nat, cap: nat)
    requires 1 < |pcs| && Reachable(State(sh, pcs[1 := PopShut1]), threads, cap) && !sh.shut && !sh.closed
    ensures Reachable(State(sh, pcs[1 := PopUnlock1]), threads, cap)
  {
    ReachAct(sh, pcs, 1, PopShut1, sh, PopClosed1, threads, cap);
    ReachAct(sh, pcs, 1, PopClosed1, sh, PopUnlock1, threads, cap);
  }

  /** With no flag set it goes on to its semaphore. */
  lemma PopReachesAcquire(sh: Shared, pcs: seq<Pc>, threads: nat, cap: nat)
    requires Reachable(State(sh, pcs), threads, cap) && 1 < |pcs| && pcs[1].Idle?
    requires sh.mtx.None? && sh.queue == [] && !sh.shut && !sh.closed
    ensures Reachable(State(sh, pcs[1 := PopAcquire]), threads, cap)
  {
    var locked := sh.(mtx := Some(1));
    PopPeeks(sh, pcs, threads, cap);
    PopPassesFlags(locked, pcs, threads, cap);
    ReachAct(locked, pcs, 1, PopUnlock1, sh, PopAcquire, threads, cap);
  }

  lemma ZeroCapacityWaits(threads: nat) returns (s: State)
    requires 2 <= threads
    ensures Reachable(s, threads, 0) && MutualWait(s)
  {
    s := PushReachesAcquire(threads, 0);
    PopReachesAcquire(s.sh, s.pcs, threads, 0);
    s := State(s.sh, s.pcs[1 := PopAcquire]);
    assert s.pcs[0].PushAcquire? && s.pcs[1].PopAcquire?;
  }

  /** A push and a pop can wait for each other for ever exactly when the capacity is zero. */
  lemma MutualWaitIffNoCapacity(threads: nat, cap: nat)
    requires 2 <= threads
    ensures (exists s :: Reachable(s, threads, cap) && MutualWait(s)) <==> cap == 0
  {
    if cap == 0 {
      var s := ZeroCapacityWaits(threads);
    } else {
      forall s | Reachable(s, threads, cap) && MutualWait(s) ensures false {
        ReachableInv(s, threads, cap);
        var t: nat :| t < |s.pcs| && s.pcs[t].PushAcquire?;
        var u: nat :| u < |s.pcs| && s.pcs[u].PopAcquire?;
        NoMutualWait(s, t, u);
      }
    }
  }

  lemma ClosedPermits(s: State)
    requires Inv(s) && Closed(s.sh)
    ensures s.sh.filled + Sum(s.pcs, HoldsFilled) >= s.sh.cap + 1
  {}

  lemma ShutDownPermits(s: State)
    requires Inv(s) && ShutDown(s.sh)
    ensures s.sh.empty + Sum(s.pcs, HoldsEmpty) >= s.sh.cap + 1
  {
    SumNonNegative(s.pcs, Committed);
  }

  lemma OpenPopActs(s: State, u: nat)
    requires Inv(s) && Closed(s.sh) && u < |s.pcs| && InPop(s.pcs[u])
    ensures !Stuck(s)
  {
    if Stuck(s) {
      StuckShape(s);
    }
  }

  lemma OpenCallActs(s: State, u: nat)
    requires Inv(s) && Closed(s.sh) && ShutDown(s.sh) && u < |s.pcs| && !Outside(s.pcs[u])
    ensures !Stuck(s)
  {
    SumNonNegative(s.pcs, Committed);
    if Stuck(s) {
      StuckShape(s);
    }
  }

  lemma {:induction false} GrowsAlong(run: seq<State>, i: nat, j: nat)
    requires IsRun(run) && i <= j < |run|
    ensures Grows(run[i].sh, run[j].sh)
  {
    if i < j {
      GrowsAlong(run, i, j - 1);
      assert NextAt(run, j - 1);
      NextGrows(run[j - 1], run[j]);
    }
  }

  lemma NextGrows(s: State, s': State)
    requires Next(s, s')
    ensures Grows(s.sh, s'.sh)
  {
    if t: nat :| Enabled(s, t) && s' == Step(s, t) {
      ActGrows(s.sh, t, s.pcs[t]);
    }
  }

  // ----- calls that come late -----

  predicate Flagged(sh: Shared) {
    sh.closed || sh.shut
  }

  /** Where a call can be that makes a pair of flag checks with a flag set: at the first check, at the second and
      then `closed` is set, or on the way out. No such call waits for a permit, and none changes the queue. */
  predicate TurnedAway(sh: Shared, pc: Pc) {
    && Flagged(sh)
    && match pc
       case PushShut1(_) | PushShut2(_) | PushShut3(_) | PopShut1 | PopShut2 => true
       case PushClosed1(_) | PushClosed2(_) | PushClosed3(_) | PopClosed1 | PopClosed2 => sh.closed
       case PushGiveBack | PushGiveBackLocked | PushUnlockFail | PopUnlockFail | PopGiveBack => true
       case PushDone(ok) => !ok
       case PopDone(got) => got.None?
       case _ => false
  }

  lemma ActTurnedAway(sh: Shared, t: nat, pc: Pc)
    requires CanAct(sh, pc) && TurnedAway(sh, pc)
    ensures var (sh', pc') := Act(sh, t, pc); TurnedAway(sh', pc') && sh'.queue == sh.queue
  {}

  lemma NextTurnedAway(s: State, s': State, t: nat)
    requires Next(s, s') && t < |s.pcs| && TurnedAway(s.sh, s.pcs[t]) && !Outside(s.pcs[t])
    ensures |s'.pcs| == |s.pcs| && TurnedAway(s'.sh, s'.pcs[t])
  {
    NextGrows(s, s');
    if u: nat :| Enabled(s, u) && s' == Step(s, u) {
      if u == t {
        ActTurnedAway(s.sh, t, s.pcs[t]);
      }
    }
  }

  /** In every run a call that comes to its flag checks with a flag set fails, whatever the others do: a push that
      has just begun does not wait for a slot, one that has just got its permit does not wait for the mutex, one
      that holds the mutex does not enqueue; a pop that has seen the queue empty does not wait either. */
  lemma {:induction false} LateCallsFail(run: seq<State>, i: nat, j: nat, t: nat)
    requires IsRun(run) && i <= j < |run| && t < |run[i].pcs| && TurnedAway(run[i].sh, run[i].pcs[t])
    requires forall k | i <= k < j :: t < |run[k].pcs| && !Outside(run[k].pcs[t])
    ensures t < |run[j].pcs| && TurnedAway(run[j].sh, run[j].pcs[t])
  {
    if i < j {
      LateCallsFail(run, i, j - 1, t);
      assert NextAt(run, j - 1);
      NextTurnedAway(run[j - 1], run[j], t);
    }
  }

  /** Turned away, or waiting for a permit or the mutex in front of a pair of flag checks. */
  predicate WaitsInVain(sh: Shared, pc: Pc) {
    TurnedAway(sh, pc) || (Flagged(sh) && (pc.PushAcquire? || pc.PushLock?))
  }

  lemma NextInVain(s: State, s': State, t: nat)
    requires Next(s, s') && t < |s.pcs| && WaitsInVain(s.sh, s.pcs[t]) && !Outside(s.pcs[t])
    ensures |s'.pcs| == |s.pcs| && WaitsInVain(s'.sh, s'.pcs[t])
  {
    NextGrows(s, s');
    if TurnedAway(s.sh, s.pcs[t]) {
      NextTurnedAway(s, s', t);
    }
  }

  /** In every run a push that waits for its permit or for the mutex when a flag is set does not enqueue: it gets
      through to the next pair of checks and is turned away. */
  lemma {:induction false} LateWaitersFail(run: seq<State>, i: nat, j: nat, t: nat)
    requires IsRun(run) && i <= j < |run| && t < |run[i].pcs| && WaitsInVain(run[i].sh, run[i].pcs[t])
    requires forall k | i <= k < j :: t < |run[k].pcs| && !Outside(run[k].pcs[t])
    ensures t < |run[j].pcs| && WaitsInVain(run[j].sh, run[j].pcs[t])
  {
    if i < j {
      LateWaitersFail(run, i, j - 1, t);
      assert NextAt(run, j - 1);
      NextInVain(run[j - 1], run[j], t);
    }
  }

  /** At point `i` of the run thread `t` has come back from close, or from shutdown. */
  ghost predicate CloseReturned(run: seq<State>, i: nat, t: nat) {
    && i < |run| && t < |run[i].pcs|
    && (run[i].pcs[t].CloseDone? || run[i].pcs[t].ShutdownDone?)
  }

  ghost predicate ShutdownReturned(run: seq<State>, i: nat, t: nat) {
    i < |run| && t < |run[i].pcs| && run[i].pcs[t].ShutdownDone?
  }

  /** A call of close or shutdown that has returned has set its flags and released all its permits, for the
      rest of the run. */
  lemma {:induction false} ReturnedForGood(run: seq<State>, i: nat, j: nat, t: nat, threads: nat, cap: nat)
    requires IsRun(run) && run[0] == Init(threads, cap) && i <= j < |run|
    ensures Inv(run[j]) && run[j].sh.cap == cap
    ensures CloseReturned(run, i, t) ==> Closed(run[j].sh)
    ensures ShutdownReturned(run, i, t) ==> Closed(run[j].sh) && ShutDown(run[j].sh)
  {
    InitInv(threads, cap);
    RunInv(run, i);
    RunInv(run, j);
    GrowsAlong(run, i, j);
    assert t < |run[i].pcs| ==> Fits(run[i].sh, run[i].pcs[t]);
  }

  /** From the moment a close has returned there are always enough filled permits, free or in hand, and a pop is
      never left waiting, however many pops there are. */
  lemma {:induction false} CloseReleasesPops(run: seq<State>, i: nat, j: nat, t: nat, threads: nat, cap: nat)
    requires IsRun(run) && run[0] == Init(threads, cap) && i <= j < |run| && CloseReturned(run, i, t)
    ensures run[j].sh.filled + Sum(run[j].pcs, HoldsFilled) >= cap + 1
    ensures Stuck(run[j]) ==> forall u | 0 <= u < |run[j].pcs| :: !InPop(run[j].pcs[u])
  {
    ReturnedForGood(run, i, j, t, threads, cap);
    ClosedPermits(run[j]);
    if u: nat :| u < |run[j].pcs| && InPop(run[j].pcs[u]) {
      OpenPopActs(run[j], u);
    }
  }

  /** From the moment a shutdown has returned the same holds for the empty permits, and no call at all is left
      waiting. */
  lemma {:induction false} ShutdownReleasesAll(run: seq<State>, i: nat, j: nat, t: nat, threads: nat, cap: nat)
    requires IsRun(run) && run[0] == Init(threads, cap) && i <= j < |run| && ShutdownReturned(run, i, t)
    ensures run[j].sh.empty + Sum(run[j].pcs, HoldsEmpty) >= cap + 1
    ensures Stuck(run[j]) ==> forall u | 0 <= u < |run[j].pcs| :: Outside(run[j].pcs[u])
  {
    ReturnedForGood(run, i, j, t, threads, cap);
    ShutDownPermits(run[j]);
    if u: nat :| u < |run[j].pcs| && !Outside(run[j].pcs[u]) {
      OpenCallActs(run[j], u);
    }
  }

  /** Threads act inside their open calls, in the order `moves`; no new call begins. */
  ghost predicate Acts(s: State, moves: seq<nat>, s': State)
    decreases |moves|
  {
    if moves == [] then s == s' else Enabled(s, moves[0]) && Acts(Step(s, moves[0]), moves[1..], s')
  }

  lemma {:induction false} OpenCallsEnd(s: State, moves: seq<nat>, s': State)
    requires Inv(s) && Acts(s, moves, s')
    ensures |moves| <= Sum(s.pcs, Rank)
    ensures Inv(s') && Grows(s.sh, s'.sh)
    decreases |moves|
  {
    RanksNonNegative(s.pcs);
    if moves != [] {
      var t := moves[0];
      StepInv(s, t);
      StepRank(s, t);
      ActGrows(s.sh, t, s.pcs[t]);
      OpenCallsEnd(Step(s, t), moves[1..], s');
    }
  }

  /** However many threads wait, and whatever the schedule: after a close has returned, the open calls stop
      after a bounded number of actions, and then no pop is left; after a shutdown, no call at all. */
  lemma {:induction false} WaitersLeave(
      run: seq<State>, i: nat, j: nat, t: nat, threads: nat, cap: nat, moves: seq<nat>, s: State)
    requires IsRun(run) && run[0] == Init(threads, cap) && i <= j < |run| && CloseReturned(run, i, t)
    requires Acts(run[j], moves, s)
    ensures |moves| <= Sum(run[j].pcs, Rank)
    ensures Stuck(s) ==> forall u | 0 <= u < |s.pcs| :: !InPop(s.pcs[u])
    ensures Stuck(s) && ShutdownReturned(run, i, t) ==> forall u | 0 <= u < |s.pcs| :: Outside(s.pcs[u])
  {
    ReturnedForGood(run, i, j, t, threads, cap);
    OpenCallsEnd(run[j], moves, s);
    if u: nat :| u < |s.pcs| && InPop(s.pcs[u]) {
      OpenPopActs(s, u);
    }
    if u: nat :| ShutdownReturned(run, i, t) && u < |s.pcs| && !Outside(s.pcs[u]) {
      OpenCallActs(s, u);
    }
  }

  lemma RanksNonNegative(pcs: seq<Pc>)
    ensures 0 <= Sum(pcs, Rank)
  {
    forall u | 0 <= u < |pcs| ensures 0 <= Rank(pcs[u]) {
      RankNonNegative(pcs[u]);
    }
    SumNonNegative(pcs, Rank);
  }

  predicate InPop(pc: Pc) {
    match pc
    case PopLock1 | PopEmpty1 | PopShut1 | PopClosed1 | PopUnlockFail | PopUnlock1 | PopAcquire | PopLock2
       | PopTake | PopSignal(_) | PopUnlockOk(_) | PopUnlock2 | PopShut2 | PopClosed2 | PopGiveBack => true
    case _ => false
  }

  predicate InPush(pc: Pc) {
    match pc
    case PushShut1(_) | PushClosed1(_) | PushAcquire(_) | PushShut2(_) | PushClosed2(_) | PushGiveBack | PushLock(_)
       | PushShut3(_) | PushClosed3(_) | PushGiveBackLocked | PushUnlockFail | PushEnqueue(_) | PushUnlock
       | PushSignal => true
    case _ => false
  }

  predicate InClose(pc: Pc) {
    pc.StoreShut? || pc.StoreClosed? || pc.WakeConsumers? || pc.WakeProducers?
  }

  // ----- the queue object -----

  /** The object itself. Each method performs the next atomic action of one call that thread `t` has open
      at `pc`, and says where the call continues. */
  class SemaphoreQueue {
    var mtx: Option<nat>
    var queue: seq<Entry>
    var emptySlots: nat
    var filledSlots: nat
    const maxSize: nat
    var closed: bool
    var shutdown: bool

    // history
    var enqueued: seq<Entry>
    var dequeued: seq<Entry>
    var takers: seq<nat>
    var wokenConsumers: nat
    var wokenProducers: nat

    function Fields(): Shared
      reads this
    {
      Shared(mtx, queue, emptySlots, filledSlots, maxSize, closed, shutdown,
             enqueued, dequeued, takers, wokenConsumers, wokenProducers)
    }

    constructor (maxSize: nat)
      ensures Fields() == Init(0, maxSize).sh
    {
      mtx, queue, emptySlots, filledSlots, this.maxSize := None, [], maxSize, 0, maxSize;
      closed, shutdown := false, false;
      enqueued, dequeued, takers, wokenConsumers, wokenProducers := [], [], [], 0, 0;
    }

    method PushAction(t: nat, pc: Pc) returns (pc': Pc)
      requires InPush(pc) && CanAct(Fields(), pc)
      modifies this
      ensures (Fields(), pc') == Act(old(Fields()), t, pc)
    {
      match pc {
        case PushShut1(x) => pc' := if shutdown then PushDone(false) else PushClosed1(x);
        case PushClosed1(x) => pc' := if closed then PushDone(false) else PushAcquire(x);
        case PushAcquire(x) => emptySlots := emptySlots - 1; pc' := PushShut2(x);
        case PushShut2(x) => pc' := if shutdown then PushGiveBack else PushClosed2(x);
        case PushClosed2(x) => pc' := if closed then PushGiveBack else PushLock(x);
        case PushGiveBack => emptySlots := emptySlots + 1; pc' := PushDone(false);
        case PushLock(x) => mtx := Some(t); pc' := PushShut3(x);
        case PushShut3(x) => pc' := if shutdown then PushGiveBackLocked else PushClosed3(x);
        case PushClosed3(x) => pc' := if closed then PushGiveBackLocked else PushEnqueue(x);
        case PushGiveBackLocked => emptySlots := emptySlots + 1; pc' := PushUnlockFail;
        case PushUnlockFail => mtx := None; pc' := PushDone(false);
        case PushEnqueue(x) =>
          queue, enqueued := queue + [Entry(t, x)], enqueued + [Entry(t, x)];
          pc' := PushUnlock;
        case PushUnlock => mtx := None; pc' := PushSignal;
        case PushSignal => filledSlots := filledSlots + 1; pc' := PushDone(true);
      }
    }

    method PopAction(t: nat, pc: Pc) returns (pc': Pc)
      requires InPop(pc) && CanAct(Fields(), pc)
      modifies this
      ensures (Fields(), pc') == Act(old(Fields()), t, pc)
    {
      match pc {
        case PopLock1 => mtx := Some(t); pc' := PopEmpty1;
        case PopEmpty1 => pc' := if queue == [] then PopShut1 else PopUnlock1;
        case PopShut1 => pc' := if shutdown then PopUnlockFail else PopClosed1;
        case PopClosed1 => pc' := if closed then PopUnlockFail else PopUnlock1;
        case PopUnlockFail => mtx := None; pc' := PopDone(None);
        case PopUnlock1 => mtx := None; pc' := PopAcquire;
        case PopAcquire => filledSlots := filledSlots - 1; pc' := PopLock2;
        case PopLock2 => mtx := Some(t); pc' := PopTake;
        case PopTake =>
          if queue == [] {
            pc' := PopUnlock2;
          } else {
            pc' := PopSignal(queue[0].item);
            dequeued, takers, queue := dequeued + [queue[0]], takers + [t], queue[1..];
          }
        case PopSignal(x) => emptySlots := emptySlots + 1; pc' := PopUnlockOk(x);
        case PopUnlockOk(x) => mtx := None; pc' := PopDone(Some(x));
        case PopUnlock2 => mtx := None; pc' := PopShut2;
        case PopShut2 => pc' := if shutdown then PopGiveBack else PopClosed2;
        case PopClosed2 => pc' := if closed then PopGiveBack else PopLock1;
        case PopGiveBack => filledSlots := filledSlots + 1; pc' := PopDone(None);
      }
    }

    method CloseAction(t: nat, pc: Pc) returns (pc': Pc)
      requires InClose(pc) && CanAct(Fields(), pc)
      modifies this
      ensures (Fields(), pc') == Act(old(Fields()), t, pc)
    {
      match pc {
        case StoreShut(n) => shutdown := true; pc' := StoreClosed(n, n);
        case StoreClosed(n, p) => closed := true; pc' := WakeConsumers(n, p);
        case WakeConsumers(l, p) =>
          if l == 0 {
            pc' := if p == 0 then CloseDone else WakeProducers(p);
          } else {
            filledSlots, wokenConsumers := filledSlots + 1, wokenConsumers + 1;
            pc' := WakeConsumers(l - 1, p);
          }
        case WakeProducers(l) =>
          if l == 0 {
            pc' := ShutdownDone;
          } else {
            emptySlots, wokenProducers := emptySlots + 1, wokenProducers + 1;
            pc' := WakeProducers(l - 1);
          }
      }
    }
  }
}

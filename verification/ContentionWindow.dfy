/** The contention window of include/bench_harness.hpp around the spinlock-protected counter of
    src/bench_counter_spin.cpp, with the spinlock of include/spinlock.hpp.

    The counter is not atomic: an increment is a load and a later store. All counters are 64-bit and wrap. */
module ContentionWindows {
  import opened Tally
  import Fairness

  datatype Pc =
    | Ready                       // waiting for start
    | Head                        // about to look at stop
    | Acquire                     // about to test_and_set the flag
    | Load | Store(v: nat)        // counter.value++
    | Release                     // about to clear the flag
    | Count                       // about to count the operation
    | Done

  datatype State = State(
    start: bool, stop: bool, flag: bool, counter: nat, counts: seq<nat>, pcs: seq<Pc>,
    holder: Option<nat>)          // history: the thread whose test_and_set last found the flag clear

  function Init(n: nat): State {
    State(false, false, false, 0, seq(n, _ => 0), seq(n, _ => Ready), None)
  }

  predicate Enabled(s: State, t: nat) {
    t < |s.pcs| && t < |s.counts| && !s.pcs[t].Done?
  }

  function Increment(v: nat): nat {
    (v + 1) % MODULUS
  }

  /** The next action of thread `t`. With `blocking` the callable is the one that locks; otherwise it is the
      one that tries once and returns false when the lock is taken. */
  function Step(s: State, t: nat, blocking: bool): State
    requires Enabled(s, t)
  {
    match s.pcs[t]
    case Ready => if s.start then s.(pcs := s.pcs[t := Head]) else s
    case Head => s.(pcs := s.pcs[t := if s.stop then Done else Acquire])
    case Acquire =>
      if !s.flag then s.(flag := true, holder := Some(t), pcs := s.pcs[t := Load])
      else if blocking then s
      else s.(pcs := s.pcs[t := Head])
    case Load => s.(pcs := s.pcs[t := Store(s.counter)])
    case Store(v) => s.(counter := Increment(v), pcs := s.pcs[t := Release])
    case Release => s.(flag := false, holder := None, pcs := s.pcs[t := Count])
    case Count => s.(counts := s.counts[t := Increment(s.counts[t])], pcs := s.pcs[t := Head])
    case Done => s
  }

  datatype Move = Act(t: nat) | Start | Stop

  predicate Allowed(s: State, m: Move) {
    match m
    case Act(t) => Enabled(s, t)
    case Start => !s.start
    case Stop => s.start
  }

  function Apply(s: State, m: Move, blocking: bool): State
    requires Allowed(s, m)
  {
    match m
    case Act(t) => Step(s, t, blocking)
    case Start => s.(start := true)
    case Stop => s.(stop := true)
  }

  ghost predicate Runs(s: State, moves: seq<Move>, s': State, blocking: bool)
    decreases |moves|
  {
    if moves == [] then s == s'
    else Allowed(s, moves[0]) && Runs(Apply(s, moves[0], blocking), moves[1..], s', blocking)
  }

  predicate Final(s: State) {
    forall t | 0 <= t < |s.pcs| :: s.pcs[t].Done?
  }

  // ----- the invariant -----

  predicate InSection(pc: Pc) {
    pc.Load? || pc.Store? || pc.Release?
  }

  /** Has stored its increment and not counted it yet. */
  function Pending(pc: Pc): int {
    if pc.Release? || pc.Count? then 1 else 0
  }

  /** The holder is the one thread in the section, and a value about to be stored is not stale. */
  ghost predicate Locked(s: State) {
    && |s.counts| == |s.pcs|
    && (s.flag <==> s.holder.Some?)
    && (s.holder.Some? ==> s.holder.value < |s.pcs| && InSection(s.pcs[s.holder.value]))
    && (forall t | 0 <= t < |s.pcs| :: InSection(s.pcs[t]) <==> s.holder == Some(t))
    && (forall t | 0 <= t < |s.pcs| && s.pcs[t].Store? :: s.pcs[t].v == s.counter)
  }

  /** The counter is what has been counted and what is about to be. */
  ghost predicate Books(s: State) {
    s.counter == (Sum(s.counts, Each) + Sum(s.pcs, Pending)) % MODULUS
  }

  ghost predicate Inv(s: State) {
    Locked(s) && Books(s)
  }

  lemma InitInv(n: nat)
    ensures Inv(Init(n))
  {
    SumConstant(Init(n).counts, Each, 0);
    SumConstant(Init(n).pcs, Pending, 0);
  }

  /** The spinlock excludes: two threads are never both between a successful test_and_set and the clear. */
  lemma {:induction false} MutualExclusion(n: nat, moves: seq<Move>, s: State, blocking: bool, t: nat, u: nat)
    requires Runs(Init(n), moves, s, blocking)
    requires t < |s.pcs| && u < |s.pcs| && InSection(s.pcs[t]) && InSection(s.pcs[u])
    ensures t == u && s.flag
  {
    InitInv(n);
    RunInv(Init(n), moves, s, blocking);
  }

  /** Adding one modulo M, on either side of an equation. */
  lemma AddOne(x: int, y: int)
    ensures ((x % MODULUS) + 1) % MODULUS == (x + 1) % MODULUS
    ensures (y - x + (x + 1) % MODULUS) % MODULUS == (y + 1) % MODULUS
  {
    var k := (x + 1) / MODULUS;
    assert (x + 1) % MODULUS == x + 1 - k * MODULUS;
    Wraps(y + 1, k);
    var j := x / MODULUS;
    assert x % MODULUS == x - j * MODULUS;
    Wraps(x + 1, j);
  }

  lemma StoreCounts(s: State, t: nat, blocking: bool)
    requires Inv(s) && Enabled(s, t) && s.pcs[t].Store?
    ensures Books(Step(s, t, blocking))
  {
    SumUpdate(s.pcs, Pending, t, Release);
    AddOne(Sum(s.counts, Each) + Sum(s.pcs, Pending), 0);
  }

  lemma CountCounts(s: State, t: nat, blocking: bool)
    requires Inv(s) && Enabled(s, t) && s.pcs[t].Count?
    ensures Books(Step(s, t, blocking))
  {
    SumUpdate(s.pcs, Pending, t, Head);
    SumUpdate(s.counts, Each, t, Increment(s.counts[t]));
    AddOne(s.counts[t], Sum(s.counts, Each) + Sum(s.pcs, Pending) - 1);
  }

  lemma StepLocked(s: State, t: nat, blocking: bool)
    requires Locked(s) && Enabled(s, t)
    ensures Locked(Step(s, t, blocking)) && |Step(s, t, blocking).pcs| == |s.pcs|
  {}

  lemma StepBooks(s: State, t: nat, blocking: bool)
    requires Inv(s) && Enabled(s, t)
    ensures Books(Step(s, t, blocking))
  {
    SumUpdate(s.pcs, Pending, t, Step(s, t, blocking).pcs[t]);
    if s.pcs[t].Store? {
      StoreCounts(s, t, blocking);
    } else if s.pcs[t].Count? {
      CountCounts(s, t, blocking);
    }
  }

  lemma StepInv(s: State, t: nat, blocking: bool)
    requires Inv(s) && Enabled(s, t)
    ensures Inv(Step(s, t, blocking)) && |Step(s, t, blocking).pcs| == |s.pcs|
  {
    StepLocked(s, t, blocking);
    StepBooks(s, t, blocking);
  }

  lemma {:induction false} RunInv(s: State, moves: seq<Move>, s': State, blocking: bool)
    requires Inv(s) && Runs(s, moves, s', blocking)
    ensures Inv(s') && |s'.pcs| == |s.pcs|
    decreases |moves|
  {
    if moves != [] {
      if moves[0].Act? {
        StepInv(s, moves[0].t, blocking);
      }
      RunInv(Apply(s, moves[0], blocking), moves[1..], s', blocking);
    }
  }

  /** After the joins the shared counter equals the reported ops, for the blocking and the trying callable, in
      every interleaving: no increment is lost and none is counted twice. */
  lemma {:induction false} CounterEqualsOps(n: nat, moves: seq<Move>, s: State, blocking: bool)
    requires Runs(Init(n), moves, s, blocking) && Final(s)
    ensures s.counter == Sum(s.counts, Each) % MODULUS
    ensures !s.flag
  {
    InitInv(n);
    RunInv(Init(n), moves, s, blocking);
    FinalCounter(s);
  }

  lemma FinalCounter(s: State)
    requires Inv(s) && Final(s)
    ensures s.counter == Sum(s.counts, Each) % MODULUS && !s.flag
  {
    SumConstant(s.pcs, Pending, 0);
  }

  // ----- progress -----

  /** The action of `t` is one more round of a loop that waits: for start, or for the lock. */
  predicate Spins(s: State, t: nat, blocking: bool) {
    Enabled(s, t) && ((s.pcs[t].Ready? && !s.start) || (s.pcs[t].Acquire? && s.flag && blocking))
  }

  lemma SpinsIffUnchanged(s: State, t: nat, blocking: bool)
    requires Inv(s) && Enabled(s, t)
    ensures Spins(s, t, blocking) <==> Step(s, t, blocking) == s
  {
    assert Step(s, t, blocking) == s ==> Step(s, t, blocking).pcs[t] == s.pcs[t];
  }

  /** Once the window has been started, some thread that has not left can do more than spin: the one in the
      section, or, when the lock is free, any. */
  lemma Progress(s: State, blocking: bool) returns (t: nat)
    requires Inv(s) && s.start && !Final(s)
    ensures Enabled(s, t) && !Spins(s, t, blocking) && Step(s, t, blocking) != s
  {
    if s.holder.Some? {
      t := s.holder.value;
    } else {
      t :| t < |s.pcs| && !s.pcs[t].Done?;
    }
    SpinsIffUnchanged(s, t, blocking);
  }

  /** The actions left once stop has been stored. */
  function Rank(pc: Pc): int {
    match pc
    case Ready => 7 case Acquire => 6 case Load => 5 case Store(_) => 4 case Release => 3 case Count => 2
    case Head => 1 case Done => 0
  }

  lemma RankNonNegative(s: State)
    ensures 0 <= Sum(s.pcs, Rank)
  {
    SumNonNegative(s.pcs, Rank);
  }

  lemma StepRank(s: State, t: nat, blocking: bool)
    requires s.start && s.stop && Enabled(s, t)
    ensures Sum(Step(s, t, blocking).pcs, Rank) <= Sum(s.pcs, Rank) - if Spins(s, t, blocking) then 0 else 1
  {
    SumUpdate(s.pcs, Rank, t, Step(s, t, blocking).pcs[t]);
  }

  predicate OnlyActs(moves: seq<Move>) {
    forall i | 0 <= i < |moves| :: moves[i].Act?
  }

  /** How many moves of a run are rounds of a waiting loop. */
  function SpinCount(s: State, moves: seq<Move>, blocking: bool): nat
    decreases |moves|
  {
    if moves == [] || !Allowed(s, moves[0]) then 0
    else (if moves[0].Act? && Spins(s, moves[0].t, blocking) then 1 else 0)
         + SpinCount(Apply(s, moves[0], blocking), moves[1..], blocking)
  }

  /** After stop, every run is bounded except for rounds of the loop in lock; with the trying callable there are
      none of those, and where no thread can act all workers have left. */
  lemma {:induction false} WindowEnds(s: State, moves: seq<Move>, s': State, blocking: bool)
    requires Inv(s) && s.start && s.stop && OnlyActs(moves) && Runs(s, moves, s', blocking)
    ensures |moves| <= Sum(s.pcs, Rank) + SpinCount(s, moves, blocking)
    ensures !blocking ==> SpinCount(s, moves, blocking) == 0
    ensures Inv(s') && s'.start && s'.stop
    ensures Final(s') <==> forall t: nat | Enabled(s', t) :: Spins(s', t, blocking)
    decreases |moves|
  {
    RankNonNegative(s);
    if moves != [] {
      StepInv(s, moves[0].t, blocking);
      StepRank(s, moves[0].t, blocking);
      WindowEnds(Apply(s, moves[0], blocking), moves[1..], s', blocking);
    } else if !Final(s) {
      var t := Progress(s, blocking);
    }
  }

  // ----- the window is not empty -----

  /** Nobody leaves before stop has been stored, and stop is stored after start. */
  ghost predicate Open(s: State) {
    (s.stop ==> s.start) && forall t | 0 <= t < |s.pcs| && s.pcs[t].Done? :: s.stop
  }

  lemma {:induction false} RunOpen(s: State, moves: seq<Move>, s': State, blocking: bool)
    requires Open(s) && Runs(s, moves, s', blocking)
    ensures Open(s')
    decreases |moves|
  {
    if moves != [] {
      RunOpen(Apply(s, moves[0], blocking), moves[1..], s', blocking);
    }
  }

  /** In every run a worker has left its loop only if stop has been stored. */
  lemma {:induction false} LeavesOnlyAfterStop(n: nat, moves: seq<Move>, s: State, blocking: bool, t: nat)
    requires Runs(Init(n), moves, s, blocking) && t < |s.pcs| && s.pcs[t].Done?
    ensures s.start && s.stop && Start in moves && Stop in moves
  {
    FlagsAreMoves(Init(n), moves, s, blocking);
    RunOpen(Init(n), moves, s, blocking);
  }

  /** Before start has been stored nothing happens. */
  ghost predicate Idle(s: State) {
    !s.start ==>
      !s.stop && s.counter == 0 && forall t | 0 <= t < |s.pcs| :: s.pcs[t].Ready? && t < |s.counts| && s.counts[t] == 0
  }

  lemma {:induction false} RunIdle(s: State, moves: seq<Move>, s': State, blocking: bool)
    requires Idle(s) && Runs(s, moves, s', blocking)
    ensures Idle(s')
    decreases |moves|
  {
    if moves != [] {
      RunIdle(Apply(s, moves[0], blocking), moves[1..], s', blocking);
    }
  }

  lemma {:induction false} FlagsAreMoves(s: State, moves: seq<Move>, s': State, blocking: bool)
    requires Runs(s, moves, s', blocking)
    ensures s'.start <==> s.start || Start in moves
    ensures s'.stop <==> s.stop || Stop in moves
    decreases |moves|
  {
    if moves != [] {
      FlagsAreMoves(Apply(s, moves[0], blocking), moves[1..], s', blocking);
      assert moves == [moves[0]] + moves[1..];
    }
  }

  /** In every run no worker does anything before start is stored, and it can be stored. */
  lemma {:induction false} NothingBeforeStart(n: nat, moves: seq<Move>, s: State, blocking: bool)
    requires Runs(Init(n), moves, s, blocking) && Start !in moves
    ensures s.counter == 0 && forall t | 0 <= t < |s.pcs| :: s.pcs[t].Ready? && t < |s.counts| && s.counts[t] == 0
    ensures Allowed(s, Start) && Apply(s, Start, blocking).start && !Apply(s, Start, blocking).stop
  {
    FlagsAreMoves(Init(n), moves, s, blocking);
    RunIdle(Init(n), moves, s, blocking);
  }

  /** An operation has been begun: the thread has seen stop unset and has not counted since. */
  predicate Begun(pc: Pc) {
    !pc.Ready? && !pc.Head? && !pc.Done?
  }

  /** In every run, once stop has been stored a worker still counts the operation it has begun, at most once, and
      begins no other. */
  lemma {:induction false} StopStopsCounting(s: State, moves: seq<Move>, s': State, blocking: bool, t: nat)
    requires s.stop && s.start && t < |s.pcs| == |s.counts| && Runs(s, moves, s', blocking)
    ensures t < |s'.pcs| == |s'.counts|
    ensures !Begun(s.pcs[t]) ==> s'.counts[t] == s.counts[t] && !Begun(s'.pcs[t])
    ensures Begun(s.pcs[t]) ==>
              s'.counts[t] == s.counts[t] || (s'.counts[t] == Increment(s.counts[t]) && !Begun(s'.pcs[t]))
    decreases |moves|
  {
    if moves != [] {
      StopStopsCounting(Apply(s, moves[0], blocking), moves[1..], s', blocking, t);
    }
  }

  /** The actions of a thread up to its next counted operation. */
  function ToCount(pc: Pc): nat {
    match pc
    case Ready => 7 case Head => 6 case Acquire => 5 case Load => 4 case Store(_) => 3 case Release => 2
    case Count => 1 case Done => 0
  }

  /** With the lock free or its own, a thread that runs alone completes and counts an operation. */
  lemma {:induction false} AloneCounts(s: State, t: nat, blocking: bool) returns (moves: seq<Move>, s': State)
    requires Inv(s) && s.start && !s.stop && Enabled(s, t) && (s.holder.Some? ==> s.holder.value == t)
    ensures OnlyActs(moves) && Runs(s, moves, s', blocking)
    ensures |s'.counts| == |s.counts| && s'.counts[t] == Increment(s.counts[t])
    ensures s'.counter == if s.pcs[t].Release? || s.pcs[t].Count? then s.counter else Increment(s.counter)
    decreases ToCount(s.pcs[t])
  {
    var next := Step(s, t, blocking);
    if s.pcs[t].Count? {
      moves, s' := [Act(t)], next;
      assert moves[1..] == [];
    } else {
      StepInv(s, t, blocking);
      var rest;
      rest, s' := AloneCounts(next, t, blocking);
      moves := [Act(t)] + rest;
    }
  }

  /** From every state that a window with a thread reaches between start and stop, some run completes a further
      operation and counts it. */
  lemma {:induction false} WindowIsAlive(n: nat, before: seq<Move>, s: State, blocking: bool)
      returns (moves: seq<Move>, s': State, t: nat)
    requires 1 <= n && Runs(Init(n), before, s, blocking) && s.start && !s.stop
    ensures OnlyActs(moves) && Runs(s, moves, s', blocking)
    ensures t < |s.counts| == |s'.counts| && s'.counts[t] == Increment(s.counts[t])
  {
    InitInv(n);
    RunInv(Init(n), before, s, blocking);
    RunOpen(Init(n), before, s, blocking);
    t := if s.holder.Some? then s.holder.value else 0;
    moves, s' := AloneCounts(s, t, blocking);
  }

  // ----- the lock and the window -----

  class Spinlock {
    var flag: bool

    constructor ()
      ensures !flag
    {
      flag := false;
    }

    method TestAndSet() returns (was: bool)
      modifies this
      ensures was == old(flag) && flag
    {
      was, flag := flag, true;
    }

    /** try_lock; also one round of the loop in lock, which goes on until this succeeds. */
    method TryLock() returns (acquired: bool)
      modifies this
      ensures acquired == !old(flag) && flag
    {
      var was := TestAndSet();
      acquired := !was;
    }

    method Unlock()
      modifies this
      ensures !flag
    {
      flag := false;
    }
  }

  class ContentionWindow {
    const blocking: bool
    const lock: Spinlock
    var start: bool
    var stop: bool
    var counter: nat
    var counts: seq<nat>
    var pcs: seq<Pc>
    // history
    var holder: Option<nat>

    function View(): State
      reads this, lock
    {
      State(start, stop, lock.flag, counter, counts, pcs, holder)
    }

    constructor (n: nat, blocking: bool)
      ensures View() == Init(n) && this.blocking == blocking && fresh(lock)
    {
      this.blocking := blocking;
      lock := new Spinlock();
      start, stop, counter, holder := false, false, 0, None;
      counts, pcs := seq(n, _ => 0), seq(n, _ => Ready);
    }

    /** The next action of worker `t`. */
    method Turn(t: nat)
      requires Enabled(View(), t)
      modifies this, lock
      ensures View() == Step(old(View()), t, blocking)
    {
      match pcs[t] {
        case Ready =>
          if start {
            pcs := pcs[t := Head];
          }
        case Head => pcs := pcs[t := if stop then Done else Acquire];
        case Acquire =>
          var acquired := lock.TryLock();
          if acquired {
            holder, pcs := Some(t), pcs[t := Load];
          } else if !blocking {
            pcs := pcs[t := Head];
          }
        case Load => pcs := pcs[t := Store(counter)];
        case Store(v) => counter, pcs := Increment(v), pcs[t := Release];
        case Release =>
          lock.Unlock();
          holder, pcs := None, pcs[t := Count];
        case Count => counts, pcs := counts[t := Increment(counts[t])], pcs[t := Head];
      }
    }

    /** The result of the window: the reported ops are the value of the shared counter. */
    method Result(sqrt: real -> real) returns (ops: nat, fairnessCv: real)
      requires Inv(View()) && Final(View()) && Fairness.IsSqrt(sqrt)
      ensures ops == counter == Fairness.Total(counts) % MODULUS
      ensures Fairness.IsCv(counts, fairnessCv)
    {
      FinalCounter(View());
      ops, fairnessCv := Fairness.WindowResult(counts, sqrt);
    }

    /** Any thread that has not left performs its next action, if there is one. */
    method AnyTurn()
      requires Inv(View())
      modifies this, lock
      ensures Inv(View()) && |pcs| == old(|pcs|) && start == old(start) && stop == old(stop)
      ensures start && stop ==> Sum(pcs, Rank) <= old(Sum(pcs, Rank))
    {
      if t: nat :| t < |pcs| && Enabled(View(), t) {
        StepInv(View(), t, blocking);
        if start && stop {
          StepRank(View(), t, blocking);
        }
        Turn(t);
      }
    }

    /** Some thread that does more than spin performs its next action. */
    method UsefulTurn()
      requires Inv(View()) && start && stop && !Final(View())
      modifies this, lock
      ensures Inv(View()) && start && stop && 0 <= Sum(pcs, Rank) < old(Sum(pcs, Rank))
    {
      ghost var u := Progress(View(), blocking);
      var t: nat :| t < |pcs| && Enabled(View(), t) && !Spins(View(), t, blocking);
      StepInv(View(), t, blocking);
      StepRank(View(), t, blocking);
      Turn(t);
      RankNonNegative(View());
    }

    /** After stop: the workers leave one by one, with at most `spins` arbitrary actions among the useful ones. */
    method Join(spins: nat)
      requires Inv(View()) && start && stop
      modifies this, lock
      ensures Inv(View()) && Final(View()) && !lock.flag
    {
      RankNonNegative(View());
      var left := spins;
      while !Final(View())
        invariant Inv(View()) && start && stop && 0 <= Sum(pcs, Rank)
        decreases left, Sum(pcs, Rank)
      {
        var any: bool := *;
        if any && 0 < left {
          AnyTurn();
          RankNonNegative(View());
          left := left - 1;
        } else {
          UsefulTurn();
        }
      }
      FinalCounter(View());
    }

    /** The window itself: `before` actions of any threads, from the start on. */
    method Window(before: nat)
      requires View() == Init(|pcs|)
      modifies this, lock
      ensures Inv(View()) && start
    {
      InitInv(|pcs|);
      start := true;
      for i := 0 to before
        invariant Inv(View()) && start
      {
        AnyTurn();
      }
    }

    /** Runs the window under an arbitrary scheduler: `before` actions until stop is stored, and at most `spins`
        arbitrary ones afterwards. When all workers have been joined, the reported ops are the counter. */
    method Run(before: nat, spins: nat, sqrt: real -> real) returns (ops: nat, fairnessCv: real)
      requires View() == Init(|pcs|) && Fairness.IsSqrt(sqrt)
      modifies this, lock
      ensures Final(View()) && !lock.flag
      ensures ops == counter == Fairness.Total(counts) % MODULUS
      ensures Fairness.IsCv(counts, fairnessCv)
    {
      Window(before);
      stop := true;
      Join(spins);
      ops, fairnessCv := Result(sqrt);
    }
  }
}

/** ManualBarrier and the phase loop of ManualBarrier_WithWork (src/bench_barrier.cpp): `n` threads meet at a
    barrier of count `n` after each of `phases` phases of work.

    A wait on the condition variable is written out: the predicate is tested under the lock, a failed test
    releases the lock and joins the wait set in one action, and a sleeper is woken by notify_all or, at any
    time, spuriously. */
module ManualBarriers {
  import opened Tally

  datatype Pc =
    | Work(ph: nat) | WantLock(ph: nat)
    | Arrive(ph: nat)                               // holds the lock, about to count itself
    | Notify(ph: nat)                               // arrived last, about to call notify_all
    | Test(ph: nat, gen: nat, notified: bool)       // holds the lock, about to test the predicate
    | Asleep(ph: nat, gen: nat)
    | Woken(ph: nat, gen: nat, notified: bool)      // `notified`: by notify_all, not spuriously
    | Unlock(ph: nat)
    | Done(ph: nat)

  datatype State = State(mtx: Option<nat>, waiting: nat, generation: nat, pcs: seq<Pc>)

  function Enter(phases: nat, ph: nat): Pc {
    if ph < phases then Work(ph) else Done(ph)
  }

  function Init(n: nat, phases: nat): State {
    State(None, 0, 0, seq(n, _ => Enter(phases, 0)))
  }

  predicate InLock(pc: Pc) {
    pc.Arrive? || pc.Notify? || pc.Test? || pc.Unlock?
  }

  predicate Enabled(s: State, t: nat) {
    && t < |s.pcs|
    && match s.pcs[t]
       case WantLock(_) => s.mtx.None?
       case Woken(_, _, _) => s.mtx.None?
       case Asleep(_, _) => false
       case Done(_) => false
       case _ => true
  }

  function Wake(pc: Pc): Pc {
    match pc
    case Asleep(ph, gen) => Woken(ph, gen, true)
    case _ => pc
  }

  function Step(s: State, t: nat, phases: nat): State
    requires Enabled(s, t)
  {
    match s.pcs[t]
    case Work(ph) => s.(pcs := s.pcs[t := WantLock(ph)])
    case WantLock(ph) => s.(mtx := Some(t), pcs := s.pcs[t := Arrive(ph)])
    case Arrive(ph) =>
      if s.waiting + 1 == |s.pcs| then
        s.(waiting := 0, generation := s.generation + 1, pcs := s.pcs[t := Notify(ph)])
      else s.(waiting := s.waiting + 1, pcs := s.pcs[t := Test(ph, s.generation, false)])
    case Notify(ph) =>
      s.(pcs := seq(|s.pcs|, i requires 0 <= i < |s.pcs| => Wake(s.pcs[i]))[t := Unlock(ph)])
    case Test(ph, gen, _) =>
      if s.generation > gen then s.(pcs := s.pcs[t := Unlock(ph)])
      else s.(mtx := None, pcs := s.pcs[t := Asleep(ph, gen)])
    case Woken(ph, gen, told) => s.(mtx := Some(t), pcs := s.pcs[t := Test(ph, gen, told)])
    case Unlock(ph) => s.(mtx := None, pcs := s.pcs[t := Enter(phases, ph + 1)])
    case _ => s
  }

  /** A spurious wake-up of thread `t`. */
  function Spurious(s: State, t: nat): State
    requires t < |s.pcs| && s.pcs[t].Asleep?
  {
    s.(pcs := s.pcs[t := Woken(s.pcs[t].ph, s.pcs[t].gen, false)])
  }

  predicate Final(s: State) {
    forall t | 0 <= t < |s.pcs| :: s.pcs[t].Done?
  }

  // ----- the invariant -----

  /** How often the thread has arrived at the barrier. */
  function Arrivals(pc: Pc): int {
    match pc
    case Work(ph) => ph case WantLock(ph) => ph case Arrive(ph) => ph case Done(ph) => ph
    case _ => pc.ph + 1
  }

  /** The thread against the generation: one that has not arrived yet is in the phase of the generation, one
      that waits took its current_gen in this generation or in the one just completed. */
  predicate Fits(generation: nat, phases: nat, pc: Pc) {
    match pc
    case Work(ph) => ph == generation < phases
    case WantLock(ph) => ph == generation < phases
    case Arrive(ph) => ph == generation < phases
    case Notify(ph) => ph + 1 == generation <= phases
    case Unlock(ph) => ph + 1 == generation <= phases
    case Test(ph, gen, told) => gen == ph < phases && gen <= generation <= gen + 1 && (told ==> gen < generation)
    case Woken(ph, gen, told) => gen == ph < phases && gen <= generation <= gen + 1 && (told ==> gen < generation)
    case Asleep(ph, gen) => gen == ph < phases && gen <= generation <= gen + 1
    case Done(ph) => ph == generation == phases
  }

  ghost predicate LockOwned(s: State) {
    && (s.mtx.Some? ==> s.mtx.value < |s.pcs|)
    && forall u | 0 <= u < |s.pcs| :: InLock(s.pcs[u]) <==> s.mtx == Some(u)
  }

  ghost predicate NotifyComing(s: State) {
    s.mtx.Some? && s.mtx.value < |s.pcs| && s.pcs[s.mtx.value].Notify?
  }

  /** A sleeper whose generation has passed has a notify_all coming, and while one is coming nobody sleeps in
      the new generation. */
  ghost predicate WakeComing(s: State) {
    forall u | 0 <= u < |s.pcs| && s.pcs[u].Asleep? :: s.pcs[u].gen < s.generation <==> NotifyComing(s)
  }

  ghost predicate Inv(s: State, phases: nat) {
    && LockOwned(s)
    && (forall u | 0 <= u < |s.pcs| :: Fits(s.generation, phases, s.pcs[u]))
    && Sum(s.pcs, Arrivals) == s.generation * |s.pcs| + s.waiting
    && s.waiting < |s.pcs|
    && WakeComing(s)
  }

  lemma InitInv(n: nat, phases: nat)
    requires 1 <= n
    ensures Inv(Init(n, phases), phases)
  {
    SumConstant(Init(n, phases).pcs, Arrivals, 0);
  }

  /** When the last thread arrives, every thread has arrived in this generation. */
  lemma LastArrival(s: State, t: nat, phases: nat)
    requires Inv(s, phases) && t < |s.pcs| && s.pcs[t].Arrive? && s.waiting + 1 == |s.pcs|
    ensures forall u | 0 <= u < |s.pcs| && u != t :: Arrivals(s.pcs[u]) == s.generation + 1
  {
    assert Fits(s.generation, phases, s.pcs[t]);
    forall u | 0 <= u < |s.pcs| ensures Arrivals(s.pcs[u]) <= s.generation + 1 {
      assert Fits(s.generation, phases, s.pcs[u]);
    }
    OneMore(s.generation, |s.pcs|);
    SumTightElsewhere(s.pcs, Arrivals, t, Notify(s.generation), s.generation + 1);
  }

  lemma {:induction false} WakeSum(a: seq<Pc>, b: seq<Pc>)
    requires |a| == |b| && forall i | 0 <= i < |a| :: b[i] == Wake(a[i])
    ensures Sum(b, Arrivals) == Sum(a, Arrivals)
  {
    if a != [] {
      WakeSum(a[..|a| - 1], b[..|b| - 1]);
    }
  }

  lemma StepArrivals(s: State, t: nat, phases: nat)
    requires Inv(s, phases) && Enabled(s, t)
    ensures var s' := Step(s, t, phases); Sum(s'.pcs, Arrivals) == s'.generation * |s'.pcs| + s'.waiting
  {
    var s' := Step(s, t, phases);
    var pc := s.pcs[t];
    if pc.Notify? {
      var woken := seq(|s.pcs|, i requires 0 <= i < |s.pcs| => Wake(s.pcs[i]));
      WakeSum(s.pcs, woken);
      SumUpdate(woken, Arrivals, t, s'.pcs[t]);
    } else {
      SumUpdate(s.pcs, Arrivals, t, s'.pcs[t]);
      OneMore(s.generation, |s.pcs|);
    }
  }

  lemma StepFits(s: State, t: nat, phases: nat)
    requires Inv(s, phases) && Enabled(s, t)
    ensures var s' := Step(s, t, phases); forall u | 0 <= u < |s'.pcs| :: Fits(s'.generation, phases, s'.pcs[u])
  {
    var s' := Step(s, t, phases);
    if s.pcs[t].Arrive? && s.waiting + 1 == |s.pcs| {
      LastArrival(s, t, phases);
    }
    forall u | 0 <= u < |s'.pcs| ensures Fits(s'.generation, phases, s'.pcs[u]) {
      assert Fits(s.generation, phases, s.pcs[u]) && Fits(s.generation, phases, s.pcs[t]);
    }
  }

  lemma StepWakes(s: State, t: nat, phases: nat)
    requires Inv(s, phases) && Enabled(s, t)
    ensures WakeComing(Step(s, t, phases))
  {
    if s.pcs[t].Arrive? && s.waiting + 1 == |s.pcs| {
      LastArrival(s, t, phases);
    }
    assert Fits(s.generation, phases, s.pcs[t]);
    assert s.mtx.Some? && s.mtx.value != t ==> !InLock(s.pcs[t]);
    forall u | 0 <= u < |s.pcs| && s.pcs[u].Asleep? ensures Fits(s.generation, phases, s.pcs[u]) {}
  }

  lemma StepInv(s: State, t: nat, phases: nat)
    requires Inv(s, phases) && Enabled(s, t)
    ensures Inv(Step(s, t, phases), phases)
  {
    StepArrivals(s, t, phases);
    StepFits(s, t, phases);
    StepWakes(s, t, phases);
  }

  lemma SpuriousInv(s: State, t: nat, phases: nat)
    requires Inv(s, phases) && t < |s.pcs| && s.pcs[t].Asleep?
    ensures Inv(Spurious(s, t), phases)
  {
    assert Fits(s.generation, phases, s.pcs[t]);
    SumUpdate(s.pcs, Arrivals, t, Spurious(s, t).pcs[t]);
  }

  // ----- phase safety -----

  /** The phase the thread is in or waits to leave; at the end, the number of phases. */
  function Phase(pc: Pc): nat {
    pc.ph
  }

  /** How many phases of work the thread has finished. */
  function Finished(pc: Pc): nat {
    match pc
    case Work(ph) => ph
    case Done(ph) => ph
    case _ => pc.ph + 1
  }

  /** At any point of any run, no thread is in a phase before every thread has finished all earlier ones, and
      the barrier has counted exactly the arrivals there have been. */
  lemma {:induction false} PhaseSafety(n: nat, phases: nat, moves: seq<Move>, s: State, t: nat, u: nat)
    requires Runs(Init(n, phases), moves, s, phases) && t < n && u < n
    ensures |s.pcs| == n && Phase(s.pcs[t]) <= Finished(s.pcs[u])
    ensures s.waiting < n && s.generation * n + s.waiting == Sum(s.pcs, Arrivals)
  {
    InitInv(n, phases);
    RunInv(Init(n, phases), moves, s, phases);
    assert Fits(s.generation, phases, s.pcs[t]) && Fits(s.generation, phases, s.pcs[u]);
  }

  /** A waiter that leaves finds the generation exactly one above the one it read on arrival, and it was the
      one of its own phase; a waiter woken by notify_all never goes back to sleep. */
  lemma {:induction false} LeavesNextGeneration(n: nat, phases: nat, moves: seq<Move>, s: State, t: nat)
    requires 1 <= n && Runs(Init(n, phases), moves, s, phases) && t < |s.pcs| && s.pcs[t].Test?
    ensures s.pcs[t].gen == s.pcs[t].ph
    ensures s.generation > s.pcs[t].gen ==> s.generation == s.pcs[t].gen + 1
    ensures s.pcs[t].notified ==> s.generation > s.pcs[t].gen
  {
    InitInv(n, phases);
    RunInv(Init(n, phases), moves, s, phases);
    assert Fits(s.generation, phases, s.pcs[t]);
  }

  /** The threads never all wait for the current generation. */
  lemma NotAllWaiting(s: State, phases: nat)
    requires Inv(s, phases)
    ensures exists t: nat :: t < |s.pcs| && Arrivals(s.pcs[t]) <= s.generation
  {
    OneMore(s.generation, |s.pcs|);
    var t := SumBelow(s.pcs, Arrivals, s.generation + 1);
  }

  // ----- progress -----

  /** Unless all threads are done, some thread can move without any spurious wake-up. */
  lemma Progress(s: State, phases: nat)
    requires Inv(s, phases) && !Final(s)
    ensures exists t: nat :: Enabled(s, t)
  {
    if s.mtx.Some? {
      assert Enabled(s, s.mtx.value);
    } else {
      NotAllWaiting(s, phases);
      var t: nat :| t < |s.pcs| && Arrivals(s.pcs[t]) <= s.generation;
      assert Fits(s.generation, phases, s.pcs[t]);
      if s.pcs[t].Done? {
        var u :| 0 <= u < |s.pcs| && !s.pcs[u].Done?;
        assert Fits(s.generation, phases, s.pcs[u]);
        assert Enabled(s, u);
      } else {
        assert Enabled(s, t);
      }
    }
  }

  /** The actions left in the phase of the thread, less ten for each phase behind it. */
  function Rank(pc: Pc): int {
    match pc
    case Work(ph) => 9 - 10 * ph case WantLock(ph) => 8 - 10 * ph case Arrive(ph) => 7 - 10 * ph
    case Notify(ph) => 2 - 10 * ph case Asleep(ph, _) => 4 - 10 * ph
    case Test(ph, _, told) => (if told then 2 else 5) - 10 * ph
    case Woken(ph, _, told) => (if told then 3 else 6) - 10 * ph
    case Unlock(ph) => 1 - 10 * ph case Done(ph) => -10 * ph
  }

  function Ceiling(phases: nat, n: nat): int {
    10 * phases * n
  }

  lemma CeilingCovers(phases: nat, n: nat)
    ensures (-10 * phases) * n == -Ceiling(phases, n)
  {}

  function Measure(s: State, phases: nat): int {
    Ceiling(phases, |s.pcs|) + Sum(s.pcs, Rank)
  }

  lemma MeasureNonNegative(s: State, phases: nat)
    requires Inv(s, phases)
    ensures 0 <= Measure(s, phases)
  {
    forall t | 0 <= t < |s.pcs| ensures -10 * phases <= Rank(s.pcs[t]) {
      assert Fits(s.generation, phases, s.pcs[t]);
    }
    SumLower(s.pcs, Rank, -10 * phases);
    CeilingCovers(phases, |s.pcs|);
  }

  lemma {:induction false} WakeRank(a: seq<Pc>, b: seq<Pc>)
    requires |a| == |b| && forall i | 0 <= i < |a| :: b[i] == Wake(a[i])
    ensures Sum(b, Rank) <= Sum(a, Rank)
  {
    if a != [] {
      WakeRank(a[..|a| - 1], b[..|b| - 1]);
    }
  }

  lemma StepMeasure(s: State, t: nat, phases: nat)
    requires Inv(s, phases) && Enabled(s, t)
    ensures Measure(Step(s, t, phases), phases) < Measure(s, phases)
  {
    var s' := Step(s, t, phases);
    assert Fits(s.generation, phases, s.pcs[t]);
    if s.pcs[t].Notify? {
      var woken := seq(|s.pcs|, i requires 0 <= i < |s.pcs| => Wake(s.pcs[i]));
      WakeRank(s.pcs, woken);
      SumUpdate(woken, Rank, t, s'.pcs[t]);
    } else {
      SumUpdate(s.pcs, Rank, t, s'.pcs[t]);
    }
  }

  // ----- whole runs -----

  datatype Move = Act(t: nat) | Nap(t: nat)

  predicate Allowed(s: State, m: Move) {
    match m
    case Act(t) => Enabled(s, t)
    case Nap(t) => t < |s.pcs| && s.pcs[t].Asleep?
  }

  function Apply(s: State, m: Move, phases: nat): State
    requires Allowed(s, m)
  {
    match m
    case Act(t) => Step(s, t, phases)
    case Nap(t) => Spurious(s, t)
  }

  /** The schedule `moves` leads from `s` to `s'`. */
  ghost predicate Runs(s: State, moves: seq<Move>, s': State, phases: nat)
    decreases |moves|
  {
    if moves == [] then s == s'
    else Allowed(s, moves[0]) && Runs(Apply(s, moves[0], phases), moves[1..], s', phases)
  }

  /** The number of spurious wake-ups in a schedule. */
  function Naps(moves: seq<Move>): nat {
    if moves == [] then 0 else (if moves[0].Nap? then 1 else 0) + Naps(moves[1..])
  }

  /** Every schedule keeps the invariant, and it can be long only by spurious wake-ups. */
  lemma {:induction false} RunInv(s: State, moves: seq<Move>, s': State, phases: nat)
    requires Inv(s, phases) && Runs(s, moves, s', phases)
    ensures Inv(s', phases) && |s'.pcs| == |s.pcs|
    ensures |moves| + Measure(s', phases) <= Measure(s, phases) + 3 * Naps(moves)
    decreases |moves|
  {
    if moves != [] {
      var m := moves[0];
      var next := Apply(s, m, phases);
      match m {
        case Act(t) =>
          StepInv(s, t, phases);
          StepMeasure(s, t, phases);
        case Nap(t) =>
          SpuriousInv(s, t, phases);
          SumUpdate(s.pcs, Rank, t, next.pcs[t]);
      }
      RunInv(next, moves[1..], s', phases);
    }
  }

  /** A run that cannot go on has taken every thread through every phase, with the barrier empty again and
      exactly one generation per phase; and without more spurious wake-ups every run gets there. */
  lemma {:induction false} RunsComplete(n: nat, phases: nat, moves: seq<Move>, s: State)
    requires 1 <= n && Runs(Init(n, phases), moves, s, phases)
    ensures |moves| <= Measure(Init(n, phases), phases) + 3 * Naps(moves)
    ensures (forall t: nat :: !Enabled(s, t)) <==> Final(s)
    ensures Final(s) ==> s.generation == phases && s.waiting == 0
  {
    InitInv(n, phases);
    RunInv(Init(n, phases), moves, s, phases);
    MeasureNonNegative(s, phases);
    if !Final(s) {
      Progress(s, phases);
    } else {
      assert Fits(s.generation, phases, s.pcs[0]);
      SumConstant(s.pcs, Arrivals, phases);
    }
  }

  // ----- the barrier and its threads -----

  class ManualBarrier {
    var mtx: Option<nat>
    const count: nat
    var waiting: nat
    var generation: nat
    const phases: nat
    var pcs: seq<Pc>

    function View(): State
      reads this
    {
      State(mtx, waiting, generation, pcs)
    }

    constructor (count: nat, phases: nat)
      ensures View() == Init(count, phases) && this.count == count && this.phases == phases
    {
      this.count, this.phases := count, phases;
      mtx, waiting, generation := None, 0, 0;
      pcs := seq(count, _ => Enter(phases, 0));
    }

    /** The next action of thread `t` in its phase loop. */
    method Turn(t: nat)
      requires Enabled(View(), t) && |pcs| == count
      modifies this`mtx, this`waiting, this`generation, this`pcs
      ensures View() == Step(old(View()), t, phases)
    {
      match pcs[t] {
        case Work(ph) => pcs := pcs[t := WantLock(ph)];
        case WantLock(ph) => mtx, pcs := Some(t), pcs[t := Arrive(ph)];
        case Arrive(ph) =>
          var currentGen := generation;
          waiting := waiting + 1;
          if waiting == count {
            waiting := 0;
            generation := generation + 1;
            pcs := pcs[t := Notify(ph)];
          } else {
            pcs := pcs[t := Test(ph, currentGen, false)];
          }
        case Notify(ph) =>
          NotifyAll();
          pcs := pcs[t := Unlock(ph)];
        case Test(ph, gen, _) =>
          if generation > gen {
            pcs := pcs[t := Unlock(ph)];
          } else {
            mtx, pcs := None, pcs[t := Asleep(ph, gen)];
          }
        case Woken(ph, gen, told) => mtx, pcs := Some(t), pcs[t := Test(ph, gen, told)];
        case Unlock(ph) => mtx, pcs := None, pcs[t := Enter(phases, ph + 1)];
      }
    }

    /** Wakes every thread of the wait set. */
    method NotifyAll()
      modifies this`pcs
      ensures |pcs| == |old(pcs)| && forall u | 0 <= u < |pcs| :: pcs[u] == Wake(old(pcs)[u])
    {
      var i := 0;
      while i < |pcs|
        invariant i <= |pcs| == |old(pcs)|
        invariant forall u | 0 <= u < |pcs| :: pcs[u] == if u < i then Wake(old(pcs)[u]) else old(pcs)[u]
      {
        pcs := pcs[i := Wake(pcs[i])];
        i := i + 1;
      }
    }

    /** Some thread that can move performs its next action. */
    method AnyTurn()
      requires Inv(View(), phases) && !Final(View()) && |pcs| == count
      modifies this`mtx, this`waiting, this`generation, this`pcs
      ensures Inv(View(), phases) && |pcs| == count
      ensures Measure(View(), phases) < old(Measure(View(), phases))
    {
      Progress(View(), phases);
      var t: nat :| t < |pcs| && Enabled(View(), t);
      StepInv(View(), t, phases);
      StepMeasure(View(), t, phases);
      Turn(t);
    }

    method WakeSpuriously(t: nat)
      requires t < |pcs| && pcs[t].Asleep? && Inv(View(), phases)
      modifies this`pcs
      ensures View() == Spurious(old(View()), t)
      ensures Inv(View(), phases) && Measure(View(), phases) == old(Measure(View(), phases)) + 2
    {
      SpuriousInv(View(), t, phases);
      SumUpdate(pcs, Rank, t, Spurious(View(), t).pcs[t]);
      pcs := pcs[t := Woken(pcs[t].ph, pcs[t].gen, false)];
    }

    /** Runs all threads under an arbitrary scheduler that lets at most `naps` sleepers wake spuriously. */
    method Run(naps: nat)
      requires 1 <= count && View() == Init(count, phases)
      modifies this
      ensures Final(View()) && generation == phases && waiting == 0
    {
      InitInv(count, phases);
      var left := naps;
      while exists t | 0 <= t < |pcs| :: !pcs[t].Done?
        invariant Inv(View(), phases) && |pcs| == count
        decreases Measure(View(), phases) + 3 * left
      {
        MeasureNonNegative(View(), phases);
        var nap: bool := *;
        if t: nat :| nap && 0 < left && t < |pcs| && pcs[t].Asleep? {
          WakeSpuriously(t);
          left := left - 1;
        } else {
          AnyTurn();
        }
      }
      assert Fits(generation, phases, pcs[0]);
      SumConstant(pcs, Arrivals, phases);
    }
  }
}

/** The publication of phase start times in StdBarrier_WithWork (src/bench_barrier.cpp): thread 0 writes
    phase_starts[ph + 1] between two rendezvous of one std::barrier, all threads read it afterwards.

    The vector is not atomic, so a read and a write each have a beginning and an end. The barrier is the
    abstract one of ISO/IEC 14882:2020, section 32.8: an arrival takes the current barrier phase as its token,
    the last expected arrival completes the phase, and a wait ends when the phase of its token is over. */
module PublishedPhases {
  import opened Tally

  datatype Pc =
    | Work(ph: nat)                   // simulate_work, then take the arrival time
    | ToRead(ph: nat, at: int)
    | Reading(ph: nat, at: int)       // reading phase_starts[ph]
    | Arrive1(ph: nat) | Wait1(ph: nat, token: nat)
    | ToWrite(ph: nat)
    | Writing(ph: nat, at: int)       // writing phase_starts[ph + 1]
    | Arrive2(ph: nat) | Wait2(ph: nat, token: nat)
    | Done(ph: nat)

  datatype State = State(
    clock: int, arrived: nat, phase: nat, starts: seq<Option<int>>, lastArrival: seq<int>, pcs: seq<Pc>)

  /** The main thread publishes the start of phase 0 at time `now` and launches `n` threads. */
  function Init(n: nat, phases: nat, now: int): State {
    State(now, 0, 0, seq(phases, i => if i == 0 then Some(now) else None), seq(n, _ => 0), seq(n, _ => Work(0)))
  }

  predicate Enabled(s: State, t: nat) {
    && t < |s.pcs|
    && match s.pcs[t]
       case Wait1(_, token) => token < s.phase
       case Wait2(_, token) => token < s.phase
       case Done(_) => false
       case _ => true
  }

  /** One arrival at the barrier. */
  function Arrival(s: State): State {
    if s.arrived + 1 == |s.pcs| then s.(arrived := 0, phase := s.phase + 1)
    else s.(arrived := s.arrived + 1)
  }

  predicate Sized(s: State, phases: nat) {
    |s.starts| == phases && |s.lastArrival| == |s.pcs|
  }

  /** The next action of thread `t`, at clock value `now`. */
  function Step(s: State, t: nat, now: int): State
    requires Enabled(s, t) && |s.lastArrival| == |s.pcs|
  {
    var u := s.(clock := now);
    match s.pcs[t]
    case Work(ph) => u.(pcs := s.pcs[t := ToRead(ph, now)])
    case ToRead(ph, at) => u.(pcs := s.pcs[t := Reading(ph, at)])
    case Reading(ph, at) =>
      u.(pcs := s.pcs[t := Arrive1(ph)],
         lastArrival := if ph < |s.starts| && s.starts[ph].Some?
                        then s.lastArrival[t := at - s.starts[ph].value] else s.lastArrival)
    case Arrive1(ph) => Arrival(u).(pcs := s.pcs[t := Wait1(ph, s.phase)])
    case Wait1(ph, _) =>
      u.(pcs := s.pcs[t := if ph + 1 == |s.starts| then Done(ph + 1)
                           else if t == 0 then ToWrite(ph) else Arrive2(ph)])
    case ToWrite(ph) => u.(pcs := s.pcs[t := Writing(ph, now)])
    case Writing(ph, at) =>
      u.(pcs := s.pcs[t := Arrive2(ph)],
         starts := if ph + 1 < |s.starts| then s.starts[ph + 1 := Some(at)] else s.starts)
    case Arrive2(ph) => Arrival(u).(pcs := s.pcs[t := Wait2(ph, s.phase)])
    case Wait2(ph, _) => u.(pcs := s.pcs[t := Work(ph + 1)])
    case Done(_) => s
  }

  predicate Final(s: State) {
    forall t | 0 <= t < |s.pcs| :: s.pcs[t].Done?
  }

  // ----- the invariant -----

  /** How often the thread has arrived at the barrier: twice per phase, once in the last one. */
  function Arrivals(pc: Pc): int {
    match pc
    case Work(ph) => 2 * ph case ToRead(ph, _) => 2 * ph case Reading(ph, _) => 2 * ph case Arrive1(ph) => 2 * ph
    case Wait1(ph, _) => 2 * ph + 1 case ToWrite(ph) => 2 * ph + 1 case Writing(ph, _) => 2 * ph + 1
    case Arrive2(ph) => 2 * ph + 1
    case Wait2(ph, _) => 2 * ph + 2
    case Done(ph) => 2 * ph - 1
  }

  predicate Waits(pc: Pc) {
    pc.Wait1? || pc.Wait2?
  }

  /** The thread against the barrier phase `phase`. */
  predicate Fits(phase: nat, phases: nat, pc: Pc) {
    && Arrivals(pc) - (if Waits(pc) then 1 else 0) <= phase <= Arrivals(pc)
    && match pc
       case Wait1(ph, token) => ph < phases && token + 1 == Arrivals(pc)
       case Wait2(ph, token) => ph + 1 < phases && token + 1 == Arrivals(pc)
       case ToWrite(ph) => ph + 1 < phases
       case Writing(ph, _) => ph + 1 < phases
       case Arrive2(ph) => ph + 1 < phases
       case Done(ph) => ph == phases
       case _ => pc.ph < phases
  }

  /** The last slot that thread 0, at `pc`, has published. */
  function LastPublished(pc: Pc): int {
    match pc
    case Arrive2(ph) => ph + 1 case Wait2(ph, _) => ph + 1 case Done(ph) => ph - 1
    case _ => pc.ph
  }

  ghost predicate Published(s: State)
    requires s.pcs != []
  {
    && (forall p | 0 <= p < |s.starts| :: s.starts[p].Some? <==> p <= LastPublished(s.pcs[0]))
    && (forall p | 0 <= p < |s.starts| && s.starts[p].Some? :: s.starts[p].value <= s.clock)
  }

  /** A thread other than 0 never writes, and an arrival time is not before the start of its phase. */
  ghost predicate TimesFit(s: State, t: nat)
    requires t < |s.pcs|
  {
    match s.pcs[t]
    case ToRead(ph, at) => at <= s.clock && (ph < |s.starts| && s.starts[ph].Some? ==> s.starts[ph].value <= at)
    case Reading(ph, at) => at <= s.clock && (ph < |s.starts| && s.starts[ph].Some? ==> s.starts[ph].value <= at)
    case ToWrite(_) => t == 0
    case Writing(_, at) => t == 0 && at <= s.clock
    case _ => true
  }

  ghost predicate Inv(s: State, phases: nat) {
    && Sized(s, phases) && s.pcs != []
    && (forall u | 0 <= u < |s.pcs| :: Fits(s.phase, phases, s.pcs[u]) && TimesFit(s, u))
    && Sum(s.pcs, Arrivals) == s.phase * |s.pcs| + s.arrived
    && s.arrived < |s.pcs|
    && Published(s)
    && (forall u | 0 <= u < |s.pcs| :: 0 <= s.lastArrival[u])
  }

  lemma {:induction false} InitInv(n: nat, phases: nat, now: int)
    requires 1 <= n && 1 <= phases
    ensures Inv(Init(n, phases, now), phases)
  {
    SumConstant(Init(n, phases, now).pcs, Arrivals, 0);
  }

  /** The last expected arrival finds every other thread waiting with the current token. */
  lemma {:induction false} LastArrival(s: State, t: nat, next: Pc, phases: nat)
    requires Inv(s, phases) && t < |s.pcs| && !Waits(s.pcs[t]) && s.arrived + 1 == |s.pcs|
    requires Arrivals(next) == Arrivals(s.pcs[t]) + 1
    ensures forall u | 0 <= u < |s.pcs| && u != t :: Arrivals(s.pcs[u]) == s.phase + 1
  {
    assert Fits(s.phase, phases, s.pcs[t]);
    forall u | 0 <= u < |s.pcs| ensures Arrivals(s.pcs[u]) <= s.phase + 1 {
      assert Fits(s.phase, phases, s.pcs[u]);
    }
    OneMore(s.phase, |s.pcs|);
    SumTightElsewhere(s.pcs, Arrivals, t, next, s.phase + 1);
  }

  lemma {:induction false} StepArrivals(s: State, t: nat, now: int, phases: nat)
    requires Inv(s, phases) && Enabled(s, t)
    ensures var s' := Step(s, t, now);
            Sum(s'.pcs, Arrivals) == s'.phase * |s'.pcs| + s'.arrived && s'.arrived < |s'.pcs|
  {
    var s' := Step(s, t, now);
    assert Fits(s.phase, phases, s.pcs[t]);
    SumUpdate(s.pcs, Arrivals, t, s'.pcs[t]);
    if s.pcs[t].Arrive1? || s.pcs[t].Arrive2? {
      ArrivalCounts(s.(clock := now));
    } else {
      assert s'.phase == s.phase && s'.arrived == s.arrived;
    }
  }

  lemma {:induction false} ArrivalCounts(s: State)
    requires s.arrived < |s.pcs|
    ensures var a := Arrival(s);
            a.phase * |s.pcs| + a.arrived == s.phase * |s.pcs| + s.arrived + 1 && a.arrived < |s.pcs|
  {
    OneMore(s.phase, |s.pcs|);
  }

  lemma {:induction false} StepFits(s: State, t: nat, now: int, phases: nat)
    requires Inv(s, phases) && Enabled(s, t)
    ensures var s' := Step(s, t, now); forall u | 0 <= u < |s'.pcs| :: Fits(s'.phase, phases, s'.pcs[u])
  {
    var s' := Step(s, t, now);
    if (s.pcs[t].Arrive1? || s.pcs[t].Arrive2?) && s.arrived + 1 == |s.pcs| {
      LastArrival(s, t, s'.pcs[t], phases);
    }
    forall u | 0 <= u < |s'.pcs| ensures Fits(s'.phase, phases, s'.pcs[u]) {
      assert Fits(s.phase, phases, s.pcs[u]) && Fits(s.phase, phases, s.pcs[t]);
    }
  }

  /** While thread 0 writes, the barrier phase is odd; while anybody reads, it is even. */
  lemma {:induction false} WriterAlone(s: State, t: nat, u: nat, phases: nat)
    requires Inv(s, phases) && t < |s.pcs| && u < |s.pcs| && s.pcs[t].Writing?
    ensures !s.pcs[u].Reading? && (s.pcs[u].Writing? ==> u == t)
  {
    assert Fits(s.phase, phases, s.pcs[t]) && Fits(s.phase, phases, s.pcs[u]);
    assert TimesFit(s, t) && TimesFit(s, u);
  }

  lemma {:induction false} StepPublished(s: State, t: nat, now: int, phases: nat)
    requires Inv(s, phases) && Enabled(s, t) && s.clock <= now
    ensures Published(Step(s, t, now))
    ensures forall p | 0 <= p < |s.starts| && s.starts[p].Some? :: Step(s, t, now).starts[p] == s.starts[p]
  {
    assert Fits(s.phase, phases, s.pcs[t]) && TimesFit(s, t) && TimesFit(s, 0);
  }

  /** Whoever is in phase `ph`, its start has been published. */
  lemma {:induction false} StartPublished(s: State, u: nat, phases: nat)
    requires Inv(s, phases) && u < |s.pcs| && s.pcs[u].ph < phases
    requires s.pcs[u].Work? || s.pcs[u].ToRead? || s.pcs[u].Reading?
    ensures s.starts[s.pcs[u].ph].Some?
  {
    assert Fits(s.phase, phases, s.pcs[u]) && Fits(s.phase, phases, s.pcs[0]);
  }

  /** A thread that does not move keeps its facts: what it reads about has been published already. */
  lemma {:induction false} TimesKept(s: State, t: nat, now: int, phases: nat, u: nat)
    requires Inv(s, phases) && Enabled(s, t) && s.clock <= now && u < |s.pcs| && u != t
    ensures TimesFit(Step(s, t, now), u)
  {
    StepPublished(s, t, now, phases);
    assert TimesFit(s, u) && Fits(s.phase, phases, s.pcs[u]);
    if s.pcs[u].ToRead? || s.pcs[u].Reading? {
      StartPublished(s, u, phases);
    }
  }

  lemma {:induction false} TimesOwn(s: State, t: nat, now: int, phases: nat)
    requires Inv(s, phases) && Enabled(s, t) && s.clock <= now
    ensures TimesFit(Step(s, t, now), t)
  {
    assert TimesFit(s, t) && Fits(s.phase, phases, s.pcs[t]);
  }

  lemma {:induction false} StepOffsets(s: State, t: nat, now: int, phases: nat)
    requires Inv(s, phases) && Enabled(s, t)
    ensures var s' := Step(s, t, now); forall u | 0 <= u < |s'.pcs| :: 0 <= s'.lastArrival[u]
  {
    assert TimesFit(s, t);
  }

  lemma {:induction false} StepTimes(s: State, t: nat, now: int, phases: nat)
    requires Inv(s, phases) && Enabled(s, t) && s.clock <= now
    ensures var s' := Step(s, t, now);
            && (forall u | 0 <= u < |s'.pcs| :: TimesFit(s', u))
            && (forall u | 0 <= u < |s'.pcs| :: 0 <= s'.lastArrival[u])
  {
    var s' := Step(s, t, now);
    forall u | 0 <= u < |s'.pcs| ensures TimesFit(s', u) {
      if u == t {
        TimesOwn(s, t, now, phases);
      } else {
        TimesKept(s, t, now, phases, u);
      }
    }
    StepOffsets(s, t, now, phases);
  }

  lemma {:induction false} StepInv(s: State, t: nat, now: int, phases: nat)
    requires Inv(s, phases) && Enabled(s, t) && s.clock <= now
    ensures Inv(Step(s, t, now), phases)
  {
    StepArrivals(s, t, now, phases);
    StepFits(s, t, now, phases);
    StepPublished(s, t, now, phases);
    StepTimes(s, t, now, phases);
  }

  // ----- progress -----

  /** Not every thread waits for the barrier to complete its current phase. */
  lemma {:induction false} SomeoneArrives(s: State, phases: nat) returns (t: nat)
    requires Inv(s, phases)
    ensures t < |s.pcs| && Arrivals(s.pcs[t]) <= s.phase
  {
    OneMore(s.phase, |s.pcs|);
    t := SumBelow(s.pcs, Arrivals, s.phase + 1);
  }

  lemma {:induction false} Progress(s: State, phases: nat)
    requires Inv(s, phases) && !Final(s)
    ensures exists t: nat :: Enabled(s, t)
  {
    var t := SomeoneArrives(s, phases);
    assert Fits(s.phase, phases, s.pcs[t]);
    if s.pcs[t].Done? {
      var u :| 0 <= u < |s.pcs| && !s.pcs[u].Done?;
      assert Fits(s.phase, phases, s.pcs[u]);
      assert Enabled(s, u);
    } else {
      assert Enabled(s, t);
    }
  }

  /** The actions left in the phase of the thread, less ten for each phase behind it. */
  function Rank(pc: Pc): int {
    match pc
    case Work(ph) => 9 - 10 * ph case ToRead(ph, _) => 8 - 10 * ph case Reading(ph, _) => 7 - 10 * ph
    case Arrive1(ph) => 6 - 10 * ph case Wait1(ph, _) => 5 - 10 * ph case ToWrite(ph) => 4 - 10 * ph
    case Writing(ph, _) => 3 - 10 * ph case Arrive2(ph) => 2 - 10 * ph case Wait2(ph, _) => 1 - 10 * ph
    case Done(ph) => -10 * ph
  }

  function Ceiling(phases: nat, n: nat): int {
    10 * phases * n
  }

  lemma {:induction false} CeilingCovers(phases: nat, n: nat)
    ensures (-10 * phases) * n == -Ceiling(phases, n)
  {}

  function Measure(s: State): int {
    Ceiling(|s.starts|, |s.pcs|) + Sum(s.pcs, Rank)
  }

  lemma {:induction false} MeasureNonNegative(s: State, phases: nat)
    requires Inv(s, phases)
    ensures 0 <= Measure(s)
  {
    forall t | 0 <= t < |s.pcs| ensures -10 * phases <= Rank(s.pcs[t]) {
      assert Fits(s.phase, phases, s.pcs[t]);
    }
    SumLower(s.pcs, Rank, -10 * phases);
    CeilingCovers(phases, |s.pcs|);
  }

  lemma {:induction false} StepMeasure(s: State, t: nat, now: int)
    requires Enabled(s, t) && |s.lastArrival| == |s.pcs|
    ensures Measure(Step(s, t, now)) < Measure(s)
  {
    SumUpdate(s.pcs, Rank, t, Step(s, t, now).pcs[t]);
  }

  // ----- whole runs -----

  /** Thread `t` acts when the clock shows `now`. */
  datatype Move = Move(t: nat, now: int)

  predicate Allowed(s: State, m: Move) {
    Enabled(s, m.t) && s.clock <= m.now && |s.lastArrival| == |s.pcs|
  }

  ghost predicate Runs(s: State, moves: seq<Move>, s': State)
    decreases |moves|
  {
    if moves == [] then s == s'
    else Allowed(s, moves[0]) && Runs(Step(s, moves[0].t, moves[0].now), moves[1..], s')
  }

  lemma {:induction false} RunInv(s: State, moves: seq<Move>, s': State, phases: nat)
    requires Inv(s, phases) && Runs(s, moves, s')
    ensures Inv(s', phases) && |s'.pcs| == |s.pcs|
    ensures |moves| + Measure(s') <= Measure(s)
    ensures forall p | 0 <= p < phases && s.starts[p].Some? :: s'.starts[p] == s.starts[p]
    decreases |moves|
  {
    if moves != [] {
      var m := moves[0];
      StepInv(s, m.t, m.now, phases);
      StepPublished(s, m.t, m.now, phases);
      StepMeasure(s, m.t, m.now);
      RunInv(Step(s, m.t, m.now), moves[1..], s', phases);
    }
  }

  /** In no run does a read of a start time overlap a write of any of them, and no two writes overlap. */
  lemma {:induction false} NoOverlap(n: nat, phases: nat, t0: int, moves: seq<Move>, s: State, t: nat, u: nat)
    requires 1 <= n && 1 <= phases && Runs(Init(n, phases, t0), moves, s)
    requires t < |s.pcs| && u < |s.pcs| && s.pcs[t].Writing?
    ensures !s.pcs[u].Reading? && (s.pcs[u].Writing? ==> u == t)
  {
    InitInv(n, phases, t0);
    RunInv(Init(n, phases, t0), moves, s, phases);
    WriterAlone(s, t, u, phases);
  }

  /** In every run, a read of phase_starts[q] sees the one value ever written there: the slot is set when the
      read begins, nobody writes while it lasts, the value is not later than the arrival time it is compared
      with, and no later state of the run has another value in the slot. */
  lemma {:induction false} ReadsSeeThePublishedStart(
      n: nat, phases: nat, t0: int, before: seq<Move>, s: State, after: seq<Move>, s': State, u: nat, w: nat)
    requires 1 <= n && 1 <= phases
    requires Runs(Init(n, phases, t0), before, s) && Runs(s, after, s')
    requires u < |s.pcs| && w < |s.pcs| && s.pcs[u].Reading?
    ensures var q := s.pcs[u].ph;
            && q < |s.starts| == |s'.starts|
            && s.starts[q].Some? && s'.starts[q] == s.starts[q]
            && s.starts[q].value <= s.pcs[u].at
            && !s.pcs[w].Writing?
  {
    InitInv(n, phases, t0);
    RunInv(Init(n, phases, t0), before, s, phases);
    RunInv(s, after, s', phases);
    assert Fits(s.phase, phases, s.pcs[u]) && TimesFit(s, u);
    StartPublished(s, u, phases);
    if s.pcs[w].Writing? {
      WriterAlone(s, w, u, phases);
    }
  }

  // ----- the values -----

  predicate Stored(s: State, t: nat, ph: nat, now: int) {
    && t < |s.lastArrival| && ph < |s.starts| && s.starts[ph].Some?
    && s.lastArrival[t] == now - s.starts[ph].value
  }

  /** Thread `t` finished its work of phase `ph` at clock value `now`: it carries this arrival time, or has stored
      the offset and not yet the one of the next phase. */
  predicate HasOffset(s: State, t: nat, ph: nat, now: int) {
    && t < |s.pcs| && ph <= s.pcs[t].ph && s.pcs[t] != Work(ph)
    && match s.pcs[t]
       case ToRead(p, at) => (p == ph ==> at == now) && (p == ph + 1 ==> Stored(s, t, ph, now))
       case Reading(p, at) => (p == ph ==> at == now) && (p == ph + 1 ==> Stored(s, t, ph, now))
       case Work(p) => p == ph + 1 ==> Stored(s, t, ph, now)
       case Done(p) => p == ph + 1 ==> Stored(s, t, ph, now)
       case pc => pc.ph == ph ==> Stored(s, t, ph, now)
  }

  lemma {:induction false} OffsetKept(s: State, u: nat, time: int, phases: nat, t: nat, ph: nat, now: int)
    requires Inv(s, phases) && Enabled(s, u) && s.clock <= time && HasOffset(s, t, ph, now)
    ensures HasOffset(Step(s, u, time), t, ph, now)
  {
    StepPublished(s, u, time, phases);
    if u == t {
      SlotIsReady(s, t, phases);
    }
  }

  lemma {:induction false} RunKeepsOffset(
      s: State, moves: seq<Move>, s': State, phases: nat, t: nat, ph: nat, now: int)
    requires Inv(s, phases) && Runs(s, moves, s') && HasOffset(s, t, ph, now)
    ensures Inv(s', phases) && HasOffset(s', t, ph, now)
    decreases |moves|
  {
    if moves != [] {
      var m := moves[0];
      StepInv(s, m.t, m.now, phases);
      OffsetKept(s, m.t, m.now, phases, t, ph, now);
      RunKeepsOffset(Step(s, m.t, m.now), moves[1..], s', phases, t, ph, now);
    }
  }

  /** In every run in which a thread takes its arrival time in phase `ph` at clock value `now`, the offset it
      stores is the time from the start of that phase to `now`, and it stays until the thread has read the next
      start; so at the end last_arrival holds the offsets of the last phase. */
  lemma {:induction false} OffsetIsStored(
      n: nat, phases: nat, t0: int, before: seq<Move>, s: State, m: Move, after: seq<Move>, s': State)
    requires 1 <= n && 1 <= phases && Runs(Init(n, phases, t0), before, s)
    requires Allowed(s, m) && s.pcs[m.t].Work? && Runs(Step(s, m.t, m.now), after, s')
    ensures HasOffset(s', m.t, s.pcs[m.t].ph, m.now)
    ensures s'.pcs[m.t].Done? && s.pcs[m.t].ph == phases - 1 ==> Stored(s', m.t, phases - 1, m.now)
  {
    InitInv(n, phases, t0);
    RunInv(Init(n, phases, t0), before, s, phases);
    StepInv(s, m.t, m.now, phases);
    RunKeepsOffset(Step(s, m.t, m.now), after, s', phases, m.t, s.pcs[m.t].ph, m.now);
    assert Fits(s'.phase, phases, s'.pcs[m.t]);
  }

  lemma {:induction false} WriteLands(s: State, moves: seq<Move>, s': State, phases: nat, ph: nat, now: int)
    requires Inv(s, phases) && Runs(s, moves, s') && ph + 1 < phases
    requires s.pcs[0] == Writing(ph, now) || s.starts[ph + 1] == Some(now)
    ensures Inv(s', phases) && (s'.pcs[0] == Writing(ph, now) || s'.starts[ph + 1] == Some(now))
    decreases |moves|
  {
    if moves != [] {
      var m := moves[0];
      StepInv(s, m.t, m.now, phases);
      StepPublished(s, m.t, m.now, phases);
      WriteLands(Step(s, m.t, m.now), moves[1..], s', phases, ph, now);
    }
  }

  /** In every run the start of phase 0 is the time before the launch, and the start of phase `ph + 1` is the
      clock value at which thread 0 began the write after the rendezvous of phase `ph`. */
  lemma {:induction false} StartsAreWriteTimes(
      n: nat, phases: nat, t0: int, before: seq<Move>, s: State, m: Move, after: seq<Move>, s': State)
    requires 1 <= n && 1 <= phases && Runs(Init(n, phases, t0), before, s)
    requires Allowed(s, m) && s.pcs[m.t].ToWrite? && Runs(Step(s, m.t, m.now), after, s')
    ensures m.t == 0 && |s'.starts| == phases && s'.starts[0] == Some(t0)
    ensures var ph := s.pcs[0].ph;
            && ph + 1 < phases && s'.pcs != []
            && (s'.pcs[0] == Writing(ph, m.now) || s'.starts[ph + 1] == Some(m.now))
  {
    InitInv(n, phases, t0);
    RunInv(Init(n, phases, t0), before, s, phases);
    assert TimesFit(s, m.t) && Fits(s.phase, phases, s.pcs[m.t]);
    StepInv(s, m.t, m.now, phases);
    StepPublished(s, m.t, m.now, phases);
    RunInv(Step(s, m.t, m.now), after, s', phases);
    WriteLands(Step(s, m.t, m.now), after, s', phases, s.pcs[0].ph, m.now);
  }

  /** Thread `t` took its arrival time `now` in phase `ph`, and phase `ph + 1` does not start before that. */
  predicate StartsLater(s: State, ph: nat, now: int) {
    && now <= s.clock && s.pcs != []
    && (s.pcs[0].Writing? && s.pcs[0].ph == ph ==> now <= s.pcs[0].at)
    && (ph + 1 < |s.starts| && s.starts[ph + 1].Some? ==> now <= s.starts[ph + 1].value)
  }

  lemma {:induction false} RunStartsLater(s: State, moves: seq<Move>, s': State, phases: nat, ph: nat, now: int)
    requires Inv(s, phases) && Runs(s, moves, s') && StartsLater(s, ph, now)
    ensures StartsLater(s', ph, now)
    decreases |moves|
  {
    if moves != [] {
      var m := moves[0];
      StepInv(s, m.t, m.now, phases);
      RunStartsLater(Step(s, m.t, m.now), moves[1..], s', phases, ph, now);
    }
  }

  /** In every run the published start of a phase is not before any arrival in the phase before it. */
  lemma {:induction false} StartsAfterArrivals(
      n: nat, phases: nat, t0: int, before: seq<Move>, s: State, m: Move, after: seq<Move>, s': State)
    requires 1 <= n && 1 <= phases && Runs(Init(n, phases, t0), before, s)
    requires Allowed(s, m) && s.pcs[m.t].Work? && Runs(Step(s, m.t, m.now), after, s')
    ensures var q := s.pcs[m.t].ph + 1; q < |s'.starts| && s'.starts[q].Some? ==> m.now <= s'.starts[q].value
  {
    InitInv(n, phases, t0);
    RunInv(Init(n, phases, t0), before, s, phases);
    assert Fits(s.phase, phases, s.pcs[m.t]) && Fits(s.phase, phases, s.pcs[0]);
    StepInv(s, m.t, m.now, phases);
    RunStartsLater(Step(s, m.t, m.now), after, s', phases, s.pcs[m.t].ph, m.now);
  }

  /** What a finished run leaves behind. */
  ghost predicate Complete(s: State, phases: nat) {
    && Final(s) && s.phase == 2 * phases - 1 && s.arrived == 0
    && (forall start | start in s.starts :: start.Some?)
    && (forall offset | offset in s.lastArrival :: 0 <= offset)
  }

  lemma {:induction false} FinalIsComplete(s: State, phases: nat)
    requires Inv(s, phases) && Final(s)
    ensures Complete(s, phases)
  {
    assert Fits(s.phase, phases, s.pcs[0]);
    SumConstant(s.pcs, Arrivals, 2 * phases - 1);
  }

  /** Every run ends, with all threads done, every start published, every arrival offset non-negative and the
      barrier used exactly 2 * phases - 1 times. */
  lemma {:induction false} RunsComplete(n: nat, phases: nat, t0: int, moves: seq<Move>, s: State)
    requires 1 <= n && 1 <= phases && Runs(Init(n, phases, t0), moves, s)
    ensures |moves| <= Measure(Init(n, phases, t0))
    ensures (forall t: nat :: !Enabled(s, t)) <==> Final(s)
    ensures Final(s) ==> Complete(s, phases)
  {
    InitInv(n, phases, t0);
    RunInv(Init(n, phases, t0), moves, s, phases);
    MeasureNonNegative(s, phases);
    if !Final(s) {
      Progress(s, phases);
    } else {
      FinalIsComplete(s, phases);
    }
  }

  lemma {:induction false} StepPaid(s: State, t: nat, now: int, phases: nat)
    requires Inv(s, phases) && Enabled(s, t) && s.clock <= now
    ensures Inv(Step(s, t, now), phases) && 0 <= Measure(Step(s, t, now)) < Measure(s)
  {
    StepInv(s, t, now, phases);
    StepMeasure(s, t, now);
    MeasureNonNegative(Step(s, t, now), phases);
  }

  /** The slot that thread `t` is about to read or write exists, and to read, is set. */
  predicate SlotReady(s: State, t: nat, phases: nat)
    requires t < |s.pcs|
  {
    && Sized(s, phases)
    && (s.pcs[t].Reading? ==> s.pcs[t].ph < phases && s.starts[s.pcs[t].ph].Some?)
    && (s.pcs[t].Writing? ==> s.pcs[t].ph + 1 < phases)
  }

  lemma {:induction false} SlotIsReady(s: State, t: nat, phases: nat)
    requires Inv(s, phases) && Enabled(s, t)
    ensures SlotReady(s, t, phases)
  {
    assert Fits(s.phase, phases, s.pcs[t]);
    if s.pcs[t].Reading? {
      StartPublished(s, t, phases);
    }
  }

  // ----- the benchmark -----

  class PhaseStarts {
    const phases: nat
    var clock: int
    var arrived: nat
    var phase: nat
    var phaseStarts: array<Option<int>>
    var lastArrival: array<int>
    var pcs: seq<Pc>

    function View(): State
      reads this, phaseStarts, lastArrival
    {
      State(clock, arrived, phase, phaseStarts[..], lastArrival[..], pcs)
    }

    constructor (n: nat, phases: nat, now: int)
      requires 1 <= phases
      ensures View() == Init(n, phases, now) && this.phases == phases
      ensures fresh(phaseStarts) && fresh(lastArrival)
    {
      this.phases := phases;
      clock, arrived, phase := now, 0, 0;
      phaseStarts := new Option<int>[phases](_ => None);
      lastArrival := new int[n](_ => 0);
      pcs := seq(n, _ => Work(0));
      new;
      phaseStarts[0] := Some(now);
    }

    method Arrives()
      modifies this`arrived, this`phase
      ensures arrived == Arrival(old(View())).arrived && phase == Arrival(old(View())).phase
    {
      if arrived + 1 == |pcs| {
        arrived, phase := 0, phase + 1;
      } else {
        arrived := arrived + 1;
      }
    }

    /** The next action of thread `t` in its phase loop, at clock value `now`. */
    method Turn(t: nat, now: int)
      requires Enabled(View(), t) && SlotReady(View(), t, phases)
      modifies this`clock, this`arrived, this`phase, this`pcs, phaseStarts, lastArrival
      ensures View() == Step(old(View()), t, now)
    {
      clock := now;
      match pcs[t] {
        case Work(ph) => pcs := pcs[t := ToRead(ph, now)];
        case ToRead(ph, at) => pcs := pcs[t := Reading(ph, at)];
        case Reading(ph, at) =>
          lastArrival[t] := at - phaseStarts[ph].value;
          pcs := pcs[t := Arrive1(ph)];
        case Arrive1(ph) =>
          pcs := pcs[t := Wait1(ph, phase)];
          Arrives();
        case Wait1(ph, _) =>
          pcs := pcs[t := if ph + 1 == phases then Done(ph + 1) else if t == 0 then ToWrite(ph) else Arrive2(ph)];
        case ToWrite(ph) => pcs := pcs[t := Writing(ph, now)];
        case Writing(ph, at) =>
          phaseStarts[ph + 1] := Some(at);
          pcs := pcs[t := Arrive2(ph)];
        case Arrive2(ph) =>
          pcs := pcs[t := Wait2(ph, phase)];
          Arrives();
        case Wait2(ph, _) => pcs := pcs[t := Work(ph + 1)];
      }
    }

    /** Some thread that can move performs its next action, some time later. */
    method AnyTurn()
      requires Inv(View(), phases) && !Final(View())
      modifies this`clock, this`arrived, this`phase, this`pcs, phaseStarts, lastArrival
      ensures Inv(View(), phases) && 0 <= Measure(View()) < old(Measure(View()))
    {
      Progress(View(), phases);
      var t: nat :| t < |pcs| && Enabled(View(), t);
      var now: int := *;
      if now < clock {
        now := clock;
      }
      StepPaid(View(), t, now, phases);
      SlotIsReady(View(), t, phases);
      Turn(t, now);
    }

    /** Runs all threads under an arbitrary scheduler and an arbitrary clock that never goes back. */
    method Run()
      requires Inv(View(), phases)
      modifies this`clock, this`arrived, this`phase, this`pcs, phaseStarts, lastArrival
      ensures Complete(View(), phases)
    {
      MeasureNonNegative(View(), phases);
      while exists t | 0 <= t < |pcs| :: !pcs[t].Done?
        invariant Inv(View(), phases) && 0 <= Measure(View())
        decreases Measure(View())
      {
        AnyTurn();
      }
      FinalIsComplete(View(), phases);
    }
  }
}

/** The condition-variable queue of src/bench_pc_condvar.cpp, from thread launch to the last join, for any
    numbers of producers and consumers.

    Waiting is written out: the predicate is tested under the mutex, a failed test releases the mutex and joins
    the wait set in one action, and a sleeper is woken by notify_one (an arbitrary one), notify_all, or at any
    time spuriously. A producer notifies after it has released the mutex. */
module PcCondVar {
  import opened Tally

  /** A producer that has pushed `i` items, or `i` plus the one it is about to announce. */
  datatype Producer = PLock(i: nat) | PPush(i: nat) | PUnlock(i: nat) | PNotify(i: nat) | PDone(i: nat)

  /** CUndefined: front() was called on an empty queue. */
  datatype Consumer = CLock | CTest | CAsleep | CWoken | CTake | CUnlock | CUnlockExit | CDone | CUndefined

  datatype MainThread =
    | JoinProducers(left: nat) | MLock | MSet | MUnlock | MNotify | JoinConsumers(left: nat) | MDone

  datatype Thread = P(i: nat) | C(i: nat) | Main

  datatype State = State(
    mtx: Option<Thread>, q: seq<int>, done: bool, prods: seq<Producer>, cons: seq<Consumer>, main: MainThread,
    pushed: seq<int>, popped: seq<int>)

  /** The loop head of a producer that has to push `per` items. */
  function Enter(per: nat, i: nat): Producer {
    if i < per then PLock(i) else PDone(i)
  }

  /** Items per producer: the integer quotient. */
  function PerProducer(n: nat, producers: nat): nat {
    if producers == 0 then 0 else n / producers
  }

  function Init(producers: nat, consumers: nat, per: nat): State {
    State(None, [], false, seq(producers, _ => Enter(per, 0)), seq(consumers, _ => CLock),
          JoinProducers(producers), [], [])
  }

  function Wake(c: Consumer): Consumer {
    if c.CAsleep? then CWoken else c
  }

  predicate Enabled(s: State, t: Thread) {
    match t
    case P(i) => i < |s.prods| && !s.prods[i].PDone? && (s.prods[i].PLock? ==> s.mtx.None?)
    case C(i) =>
      && i < |s.cons| && !s.cons[i].CDone? && !s.cons[i].CAsleep? && !s.cons[i].CUndefined?
      && (s.cons[i].CLock? || s.cons[i].CWoken? ==> s.mtx.None?)
    case Main =>
      match s.main
      case JoinProducers(l) => 0 < l <= |s.prods| ==> s.prods[|s.prods| - l].PDone?
      case MLock => s.mtx.None?
      case JoinConsumers(l) => 0 < l <= |s.cons| ==> s.cons[|s.cons| - l].CDone?
      case MDone => false
      case _ => true
  }

  /** `pick` is the sleeper that a notify_one would wake. */
  predicate Wakes(s: State, pick: nat) {
    || (pick < |s.cons| && s.cons[pick].CAsleep?)
    || (forall c | 0 <= c < |s.cons| :: !s.cons[c].CAsleep?)
  }

  function ProducerStep(s: State, i: nat, per: nat, pick: nat): State
    requires Enabled(s, P(i))
  {
    match s.prods[i]
    case PLock(n) => s.(mtx := Some(P(i)), prods := s.prods[i := PPush(n)])
    case PPush(n) => s.(q := s.q + [n], pushed := s.pushed + [n], prods := s.prods[i := PUnlock(n)])
    case PUnlock(n) => s.(mtx := None, prods := s.prods[i := PNotify(n)])
    case PNotify(n) =>
      s.(prods := s.prods[i := Enter(per, n + 1)],
         cons := if pick < |s.cons| then s.cons[pick := Wake(s.cons[pick])] else s.cons)
    case PDone(_) => s
  }

  function ConsumerStep(s: State, i: nat): State
    requires Enabled(s, C(i))
  {
    match s.cons[i]
    case CLock => s.(mtx := Some(C(i)), cons := s.cons[i := CTest])
    case CWoken => s.(mtx := Some(C(i)), cons := s.cons[i := CTest])
    case CTest =>
      if s.q != [] || s.done then s.(cons := s.cons[i := CTake])
      else s.(mtx := None, cons := s.cons[i := CAsleep])
    case CTake =>
      if s.q == [] then s.(cons := s.cons[i := if s.done then CUnlockExit else CUndefined])
      else s.(q := s.q[1..], popped := s.popped + [s.q[0]], cons := s.cons[i := CUnlock])
    case CUnlock => s.(mtx := None, cons := s.cons[i := CLock])
    case CUnlockExit => s.(mtx := None, cons := s.cons[i := CDone])
    case _ => s
  }

  function MainStep(s: State): State
    requires Enabled(s, Main)
  {
    match s.main
    case JoinProducers(l) => s.(main := if l == 0 then MLock else JoinProducers(l - 1))
    case MLock => s.(mtx := Some(Main), main := MSet)
    case MSet => s.(done := true, main := MUnlock)
    case MUnlock => s.(mtx := None, main := MNotify)
    case MNotify =>
      s.(cons := seq(|s.cons|, c requires 0 <= c < |s.cons| => Wake(s.cons[c])), main := JoinConsumers(|s.cons|))
    case JoinConsumers(l) => s.(main := if l == 0 then MDone else JoinConsumers(l - 1))
    case MDone => s
  }

  function Step(s: State, t: Thread, per: nat, pick: nat): State
    requires Enabled(s, t)
  {
    match t
    case P(i) => ProducerStep(s, i, per, pick)
    case C(i) => ConsumerStep(s, i)
    case Main => MainStep(s)
  }

  /** A spurious wake-up of consumer `c`. */
  function Spurious(s: State, c: nat): State
    requires c < |s.cons| && s.cons[c].CAsleep?
  {
    s.(cons := s.cons[c := CWoken])
  }

  predicate Final(s: State) {
    && (forall i | 0 <= i < |s.prods| :: s.prods[i].PDone?)
    && (forall i | 0 <= i < |s.cons| :: s.cons[i].CDone?)
    && s.main.MDone?
  }

  // ----- the invariant -----

  function Pushes(p: Producer): int {
    match p
    case PUnlock(i) => i + 1 case PNotify(i) => i + 1
    case _ => p.i
  }

  /** Has queued an item and not yet called notify_one for it. */
  function Owes(p: Producer): int {
    if p.PUnlock? || p.PNotify? then 1 else 0
  }

  /** Awake, and will look at the queue before it sleeps or leaves. */
  function Up(c: Consumer): int {
    if c.CLock? || c.CTest? || c.CWoken? || c.CTake? || c.CUnlock? then 1 else 0
  }

  predicate InLock(s: State, t: Thread) {
    match t
    case P(i) => i < |s.prods| && (s.prods[i].PPush? || s.prods[i].PUnlock?)
    case C(i) =>
      i < |s.cons| && (s.cons[i].CTest? || s.cons[i].CTake? || s.cons[i].CUnlock? || s.cons[i].CUnlockExit?
                      || s.cons[i].CUndefined?)
    case Main => s.main.MSet? || s.main.MUnlock?
  }

  ghost predicate LockOwned(s: State) {
    forall t: Thread :: InLock(s, t) <==> s.mtx == Some(t)
  }

  predicate ProducerFits(per: nat, p: Producer) {
    if p.PDone? then p.i == per else p.i < per
  }

  predicate ConsumerFits(s: State, c: Consumer) {
    match c
    case CTake => s.q != [] || s.done
    case CUnlockExit => s.q == [] && s.done
    case CDone => s.q == [] && s.done
    case CAsleep => !(s.main.JoinConsumers? || s.main.MDone?)
    case CUndefined => false
    case _ => true
  }

  ghost predicate AllProduced(s: State) {
    forall i | 0 <= i < |s.prods| :: s.prods[i].PDone?
  }

  ghost predicate MainFits(s: State) {
    match s.main
    case JoinProducers(l) =>
      !s.done && l <= |s.prods| && forall i | 0 <= i < |s.prods| - l :: s.prods[i].PDone?
    case MLock => !s.done && AllProduced(s)
    case MSet => !s.done && AllProduced(s)
    case JoinConsumers(l) =>
      s.done && AllProduced(s) && l <= |s.cons| && forall i | 0 <= i < |s.cons| - l :: s.cons[i].CDone?
    case MDone => s.done && AllProduced(s) && forall i | 0 <= i < |s.cons| :: s.cons[i].CDone?
    case _ => s.done && AllProduced(s)
  }

  ghost predicate Inv(s: State, per: nat) {
    && LockOwned(s)
    && s.popped + s.q == s.pushed
    && |s.pushed| == Sum(s.prods, Pushes)
    && (forall i | 0 <= i < |s.prods| :: ProducerFits(per, s.prods[i]))
    && (forall i | 0 <= i < |s.cons| :: ConsumerFits(s, s.cons[i]))
    && MainFits(s)
    // no lost wake-up
    && (s.q != [] && s.cons != [] ==> 1 <= Sum(s.prods, Owes) + Sum(s.cons, Up))
  }

  lemma InitInv(producers: nat, consumers: nat, per: nat)
    ensures Inv(Init(producers, consumers, per), per)
  {
    SumConstant(Init(producers, consumers, per).prods, Pushes, 0);
  }

  lemma ProducerLock(s: State, i: nat, per: nat, pick: nat)
    requires LockOwned(s) && Enabled(s, P(i)) && Wakes(s, pick)
    ensures LockOwned(ProducerStep(s, i, per, pick))
  {
    var s' := ProducerStep(s, i, per, pick);
    forall t: Thread ensures InLock(s', t) <==> s'.mtx == Some(t) {
      assert InLock(s, t) <==> s.mtx == Some(t);
      assert InLock(s, P(i)) <==> s.mtx == Some(P(i));
    }
  }

  lemma ConsumerLock(s: State, i: nat)
    requires LockOwned(s) && Enabled(s, C(i))
    ensures LockOwned(ConsumerStep(s, i))
  {
    var s' := ConsumerStep(s, i);
    forall t: Thread ensures InLock(s', t) <==> s'.mtx == Some(t) {
      assert InLock(s, t) <==> s.mtx == Some(t);
      assert InLock(s, C(i)) <==> s.mtx == Some(C(i));
    }
  }

  lemma MainLock(s: State)
    requires LockOwned(s) && Enabled(s, Main)
    ensures LockOwned(MainStep(s))
  {
    var s' := MainStep(s);
    forall t: Thread ensures InLock(s', t) <==> s'.mtx == Some(t) {
      assert InLock(s, t) <==> s.mtx == Some(t);
      assert InLock(s, Main) <==> s.mtx == Some(Main);
    }
  }

  /** A push leaves a notify owed; the notify hands the debt to a consumer that is awake. */
  lemma ProducerWakes(s: State, i: nat, per: nat, pick: nat)
    requires Inv(s, per) && Enabled(s, P(i)) && Wakes(s, pick)
    ensures var s' := ProducerStep(s, i, per, pick);
            s'.q != [] && s'.cons != [] ==> 1 <= Sum(s'.prods, Owes) + Sum(s'.cons, Up)
  {
    var s' := ProducerStep(s, i, per, pick);
    SumUpdate(s.prods, Owes, i, s'.prods[i]);
    SumNonNegative(s'.prods, Owes);
    SumNonNegative(s'.cons, Up);
    if s.prods[i].PPush? {
      SumAtLeast(s'.prods, Owes, i);
    } else if s.prods[i].PNotify? && s.cons != [] {
      if pick < |s.cons| && s.cons[pick].CAsleep? {
        SumAtLeast(s'.cons, Up, pick);
      } else {
        assert ConsumerFits(s, s.cons[0]);
        SumAtLeast(s'.cons, Up, 0);
      }
    }
  }

  lemma ProducerMain(s: State, i: nat, per: nat, pick: nat)
    requires MainFits(s) && Enabled(s, P(i)) && Wakes(s, pick)
    ensures MainFits(ProducerStep(s, i, per, pick))
  {}

  lemma ConsumerMain(s: State, i: nat)
    requires MainFits(s) && Enabled(s, C(i))
    ensures MainFits(ConsumerStep(s, i))
  {}

  lemma ProducerInv(s: State, i: nat, per: nat, pick: nat)
    requires Inv(s, per) && Enabled(s, P(i)) && Wakes(s, pick)
    ensures Inv(ProducerStep(s, i, per, pick), per)
  {
    var s' := ProducerStep(s, i, per, pick);
    ProducerLock(s, i, per, pick);
    ProducerWakes(s, i, per, pick);
    ProducerMain(s, i, per, pick);
    assert ProducerFits(per, s.prods[i]);
    SumUpdate(s.prods, Pushes, i, s'.prods[i]);
    forall c | 0 <= c < |s'.cons| ensures ConsumerFits(s', s'.cons[c]) {
      assert ConsumerFits(s, s.cons[c]);
    }
  }

  /** What a consumer does to the queue leaves the other consumers' facts alone: it owns the lock. */
  lemma ConsumerFitsKept(s: State, i: nat, per: nat, c: nat)
    requires Inv(s, per) && Enabled(s, C(i)) && c < |s.cons|
    ensures ConsumerFits(ConsumerStep(s, i), ConsumerStep(s, i).cons[c])
  {
    assert ConsumerFits(s, s.cons[c]) && ConsumerFits(s, s.cons[i]);
    assert InLock(s, C(c)) <==> s.mtx == Some(C(c));
    assert InLock(s, C(i)) <==> s.mtx == Some(C(i));
  }

  /** A consumer that goes to sleep or leaves has seen an empty queue. */
  lemma ConsumerWakes(s: State, i: nat, per: nat)
    requires Inv(s, per) && Enabled(s, C(i))
    ensures var s' := ConsumerStep(s, i);
            s'.q != [] && s'.cons != [] ==> 1 <= Sum(s'.prods, Owes) + Sum(s'.cons, Up)
  {
    var s' := ConsumerStep(s, i);
    assert ConsumerFits(s, s.cons[i]);
    SumUpdate(s.cons, Up, i, s'.cons[i]);
  }

  lemma ConsumerInv(s: State, i: nat, per: nat)
    requires Inv(s, per) && Enabled(s, C(i))
    ensures Inv(ConsumerStep(s, i), per)
  {
    var s' := ConsumerStep(s, i);
    ConsumerLock(s, i);
    ConsumerWakes(s, i, per);
    ConsumerMain(s, i);
    forall c | 0 <= c < |s'.cons| ensures ConsumerFits(s', s'.cons[c]) {
      ConsumerFitsKept(s, i, per, c);
    }
    assert ConsumerFits(s, s.cons[i]);
  }

  lemma {:induction false} WakeUp(a: seq<Consumer>, b: seq<Consumer>)
    requires |a| == |b| && forall i | 0 <= i < |a| :: b[i] == Wake(a[i])
    ensures Sum(a, Up) <= Sum(b, Up)
  {
    if a != [] {
      WakeUp(a[..|a| - 1], b[..|b| - 1]);
    }
  }

  lemma MainInv(s: State, per: nat)
    requires Inv(s, per) && Enabled(s, Main)
    ensures Inv(MainStep(s), per)
  {
    var s' := MainStep(s);
    MainLock(s);
    forall c | 0 <= c < |s'.cons| ensures ConsumerFits(s', s'.cons[c]) {
      assert ConsumerFits(s, s.cons[c]);
    }
    if s.main.MNotify? {
      WakeUp(s.cons, s'.cons);
    }
  }

  lemma SpuriousInv(s: State, c: nat, per: nat)
    requires Inv(s, per) && c < |s.cons| && s.cons[c].CAsleep?
    ensures Inv(Spurious(s, c), per)
  {
    var s' := Spurious(s, c);
    SumUpdate(s.cons, Up, c, CWoken);
    forall t: Thread ensures InLock(s', t) <==> s'.mtx == Some(t) {
      assert InLock(s, t) <==> s.mtx == Some(t);
    }
    forall u | 0 <= u < |s'.cons| ensures ConsumerFits(s', s'.cons[u]) {
      assert ConsumerFits(s, s.cons[u]);
    }
  }

  lemma StepInv(s: State, t: Thread, per: nat, pick: nat)
    requires Inv(s, per) && Enabled(s, t) && Wakes(s, pick)
    ensures Inv(Step(s, t, per, pick), per)
  {
    match t
    case P(i) => ProducerInv(s, i, per, pick);
    case C(i) => ConsumerInv(s, i, per);
    case Main => MainInv(s, per);
  }

  /** While an item is queued, some consumer is awake and will look at the queue, or a producer is about to
      call notify_one. */
  lemma {:induction false} NoLostWakeup(producers: nat, consumers: nat, per: nat, moves: seq<Move>, s: State)
    requires Runs(Init(producers, consumers, per), moves, s, per) && s.q != [] && s.cons != []
    ensures || (exists c: nat :: c < |s.cons| && Up(s.cons[c]) == 1)
            || (exists i: nat :: i < |s.prods| && Owes(s.prods[i]) == 1)
  {
    InitInv(producers, consumers, per);
    RunInv(Init(producers, consumers, per), moves, s, per);
    if 0 < Sum(s.cons, Up) {
      var c := SumWitness(s.cons, Up);
      assert Up(s.cons[c]) == 1;
    } else {
      var i := SumWitness(s.prods, Owes);
      assert Owes(s.prods[i]) == 1;
    }
  }

  /** Once `done` has been set, a step puts no consumer to sleep. */
  lemma StepKeepsAwake(s: State, t: Thread, per: nat, pick: nat, c: nat)
    requires Inv(s, per) && Enabled(s, t) && Wakes(s, pick) && s.done
    requires c < |s.cons| && !s.cons[c].CAsleep?
    ensures var s' := Step(s, t, per, pick); s'.done && c < |s'.cons| && !s'.cons[c].CAsleep?
  {}

  lemma {:induction false} RunKeepsAwake(s: State, moves: seq<Move>, s': State, per: nat, c: nat)
    requires Inv(s, per) && Runs(s, moves, s', per) && s.done
    requires c < |s.cons| && !s.cons[c].CAsleep?
    ensures s'.done && c < |s'.cons| && !s'.cons[c].CAsleep?
    decreases |moves|
  {
    if moves != [] {
      ApplyInv(s, moves[0], per);
      if moves[0].Act? {
        StepKeepsAwake(s, moves[0].t, per, moves[0].pick, c);
      }
      RunKeepsAwake(Apply(s, moves[0], per), moves[1..], s', per, c);
    }
  }

  /** In every run, once `done` has been set no consumer goes to sleep for the rest of the run. */
  lemma {:induction false} NoSleepAfterDone(
      producers: nat, consumers: nat, per: nat, before: seq<Move>, s: State, after: seq<Move>, s': State, c: nat)
    requires Runs(Init(producers, consumers, per), before, s, per) && Runs(s, after, s', per)
    requires s.done && c < |s.cons| && !s.cons[c].CAsleep?
    ensures c < |s'.cons| && !s'.cons[c].CAsleep?
  {
    InitInv(producers, consumers, per);
    RunInv(Init(producers, consumers, per), before, s, per);
    RunKeepsAwake(s, after, s', per, c);
  }

  // ----- progress -----

  lemma Progress(s: State, per: nat)
    requires Inv(s, per) && !Final(s)
    ensures exists t: Thread :: Enabled(s, t)
  {
    if s.mtx.Some? {
      assert InLock(s, s.mtx.value);
      OwnerMoves(s, per);
    } else if i: nat :| i < |s.prods| && !s.prods[i].PDone? {
      assert Enabled(s, P(i));
    } else if s.main.JoinConsumers? && !Enabled(s, Main) {
      var c := |s.cons| - s.main.left;
      assert ConsumerFits(s, s.cons[c]);
      assert Enabled(s, C(c));
    } else {
      assert s.main.MDone? || Enabled(s, Main);
    }
  }

  /** Whoever holds the mutex can act. */
  lemma OwnerMoves(s: State, per: nat)
    requires Inv(s, per) && s.mtx.Some? && InLock(s, s.mtx.value)
    ensures Enabled(s, s.mtx.value)
  {
    match s.mtx.value
    case C(c) => assert ConsumerFits(s, s.cons[c]);
    case _ =>
  }

  function ProducerLoad(p: Producer): int {
    match p
    case PLock(i) => 8 - 9 * i case PPush(i) => 7 - 9 * i case PUnlock(i) => 6 - 9 * i
    case PNotify(i) => 5 - 9 * i case PDone(i) => -9 * i
  }

  function ConsumerLoad(c: Consumer): int {
    match c
    case CUnlock => 5 case CLock => 4 case CWoken => 4 case CTest => 3 case CTake => 2
    case CAsleep => 1 case CUnlockExit => 1 case CDone => 0 case CUndefined => 0
  }

  function MainLoad(consumers: nat, m: MainThread): int {
    match m
    case JoinProducers(l) => l + 4 * consumers + 7
    case MLock => 4 * consumers + 6 case MSet => 4 * consumers + 5 case MUnlock => 4 * consumers + 4
    case MNotify => 4 * consumers + 3 case JoinConsumers(l) => l + 1 case MDone => 0
  }

  function Total(producers: nat, per: nat): nat {
    per * producers
  }

  function Measure(s: State, per: nat): int {
    4 * (Total(|s.prods|, per) - |s.popped|) + 9 * Total(|s.prods|, per)
    + Sum(s.prods, ProducerLoad) + Sum(s.cons, ConsumerLoad) + MainLoad(|s.cons|, s.main)
  }

  lemma PushedBound(s: State, per: nat)
    requires Inv(s, per)
    ensures |s.popped| <= |s.pushed| <= Total(|s.prods|, per)
    ensures AllProduced(s) ==> |s.pushed| == Total(|s.prods|, per)
  {
    forall i | 0 <= i < |s.prods| ensures Pushes(s.prods[i]) <= per {
      assert ProducerFits(per, s.prods[i]);
    }
    SumTight(s.prods, Pushes, per);
    if AllProduced(s) {
      forall i | 0 <= i < |s.prods| ensures Pushes(s.prods[i]) == per {
        assert ProducerFits(per, s.prods[i]);
      }
      SumConstant(s.prods, Pushes, per);
    }
  }

  lemma TotalCovers(producers: nat, per: nat)
    ensures (-9 * per) * producers == -9 * Total(producers, per)
  {}

  lemma MeasureNonNegative(s: State, per: nat)
    requires Inv(s, per)
    ensures 0 <= Measure(s, per)
  {
    PushedBound(s, per);
    forall i | 0 <= i < |s.prods| ensures -9 * per <= ProducerLoad(s.prods[i]) {
      assert ProducerFits(per, s.prods[i]);
    }
    SumLower(s.prods, ProducerLoad, -9 * per);
    TotalCovers(|s.prods|, per);
    SumNonNegative(s.cons, ConsumerLoad);
  }

  lemma {:induction false} WakeLoad(a: seq<Consumer>, b: seq<Consumer>)
    requires |a| == |b| && forall i | 0 <= i < |a| :: b[i] == Wake(a[i])
    ensures Sum(b, ConsumerLoad) <= Sum(a, ConsumerLoad) + 3 * |a|
  {
    if a != [] {
      WakeLoad(a[..|a| - 1], b[..|b| - 1]);
    }
  }

  lemma ProducerMeasure(s: State, i: nat, per: nat, pick: nat)
    requires Enabled(s, P(i)) && ProducerFits(per, s.prods[i])
    ensures Measure(ProducerStep(s, i, per, pick), per) < Measure(s, per)
  {
    var s' := ProducerStep(s, i, per, pick);
    SumUpdate(s.prods, ProducerLoad, i, s'.prods[i]);
    if s.prods[i].PNotify? && pick < |s.cons| {
      SumUpdate(s.cons, ConsumerLoad, pick, s'.cons[pick]);
    }
  }

  lemma ConsumerMeasure(s: State, i: nat, per: nat)
    requires Enabled(s, C(i))
    ensures Measure(ConsumerStep(s, i), per) < Measure(s, per)
  {
    SumUpdate(s.cons, ConsumerLoad, i, ConsumerStep(s, i).cons[i]);
  }

  lemma MainMeasure(s: State, per: nat)
    requires Enabled(s, Main)
    ensures Measure(MainStep(s), per) < Measure(s, per)
  {
    if s.main.MNotify? {
      WakeLoad(s.cons, MainStep(s).cons);
    }
  }

  // ----- whole runs -----

  datatype Move = Act(t: Thread, pick: nat) | Nap(c: nat)

  predicate Allowed(s: State, m: Move) {
    match m
    case Act(t, pick) => Enabled(s, t) && Wakes(s, pick)
    case Nap(c) => c < |s.cons| && s.cons[c].CAsleep?
  }

  function Apply(s: State, m: Move, per: nat): State
    requires Allowed(s, m)
  {
    match m
    case Act(t, pick) => Step(s, t, per, pick)
    case Nap(c) => Spurious(s, c)
  }

  ghost predicate Runs(s: State, moves: seq<Move>, s': State, per: nat)
    decreases |moves|
  {
    if moves == [] then s == s'
    else Allowed(s, moves[0]) && Runs(Apply(s, moves[0], per), moves[1..], s', per)
  }

  function Naps(moves: seq<Move>): nat {
    if moves == [] then 0 else (if moves[0].Nap? then 1 else 0) + Naps(moves[1..])
  }

  lemma StepMeasure(s: State, t: Thread, per: nat, pick: nat)
    requires Enabled(s, t) && forall i | 0 <= i < |s.prods| :: ProducerFits(per, s.prods[i])
    ensures var s' := Step(s, t, per, pick);
            && |s'.prods| == |s.prods| && |s'.cons| == |s.cons|
            && Measure(s', per) < Measure(s, per)
  {
    match t
    case P(i) => ProducerMeasure(s, i, per, pick);
    case C(i) => ConsumerMeasure(s, i, per);
    case Main => MainMeasure(s, per);
  }

  lemma ApplyInv(s: State, m: Move, per: nat)
    requires Inv(s, per) && Allowed(s, m)
    ensures var s' := Apply(s, m, per);
            && Inv(s', per) && |s'.prods| == |s.prods| && |s'.cons| == |s.cons|
            && Measure(s', per) <= Measure(s, per) + if m.Nap? then 3 else -1
  {
    match m {
      case Act(t, pick) =>
        StepInv(s, t, per, pick);
        StepMeasure(s, t, per, pick);
      case Nap(c) =>
        SpuriousInv(s, c, per);
        SumUpdate(s.cons, ConsumerLoad, c, CWoken);
    }
  }

  lemma {:induction false} RunInv(s: State, moves: seq<Move>, s': State, per: nat)
    requires Inv(s, per) && Runs(s, moves, s', per)
    ensures Inv(s', per) && |s'.prods| == |s.prods| && |s'.cons| == |s.cons|
    ensures |moves| + Measure(s', per) <= Measure(s, per) + 4 * Naps(moves)
    decreases |moves|
  {
    if moves != [] {
      ApplyInv(s, moves[0], per);
      RunInv(Apply(s, moves[0], per), moves[1..], s', per);
    }
  }

  lemma FinalItems(s: State, per: nat)
    requires Inv(s, per) && Final(s) && s.cons != []
    ensures s.q == [] && s.popped == s.pushed && |s.popped| == Total(|s.prods|, per)
  {
    assert ConsumerFits(s, s.cons[0]);
    PushedBound(s, per);
  }

  /** The benchmark with at least one consumer: it stops, except for spurious wake-ups after a bounded number
      of actions, exactly when all threads have been joined, and then the consumers have taken, in order,
      everything the producers pushed: producers * (n / producers) items. */
  lemma {:induction false} RunsComplete(producers: nat, consumers: nat, n: nat, moves: seq<Move>, s: State)
    requires 1 <= consumers
    requires Runs(Init(producers, consumers, PerProducer(n, producers)), moves, s, PerProducer(n, producers))
    ensures var per := PerProducer(n, producers);
            |moves| <= Measure(Init(producers, consumers, per), per) + 4 * Naps(moves)
    ensures (forall t: Thread :: !Enabled(s, t)) <==> Final(s)
    ensures Final(s) ==> s.q == [] && s.popped == s.pushed
                         && |s.popped| == Total(producers, PerProducer(n, producers))
  {
    var per := PerProducer(n, producers);
    var start := Init(producers, consumers, per);
    InitInv(producers, consumers, per);
    RunInv(start, moves, s, per);
    MeasureNonNegative(s, per);
    if !Final(s) {
      Progress(s, per);
    } else {
      FinalItems(s, per);
    }
  }

  /** The benchmark reports n items processed; it moves exactly n when the producers divide n evenly. */
  lemma AllItemsIff(producers: nat, n: nat)
    requires 1 <= producers
    ensures Total(producers, PerProducer(n, producers)) <= n
    ensures Total(producers, PerProducer(n, producers)) == n <==> n % producers == 0
  {
    assert n == producers * (n / producers) + n % producers;
  }

  // ----- which items -----

  /** 1 if the producer has pushed item `v`, else 0. */
  function HasPushed(v: int): Producer -> int {
    (p: Producer) => if 0 <= v < Pushes(p) then 1 else 0
  }

  /** Every producer has pushed 0, 1, 2, ... once each. */
  ghost predicate Counted(s: State) {
    forall v: int :: multiset(s.pushed)[v] == Sum(s.prods, HasPushed(v))
  }

  /** A single producer has pushed them in this order. */
  ghost predicate Ordered(s: State) {
    |s.prods| == 1 ==> s.pushed == seq(|s.pushed|, i => i) && |s.pushed| == Pushes(s.prods[0])
  }

  ghost predicate Itemised(s: State) {
    Counted(s) && Ordered(s)
  }

  lemma {:induction false} InitItemised(producers: nat, consumers: nat, per: nat)
    ensures Itemised(Init(producers, consumers, per))
  {
    var start := Init(producers, consumers, per);
    forall v: int ensures multiset(start.pushed)[v] == Sum(start.prods, HasPushed(v)) {
      SumConstant(start.prods, HasPushed(v), 0);
    }
  }

  /** Producer `i`, which had pushed the items below `n`, pushes `n`. */
  lemma {:induction false} PushCounts(pushed: seq<int>, prods: seq<Producer>, i: nat, n: nat, v: int)
    requires i < |prods| && Pushes(prods[i]) == n && multiset(pushed)[v] == Sum(prods, HasPushed(v))
    ensures multiset(pushed + [n])[v] == Sum(prods[i := PUnlock(n)], HasPushed(v))
  {
    SumUpdate(prods, HasPushed(v), i, PUnlock(n));
    assert multiset(pushed + [n]) == multiset(pushed) + multiset{n};
  }

  /** A producer goes on without pushing. */
  lemma {:induction false} SamePushes(prods: seq<Producer>, i: nat, p: Producer, v: int)
    requires i < |prods| && Pushes(prods[i]) == Pushes(p)
    ensures Sum(prods[i := p], HasPushed(v)) == Sum(prods, HasPushed(v))
  {
    SumUpdate(prods, HasPushed(v), i, p);
  }

  lemma {:induction false} ProducerOrdered(s: State, i: nat, per: nat, pick: nat)
    requires Ordered(s) && Enabled(s, P(i))
    ensures Ordered(ProducerStep(s, i, per, pick))
  {}

  lemma {:induction false} ProducerCounted(s: State, i: nat, per: nat, pick: nat)
    requires Counted(s) && Enabled(s, P(i))
    ensures Counted(ProducerStep(s, i, per, pick))
  {
    var s' := ProducerStep(s, i, per, pick);
    forall v: int ensures multiset(s'.pushed)[v] == Sum(s'.prods, HasPushed(v)) {
      if s.prods[i].PPush? {
        PushCounts(s.pushed, s.prods, i, s.prods[i].i, v);
      } else {
        SamePushes(s.prods, i, s'.prods[i], v);
      }
    }
  }

  lemma {:induction false} ApplyItemised(s: State, m: Move, per: nat)
    requires Itemised(s) && Allowed(s, m)
    ensures Itemised(Apply(s, m, per))
  {
    if m.Act? && m.t.P? {
      ProducerCounted(s, m.t.i, per, m.pick);
      ProducerOrdered(s, m.t.i, per, m.pick);
    } else {
      assert Apply(s, m, per).prods == s.prods && Apply(s, m, per).pushed == s.pushed;
    }
  }

  lemma {:induction false} RunItemised(s: State, moves: seq<Move>, s': State, per: nat)
    requires Itemised(s) && Runs(s, moves, s', per)
    ensures Itemised(s')
    decreases |moves|
  {
    if moves != [] {
      ApplyItemised(s, moves[0], per);
      RunItemised(Apply(s, moves[0], per), moves[1..], s', per);
    }
  }

  /** At the end of every run with a consumer, the consumers have received each of the items 0 .. per - 1 once
      from every producer and nothing else; from a single producer, in this order. */
  lemma {:induction false} ItemsReceived(producers: nat, consumers: nat, per: nat, moves: seq<Move>, s: State)
    requires 1 <= consumers && Runs(Init(producers, consumers, per), moves, s, per) && Final(s)
    ensures forall v: int :: multiset(s.popped)[v] == if 0 <= v < per then producers else 0
    ensures producers == 1 ==> s.popped == seq(per, i => i)
  {
    var start := Init(producers, consumers, per);
    InitInv(producers, consumers, per);
    RunInv(start, moves, s, per);
    InitItemised(producers, consumers, per);
    RunItemised(start, moves, s, per);
    FinalItems(s, per);
    forall i | 0 <= i < |s.prods| ensures Pushes(s.prods[i]) == per {
      assert ProducerFits(per, s.prods[i]);
    }
    forall v: int ensures multiset(s.popped)[v] == if 0 <= v < per then producers else 0 {
      SumConstant(s.prods, HasPushed(v), if 0 <= v < per then 1 else 0);
    }
  }

  // ----- the benchmark -----

  lemma SomebodyBusy(s: State, per: nat)
    requires Inv(s, per) && !Final(s)
    ensures || (exists i: nat :: i < |s.prods| && Enabled(s, P(i)))
            || (exists i: nat :: i < |s.cons| && Enabled(s, C(i)))
            || Enabled(s, Main)
  {
    Progress(s, per);
    var t: Thread :| Enabled(s, t);
    match t
    case P(i) => assert i < |s.prods|;
    case C(i) => assert i < |s.cons|;
    case Main =>
  }

  class CondVarQueue {
    const per: nat
    var mtx: Option<Thread>
    var q: seq<int>
    var done: bool
    var prods: seq<Producer>
    var cons: seq<Consumer>
    var main: MainThread
    // history
    var pushed: seq<int>
    var popped: seq<int>

    function View(): State
      reads this
    {
      State(mtx, q, done, prods, cons, main, pushed, popped)
    }

    constructor (producers: nat, consumers: nat, n: nat)
      ensures per == PerProducer(n, producers) && View() == Init(producers, consumers, per)
    {
      per := if producers == 0 then 0 else n / producers;
      mtx, q, done, main, pushed, popped := None, [], false, JoinProducers(producers), [], [];
      cons := seq(consumers, _ => CLock);
      new;
      prods := seq(producers, _ => Enter(per, 0));
    }

    method ProducerTurn(i: nat, pick: nat)
      requires Enabled(View(), P(i))
      modifies this
      ensures View() == ProducerStep(old(View()), i, per, pick)
    {
      match prods[i] {
        case PLock(n) => mtx, prods := Some(P(i)), prods[i := PPush(n)];
        case PPush(n) => q, pushed, prods := q + [n], pushed + [n], prods[i := PUnlock(n)];
        case PUnlock(n) => mtx, prods := None, prods[i := PNotify(n)];
        case PNotify(n) =>
          if pick < |cons| && cons[pick].CAsleep? {
            cons := cons[pick := CWoken];
          }
          prods := prods[i := Enter(per, n + 1)];
      }
    }

    method ConsumerTurn(i: nat)
      requires Enabled(View(), C(i))
      modifies this
      ensures View() == ConsumerStep(old(View()), i)
    {
      match cons[i] {
        case CLock => mtx, cons := Some(C(i)), cons[i := CTest];
        case CWoken => mtx, cons := Some(C(i)), cons[i := CTest];
        case CTest =>
          if q != [] || done {
            cons := cons[i := CTake];
          } else {
            mtx, cons := None, cons[i := CAsleep];
          }
        case CTake =>
          if q == [] {
            cons := cons[i := if done then CUnlockExit else CUndefined];
          } else {
            q, popped, cons := q[1..], popped + [q[0]], cons[i := CUnlock];
          }
        case CUnlock => mtx, cons := None, cons[i := CLock];
        case CUnlockExit => mtx, cons := None, cons[i := CDone];
      }
    }

    method MainTurn()
      requires Enabled(View(), Main)
      modifies this
      ensures View() == MainStep(old(View()))
    {
      match main {
        case JoinProducers(l) => main := if l == 0 then MLock else JoinProducers(l - 1);
        case MLock => mtx, main := Some(Main), MSet;
        case MSet => done, main := true, MUnlock;
        case MUnlock => mtx, main := None, MNotify;
        case MNotify =>
          NotifyAll();
          main := JoinConsumers(|cons|);
        case JoinConsumers(l) => main := if l == 0 then MDone else JoinConsumers(l - 1);
      }
    }

    method NotifyAll()
      modifies this`cons
      ensures |cons| == |old(cons)| && forall c | 0 <= c < |cons| :: cons[c] == Wake(old(cons)[c])
    {
      var i := 0;
      while i < |cons|
        invariant i <= |cons| == |old(cons)|
        invariant forall c | 0 <= c < |cons| :: cons[c] == if c < i then Wake(old(cons)[c]) else old(cons)[c]
      {
        cons := cons[i := Wake(cons[i])];
        i := i + 1;
      }
    }

    method Turn(t: Thread, pick: nat)
      requires Inv(View(), per) && Enabled(View(), t) && Wakes(View(), pick)
      modifies this
      ensures View() == old(Step(View(), t, per, pick))
      ensures Inv(View(), per) && Measure(View(), per) < old(Measure(View(), per))
      ensures |prods| == old(|prods|) && |cons| == old(|cons|)
    {
      StepInv(View(), t, per, pick);
      StepMeasure(View(), t, per, pick);
      match t
      case P(i) => ProducerTurn(i, pick);
      case C(i) => ConsumerTurn(i);
      case Main => MainTurn();
    }

    /** Some thread that can act, and the sleeper that a notify_one of it would wake. */
    method Choose() returns (t: Thread, pick: nat)
      requires Inv(View(), per) && !Final(View())
      ensures Enabled(View(), t) && Wakes(View(), pick)
    {
      pick := 0;
      if c: nat :| c < |cons| && cons[c].CAsleep? {
        pick := c;
      }
      SomebodyBusy(View(), per);
      if
      case i: nat :| i < |prods| && Enabled(View(), P(i)) => t := P(i);
      case i: nat :| i < |cons| && Enabled(View(), C(i)) => t := C(i);
      case Enabled(View(), Main) => t := Main;
    }

    method WakeSpuriously(c: nat)
      requires Inv(View(), per) && c < |cons| && cons[c].CAsleep?
      modifies this`cons
      ensures View() == old(Spurious(View(), c))
      ensures Inv(View(), per) && |cons| == old(|cons|)
    {
      SpuriousInv(View(), c, per);
      cons := cons[c := CWoken];
    }

    /** Runs all threads under an arbitrary scheduler that lets at most `naps` sleepers wake spuriously: they
        are all joined in the end, and everything pushed has been popped, in order. */
    method Run(naps: nat)
      requires Inv(View(), per) && cons != []
      modifies this
      ensures Final(View()) && q == [] && popped == pushed
      ensures |popped| == Total(|prods|, per) && |prods| == old(|prods|)
    {
      var left := naps;
      while !Final(View())
        invariant Inv(View(), per) && |prods| == old(|prods|) && |cons| == old(|cons|)
        decreases left, Measure(View(), per)
      {
        MeasureNonNegative(View(), per);
        var nap: bool := *;
        if c: nat :| nap && 0 < left && c < |cons| && cons[c].CAsleep? {
          WakeSpuriously(c);
          left := left - 1;
        } else {
          var t, pick := Choose();
          Turn(t, pick);
        }
      }
      FinalItems(View(), per);
    }
  }
}

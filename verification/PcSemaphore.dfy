/** The producer/consumer benchmarks of src/bench_pc_semaphore.cpp around the queue, from thread launch to
    the final shutdown, for any number of threads and items and any capacity.

    Thread ids: producers 0 .. P-1, consumers P .. P+C-1, and the main thread P+C. */
module PcSemaphore {
  import opened Tally
  import opened Q = SemaphoreQueues
  import Fairness

  /** `spsc` selects ProducerConsumer_SPSC_Semaphore, where the producer itself closes the queue; otherwise
      the main thread closes it after joining the producers (ProducerConsumer_MPMC_Semaphore). */
  datatype Config = Config(producers: nat, consumers: nat, items: nat, cap: nat, spsc: bool) {
    ghost predicate Valid() {
      1 <= consumers && (spsc ==> producers == consumers == 1)
    }
    function Main(): nat { producers + consumers }
    function Total(): nat { producers * items }
  }

  datatype Client =
    | Producing(done: nat)        // the loop counter: items pushed and recorded
    | Closing                     // SPSC: the producer is inside close
    | Consuming                   // inside pop, or looking at its result
    | Counted                     // items_consumed incremented, record_operation still to come
    | JoinProducers(left: nat) | MainClosing | JoinConsumers(left: nat) | MainShutdown
    | Ended

  datatype Bench = Bench(
    q: Q.State, clients: seq<Client>,
    consumed: nat, pushCounts: seq<nat>, popCounts: seq<nat>, received: seq<seq<int>>)

  function Launch(c: Config): Bench {
    Bench(Q.Init(c.Main() + 1, c.cap),
          seq(c.Main() + 1, t => if t < c.producers then Producing(0)
                                 else if t < c.Main() then Consuming else JoinProducers(c.producers)),
          0, seq(c.producers, _ => 0), seq(c.consumers, _ => 0), seq(c.consumers, _ => []))
  }

  predicate Sized(c: Config, h: Bench) {
    && |h.q.pcs| == |h.clients| == c.Main() + 1
    && |h.pushCounts| == c.producers
    && |h.popCounts| == |h.received| == c.consumers
  }

  /** Thread `t` has a next action that does not block. */
  predicate Runnable(c: Config, h: Bench, t: nat)
    requires Sized(c, h)
  {
    && t <= c.Main()
    && if !Outside(h.q.pcs[t]) then Q.Enabled(h.q, t)
       else match h.clients[t]
            case JoinProducers(l) => 0 < l <= c.producers ==> h.clients[c.producers - l].Ended?
            case JoinConsumers(l) => 0 < l <= c.consumers ==> h.clients[c.Main() - l].Ended?
            case Ended => false
            case _ => true
  }

  function Become(h: Bench, t: nat, client: Client): Bench
    requires t < |h.clients|
  {
    h.(clients := h.clients[t := client])
  }

  function Calls(h: Bench, t: nat, call: Call): Bench
    requires t < |h.q.pcs|
  {
    h.(q := Q.Begin(h.q, t, call))
  }

  /** The result has been looked at; the thread is between calls. */
  function Returns(h: Bench, t: nat): Bench
    requires t < |h.q.pcs|
  {
    h.(q := h.q.(pcs := h.q.pcs[t := Idle]))
  }

  /** The next action of thread `t`: inside a call, an action of the queue; between calls, its loop. */
  function Advance(c: Config, h: Bench, t: nat): Bench
    requires Sized(c, h) && Runnable(c, h, t)
  {
    var pc := h.q.pcs[t];
    if !Outside(pc) then h.(q := Q.Step(h.q, t))
    else match h.clients[t]
         case Producing(j) =>
           if pc == PushDone(true) && t < c.producers then
             Returns(Become(h.(pushCounts := h.pushCounts[t := h.pushCounts[t] + 1]), t, Producing(j + 1)), t)
           else if pc.Idle? && j < c.items then Calls(h, t, Push(t * c.items + j))
           else if c.spsc then Calls(Become(h, t, Closing), t, Close)
           else Become(h, t, Ended)
         case Closing => Become(h, t, Ended)
         case Consuming =>
           if pc.PopDone? && pc.got.Some? && c.producers <= t < c.Main() then
             var k := t - c.producers;
             Returns(Become(h.(consumed := h.consumed + 1,
                               received := h.received[k := h.received[k] + [pc.got.value]]), t, Counted), t)
           else if pc.Idle? then Calls(h, t, Pop)
           else Become(h, t, Ended)
         case Counted =>
           if c.producers <= t < c.Main() then
             var k := t - c.producers;
             Calls(Become(h.(popCounts := h.popCounts[k := h.popCounts[k] + 1]), t, Consuming), t, Pop)
           else h
         case JoinProducers(l) =>
           if 0 < l then Become(h, t, JoinProducers(l - 1))
           else if c.spsc then Become(h, t, JoinConsumers(c.consumers))
           else Calls(Become(h, t, MainClosing), t, Close)
         case MainClosing => Become(h, t, JoinConsumers(c.consumers))
         case JoinConsumers(l) =>
           if 0 < l then Become(h, t, JoinConsumers(l - 1))
           else Calls(Become(h, t, MainShutdown), t, Shutdown)
         case MainShutdown => Become(h, t, Ended)
         case Ended => h
  }

  predicate Final(h: Bench) {
    forall t | 0 <= t < |h.clients| :: h.clients[t].Ended?
  }

  // ----- the invariant -----

  /** Inside a push whose item is already in the queue. */
  predicate Queued(pc: Pc) {
    pc.PushUnlock? || pc.PushSignal? || pc == PushDone(true)
  }

  /** Inside a push that still carries its item, and the item is `x`. */
  predicate Carries(pc: Pc, x: int) {
    match pc
    case PushShut1(_) | PushClosed1(_) | PushAcquire(_) | PushShut2(_) | PushClosed2(_) | PushLock(_) | PushShut3(_)
       | PushClosed3(_) | PushEnqueue(_) => pc.item == x
    case _ => false
  }

  /** A pop that has taken an item which its caller has not counted yet. */
  function Taken(pc: Pc): int {
    match pc
    case PopSignal(_) | PopUnlockOk(_) => 1
    case PopDone(got) => if got.Some? then 1 else 0
    case _ => 0
  }

  function InHand(pc: Pc): seq<int> {
    match pc
    case PopSignal(x) => [x]
    case PopUnlockOk(x) => [x]
    case PopDone(got) => if got.Some? then [got.value] else []
    case _ => []
  }

  predicate InCloseCall(pc: Pc) {
    match pc
    case StoreClosed(_, next) => next == 0
    case WakeConsumers(_, next) => next == 0
    case CloseDone => true
    case _ => false
  }

  predicate InShutdownCall(pc: Pc) {
    match pc
    case StoreShut(_) | WakeProducers(_) | ShutdownDone => true
    case StoreClosed(_, next) => 0 < next
    case WakeConsumers(_, next) => 0 < next
    case _ => false
  }

  /** What a producer that has counted `n` items is doing. */
  predicate ProducerFits(c: Config, sh: Shared, client: Client, pc: Pc, p: nat, n: nat) {
    match client
    case Producing(j) =>
      j == n <= c.items && (pc.Idle? || (n < c.items && (Carries(pc, p * c.items + j) || Queued(pc))))
    case Closing => c.spsc && n == c.items && InCloseCall(pc)
    case Ended => n == c.items && (pc.Idle? || pc.CloseDone?) && (c.spsc ==> Closed(sh))
    case _ => false
  }

  predicate ConsumerFits(client: Client, pc: Pc) {
    match client
    case Consuming => pc.Idle? || InPop(pc) || pc.PopDone?
    case Counted => pc.Idle?
    case Ended => pc == PopDone(None)
    case _ => false
  }

  ghost predicate EndedBetween(h: Bench, lo: nat, hi: nat) {
    hi <= |h.clients| && forall t | lo <= t < hi :: h.clients[t].Ended?
  }

  ghost predicate MainFits(c: Config, h: Bench)
    requires Sized(c, h)
  {
    var pc := h.q.pcs[c.Main()];
    match h.clients[c.Main()]
    case JoinProducers(l) => l <= c.producers && EndedBetween(h, 0, c.producers - l) && pc.Idle?
    case MainClosing => !c.spsc && EndedBetween(h, 0, c.producers) && InCloseCall(pc)
    case JoinConsumers(l) =>
      && l <= c.consumers && EndedBetween(h, 0, c.producers) && EndedBetween(h, c.producers, c.Main() - l)
      && (pc.Idle? || pc.CloseDone?) && Closed(h.q.sh)
    case MainShutdown => EndedBetween(h, 0, c.Main()) && Closed(h.q.sh) && InShutdownCall(pc)
    case Ended => EndedBetween(h, 0, c.Main()) && pc.ShutdownDone?
    case _ => false
  }

  ghost predicate Produced(c: Config, h: Bench) {
    c.producers <= |h.clients| && forall p | 0 <= p < c.producers :: !h.clients[p].Producing?
  }

  predicate WorkerFits(c: Config, h: Bench, t: nat)
    requires Sized(c, h) && t < c.Main()
  {
    if t < c.producers then ProducerFits(c, h.q.sh, h.clients[t], h.q.pcs[t], t, h.pushCounts[t])
    else ConsumerFits(h.clients[t], h.q.pcs[t])
  }

  /** The roles of all threads, and the fact that nobody closes while a producer still produces. */
  ghost predicate Roles(c: Config, h: Bench) {
    && Sized(c, h)
    && (forall t | 0 <= t < c.Main() :: WorkerFits(c, h, t))
    && MainFits(c, h)
    && (h.q.sh.closed || h.q.sh.shut ==> Produced(c, h))
  }

  // ----- roles are kept -----

  lemma ActProducer(c: Config, sh: Shared, client: Client, pc: Pc, p: nat, n: nat)
    requires ProducerFits(c, sh, client, pc, p, n) && CanAct(sh, pc)
    requires client.Producing? ==> !sh.closed && !sh.shut
    ensures var (sh', pc') := Act(sh, p, pc);
            && ProducerFits(c, sh', client, pc', p, n)
            && (client.Producing? ==> sh'.closed == sh.closed && sh'.shut == sh.shut)
  {}

  lemma ActConsumer(sh: Shared, t: nat, client: Client, pc: Pc)
    requires ConsumerFits(client, pc) && CanAct(sh, pc)
    ensures var (sh', pc') := Act(sh, t, pc);
            ConsumerFits(client, pc') && sh'.closed == sh.closed && sh'.shut == sh.shut
  {}

  lemma ActMain(sh: Shared, t: nat, pc: Pc)
    requires CanAct(sh, pc) && Q.Fits(sh, pc)
    ensures InCloseCall(pc) ==> InCloseCall(Act(sh, t, pc).1)
    ensures InShutdownCall(pc) ==> InShutdownCall(Act(sh, t, pc).1)
  {}

  /** What a step of thread `t` leaves alone keeps its role. */
  lemma OthersFit(c: Config, h: Bench, h': Bench, t: nat)
    requires Roles(c, h) && Sized(c, h') && t <= c.Main() && Grows(h.q.sh, h'.q.sh)
    requires forall u | 0 <= u <= c.Main() && u != t :: h'.clients[u] == h.clients[u] && h'.q.pcs[u] == h.q.pcs[u]
    requires forall u | 0 <= u < c.producers && u != t :: h'.pushCounts[u] == h.pushCounts[u]
    ensures forall u | 0 <= u < c.Main() && u != t :: WorkerFits(c, h', u)
  {
    forall u | 0 <= u < c.Main() && u != t ensures WorkerFits(c, h', u) {
      assert WorkerFits(c, h, u);
    }
  }

  /** A worker that does not come back from Ended does not disturb the main thread. */
  lemma MainKept(c: Config, h: Bench, h': Bench, t: nat)
    requires Sized(c, h) && MainFits(c, h) && Sized(c, h') && t < c.Main() && Grows(h.q.sh, h'.q.sh)
    requires h.q.pcs[c.Main()] == h'.q.pcs[c.Main()]
    requires h'.clients == h.clients[t := h'.clients[t]] && (h.clients[t].Ended? ==> h'.clients[t].Ended?)
    ensures MainFits(c, h')
  {}

  lemma InsideRoles(c: Config, h: Bench, t: nat)
    requires c.Valid() && Roles(c, h) && Q.Inv(h.q) && Q.Enabled(h.q, t)
    ensures Roles(c, Advance(c, h, t))
  {
    var h' := Advance(c, h, t);
    var (sh, pc) := (h.q.sh, h.q.pcs[t]);
    ActGrows(sh, t, pc);
    OthersFit(c, h, h', t);
    assert Q.Fits(sh, pc);
    if t == c.Main() {
      ActMain(sh, t, pc);
    } else {
      assert WorkerFits(c, h, t);
      if t < c.producers {
        ActProducer(c, sh, h.clients[t], pc, t, h.pushCounts[t]);
      } else {
        ActConsumer(sh, t, h.clients[t], pc);
      }
    }
  }

  lemma ProducerMoves(c: Config, h: Bench, t: nat)
    requires c.Valid() && Sized(c, h) && Runnable(c, h, t) && Outside(h.q.pcs[t]) && t < c.producers
    requires WorkerFits(c, h, t) && Q.Fits(h.q.sh, h.q.pcs[t])
    ensures WorkerFits(c, Advance(c, h, t), t)
  {}

  lemma ConsumerMoves(c: Config, h: Bench, t: nat)
    requires Sized(c, h) && Runnable(c, h, t) && Outside(h.q.pcs[t]) && c.producers <= t < c.Main()
    requires WorkerFits(c, h, t)
    ensures WorkerFits(c, Advance(c, h, t), t)
  {}

  lemma WorkerRoles(c: Config, h: Bench, t: nat)
    requires c.Valid() && Roles(c, h) && Q.Inv(h.q)
    requires Runnable(c, h, t) && Outside(h.q.pcs[t]) && t < c.Main()
    ensures Roles(c, Advance(c, h, t))
  {
    var h' := Advance(c, h, t);
    assert WorkerFits(c, h, t) && Q.Fits(h.q.sh, h.q.pcs[t]);
    OthersFit(c, h, h', t);
    MainKept(c, h, h', t);
    if t < c.producers {
      ProducerMoves(c, h, t);
    } else {
      ConsumerMoves(c, h, t);
    }
  }

  lemma MainMoves(c: Config, h: Bench)
    requires c.Valid() && Roles(c, h) && Q.Inv(h.q)
    requires Runnable(c, h, c.Main()) && Outside(h.q.pcs[c.Main()])
    ensures MainFits(c, Advance(c, h, c.Main()))
  {
    assert Q.Fits(h.q.sh, h.q.pcs[c.Main()]);
    if c.spsc {
      assert WorkerFits(c, h, 0);
    }
  }

  lemma MainRoles(c: Config, h: Bench)
    requires c.Valid() && Roles(c, h) && Q.Inv(h.q)
    requires Runnable(c, h, c.Main()) && Outside(h.q.pcs[c.Main()])
    ensures Roles(c, Advance(c, h, c.Main()))
  {
    var h' := Advance(c, h, c.Main());
    OthersFit(c, h, h', c.Main());
    MainMoves(c, h);
  }

  lemma AdvanceRoles(c: Config, h: Bench, t: nat)
    requires c.Valid() && Roles(c, h) && Q.Inv(h.q) && Runnable(c, h, t)
    ensures Roles(c, Advance(c, h, t))
  {
    if !Outside(h.q.pcs[t]) {
      InsideRoles(c, h, t);
    } else if t < c.Main() {
      WorkerRoles(c, h, t);
    } else {
      MainRoles(c, h);
    }
  }

  // ----- the books are kept -----

  function Range(a: int, n: nat): seq<int> {
    seq(n, i => a + i)
  }

  /** The items that thread `t` took, in order. */
  function TakenBy(es: seq<Entry>, takers: seq<nat>, t: nat): seq<int>
    requires |es| == |takers|
  {
    if es == [] then []
    else
      var m := |es| - 1;
      TakenBy(es[..m], takers[..m], t) + (if takers[m] == t then [es[m].item] else [])
  }

  function IsCounted(client: Client): int {
    if client.Counted? then 1 else 0
  }

  /** How many items producer `p` has put into the queue. */
  function Pushed(h: Bench, p: nat): nat
    requires p < |h.pushCounts| && p < |h.q.pcs|
  {
    h.pushCounts[p] + if Queued(h.q.pcs[p]) then 1 else 0
  }

  ghost predicate ProducerBooks(c: Config, h: Bench)
    requires Sized(c, h)
  {
    && (forall p | 0 <= p < c.producers :: From(h.q.sh.enqueued, p) == Range(p * c.items, Pushed(h, p)))
    && (forall i | 0 <= i < |h.q.sh.enqueued| :: h.q.sh.enqueued[i].pusher < c.producers)
  }

  ghost predicate ConsumerBooks(c: Config, h: Bench)
    requires Sized(c, h)
  {
    var sh := h.q.sh;
    && |sh.dequeued| == |sh.takers| == h.consumed + Sum(h.q.pcs, Taken)
    && h.consumed == Sum(h.popCounts, Each) + Sum(h.clients, IsCounted)
    && (forall k | 0 <= k < c.consumers ::
          TakenBy(sh.dequeued, sh.takers, c.producers + k) == h.received[k] + InHand(h.q.pcs[c.producers + k]))
    && (forall i | 0 <= i < |sh.takers| :: c.producers <= sh.takers[i] < c.Main())
  }

  lemma PushEnqueues(sh: Shared, t: nat, pc: Pc)
    requires CanAct(sh, pc) && InPush(pc)
    ensures var (sh', pc') := Act(sh, t, pc);
            && sh'.enqueued == sh.enqueued + (if pc.PushEnqueue? then [Entry(t, pc.item)] else [])
            && (Queued(pc') <==> Queued(pc) || pc.PushEnqueue?)
  {}

  lemma ActEnqueues(sh: Shared, t: nat, pc: Pc)
    requires CanAct(sh, pc)
    ensures var (sh', pc') := Act(sh, t, pc);
            && sh'.enqueued == sh.enqueued + (if pc.PushEnqueue? then [Entry(t, pc.item)] else [])
            && (Queued(pc') <==> Queued(pc) || pc.PushEnqueue?)
  {
    if InPush(pc) {
      PushEnqueues(sh, t, pc);
    }
  }

  lemma ActDequeues(sh: Shared, t: nat, pc: Pc)
    requires CanAct(sh, pc)
    ensures var (sh', pc') := Act(sh, t, pc);
            if pc.PopTake? && sh.queue != [] then
              && sh'.dequeued == sh.dequeued + [sh.queue[0]] && sh'.takers == sh.takers + [t]
              && InHand(pc) == [] && InHand(pc') == [sh.queue[0].item]
            else
              sh'.dequeued == sh.dequeued && sh'.takers == sh.takers && InHand(pc') == InHand(pc)
  {}

  lemma InHandTaken(pc: Pc)
    ensures |InHand(pc)| == Taken(pc)
  {}

  lemma InsideProducerBooks(c: Config, h: Bench, t: nat)
    requires c.Valid() && Roles(c, h) && Q.Enabled(h.q, t) && ProducerBooks(c, h)
    ensures ProducerBooks(c, Advance(c, h, t))
  {
    var h' := Advance(c, h, t);
    var (sh, pc) := (h.q.sh, h.q.pcs[t]);
    ActEnqueues(sh, t, pc);
    if pc.PushEnqueue? {
      assert t < c.producers by {
        assert t < c.Main() ==> WorkerFits(c, h, t);
      }
      assert WorkerFits(c, h, t);
      assert h'.q.sh.enqueued[..|sh.enqueued|] == sh.enqueued;
    }
    forall p | 0 <= p < c.producers ensures From(h'.q.sh.enqueued, p) == Range(p * c.items, Pushed(h', p)) {
      assert From(sh.enqueued, p) == Range(p * c.items, Pushed(h, p));
    }
  }

  lemma TakenAppend(es: seq<Entry>, takers: seq<nat>, e: Entry, t: nat, k: nat)
    requires |es| == |takers|
    ensures TakenBy(es + [e], takers + [t], k) == TakenBy(es, takers, k) + if k == t then [e.item] else []
  {
    assert (es + [e])[..|es|] == es && (takers + [t])[..|takers|] == takers;
  }

  /** Consumer `t` has taken `e` into its hand. */
  lemma TakeBooks(c: Config, h: Bench, q: Q.State, t: nat, e: Entry)
    requires Sized(c, h) && ConsumerBooks(c, h) && c.producers <= t < c.Main() && |q.pcs| == |h.q.pcs|
    requires q.sh.dequeued == h.q.sh.dequeued + [e] && q.sh.takers == h.q.sh.takers + [t]
    requires q.pcs == h.q.pcs[t := q.pcs[t]] && InHand(h.q.pcs[t]) == [] && InHand(q.pcs[t]) == [e.item]
    ensures ConsumerBooks(c, h.(q := q))
  {
    InHandTaken(h.q.pcs[t]);
    InHandTaken(q.pcs[t]);
    SumUpdate(h.q.pcs, Taken, t, q.pcs[t]);
    forall k | 0 <= k < c.consumers
      ensures TakenBy(q.sh.dequeued, q.sh.takers, c.producers + k)
              == h.received[k] + InHand(q.pcs[c.producers + k])
    {
      TakenAppend(h.q.sh.dequeued, h.q.sh.takers, e, t, c.producers + k);
    }
  }

  /** Any other action inside a call leaves what has been taken where it is. */
  lemma OtherBooks(c: Config, h: Bench, q: Q.State, t: nat)
    requires Sized(c, h) && ConsumerBooks(c, h) && t < |h.q.pcs| == |q.pcs|
    requires q.sh.dequeued == h.q.sh.dequeued && q.sh.takers == h.q.sh.takers
    requires q.pcs == h.q.pcs[t := q.pcs[t]] && InHand(q.pcs[t]) == InHand(h.q.pcs[t])
    ensures ConsumerBooks(c, h.(q := q))
  {
    InHandTaken(h.q.pcs[t]);
    InHandTaken(q.pcs[t]);
    SumUpdate(h.q.pcs, Taken, t, q.pcs[t]);
    assert forall u | 0 <= u < |q.pcs| :: InHand(q.pcs[u]) == InHand(h.q.pcs[u]);
  }

  lemma InsideConsumerBooks(c: Config, h: Bench, t: nat)
    requires Roles(c, h) && Q.Enabled(h.q, t) && ConsumerBooks(c, h)
    ensures ConsumerBooks(c, Advance(c, h, t))
  {
    ActDequeues(h.q.sh, t, h.q.pcs[t]);
    if h.q.pcs[t].PopTake? && h.q.sh.queue != [] {
      PopIsConsumer(c, h, t);
      TakeBooks(c, h, Q.Step(h.q, t), t, h.q.sh.queue[0]);
    } else {
      OtherBooks(c, h, Q.Step(h.q, t), t);
    }
  }

  lemma PopIsConsumer(c: Config, h: Bench, t: nat)
    requires Roles(c, h) && t < |h.q.pcs| && h.q.pcs[t].PopTake?
    ensures c.producers <= t < c.Main()
  {
    assert t < c.Main() ==> WorkerFits(c, h, t);
  }

  lemma OutsideProducerBooks(c: Config, h: Bench, t: nat)
    requires c.Valid() && Roles(c, h) && Runnable(c, h, t) && Outside(h.q.pcs[t]) && ProducerBooks(c, h)
    ensures ProducerBooks(c, Advance(c, h, t))
  {
    var h' := Advance(c, h, t);
    if t < c.Main() {
      assert WorkerFits(c, h, t);
    }
    forall p | 0 <= p < c.producers ensures Pushed(h', p) == Pushed(h, p) {}
  }

  /** A step of `t` between calls: what consumer `k` (if `t` is one) gains in one book it loses in another. */
  ghost predicate Moves(c: Config, h: Bench, h': Bench, t: nat)
    requires Sized(c, h) && Sized(c, h') && t <= c.Main()
  {
    && h'.q.sh == h.q.sh
    && h'.q.pcs == h.q.pcs[t := h'.q.pcs[t]] && h'.clients == h.clients[t := h'.clients[t]]
    && h'.consumed - h.consumed == Taken(h.q.pcs[t]) - Taken(h'.q.pcs[t])
    && if c.producers <= t < c.Main() then
         var k := t - c.producers;
         && h'.popCounts == h.popCounts[k := h'.popCounts[k]]
         && h'.received == h.received[k := h'.received[k]]
         && h.received[k] + InHand(h.q.pcs[t]) == h'.received[k] + InHand(h'.q.pcs[t])
         && h'.consumed - h.consumed
            == h'.popCounts[k] - h.popCounts[k] + IsCounted(h'.clients[t]) - IsCounted(h.clients[t])
       else
         && h'.popCounts == h.popCounts && h'.received == h.received && h'.consumed == h.consumed
         && IsCounted(h'.clients[t]) == IsCounted(h.clients[t])
  }

  lemma ConsumerAdvances(c: Config, h: Bench, t: nat)
    requires Roles(c, h) && Runnable(c, h, t) && Outside(h.q.pcs[t]) && c.producers <= t < c.Main()
    ensures Moves(c, h, Advance(c, h, t), t)
  {
    assert WorkerFits(c, h, t);
  }

  lemma OthersAdvance(c: Config, h: Bench, t: nat)
    requires Roles(c, h) && Runnable(c, h, t) && Outside(h.q.pcs[t]) && !(c.producers <= t < c.Main())
    ensures Moves(c, h, Advance(c, h, t), t)
  {
    if t < c.producers {
      assert WorkerFits(c, h, t);
    }
  }

  lemma MovesKeepCounts(c: Config, h: Bench, h': Bench, t: nat)
    requires Sized(c, h) && Sized(c, h') && t <= c.Main() && Moves(c, h, h', t)
    ensures h'.consumed + Sum(h'.q.pcs, Taken) == h.consumed + Sum(h.q.pcs, Taken)
    ensures h'.consumed - Sum(h'.popCounts, Each) - Sum(h'.clients, IsCounted)
            == h.consumed - Sum(h.popCounts, Each) - Sum(h.clients, IsCounted)
  {
    SumUpdate(h.q.pcs, Taken, t, h'.q.pcs[t]);
    SumUpdate(h.clients, IsCounted, t, h'.clients[t]);
    if c.producers <= t < c.Main() {
      SumUpdate(h.popCounts, Each, t - c.producers, h'.popCounts[t - c.producers]);
    }
  }

  lemma MovesKeepItems(c: Config, h: Bench, h': Bench, t: nat, k: nat)
    requires Sized(c, h) && Sized(c, h') && t <= c.Main() && Moves(c, h, h', t) && k < c.consumers
    ensures h'.received[k] + InHand(h'.q.pcs[c.producers + k]) == h.received[k] + InHand(h.q.pcs[c.producers + k])
  {}

  lemma MovesKeepBooks(c: Config, h: Bench, h': Bench, t: nat)
    requires Sized(c, h) && Sized(c, h') && t <= c.Main() && Moves(c, h, h', t) && ConsumerBooks(c, h)
    ensures ConsumerBooks(c, h')
  {
    MovesKeepCounts(c, h, h', t);
    var sh := h.q.sh;
    forall k | 0 <= k < c.consumers
      ensures TakenBy(sh.dequeued, sh.takers, c.producers + k)
              == h'.received[k] + InHand(h'.q.pcs[c.producers + k])
    {
      MovesKeepItems(c, h, h', t, k);
    }
  }

  lemma AdvanceBooks(c: Config, h: Bench, t: nat)
    requires c.Valid() && Roles(c, h) && Runnable(c, h, t) && ProducerBooks(c, h) && ConsumerBooks(c, h)
    ensures Sized(c, Advance(c, h, t))
    ensures ProducerBooks(c, Advance(c, h, t)) && ConsumerBooks(c, Advance(c, h, t))
  {
    if !Outside(h.q.pcs[t]) {
      InsideProducerBooks(c, h, t);
      InsideConsumerBooks(c, h, t);
    } else {
      OutsideProducerBooks(c, h, t);
      if c.producers <= t < c.Main() {
        ConsumerAdvances(c, h, t);
      } else {
        OthersAdvance(c, h, t);
      }
      MovesKeepBooks(c, h, Advance(c, h, t), t);
    }
  }

  // ----- the whole invariant -----

  ghost predicate Good(c: Config, h: Bench) {
    c.Valid() && Roles(c, h) && Q.Inv(h.q) && h.q.sh.cap == c.cap && ProducerBooks(c, h) && ConsumerBooks(c, h)
  }

  lemma IdleInv(s: Q.State, t: nat)
    requires Q.Inv(s) && t < |s.pcs| && Outside(s.pcs[t])
    ensures Q.Inv(s.(pcs := s.pcs[t := Idle]))
  {
    OutsideHoldsNothing(s.pcs[t]);
    SumsAfter(s.pcs, t, Idle);
  }

  /** Between calls a thread leaves the queue alone, forgets a result, or starts a call. */
  lemma OutsideQueue(c: Config, h: Bench, t: nat)
    requires Sized(c, h) && Runnable(c, h, t) && Outside(h.q.pcs[t])
    ensures var q := Advance(c, h, t).q;
            || q == h.q
            || q == h.q.(pcs := h.q.pcs[t := Idle])
            || (exists call :: q == Q.Begin(h.q, t, call))
  {}

  lemma AdvanceGood(c: Config, h: Bench, t: nat)
    requires Good(c, h) && Runnable(c, h, t)
    ensures Good(c, Advance(c, h, t))
  {
    AdvanceRoles(c, h, t);
    AdvanceBooks(c, h, t);
    var q := Advance(c, h, t).q;
    if !Outside(h.q.pcs[t]) {
      StepInv(h.q, t);
      ActGrows(h.q.sh, t, h.q.pcs[t]);
    } else {
      OutsideQueue(c, h, t);
      if q == h.q.(pcs := h.q.pcs[t := Idle]) {
        IdleInv(h.q, t);
      } else if call :| q == Q.Begin(h.q, t, call) {
        BeginInv(h.q, t, call);
      }
    }
  }

  lemma LaunchGood(c: Config)
    requires c.Valid()
    ensures Good(c, Launch(c))
  {
    var h := Launch(c);
    Q.InitInv(c.Main() + 1, c.cap);
    SumConstant(h.q.pcs, Taken, 0);
    SumConstant(h.popCounts, Each, 0);
    SumConstant(h.clients, IsCounted, 0);
  }

  // ----- counting items -----

  function TotalFrom(es: seq<Entry>, n: nat): nat {
    if n == 0 then 0 else TotalFrom(es, n - 1) + |From(es, n - 1)|
  }

  lemma {:induction false} TotalFromGrows(es: seq<Entry>, e: Entry, n: nat)
    ensures TotalFrom(es + [e], n) == TotalFrom(es, n) + if e.pusher < n then 1 else 0
  {
    if 0 < n {
      TotalFromGrows(es, e, n - 1);
      assert (es + [e])[..|es|] == es;
    }
  }

  /** Every entry belongs to exactly one of the first `n` producers. */
  lemma {:induction false} TotalFromAll(es: seq<Entry>, n: nat)
    requires forall i | 0 <= i < |es| :: es[i].pusher < n
    ensures TotalFrom(es, n) == |es|
  {
    if es == [] {
      TotalFromNone(n);
    } else {
      var m := |es| - 1;
      TotalFromAll(es[..m], n);
      TotalFromGrows(es[..m], es[m], n);
      assert es == es[..m] + [es[m]];
    }
  }

  lemma {:induction false} TotalFromNone(n: nat)
    ensures TotalFrom([], n) == 0
  {
    if 0 < n {
      TotalFromNone(n - 1);
    }
  }

  lemma {:induction false} TotalFromBound(es: seq<Entry>, n: nat, k: nat)
    requires forall p | 0 <= p < n :: |From(es, p)| <= k
    ensures TotalFrom(es, n) <= n * k
    ensures (forall p | 0 <= p < n :: |From(es, p)| == k) ==> TotalFrom(es, n) == n * k
  {
    if 0 < n {
      TotalFromBound(es, n - 1, k);
      assert n * k == (n - 1) * k + k;
    }
  }

  lemma EnqueuedBound(c: Config, h: Bench)
    requires Good(c, h)
    ensures |h.q.sh.dequeued| <= |h.q.sh.enqueued| <= c.Total()
    ensures (forall p | 0 <= p < c.producers :: Pushed(h, p) == c.items) ==> |h.q.sh.enqueued| == c.Total()
  {
    var es := h.q.sh.enqueued;
    TotalFromAll(es, c.producers);
    forall p | 0 <= p < c.producers ensures |From(es, p)| == Pushed(h, p) <= c.items {
      assert WorkerFits(c, h, p);
    }
    TotalFromBound(es, c.producers, c.items);
  }

  // ----- every run ends -----

  /** The actions a thread may still perform before its next result is used up; a push that has queued its
      item, or a pop that has taken one, pays for the rest of its loop body. */
  function Load(pc: Pc): int {
    Rank(pc) + (if Queued(pc) then 20 else 0) + 30 * Taken(pc) + if pc.Idle? then 13 else 0
  }

  function ClientLoad(client: Client): int {
    match client
    case Producing(_) => 1 case Closing => 1 case Consuming => 1 case Counted => 3
    case _ => 0
  }

  function MainLoad(c: Config, client: Client): int {
    var x := c.cap + c.consumers + 30;
    match client
    case JoinProducers(l) => l + 4 * x
    case MainClosing => 3 * x
    case JoinConsumers(l) => l + 2 * x
    case MainShutdown => 1
    case _ => 0
  }

  function Measure(c: Config, h: Bench): int
    requires Sized(c, h)
  {
    20 * (c.Total() - |h.q.sh.enqueued|) + 30 * (c.Total() - |h.q.sh.dequeued|)
    + Sum(h.q.pcs, Load) + Sum(h.clients, ClientLoad) + MainLoad(c, h.clients[c.Main()])
    + if c.spsc && h.clients[0].Producing? then c.cap + 10 else 0
  }

  lemma MeasureNonNegative(c: Config, h: Bench)
    requires Good(c, h)
    ensures 0 <= Measure(c, h)
  {
    EnqueuedBound(c, h);
    forall t | 0 <= t < |h.q.pcs| ensures 0 <= Load(h.q.pcs[t]) {
      RankNonNegative(h.q.pcs[t]);
    }
    SumNonNegative(h.q.pcs, Load);
    SumNonNegative(h.clients, ClientLoad);
  }

  lemma ActNotIdle(sh: Shared, t: nat, pc: Pc)
    requires CanAct(sh, pc)
    ensures !Act(sh, t, pc).1.Idle?
  {}

  lemma ActLoad(sh: Shared, t: nat, pc: Pc)
    requires CanAct(sh, pc) && (pc.PopClosed2? ==> sh.closed)
    ensures Load(Act(sh, t, pc).1) - Load(pc)
            < (if pc.PushEnqueue? then 20 else 0) + (if pc.PopTake? && sh.queue != [] then 30 else 0)
  {
    var pc' := Act(sh, t, pc).1;
    ActRank(sh, t, pc);
    ActNotIdle(sh, t, pc);
    ActEnqueues(sh, t, pc);
    ActDequeues(sh, t, pc);
    InHandTaken(pc);
    InHandTaken(pc');
  }

  /** The part of the measure that a step of `t` between calls changes. */
  function LocalLoad(c: Config, h: Bench, t: nat): int
    requires Sized(c, h) && t <= c.Main()
  {
    Load(h.q.pcs[t]) + ClientLoad(h.clients[t])
    + (if t == c.Main() then MainLoad(c, h.clients[t]) else 0)
    + if t == 0 && c.spsc && h.clients[0].Producing? then c.cap + 10 else 0
  }

  lemma ProducerLoad(c: Config, h: Bench, t: nat)
    requires Sized(c, h) && Runnable(c, h, t) && Outside(h.q.pcs[t]) && t < c.producers && WorkerFits(c, h, t)
    requires c.Valid() && h.q.sh.cap == c.cap
    ensures Sized(c, Advance(c, h, t)) && LocalLoad(c, Advance(c, h, t), t) < LocalLoad(c, h, t)
  {}

  lemma ConsumerLoad(c: Config, h: Bench, t: nat)
    requires Sized(c, h) && Runnable(c, h, t) && Outside(h.q.pcs[t]) && c.producers <= t < c.Main()
    requires WorkerFits(c, h, t)
    ensures Sized(c, Advance(c, h, t)) && LocalLoad(c, Advance(c, h, t), t) < LocalLoad(c, h, t)
  {}

  lemma MainJoinsLoad(c: Config, h: Bench)
    requires Sized(c, h) && MainFits(c, h) && h.q.sh.cap == c.cap && (c.spsc ==> 1 <= c.producers)
    requires Runnable(c, h, c.Main()) && Outside(h.q.pcs[c.Main()])
    requires h.clients[c.Main()].JoinProducers? || h.clients[c.Main()].JoinConsumers?
    ensures var h' := Advance(c, h, c.Main());
            Sized(c, h') && LocalLoad(c, h', c.Main()) < LocalLoad(c, h, c.Main())
  {}

  lemma MainReturnsLoad(c: Config, h: Bench)
    requires Sized(c, h) && MainFits(c, h) && (c.spsc ==> 1 <= c.producers)
    requires Runnable(c, h, c.Main()) && Outside(h.q.pcs[c.Main()])
    requires h.clients[c.Main()].MainClosing? || h.clients[c.Main()].MainShutdown?
    ensures var h' := Advance(c, h, c.Main());
            Sized(c, h') && LocalLoad(c, h', c.Main()) < LocalLoad(c, h, c.Main())
  {}

  lemma MainThreadLoad(c: Config, h: Bench)
    requires c.Valid() && Sized(c, h) && MainFits(c, h) && h.q.sh.cap == c.cap
    requires Runnable(c, h, c.Main()) && Outside(h.q.pcs[c.Main()])
    ensures var h' := Advance(c, h, c.Main());
            Sized(c, h') && LocalLoad(c, h', c.Main()) < LocalLoad(c, h, c.Main())
  {
    if h.clients[c.Main()].JoinProducers? || h.clients[c.Main()].JoinConsumers? {
      MainJoinsLoad(c, h);
    } else {
      MainReturnsLoad(c, h);
    }
  }

  lemma LocalLess(c: Config, h: Bench, h': Bench, t: nat)
    requires Sized(c, h) && Sized(c, h') && t <= c.Main() && (c.spsc ==> 0 < c.producers)
    requires h'.q.sh == h.q.sh
    requires h'.q.pcs == h.q.pcs[t := h'.q.pcs[t]] && h'.clients == h.clients[t := h'.clients[t]]
    requires LocalLoad(c, h', t) < LocalLoad(c, h, t)
    ensures Measure(c, h') < Measure(c, h)
  {
    SumUpdate(h.q.pcs, Load, t, h'.q.pcs[t]);
    SumUpdate(h.clients, ClientLoad, t, h'.clients[t]);
  }

  lemma InsideMeasure(c: Config, h: Bench, t: nat)
    requires Good(c, h) && Q.Enabled(h.q, t)
    ensures Sized(c, Advance(c, h, t)) && Measure(c, Advance(c, h, t)) < Measure(c, h)
  {
    assert Q.Fits(h.q.sh, h.q.pcs[t]);
    SumUpdate(h.q.pcs, Load, t, Advance(c, h, t).q.pcs[t]);
    ActLoad(h.q.sh, t, h.q.pcs[t]);
    ActEnqueues(h.q.sh, t, h.q.pcs[t]);
    ActDequeues(h.q.sh, t, h.q.pcs[t]);
  }

  /** Every action of every thread makes the measure smaller, so a run has no more than
      Measure(c, Launch(c)) steps. */
  lemma AdvanceMeasure(c: Config, h: Bench, t: nat)
    requires Good(c, h) && Runnable(c, h, t)
    ensures Sized(c, Advance(c, h, t)) && Measure(c, Advance(c, h, t)) < Measure(c, h)
  {
    if !Outside(h.q.pcs[t]) {
      InsideMeasure(c, h, t);
    } else {
      if c.producers <= t < c.Main() {
        ConsumerAdvances(c, h, t);
        assert WorkerFits(c, h, t);
        ConsumerLoad(c, h, t);
      } else {
        OthersAdvance(c, h, t);
        if t < c.Main() {
          assert WorkerFits(c, h, t);
          ProducerLoad(c, h, t);
        } else {
          MainThreadLoad(c, h);
        }
      }
      LocalLess(c, h, Advance(c, h, t), t);
    }
  }

  // ----- no deadlock -----

  /** A positive capacity, or nothing to push at all. */
  predicate CanFinish(c: Config) {
    1 <= c.cap || c.producers == 0 || c.items == 0
  }

  /** Every reachable state that is not final has a thread that can move. */
  lemma Progress(c: Config, h: Bench)
    requires Good(c, h) && CanFinish(c) && !Final(h)
    ensures exists t: nat :: t <= c.Main() && Runnable(c, h, t)
  {
    if u: nat :| Q.Enabled(h.q, u) {
      assert Runnable(c, h, u);
    } else {
      assert Stuck(h.q);
      if p: nat :| p < c.producers && !h.clients[p].Ended? {
        var t := ProducerUnblocked(c, h, p);
      } else {
        var t := MainUnblocked(c, h);
      }
    }
  }

  /** Where no queue action is possible and a producer has not ended, it is between calls, or waits for a slot;
      then the queue is full, so a consumer is between calls. */
  lemma ProducerUnblocked(c: Config, h: Bench, p: nat) returns (t: nat)
    requires Good(c, h) && CanFinish(c) && Stuck(h.q) && p < c.producers && !h.clients[p].Ended?
    ensures t <= c.Main() && Runnable(c, h, t)
  {
    StuckShape(h.q);
    var k := c.producers;
    assert WorkerFits(c, h, p) && WorkerFits(c, h, k);
    assert GivesUp(h.q.pcs[k]) ==> Settled(h.q);
    t := if Outside(h.q.pcs[p]) then p else k;
  }

  lemma MainUnblocked(c: Config, h: Bench) returns (t: nat)
    requires Good(c, h) && Stuck(h.q) && !Final(h)
    requires forall p: nat | p < c.producers :: h.clients[p].Ended?
    ensures t <= c.Main() && Runnable(c, h, t)
  {
    StuckShape(h.q);
    t := c.Main();
    match h.clients[t] {
      case JoinConsumers(l) =>
        if l != 0 && !h.clients[t - l].Ended? {
          t := t - l;
          assert WorkerFits(c, h, t);
        }
      case _ =>
    }
  }

  // ----- what a finished run has done -----

  lemma AllFromOne(es: seq<Entry>, takers: seq<nat>, p: nat, t: nat)
    requires |es| == |takers|
    requires forall i | 0 <= i < |es| :: es[i].pusher == p && takers[i] == t
    ensures TakenBy(es, takers, t) == From(es, p)
  {
    if es != [] {
      AllFromOne(es[..|es| - 1], takers[..|es| - 1], p, t);
    }
  }

  /** A consumer has ended with an empty pop, so nothing is queued. */
  lemma FinalQueue(c: Config, h: Bench)
    requires Good(c, h) && Final(h)
    ensures h.q.sh.queue == [] && h.q.sh.dequeued == h.q.sh.enqueued
  {
    assert WorkerFits(c, h, c.producers);
    assert GivesUp(h.q.pcs[c.producers]);
  }

  lemma FinalPushes(c: Config, h: Bench)
    requires Good(c, h) && Final(h)
    ensures forall p | 0 <= p < c.producers :: Pushed(h, p) == h.pushCounts[p] == c.items
    ensures |h.q.sh.enqueued| == c.Total()
  {
    forall p | 0 <= p < c.producers ensures Pushed(h, p) == h.pushCounts[p] == c.items {
      assert WorkerFits(c, h, p);
    }
    EnqueuedBound(c, h);
  }

  lemma FinalPops(c: Config, h: Bench)
    requires Good(c, h) && Final(h)
    ensures |h.q.sh.dequeued| == h.consumed == Sum(h.popCounts, Each)
  {
    forall t | 0 <= t < |h.q.pcs| ensures Taken(h.q.pcs[t]) == 0 {
      assert t < c.Main() ==> WorkerFits(c, h, t);
    }
    SumConstant(h.q.pcs, Taken, 0);
    SumConstant(h.clients, IsCounted, 0);
  }

  /** Every item has been pushed, taken in the order of its producer, and counted; none is left. */
  ghost predicate BooksClosed(c: Config, h: Bench) {
    && h.q.sh.queue == [] && h.q.sh.dequeued == h.q.sh.enqueued
    && |h.q.sh.dequeued| == h.consumed == Sum(h.popCounts, Each) == c.Total()
    && |h.pushCounts| == c.producers
    && forall p | 0 <= p < c.producers ::
         h.pushCounts[p] == c.items && From(h.q.sh.dequeued, p) == Range(p * c.items, c.items)
  }

  lemma FinalIsClosed(c: Config, h: Bench)
    requires Good(c, h) && Final(h)
    ensures BooksClosed(c, h)
  {
    FinalQueue(c, h);
    FinalPushes(c, h);
    FinalPops(c, h);
  }

  lemma GoodOrder(c: Config, h: Bench, p: nat)
    requires Good(c, h) && p < c.producers
    ensures From(h.q.sh.dequeued, p) == Range(p * c.items, |From(h.q.sh.dequeued, p)|)
  {
    var d := h.q.sh.dequeued;
    FromConcat(d, h.q.sh.queue, p);
    var n := |From(d, p)|;
    assert From(h.q.sh.enqueued, p)[..n] == From(d, p);
    assert Range(p * c.items, Pushed(h, p))[..n] == Range(p * c.items, n);
  }

  lemma GoodReceived(c: Config, h: Bench)
    requires Good(c, h) && c.spsc
    ensures h.received[0] == Range(0, |h.received[0]|)
    ensures Final(h) ==> |h.received[0]| == c.items
  {
    var sh := h.q.sh;
    forall i | 0 <= i < |sh.dequeued| ensures sh.dequeued[i].pusher == 0 && sh.takers[i] == 1 {
      assert sh.enqueued[i] == sh.dequeued[i];
    }
    AllFromOne(sh.dequeued, sh.takers, 0, 1);
    GoodOrder(c, h, 0);
    var all := From(sh.dequeued, 0);
    var n := |h.received[0]|;
    assert all == h.received[0] + InHand(h.q.pcs[1]);
    assert all[..n] == h.received[0] && Range(0, |all|)[..n] == Range(0, n);
    if Final(h) {
      FinalIsClosed(c, h);
      assert WorkerFits(c, h, 1);
    }
  }

  // ----- whole runs -----

  ghost predicate Next(c: Config, h: Bench, h': Bench) {
    Sized(c, h) && exists t: nat :: Runnable(c, h, t) && h' == Advance(c, h, t)
  }

  ghost predicate NextAt(c: Config, run: seq<Bench>, i: nat) {
    i + 1 < |run| && Next(c, run[i], run[i + 1])
  }

  ghost predicate IsRun(c: Config, run: seq<Bench>) {
    0 < |run| && run[0] == Launch(c) && forall i | 0 <= i < |run| - 1 :: NextAt(c, run, i)
  }

  lemma NextGood(c: Config, h: Bench, h': Bench)
    requires Good(c, h) && Next(c, h, h')
    ensures Good(c, h') && 0 <= Measure(c, h') < Measure(c, h)
    ensures c.cap == 0 && h.q.sh.enqueued == [] ==> h'.q.sh.enqueued == []
  {
    var t: nat :| Runnable(c, h, t) && h' == Advance(c, h, t);
    AdvanceGood(c, h, t);
    AdvanceMeasure(c, h, t);
    MeasureNonNegative(c, h');
    if c.cap == 0 {
      NothingEnters(c, h, t);
    }
  }

  lemma NothingEnters(c: Config, h: Bench, t: nat)
    requires Good(c, h) && Runnable(c, h, t) && c.cap == 0
    ensures Advance(c, h, t).q.sh.enqueued == h.q.sh.enqueued
  {
    if !Outside(h.q.pcs[t]) {
      NoRoom(h.q, t);
      ActEnqueues(h.q.sh, t, h.q.pcs[t]);
    }
  }

  /** Along any run the invariant holds and every step has been paid for by the measure. */
  lemma {:induction false} RunGood(c: Config, run: seq<Bench>, i: nat)
    requires c.Valid() && IsRun(c, run) && i < |run|
    ensures Good(c, run[i]) && 0 <= Measure(c, run[i]) <= Measure(c, Launch(c)) - i
    ensures c.cap == 0 ==> run[i].q.sh.enqueued == []
  {
    if i == 0 {
      LaunchGood(c);
      MeasureNonNegative(c, run[0]);
    } else {
      RunGood(c, run, i - 1);
      assert NextAt(c, run, i - 1);
      NextGood(c, run[i - 1], run[i]);
    }
  }

  /** At the end of any run that has ended every producer has pushed and every consumer has counted everything:
      no item is lost, none is counted twice, and the queue is empty. */
  lemma {:induction false} FinalBooks(c: Config, run: seq<Bench>, i: nat)
    requires c.Valid() && IsRun(c, run) && i < |run| && Final(run[i])
    ensures BooksClosed(c, run[i])
  {
    RunGood(c, run, i);
    FinalIsClosed(c, run[i]);
  }

  /** At any time of any run, each producer's items leave the queue in the order they were pushed. */
  lemma {:induction false} OrderAlways(c: Config, run: seq<Bench>, i: nat, p: nat)
    requires c.Valid() && IsRun(c, run) && i < |run| && p < c.producers
    ensures var taken := From(run[i].q.sh.dequeued, p); taken == Range(p * c.items, |taken|)
  {
    RunGood(c, run, i);
    GoodOrder(c, run[i], p);
  }

  /** At any time of any run the single consumer of the SPSC benchmark has received 0, 1, 2, ... and in the end
      exactly the n items. */
  lemma {:induction false} SpscReceivesInOrder(c: Config, run: seq<Bench>, i: nat)
    requires c.Valid() && IsRun(c, run) && i < |run| && c.spsc
    ensures |run[i].received| == 1 && run[i].received[0] == Range(0, |run[i].received[0]|)
    ensures Final(run[i]) ==> run[i].received[0] == Range(0, c.items)
  {
    RunGood(c, run, i);
    GoodReceived(c, run[i]);
  }

  /** The producer_fairness that the MPMC benchmark reports is 0 in every finished run. */
  lemma {:induction false} ProducerFairnessIsZero(c: Config, run: seq<Bench>, i: nat, cv: real)
    requires c.Valid() && IsRun(c, run) && i < |run| && Final(run[i]) && Fairness.IsCv(run[i].pushCounts, cv)
    ensures cv == 0.0
  {
    FinalBooks(c, run, i);
    Fairness.ZeroIffAllEqual(run[i].pushCounts, cv);
  }

  /** In no run is a push of the benchmark ever turned away. */
  lemma {:induction false} NoPushFails(c: Config, run: seq<Bench>, i: nat, p: nat)
    requires c.Valid() && IsRun(c, run) && i < |run| && p < c.producers
    ensures p < |run[i].q.pcs| && run[i].q.pcs[p] != PushDone(false)
  {
    RunGood(c, run, i);
    assert WorkerFits(c, run[i], p);
  }

  /** At capacity zero no push gets as far as the queue. */
  lemma NoRoom(q: Q.State, t: nat)
    requires Q.Inv(q) && q.sh.cap == 0 && t < |q.pcs|
    ensures !q.pcs[t].PushEnqueue?
  {
    SumAtLeast(q.pcs, Committed, t);
  }

  /** However the threads are scheduled, the benchmark stops after a bounded number of actions; and if it has
      room for an item, or nothing to push, it stops only when every thread has been joined and exactly
      producers * items items have been consumed. */
  lemma {:induction false} EveryRunFinishes(c: Config, run: seq<Bench>)
    requires c.Valid() && IsRun(c, run)
    ensures |run| <= Measure(c, Launch(c)) + 1
    ensures var h := run[|run| - 1];
            && Sized(c, h)
            && (CanFinish(c) && (forall t: nat | t <= c.Main() :: !Runnable(c, h, t)) ==>
                Final(h) && h.consumed == c.Total() && h.q.sh.dequeued == h.q.sh.enqueued)
  {
    var h := run[|run| - 1];
    RunGood(c, run, |run| - 1);
    if CanFinish(c) && forall t: nat | t <= c.Main() :: !Runnable(c, h, t) {
      if !Final(h) {
        Progress(c, h);
      }
      FinalIsClosed(c, h);
    }
  }

  lemma LongerRun(c: Config, run: seq<Bench>, h: Bench) returns (next: seq<Bench>)
    requires IsRun(c, run) && Next(c, run[|run| - 1], h)
    ensures next == run + [h] && IsRun(c, next)
  {
    next := run + [h];
    forall i | 0 <= i < |next| - 1 ensures NextAt(c, next, i) {
      if i < |run| - 1 {
        assert NextAt(c, run, i);
      }
    }
  }

  lemma {:induction false} RunToEnd(c: Config, run: seq<Bench>) returns (longer: seq<Bench>)
    requires c.Valid() && CanFinish(c) && IsRun(c, run)
    ensures IsRun(c, longer) && Final(longer[|longer| - 1])
    decreases Measure(c, Launch(c)) + 1 - |run|
  {
    var h := run[|run| - 1];
    RunGood(c, run, |run| - 1);
    if Final(h) {
      longer := run;
    } else {
      Progress(c, h);
      var t: nat :| t <= c.Main() && Runnable(c, h, t);
      var next := LongerRun(c, run, Advance(c, h, t));
      RunGood(c, next, |next| - 1);
      longer := RunToEnd(c, next);
    }
  }

  lemma {:induction false} NeverFinishes(c: Config, run: seq<Bench>)
    requires c.Valid() && !CanFinish(c) && IsRun(c, run)
    ensures !Final(run[|run| - 1])
  {
    var h := run[|run| - 1];
    RunGood(c, run, |run| - 1);
    assert 1 <= c.Total();
    if Final(h) {
      FinalIsClosed(c, h);
    }
  }

  /** The benchmark can finish exactly when the queue has room for an item or nothing has to be pushed. */
  lemma FinishesIff(c: Config)
    requires c.Valid()
    ensures (exists run :: IsRun(c, run) && Final(run[|run| - 1])) <==> CanFinish(c)
  {
    if CanFinish(c) {
      var run := RunToEnd(c, [Launch(c)]);
    } else {
      forall run | IsRun(c, run) ensures !Final(run[|run| - 1]) {
        NeverFinishes(c, run);
      }
    }
  }

  // ----- the benchmark itself -----

  /** One iteration of a benchmark: the shared queue, the program counters of its threads, and the counters
      they update. */
  class Benchmark {
    const c: Config
    const queue: SemaphoreQueue
    var pcs: seq<Pc>
    var clients: seq<Client>
    var itemsConsumed: nat
    var pushCounts: seq<nat>
    var popCounts: seq<nat>
    var received: seq<seq<int>>

    function View(): Bench
      reads this, queue
    {
      Bench(Q.State(queue.Fields(), pcs), clients, itemsConsumed, pushCounts, popCounts, received)
    }

    constructor (c: Config)
      ensures View() == Launch(c) && this.c == c && fresh(queue)
    {
      this.c := c;
      queue := new SemaphoreQueue(c.cap);
      pcs := seq(c.Main() + 1, _ => Idle);
      clients := Launch(c).clients;
      itemsConsumed, pushCounts, popCounts := 0, seq(c.producers, _ => 0), seq(c.consumers, _ => 0);
      received := seq(c.consumers, _ => []);
    }

    /** Thread `t` is inside a call: the queue object performs the action. */
    method CallTurn(t: nat)
      requires Sized(c, View()) && Q.Enabled(View().q, t)
      modifies this`pcs, queue
      ensures View() == old(Advance(c, View(), t))
    {
      var pc: Pc;
      if InPush(pcs[t]) {
        pc := queue.PushAction(t, pcs[t]);
      } else if InPop(pcs[t]) {
        pc := queue.PopAction(t, pcs[t]);
      } else {
        pc := queue.CloseAction(t, pcs[t]);
      }
      pcs := pcs[t := pc];
    }

    /** The loop of a producer: record the push, start the next one, or leave the loop. */
    method ProducerTurn(t: nat)
      requires Sized(c, View()) && Runnable(c, View(), t) && Outside(pcs[t]) && t < c.producers
      requires WorkerFits(c, View(), t)
      modifies this
      ensures View() == old(Advance(c, View(), t))
    {
      match clients[t] {
        case Producing(j) =>
          if pcs[t] == PushDone(true) {
            pushCounts := pushCounts[t := pushCounts[t] + 1];
            clients, pcs := clients[t := Producing(j + 1)], pcs[t := Idle];
          } else if pcs[t].Idle? && j < c.items {
            pcs := pcs[t := Start(queue.Fields(), Push(t * c.items + j))];
          } else if c.spsc {
            clients, pcs := clients[t := Closing], pcs[t := Start(queue.Fields(), Close)];
          } else {
            clients := clients[t := Ended];
          }
        case Closing => clients := clients[t := Ended];
      }
    }

    /** The loop of a consumer: count the popped item, record it and pop again, or leave the loop. */
    method ConsumerTurn(t: nat)
      requires Sized(c, View()) && Runnable(c, View(), t) && Outside(pcs[t]) && c.producers <= t < c.Main()
      requires WorkerFits(c, View(), t)
      modifies this
      ensures View() == old(Advance(c, View(), t))
    {
      var k := t - c.producers;
      match clients[t] {
        case Consuming =>
          if pcs[t].PopDone? && pcs[t].got.Some? {
            itemsConsumed := itemsConsumed + 1;
            received := received[k := received[k] + [pcs[t].got.value]];
            clients, pcs := clients[t := Counted], pcs[t := Idle];
          } else if pcs[t].Idle? {
            pcs := pcs[t := Start(queue.Fields(), Pop)];
          } else {
            clients := clients[t := Ended];
          }
        case Counted =>
          popCounts := popCounts[k := popCounts[k] + 1];
          clients, pcs := clients[t := Consuming], pcs[t := Start(queue.Fields(), Pop)];
      }
    }

    /** The main thread: join the producers, close (MPMC), join the consumers, shut down. */
    method MainTurn()
      requires Sized(c, View()) && Runnable(c, View(), c.Main()) && Outside(pcs[c.Main()]) && MainFits(c, View())
      modifies this
      ensures View() == old(Advance(c, View(), c.Main()))
    {
      var t := c.Main();
      match clients[t] {
        case JoinProducers(l) =>
          if 0 < l {
            clients := clients[t := JoinProducers(l - 1)];
          } else if c.spsc {
            clients := clients[t := JoinConsumers(c.consumers)];
          } else {
            clients, pcs := clients[t := MainClosing], pcs[t := Start(queue.Fields(), Close)];
          }
        case MainClosing => clients := clients[t := JoinConsumers(c.consumers)];
        case JoinConsumers(l) =>
          if 0 < l {
            clients := clients[t := JoinConsumers(l - 1)];
          } else {
            clients, pcs := clients[t := MainShutdown], pcs[t := Start(queue.Fields(), Shutdown)];
          }
        case MainShutdown => clients := clients[t := Ended];
      }
    }

    method Turn(t: nat)
      requires Roles(c, View()) && Runnable(c, View(), t)
      modifies this, queue
      ensures View() == old(Advance(c, View(), t))
    {
      if !Outside(pcs[t]) {
        CallTurn(t);
      } else if t == c.Main() {
        MainTurn();
      } else {
        assert WorkerFits(c, View(), t);
        if t < c.producers {
          ProducerTurn(t);
        } else {
          ConsumerTurn(t);
        }
      }
    }

    /** Some thread that can move performs its next action. */
    method AnyTurn()
      requires Good(c, View()) && CanFinish(c) && !Final(View())
      modifies this, queue
      ensures Good(c, View()) && Measure(c, View()) < old(Measure(c, View()))
    {
      Progress(c, View());
      var t: nat :| t <= c.Main() && Runnable(c, View(), t);
      AdvanceGood(c, View(), t);
      AdvanceMeasure(c, View(), t);
      Turn(t);
    }

    /** Runs the benchmark under an arbitrary scheduler until every thread has ended. */
    method Run()
      requires c.Valid() && CanFinish(c) && View() == Launch(c)
      modifies this, queue
      ensures Good(c, View()) && Final(View())
      ensures itemsConsumed == c.Total() && queue.queue == []
      ensures forall p | 0 <= p < c.producers :: pushCounts[p] == c.items
      ensures c.spsc ==> received[0] == Range(0, c.items)
    {
      LaunchGood(c);
      while exists t | 0 <= t <= c.Main() :: !clients[t].Ended?
        invariant Good(c, View())
        decreases Measure(c, View())
      {
        MeasureNonNegative(c, View());
        AnyTurn();
      }
      FinalIsClosed(c, View());
      if c.spsc {
        GoodReceived(c, View());
      }
    }
  }
}

// What holds of every run of the network, and how every maximal run ends.
module NetworkTheorems {
  import opened Options
  import opened StreamProtocol
  import opened MergeOrder
  import opened Tally
  import opened Network
  import opened NetworkInvariant
  import opened NetworkSafety

  // ---- Determinacy ----

  // Whatever the schedule, the consumer has printed an initial part of the one
  // sorted merge of 3, 6, 9, ... and 5, 10, 15, ...
  lemma PrintedIsPrefixOfMerge(schedule: seq<nat>, net: Net)
    requires Execute(schedule) == Some(net)
    ensures net.threads[CONS].Consumer? && |net.threads[CONS].got| <= TO_CONSUME
    ensures net.threads[CONS].got == Output(Fives, Threes, |net.threads[CONS].got|)
    ensures net.threads[CONS].got <= [3, 5, 6, 9, 10, 12, 15, 15, 18, 20]
    ensures forall k | 0 <= k < |net.threads[CONS].got| :: IsRanked(net.threads[CONS].got[k], k)
  {
    RunsKeepInvariant(schedule);
    var th := net.threads[CONS];
    assert Fits(CONS, th, net.ops[CONS]);
    assert ThreadKeeps(CONS, th, net.ops[CONS], net.streams, net.heap);
    FirstFifteen();
    forall k | 0 <= k < |th.got| ensures IsRanked(th.got[k], k) {
      MergedIsRanked(k);
    }
  }

  // ---- Tokens ----

  // Every token ever allocated is in exactly one place: one queue, one thread's
  // hands, or freed, once. What is allocated and not freed is the heap.
  lemma EachTokenInOnePlace(schedule: seq<nat>, net: Net, x: Token) returns (p: nat)
    requires Execute(schedule) == Some(net) && x < net.next
    ensures p < 12 && Copies(net, x)[p] == 1
    ensures forall q | 0 <= q < 12 && q != p :: Copies(net, x)[q] == 0
    ensures x in net.heap <==> p != FREED
  {
    RunsKeepInvariant(schedule);
    p := SumOfOne(Copies(net, x));
  }

  // The tokens whose memory the next local action of a thread reads, writes or frees.
  function Touched(th: Thread): seq<Option<Token>> {
    match th
    case Successor(_) => []
    case Times(value) => [value]
    case Merge(a, b, _) => [a, b]
    case Consumer(i, value, _) => if i < TO_CONSUME then [value] else []
  }

  lemma TouchedIsHeld(t: nat, th: Thread, op: Op, streams: seq<Stream>, heap: map<Token, int>, k: nat)
    requires Fits(t, th, op) && |streams| == STREAMS && ThreadKeeps(t, th, op, streams, heap)
    requires op.Idle? && k < |Touched(th)|
    ensures CanWork(th, heap) && Readable(Touched(th)[k], heap) && Held(th, op, Touched(th)[k].value) > 0
  {
  }

  // A thread only touches tokens that are live and that it alone holds; so it
  // never touches one it has put, and no wait or fault stops its local work.
  lemma TouchedIsExclusive(schedule: seq<nat>, net: Net, t: nat, k: nat)
    requires Execute(schedule) == Some(net) && t < THREADS && net.ops[t].Idle?
    requires k < |Touched(net.threads[t])|
    ensures Enabled(net, t) && OwnedAlone(net, t, Touched(net.threads[t])[k])
  {
    RunsKeepInvariant(schedule);
    assert ThreadKeeps(t, net.threads[t], net.ops[t], net.streams, net.heap);
    TouchedIsHeld(t, net.threads[t], net.ops[t], net.streams, net.heap, k);
    OnceIsAtMostOnce(net);
    HeldIsOwned(net, t, Touched(net.threads[t])[k].value);
  }

  // ---- Bounds ----

  lemma QueueBounds(net: Net, s: nat)
    requires Shape(net) && AllBalanced(net.streams, net.ops) && s < STREAMS
    ensures net.streams[s].taken <= net.streams[s].sent <= net.streams[s].taken + BUFFER_SIZE
  {
    assert Balanced(net.streams[s], net.ops, s);
  }

  // The most that can be sent over and taken from each stream.
  const MOST_SENT: seq<nat> := [22, 17, 16, 11, 15]
  const MOST_TAKEN: seq<nat> := [17, 12, 11, 6, 10]

  lemma MergeBounds(net: Net)
    requires Invariant(net)
    ensures net.streams[MRG].taken <= 10 && net.streams[MRG].sent <= 15
    ensures net.streams[TMS1].taken <= 11 && net.streams[TMS2].taken <= 6
  {
    assert Fits(CONS, net.threads[CONS], net.ops[CONS]) && Fits(MRG, net.threads[MRG], net.ops[MRG]);
    assert ThreadKeeps(CONS, net.threads[CONS], net.ops[CONS], net.streams, net.heap);
    QueueBounds(net, MRG);
    assert ThreadKeeps(MRG, net.threads[MRG], net.ops[MRG], net.streams, net.heap);
    PicksMonotone(Fives, Threes, net.streams[MRG].sent, 15);
    FirstFifteen();
  }

  lemma TimesBounds(net: Net, t: nat)
    requires Invariant(net) && (t == TMS1 || t == TMS2)
    ensures net.streams[Feed(t)].taken <= net.streams[t].sent + 1
  {
    assert Fits(t, net.threads[t], net.ops[t]);
    assert ThreadKeeps(t, net.threads[t], net.ops[t], net.streams, net.heap);
  }

  lemma CountsBounded(net: Net)
    requires Invariant(net)
    ensures forall s | 0 <= s < STREAMS :: net.streams[s].sent <= MOST_SENT[s] && net.streams[s].taken <= MOST_TAKEN[s]
  {
    MergeBounds(net);
    QueueBounds(net, TMS1);
    QueueBounds(net, TMS2);
    TimesBounds(net, TMS1);
    TimesBounds(net, TMS2);
    QueueBounds(net, SUC1);
    QueueBounds(net, SUC2);
    forall s | 0 <= s < STREAMS
      ensures net.streams[s].sent <= MOST_SENT[s] && net.streams[s].taken <= MOST_TAKEN[s]
    {
      assert s == SUC1 || s == SUC2 || s == TMS1 || s == TMS2 || s == MRG;
    }
  }

  lemma SuccessorBounded(net: Net, t: nat)
    requires Invariant(net) && (t == SUC1 || t == SUC2)
    ensures net.threads[t].Successor? && 1 <= net.threads[t].i <= net.streams[t].sent + 1
  {
    assert Fits(t, net.threads[t], net.ops[t]);
    assert ThreadKeeps(t, net.threads[t], net.ops[t], net.streams, net.heap);
  }

  // The product a times thread is about to form.
  function Product(net: Net, t: nat): int
    requires Shape(net) && (t == TMS1 || t == TMS2) && net.ops[t].Idle? && Enabled(net, t)
  {
    assert Fits(t, net.threads[t], net.ops[t]);
    net.heap[net.threads[t].value.value] * Factor(t)
  }

  lemma ProductIsNext(net: Net, t: nat)
    requires Invariant(net) && (t == TMS1 || t == TMS2) && net.ops[t].Idle? && Enabled(net, t)
    ensures Product(net, t) == net.streams[Feed(t)].taken * Factor(t) && net.streams[Feed(t)].taken > 0
  {
    assert Fits(t, net.threads[t], net.ops[t]);
    assert ThreadKeeps(t, net.threads[t], net.ops[t], net.streams, net.heap);
  }

  // Back-pressure bounds the arithmetic: the successors never count beyond 23
  // and 18, and no product formed in place exceeds 60.
  lemma ArithmeticBounded(schedule: seq<nat>, net: Net)
    requires Execute(schedule) == Some(net)
    ensures net.threads[SUC1].Successor? && 1 <= net.threads[SUC1].i <= 23
    ensures net.threads[SUC2].Successor? && 1 <= net.threads[SUC2].i <= 18
    ensures forall t | TMS1 <= t <= TMS2 && net.ops[t].Idle? && Enabled(net, t) :: 3 <= Product(net, t) <= 60
  {
    RunsKeepInvariant(schedule);
    CountsBounded(net);
    SuccessorBounded(net, SUC1);
    SuccessorBounded(net, SUC2);
    forall t | TMS1 <= t <= TMS2 && net.ops[t].Idle? && Enabled(net, t) ensures 3 <= Product(net, t) <= 60 {
      ProductIsNext(net, t);
      assert net.streams[Feed(t)].taken <= MOST_TAKEN[Feed(t)];
    }
  }

  // ---- Progress ----

  // A thread that is past its two waits, in particular one that holds a mutex,
  // is never blocked; one that is not in a put or a get works on, until the
  // consumer has its ten tokens.
  lemma BlockedOnlyInWaits(net: Net, t: nat)
    requires Invariant(net) && t < THREADS && !Enabled(net, t)
    ensures !net.ops[t].Idle? ==> net.ops[t].at == Claim || net.ops[t].at == Lock
    ensures net.ops[t].Idle? ==> net.threads[t].Consumer? && net.threads[t].i == TO_CONSUME
  {
    assert Fits(t, net.threads[t], net.ops[t]);
    assert ThreadKeeps(t, net.threads[t], net.ops[t], net.streams, net.heap);
  }

  // Whoever waits for a mutex waits for a thread that can go on.
  lemma MutexHolderRuns(net: Net, s: nat) returns (u: nat)
    requires Shape(net) && AllBalanced(net.streams, net.ops) && s < STREAMS && net.streams[s].mutex == 0
    ensures u < THREADS && Enabled(net, u)
  {
    assert Balanced(net.streams[s], net.ops, s);
    u := SumHasPart(Weights(net.ops, s, Mutex));
    assert Weight(net.ops[u], s, Mutex) > 0;
  }

  lemma StuckAtClaim(net: Net, t: nat)
    requires Invariant(net) && Stuck(net) && t < THREADS
    ensures EmptyHanded(net.ops[t])
  {
    assert !Enabled(net, t);
    BlockedOnlyInWaits(net, t);
    if !net.ops[t].Idle? && net.ops[t].at == Lock {
      var u := MutexHolderRuns(net, net.ops[t].s);
      assert false;
    }
  }

  // With nobody past its first wait, a blocked put faces a full queue and a
  // blocked get an empty one.
  lemma StuckQueues(net: Net, t: nat)
    requires Invariant(net) && Stuck(net) && t < THREADS && !net.ops[t].Idle?
    ensures |net.streams[net.ops[t].s].buffer| == if net.ops[t].Put? then BUFFER_SIZE else 0
  {
    var s := net.ops[t].s;
    forall u | 0 <= u < THREADS ensures EmptyHanded(net.ops[u]) {
      StuckAtClaim(net, u);
    }
    NothingInFlight(net.ops, s);
    assert Balanced(net.streams[s], net.ops, s);
    assert !Enabled(net, t);
  }

  // The successors wait for room; hence so do the times threads, and merge; and
  // then the consumer cannot be waiting.
  lemma StuckMeansFull(net: Net)
    requires Invariant(net) && Stuck(net)
    ensures forall s | 0 <= s < STREAMS :: |net.streams[s].buffer| == BUFFER_SIZE
    ensures forall t | 0 <= t < STREAMS :: net.ops[t].Put? && net.ops[t].s == t && net.ops[t].at == Claim
    ensures net.ops[CONS].Idle?
  {
    forall t | 0 <= t < THREADS
      ensures Fits(t, net.threads[t], net.ops[t]) && EmptyHanded(net.ops[t])
      ensures net.ops[t].Idle? ==> net.threads[t].Consumer?
      ensures !net.ops[t].Idle? ==>
        |net.streams[net.ops[t].s].buffer| == if net.ops[t].Put? then BUFFER_SIZE else 0
    {
      StuckAtClaim(net, t);
      assert !Enabled(net, t);
      BlockedOnlyInWaits(net, t);
      if !net.ops[t].Idle? {
        StuckQueues(net, t);
      }
    }
    StuckChain(net.threads, net.ops, net.streams);
  }

  lemma StuckChain(threads: seq<Thread>, ops: seq<Op>, streams: seq<Stream>)
    requires |threads| == |ops| == THREADS && |streams| == STREAMS
    requires forall t | 0 <= t < THREADS :: Fits(t, threads[t], ops[t])
    requires forall t | 0 <= t < THREADS :: ops[t].Idle? ==> threads[t].Consumer?
    requires forall t | 0 <= t < THREADS :: !ops[t].Idle? ==>
      ops[t].s < STREAMS && |streams[ops[t].s].buffer| == if ops[t].Put? then BUFFER_SIZE else 0
    ensures forall t | 0 <= t < STREAMS :: ops[t].Put? && ops[t].s == t && |streams[t].buffer| == BUFFER_SIZE
    ensures ops[CONS].Idle?
  {
    assert Fits(SUC1, threads[SUC1], ops[SUC1]) && Fits(SUC2, threads[SUC2], ops[SUC2]);
    assert ops[SUC1].Put? && ops[SUC2].Put?;
    assert Fits(TMS1, threads[TMS1], ops[TMS1]) && Fits(TMS2, threads[TMS2], ops[TMS2]);
    assert ops[TMS1].Put? && ops[TMS2].Put?;
    assert Fits(MRG, threads[MRG], ops[MRG]);
    assert ops[MRG].Put?;
    assert Fits(CONS, threads[CONS], ops[CONS]);
    assert ops[CONS].Idle?;
    forall t | 0 <= t < STREAMS ensures ops[t].Put? && ops[t].s == t && |streams[t].buffer| == BUFFER_SIZE {
      assert t == SUC1 || t == SUC2 || t == TMS1 || t == TMS2 || t == MRG;
    }
  }

  // The values left in the queues.
  const LEFT: seq<seq<int>> := [
    [18, 19, 20, 21, 22],
    [13, 14, 15, 16, 17],
    [36, 39, 42, 45, 48],
    [35, 40, 45, 50, 55],
    [21, 24, 25, 27, 30]]

  // A queue of tokens with these values.
  predicate QueueIs(buffer: seq<Token>, values: seq<int>, heap: map<Token, int>) {
    |buffer| == |values| && forall k | 0 <= k < |buffer| :: Holds(heap, buffer[k], values[k])
  }

  // The end of every maximal run.
  predicate Finished(net: Net)
    requires Shape(net)
  {
    && net.threads[CONS] == Consumer(TO_CONSUME, net.threads[CONS].value, [3, 5, 6, 9, 10, 12, 15, 15, 18, 20])
    && (forall s | 0 <= s < STREAMS ::
          && QueueIs(net.streams[s].buffer, LEFT[s], net.heap)
          && net.streams[s].sent == MOST_SENT[s] && net.streams[s].taken == MOST_TAKEN[s])
    && (forall t | 0 <= t < STREAMS :: net.ops[t].Put? && net.ops[t].at == Claim)
    && net.ops[CONS].Idle?
  }

  lemma ConsumerAtEnd(th: Thread, op: Op, taken: nat, heap: map<Token, int>)
    requires th.Consumer? && op.Idle? && th.i == TO_CONSUME && ConsumerKeeps(th.i, th.value, th.got, op, taken, heap)
    ensures th.got == [3, 5, 6, 9, 10, 12, 15, 15, 18, 20] && taken == TO_CONSUME
  {
    FirstFifteen();
  }

  lemma StuckConsumer(net: Net)
    requires Invariant(net) && Stuck(net)
    ensures net.threads[CONS] == Consumer(TO_CONSUME, net.threads[CONS].value, [3, 5, 6, 9, 10, 12, 15, 15, 18, 20])
    ensures net.streams[MRG].taken == 10 && net.streams[MRG].sent == 15
  {
    StuckMeansFull(net);
    assert !Enabled(net, CONS);
    BlockedOnlyInWaits(net, CONS);
    assert ThreadKeeps(CONS, net.threads[CONS], net.ops[CONS], net.streams, net.heap);
    assert Balanced(net.streams[MRG], net.ops, MRG);
    ConsumerAtEnd(net.threads[CONS], net.ops[CONS], net.streams[MRG].taken, net.heap);
  }

  // While it waits to put, merge has one token of each input in hand.
  lemma MergeAtPut(th: Thread, op: Op, sent: nat, x: nat, y: nat, heap: map<Token, int>)
    requires Fits(MRG, th, op) && th.Merge? && op.Put? && op.at == Claim && MergeKeeps(th, op, sent, x, y, heap)
    ensures (x, y) == (Picks(Fives, Threes, sent).0 + 1, Picks(Fives, Threes, sent).1 + 1)
  {
  }

  lemma StuckMerge(net: Net)
    requires Invariant(net) && Stuck(net)
    ensures net.streams[TMS1].taken == 11 && net.streams[TMS2].taken == 6
  {
    StuckMeansFull(net);
    StuckConsumer(net);
    assert ThreadKeeps(MRG, net.threads[MRG], net.ops[MRG], net.streams, net.heap);
    MergeAtPut(net.threads[MRG], net.ops[MRG], 15, net.streams[TMS2].taken, net.streams[TMS1].taken, net.heap);
    FirstFifteen();
  }

  lemma StuckTimes(net: Net, t: nat)
    requires Invariant(net) && Stuck(net) && (t == TMS1 || t == TMS2)
    ensures net.streams[t].sent == net.streams[t].taken + 5
    ensures net.streams[Feed(t)].taken == net.streams[t].taken + 6
    ensures net.streams[Feed(t)].sent == net.streams[t].taken + 11
  {
    StuckMeansFull(net);
    assert Fits(t, net.threads[t], net.ops[t]);
    assert ThreadKeeps(t, net.threads[t], net.ops[t], net.streams, net.heap);
    assert Balanced(net.streams[t], net.ops, t) && Balanced(net.streams[Feed(t)], net.ops, Feed(t));
  }

  lemma LeftIsNext(s: nat, k: nat)
    requires s < STREAMS && k < BUFFER_SIZE
    ensures Value(s, MOST_TAKEN[s] + k) == LEFT[s][k]
  {
    FirstFifteen();
    if s == MRG {
      assert Output(Fives, Threes, 15)[10 + k] == Merged(Fives, Threes, 10 + k);
    }
  }

  lemma QueueLeft(s: nat, st: Stream, heap: map<Token, int>)
    requires s < STREAMS && QueueHolds(s, st, heap) && |st.buffer| == BUFFER_SIZE && st.taken == MOST_TAKEN[s]
    ensures QueueIs(st.buffer, LEFT[s], heap)
  {
    forall k | 0 <= k < BUFFER_SIZE ensures Holds(heap, st.buffer[k], LEFT[s][k]) {
      assert Holds(heap, st.buffer[k], Value(s, st.taken + k));
      LeftIsNext(s, k);
    }
  }

  lemma StuckMeansFinished(net: Net)
    requires Invariant(net) && Stuck(net)
    ensures Finished(net)
  {
    StuckCounts(net);
    StuckMeansFull(net);
    StuckConsumer(net);
    forall s | 0 <= s < STREAMS ensures QueueIs(net.streams[s].buffer, LEFT[s], net.heap) {
      assert QueueHolds(s, net.streams[s], net.heap);
      QueueLeft(s, net.streams[s], net.heap);
    }
  }

  lemma StuckCounts(net: Net)
    requires Invariant(net) && Stuck(net)
    ensures forall s | 0 <= s < STREAMS :: net.streams[s].sent == MOST_SENT[s] && net.streams[s].taken == MOST_TAKEN[s]
  {
    StuckMeansFull(net);
    StuckConsumer(net);
    StuckMerge(net);
    StuckTimes(net, TMS1);
    StuckTimes(net, TMS2);
    forall s | 0 <= s < STREAMS
      ensures net.streams[s].sent == MOST_SENT[s] && net.streams[s].taken == MOST_TAKEN[s]
    {
      assert s == SUC1 || s == SUC2 || s == TMS1 || s == TMS2 || s == MRG;
    }
  }

  // ---- Length of runs ----

  // Actions of the current put or get, counted from the last queue operation
  // on; a put is preceded by the local work that made its token.
  function OpSteps(op: Op): int {
    if op.Idle? then 0 else
    match op.at
    case Claim => if op.Put? then 1 else 0
    case Lock => if op.Put? then 2 else 1
    case Move => if op.Put? then 3 else 2
    case Unlock => -2
    case Announce => -1
  }

  // How many steps a thread has taken, read off its state and its streams.
  function StepsOf(t: nat, th: Thread, op: Op, streams: seq<Stream>): int
    requires Fits(t, th, op) && |streams| == STREAMS
  {
    OpSteps(op) +
    match th
    case Successor(_) => 6 * streams[t].sent
    case Times(_) => 6 * streams[t].sent + 5 * streams[Feed(t)].taken
    case Merge(_, _, _) => 6 * streams[MRG].sent + 5 * (streams[TMS1].taken + streams[TMS2].taken)
    case Consumer(i, _, _) => 5 * streams[MRG].taken + i
  }

  function Steps(net: Net, t: nat): int
    requires Shape(net) && t < THREADS
  {
    StepsOf(t, net.threads[t], net.ops[t], net.streams)
  }

  lemma AdvanceCounts(t: nat, th: Thread, op: Op, streams: seq<Stream>)
    requires Fits(t, th, op) && |streams| == STREAMS && !op.Idle? && op.at != Announce && CanAdvance(streams[op.s], op)
    requires op.Get? && op.at == Move ==> streams[op.s].buffer != []
    ensures var op' := AdvanceOp(streams[op.s], op);
            Fits(t, th, op') &&
            StepsOf(t, th, op', streams[op.s := AdvanceStream(streams[op.s], op)]) == StepsOf(t, th, op, streams) + 1
  {
  }

  lemma ReturnCounts(t: nat, th: Thread, op: Op, streams: seq<Stream>)
    requires Fits(t, th, op) && |streams| == STREAMS && !op.Idle? && op.at == Announce
    ensures var (th', op') := Resume(t, th, op);
            Fits(t, th', op') &&
            StepsOf(t, th', op', streams[op.s := AdvanceStream(streams[op.s], op)]) == StepsOf(t, th, op, streams) + 1
  {
  }

  lemma WorkCounts(net: Net, t: nat)
    requires Shape(net) && t < THREADS && net.ops[t].Idle? && Enabled(net, t)
    ensures Steps(Act(net, t), t) == Steps(net, t) + 1
  {
    assert Fits(t, net.threads[t], net.ops[t]);
  }

  lemma OwnStepCounts(net: Net, t: nat)
    requires Shape(net) && AllBalanced(net.streams, net.ops) && t < THREADS && Enabled(net, t)
    ensures Steps(Act(net, t), t) == Steps(net, t) + 1
  {
    var op := net.ops[t];
    if op.Idle? {
      WorkCounts(net, t);
    } else if op.at == Announce {
      ReturnCounts(t, net.threads[t], op, net.streams);
    } else {
      if op.at == Move {
        assert Balanced(net.streams[op.s], net.ops, op.s);
        MoveIsSafe(net.streams[op.s], net.ops, t);
      }
      AdvanceCounts(t, net.threads[t], op, net.streams);
    }
  }

  lemma OtherStepsCount(net: Net, net': Net, t: nat, u: nat)
    requires Shape(net) && Shape(net') && t < THREADS && u < THREADS && t != u && OthersRest(net, net', t)
    ensures Steps(net', u) == Steps(net, u)
  {
    assert Fits(u, net.threads[u], net.ops[u]) && Fits(t, net.threads[t], net.ops[t]);
  }

  lemma StepCounts(net: Net, t: nat, u: nat)
    requires Shape(net) && AllBalanced(net.streams, net.ops) && AtMostOnce(net) && HeapRight(net)
    requires t < THREADS && Enabled(net, t) && u < THREADS
    ensures Steps(Act(net, t), u) == Steps(net, u) + if t == u then 1 else 0
  {
    if t == u {
      OwnStepCounts(net, t);
    } else {
      StepRests(net, t);
      OtherStepsCount(net, Act(net, t), t, u);
    }
  }

  // The schedule names thread t once for each of its steps.
  lemma {:induction false} ScheduleCounts(schedule: seq<nat>, net: Net, t: nat)
    requires Execute(schedule) == Some(net) && t < THREADS
    ensures multiset(schedule)[t] == Steps(net, t)
    decreases |schedule|
  {
    if schedule == [] {
      assert Fits(t, net.threads[t], net.ops[t]);
    } else {
      var before, last := schedule[..|schedule|-1], schedule[|schedule|-1];
      assert schedule == before + [last];
      var prev := Execute(before).value;
      RunsKeepInvariant(before);
      ScheduleCounts(before, prev, t);
      OnceIsAtMostOnce(prev);
      StepCounts(prev, last, t);
    }
  }

  function TotalSteps(net: Net): int
    requires Shape(net)
  {
    Steps(net, SUC1) + Steps(net, SUC2) + Steps(net, TMS1) + Steps(net, TMS2) + Steps(net, MRG) + Steps(net, CONS)
  }

  lemma {:induction false} ScheduleLength(schedule: seq<nat>, net: Net)
    requires Execute(schedule) == Some(net)
    ensures |schedule| == TotalSteps(net)
    decreases |schedule|
  {
    if schedule != [] {
      var before, t := schedule[..|schedule|-1], schedule[|schedule|-1];
      var prev := Execute(before).value;
      RunsKeepInvariant(before);
      ScheduleLength(before, prev);
      OnceIsAtMostOnce(prev);
      StepCountsOnce(prev, t);
    }
  }

  lemma StepCountsOnce(net: Net, t: nat)
    requires Shape(net) && AllBalanced(net.streams, net.ops) && AtMostOnce(net) && HeapRight(net)
    requires t < THREADS && Enabled(net, t)
    ensures TotalSteps(Act(net, t)) == TotalSteps(net) + 1
  {
    forall u | 0 <= u < THREADS ensures Steps(Act(net, t), u) == Steps(net, u) + if t == u then 1 else 0 {
      StepCounts(net, t, u);
    }
  }

  // Steps per thread in a maximal run, and their sum.
  const STEPS: seq<nat> := [133, 103, 182, 127, 176, 60]
  const RUN_LENGTH: nat := 781

  lemma FinishedCounts(net: Net)
    requires Shape(net) && Finished(net)
    ensures forall t | 0 <= t < THREADS :: Steps(net, t) == STEPS[t]
    ensures TotalSteps(net) == RUN_LENGTH
  {
    forall t | 0 <= t < THREADS ensures Steps(net, t) == STEPS[t] {
      assert Fits(t, net.threads[t], net.ops[t]);
    }
  }

  // Nobody can go on.
  predicate Maximal(schedule: seq<nat>) {
    Execute(schedule).Some? && Stuck(Execute(schedule).value)
  }

  // Every maximal run, however scheduled, prints the ten values, leaves every
  // queue full, and takes the same number of steps of each thread.
  lemma MaximalRunsAgree(schedule: seq<nat>, t: nat)
    requires Maximal(schedule) && t < THREADS
    ensures Finished(Execute(schedule).value)
    ensures |schedule| == RUN_LENGTH && multiset(schedule)[t] == STEPS[t]
  {
    var net := Execute(schedule).value;
    RunsKeepInvariant(schedule);
    StuckMeansFinished(net);
    FinishedCounts(net);
    ScheduleLength(schedule, net);
    ScheduleCounts(schedule, net, t);
  }

  lemma StepsBounded(net: Net, t: nat)
    requires Invariant(net) && t < THREADS
    ensures Steps(net, t) <= 200
  {
    CountsBounded(net);
    assert ThreadKeeps(t, net.threads[t], net.ops[t], net.streams, net.heap);
    StepsOfBounded(t, net.threads[t], net.ops[t], net.streams);
  }

  lemma StepsOfBounded(t: nat, th: Thread, op: Op, streams: seq<Stream>)
    requires Fits(t, th, op) && |streams| == STREAMS && (th.Consumer? ==> th.i <= TO_CONSUME)
    requires forall s | 0 <= s < STREAMS :: streams[s].sent <= MOST_SENT[s] && streams[s].taken <= MOST_TAKEN[s]
    ensures StepsOf(t, th, op, streams) <= 200
  {
  }

  lemma LengthBounded(schedule: seq<nat>)
    requires Execute(schedule).Some?
    ensures |schedule| <= 1200
  {
    var net := Execute(schedule).value;
    RunsKeepInvariant(schedule);
    ScheduleLength(schedule, net);
    forall t | 0 <= t < THREADS ensures Steps(net, t) <= 200 {
      StepsBounded(net, t);
    }
  }

  lemma OneMoreStep(schedule: seq<nat>) returns (t: nat)
    requires Execute(schedule).Some? && !Stuck(Execute(schedule).value)
    ensures Execute(schedule + [t]).Some? && |schedule| < 1200
  {
    t :| t < THREADS && Enabled(Execute(schedule).value, t);
    assert (schedule + [t])[..|schedule|] == schedule;
    LengthBounded(schedule + [t]);
  }

  lemma Regroup(schedule: seq<nat>, more: seq<nat>, rest: seq<nat>)
    ensures schedule + (more + rest) == schedule + more + rest
  {
  }

  // No fairness is needed: every run can be continued to a maximal one.
  lemma {:induction false} RunsCanFinish(schedule: seq<nat>) returns (rest: seq<nat>)
    requires Execute(schedule).Some?
    ensures Maximal(schedule + rest)
    decreases 1200 - |schedule|
  {
    if Stuck(Execute(schedule).value) {
      rest := [];
      assert schedule + rest == schedule;
    } else {
      var t := OneMoreStep(schedule);
      var more := RunsCanFinish(schedule + [t]);
      rest := [t] + more;
      Regroup(schedule, [t], more);
    }
  }

  // Every run is finite: no thread ever takes more steps than in a maximal run.
  lemma RunsAreFinite(schedule: seq<nat>, t: nat)
    requires Execute(schedule).Some? && t < THREADS
    ensures |schedule| <= RUN_LENGTH && multiset(schedule)[t] <= STEPS[t]
  {
    var rest := RunsCanFinish(schedule);
    MaximalRunsAgree(schedule + rest, t);
    assert multiset(schedule + rest) == multiset(schedule) + multiset(rest);
  }

  // Until the network has finished, some thread can step; and then none can.
  lemma DeadlockFree(schedule: seq<nat>, net: Net)
    requires Execute(schedule) == Some(net)
    ensures Stuck(net) <==> Finished(net)
    ensures net.threads[CONS].Consumer? && (net.threads[CONS].i < TO_CONSUME ==> !Stuck(net))
  {
    RunsKeepInvariant(schedule);
    assert Fits(CONS, net.threads[CONS], net.ops[CONS]);
    if Stuck(net) {
      StuckMeansFinished(net);
    } else if Finished(net) {
      var t: nat :| t < THREADS && Enabled(net, t);
      FinishedIsStuck(net, t);
    }
  }

  lemma FinishedIsStuck(net: Net, t: nat)
    requires Invariant(net) && Finished(net) && t < THREADS
    ensures !Enabled(net, t)
  {
    if t != CONS {
      assert Fits(t, net.threads[t], net.ops[t]);
      assert Balanced(net.streams[t], net.ops, t);
    }
  }
}

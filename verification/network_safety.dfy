// Proof that every step keeps the invariant, one kind of step at a time.
module NetworkSafety {
  import opened Options
  import opened StreamProtocol
  import opened MergeOrder
  import opened Tally
  import opened Network
  import opened NetworkInvariant

  // ---- Semaphores ----

  lemma StepKeepsBalance(net: Net, t: nat)
    requires Shape(net) && AllBalanced(net.streams, net.ops) && t < THREADS && Enabled(net, t)
    ensures AllBalanced(Act(net, t).streams, Act(net, t).ops)
    ensures Lossless(net.streams) ==> Lossless(Act(net, t).streams)
  {
    var op, net' := net.ops[t], Act(net, t);
    if op.Idle? {
      BeginKeepsBalance(net.streams, net.ops, t, net'.ops[t]);
      assert net'.ops == net.ops[t := net'.ops[t]];
    } else {
      AdvanceKeepsBalance(net.streams, net.ops, t);
      if op.at == Announce {
        ReturnKeepsBalance(net'.streams, net.ops, t, net'.ops[t]);
        assert net'.ops == net.ops[t := net'.ops[t]];
      }
    }
  }

  // A thread that has returned from a put or get may begin the next at once.
  lemma ReturnKeepsBalance(streams: seq<Stream>, ops: seq<Op>, t: nat, op: Op)
    requires t < |ops| && EmptyHanded(op) && AllBalanced(streams, ops[t := Idle])
    ensures AllBalanced(streams, ops[t := op])
  {
    BeginKeepsBalance(streams, ops[t := Idle], t, op);
    assert ops[t := Idle][t := op] == ops[t := op];
  }

  // ---- Tokens ----

  // What each kind of action does to the tokens its thread holds.

  lemma WaitingKeepsHeld(t: nat, th: Thread, op: Op, st: Stream, x: Token)
    requires Fits(t, th, op) && !op.Idle? && op.at != Move && op.at != Announce
    ensures Held(th, AdvanceOp(st, op), x) == Held(th, op, x)
  {
  }

  lemma EnqueueDropsHeld(t: nat, th: Thread, op: Op, x: Token)
    requires Fits(t, th, op) && op.Put? && op.at == Move
    ensures Held(th, At(op, Unlock), x) + (if x == op.tok then 1 else 0) == Held(th, op, x)
  {
  }

  lemma DequeueAddsHeld(t: nat, th: Thread, op: Op, y: Token, x: Token)
    requires Fits(t, th, op) && op.Get? && op.at == Move
    ensures Held(th, Get(op.s, Some(y), Unlock), x) == Held(th, op, x) + (if x == y then 1 else 0)
  {
  }

  lemma ResumeKeepsHeld(t: nat, th: Thread, op: Op, x: Token)
    requires Fits(t, th, op) && !op.Idle? && op.at == Announce
    requires th.Consumer? ==> th.i < TO_CONSUME
    ensures Held(Resume(t, th, op).0, Resume(t, th, op).1, x) == Held(th, op, x)
  {
  }

  lemma WorkChangesHeld(net: Net, t: nat, x: Token)
    requires Shape(net) && t < THREADS && net.ops[t].Idle? && Enabled(net, t)
    ensures var th, held := net.threads[t], Held(net.threads[t], net.ops[t], x);
            Held(Work(net, t).threads[t], Work(net, t).ops[t], x) ==
              if th.Successor? && x == net.next then held + 1
              else if th.Consumer? && th.value == Some(x) then held - 1
              else held
  {
    assert Fits(t, net.threads[t], net.ops[t]);
  }

  // Only thread t and queue s may differ.
  predicate SameElsewhere(net: Net, net': Net, t: nat, s: nat)
    requires Shape(net) && Shape(net')
  {
    && (forall u | 0 <= u < THREADS && u != t :: net'.threads[u] == net.threads[u] && net'.ops[u] == net.ops[u])
    && (forall r | 0 <= r < STREAMS && r != s :: net'.streams[r].buffer == net.streams[r].buffer)
  }

  // The change in the number of copies of x is the change in hand t, queue s and the freed.
  lemma CopiesAfter(net: Net, net': Net, t: nat, s: nat, x: Token)
    requires Shape(net) && Shape(net') && t < THREADS && s < STREAMS && SameElsewhere(net, net', t, s)
    ensures Sum(Copies(net', x)) - Sum(Copies(net, x)) ==
              Held(net'.threads[t], net'.ops[t], x) - Held(net.threads[t], net.ops[t], x)
            + multiset(net'.streams[s].buffer)[x] - multiset(net.streams[s].buffer)[x]
            + net'.freed[x] - net.freed[x]
  {
    var c, c' := Copies(net, x), Copies(net', x);
    var c1 := c[HandOf(t) := c'[HandOf(t)]];
    var c2 := c1[s := c'[s]];
    SumUpdate(c, HandOf(t), c'[HandOf(t)]);
    SumUpdate(c1, s, c'[s]);
    SumUpdate(c2, FREED, c'[FREED]);
    forall k | 0 <= k < 12 ensures c'[k] == c2[FREED := c'[FREED]][k] {
      if STREAMS <= k < FREED {
        assert k == HandOf(k - STREAMS);
      }
    }
    assert c' == c2[FREED := c'[FREED]];
  }

  lemma WorkStaysLocal(net: Net, t: nat, x: Token)
    requires Shape(net) && t < THREADS && net.ops[t].Idle? && Enabled(net, t)
    ensures Shape(Work(net, t)) && Work(net, t).streams == net.streams && SameElsewhere(net, Work(net, t), t, 0)
    ensures Work(net, t).freed[x] ==
              net.freed[x] + if net.threads[t].Consumer? && net.threads[t].value == Some(x) then 1 else 0
  {
    assert Work(net, t) == Act(net, t);
  }

  lemma WorkKeepsTokens(net: Net, t: nat, x: Token)
    requires Shape(net) && t < THREADS && net.ops[t].Idle? && Enabled(net, t)
    ensures Sum(Copies(Work(net, t), x)) ==
              Sum(Copies(net, x)) + if net.threads[t].Successor? && x == net.next then 1 else 0
  {
    WorkStaysLocal(net, t, x);
    WorkChangesHeld(net, t, x);
    CopiesAfter(net, Work(net, t), t, 0, x);
  }

  // A put or get of t did something, to its own stream.
  predicate OpMoved(net: Net, net': Net, t: nat)
    requires Shape(net) && Shape(net') && t < THREADS && !net.ops[t].Idle?
  {
    var s := net.ops[t].s;
    && net'.heap == net.heap && net'.next == net.next && net'.freed == net.freed
    && net'.threads == net.threads[t := net'.threads[t]] && net'.ops == net.ops[t := net'.ops[t]]
    && net'.streams == net.streams[s := net'.streams[s]]
    && (net.ops[t].Get? ==> net'.streams[s].sent == net.streams[s].sent)
    && (net.ops[t].Put? ==> net'.streams[s].taken == net.streams[s].taken)
  }

  lemma ActIsOp(net: Net, t: nat)
    requires Shape(net) && t < THREADS && !net.ops[t].Idle? && Enabled(net, t)
    ensures OpMoved(net, Act(net, t), t)
  {
  }

  lemma OpCopies(net: Net, net': Net, t: nat, x: Token)
    requires Shape(net) && Shape(net') && t < THREADS && !net.ops[t].Idle? && OpMoved(net, net', t)
    ensures Sum(Copies(net', x)) - Sum(Copies(net, x)) ==
              Held(net'.threads[t], net'.ops[t], x) - Held(net.threads[t], net.ops[t], x)
            + multiset(net'.streams[net.ops[t].s].buffer)[x] - multiset(net.streams[net.ops[t].s].buffer)[x]
  {
    CopiesAfter(net, net', t, net.ops[t].s, x);
  }

  lemma EnqueueKeepsTokens(net: Net, t: nat, x: Token)
    requires Shape(net) && t < THREADS && net.ops[t].Put? && net.ops[t].at == Move
    ensures Sum(Copies(Act(net, t), x)) == Sum(Copies(net, x))
  {
    ActIsOp(net, t);
    EnqueueDropsHeld(t, net.threads[t], net.ops[t], x);
    OpCopies(net, Act(net, t), t, x);
  }

  lemma CopiesInTail(b: seq<Token>, x: Token)
    requires b != []
    ensures multiset(b)[x] == multiset(b[1..])[x] + if x == b[0] then 1 else 0
  {
    assert b == [b[0]] + b[1..];
  }

  lemma DequeueKeepsTokens(net: Net, t: nat, x: Token)
    requires Shape(net) && t < THREADS && net.ops[t].Get? && net.ops[t].at == Move
    requires net.streams[net.ops[t].s].buffer != []
    ensures Sum(Copies(Act(net, t), x)) == Sum(Copies(net, x))
  {
    var b := net.streams[net.ops[t].s].buffer;
    ActIsOp(net, t);
    DequeueAddsHeld(t, net.threads[t], net.ops[t], b[0], x);
    CopiesInTail(b, x);
    OpCopies(net, Act(net, t), t, x);
  }

  lemma OtherStepsKeepTokens(net: Net, t: nat, x: Token)
    requires Shape(net) && t < THREADS && !net.ops[t].Idle? && net.ops[t].at != Move && Enabled(net, t)
    requires net.threads[t].Consumer? ==> net.threads[t].i < TO_CONSUME
    ensures Sum(Copies(Act(net, t), x)) == Sum(Copies(net, x))
  {
    var op, th := net.ops[t], net.threads[t];
    ActIsOp(net, t);
    if op.at == Announce {
      ResumeKeepsHeld(t, th, op, x);
    } else {
      WaitingKeepsHeld(t, th, op, net.streams[op.s], x);
    }
    OpCopies(net, Act(net, t), t, x);
  }

  // The only step that brings in a token is a successor's allocation.
  lemma StepCopies(net: Net, t: nat, x: Token)
    requires Shape(net) && t < THREADS && Enabled(net, t)
    requires !net.ops[t].Idle? ==> Balanced(net.streams[net.ops[t].s], net.ops, net.ops[t].s)
    requires net.threads[t].Consumer? && !net.ops[t].Idle? ==> net.threads[t].i < TO_CONSUME
    ensures Sum(Copies(Act(net, t), x)) ==
              Sum(Copies(net, x)) + if net.ops[t].Idle? && net.threads[t].Successor? && x == net.next then 1 else 0
  {
    var op := net.ops[t];
    if op.Idle? {
      WorkKeepsTokens(net, t, x);
    } else if op.at == Move {
      MoveIsSafe(net.streams[op.s], net.ops, t);
      if op.Put? { EnqueueKeepsTokens(net, t, x); } else { DequeueKeepsTokens(net, t, x); }
    } else {
      OtherStepsKeepTokens(net, t, x);
    }
  }

  lemma StepKeepsTokens(net: Net, t: nat)
    requires Invariant(net) && t < THREADS && Enabled(net, t)
    ensures EachOnce(Act(net, t))
  {
    assert ThreadKeeps(t, net.threads[t], net.ops[t], net.streams, net.heap);
    NextAfter(net, t);
    forall x: Token ensures Sum(Copies(Act(net, t), x)) == if x < Act(net, t).next then 1 else 0 {
      StepCopies(net, t, x);
    }
  }

  lemma NextAfter(net: Net, t: nat)
    requires Shape(net) && t < THREADS && Enabled(net, t)
    ensures Act(net, t).next == net.next + if net.ops[t].Idle? && net.threads[t].Successor? then 1 else 0
  {
  }

  // Enough for exclusive access: a token may also have gone missing.
  ghost predicate AtMostOnce(net: Net)
    requires Shape(net)
  {
    forall x: Token :: Sum(Copies(net, x)) <= if x < net.next then 1 else 0
  }

  lemma OnceIsAtMostOnce(net: Net)
    requires Shape(net) && EachOnce(net)
    ensures AtMostOnce(net)
  {
    forall x: Token ensures Sum(Copies(net, x)) <= if x < net.next then 1 else 0 {
    }
  }

  // Nobody else can get at a token a thread holds.
  lemma HeldAlone(net: Net, t: nat, x: Token)
    requires Shape(net) && AtMostOnce(net) && t < THREADS && Held(net.threads[t], net.ops[t], x) > 0
    ensures x < net.next && x !in net.freed
    ensures forall s | 0 <= s < STREAMS :: x !in net.streams[s].buffer
    ensures forall u | 0 <= u < THREADS && u != t :: Held(net.threads[u], net.ops[u], x) == 0
  {
    var c := Copies(net, x);
    SumIncludes(c, HandOf(t));
    var p := SumOfOne(c);
    assert p == HandOf(t);
    forall s | 0 <= s < STREAMS ensures x !in net.streams[s].buffer {
      assert c[s] == 0;
    }
    forall u | 0 <= u < THREADS && u != t ensures Held(net.threads[u], net.ops[u], x) == 0 {
      assert c[HandOf(u)] == 0;
    }
  }

  // Token p is live and thread t alone has it.
  predicate OwnedAlone(net: Net, t: nat, p: Option<Token>)
    requires Shape(net) && t < THREADS
  {
    && p.Some? && p.value in net.heap
    && Held(net.threads[t], net.ops[t], p.value) == 1
    && (forall s | 0 <= s < STREAMS :: p.value !in net.streams[s].buffer)
    && (forall u | 0 <= u < THREADS && u != t :: Held(net.threads[u], net.ops[u], p.value) == 0)
  }

  lemma HeldIsOwned(net: Net, t: nat, x: Token)
    requires Shape(net) && AtMostOnce(net) && t < THREADS && x in net.heap && Held(net.threads[t], net.ops[t], x) > 0
    ensures OwnedAlone(net, t, Some(x))
  {
    HeldAlone(net, t, x);
    SumIncludes(Copies(net, x), HandOf(t));
    assert Sum(Copies(net, x)) <= 1;
  }

  // ---- Values ----

  // Which thread takes tokens from stream s.
  function Reader(s: nat): nat {
    if s == SUC1 then TMS1 else if s == SUC2 then TMS2 else if s == MRG then CONS else MRG
  }

  // A thread's facts survive whatever leaves its counts and its tokens alone.
  lemma ThreadFrame(t: nat, th: Thread, op: Op, streams: seq<Stream>, streams': seq<Stream>,
                    heap: map<Token, int>, heap': map<Token, int>)
    requires Fits(t, th, op) && |streams| == |streams'| == STREAMS
    requires ThreadKeeps(t, th, op, streams, heap)
    requires t < STREAMS ==> streams'[t].sent == streams[t].sent
    requires forall s | 0 <= s < STREAMS && Reader(s) == t :: streams'[s].taken == streams[s].taken
    requires forall x | x in heap && Held(th, op, x) > 0 :: x in heap' && heap'[x] == heap[x]
    ensures ThreadKeeps(t, th, op, streams', heap')
  {
    match th
    case Successor(_) =>
    case Times(_) => assert Reader(Feed(t)) == t;
    case Merge(_, _, _) => assert Reader(TMS1) == Reader(TMS2) == t;
    case Consumer(_, _, _) => assert Reader(MRG) == t;
  }

  // The heap changes at most at a token thread t holds, or grows.
  ghost predicate HeapRests(net: Net, net': Net, t: nat)
    requires Shape(net) && t < THREADS
  {
    forall x | x in net.heap && Held(net.threads[t], net.ops[t], x) == 0 ::
      x in net'.heap && net'.heap[x] == net.heap[x]
  }

  // Only thread t moved, and no count another thread relies on has changed.
  predicate OthersRest(net: Net, net': Net, t: nat)
    requires Shape(net) && Shape(net') && t < THREADS
  {
    && (forall u | 0 <= u < THREADS && u != t :: net'.threads[u] == net.threads[u] && net'.ops[u] == net.ops[u])
    && (forall s | 0 <= s < STREAMS && s != t :: net'.streams[s].sent == net.streams[s].sent)
    && (forall s | 0 <= s < STREAMS && Reader(s) != t :: net'.streams[s].taken == net.streams[s].taken)
  }

  lemma HeldRests(net: Net, net': Net, t: nat, u: nat, x: Token)
    requires Shape(net) && AtMostOnce(net) && t < THREADS && u < THREADS && u != t && HeapRests(net, net', t)
    requires x in net.heap && Held(net.threads[u], net.ops[u], x) > 0
    ensures x in net'.heap && net'.heap[x] == net.heap[x]
  {
    HeldAlone(net, u, x);
  }

  lemma OthersKeep(net: Net, net': Net, t: nat, u: nat)
    requires Shape(net) && AtMostOnce(net) && Shape(net') && t < THREADS && u < THREADS && u != t
    requires ThreadKeeps(u, net.threads[u], net.ops[u], net.streams, net.heap)
    requires HeapRests(net, net', t) && OthersRest(net, net', t)
    ensures ThreadKeeps(u, net'.threads[u], net'.ops[u], net'.streams, net'.heap)
  {
    forall x | x in net.heap && Held(net.threads[u], net.ops[u], x) > 0
      ensures x in net'.heap && net'.heap[x] == net.heap[x]
    {
      HeldRests(net, net', t, u, x);
    }
    ThreadFrame(u, net.threads[u], net.ops[u], net.streams, net'.streams, net.heap, net'.heap);
  }

  lemma WorkLeavesThreads(net: Net, t: nat)
    requires Shape(net) && t < THREADS && net.ops[t].Idle? && Enabled(net, t)
    ensures OthersRest(net, Act(net, t), t)
  {
  }

  // A successor adds a token that nobody has, and that was never freed.
  lemma AllocationRests(net: Net, t: nat)
    requires Shape(net) && AtMostOnce(net) && HeapRight(net) && t < THREADS && net.ops[t].Idle?
    requires net.threads[t].Successor?
    ensures HeapRests(net, Work(net, t), t) && HeapRight(Work(net, t))
  {
    SumIncludes(Copies(net, net.next), FREED);
  }

  // A times thread changes only the token it holds.
  lemma MultiplicationRests(net: Net, t: nat)
    requires Shape(net) && HeapRight(net) && t < THREADS && net.ops[t].Idle?
    requires net.threads[t].Times? && CanWork(net.threads[t], net.heap)
    ensures HeapRests(net, Work(net, t), t) && HeapRight(Work(net, t))
  {
  }

  lemma ComparisonRests(net: Net, t: nat)
    requires Shape(net) && HeapRight(net) && t < THREADS && net.ops[t].Idle?
    requires net.threads[t].Merge? && CanWork(net.threads[t], net.heap)
    ensures HeapRests(net, Work(net, t), t) && HeapRight(Work(net, t))
  {
  }

  // The consumer frees only the token it holds.
  lemma FreeingRests(net: Net, t: nat)
    requires Shape(net) && HeapRight(net) && t < THREADS && net.ops[t].Idle?
    requires net.threads[t].Consumer? && CanWork(net.threads[t], net.heap)
    ensures HeapRests(net, Work(net, t), t) && HeapRight(Work(net, t))
  {
  }

  lemma WorkLeavesOthers(net: Net, t: nat)
    requires Shape(net) && AtMostOnce(net) && HeapRight(net) && t < THREADS && net.ops[t].Idle? && Enabled(net, t)
    ensures HeapRests(net, Act(net, t), t) && OthersRest(net, Act(net, t), t) && HeapRight(Act(net, t))
  {
    WorkLeavesThreads(net, t);
    match net.threads[t]
    case Successor(_) => AllocationRests(net, t);
    case Times(_) => MultiplicationRests(net, t);
    case Merge(_, _, _) => ComparisonRests(net, t);
    case Consumer(_, _, _) => FreeingRests(net, t);
  }

  lemma OpLeavesOthers(net: Net, net': Net, t: nat)
    requires Shape(net) && Shape(net') && HeapRight(net) && t < THREADS && !net.ops[t].Idle? && OpMoved(net, net', t)
    ensures HeapRests(net, net', t) && OthersRest(net, net', t) && HeapRight(net')
  {
    assert Fits(t, net.threads[t], net.ops[t]);
  }

  // ---- The moving thread ----

  lemma WaitingKeepsThread(t: nat, th: Thread, op: Op, streams: seq<Stream>, streams': seq<Stream>, heap: map<Token, int>)
    requires Fits(t, th, op) && |streams| == |streams'| == STREAMS
    requires ThreadKeeps(t, th, op, streams, heap)
    requires !op.Idle? && (op.at == Claim || op.at == Lock || op.at == Unlock)
    requires forall s | 0 <= s < STREAMS :: streams'[s].sent == streams[s].sent && streams'[s].taken == streams[s].taken
    ensures var op' := AdvanceOp(streams[op.s], op); Fits(t, th, op') && ThreadKeeps(t, th, op', streams', heap)
  {
  }

  lemma ResumeKeepsThread(t: nat, th: Thread, op: Op, streams: seq<Stream>, streams': seq<Stream>, heap: map<Token, int>)
    requires Fits(t, th, op) && |streams| == |streams'| == STREAMS
    requires ThreadKeeps(t, th, op, streams, heap)
    requires !op.Idle? && op.at == Announce
    requires forall s | 0 <= s < STREAMS :: streams'[s].sent == streams[s].sent && streams'[s].taken == streams[s].taken
    ensures var (th', op') := Resume(t, th, op); Fits(t, th', op') && ThreadKeeps(t, th', op', streams', heap)
  {
  }

  lemma EnqueueKeepsThread(t: nat, th: Thread, op: Op, streams: seq<Stream>, heap: map<Token, int>)
    requires Fits(t, th, op) && |streams| == STREAMS
    requires ThreadKeeps(t, th, op, streams, heap)
    requires op.Put? && op.at == Move
    ensures ThreadKeeps(t, th, AdvanceOp(streams[op.s], op), streams[op.s := AdvanceStream(streams[op.s], op)], heap)
    ensures Holds(heap, op.tok, Value(op.s, streams[op.s].sent))
  {
  }

  lemma DequeueKeepsThread(t: nat, th: Thread, op: Op, streams: seq<Stream>, heap: map<Token, int>)
    requires Fits(t, th, op) && |streams| == STREAMS
    requires ThreadKeeps(t, th, op, streams, heap)
    requires op.Get? && op.at == Move && streams[op.s].buffer != []
    requires QueueHolds(op.s, streams[op.s], heap)
    ensures ThreadKeeps(t, th, AdvanceOp(streams[op.s], op), streams[op.s := AdvanceStream(streams[op.s], op)], heap)
  {
    assert Holds(heap, streams[op.s].buffer[0], Value(op.s, streams[op.s].taken + 0));
  }

  lemma ComparisonKeeps(th: Thread, th': Thread, op': Op, sent: nat, x: nat, y: nat, heap: map<Token, int>)
    requires th.Merge? && th.at == Compare && MergeKeeps(th, Idle, sent, x, y, heap)
    requires th' == Merge(th.a, th.b, if heap[th.a.value] < heap[th.b.value] then EmitA else EmitB)
    requires op' == Put(MRG, if th'.at == EmitA then th.a.value else th.b.value, Claim)
    ensures Fits(MRG, th', op') && MergeKeeps(th', op', sent, x, y, heap)
  {
  }

  lemma ConsumptionKeeps(i: int, value: Option<Token>, got: seq<int>, taken: nat, heap: map<Token, int>, heap': map<Token, int>)
    requires i < TO_CONSUME && ConsumerKeeps(i, value, got, Idle, taken, heap)
    ensures ConsumerKeeps(i + 1, value, got + [heap[value.value]], if i + 1 < TO_CONSUME then Network.Call(MRG) else Idle, taken, heap')
  {
    OutputNext(i, got);
  }

  lemma OutputNext(i: nat, got: seq<int>)
    requires got == Output(Fives, Threes, i)
    ensures got + [Merged(Fives, Threes, i)] == Output(Fives, Threes, i + 1)
  {
  }

  lemma WorkKeepsThread(net: Net, t: nat)
    requires Shape(net) && t < THREADS && net.ops[t].Idle? && Enabled(net, t)
    requires ThreadKeeps(t, net.threads[t], net.ops[t], net.streams, net.heap)
    ensures var net' := Work(net, t); ThreadKeeps(t, net'.threads[t], net'.ops[t], net'.streams, net'.heap)
  {
    var net', th := Work(net, t), net.threads[t];
    match th
    case Successor(_) =>
    case Times(_) =>
    case Merge(_, _, _) =>
      ComparisonKeeps(th, net'.threads[t], net'.ops[t], net.streams[MRG].sent, net.streams[TMS2].taken, net.streams[TMS1].taken, net.heap);
    case Consumer(i, value, got) => ConsumptionKeeps(i, value, got, net.streams[MRG].taken, net.heap, net'.heap);
  }

  lemma AdvanceKeepsThread(t: nat, th: Thread, op: Op, streams: seq<Stream>, heap: map<Token, int>)
    requires Fits(t, th, op) && |streams| == STREAMS && ThreadKeeps(t, th, op, streams, heap)
    requires !op.Idle? && op.at != Announce && CanAdvance(streams[op.s], op)
    requires op.Get? && op.at == Move ==> streams[op.s].buffer != [] && QueueHolds(op.s, streams[op.s], heap)
    ensures var op' := AdvanceOp(streams[op.s], op);
            Fits(t, th, op') && ThreadKeeps(t, th, op', streams[op.s := AdvanceStream(streams[op.s], op)], heap)
  {
    if op.at != Move {
      WaitingKeepsThread(t, th, op, streams, streams[op.s := AdvanceStream(streams[op.s], op)], heap);
    } else if op.Put? {
      EnqueueKeepsThread(t, th, op, streams, heap);
    } else {
      DequeueKeepsThread(t, th, op, streams, heap);
    }
  }

  lemma ReturnKeepsThread(net: Net, t: nat)
    requires Shape(net) && t < THREADS && !net.ops[t].Idle? && net.ops[t].at == Announce
    requires ThreadKeeps(t, net.threads[t], net.ops[t], net.streams, net.heap)
    ensures var net' := Act(net, t); ThreadKeeps(t, net'.threads[t], net'.ops[t], net'.streams, net'.heap)
  {
    var net' := Act(net, t);
    var (th', op') := Resume(t, net.threads[t], net.ops[t]);
    ResumeKeepsThread(t, net.threads[t], net.ops[t], net.streams, net'.streams, net.heap);
    assert net'.threads[t] == th' && net'.ops[t] == op' && net'.heap == net.heap;
  }

  lemma OpKeepsThread(net: Net, t: nat)
    requires Shape(net) && t < THREADS && !net.ops[t].Idle? && net.ops[t].at != Announce && Enabled(net, t)
    requires ThreadKeeps(t, net.threads[t], net.ops[t], net.streams, net.heap)
    requires var s := net.ops[t].s; Balanced(net.streams[s], net.ops, s) && QueueHolds(s, net.streams[s], net.heap)
    ensures var net' := Act(net, t); ThreadKeeps(t, net'.threads[t], net'.ops[t], net'.streams, net'.heap)
  {
    var op, th, net' := net.ops[t], net.threads[t], Act(net, t);
    if op.at == Move {
      MoveIsSafe(net.streams[op.s], net.ops, t);
    }
    AdvanceKeepsThread(t, th, op, net.streams, net.heap);
    assert net'.threads[t] == th && net'.heap == net.heap;
    assert net'.ops[t] == AdvanceOp(net.streams[op.s], op);
    assert net'.streams == net.streams[op.s := AdvanceStream(net.streams[op.s], op)];
  }

  // ---- The queues ----

  // Tokens in a queue are untouched: the moving thread does not hold them.
  lemma QueuedRests(net: Net, net': Net, t: nat, s: nat, k: nat)
    requires Shape(net) && AtMostOnce(net) && t < THREADS && s < STREAMS && HeapRests(net, net', t)
    requires k < |net.streams[s].buffer| && net.streams[s].buffer[k] in net.heap
    ensures var x := net.streams[s].buffer[k]; x in net'.heap && net'.heap[x] == net.heap[x]
  {
    var x := net.streams[s].buffer[k];
    if Held(net.threads[t], net.ops[t], x) > 0 {
      HeldAlone(net, t, x);
    }
  }

  lemma QueuedHolds(net: Net, net': Net, t: nat, s: nat, k: nat, v: int)
    requires Shape(net) && AtMostOnce(net) && t < THREADS && s < STREAMS && HeapRests(net, net', t)
    requires k < |net.streams[s].buffer| && Holds(net.heap, net.streams[s].buffer[k], v)
    ensures Holds(net'.heap, net.streams[s].buffer[k], v)
  {
    QueuedRests(net, net', t, s, k);
  }

  lemma QueueRests(net: Net, net': Net, t: nat, s: nat)
    requires Shape(net) && AtMostOnce(net) && t < THREADS && s < STREAMS && HeapRests(net, net', t)
    requires QueueHolds(s, net.streams[s], net.heap)
    ensures QueueHolds(s, net.streams[s], net'.heap)
  {
    var st := net.streams[s];
    forall k | 0 <= k < |st.buffer| ensures Holds(net'.heap, st.buffer[k], Value(s, st.taken + k)) {
      QueuedHolds(net, net', t, s, k, Value(s, st.taken + k));
    }
  }

  lemma EnqueueKeepsQueue(s: nat, st: Stream, tok: Token, heap: map<Token, int>)
    requires QueueHolds(s, st, heap) && st.sent == st.taken + |st.buffer| && Holds(heap, tok, Value(s, st.sent))
    ensures QueueHolds(s, st.(buffer := st.buffer + [tok], sent := st.sent + 1), heap)
  {
    forall k | 0 <= k < |st.buffer| + 1 ensures Holds(heap, (st.buffer + [tok])[k], Value(s, st.taken + k)) {
      if k < |st.buffer| {
        assert Holds(heap, st.buffer[k], Value(s, st.taken + k));
      }
    }
  }

  lemma DequeueKeepsQueue(s: nat, st: Stream, heap: map<Token, int>)
    requires QueueHolds(s, st, heap) && st.buffer != []
    ensures QueueHolds(s, st.(buffer := st.buffer[1..], taken := st.taken + 1), heap)
  {
    forall k | 0 <= k < |st.buffer| - 1 ensures Holds(heap, st.buffer[1..][k], Value(s, st.taken + 1 + k)) {
      assert Holds(heap, st.buffer[k + 1], Value(s, st.taken + (k + 1)));
    }
  }

  lemma QueueStepKeepsQueue(s: nat, st: Stream, op: Op, heap: map<Token, int>)
    requires QueueHolds(s, st, heap) && st.sent == st.taken + |st.buffer|
    requires !op.Idle? && CanAdvance(st, op)
    requires op.Put? && op.at == Move ==> Holds(heap, op.tok, Value(s, st.sent))
    ensures QueueHolds(s, AdvanceStream(st, op), heap)
  {
    if op.at == Move && op.Put? {
      EnqueueKeepsQueue(s, st, op.tok, heap);
    } else if op.at == Move && st.buffer != [] {
      DequeueKeepsQueue(s, st, heap);
    } else {
      SameQueueHolds(s, st, AdvanceStream(st, op), heap);
    }
  }

  lemma SameQueueHolds(s: nat, st: Stream, st': Stream, heap: map<Token, int>)
    requires QueueHolds(s, st, heap) && st'.buffer == st.buffer && st'.taken == st.taken
    ensures QueueHolds(s, st', heap)
  {
  }

  lemma StepKeepsQueue(net: Net, t: nat, s: nat)
    requires Shape(net) && AtMostOnce(net) && t < THREADS && Enabled(net, t) && s < STREAMS
    requires HeapRests(net, Act(net, t), t)
    requires ThreadKeeps(t, net.threads[t], net.ops[t], net.streams, net.heap)
    requires QueueHolds(s, net.streams[s], net.heap) && net.streams[s].sent == net.streams[s].taken + |net.streams[s].buffer|
    ensures QueueHolds(s, Act(net, t).streams[s], Act(net, t).heap)
  {
    var op := net.ops[t];
    QueueRests(net, Act(net, t), t, s);
    if !op.Idle? && op.s == s {
      if op.Put? && op.at == Move {
        EnqueueKeepsThread(t, net.threads[t], op, net.streams, net.heap);
      }
      QueueStepKeepsQueue(s, net.streams[s], op, net.heap);
    }
  }

  // ---- All together ----

  // What any step of thread t leaves alone.
  lemma StepRests(net: Net, t: nat)
    requires Shape(net) && AtMostOnce(net) && HeapRight(net) && t < THREADS && Enabled(net, t)
    ensures HeapRests(net, Act(net, t), t) && OthersRest(net, Act(net, t), t) && HeapRight(Act(net, t))
  {
    if net.ops[t].Idle? {
      WorkLeavesOthers(net, t);
    } else {
      ActIsOp(net, t);
      OpLeavesOthers(net, Act(net, t), t);
    }
  }

  lemma MoverKeeps(net: Net, t: nat)
    requires Invariant(net) && t < THREADS && Enabled(net, t)
    ensures var net' := Act(net, t); ThreadKeeps(t, net'.threads[t], net'.ops[t], net'.streams, net'.heap)
  {
    assert ThreadKeeps(t, net.threads[t], net.ops[t], net.streams, net.heap);
    if net.ops[t].Idle? {
      WorkKeepsThread(net, t);
    } else if net.ops[t].at == Announce {
      ReturnKeepsThread(net, t);
    } else {
      var s := net.ops[t].s;
      assert Balanced(net.streams[s], net.ops, s) && QueueHolds(s, net.streams[s], net.heap);
      OpKeepsThread(net, t);
    }
  }

  lemma StepKeepsQueues(net: Net, t: nat)
    requires Invariant(net) && t < THREADS && Enabled(net, t)
    ensures forall s | 0 <= s < STREAMS :: QueueHolds(s, Act(net, t).streams[s], Act(net, t).heap)
  {
    OnceIsAtMostOnce(net);
    StepRests(net, t);
    assert ThreadKeeps(t, net.threads[t], net.ops[t], net.streams, net.heap);
    forall s | 0 <= s < STREAMS ensures QueueHolds(s, Act(net, t).streams[s], Act(net, t).heap) {
      assert Balanced(net.streams[s], net.ops, s) && QueueHolds(s, net.streams[s], net.heap);
      StepKeepsQueue(net, t, s);
    }
  }

  lemma StepKeepsOthers(net: Net, t: nat, u: nat)
    requires Invariant(net) && t < THREADS && Enabled(net, t) && u < THREADS && u != t
    ensures var net' := Act(net, t); ThreadKeeps(u, net'.threads[u], net'.ops[u], net'.streams, net'.heap)
  {
    OnceIsAtMostOnce(net);
    StepRests(net, t);
    assert ThreadKeeps(u, net.threads[u], net.ops[u], net.streams, net.heap);
    OthersKeep(net, Act(net, t), t, u);
  }

  lemma StepKeepsValues(net: Net, t: nat)
    requires Invariant(net) && t < THREADS && Enabled(net, t)
    ensures ValuesRight(Act(net, t))
  {
    var net' := Act(net, t);
    StepKeepsQueues(net, t);
    forall u | 0 <= u < THREADS ensures ThreadKeeps(u, net'.threads[u], net'.ops[u], net'.streams, net'.heap) {
      if u == t {
        MoverKeeps(net, t);
      } else {
        StepKeepsOthers(net, t, u);
      }
    }
  }

  lemma StepKeepsInvariant(net: Net, t: nat)
    requires Invariant(net) && t < THREADS && Enabled(net, t)
    ensures Invariant(Act(net, t))
  {
    StepKeepsBalance(net, t);
    StepKeepsTokens(net, t);
    OnceIsAtMostOnce(net);
    StepRests(net, t);
    StepKeepsValues(net, t);
  }

  lemma InitialBalance()
    ensures AllBalanced(INITIAL.streams, INITIAL.ops) && Lossless(INITIAL.streams)
  {
    forall s | 0 <= s < STREAMS ensures Balanced(INITIAL.streams[s], INITIAL.ops, s) {
      NothingInFlight(INITIAL.ops, s);
    }
  }

  lemma InitialHands(t: nat, x: Token)
    requires t < THREADS
    ensures Held(INITIAL.threads[t], INITIAL.ops[t], x) == 0
  {
  }

  lemma InitialTokens()
    ensures EachOnce(INITIAL)
  {
    forall x: Token ensures Sum(Copies(INITIAL, x)) == 0 {
      var c := Copies(INITIAL, x);
      forall k | 0 <= k < 12 ensures c[k] == 0 {
        if STREAMS <= k < FREED {
          assert k == HandOf(k - STREAMS);
          InitialHands(k - STREAMS, x);
        }
      }
      SumOfNothing(c);
    }
  }

  lemma InitialValues()
    ensures ValuesRight(INITIAL)
  {
    forall t | 0 <= t < THREADS
      ensures ThreadKeeps(t, INITIAL.threads[t], INITIAL.ops[t], INITIAL.streams, INITIAL.heap)
    {
    }
  }

  lemma InitialInvariant()
    ensures Invariant(INITIAL)
  {
    InitialBalance();
    InitialTokens();
    InitialValues();
  }

  // Every state of every run.
  lemma {:induction false} RunsKeepInvariant(schedule: seq<nat>)
    ensures Execute(schedule).Some? ==> Invariant(Execute(schedule).value)
  {
    if schedule == [] {
      InitialInvariant();
    } else {
      RunsKeepInvariant(schedule[..|schedule|-1]);
      var prev, t := Execute(schedule[..|schedule|-1]), schedule[|schedule|-1];
      if prev.Some? && t < THREADS && Enabled(prev.value, t) {
        StepKeepsInvariant(prev.value, t);
      }
    }
  }
}

// What every step of every interleaving keeps.
module NetworkInvariant {
  import opened Options
  import opened StreamProtocol
  import opened MergeOrder
  import opened Tally
  import opened Network

  // ---- The values the streams carry ----

  // The k-th token of stream s, counted from 0, has this value.
  function Value(s: nat, k: nat): int {
    if s == TMS1 then Threes(k)
    else if s == TMS2 then Fives(k)
    else if s == MRG then Merged(Fives, Threes, k)
    else k + 1
  }

  predicate Holds(heap: map<Token, int>, x: Token, v: int) {
    x in heap && heap[x] == v
  }

  predicate Points(heap: map<Token, int>, p: Option<Token>, v: int) {
    p.Some? && Holds(heap, p.value, v)
  }

  // Queue s holds the tokens sent and not yet taken, in order.
  predicate QueueHolds(s: nat, st: Stream, heap: map<Token, int>) {
    forall k | 0 <= k < |st.buffer| :: Holds(heap, st.buffer[k], Value(s, st.taken + k))
  }

  predicate SuccessorKeeps(t: nat, i: int, op: Op, sent: nat, heap: map<Token, int>) {
    i > 0 &&
    if op.Idle? then i == sent + 1
    else if Moved(op) then i == sent
    else i == sent + 1 && op.Put? && Holds(heap, op.tok, i)
  }

  predicate TimesKeeps(t: nat, value: Option<Token>, op: Op, sent: nat, taken: nat, heap: map<Token, int>) {
    match op
    case Idle => taken == sent + 1 && Points(heap, value, Value(Feed(t), sent))
    case Get(_, ret, _) =>
      if Moved(op) then taken == sent + 1 && Points(heap, ret, Value(Feed(t), sent))
      else taken == sent && ret.None?
    case Put(_, tok, _) =>
      if Moved(op) then taken == sent
      else taken == sent + 1 && Holds(heap, tok, Value(t, sent))
  }

  predicate MergeKeeps(th: Thread, op: Op, sent: nat, x: nat, y: nat, heap: map<Token, int>)
    requires Fits(MRG, th, op) && th.Merge?
  {
    var (i, j) := Picks(Fives, Threes, sent);
    var haveA := x == i + 1 && Points(heap, th.a, Fives(i));
    var haveB := y == j + 1 && Points(heap, th.b, Threes(j));
    match th.at
    case FirstA => sent == 0 && y == 0 && if Moved(op) then x == 1 && Points(heap, op.ret, Fives(0)) else x == 0 && op.ret.None?
    case FirstB => sent == 0 && haveA && if Moved(op) then y == 1 && Points(heap, op.ret, Threes(0)) else y == 0 && op.ret.None?
    case Compare => haveA && haveB
    case EmitA => haveB && if Moved(op) then x == i else x == i + 1 && Holds(heap, op.tok, Fives(i)) && Fives(i) < Threes(j)
    case FetchA => haveB && if Moved(op) then x == i + 1 && Points(heap, op.ret, Fives(i)) else x == i && op.ret.None?
    case EmitB => haveA && if Moved(op) then y == j else y == j + 1 && Holds(heap, op.tok, Threes(j)) && Fives(i) >= Threes(j)
    case FetchB => haveA && if Moved(op) then y == j + 1 && Points(heap, op.ret, Threes(j)) else y == j && op.ret.None?
  }

  predicate ConsumerKeeps(i: int, value: Option<Token>, got: seq<int>, op: Op, taken: nat, heap: map<Token, int>) {
    && 0 <= i <= TO_CONSUME && got == Output(Fives, Threes, i)
    && match op
       case Idle => if i < TO_CONSUME then taken == i + 1 && Points(heap, value, Merged(Fives, Threes, i)) else taken == i
       case Get(_, ret, _) =>
         && i < TO_CONSUME
         && if Moved(op) then taken == i + 1 && Points(heap, ret, Merged(Fives, Threes, i)) else taken == i && ret.None?
       case Put(_, _, _) => false
  }

  // Each thread's variables agree with the counts of the streams it reads and writes.
  predicate ThreadKeeps(t: nat, th: Thread, op: Op, streams: seq<Stream>, heap: map<Token, int>)
    requires Fits(t, th, op) && |streams| == STREAMS
  {
    match th
    case Successor(i) => SuccessorKeeps(t, i, op, streams[t].sent, heap)
    case Times(value) => TimesKeeps(t, value, op, streams[t].sent, streams[Feed(t)].taken, heap)
    case Merge(_, _, _) => MergeKeeps(th, op, streams[MRG].sent, streams[TMS2].taken, streams[TMS1].taken, heap)
    case Consumer(i, value, got) => ConsumerKeeps(i, value, got, op, streams[MRG].taken, heap)
  }

  // ---- Who has which token ----

  function InHand(p: Option<Token>, x: Token): nat {
    if p == Some(x) then 1 else 0
  }

  function OpHolds(op: Op, x: Token): nat {
    if op.Put? && !Moved(op) && op.tok == x then 1
    else if op.Get? && Moved(op) then InHand(op.ret, x)
    else 0
  }

  // How often thread th holds token x; its other pointers are stale.
  function Held(th: Thread, op: Op, x: Token): nat {
    match th
    case Successor(_) => OpHolds(op, x)
    case Times(value) => if op.Idle? then InHand(value, x) else OpHolds(op, x)
    case Merge(a, b, at) =>
      (match at
       case FirstA => OpHolds(op, x)
       case FirstB => InHand(a, x) + OpHolds(op, x)
       case Compare => InHand(a, x) + InHand(b, x)
       case EmitA => InHand(b, x) + OpHolds(op, x)
       case FetchA => InHand(b, x) + OpHolds(op, x)
       case EmitB => InHand(a, x) + OpHolds(op, x)
       case FetchB => InHand(a, x) + OpHolds(op, x))
    case Consumer(i, value, _) => if op.Idle? && i < TO_CONSUME then InHand(value, x) else OpHolds(op, x)
  }

  // Five queues, six threads, and the place where freed tokens end up.
  const FREED: nat := 11
  function HandOf(t: nat): nat { STREAMS + t }

  // How often token x is in each place.
  function Copies(net: Net, x: Token): (c: seq<nat>)
    requires Shape(net)
    ensures |c| == 12
    ensures forall s | 0 <= s < STREAMS :: c[s] == multiset(net.streams[s].buffer)[x]
    ensures forall t | 0 <= t < THREADS :: c[HandOf(t)] == Held(net.threads[t], net.ops[t], x)
    ensures c[FREED] == net.freed[x]
  {
    seq(12, k requires 0 <= k < 12 =>
      if k < STREAMS then multiset(net.streams[k].buffer)[x]
      else if k < FREED then Held(net.threads[k - STREAMS], net.ops[k - STREAMS], x)
      else net.freed[x])
  }

  // Every token allocated so far is in exactly one place, exactly once.
  ghost predicate EachOnce(net: Net)
    requires Shape(net)
  {
    forall x: Token :: Sum(Copies(net, x)) == if x < net.next then 1 else 0
  }

  // ---- The invariant ----

  predicate Lossless(streams: seq<Stream>) {
    forall s | 0 <= s < |streams| :: streams[s].lostSlots == streams[s].lostTokens == 0
  }

  predicate ValuesRight(net: Net)
    requires Shape(net)
  {
    && (forall s | 0 <= s < STREAMS :: QueueHolds(s, net.streams[s], net.heap))
    && (forall t | 0 <= t < THREADS :: ThreadKeeps(t, net.threads[t], net.ops[t], net.streams, net.heap))
  }

  // The heap is what was allocated, less what was freed.
  ghost predicate HeapRight(net: Net) {
    forall x: Token :: x in net.heap <==> x < net.next && x !in net.freed
  }

  ghost predicate Invariant(net: Net) {
    && Shape(net)
    && AllBalanced(net.streams, net.ops) && Lossless(net.streams)
    && EachOnce(net) && HeapRight(net)
    && ValuesRight(net)
  }
}

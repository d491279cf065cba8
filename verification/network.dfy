// The six threads of prod-cons.c as a step machine: each action on a semaphore
// or a queue, and each piece of local work between two such actions, is one
// atomic step. A run is any interleaving of the threads' steps.
module Network {
  import opened Options
  import opened StreamProtocol
  import opened MergeOrder

  // Streams, and the threads that produce them; the consumer has no stream.
  const SUC1: nat := 0
  const SUC2: nat := 1
  const TMS1: nat := 2
  const TMS2: nat := 3
  const MRG: nat := 4
  const CONS: nat := 5

  const STREAMS: nat := 5
  const THREADS: nat := 6
  const TO_CONSUME: nat := 10

  // Where the merge thread is: the get or put it is executing, or its test.
  datatype MergePoint = FirstA | FirstB | Compare | EmitA | FetchA | EmitB | FetchB

  // The local variables of each thread. Pointer variables keep their last
  // value, also after the token has been put or freed. got is what was printed.
  datatype Thread =
    | Successor(i: int)
    | Times(value: Option<Token>)
    | Merge(a: Option<Token>, b: Option<Token>, at: MergePoint)
    | Consumer(i: int, value: Option<Token>, got: seq<int>)

  // heap holds the tokens that are allocated and not freed; next names the
  // next allocation. No action reads freed.
  datatype Net = Net(streams: seq<Stream>, ops: seq<Op>, threads: seq<Thread>,
                     heap: map<Token, int>, next: Token, freed: multiset<Token>)

  function Call(s: nat): Op { Get(s, None, Claim) }

  const INITIAL := Net(
    [NEW_STREAM, NEW_STREAM, NEW_STREAM, NEW_STREAM, NEW_STREAM],
    [Idle, Idle, Call(SUC1), Call(SUC2), Call(TMS2), Call(MRG)],
    [Successor(1), Successor(1), Times(None), Times(None), Merge(None, None, FirstA), Consumer(0, None, [])],
    map[], 0, multiset{})

  // The multiplier behind self->args.
  function Factor(t: nat): int { if t == TMS1 then 3 else 5 }

  // Which stream a times thread reads.
  function Feed(t: nat): nat { if t == TMS1 then SUC1 else SUC2 }

  // Each thread runs its own code, on the streams it is wired to.
  predicate Fits(t: nat, th: Thread, op: Op) {
    match th
    case Successor(_) => t in {SUC1, SUC2} && (op.Put? ==> op.s == t) && !op.Get?
    case Times(_) => t in {TMS1, TMS2} && (op.Put? ==> op.s == t) && (op.Get? ==> op.s == Feed(t))
    case Merge(_, _, at) =>
      t == MRG &&
      (match at
       case Compare => op.Idle?
       case EmitA => op.Put? && op.s == MRG
       case EmitB => op.Put? && op.s == MRG
       case FirstA => op.Get? && op.s == TMS2
       case FetchA => op.Get? && op.s == TMS2
       case FirstB => op.Get? && op.s == TMS1
       case FetchB => op.Get? && op.s == TMS1)
    case Consumer(_, _, _) => t == CONS && (op.Get? ==> op.s == MRG) && !op.Put?
  }

  predicate Shape(net: Net) {
    && |net.streams| == STREAMS && |net.ops| == |net.threads| == THREADS
    && forall t | 0 <= t < THREADS :: Fits(t, net.threads[t], net.ops[t])
  }

  predicate Readable(p: Option<Token>, heap: map<Token, int>) {
    p.Some? && p.value in heap
  }

  // The local work of a thread can be done: every pointer it dereferences is
  // a live token. The consumer stops after its ten tokens.
  predicate CanWork(th: Thread, heap: map<Token, int>) {
    match th
    case Successor(_) => true
    case Times(value) => Readable(value, heap)
    case Merge(a, b, _) => Readable(a, heap) && Readable(b, heap)
    case Consumer(i, value, _) => i < TO_CONSUME && Readable(value, heap)
  }

  predicate Enabled(net: Net, t: nat)
    requires Shape(net) && t < THREADS
  {
    var op := net.ops[t];
    if op.Idle? then CanWork(net.threads[t], net.heap) else CanAdvance(net.streams[op.s], op)
  }

  // Allocate and fill a token; multiply one in place; compare two; print and free one.
  function Work(net: Net, t: nat): Net
    requires Shape(net) && t < THREADS && net.ops[t].Idle? && CanWork(net.threads[t], net.heap)
  {
    match net.threads[t]
    case Successor(i) =>
      net.(heap := net.heap[net.next := i], next := net.next + 1,
           ops := net.ops[t := Put(t, net.next, Claim)])
    case Times(value) =>
      net.(heap := net.heap[value.value := net.heap[value.value] * Factor(t)],
           ops := net.ops[t := Put(t, value.value, Claim)])
    case Merge(a, b, _) =>
      if net.heap[a.value] < net.heap[b.value] then
        net.(threads := net.threads[t := Merge(a, b, EmitA)], ops := net.ops[t := Put(t, a.value, Claim)])
      else
        net.(threads := net.threads[t := Merge(a, b, EmitB)], ops := net.ops[t := Put(t, b.value, Claim)])
    case Consumer(i, value, got) =>
      net.(heap := net.heap - {value.value}, freed := net.freed + multiset{value.value},
           threads := net.threads[t := Consumer(i + 1, value, got + [net.heap[value.value]])],
           ops := net.ops[t := if i + 1 < TO_CONSUME then Call(MRG) else Idle])
  }

  // What a thread does when the put or get op returns.
  function Resume(t: nat, th: Thread, op: Op): (Thread, Op)
    requires Fits(t, th, op) && !op.Idle?
  {
    match th
    case Successor(i) => (Successor(i + 1), Idle)
    case Times(value) => if op.Get? then (Times(op.ret), Idle) else (th, Call(Feed(t)))
    case Merge(a, b, FirstA) => (Merge(op.ret, b, FirstB), Call(TMS1))
    case Merge(a, b, FirstB) => (Merge(a, op.ret, Compare), Idle)
    case Merge(a, b, EmitA) => (Merge(a, b, FetchA), Call(TMS2))
    case Merge(a, b, FetchA) => (Merge(op.ret, b, Compare), Idle)
    case Merge(a, b, EmitB) => (Merge(a, b, FetchB), Call(TMS1))
    case Merge(a, b, FetchB) => (Merge(a, op.ret, Compare), Idle)
    case Consumer(i, value, got) => (Consumer(i, op.ret, got), Idle)
  }

  // One step of thread t.
  function Act(net: Net, t: nat): (net': Net)
    requires Shape(net) && t < THREADS && Enabled(net, t)
    ensures Shape(net')
  {
    var op := net.ops[t];
    if op.Idle? then Work(net, t) else
    var st := net.streams[op.s];
    var moved := net.(streams := net.streams[op.s := AdvanceStream(st, op)]);
    if op.at == Announce then
      var (th', op') := Resume(t, net.threads[t], op);
      moved.(threads := net.threads[t := th'], ops := net.ops[t := op'])
    else
      moved.(ops := net.ops[t := AdvanceOp(st, op)])
  }

  // The state after a schedule, if each thread it names could take its step.
  function Execute(schedule: seq<nat>): (r: Option<Net>)
    ensures r.Some? ==> Shape(r.value)
  {
    if schedule == [] then Some(INITIAL) else
    match Execute(schedule[..|schedule|-1])
    case None => None
    case Some(net) =>
      var t := schedule[|schedule|-1];
      if t < THREADS && Enabled(net, t) then Some(Act(net, t)) else None
  }

  predicate Stuck(net: Net)
    requires Shape(net)
  {
    forall t | 0 <= t < THREADS :: !Enabled(net, t)
  }

  // ---- Wiring: init_stream and connect, as init_module uses them ----

  // The head of each thread's list of inputs, and each stream's next pointer.
  datatype Wiring = Wiring(prod: map<nat, nat>, next: map<nat, nat>)

  // connect: the stream becomes the head of the list, not its end.
  function Connect(w: Wiring, t: nat, s: nat): Wiring {
    Wiring(w.prod[t := s], if t in w.prod then w.next[s := w.prod[t]] else w.next - {s})
  }

  const WIRING :=
    Connect(Connect(Connect(Connect(Connect(Wiring(map[], map[]),
      TMS1, SUC1), TMS2, SUC2), MRG, TMS1), MRG, TMS2), CONS, MRG)

  // The streams the threads of the machine use are those they are wired to;
  // in particular merge's s1 is the stream of multiples of 5.
  lemma WiredAsModelled()
    ensures WIRING.prod == map[TMS1 := Feed(TMS1), TMS2 := Feed(TMS2), MRG := TMS2, CONS := MRG]
    ensures WIRING.next == map[TMS2 := TMS1]
  {
  }
}

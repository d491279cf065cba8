// The network when waits are interrupted. The callers ignore what put returns, so
// an interrupted put loses a token; an interrupted get returns NULL.
module NetworkLosses {
  import opened Options
  import opened StreamProtocol
  import opened MergeOrder
  import opened Tally
  import opened Network
  import opened NetworkInvariant
  import opened NetworkSafety
  import opened NetworkTheorems

  datatype NetEvent = Step(t: nat) | BreakPut(t: nat) | BreakGet(t: nat)

  predicate Waiting(op: Op) {
    !op.Idle? && (op.at == Claim || op.at == Lock)
  }

  predicate CanHappen(net: Net, e: NetEvent)
    requires Shape(net)
  {
    e.t < THREADS &&
    match e
    case Step(t) => Enabled(net, t)
    case BreakPut(t) => net.ops[t].Put? && Waiting(net.ops[t])
    case BreakGet(t) => net.ops[t].Get? && Waiting(net.ops[t])
  }

  function Broken(net: Net, t: nat): (net': Net)
    requires Shape(net) && t < THREADS && Waiting(net.ops[t])
    ensures Shape(net')
  {
    var op := net.ops[t];
    var (th', op') := Resume(t, net.threads[t], if op.Get? then Get(op.s, None, op.at) else op);
    net.(streams := net.streams[op.s := InterruptStream(net.streams[op.s], op)],
         threads := net.threads[t := th'], ops := net.ops[t := op'])
  }

  // Interruptions of the network are those of the stream protocol, all of them,
  // with the same effect on the streams.
  lemma BreaksAreInterrupts(net: Net, t: nat)
    requires Shape(net) && t < THREADS
    ensures var m := Machine(net.streams, net.ops);
            && (Possible(m, Interrupt(t)) <==> CanHappen(net, BreakPut(t)) || CanHappen(net, BreakGet(t)))
            && (Possible(m, Interrupt(t)) ==> Broken(net, t).streams == Happen(m, Interrupt(t)).streams)
  {
    assert Fits(t, net.threads[t], net.ops[t]);
  }

  // A state together with the values that were put on each stream so far.
  datatype Trace = Trace(net: Net, hist: seq<seq<int>>)

  predicate Formed(tr: Trace) {
    Shape(tr.net) && |tr.hist| == STREAMS
  }

  function Recorded(tr: Trace, t: nat): seq<seq<int>>
    requires Formed(tr) && t < THREADS
  {
    var op := tr.net.ops[t];
    if op.Put? && op.at == Move && op.tok in tr.net.heap then
      tr.hist[op.s := tr.hist[op.s] + [tr.net.heap[op.tok]]]
    else tr.hist
  }

  function Next(tr: Trace, e: NetEvent): (tr': Trace)
    requires Formed(tr) && CanHappen(tr.net, e)
    ensures Formed(tr')
  {
    if e.Step? then Trace(Act(tr.net, e.t), Recorded(tr, e.t)) else Trace(Broken(tr.net, e.t), tr.hist)
  }

  function Run(events: seq<NetEvent>): (r: Option<Trace>)
    ensures r.Some? ==> Formed(r.value)
  {
    if events == [] then Some(Trace(INITIAL, [[], [], [], [], []])) else
    match Run(events[..|events|-1])
    case None => None
    case Some(tr) => if CanHappen(tr.net, events[|events|-1]) then Some(Next(tr, events[|events|-1])) else None
  }

  // ---- What the histories look like ----

  function Top(h: seq<int>): int {
    if h == [] then 0 else h[|h|-1]
  }

  // The value taken last, when n have been taken.
  function Latest(h: seq<int>, n: nat): int
    requires n <= |h|
  {
    if n == 0 then 0 else h[n-1]
  }

  predicate Rising(h: seq<int>) {
    (forall i | 0 <= i < |h| :: h[i] > 0) && (forall i, j | 0 <= i < j < |h| :: h[i] < h[j])
  }

  predicate Multiples(h: seq<int>, f: int)
    requires f > 0
  {
    forall i | 0 <= i < |h| :: h[i] % f == 0
  }

  // The successors' streams rise, so do their multiples, and the merge is sorted.
  predicate HistoryRight(s: nat, h: seq<int>) {
    if s == MRG then Sorted(h) else Rising(h) && (s == TMS1 || s == TMS2 ==> Multiples(h, Factor(s)))
  }

  // What is queued is what was put and not taken yet.
  predicate QueueCarries(st: Stream, h: seq<int>, heap: map<Token, int>) {
    |h| == st.sent == st.taken + |st.buffer| &&
    forall k | 0 <= k < |st.buffer| :: Holds(heap, st.buffer[k], h[st.taken + k])
  }

  predicate SuccessorCarries(i: int, op: Op, out: seq<int>, heap: map<Token, int>) {
    i > 0 && if op.Put? && Moved(op) then Top(out) <= i else Top(out) < i && (op.Put? ==> Holds(heap, op.tok, i))
  }

  // v is the value got last; it may be put multiplied by f, once.
  predicate TimesCarries(value: Option<Token>, op: Op, v: int, f: int, out: seq<int>, heap: map<Token, int>) {
    match op
    case Idle => Points(heap, value, v) && v > 0 && Top(out) < f * v
    case Get(_, ret, _) =>
      if Moved(op) then Points(heap, ret, v) && v > 0 && Top(out) < f * v else Top(out) <= f * v
    case Put(_, tok, _) => v > 0 && if Moved(op) then Top(out) <= f * v else Top(out) < f * v && Holds(heap, tok, f * v)
  }

  // How often v may have been put out as a multiple of f: once, if it is below
  // the value got last, or is that value and the token is gone.
  function Spent(v: int, f: int, last: int, gone: bool): nat
    requires f > 0
  {
    if v > 0 && v % f == 0 && (v < last || (v == last && gone)) then 1 else 0
  }

  predicate GoneA(th: Thread, op: Op)
    requires th.Merge?
  {
    !op.Idle? && ((th.at == EmitA && Moved(op)) || (th.at == FetchA && !Moved(op)))
  }

  predicate GoneB(th: Thread, op: Op)
    requires th.Merge?
  {
    !op.Idle? && ((th.at == EmitB && Moved(op)) || (th.at == FetchB && !Moved(op)))
  }

  ghost predicate SpentRight(out: seq<int>, va: int, goneA: bool, vb: int, goneB: bool) {
    forall v: int :: multiset(out)[v] <= Spent(v, 5, va, goneA) + Spent(v, 3, vb, goneB)
  }

  // va and vb are the values got last, 0 if there is none yet.
  predicate MergeAt(th: Thread, op: Op, va: int, vb: int, out: seq<int>, heap: map<Token, int>)
    requires Fits(MRG, th, op) && th.Merge?
  {
    match th.at
    case FirstA => out == [] && vb == 0 && if Moved(op) then va > 0 && Points(heap, op.ret, va) else va == 0
    case FirstB =>
      out == [] && va > 0 && Points(heap, th.a, va) && if Moved(op) then vb > 0 && Points(heap, op.ret, vb) else vb == 0
    case Compare => va > 0 && vb > 0 && Points(heap, th.a, va) && Points(heap, th.b, vb)
    case EmitA => va > 0 && vb > 0 && va < vb && Points(heap, th.b, vb) && (Moved(op) || Holds(heap, op.tok, va))
    case FetchA => va > 0 && vb > 0 && Points(heap, th.b, vb) && (Moved(op) ==> Points(heap, op.ret, va))
    case EmitB => va > 0 && vb > 0 && vb <= va && Points(heap, th.a, va) && (Moved(op) || Holds(heap, op.tok, vb))
    case FetchB => va > 0 && vb > 0 && Points(heap, th.a, va) && (Moved(op) ==> Points(heap, op.ret, vb))
  }

  ghost predicate MergeCarries(th: Thread, op: Op, va: int, vb: int, out: seq<int>, heap: map<Token, int>)
    requires Fits(MRG, th, op) && th.Merge?
  {
    && MergeAt(th, op, va, vb, out, heap)
    && (out != [] ==> Top(out) <= va && Top(out) <= vb)
    && SpentRight(out, va, GoneA(th, op), vb, GoneB(th, op))
  }

  predicate ConsumerCarries(i: int, value: Option<Token>, got: seq<int>, op: Op, taken: nat, h: seq<int>, heap: map<Token, int>) {
    && 0 <= i <= TO_CONSUME && i <= taken <= |h| && got == h[..i]
    && match op
       case Idle => if i < TO_CONSUME then taken == i + 1 && Points(heap, value, h[i]) else taken == i
       case Get(_, ret, _) => i < TO_CONSUME && if Moved(op) then taken == i + 1 && Points(heap, ret, h[i]) else taken == i
       case Put(_, _, _) => false
  }

  ghost predicate ThreadCarries(t: nat, th: Thread, op: Op, streams: seq<Stream>, hist: seq<seq<int>>, heap: map<Token, int>)
    requires Fits(t, th, op) && |streams| == |hist| == STREAMS
  {
    (forall s | 0 <= s < STREAMS && Reader(s) == t :: streams[s].taken <= |hist[s]|) &&
    match th
    case Successor(i) => SuccessorCarries(i, op, hist[t], heap)
    case Times(value) =>
      assert Reader(Feed(t)) == t;
      TimesCarries(value, op, Latest(hist[Feed(t)], streams[Feed(t)].taken), Factor(t), hist[t], heap)
    case Merge(_, _, _) =>
      assert Reader(TMS1) == Reader(TMS2) == t;
      MergeCarries(th, op, Latest(hist[TMS2], streams[TMS2].taken), Latest(hist[TMS1], streams[TMS1].taken), hist[MRG], heap)
    case Consumer(i, value, got) => ConsumerCarries(i, value, got, op, streams[MRG].taken, hist[MRG], heap)
  }

  ghost predicate Sound(tr: Trace, t: nat)
    requires Formed(tr) && t < THREADS
  {
    ThreadCarries(t, tr.net.threads[t], tr.net.ops[t], tr.net.streams, tr.hist, tr.net.heap)
  }

  // ---- The threads that rest ----

  lemma MergeFrame(th: Thread, op: Op, va: int, vb: int, out: seq<int>, heap: map<Token, int>, heap': map<Token, int>)
    requires Fits(MRG, th, op) && th.Merge? && MergeCarries(th, op, va, vb, out, heap)
    requires forall x | x in heap && Held(th, op, x) > 0 :: x in heap' && heap'[x] == heap[x]
    ensures MergeCarries(th, op, va, vb, out, heap')
  {
  }

  lemma CarriesFrame(t: nat, th: Thread, op: Op, streams: seq<Stream>, streams': seq<Stream>,
                     hist: seq<seq<int>>, hist': seq<seq<int>>, heap: map<Token, int>, heap': map<Token, int>)
    requires Fits(t, th, op) && |streams| == |streams'| == |hist| == |hist'| == STREAMS
    requires ThreadCarries(t, th, op, streams, hist, heap)
    requires t < STREAMS ==> hist'[t] == hist[t]
    requires forall s | 0 <= s < STREAMS && Reader(s) == t :: streams'[s].taken == streams[s].taken && hist[s] <= hist'[s]
    requires forall x | x in heap && Held(th, op, x) > 0 :: x in heap' && heap'[x] == heap[x]
    ensures ThreadCarries(t, th, op, streams', hist', heap')
  {
    match th
    case Successor(_) =>
    case Times(_) => assert Reader(Feed(t)) == t;
    case Merge(_, _, _) =>
      assert Reader(TMS1) == Reader(TMS2) == t;
      var va, vb := Latest(hist[TMS2], streams[TMS2].taken), Latest(hist[TMS1], streams[TMS1].taken);
      MergeFrame(th, op, va, vb, hist[MRG], heap, heap');
    case Consumer(_, _, _) => assert Reader(MRG) == t;
  }

  // ---- The moving thread ----

  lemma WaitMerge(th: Thread, op: Op, op': Op, va: int, vb: int, out: seq<int>, heap: map<Token, int>)
    requires Fits(MRG, th, op) && th.Merge? && MergeCarries(th, op, va, vb, out, heap)
    requires !op.Idle? && !op'.Idle? && op' == At(op, op'.at) && Moved(op') == Moved(op)
    ensures Fits(MRG, th, op') && MergeCarries(th, op', va, vb, out, heap)
  {
    assert GoneA(th, op') == GoneA(th, op) && GoneB(th, op') == GoneB(th, op);
  }

  lemma WaitCarries(t: nat, th: Thread, op: Op, streams: seq<Stream>, streams': seq<Stream>, hist: seq<seq<int>>, heap: map<Token, int>)
    requires Fits(t, th, op) && |streams| == |streams'| == |hist| == STREAMS && ThreadCarries(t, th, op, streams, hist, heap)
    requires !op.Idle? && (op.at == Claim || op.at == Lock || op.at == Unlock)
    requires forall s | 0 <= s < STREAMS :: streams'[s].taken == streams[s].taken
    ensures var op' := AdvanceOp(streams[op.s], op); Fits(t, th, op') && ThreadCarries(t, th, op', streams', hist, heap)
  {
    if th.Merge? {
      var va, vb := Latest(hist[TMS2], streams[TMS2].taken), Latest(hist[TMS1], streams[TMS1].taken);
      WaitMerge(th, op, AdvanceOp(streams[op.s], op), va, vb, hist[MRG], heap);
    }
  }

  lemma ReturnCarries(t: nat, th: Thread, op: Op, streams: seq<Stream>, streams': seq<Stream>, hist: seq<seq<int>>, heap: map<Token, int>)
    requires Fits(t, th, op) && |streams| == |streams'| == |hist| == STREAMS && ThreadCarries(t, th, op, streams, hist, heap)
    requires !op.Idle? && op.at == Announce
    requires forall s | 0 <= s < STREAMS :: streams'[s].taken == streams[s].taken
    ensures var (th', op') := Resume(t, th, op); Fits(t, th', op') && ThreadCarries(t, th', op', streams', hist, heap)
  {
  }

  lemma SpentGrows(out: seq<int>, va: int, goneA: bool, vb: int, goneB: bool, va': int, goneA': bool, vb': int, goneB': bool)
    requires SpentRight(out, va, goneA, vb, goneB)
    requires va < va' || (va == va' && (goneA ==> goneA'))
    requires vb < vb' || (vb == vb' && (goneB ==> goneB'))
    ensures SpentRight(out, va', goneA', vb', goneB')
  {
    forall v: int ensures multiset(out)[v] <= Spent(v, 5, va', goneA') + Spent(v, 3, vb', goneB') {
      assert Spent(v, 5, va, goneA) <= Spent(v, 5, va', goneA');
      assert Spent(v, 3, vb, goneB) <= Spent(v, 3, vb', goneB');
    }
  }

  // A put that is broken off: the token is gone without having been put.
  lemma BreakCarries(t: nat, th: Thread, op: Op, streams: seq<Stream>, streams': seq<Stream>, hist: seq<seq<int>>, heap: map<Token, int>)
    requires Fits(t, th, op) && |streams| == |streams'| == |hist| == STREAMS && ThreadCarries(t, th, op, streams, hist, heap)
    requires op.Put? && Waiting(op)
    requires forall s | 0 <= s < STREAMS :: streams'[s].taken == streams[s].taken
    ensures var (th', op') := Resume(t, th, op); Fits(t, th', op') && ThreadCarries(t, th', op', streams', hist, heap)
  {
    if th.Merge? {
      var va, vb := Latest(hist[TMS2], streams[TMS2].taken), Latest(hist[TMS1], streams[TMS1].taken);
      SpentGrows(hist[MRG], va, false, vb, false, va, th.at == EmitA, vb, th.at == EmitB);
    }
  }

  lemma RisingGrows(h: seq<int>, v: int)
    requires Rising(h) && Top(h) < v && v > 0
    ensures Rising(h + [v])
  {
    forall i | 0 <= i < |h| ensures h[i] < v {
      assert h[i] <= h[|h|-1];
    }
  }

  lemma SortedGrows(h: seq<int>, v: int)
    requires Sorted(h) && (h != [] ==> Top(h) <= v)
    ensures Sorted(h + [v])
  {
    forall i | 0 <= i < |h| ensures h[i] <= v {
      assert h[i] <= h[|h|-1];
    }
  }

  lemma EnqueueSuccessor(t: nat, i: int, op: Op, out: seq<int>, heap: map<Token, int>)
    requires op.Put? && op.at == Move && SuccessorCarries(i, op, out, heap) && Rising(out)
    ensures SuccessorCarries(i, At(op, Unlock), out + [heap[op.tok]], heap) && Rising(out + [heap[op.tok]])
  {
    RisingGrows(out, heap[op.tok]);
  }

  lemma EnqueueTimes(value: Option<Token>, op: Op, v: int, f: int, out: seq<int>, heap: map<Token, int>)
    requires op.Put? && op.at == Move && TimesCarries(value, op, v, f, out, heap) && Rising(out)
    requires (f == 3 || f == 5) && Multiples(out, f)
    ensures TimesCarries(value, At(op, Unlock), v, f, out + [heap[op.tok]], heap)
    ensures Rising(out + [heap[op.tok]]) && Multiples(out + [heap[op.tok]], f)
  {
    RisingGrows(out, heap[op.tok]);
  }

  lemma SpentOne(out: seq<int>, va: int, vb: int, emitA: bool)
    requires SpentRight(out, va, false, vb, false) && va > 0 && vb > 0 && va % 5 == 0 && vb % 3 == 0
    ensures SpentRight(out + [if emitA then va else vb], va, emitA, vb, !emitA)
  {
    var w := if emitA then va else vb;
    forall v: int ensures multiset(out + [w])[v] <= Spent(v, 5, va, emitA) + Spent(v, 3, vb, !emitA) {
      CountAppended(out, w, v);
      assert multiset(out)[v] <= Spent(v, 5, va, false) + Spent(v, 3, vb, false);
    }
  }

  lemma EnqueueMergeAt(th: Thread, op: Op, va: int, vb: int, out: seq<int>, out': seq<int>, heap: map<Token, int>)
    requires Fits(MRG, th, op) && th.Merge? && op.Put? && op.at == Move && MergeAt(th, op, va, vb, out, heap)
    ensures Holds(heap, op.tok, if th.at == EmitA then va else vb)
    ensures Fits(MRG, th, At(op, Unlock)) && MergeAt(th, At(op, Unlock), va, vb, out', heap)
  {
  }

  lemma EnqueueMerge(th: Thread, op: Op, va: int, vb: int, out: seq<int>, heap: map<Token, int>)
    requires Fits(MRG, th, op) && th.Merge? && op.Put? && op.at == Move && MergeCarries(th, op, va, vb, out, heap)
    requires va % 5 == 0 && vb % 3 == 0 && Sorted(out)
    ensures op.tok in heap && Fits(MRG, th, At(op, Unlock))
    ensures MergeCarries(th, At(op, Unlock), va, vb, out + [heap[op.tok]], heap) && Sorted(out + [heap[op.tok]])
  {
    var w := if th.at == EmitA then va else vb;
    EnqueueMergeAt(th, op, va, vb, out, out + [w], heap);
    SortedGrows(out, w);
    SpentOne(out, va, vb, th.at == EmitA);
  }

  lemma EnqueueCarries(t: nat, th: Thread, op: Op, streams: seq<Stream>, streams': seq<Stream>, hist: seq<seq<int>>, heap: map<Token, int>)
    requires Fits(t, th, op) && |streams| == |streams'| == |hist| == STREAMS && ThreadCarries(t, th, op, streams, hist, heap)
    requires op.Put? && op.at == Move
    requires forall s | 0 <= s < STREAMS :: HistoryRight(s, hist[s]) && streams'[s].taken == streams[s].taken
    ensures op.tok in heap && Fits(t, th, At(op, Unlock))
    ensures var hist' := hist[t := hist[t] + [heap[op.tok]]];
            HistoryRight(t, hist'[t]) && ThreadCarries(t, th, At(op, Unlock), streams', hist', heap)
  {
    match th
    case Successor(i) => EnqueueSuccessor(t, i, op, hist[t], heap);
    case Times(value) =>
      assert Reader(Feed(t)) == t;
      EnqueueTimes(value, op, Latest(hist[Feed(t)], streams[Feed(t)].taken), Factor(t), hist[t], heap);
    case Merge(_, _, _) =>
      assert Reader(TMS1) == Reader(TMS2) == t;
      assert HistoryRight(TMS1, hist[TMS1]) && HistoryRight(TMS2, hist[TMS2]) && HistoryRight(MRG, hist[MRG]);
      EnqueueMerge(th, op, Latest(hist[TMS2], streams[TMS2].taken), Latest(hist[TMS1], streams[TMS1].taken), hist[MRG], heap);
  }

  // The next value is larger than the one before.
  lemma LatestRises(h: seq<int>, n: nat)
    requires Rising(h) && n < |h|
    ensures 0 <= Latest(h, n) < Latest(h, n + 1) == h[n]
  {
  }

  lemma DequeueTimes(value: Option<Token>, op: Op, v: int, v': int, f: int, out: seq<int>, heap: map<Token, int>, x: Token)
    requires op.Get? && op.at == Move && TimesCarries(value, op, v, f, out, heap)
    requires f > 0 && 0 <= v < v' && Holds(heap, x, v')
    ensures TimesCarries(value, Get(op.s, Some(x), Unlock), v', f, out, heap)
  {
    assert f * v < f * v';
  }

  lemma DequeueMerge(th: Thread, op: Op, va: int, vb: int, v': int, out: seq<int>, heap: map<Token, int>, x: Token)
    requires Fits(MRG, th, op) && th.Merge? && op.Get? && op.at == Move && MergeCarries(th, op, va, vb, out, heap)
    requires Holds(heap, x, v') && 0 <= (if op.s == TMS2 then va else vb) < v'
    ensures var op' := Get(op.s, Some(x), Unlock);
            Fits(MRG, th, op') && if op.s == TMS2 then MergeCarries(th, op', v', vb, out, heap) else MergeCarries(th, op', va, v', out, heap)
  {
    var op' := Get(op.s, Some(x), Unlock);
    var va', vb' := if op.s == TMS2 then v' else va, if op.s == TMS2 then vb else v';
    SpentGrows(out, va, GoneA(th, op), vb, GoneB(th, op), va', GoneA(th, op'), vb', GoneB(th, op'));
  }

  lemma DequeueCarries(t: nat, th: Thread, op: Op, streams: seq<Stream>, streams': seq<Stream>, hist: seq<seq<int>>, heap: map<Token, int>)
    requires Fits(t, th, op) && |streams| == |streams'| == |hist| == STREAMS && ThreadCarries(t, th, op, streams, hist, heap)
    requires op.Get? && op.at == Move && op.s < STREAMS && streams[op.s].buffer != []
    requires HistoryRight(op.s, hist[op.s]) && QueueCarries(streams[op.s], hist[op.s], heap)
    requires forall s | 0 <= s < STREAMS :: streams'[s].taken == streams[s].taken + if s == op.s then 1 else 0
    ensures var op' := Get(op.s, Some(streams[op.s].buffer[0]), Unlock);
            Fits(t, th, op') && ThreadCarries(t, th, op', streams', hist, heap)
  {
    var x, n, h := streams[op.s].buffer[0], streams[op.s].taken, hist[op.s];
    assert Holds(heap, x, h[n + 0]);
    match th
    case Times(value) =>
      assert Reader(Feed(t)) == t;
      LatestRises(h, n);
      DequeueTimes(value, op, Latest(h, n), h[n], Factor(t), hist[t], heap, x);
    case Merge(_, _, _) =>
      assert Reader(TMS1) == Reader(TMS2) == t;
      LatestRises(h, n);
      DequeueMerge(th, op, Latest(hist[TMS2], streams[TMS2].taken), Latest(hist[TMS1], streams[TMS1].taken), h[n], hist[MRG], heap, x);
    case Consumer(_, _, _) => assert Reader(MRG) == t;
  }

  lemma CompareCarries(th: Thread, th': Thread, op': Op, va: int, vb: int, out: seq<int>, heap: map<Token, int>)
    requires th.Merge? && th.at == Compare && MergeCarries(th, Idle, va, vb, out, heap)
    requires th' == Merge(th.a, th.b, if heap[th.a.value] < heap[th.b.value] then EmitA else EmitB)
    requires op' == Put(MRG, if th'.at == EmitA then th.a.value else th.b.value, Claim)
    ensures Fits(MRG, th', op') && MergeCarries(th', op', va, vb, out, heap)
  {
    assert !GoneA(th', op') && !GoneB(th', op');
  }

  lemma WorkCarries(net: Net, t: nat, hist: seq<seq<int>>)
    requires Shape(net) && |hist| == STREAMS && t < THREADS && net.ops[t].Idle? && Enabled(net, t)
    requires ThreadCarries(t, net.threads[t], net.ops[t], net.streams, hist, net.heap)
    ensures var net' := Act(net, t); ThreadCarries(t, net'.threads[t], net'.ops[t], net'.streams, hist, net'.heap)
  {
    var net', th := Act(net, t), net.threads[t];
    if th.Merge? {
      var va, vb := Latest(hist[TMS2], net.streams[TMS2].taken), Latest(hist[TMS1], net.streams[TMS1].taken);
      CompareCarries(th, net'.threads[t], net'.ops[t], va, vb, hist[MRG], net.heap);
    }
  }

  // ---- Queues ----

  lemma QueueCarriesRests(net: Net, net': Net, t: nat, s: nat, h: seq<int>)
    requires Shape(net) && AtMostOnce(net) && t < THREADS && s < STREAMS && HeapRests(net, net', t)
    requires QueueCarries(net.streams[s], h, net.heap)
    ensures QueueCarries(net.streams[s], h, net'.heap)
  {
    var st := net.streams[s];
    forall k | 0 <= k < |st.buffer| ensures Holds(net'.heap, st.buffer[k], h[st.taken + k]) {
      assert Holds(net.heap, st.buffer[k], h[st.taken + k]);
      QueuedRests(net, net', t, s, k);
    }
  }

  lemma EnqueueCarriesQueue(st: Stream, tok: Token, h: seq<int>, heap: map<Token, int>)
    requires QueueCarries(st, h, heap) && tok in heap
    ensures QueueCarries(st.(buffer := st.buffer + [tok], sent := st.sent + 1), h + [heap[tok]], heap)
  {
    forall k | 0 <= k < |st.buffer| + 1 ensures Holds(heap, (st.buffer + [tok])[k], (h + [heap[tok]])[st.taken + k]) {
      if k < |st.buffer| {
        assert Holds(heap, st.buffer[k], h[st.taken + k]);
      }
    }
  }

  lemma DequeueCarriesQueue(st: Stream, h: seq<int>, heap: map<Token, int>)
    requires QueueCarries(st, h, heap) && st.buffer != []
    ensures QueueCarries(st.(buffer := st.buffer[1..], taken := st.taken + 1), h, heap)
  {
    forall k | 0 <= k < |st.buffer| - 1 ensures Holds(heap, st.buffer[1..][k], h[st.taken + 1 + k]) {
      assert Holds(heap, st.buffer[k + 1], h[st.taken + (k + 1)]);
    }
  }

  predicate Enqueues(op: Op) {
    op.Put? && op.at == Move
  }

  lemma AdvanceCarriesQueue(st: Stream, op: Op, h: seq<int>, heap: map<Token, int>)
    requires !op.Idle? && CanAdvance(st, op) && QueueCarries(st, h, heap) && (Enqueues(op) ==> op.tok in heap)
    ensures QueueCarries(AdvanceStream(st, op), if Enqueues(op) then h + [heap[op.tok]] else h, heap)
  {
    if Enqueues(op) {
      EnqueueCarriesQueue(st, op.tok, h, heap);
    } else if op.at == Move && st.buffer != [] {
      DequeueCarriesQueue(st, h, heap);
    }
  }

  // ---- One thread over one step ----

  lemma OthersCarry(tr: Trace, tr': Trace, t: nat, u: nat)
    requires Formed(tr) && Formed(tr') && AtMostOnce(tr.net) && t < THREADS && u < THREADS && u != t
    requires Sound(tr, u)
    requires HeapRests(tr.net, tr'.net, t) && OthersRest(tr.net, tr'.net, t)
    requires forall s | 0 <= s < STREAMS :: tr.hist[s] <= tr'.hist[s] && (s != t ==> tr'.hist[s] == tr.hist[s])
    ensures Sound(tr', u)
  {
    var net, net' := tr.net, tr'.net;
    forall x | x in net.heap && Held(net.threads[u], net.ops[u], x) > 0
      ensures x in net'.heap && net'.heap[x] == net.heap[x]
    {
      HeldRests(net, net', t, u, x);
    }
    CarriesFrame(u, net.threads[u], net.ops[u], net.streams, net'.streams, tr.hist, tr'.hist, net.heap, net'.heap);
  }

  // For each kind of action of a put or a get.
  lemma ReturnStepCarries(tr: Trace, t: nat)
    requires Formed(tr) && t < THREADS && !tr.net.ops[t].Idle? && tr.net.ops[t].at == Announce
    requires Sound(tr, t)
    ensures var net' := Act(tr.net, t); ThreadCarries(t, net'.threads[t], net'.ops[t], net'.streams, tr.hist, net'.heap)
  {
    var net, net', op, th := tr.net, Act(tr.net, t), tr.net.ops[t], tr.net.threads[t];
    var (th', op') := Resume(t, th, op);
    ReturnCarries(t, th, op, net.streams, net'.streams, tr.hist, net.heap);
    assert net'.threads[t] == th' && net'.ops[t] == op' && net'.heap == net.heap;
  }

  lemma WaitStepCarries(tr: Trace, t: nat)
    requires Formed(tr) && t < THREADS && !tr.net.ops[t].Idle? && Enabled(tr.net, t)
    requires tr.net.ops[t].at != Announce && tr.net.ops[t].at != Move
    requires Sound(tr, t)
    ensures var net' := Act(tr.net, t); ThreadCarries(t, net'.threads[t], net'.ops[t], net'.streams, tr.hist, net'.heap)
  {
    var net, net', op, th := tr.net, Act(tr.net, t), tr.net.ops[t], tr.net.threads[t];
    WaitCarries(t, th, op, net.streams, net'.streams, tr.hist, net.heap);
    assert net'.threads[t] == th && net'.ops[t] == AdvanceOp(net.streams[op.s], op) && net'.heap == net.heap;
  }

  lemma EnqueueStepCarries(tr: Trace, t: nat)
    requires Formed(tr) && t < THREADS && Enqueues(tr.net.ops[t])
    requires Sound(tr, t)
    requires forall s | 0 <= s < STREAMS :: HistoryRight(s, tr.hist[s])
    ensures var tr', op := Next(tr, Step(t)), tr.net.ops[t];
            && op.s == t && op.tok in tr.net.heap && tr'.hist == tr.hist[t := tr.hist[t] + [tr.net.heap[op.tok]]]
            && HistoryRight(t, tr'.hist[t])
            && Sound(tr', t)
  {
    var net, net', op, th := tr.net, Act(tr.net, t), tr.net.ops[t], tr.net.threads[t];
    assert Fits(t, th, op);
    EnqueueCarries(t, th, op, net.streams, net'.streams, tr.hist, net.heap);
    assert net'.threads[t] == th && net'.ops[t] == At(op, Unlock) && net'.heap == net.heap;
  }

  lemma DequeueStepCarries(tr: Trace, t: nat)
    requires Formed(tr) && t < THREADS && tr.net.ops[t].Get? && tr.net.ops[t].at == Move
    requires Sound(tr, t)
    requires var s := tr.net.ops[t].s; HistoryRight(s, tr.hist[s]) && tr.net.streams[s].buffer != [] &&
                                       QueueCarries(tr.net.streams[s], tr.hist[s], tr.net.heap)
    ensures var net' := Act(tr.net, t); ThreadCarries(t, net'.threads[t], net'.ops[t], net'.streams, tr.hist, net'.heap)
  {
    var net, net', op, th := tr.net, Act(tr.net, t), tr.net.ops[t], tr.net.threads[t];
    DequeueCarries(t, th, op, net.streams, net'.streams, tr.hist, net.heap);
    assert net'.threads[t] == th && net'.heap == net.heap;
    assert net'.ops[t] == Get(op.s, Some(net.streams[op.s].buffer[0]), Unlock);
  }

  lemma OpCarriesQueue(tr: Trace, t: nat, s: nat)
    requires Formed(tr) && t < THREADS && !tr.net.ops[t].Idle? && Enabled(tr.net, t) && s < STREAMS
    requires QueueCarries(tr.net.streams[s], tr.hist[s], tr.net.heap)
    requires Enqueues(tr.net.ops[t]) ==> tr.net.ops[t].tok in tr.net.heap
    ensures var tr' := Next(tr, Step(t)); QueueCarries(tr'.net.streams[s], tr'.hist[s], tr'.net.heap)
  {
    if s == tr.net.ops[t].s {
      AdvanceCarriesQueue(tr.net.streams[s], tr.net.ops[t], tr.hist[s], tr.net.heap);
    }
  }

  // ---- Broken operations ----

  lemma BrokenIsOp(net: Net, t: nat)
    requires Shape(net) && t < THREADS && Waiting(net.ops[t])
    ensures OpMoved(net, Broken(net, t), t)
  {
  }

  lemma BrokenKeepsBalance(net: Net, t: nat)
    requires Shape(net) && AllBalanced(net.streams, net.ops) && t < THREADS && Waiting(net.ops[t])
    ensures AllBalanced(Broken(net, t).streams, Broken(net, t).ops)
  {
    InterruptKeepsBalance(net.streams, net.ops, t);
    ReturnKeepsBalance(Broken(net, t).streams, net.ops, t, Broken(net, t).ops[t]);
  }

  lemma BrokenCarries(tr: Trace, t: nat)
    requires Formed(tr) && t < THREADS && tr.net.ops[t].Put? && Waiting(tr.net.ops[t])
    requires Sound(tr, t)
    ensures var net' := Broken(tr.net, t); ThreadCarries(t, net'.threads[t], net'.ops[t], net'.streams, tr.hist, net'.heap)
  {
    var net, net', op, th := tr.net, Broken(tr.net, t), tr.net.ops[t], tr.net.threads[t];
    var (th', op') := Resume(t, th, op);
    BreakCarries(t, th, op, net.streams, net'.streams, tr.hist, net.heap);
    assert net'.threads[t] == th' && net'.ops[t] == op' && net'.heap == net.heap;
  }

  lemma BrokenCarriesQueue(tr: Trace, t: nat, s: nat)
    requires Formed(tr) && t < THREADS && Waiting(tr.net.ops[t]) && s < STREAMS
    requires QueueCarries(tr.net.streams[s], tr.hist[s], tr.net.heap)
    ensures QueueCarries(Broken(tr.net, t).streams[s], tr.hist[s], Broken(tr.net, t).heap)
  {
  }

  // ---- Threads whose get was broken off ----

  // The next local work of the thread touches NULL; merge may finish its other
  // first get before.
  predicate Doomed(th: Thread, op: Op) {
    match th
    case Successor(_) => false
    case Times(value) => op.Idle? && value.None?
    case Merge(a, b, at) => (at == FirstB && a.None?) || (at == Compare && (a.None? || b.None?))
    case Consumer(i, value, _) => op.Idle? && i < TO_CONSUME && value.None?
  }

  lemma DoomTouchesNull(net: Net, t: nat)
    requires Shape(net) && t < THREADS && net.ops[t].Idle? && Doomed(net.threads[t], net.ops[t])
    ensures None in Touched(net.threads[t]) && !Enabled(net, t)
  {
    assert Fits(t, net.threads[t], net.ops[t]);
    var th := net.threads[t];
    assert Touched(th)[if th.Merge? && th.a.Some? then 1 else 0] == None;
  }

  lemma DoomStays(tr: Trace, e: NetEvent, t: nat)
    requires Formed(tr) && CanHappen(tr.net, e) && t < THREADS && Doomed(tr.net.threads[t], tr.net.ops[t])
    ensures var net' := Next(tr, e).net; Doomed(net'.threads[t], net'.ops[t])
  {
    assert Fits(t, tr.net.threads[t], tr.net.ops[t]);
    if e.t != t {
      assert Next(tr, e).net.threads[t] == tr.net.threads[t] && Next(tr, e).net.ops[t] == tr.net.ops[t];
    }
  }

  predicate Counting(net: Net)
    requires Shape(net)
  {
    net.threads[CONS].Consumer? && net.ops[CONS].Get? ==> net.threads[CONS].i < TO_CONSUME
  }

  lemma NextCounts(tr: Trace, e: NetEvent)
    requires Formed(tr) && CanHappen(tr.net, e) && Counting(tr.net)
    ensures Counting(Next(tr, e).net)
  {
    assert Fits(CONS, tr.net.threads[CONS], tr.net.ops[CONS]);
    if e.t != CONS {
      assert Next(tr, e).net.threads[CONS] == tr.net.threads[CONS] && Next(tr, e).net.ops[CONS] == tr.net.ops[CONS];
    }
  }

  lemma BreakGetDooms(net: Net, t: nat)
    requires Shape(net) && Counting(net) && CanHappen(net, BreakGet(t))
    ensures Doomed(Broken(net, t).threads[t], Broken(net, t).ops[t])
  {
    assert Fits(t, net.threads[t], net.ops[t]);
  }
}

// What holds of every run of the network, whatever waits are interrupted.
module LossyTheorems {
  import opened Options
  import opened StreamProtocol
  import opened MergeOrder
  import opened Tally
  import opened Network
  import opened NetworkInvariant
  import opened NetworkSafety
  import opened NetworkTheorems
  import opened NetworkLosses

  // ---- The streams ----

  predicate StreamRight(tr: Trace, s: nat)
    requires Formed(tr) && s < STREAMS
  {
    HistoryRight(s, tr.hist[s]) && QueueCarries(tr.net.streams[s], tr.hist[s], tr.net.heap)
  }

  // Accounting, tokens, heap and queues, without a word about threads.
  ghost predicate StreamsRight(tr: Trace) {
    && Formed(tr) && AllBalanced(tr.net.streams, tr.net.ops) && AtMostOnce(tr.net) && HeapRight(tr.net)
    && Counting(tr.net) && forall s | 0 <= s < STREAMS :: StreamRight(tr, s)
  }

  // Histories only grow, and only by what thread t puts.
  predicate HistoryRests(tr: Trace, tr': Trace, t: nat)
    requires Formed(tr) && Formed(tr')
  {
    forall s | 0 <= s < STREAMS :: tr.hist[s] <= tr'.hist[s] && (s != t ==> tr'.hist[s] == tr.hist[s])
  }

  ghost predicate Rests(tr: Trace, tr': Trace, t: nat)
    requires Formed(tr) && Formed(tr') && t < THREADS
  {
    HeapRests(tr.net, tr'.net, t) && OthersRest(tr.net, tr'.net, t) && HistoryRests(tr, tr', t)
  }

  lemma StepKeepsCopies(net: Net, t: nat)
    requires Shape(net) && AtMostOnce(net) && Counting(net) && t < THREADS && Enabled(net, t)
    requires AllBalanced(net.streams, net.ops)
    ensures AtMostOnce(Act(net, t))
  {
    NextAfter(net, t);
    assert Fits(t, net.threads[t], net.ops[t]);
    forall x: Token ensures Sum(Copies(Act(net, t), x)) <= if x < Act(net, t).next then 1 else 0 {
      StepCopies(net, t, x);
      assert Sum(Copies(net, x)) <= if x < net.next then 1 else 0;
    }
  }

  // What a step does to accounting, tokens and heap, and what it leaves alone.
  lemma StepKeepsBase(tr: Trace, t: nat)
    requires StreamsRight(tr) && t < THREADS && Enabled(tr.net, t)
    ensures var net' := Act(tr.net, t);
            && AllBalanced(net'.streams, net'.ops) && AtMostOnce(net') && HeapRight(net') && Counting(net')
            && HeapRests(tr.net, net', t) && OthersRest(tr.net, net', t)
  {
    StepKeepsBalance(tr.net, t);
    StepKeepsCopies(tr.net, t);
    StepRests(tr.net, t);
    NextCounts(tr, Step(t));
  }

  lemma WorkKeepsStreams(tr: Trace, t: nat)
    requires StreamsRight(tr) && t < THREADS && tr.net.ops[t].Idle? && Enabled(tr.net, t)
    ensures StreamsRight(Next(tr, Step(t))) && Rests(tr, Next(tr, Step(t)), t)
  {
    StepKeepsBase(tr, t);
    var tr' := Next(tr, Step(t));
    forall s | 0 <= s < STREAMS ensures StreamRight(tr', s) {
      assert StreamRight(tr, s);
      QueueCarriesRests(tr.net, tr'.net, t, s, tr.hist[s]);
    }
  }

  lemma QuietKeepsStreams(tr: Trace, t: nat)
    requires StreamsRight(tr) && t < THREADS && !tr.net.ops[t].Idle? && Enabled(tr.net, t) && !Enqueues(tr.net.ops[t])
    ensures StreamsRight(Next(tr, Step(t))) && Rests(tr, Next(tr, Step(t)), t)
  {
    StepKeepsBase(tr, t);
    var tr' := Next(tr, Step(t));
    forall s | 0 <= s < STREAMS ensures StreamRight(tr', s) {
      assert StreamRight(tr, s);
      OpCarriesQueue(tr, t, s);
    }
  }

  lemma EnqueueKeepsHistory(tr: Trace, t: nat)
    requires StreamsRight(tr) && t < THREADS && Enqueues(tr.net.ops[t]) && Sound(tr, t)
    ensures Sound(Next(tr, Step(t)), t) && tr.net.ops[t].tok in tr.net.heap
    ensures HistoryRests(tr, Next(tr, Step(t)), t)
    ensures forall s | 0 <= s < STREAMS :: HistoryRight(s, Next(tr, Step(t)).hist[s])
  {
    forall s | 0 <= s < STREAMS ensures HistoryRight(s, tr.hist[s]) {
      assert StreamRight(tr, s);
    }
    EnqueueStepCarries(tr, t);
  }

  lemma EnqueueKeepsStreams(tr: Trace, t: nat)
    requires StreamsRight(tr) && t < THREADS && Enqueues(tr.net.ops[t]) && Sound(tr, t)
    ensures StreamsRight(Next(tr, Step(t))) && Rests(tr, Next(tr, Step(t)), t)
  {
    StepKeepsBase(tr, t);
    EnqueueKeepsHistory(tr, t);
    var tr' := Next(tr, Step(t));
    forall s | 0 <= s < STREAMS ensures StreamRight(tr', s) {
      assert StreamRight(tr, s);
      OpCarriesQueue(tr, t, s);
    }
  }

  // The token an interrupted put was about to move; an interrupted get has none.
  function Dropping(op: Op, x: Token): nat {
    if op.Put? && op.tok == x then 1 else 0
  }

  // A broken put gives up exactly the token it was called with, and a broken get
  // gives up nothing.
  lemma BreakDropsHeld(t: nat, th: Thread, op: Op, x: Token)
    requires Fits(t, th, op) && Waiting(op) && (th.Consumer? ==> th.i < TO_CONSUME)
    ensures var (th', op') := Resume(t, th, if op.Get? then Get(op.s, None, op.at) else op);
            Held(th', op', x) + Dropping(op, x) == Held(th, op, x)
  {
  }

  lemma BrokenCopies(net: Net, t: nat, x: Token)
    requires Shape(net) && Counting(net) && t < THREADS && Waiting(net.ops[t])
    ensures Sum(Copies(Broken(net, t), x)) + Dropping(net.ops[t], x) == Sum(Copies(net, x))
  {
    BrokenIsOp(net, t);
    assert Fits(t, net.threads[t], net.ops[t]);
    BreakDropsHeld(t, net.threads[t], net.ops[t], x);
    OpCopies(net, Broken(net, t), t, x);
  }

  lemma BrokenKeepsCopies(net: Net, t: nat)
    requires Shape(net) && AtMostOnce(net) && Counting(net) && t < THREADS && Waiting(net.ops[t])
    ensures AtMostOnce(Broken(net, t))
  {
    forall x: Token ensures Sum(Copies(Broken(net, t), x)) <= if x < Broken(net, t).next then 1 else 0 {
      BrokenCopies(net, t, x);
      assert Sum(Copies(net, x)) <= if x < net.next then 1 else 0;
    }
  }

  lemma BreakKeepsStreams(tr: Trace, e: NetEvent)
    requires StreamsRight(tr) && CanHappen(tr.net, e) && !e.Step?
    ensures StreamsRight(Next(tr, e)) && Rests(tr, Next(tr, e), e.t)
  {
    BrokenKeepsBalance(tr.net, e.t);
    BrokenKeepsCopies(tr.net, e.t);
    BrokenIsOp(tr.net, e.t);
    OpLeavesOthers(tr.net, Broken(tr.net, e.t), e.t);
    NextCounts(tr, e);
    forall s | 0 <= s < STREAMS ensures StreamRight(Next(tr, e), s) {
      assert StreamRight(tr, s);
      BrokenCarriesQueue(tr, e.t, s);
    }
  }

  lemma EventKeepsStreams(tr: Trace, e: NetEvent)
    requires StreamsRight(tr) && CanHappen(tr.net, e)
    requires e.Step? && Enqueues(tr.net.ops[e.t]) ==> Sound(tr, e.t)
    ensures StreamsRight(Next(tr, e)) && Rests(tr, Next(tr, e), e.t)
  {
    if !e.Step? {
      BreakKeepsStreams(tr, e);
    } else if tr.net.ops[e.t].Idle? {
      WorkKeepsStreams(tr, e.t);
    } else if Enqueues(tr.net.ops[e.t]) {
      EnqueueKeepsStreams(tr, e.t);
    } else {
      QuietKeepsStreams(tr, e.t);
    }
  }

  // ---- The threads ----

  lemma QuietKeepsSound(tr: Trace, t: nat)
    requires StreamsRight(tr) && t < THREADS && Sound(tr, t)
    requires !tr.net.ops[t].Idle? && Enabled(tr.net, t) && !Enqueues(tr.net.ops[t])
    ensures Sound(Next(tr, Step(t)), t)
  {
    var net, op := tr.net, tr.net.ops[t];
    if op.at == Announce {
      ReturnStepCarries(tr, t);
    } else if op.at != Move {
      WaitStepCarries(tr, t);
    } else {
      assert Balanced(net.streams[op.s], net.ops, op.s);
      MoveIsSafe(net.streams[op.s], net.ops, t);
      assert StreamRight(tr, op.s);
      DequeueStepCarries(tr, t);
    }
  }

  lemma MoverStaysSound(tr: Trace, e: NetEvent)
    requires StreamsRight(tr) && CanHappen(tr.net, e) && !e.BreakGet? && Sound(tr, e.t)
    ensures Sound(Next(tr, e), e.t)
  {
    if e.BreakPut? {
      BrokenCarries(tr, e.t);
    } else if tr.net.ops[e.t].Idle? {
      WorkCarries(tr.net, e.t, tr.hist);
    } else if Enqueues(tr.net.ops[e.t]) {
      EnqueueKeepsHistory(tr, e.t);
    } else {
      QuietKeepsSound(tr, e.t);
    }
  }

  // A thread is doomed if one of its gets was interrupted, and sound otherwise.
  ghost predicate ThreadRight(tr: Trace, t: nat, events: seq<NetEvent>)
    requires Formed(tr) && t < THREADS
  {
    if BreakGet(t) in events then Doomed(tr.net.threads[t], tr.net.ops[t]) else Sound(tr, t)
  }

  lemma ThreadStaysRight(tr: Trace, before: seq<NetEvent>, e: NetEvent, u: nat)
    requires StreamsRight(tr) && CanHappen(tr.net, e) && u < THREADS && ThreadRight(tr, u, before)
    requires Rests(tr, Next(tr, e), e.t)
    ensures ThreadRight(Next(tr, e), u, before + [e])
  {
    if BreakGet(u) in before {
      DoomStays(tr, e, u);
    } else if e == BreakGet(u) {
      BreakGetDooms(tr.net, u);
    } else if e.t == u {
      MoverStaysSound(tr, e);
    } else {
      OthersCarry(tr, Next(tr, e), e.t, u);
    }
  }

  // ---- The output ----

  lemma CountInPrefix(out: seq<int>, i: nat, j: nat, v: int)
    requires i <= j <= |out|
    ensures multiset(out[..i])[v] <= multiset(out[..j])[v]
  {
    assert out[..j] == out[..i] + out[i..j];
  }

  lemma CountGrows(out: seq<int>, k: nat)
    requires k < |out|
    ensures multiset(out[..k + 1])[out[k]] == multiset(out[..k])[out[k]] + 1
  {
    assert out[..k + 1] == out[..k] + [out[k]];
  }

  // Where value number k of out is in the merge: after the smaller multiples
  // and the equal values before it.
  function Place(out: seq<int>, k: nat): int
    requires k < |out|
  {
    (out[k] - 1) / 3 + (out[k] - 1) / 5 + multiset(out[..k])[out[k]]
  }

  // Each positive value occurs at most once for each of 3 and 5 that divides it.
  ghost predicate Sparse(out: seq<int>) {
    forall v: int :: multiset(out)[v] <= Spent(v, 5, v, true) + Spent(v, 3, v, true)
  }

  lemma SparseIsPositive(out: seq<int>, k: nat)
    requires Sparse(out) && k < |out|
    ensures out[k] > 0 && multiset(out[..k])[out[k]] < Spent(out[k], 5, out[k], true) + Spent(out[k], 3, out[k], true)
  {
    var v := out[k];
    assert multiset(out)[v] <= Spent(v, 5, v, true) + Spent(v, 3, v, true);
    CountGrows(out, k);
    CountInPrefix(out, k + 1, |out|, v);
    assert out[..|out|] == out;
  }

  lemma RankOf(v: int, n: nat)
    requires v > 0 && n < Spent(v, 5, v, true) + Spent(v, 3, v, true)
    ensures IsRanked(v, (v - 1) / 3 + (v - 1) / 5 + n)
  {
  }

  lemma PlaceIsRight(out: seq<int>, k: nat)
    requires Sparse(out) && k < |out|
    ensures Place(out, k) >= 0 && IsRanked(out[k], Place(out, k)) && Merged(Fives, Threes, Place(out, k)) == out[k]
  {
    SparseIsPositive(out, k);
    RankOf(out[k], multiset(out[..k])[out[k]]);
    MergedIsRanked(Place(out, k));
  }

  lemma PlacesRise(out: seq<int>, i: nat, j: nat)
    requires Sparse(out) && Sorted(out) && i < j < |out|
    ensures Place(out, i) < Place(out, j)
  {
    if out[i] == out[j] {
      EqualPlacesRise(out, i, j);
    } else {
      PlaceIsRight(out, i);
      RankBelow(out[i], out[j], Place(out, i));
    }
  }

  lemma EqualPlacesRise(out: seq<int>, i: nat, j: nat)
    requires i < j < |out| && out[i] == out[j]
    ensures Place(out, i) < Place(out, j)
  {
    CountGrows(out, i);
    CountInPrefix(out, i + 1, j, out[i]);
  }

  lemma RankBelow(v: int, w: int, n: nat)
    requires v < w && IsRanked(v, n)
    ensures n < (w - 1) / 3 + (w - 1) / 5
  {
    assert v / 3 <= (w - 1) / 3 && v / 5 <= (w - 1) / 5;
  }

  // What is put out, and the part of it that is printed.
  ghost predicate OutputRight(tr: Trace)
    requires Formed(tr)
  {
    && Sparse(tr.hist[MRG]) && tr.net.threads[CONS].Consumer?
    && |tr.net.threads[CONS].got| <= TO_CONSUME && tr.net.threads[CONS].got <= tr.hist[MRG]
  }

  lemma SpentIsSparse(out: seq<int>, va: int, goneA: bool, vb: int, goneB: bool)
    requires SpentRight(out, va, goneA, vb, goneB)
    ensures Sparse(out)
  {
    forall v: int ensures multiset(out)[v] <= Spent(v, 5, v, true) + Spent(v, 3, v, true) {
      assert Spent(v, 5, va, goneA) <= Spent(v, 5, v, true) && Spent(v, 3, vb, goneB) <= Spent(v, 3, v, true);
    }
  }

  lemma SoundMergeIsSparse(tr: Trace)
    requires Formed(tr) && Sound(tr, MRG)
    ensures Sparse(tr.hist[MRG])
  {
    var net, th, op := tr.net, tr.net.threads[MRG], tr.net.ops[MRG];
    assert Fits(MRG, th, op);
    var va, vb := Latest(tr.hist[TMS2], net.streams[TMS2].taken), Latest(tr.hist[TMS1], net.streams[TMS1].taken);
    SpentIsSparse(tr.hist[MRG], va, GoneA(th, op), vb, GoneB(th, op));
  }

  lemma SoundConsumerPrints(tr: Trace)
    requires Formed(tr) && Sound(tr, CONS)
    ensures var th := tr.net.threads[CONS]; th.Consumer? && |th.got| <= TO_CONSUME && th.got <= tr.hist[MRG]
  {
    assert Fits(CONS, tr.net.threads[CONS], tr.net.ops[CONS]);
  }

  // Only merge puts out, and only the consumer prints; a doomed thread does neither.
  lemma OutputStaysRight(tr: Trace, e: NetEvent)
    requires Formed(tr) && CanHappen(tr.net, e) && OutputRight(tr) && Rests(tr, Next(tr, e), e.t)
    requires e.Step? && Enqueues(tr.net.ops[e.t]) ==> Sound(Next(tr, e), e.t)
    requires e.Step? && tr.net.ops[e.t].Idle? ==> Sound(Next(tr, e), e.t)
    ensures OutputRight(Next(tr, e))
  {
    var tr' := Next(tr, e);
    if e.t == MRG && e.Step? && Enqueues(tr.net.ops[MRG]) {
      SoundMergeIsSparse(tr');
    } else {
      assert tr'.hist[MRG] == tr.hist[MRG];
    }
    if e.t == CONS && e.Step? && tr.net.ops[CONS].Idle? {
      SoundConsumerPrints(tr');
    } else {
      GotRests(tr, e);
    }
  }

  lemma GotRests(tr: Trace, e: NetEvent)
    requires Formed(tr) && CanHappen(tr.net, e) && !(e == Step(CONS) && tr.net.ops[CONS].Idle?)
    requires tr.net.threads[CONS].Consumer? && OthersRest(tr.net, Next(tr, e).net, e.t)
    ensures var th := Next(tr, e).net.threads[CONS]; th.Consumer? && th.got == tr.net.threads[CONS].got
  {
    assert Fits(CONS, tr.net.threads[CONS], tr.net.ops[CONS]);
  }

  // ---- Every run ----

  ghost predicate LossyInvariant(tr: Trace, events: seq<NetEvent>) {
    StreamsRight(tr) && OutputRight(tr) && forall t | 0 <= t < THREADS :: ThreadRight(tr, t, events)
  }

  // Local work and enqueueing are what only a sound thread does.
  predicate Acts(net: Net, e: NetEvent)
    requires Shape(net) && e.t < THREADS
  {
    e.Step? && (Enqueues(net.ops[e.t]) || net.ops[e.t].Idle?)
  }

  lemma ActorIsSound(tr: Trace, before: seq<NetEvent>, e: NetEvent)
    requires Formed(tr) && CanHappen(tr.net, e) && Acts(tr.net, e) && ThreadRight(tr, e.t, before)
    ensures Sound(tr, e.t)
  {
    assert Fits(e.t, tr.net.threads[e.t], tr.net.ops[e.t]);
  }

  lemma EventKeepsOutput(tr: Trace, before: seq<NetEvent>, e: NetEvent)
    requires LossyInvariant(tr, before) && CanHappen(tr.net, e) && Rests(tr, Next(tr, e), e.t)
    ensures OutputRight(Next(tr, e))
  {
    if Acts(tr.net, e) {
      assert ThreadRight(tr, e.t, before);
      ActorIsSound(tr, before, e);
      MoverStaysSound(tr, e);
    }
    OutputStaysRight(tr, e);
  }

  lemma EventKeepsLossy(tr: Trace, before: seq<NetEvent>, e: NetEvent)
    requires LossyInvariant(tr, before) && CanHappen(tr.net, e)
    ensures LossyInvariant(Next(tr, e), before + [e])
  {
    if Acts(tr.net, e) {
      assert ThreadRight(tr, e.t, before);
      ActorIsSound(tr, before, e);
    }
    EventKeepsStreams(tr, e);
    EventKeepsOutput(tr, before, e);
    forall u | 0 <= u < THREADS ensures ThreadRight(Next(tr, e), u, before + [e]) {
      ThreadStaysRight(tr, before, e, u);
    }
  }

  lemma InitialLossy()
    ensures LossyInvariant(Trace(INITIAL, [[], [], [], [], []]), [])
  {
    InitialInvariant();
    OnceIsAtMostOnce(INITIAL);
    var tr := Trace(INITIAL, [[], [], [], [], []]);
    forall s | 0 <= s < STREAMS ensures StreamRight(tr, s) {
    }
    forall t | 0 <= t < THREADS ensures ThreadRight(tr, t, []) {
      InitialSound(t);
    }
  }

  lemma InitialSound(t: nat)
    requires t < THREADS
    ensures Sound(Trace(INITIAL, [[], [], [], [], []]), t)
  {
  }

  // Every state of every run, whatever was interrupted.
  lemma {:induction false} RunsKeepLossy(events: seq<NetEvent>)
    ensures Run(events).Some? ==> LossyInvariant(Run(events).value, events)
  {
    if events == [] {
      InitialLossy();
    } else {
      var before, e := events[..|events|-1], events[|events|-1];
      RunsKeepLossy(before);
      if Run(events).Some? {
        EventKeepsLossy(Run(before).value, before, e);
        assert events == before + [e];
      }
    }
  }

  // Without interruptions these are the runs of the network.
  lemma {:induction false} UnbrokenIsExecute(schedule: seq<nat>)
    ensures var r := Run(seq(|schedule|, k requires 0 <= k < |schedule| => Step(schedule[k])));
            Execute(schedule) == if r.Some? then Some(r.value.net) else None
  {
    var events := seq(|schedule|, k requires 0 <= k < |schedule| => Step(schedule[k]));
    if schedule != [] {
      var fewer := schedule[..|schedule|-1];
      UnbrokenIsExecute(fewer);
      assert events[..|events|-1] == seq(|fewer|, k requires 0 <= k < |fewer| => Step(fewer[k]));
    }
  }

  // ---- What is printed although tokens are lost ----

  // Whatever waits are interrupted, what is printed is a subsequence of the
  // sorted merge: printed value number k is its token number places[k].
  lemma PrintedIsSubsequenceOfMerge(events: seq<NetEvent>, tr: Trace) returns (places: seq<nat>)
    requires Run(events) == Some(tr)
    ensures tr.net.threads[CONS].Consumer? && |places| == |tr.net.threads[CONS].got| <= TO_CONSUME
    ensures forall i, j | 0 <= i < j < |places| :: places[i] < places[j]
    ensures forall k | 0 <= k < |places| :: tr.net.threads[CONS].got[k] == Merged(Fives, Threes, places[k])
  {
    RunsKeepLossy(events);
    assert StreamRight(tr, MRG);
    var out, got := tr.hist[MRG], tr.net.threads[CONS].got;
    forall k | 0 <= k < |out| ensures Place(out, k) >= 0 && Merged(Fives, Threes, Place(out, k)) == out[k] {
      PlaceIsRight(out, k);
    }
    forall i, j | 0 <= i < j < |out| ensures Place(out, i) < Place(out, j) {
      PlacesRise(out, i, j);
    }
    places := seq(|got|, k requires 0 <= k < |got| => Place(out, k));
  }

  // ---- What is touched ----

  lemma SoundTouchesHeld(tr: Trace, t: nat, k: nat)
    requires Formed(tr) && t < THREADS && Sound(tr, t) && tr.net.ops[t].Idle? && k < |Touched(tr.net.threads[t])|
    ensures var p := Touched(tr.net.threads[t])[k];
            Enabled(tr.net, t) && Readable(p, tr.net.heap) && Held(tr.net.threads[t], tr.net.ops[t], p.value) > 0
  {
    assert Fits(t, tr.net.threads[t], tr.net.ops[t]);
  }

  // A thread with local work to do can do it, and touches only live tokens that
  // it alone holds, if and only if none of its own gets was ever interrupted.
  lemma TouchedIsExclusiveUnlessBroken(events: seq<NetEvent>, tr: Trace, t: nat)
    requires Run(events) == Some(tr) && t < THREADS && tr.net.ops[t].Idle? && Touched(tr.net.threads[t]) != []
    ensures (Enabled(tr.net, t) && forall p | p in Touched(tr.net.threads[t]) :: OwnedAlone(tr.net, t, p))
            <==> BreakGet(t) !in events
  {
    RunsKeepLossy(events);
    assert ThreadRight(tr, t, events);
    var touched := Touched(tr.net.threads[t]);
    if BreakGet(t) in events {
      DoomTouchesNull(tr.net, t);
    } else {
      SoundTouchesHeld(tr, t, 0);
      forall p | p in touched ensures OwnedAlone(tr.net, t, p) {
        var k :| 0 <= k < |touched| && touched[k] == p;
        SoundTouchesHeld(tr, t, k);
        HeldIsOwned(tr.net, t, p.value);
      }
    }
  }

  // Once a get of a thread was interrupted, the thread has only NULL to work on,
  // whatever happens afterwards.
  lemma InterruptedGetIsFatal(events: seq<NetEvent>, tr: Trace, t: nat)
    requires Run(events) == Some(tr) && t < THREADS && BreakGet(t) in events
    ensures Doomed(tr.net.threads[t], tr.net.ops[t])
  {
    RunsKeepLossy(events);
    assert ThreadRight(tr, t, events);
  }

  // ---- Where the tokens are ----

  // The tokens of the interrupted puts, in order.
  function Dropped(events: seq<NetEvent>): seq<Token>
    requires Run(events).Some?
  {
    if events == [] then [] else
    var before, e := events[..|events|-1], events[|events|-1];
    var op := Run(before).value.net.ops[e.t];
    Dropped(before) + if e.BreakPut? then [op.tok] else []
  }

  lemma StepKeepsPlaces(tr: Trace, t: nat, x: Token)
    requires StreamsRight(tr) && t < THREADS && Enabled(tr.net, t)
    ensures Sum(Copies(Act(tr.net, t), x)) == Sum(Copies(tr.net, x)) + if tr.net.next <= x < Act(tr.net, t).next then 1 else 0
  {
    assert Fits(t, tr.net.threads[t], tr.net.ops[t]);
    NextAfter(tr.net, t);
    StepCopies(tr.net, t, x);
  }

  lemma BrokenHadIt(net: Net, t: nat)
    requires Shape(net) && Counting(net) && t < THREADS && Waiting(net.ops[t]) && net.ops[t].Put?
    ensures Sum(Copies(net, net.ops[t].tok)) > 0
  {
    BrokenCopies(net, t, net.ops[t].tok);
  }

  // Whatever is interrupted, every token ever allocated is in exactly one queue,
  // one thread's hands or freed, once, except for the tokens of interrupted puts:
  // those are nowhere. Each of them is dropped once.
  lemma {:induction false} TokensOnceOrDropped(events: seq<NetEvent>, tr: Trace, x: Token)
    requires Run(events) == Some(tr)
    ensures Sum(Copies(tr.net, x)) == if x < tr.net.next && x !in Dropped(events) then 1 else 0
    ensures multiset(Dropped(events))[x] <= if x < tr.net.next then 1 else 0
    decreases |events|
  {
    if events == [] {
      InitialTokens();
    } else {
      var before, e := events[..|events|-1], events[|events|-1];
      var prev := Run(before).value;
      RunsKeepLossy(before);
      TokensOnceOrDropped(before, prev, x);
      if e.Step? {
        StepKeepsPlaces(prev, e.t, x);
        NextAfter(prev.net, e.t);
      } else {
        BrokenCopies(prev.net, e.t, x);
        if e.BreakPut? && prev.net.ops[e.t].tok == x {
          BrokenHadIt(prev.net, e.t);
        }
      }
    }
  }

  // A dropped token is never freed: its memory is lost, and nobody can get at it.
  lemma DroppedLeaks(events: seq<NetEvent>, tr: Trace, x: Token)
    requires Run(events) == Some(tr) && x in Dropped(events)
    ensures x in tr.net.heap
    ensures forall s | 0 <= s < STREAMS :: x !in tr.net.streams[s].buffer
    ensures forall t | 0 <= t < THREADS :: Held(tr.net.threads[t], tr.net.ops[t], x) == 0
  {
    RunsKeepLossy(events);
    TokensOnceOrDropped(events, tr, x);
    var c := Copies(tr.net, x);
    forall p | 0 <= p < 12 ensures c[p] == 0 {
      SumIncludes(c, p);
    }
    forall s | 0 <= s < STREAMS ensures x !in tr.net.streams[s].buffer {
      assert c[s] == 0;
    }
    forall t | 0 <= t < THREADS ensures Held(tr.net.threads[t], tr.net.ops[t], x) == 0 {
      assert c[HandOf(t)] == 0;
    }
    assert c[FREED] == 0;
  }
}

// How far the counters of the network run when puts are interrupted, and when
// that is further than an int goes.
module LossyBounds {
  import opened Options
  import opened StreamProtocol
  import opened MergeOrder
  import opened Tally
  import opened Network
  import opened NetworkInvariant
  import opened NetworkSafety
  import opened NetworkTheorems
  import opened NetworkLosses
  import opened LossyTheorems

  const INT_MAX: int := 0x7fff_ffff

  // How many puts of thread t were interrupted.
  function Breaks(events: seq<NetEvent>, t: nat): nat {
    multiset(events)[BreakPut(t)]
  }

  lemma BreaksAppended(before: seq<NetEvent>, e: NetEvent, t: nat)
    ensures Breaks(before + [e], t) == Breaks(before, t) + if e == BreakPut(t) then 1 else 0
  {
  }

  // ---- What a thread got, put and lost ----

  // At most this many tokens are in the hands of a thread.
  function InHands(th: Thread, op: Op): nat
    requires th.Merge? ==> Fits(MRG, th, op)
  {
    match th
    case Successor(_) => if op.Put? && Moved(op) then 0 else 1
    case Times(_) => if op.Idle? then 1 else if op.Get? == Moved(op) then 1 else 0
    case Merge(_, _, at) =>
      (match at
       case FirstA => if Moved(op) then 1 else 0
       case FirstB => if Moved(op) then 2 else 1
       case Compare => 2
       case EmitA => if Moved(op) then 1 else 2
       case EmitB => if Moved(op) then 1 else 2
       case FetchA => if Moved(op) then 2 else 1
       case FetchB => if Moved(op) then 2 else 1)
    case Consumer(i, _, _) => if op.Idle? then (if i < TO_CONSUME then 1 else 0) else if Moved(op) then 1 else 0
  }

  // b puts were interrupted. What was made or got is no more than what was put,
  // lost or printed, and what is in hand.
  predicate Accounted(t: nat, th: Thread, op: Op, streams: seq<Stream>, b: nat)
    requires Fits(t, th, op) && |streams| == STREAMS
  {
    match th
    case Successor(i) => i == streams[t].sent + b + InHands(th, op)
    case Times(_) => streams[Feed(t)].taken <= streams[t].sent + b + InHands(th, op)
    case Merge(_, _, _) => streams[TMS1].taken + streams[TMS2].taken <= streams[MRG].sent + b + InHands(th, op)
    case Consumer(i, _, _) => 0 <= i <= TO_CONSUME && (op.Get? ==> i < TO_CONSUME) && streams[MRG].taken <= i + InHands(th, op)
  }

  lemma AccountedFrame(t: nat, th: Thread, op: Op, streams: seq<Stream>, streams': seq<Stream>, b: nat)
    requires Fits(t, th, op) && |streams| == |streams'| == STREAMS && Accounted(t, th, op, streams, b)
    requires t < STREAMS ==> streams'[t].sent == streams[t].sent
    requires forall s | 0 <= s < STREAMS && Reader(s) == t :: streams'[s].taken == streams[s].taken
    ensures Accounted(t, th, op, streams', b)
  {
    assert Reader(TMS1) == Reader(TMS2) == MRG && Reader(MRG) == CONS;
    if th.Times? {
      assert Reader(Feed(t)) == t;
    }
  }

  lemma AdvanceAccounts(t: nat, th: Thread, op: Op, streams: seq<Stream>, b: nat)
    requires Fits(t, th, op) && |streams| == STREAMS && !op.Idle? && op.at != Announce && CanAdvance(streams[op.s], op)
    requires Accounted(t, th, op, streams, b)
    ensures var op' := AdvanceOp(streams[op.s], op);
            Fits(t, th, op') && Accounted(t, th, op', streams[op.s := AdvanceStream(streams[op.s], op)], b)
  {
  }

  lemma ReturnAccounts(t: nat, th: Thread, op: Op, streams: seq<Stream>, streams': seq<Stream>, b: nat)
    requires Fits(t, th, op) && |streams| == |streams'| == STREAMS && !op.Idle? && op.at == Announce
    requires Accounted(t, th, op, streams, b)
    requires forall s | 0 <= s < STREAMS :: streams'[s].sent == streams[s].sent && streams'[s].taken == streams[s].taken
    ensures var (th', op') := Resume(t, th, op); Fits(t, th', op') && Accounted(t, th', op', streams', b)
  {
  }

  lemma BreakAccounts(t: nat, th: Thread, op: Op, streams: seq<Stream>, streams': seq<Stream>, b: nat)
    requires Fits(t, th, op) && |streams| == |streams'| == STREAMS && Waiting(op)
    requires Accounted(t, th, op, streams, b)
    requires forall s | 0 <= s < STREAMS :: streams'[s].sent == streams[s].sent && streams'[s].taken == streams[s].taken
    ensures var (th', op') := Resume(t, th, if op.Get? then Get(op.s, None, op.at) else op);
            Fits(t, th', op') && Accounted(t, th', op', streams', b + if op.Put? then 1 else 0)
  {
  }

  lemma WorkAccounts(net: Net, t: nat, b: nat)
    requires Shape(net) && t < THREADS && net.ops[t].Idle? && Enabled(net, t)
    requires Accounted(t, net.threads[t], net.ops[t], net.streams, b)
    ensures var net' := Act(net, t); Accounted(t, net'.threads[t], net'.ops[t], net'.streams, b)
  {
    assert Fits(t, net.threads[t], net.ops[t]);
  }

  ghost predicate AllAccounted(net: Net, events: seq<NetEvent>)
    requires Shape(net)
  {
    forall t | 0 <= t < THREADS :: Accounted(t, net.threads[t], net.ops[t], net.streams, Breaks(events, t))
  }

  lemma OpAccounts(net: Net, t: nat, b: nat)
    requires Shape(net) && t < THREADS && !net.ops[t].Idle? && Enabled(net, t)
    requires Accounted(t, net.threads[t], net.ops[t], net.streams, b)
    ensures var net' := Act(net, t); Accounted(t, net'.threads[t], net'.ops[t], net'.streams, b)
  {
    if net.ops[t].at == Announce {
      ReturnAccounts(t, net.threads[t], net.ops[t], net.streams, Act(net, t).streams, b);
    } else {
      AdvanceAccounts(t, net.threads[t], net.ops[t], net.streams, b);
    }
  }

  lemma BrokenAccounts(net: Net, t: nat, b: nat)
    requires Shape(net) && t < THREADS && Waiting(net.ops[t])
    requires Accounted(t, net.threads[t], net.ops[t], net.streams, b)
    ensures var net' := Broken(net, t);
            Accounted(t, net'.threads[t], net'.ops[t], net'.streams, b + if net.ops[t].Put? then 1 else 0)
  {
    BreakAccounts(t, net.threads[t], net.ops[t], net.streams, Broken(net, t).streams, b);
  }

  lemma MoverAccounts(tr: Trace, e: NetEvent, b: nat)
    requires Formed(tr) && CanHappen(tr.net, e) && Accounted(e.t, tr.net.threads[e.t], tr.net.ops[e.t], tr.net.streams, b)
    ensures var net' := Next(tr, e).net;
            Accounted(e.t, net'.threads[e.t], net'.ops[e.t], net'.streams, b + if e.BreakPut? then 1 else 0)
  {
    if !e.Step? {
      BrokenAccounts(tr.net, e.t, b);
    } else if tr.net.ops[e.t].Idle? {
      WorkAccounts(tr.net, e.t, b);
    } else {
      OpAccounts(tr.net, e.t, b);
    }
  }

  lemma ThreadAccounts(tr: Trace, before: seq<NetEvent>, e: NetEvent, u: nat)
    requires Formed(tr) && CanHappen(tr.net, e) && u < THREADS && OthersRest(tr.net, Next(tr, e).net, e.t)
    requires Accounted(u, tr.net.threads[u], tr.net.ops[u], tr.net.streams, Breaks(before, u))
    ensures var net' := Next(tr, e).net; Accounted(u, net'.threads[u], net'.ops[u], net'.streams, Breaks(before + [e], u))
  {
    BreaksAppended(before, e, u);
    if u == e.t {
      MoverAccounts(tr, e, Breaks(before, u));
    } else {
      AccountedFrame(u, tr.net.threads[u], tr.net.ops[u], tr.net.streams, Next(tr, e).net.streams, Breaks(before, u));
    }
  }

  lemma EventRests(tr: Trace, before: seq<NetEvent>, e: NetEvent)
    requires LossyInvariant(tr, before) && CanHappen(tr.net, e)
    ensures Rests(tr, Next(tr, e), e.t)
  {
    if Acts(tr.net, e) {
      assert ThreadRight(tr, e.t, before);
      ActorIsSound(tr, before, e);
    }
    EventKeepsStreams(tr, e);
  }

  lemma {:induction false} RunsAccount(events: seq<NetEvent>)
    ensures Run(events).Some? ==> AllAccounted(Run(events).value.net, events)
  {
    if events != [] && Run(events).Some? {
      var before, e := events[..|events|-1], events[|events|-1];
      RunsAccount(before);
      RunsKeepLossy(before);
      EventRests(Run(before).value, before, e);
      assert events == before + [e];
      forall u | 0 <= u < THREADS
        ensures var net' := Run(events).value.net; Accounted(u, net'.threads[u], net'.ops[u], net'.streams, Breaks(events, u))
      {
        ThreadAccounts(Run(before).value, before, e, u);
      }
    }
  }

  // ---- Bounds ----

  // Interrupted puts on the way from successor to consumer.
  function LostOnTheWay(events: seq<NetEvent>, t: nat): nat {
    Breaks(events, Feed(t)) + Breaks(events, t) + Breaks(events, MRG)
  }

  // One thread's part in the chain: how far its intake can be ahead of what
  // the next thread has taken.
  lemma ChainLink(net: Net, events: seq<NetEvent>, t: nat)
    requires Shape(net) && AllBalanced(net.streams, net.ops) && AllAccounted(net, events) && t < THREADS
    ensures match net.threads[t]
            case Successor(i) => i <= net.streams[t].taken + 6 + Breaks(events, t)
            case Times(_) => net.streams[Feed(t)].taken <= net.streams[t].taken + 6 + Breaks(events, t)
            case Merge(_, _, _) =>
              net.streams[TMS1].taken + net.streams[TMS2].taken <= net.streams[MRG].taken + 7 + Breaks(events, MRG)
            case Consumer(_, _, _) => net.streams[MRG].taken <= TO_CONSUME
  {
    assert Fits(t, net.threads[t], net.ops[t]);
    assert Accounted(t, net.threads[t], net.ops[t], net.streams, Breaks(events, t));
    if t < STREAMS {
      QueueBounds(net, t);
    }
  }

  lemma CounterBounded(events: seq<NetEvent>, tr: Trace, t: nat)
    requires Run(events) == Some(tr) && (t == TMS1 || t == TMS2)
    ensures var th := tr.net.threads[Feed(t)]; th.Successor? && th.i <= 29 + LostOnTheWay(events, t)
  {
    RunsAccount(events);
    RunsKeepLossy(events);
    var net := tr.net;
    assert Fits(Feed(t), net.threads[Feed(t)], net.ops[Feed(t)]) && Fits(t, net.threads[t], net.ops[t]);
    assert Fits(MRG, net.threads[MRG], net.ops[MRG]) && Fits(CONS, net.threads[CONS], net.ops[CONS]);
    ChainLink(net, events, Feed(t));
    ChainLink(net, events, t);
    ChainLink(net, events, MRG);
    ChainLink(net, events, CONS);
  }

  lemma LatestBelowTop(h: seq<int>, n: nat)
    requires Rising(h) && n <= |h|
    ensures Latest(h, n) <= Top(h)
  {
  }

  lemma SuccessorIsSound(events: seq<NetEvent>, tr: Trace, t: nat)
    requires Run(events) == Some(tr) && (t == SUC1 || t == SUC2)
    ensures Sound(tr, t) && Rising(tr.hist[t])
  {
    RunsKeepLossy(events);
    assert ThreadRight(tr, t, events) && StreamRight(tr, t) && Fits(t, tr.net.threads[t], tr.net.ops[t]);
  }

  // A times thread multiplies a value its successor has counted.
  lemma MultipliedWasCounted(events: seq<NetEvent>, tr: Trace, t: nat)
    requires Run(events) == Some(tr) && (t == TMS1 || t == TMS2) && tr.net.ops[t].Idle? && Enabled(tr.net, t)
    ensures tr.net.threads[Feed(t)].Successor? && 0 < Product(tr.net, t) <= tr.net.threads[Feed(t)].i * Factor(t)
  {
    RunsKeepLossy(events);
    assert ThreadRight(tr, t, events) && Fits(t, tr.net.threads[t], tr.net.ops[t]);
    assert Fits(Feed(t), tr.net.threads[Feed(t)], tr.net.ops[Feed(t)]);
    SuccessorIsSound(events, tr, Feed(t));
    assert Reader(Feed(t)) == t;
    LatestBelowTop(tr.hist[Feed(t)], tr.net.streams[Feed(t)].taken);
  }

  // In every run, whatever is interrupted, counters and products exceed those
  // of an uninterrupted run by no more than the interrupted puts account for.
  lemma LossyArithmeticBounded(events: seq<NetEvent>, tr: Trace, t: nat)
    requires Run(events) == Some(tr) && (t == TMS1 || t == TMS2)
    ensures tr.net.threads[Feed(t)].Successor? && tr.net.threads[Feed(t)].i <= 29 + LostOnTheWay(events, t)
    ensures tr.net.ops[t].Idle? && Enabled(tr.net, t) ==> 0 < Product(tr.net, t) <= (29 + LostOnTheWay(events, t)) * Factor(t)
  {
    CounterBounded(events, tr, t);
    if tr.net.ops[t].Idle? && Enabled(tr.net, t) {
      MultipliedWasCounted(events, tr, t);
    }
  }

  // ---- When everything fits an int ----

  // The counters, and the products about to be formed.
  predicate FitsInt(net: Net)
    requires Shape(net)
  {
    && (forall t | SUC1 <= t <= SUC2 :: net.threads[t].Successor? && net.threads[t].i <= INT_MAX)
    && (forall t | TMS1 <= t <= TMS2 && net.ops[t].Idle? && Enabled(net, t) :: Product(net, t) <= INT_MAX)
  }

  const FITTING: nat := 429_496_700

  lemma StateFitsInt(events: seq<NetEvent>, tr: Trace)
    requires Run(events) == Some(tr) && LostOnTheWay(events, TMS1) <= FITTING && LostOnTheWay(events, TMS2) <= FITTING
    ensures FitsInt(tr.net)
  {
    LossyArithmeticBounded(events, tr, TMS1);
    LossyArithmeticBounded(events, tr, TMS2);
  }

  lemma {:induction false} PrefixRuns(events: seq<NetEvent>, k: nat)
    requires Run(events).Some? && k <= |events|
    ensures Run(events[..k]).Some? && forall t :: Breaks(events[..k], t) <= Breaks(events, t)
    decreases |events|
  {
    if k == |events| {
      assert events[..k] == events;
    } else {
      var before := events[..|events|-1];
      PrefixRuns(before, k);
      assert before[..k] == events[..k] && events == before + [events[|events|-1]];
    }
  }

  // With fewer interrupted puts than that on either way to merge, no counter and
  // no product of the whole run leaves the range of an int.
  lemma RunFitsInt(events: seq<NetEvent>, k: nat)
    requires Run(events).Some? && LostOnTheWay(events, TMS1) <= FITTING && LostOnTheWay(events, TMS2) <= FITTING
    requires k <= |events|
    ensures Run(events[..k]).Some? && FitsInt(Run(events[..k]).value.net)
  {
    PrefixRuns(events, k);
    StateFitsInt(events[..k], Run(events[..k]).value);
  }

  // ---- When it does not ----

  lemma OneMore(events: seq<NetEvent>, tr: Trace, e: NetEvent)
    requires Run(events) == Some(tr) && CanHappen(tr.net, e)
    ensures Run(events + [e]) == Some(Next(tr, e))
  {
    assert (events + [e])[..|events|] == events;
  }

  // n tokens of the second successor, each lost while it waits for room.
  function Wasted(n: nat): seq<NetEvent> {
    if n == 0 then [] else Wasted(n - 1) + [Step(SUC2)] + [BreakPut(SUC2)]
  }

  // As at the start, but for the counter of the second successor.
  predicate OnlyCounted(net: Net, i: int) {
    && net.streams == INITIAL.streams && net.ops == INITIAL.ops
    && net.threads == INITIAL.threads[SUC2 := Successor(i)]
  }

  lemma WasteOne(events: seq<NetEvent>, tr: Trace, i: int) returns (tr': Trace)
    requires Run(events) == Some(tr) && OnlyCounted(tr.net, i)
    ensures Run(events + [Step(SUC2)] + [BreakPut(SUC2)]) == Some(tr') && OnlyCounted(tr'.net, i + 1)
  {
    OneMore(events, tr, Step(SUC2));
    var made := Next(tr, Step(SUC2));
    assert made.net.ops[SUC2] == Put(SUC2, tr.net.next, Claim);
    OneMore(events + [Step(SUC2)], made, BreakPut(SUC2));
    tr' := Next(made, BreakPut(SUC2));
    assert tr'.net.streams == INITIAL.streams && tr'.net.ops == INITIAL.ops;
  }

  lemma {:induction false} WasteCounts(n: nat) returns (tr: Trace)
    ensures Run(Wasted(n)) == Some(tr) && OnlyCounted(tr.net, n + 1)
  {
    if n == 0 {
      tr := Trace(INITIAL, [[], [], [], [], []]);
      assert INITIAL.threads[SUC2 := Successor(1)] == INITIAL.threads;
    } else {
      var before := WasteCounts(n - 1);
      tr := WasteOne(Wasted(n - 1), before, n);
    }
  }

  // One action of a put or a get, unless it is its last.
  lemma ActionOf(events: seq<NetEvent>, tr: Trace, t: nat) returns (tr': Trace)
    requires Run(events) == Some(tr) && t < THREADS && !tr.net.ops[t].Idle? && tr.net.ops[t].at != Announce && Enabled(tr.net, t)
    ensures var op, net' := tr.net.ops[t], tr'.net;
            && Run(events + [Step(t)]) == Some(tr')
            && net'.streams == tr.net.streams[op.s := AdvanceStream(tr.net.streams[op.s], op)]
            && net'.ops == tr.net.ops[t := AdvanceOp(tr.net.streams[op.s], op)]
            && net'.threads == tr.net.threads && net'.heap == tr.net.heap
  {
    OneMore(events, tr, Step(t));
    tr' := Next(tr, Step(t));
  }

  // The first four actions of thread t, undisturbed, up to the announcement.
  function FourSteps(t: nat): seq<NetEvent> {
    [Step(t)] + [Step(t)] + ([Step(t)] + [Step(t)])
  }

  lemma TwoWaits(events: seq<NetEvent>, tr: Trace, t: nat) returns (tr': Trace)
    requires Run(events) == Some(tr) && t < THREADS && !tr.net.ops[t].Idle? && tr.net.ops[t].at == Claim && Enabled(tr.net, t)
    requires tr.net.streams[tr.net.ops[t].s].mutex > 0
    ensures Run(events + ([Step(t)] + [Step(t)])) == Some(tr') && tr'.net.threads == tr.net.threads && tr'.net.heap == tr.net.heap
    ensures tr'.net.ops == tr.net.ops[t := At(tr.net.ops[t], Move)]
    ensures var op, st, st' := tr.net.ops[t], tr.net.streams[tr.net.ops[t].s], tr'.net.streams[tr.net.ops[t].s];
            st'.buffer == st.buffer && st'.mutex == st.mutex - 1 && (op.Put? ==> st'.full == st.full)
  {
    var one := ActionOf(events, tr, t);
    tr' := ActionOf(events + [Step(t)], one, t);
    assert events + ([Step(t)] + [Step(t)]) == events + [Step(t)] + [Step(t)];
  }

  lemma TwoMoves(events: seq<NetEvent>, tr: Trace, t: nat) returns (tr': Trace)
    requires Run(events) == Some(tr) && t < THREADS && !tr.net.ops[t].Idle? && tr.net.ops[t].at == Move
    requires tr.net.ops[t].Get? ==> tr.net.streams[tr.net.ops[t].s].buffer != []
    ensures Run(events + ([Step(t)] + [Step(t)])) == Some(tr') && tr'.net.threads == tr.net.threads && tr'.net.heap == tr.net.heap
    ensures var op, st, st' := tr.net.ops[t], tr.net.streams[tr.net.ops[t].s], tr'.net.streams[tr.net.ops[t].s];
            && tr'.net.ops == tr.net.ops[t := if op.Put? then At(op, Announce) else Get(op.s, Some(st.buffer[0]), Announce)]
            && (op.Put? ==> st'.buffer == st.buffer + [op.tok] && st'.full == st.full && st'.mutex == st.mutex + 1)
  {
    var one := ActionOf(events, tr, t);
    tr' := ActionOf(events + [Step(t)], one, t);
    assert events + ([Step(t)] + [Step(t)]) == events + [Step(t)] + [Step(t)];
  }

  lemma FourActions(events: seq<NetEvent>, tr: Trace, t: nat) returns (tr': Trace)
    requires Run(events) == Some(tr) && t < THREADS && !tr.net.ops[t].Idle? && tr.net.ops[t].at == Claim && Enabled(tr.net, t)
    requires tr.net.streams[tr.net.ops[t].s].mutex > 0
    requires tr.net.ops[t].Get? ==> tr.net.streams[tr.net.ops[t].s].buffer != []
    ensures Run(events + FourSteps(t)) == Some(tr') && tr'.net.threads == tr.net.threads && tr'.net.heap == tr.net.heap
    ensures var op, st, st' := tr.net.ops[t], tr.net.streams[tr.net.ops[t].s], tr'.net.streams[tr.net.ops[t].s];
            && tr'.net.ops == tr.net.ops[t := if op.Put? then At(op, Announce) else Get(op.s, Some(st.buffer[0]), Announce)]
            && (op.Put? ==> st'.buffer == st.buffer + [op.tok] && st'.full == st.full && st'.mutex == st.mutex)
  {
    var two := TwoWaits(events, tr, t);
    tr' := TwoMoves(events + ([Step(t)] + [Step(t)]), two, t);
    assert events + FourSteps(t) == events + ([Step(t)] + [Step(t)]) + ([Step(t)] + [Step(t)]);
  }

  // The next token of the second successor goes through to its times thread.
  function Passed(n: nat): seq<NetEvent> {
    Wasted(n) + [Step(SUC2)] + FourSteps(SUC2) + [Step(SUC2)] + FourSteps(TMS2) + [Step(TMS2)]
  }

  lemma PassOn(n: nat, made: Trace) returns (sent: Trace)
    requires Run(Wasted(n) + [Step(SUC2)]) == Some(made) && made.net.streams == INITIAL.streams
    requires made.net.ops[SUC2].Put? && made.net.ops[SUC2].at == Claim && made.net.threads[TMS2].Times?
    requires made.net.ops[TMS2] == Network.Call(SUC2)
    ensures Run(Wasted(n) + [Step(SUC2)] + FourSteps(SUC2) + [Step(SUC2)]) == Some(sent) && sent.net.heap == made.net.heap
    ensures sent.net.streams[SUC2].buffer == [made.net.ops[SUC2].tok]
    ensures sent.net.streams[SUC2].full == 1 && sent.net.streams[SUC2].mutex == 1
    ensures sent.net.ops[TMS2] == Network.Call(SUC2) && sent.net.threads[TMS2] == made.net.threads[TMS2]
  {
    assert Fits(SUC2, made.net.threads[SUC2], made.net.ops[SUC2]);
    var four := FourActions(Wasted(n) + [Step(SUC2)], made, SUC2);
    assert Fits(SUC2, four.net.threads[SUC2], four.net.ops[SUC2]);
    OneMore(Wasted(n) + [Step(SUC2)] + FourSteps(SUC2), four, Step(SUC2));
    sent := Next(four, Step(SUC2));
  }

  // After n interrupted puts of the second successor its times thread is about to
  // form the product of 5 and n + 1: too much for an int from n = 429,496,729 on.
  lemma ProductsCanOverflow(n: nat) returns (tr: Trace)
    ensures Run(Passed(n)) == Some(tr) && tr.net.ops[TMS2].Idle? && Enabled(tr.net, TMS2)
    ensures Product(tr.net, TMS2) == 5 * (n + 1) && (n >= 429_496_729 ==> !FitsInt(tr.net))
  {
    var wasted := WasteCounts(n);
    OneMore(Wasted(n), wasted, Step(SUC2));
    var made := Next(wasted, Step(SUC2));
    var sent := PassOn(n, made);
    assert Fits(TMS2, sent.net.threads[TMS2], sent.net.ops[TMS2]);
    var events := Wasted(n) + [Step(SUC2)] + FourSteps(SUC2) + [Step(SUC2)];
    var got := FourActions(events, sent, TMS2);
    OneMore(events + FourSteps(TMS2), got, Step(TMS2));
    tr := Next(got, Step(TMS2));
  }
}

// How the network comes to an end when puts are interrupted.
module LossyProgress {
  import opened Options
  import opened StreamProtocol
  import opened MergeOrder
  import opened Tally
  import opened Network
  import opened NetworkInvariant
  import opened NetworkSafety
  import opened NetworkTheorems
  import opened NetworkLosses
  import opened LossyTheorems
  import opened LossyBounds
  import StreamLosses

  // ---- Halting ----

  // A sound thread that cannot step waits for a semaphore, unless it is the
  // consumer with its ten tokens.
  lemma BlockedSoundWaits(tr: Trace, t: nat)
    requires Formed(tr) && t < THREADS && Sound(tr, t) && !Enabled(tr.net, t)
    ensures if tr.net.ops[t].Idle? then tr.net.threads[t].Consumer? && tr.net.threads[t].i >= TO_CONSUME
            else Waiting(tr.net.ops[t])
  {
    assert Fits(t, tr.net.threads[t], tr.net.ops[t]);
  }

  lemma BlockedHoldsNothing(tr: Trace, t: nat)
    requires StreamsRight(tr) && Stuck(tr.net) && t < THREADS && Sound(tr, t)
    ensures EmptyHanded(tr.net.ops[t])
  {
    BlockedSoundWaits(tr, t);
    if !tr.net.ops[t].Idle? && tr.net.ops[t].at == Lock {
      assert !Enabled(tr.net, t);
      var u := MutexHolderRuns(tr.net, tr.net.ops[t].s);
      assert false;
    }
  }

  // There is something in the queue that a get can claim.
  predicate Stocked(st: Stream) {
    |st.buffer| > st.lostTokens
  }

  // With nobody past its first wait, a put is blocked only by a stocked queue and
  // a get only by one that is not, as long as something of the stream is left.
  lemma BlockedBySupply(net: Net, t: nat)
    requires Shape(net) && AllBalanced(net.streams, net.ops) && t < THREADS && !net.ops[t].Idle? && !Enabled(net, t)
    requires forall u | 0 <= u < THREADS :: EmptyHanded(net.ops[u])
    requires StreamLosses.Lost(net.streams[net.ops[t].s]) < BUFFER_SIZE
    ensures Stocked(net.streams[net.ops[t].s]) <==> net.ops[t].Put?
  {
    NothingInFlight(net.ops, net.ops[t].s);
    assert Balanced(net.streams[net.ops[t].s], net.ops, net.ops[t].s);
  }

  // The successors wait for room, hence so do the times threads and merge; and
  // then the consumer cannot be waiting.
  lemma SupplyChain(threads: seq<Thread>, ops: seq<Op>, streams: seq<Stream>)
    requires |threads| == |ops| == THREADS && |streams| == STREAMS
    requires forall t | 0 <= t < THREADS :: Fits(t, threads[t], ops[t])
    requires forall t | 0 <= t < THREADS :: ops[t].Idle? ==> threads[t].Consumer?
    requires forall t | 0 <= t < THREADS :: !ops[t].Idle? ==> ops[t].s < STREAMS && (Stocked(streams[ops[t].s]) <==> ops[t].Put?)
    ensures ops[CONS].Idle?
  {
    assert Fits(SUC1, threads[SUC1], ops[SUC1]) && Fits(SUC2, threads[SUC2], ops[SUC2]);
    assert Stocked(streams[SUC1]) && Stocked(streams[SUC2]);
    assert Fits(TMS1, threads[TMS1], ops[TMS1]) && Fits(TMS2, threads[TMS2], ops[TMS2]);
    assert Stocked(streams[TMS1]) && Stocked(streams[TMS2]);
    assert Fits(MRG, threads[MRG], ops[MRG]);
    assert Stocked(streams[MRG]);
    assert Fits(CONS, threads[CONS], ops[CONS]);
  }

  // No get was interrupted and no stream has lost all it had.
  predicate Healthy(net: Net, events: seq<NetEvent>)
    requires Shape(net)
  {
    && (forall t | 0 <= t < THREADS :: BreakGet(t) !in events)
    && (forall s | 0 <= s < STREAMS :: StreamLosses.Lost(net.streams[s]) < BUFFER_SIZE)
  }

  // The consumer has printed its ten values.
  predicate Done(net: Net)
    requires Shape(net)
  {
    net.threads[CONS].Consumer? && net.threads[CONS].i == TO_CONSUME == |net.threads[CONS].got|
  }

  // The network comes to a halt before the consumer has its ten tokens only if a
  // get was interrupted or a stream has lost all it had.
  lemma HaltsEarlyOnlyByLoss(events: seq<NetEvent>, tr: Trace)
    requires Run(events) == Some(tr) && Stuck(tr.net) && Healthy(tr.net, events)
    ensures Done(tr.net)
  {
    RunsKeepLossy(events);
    var net := tr.net;
    forall t | 0 <= t < THREADS ensures Sound(tr, t) && EmptyHanded(net.ops[t]) {
      assert ThreadRight(tr, t, events);
      BlockedHoldsNothing(tr, t);
    }
    forall t | 0 <= t < THREADS
      ensures net.ops[t].Idle? ==> net.threads[t].Consumer?
      ensures !net.ops[t].Idle? ==> net.ops[t].s < STREAMS && (Stocked(net.streams[net.ops[t].s]) <==> net.ops[t].Put?)
    {
      assert !Enabled(net, t) && Fits(t, net.threads[t], net.ops[t]);
      BlockedSoundWaits(tr, t);
      if !net.ops[t].Idle? {
        BlockedBySupply(net, t);
      }
    }
    SupplyChain(net.threads, net.ops, net.streams);
    assert !Enabled(net, CONS);
    BlockedSoundWaits(tr, CONS);
  }

  // ---- Finishing ----

  function AllBreaks(events: seq<NetEvent>): nat {
    Breaks(events, SUC1) + Breaks(events, SUC2) + Breaks(events, TMS1) + Breaks(events, TMS2) + Breaks(events, MRG)
  }

  lemma StreamCountsBounded(events: seq<NetEvent>, tr: Trace, s: nat)
    requires Run(events) == Some(tr) && s < STREAMS
    ensures tr.net.streams[s].taken <= tr.net.streams[s].sent <= 40 + AllBreaks(events)
  {
    RunsAccount(events);
    RunsKeepLossy(events);
    var net := tr.net;
    QueueBounds(net, s);
    TakenBounded(net, events);
  }

  lemma TakenBounded(net: Net, events: seq<NetEvent>)
    requires Shape(net) && AllBalanced(net.streams, net.ops) && AllAccounted(net, events)
    ensures forall s | 0 <= s < STREAMS :: net.streams[s].taken <= 35 + AllBreaks(events)
  {
    assert Fits(TMS1, net.threads[TMS1], net.ops[TMS1]) && Fits(TMS2, net.threads[TMS2], net.ops[TMS2]);
    assert Fits(MRG, net.threads[MRG], net.ops[MRG]) && Fits(CONS, net.threads[CONS], net.ops[CONS]);
    ChainLink(net, events, TMS1);
    ChainLink(net, events, TMS2);
    ChainLink(net, events, MRG);
    ChainLink(net, events, CONS);
    forall s | 0 <= s < STREAMS ensures net.streams[s].taken <= 35 + AllBreaks(events) {
      assert s == SUC1 || s == SUC2 || s == TMS1 || s == TMS2 || s == MRG;
    }
  }

  // No thread takes more steps than that.
  function StepLimit(events: seq<NetEvent>): nat {
    20 + 16 * (40 + AllBreaks(events))
  }

  lemma StepsLimited(events: seq<NetEvent>, tr: Trace, t: nat)
    requires Run(events) == Some(tr) && t < THREADS
    ensures Steps(tr.net, t) <= StepLimit(events)
  {
    forall s | 0 <= s < STREAMS ensures tr.net.streams[s].taken <= tr.net.streams[s].sent <= 40 + AllBreaks(events) {
      StreamCountsBounded(events, tr, s);
    }
    RunsAccount(events);
    assert Accounted(t, tr.net.threads[t], tr.net.ops[t], tr.net.streams, Breaks(events, t));
    StepsOfLimited(t, tr.net.threads[t], tr.net.ops[t], tr.net.streams, 40 + AllBreaks(events));
  }

  lemma StepsOfLimited(t: nat, th: Thread, op: Op, streams: seq<Stream>, n: nat)
    requires Fits(t, th, op) && |streams| == STREAMS && (th.Consumer? ==> th.i <= TO_CONSUME)
    requires forall s | 0 <= s < STREAMS :: streams[s].taken <= streams[s].sent <= n
    ensures StepsOf(t, th, op, streams) <= 20 + 16 * n
  {
  }

  lemma TotalLimited(events: seq<NetEvent>, tr: Trace)
    requires Run(events) == Some(tr)
    ensures TotalSteps(tr.net) <= 6 * StepLimit(events)
  {
    forall t | 0 <= t < THREADS ensures Steps(tr.net, t) <= StepLimit(events) {
      StepsLimited(events, tr, t);
    }
  }

  lemma StepLosesNothing(net: Net, t: nat)
    requires Shape(net) && t < THREADS && Enabled(net, t)
    ensures forall s | 0 <= s < STREAMS :: StreamLosses.Lost(Act(net, t).streams[s]) == StreamLosses.Lost(net.streams[s])
  {
  }

  lemma StepBreaksNothing(events: seq<NetEvent>, t: nat)
    ensures AllBreaks(events + [Step(t)]) == AllBreaks(events)
    ensures forall u :: BreakGet(u) in events + [Step(t)] <==> BreakGet(u) in events
  {
    forall u ensures Breaks(events + [Step(t)], u) == Breaks(events, u) {
      BreaksAppended(events, Step(t), u);
    }
  }

  lemma StepStaysHealthy(events: seq<NetEvent>, tr: Trace, t: nat)
    requires Run(events) == Some(tr) && Healthy(tr.net, events) && t < THREADS && Enabled(tr.net, t)
    ensures Healthy(Act(tr.net, t), events + [Step(t)]) && AllBreaks(events + [Step(t)]) == AllBreaks(events)
    ensures TotalSteps(Act(tr.net, t)) == TotalSteps(tr.net) + 1
  {
    StepLosesNothing(tr.net, t);
    StepBreaksNothing(events, t);
    RunsKeepLossy(events);
    StepCountsOnce(tr.net, t);
  }

  predicate OnlySteps(events: seq<NetEvent>) {
    forall k | 0 <= k < |events| :: events[k].Step?
  }

  // How many steps are left at most.
  function Left(events: seq<NetEvent>, net: Net): int
    requires Shape(net)
  {
    6 * StepLimit(events) - TotalSteps(net)
  }

  lemma SomeStep(events: seq<NetEvent>, tr: Trace) returns (t: nat, tr': Trace)
    requires Run(events) == Some(tr) && Healthy(tr.net, events) && !Stuck(tr.net)
    ensures Run(events + [Step(t)]) == Some(tr') && Healthy(tr'.net, events + [Step(t)])
    ensures 0 <= Left(events + [Step(t)], tr'.net) < Left(events, tr.net)
  {
    t :| t < THREADS && Enabled(tr.net, t);
    OneMore(events, tr, Step(t));
    tr' := Next(tr, Step(t));
    StepStaysHealthy(events, tr, t);
    TotalLimited(events + [Step(t)], tr');
  }

  lemma Regroup(events: seq<NetEvent>, more: seq<NetEvent>, rest: seq<NetEvent>)
    ensures events + (more + rest) == events + more + rest && events + [] == events
  {
  }

  // From a healthy state the network can finish without another interruption.
  lemma {:induction false} HealthyRunsCanFinish(events: seq<NetEvent>, tr: Trace) returns (more: seq<NetEvent>, tr': Trace)
    requires Run(events) == Some(tr) && Healthy(tr.net, events)
    ensures Run(events + more) == Some(tr') && OnlySteps(more) && Done(tr'.net)
    decreases Left(events, tr.net)
  {
    if Stuck(tr.net) {
      HaltsEarlyOnlyByLoss(events, tr);
      more, tr' := [], tr;
      Regroup(events, [], []);
    } else {
      var t, next := SomeStep(events, tr);
      var rest: seq<NetEvent>;
      rest, tr' := HealthyRunsCanFinish(events + [Step(t)], next);
      more := [Step(t)] + rest;
      Regroup(events, [Step(t)], rest);
    }
  }

  lemma LastStep(before: seq<NetEvent>, t: nat, tr': Trace) returns (tr: Trace)
    requires Run(before + [Step(t)]) == Some(tr')
    ensures Run(before) == Some(tr) && t < THREADS && Enabled(tr.net, t) && tr' == Next(tr, Step(t))
  {
    assert (before + [Step(t)])[..|before|] == before;
    tr := Run(before).value;
  }

  lemma SplitLast(events: seq<NetEvent>, more: seq<NetEvent>) returns (fewer: seq<NetEvent>, t: nat)
    requires more != [] && OnlySteps(more)
    ensures events + more == events + fewer + [Step(t)] && |more| == |fewer| + 1 && OnlySteps(fewer)
  {
    fewer, t := more[..|more|-1], more[|more|-1].t;
  }

  lemma {:induction false} StepsStayHealthy(events: seq<NetEvent>, tr: Trace, more: seq<NetEvent>, tr': Trace)
    requires Run(events) == Some(tr) && Healthy(tr.net, events)
    requires Run(events + more) == Some(tr') && OnlySteps(more)
    ensures Healthy(tr'.net, events + more) && AllBreaks(events + more) == AllBreaks(events)
    ensures TotalSteps(tr.net) + |more| == TotalSteps(tr'.net)
    decreases |more|
  {
    if more == [] {
      Regroup(events, [], []);
    } else {
      var fewer, t := SplitLast(events, more);
      var prev := LastStep(events + fewer, t, tr');
      StepsStayHealthy(events, tr, fewer, prev);
      StepStaysHealthy(events + fewer, prev, t);
    }
  }

  // And it does so however it is scheduled: without another interruption it takes
  // a bounded number of steps, and halts only when it is done.
  lemma HealthyRunsFinish(events: seq<NetEvent>, tr: Trace, more: seq<NetEvent>, tr': Trace)
    requires Run(events) == Some(tr) && Healthy(tr.net, events)
    requires Run(events + more) == Some(tr') && OnlySteps(more)
    ensures |more| <= Left(events, tr.net)
    ensures Stuck(tr'.net) ==> Done(tr'.net)
  {
    StepsStayHealthy(events, tr, more, tr');
    TotalLimited(events + more, tr');
    if Stuck(tr'.net) {
      HaltsEarlyOnlyByLoss(events + more, tr');
    }
  }
}

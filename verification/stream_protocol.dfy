// The bounded buffers of prod-cons.c: put and get as sequences of atomic
// actions on the semaphores and the queue of a stream, run by any number of
// threads in any order, with or without interrupted waits.
module StreamProtocol {
  import opened Options
  import opened Tally

  const BUFFER_SIZE: nat := 5

  // A token is named by its allocation, so two tokens never share a name.
  type Token = nat

  // sent and taken count the tokens that went through the queue; lostSlots and
  // lostTokens count claims abandoned by an interrupted wait. No action reads
  // any of the four.
  datatype Stream = Stream(empty: nat, full: nat, mutex: nat, buffer: seq<Token>,
                           sent: nat, taken: nat, lostSlots: nat, lostTokens: nat)

  // init_stream
  const NEW_STREAM := Stream(BUFFER_SIZE, 0, 1, [], 0, 0, 0, 0)

  // The next action of a put or a get: down its own semaphore, down the mutex,
  // use the queue, up the mutex, up the other semaphore.
  datatype Phase = Claim | Lock | Move | Unlock | Announce

  // What a thread is executing. A get knows its token once it has dequeued.
  datatype Op =
    | Idle
    | Put(s: nat, tok: Token, at: Phase)
    | Get(s: nat, ret: Option<Token>, at: Phase)

  predicate CanAdvance(st: Stream, op: Op)
    requires !op.Idle?
  {
    match op.at
    case Claim => if op.Put? then st.empty > 0 else st.full > 0
    case Lock => st.mutex > 0
    case _ => true
  }

  function AdvanceStream(st: Stream, op: Op): Stream
    requires !op.Idle? && CanAdvance(st, op)
  {
    match op.at
    case Claim => if op.Put? then st.(empty := st.empty - 1) else st.(full := st.full - 1)
    case Lock => st.(mutex := st.mutex - 1)
    case Move =>
      if op.Put? then st.(buffer := st.buffer + [op.tok], sent := st.sent + 1)
      else if st.buffer == [] then st
      else st.(buffer := st.buffer[1..], taken := st.taken + 1)
    case Unlock => st.(mutex := st.mutex + 1)
    case Announce => if op.Put? then st.(full := st.full + 1) else st.(empty := st.empty + 1)
  }

  function At(op: Op, next: Phase): Op
    requires !op.Idle?
  {
    if op.Put? then Put(op.s, op.tok, next) else Get(op.s, op.ret, next)
  }

  function AdvanceOp(st: Stream, op: Op): Op
    requires !op.Idle?
  {
    match op.at
    case Claim => At(op, Lock)
    case Lock => At(op, Move)
    case Move =>
      if op.Get? && st.buffer != [] then Get(op.s, Some(st.buffer[0]), Unlock)
      else At(op, Unlock)
    case Unlock => At(op, Announce)
    case Announce => Idle
  }

  // A down that returns early gives back nothing it has claimed already.
  function InterruptStream(st: Stream, op: Op): Stream
    requires !op.Idle? && (op.at == Claim || op.at == Lock)
  {
    if op.at == Claim then st
    else if op.Put? then st.(lostSlots := st.lostSlots + 1)
    else st.(lostTokens := st.lostTokens + 1)
  }

  // ---- Accounting ----

  // What an operation in flight may have in its hands.
  datatype Stake = Slot | Item | Mutex

  // The queue operation is still to come, and something is claimed for it.
  predicate Before(op: Op)
    requires !op.Idle?
  {
    op.at == Lock || op.at == Move
  }

  // The queue operation has been executed.
  predicate Moved(op: Op)
    requires !op.Idle?
  {
    op.at == Unlock || op.at == Announce
  }

  function Weight(op: Op, s: nat, k: Stake): nat {
    if op.Idle? || op.s != s then 0 else
    match k
    case Slot => if (op.Put? && Before(op)) || (op.Get? && Moved(op)) then 1 else 0
    case Item => if (op.Get? && Before(op)) || (op.Put? && Moved(op)) then 1 else 0
    case Mutex => if op.at == Move || op.at == Unlock then 1 else 0
  }

  function Weights(ops: seq<Op>, s: nat, k: Stake): seq<nat> {
    seq(|ops|, t requires 0 <= t < |ops| => Weight(ops[t], s, k))
  }

  function InFlight(ops: seq<Op>, s: nat, k: Stake): nat {
    Sum(Weights(ops, s, k))
  }

  // Semaphore counts, queue and operations in flight account for every slot,
  // every token and the mutex.
  predicate Balanced(st: Stream, ops: seq<Op>, s: nat) {
    && st.empty + InFlight(ops, s, Slot) + |st.buffer| + st.lostSlots == BUFFER_SIZE
    && st.full + InFlight(ops, s, Item) + st.lostTokens == |st.buffer|
    && st.mutex + InFlight(ops, s, Mutex) == 1
    && st.sent == st.taken + |st.buffer|
  }

  predicate AllBalanced(streams: seq<Stream>, ops: seq<Op>) {
    forall s | 0 <= s < |streams| :: Balanced(streams[s], ops, s)
  }

  lemma UpdateBalance(ops: seq<Op>, t: nat, op: Op, s: nat)
    requires t < |ops|
    ensures forall k: Stake :: InFlight(ops[t := op], s, k) + Weight(ops[t], s, k) == InFlight(ops, s, k) + Weight(op, s, k)
  {
    forall k: Stake
      ensures InFlight(ops[t := op], s, k) + Weight(ops[t], s, k) == InFlight(ops, s, k) + Weight(op, s, k)
    {
      SumUpdate(Weights(ops, s, k), t, Weight(op, s, k));
      assert Weights(ops[t := op], s, k) == Weights(ops, s, k)[t := Weight(op, s, k)];
    }
  }

  // A get that is about to dequeue finds a token, and a put that is about to
  // enqueue finds room.
  lemma MoveIsSafe(st: Stream, ops: seq<Op>, t: nat)
    requires t < |ops| && !ops[t].Idle? && ops[t].at == Move
    requires Balanced(st, ops, ops[t].s)
    ensures ops[t].Get? ==> st.buffer != []
    ensures ops[t].Put? ==> |st.buffer| < BUFFER_SIZE
  {
    SumIncludes(Weights(ops, ops[t].s, Item), t);
    SumIncludes(Weights(ops, ops[t].s, Slot), t);
  }

  lemma AdvanceKeepsStream(st: Stream, ops: seq<Op>, t: nat)
    requires t < |ops| && !ops[t].Idle? && CanAdvance(st, ops[t]) && Balanced(st, ops, ops[t].s)
    ensures Balanced(AdvanceStream(st, ops[t]), ops[t := AdvanceOp(st, ops[t])], ops[t].s)
  {
    UpdateBalance(ops, t, AdvanceOp(st, ops[t]), ops[t].s);
    if ops[t].at == Move {
      MoveIsSafe(st, ops, t);
    }
  }

  lemma AdvanceKeepsBalance(streams: seq<Stream>, ops: seq<Op>, t: nat)
    requires AllBalanced(streams, ops)
    requires t < |ops| && !ops[t].Idle? && ops[t].s < |streams|
    requires CanAdvance(streams[ops[t].s], ops[t])
    ensures AllBalanced(streams[ops[t].s := AdvanceStream(streams[ops[t].s], ops[t])],
                        ops[t := AdvanceOp(streams[ops[t].s], ops[t])])
  {
    var op := ops[t];
    var op' := AdvanceOp(streams[op.s], op);
    AdvanceKeepsStream(streams[op.s], ops, t);
    forall s | 0 <= s < |streams| && s != op.s ensures Balanced(streams[s], ops[t := op'], s) {
      UpdateBalance(ops, t, op', s);
    }
  }

  // Nothing is claimed yet: an idle thread, or a put or get at its first action.
  predicate EmptyHanded(op: Op) {
    op.Idle? || op.at == Claim
  }

  lemma BeginKeepsBalance(streams: seq<Stream>, ops: seq<Op>, t: nat, op: Op)
    requires AllBalanced(streams, ops)
    requires t < |ops| && EmptyHanded(ops[t]) && EmptyHanded(op)
    ensures AllBalanced(streams, ops[t := op])
  {
    forall s | 0 <= s < |streams| ensures Balanced(streams[s], ops[t := op], s) {
      UpdateBalance(ops, t, op, s);
    }
  }

  lemma InterruptKeepsBalance(streams: seq<Stream>, ops: seq<Op>, t: nat)
    requires AllBalanced(streams, ops)
    requires t < |ops| && !ops[t].Idle? && ops[t].s < |streams| && (ops[t].at == Claim || ops[t].at == Lock)
    ensures AllBalanced(streams[ops[t].s := InterruptStream(streams[ops[t].s], ops[t])], ops[t := Idle])
  {
    var op := ops[t];
    var streams' := streams[op.s := InterruptStream(streams[op.s], op)];
    forall s | 0 <= s < |streams'| ensures Balanced(streams'[s], ops[t := Idle], s) {
      UpdateBalance(ops, t, Idle, s);
      assert Balanced(streams[s], ops, s);
    }
  }

  // ---- Runs of any number of threads over any number of streams ----

  datatype Machine = Machine(streams: seq<Stream>, ops: seq<Op>)

  datatype Event =
    | Call(t: nat, op: Op)      // an idle thread calls put or get
    | Advance(t: nat)           // one atomic action
    | Interrupt(t: nat)         // a down_interruptible fails

  function Start(streams: nat, threads: nat): Machine {
    Machine(seq(streams, _ => NEW_STREAM), seq(threads, _ => Idle))
  }

  predicate Possible(m: Machine, e: Event) {
    && e.t < |m.ops|
    && match e
       case Call(t, op) =>
         m.ops[t].Idle? && !op.Idle? && op.at == Claim && op.s < |m.streams| && (op.Get? ==> op.ret.None?)
       case Advance(t) =>
         !m.ops[t].Idle? && m.ops[t].s < |m.streams| && CanAdvance(m.streams[m.ops[t].s], m.ops[t])
       case Interrupt(t) =>
         !m.ops[t].Idle? && m.ops[t].s < |m.streams| && (m.ops[t].at == Claim || m.ops[t].at == Lock)
  }

  function Happen(m: Machine, e: Event): Machine
    requires Possible(m, e)
  {
    match e
    case Call(t, op) => m.(ops := m.ops[t := op])
    case Advance(t) =>
      var op := m.ops[t];
      var st := m.streams[op.s];
      Machine(m.streams[op.s := AdvanceStream(st, op)], m.ops[t := AdvanceOp(st, op)])
    case Interrupt(t) =>
      var op := m.ops[t];
      Machine(m.streams[op.s := InterruptStream(m.streams[op.s], op)], m.ops[t := Idle])
  }

  // The state after a sequence of events, if each was possible in its turn.
  function After(streams: nat, threads: nat, events: seq<Event>): Option<Machine> {
    if events == [] then Some(Start(streams, threads)) else
    match After(streams, threads, events[..|events|-1])
    case None => None
    case Some(m) =>
      var e := events[|events|-1];
      if Possible(m, e) then Some(Happen(m, e)) else None
  }

  lemma NothingInFlight(ops: seq<Op>, s: nat)
    requires forall t | 0 <= t < |ops| :: EmptyHanded(ops[t])
    ensures forall k: Stake :: InFlight(ops, s, k) == 0
  {
    forall k: Stake ensures InFlight(ops, s, k) == 0 {
      SumOfNothing(Weights(ops, s, k));
    }
  }

  predicate OnTarget(m: Machine) {
    forall t | 0 <= t < |m.ops| && !m.ops[t].Idle? :: m.ops[t].s < |m.streams|
  }

  lemma {:induction false} RunsStayBalanced(streams: nat, threads: nat, events: seq<Event>)
    ensures var m := After(streams, threads, events);
            m.Some? ==> |m.value.streams| == streams && |m.value.ops| == threads &&
                        OnTarget(m.value) && AllBalanced(m.value.streams, m.value.ops)
  {
    if events == [] {
      var m := Start(streams, threads);
      forall s | 0 <= s < streams ensures Balanced(m.streams[s], m.ops, s) {
        NothingInFlight(m.ops, s);
      }
    } else {
      RunsStayBalanced(streams, threads, events[..|events|-1]);
      var prev := After(streams, threads, events[..|events|-1]);
      var e := events[|events|-1];
      if prev.Some? && Possible(prev.value, e) {
        match e
        case Call(t, op) => BeginKeepsBalance(prev.value.streams, prev.value.ops, t, op);
        case Advance(t) => AdvanceKeepsBalance(prev.value.streams, prev.value.ops, t);
        case Interrupt(t) => InterruptKeepsBalance(prev.value.streams, prev.value.ops, t);
      }
    }
  }

  // The queue holds no more than the slots still in circulation, and the
  // tokens whose claim was abandoned stay queued.
  predicate WithinBounds(st: Stream) {
    |st.buffer| <= BUFFER_SIZE - st.lostSlots && st.lostTokens <= |st.buffer|
  }

  // No thread is about to dequeue from an empty queue or enqueue into a full one.
  predicate QueueReady(m: Machine, op: Op)
    requires !op.Idle? && op.s < |m.streams|
  {
    op.at == Move ==>
      if op.Get? then m.streams[op.s].buffer != [] else |m.streams[op.s].buffer| < BUFFER_SIZE
  }

  predicate InCriticalSection(op: Op, s: nat) {
    !op.Idle? && op.s == s && (op.at == Move || op.at == Unlock)
  }

  // Holds in every run, however many waits were interrupted.
  lemma RunsAreSafe(streams: nat, threads: nat, events: seq<Event>, m: Machine)
    requires After(streams, threads, events) == Some(m)
    ensures OnTarget(m)
    ensures forall s | 0 <= s < |m.streams| :: WithinBounds(m.streams[s])
    ensures forall t | 0 <= t < |m.ops| && !m.ops[t].Idle? :: QueueReady(m, m.ops[t])
    ensures forall s, t, u | 0 <= s < |m.streams| && 0 <= t < u < |m.ops| ::
              !(InCriticalSection(m.ops[t], s) && InCriticalSection(m.ops[u], s))
  {
    RunsStayBalanced(streams, threads, events);
    forall s | 0 <= s < |m.streams| ensures WithinBounds(m.streams[s]) {
      assert Balanced(m.streams[s], m.ops, s);
    }
    forall t | 0 <= t < |m.ops| && !m.ops[t].Idle? ensures QueueReady(m, m.ops[t]) {
      if m.ops[t].at == Move {
        MoveIsSafe(m.streams[m.ops[t].s], m.ops, t);
      }
    }
    forall s, t, u | 0 <= s < |m.streams| && 0 <= t < u < |m.ops|
      ensures !(InCriticalSection(m.ops[t], s) && InCriticalSection(m.ops[u], s))
    {
      assert Balanced(m.streams[s], m.ops, s);
      SumIncludesBoth(Weights(m.ops, s, Mutex), t, u);
    }
  }

  // ---- put and get in place ----

  // Which wait of a put or get is interrupted, if any.
  datatype Interruption = Never | AtClaim | AtLock

  // The fields of a stream that put and get work on. Each method runs to its
  // end undisturbed, from a state where none of its waits has to wait.
  class StreamCell {
    var empty: nat
    var full: nat
    var mutex: nat
    var buffer: seq<Token>

    ghost predicate Is(st: Stream)
      reads this
    {
      empty == st.empty && full == st.full && mutex == st.mutex && buffer == st.buffer
    }

    constructor ()
      ensures Is(NEW_STREAM)
    {
      empty, full, mutex, buffer := BUFFER_SIZE, 0, 1, [];
    }

    method Get(i: Interruption, ghost st: Stream) returns (ret: Option<Token>)
      requires Is(st) && Undisturbed(st, Op.Get(0, None, Claim), i)
      modifies this
      ensures Is(Finish(st, Op.Get(0, None, Claim), i).0) && ret == Finish(st, Op.Get(0, None, Claim), i).1
    {
      if i == Never && st.buffer != [] { GetAsAWhole(st); }
      if i == AtClaim { return None; }
      full := full - 1;
      if i == AtLock { return None; }
      mutex := mutex - 1;
      if buffer == [] {
        ret := None;
      } else {
        ret, buffer := Some(buffer[0]), buffer[1..];
      }
      mutex := mutex + 1;
      empty := empty + 1;
    }

    method Put(tok: Token, i: Interruption, ghost st: Stream) returns (err: int)
      requires Is(st) && Undisturbed(st, Op.Put(0, tok, Claim), i)
      modifies this
      ensures Is(Finish(st, Op.Put(0, tok, Claim), i).0) && err == if i == Never then 0 else -1
    {
      if i == Never { PutAsAWhole(st, tok); }
      if i == AtClaim { return -1; }
      empty := empty - 1;
      if i == AtLock { return -1; }
      mutex := mutex - 1;
      buffer := buffer + [tok];
      mutex := mutex + 1;
      full := full + 1;
      err := 0;
    }
  }

  predicate Undisturbed(st: Stream, op: Op, i: Interruption)
    requires !op.Idle?
  {
    (i != AtClaim ==> CanAdvance(st, op)) && (i == Never ==> st.mutex > 0)
  }

  function PhasesLeft(op: Op): nat {
    if op.Idle? then 0 else
    match op.at
    case Claim => 5
    case Lock => 4
    case Move => 3
    case Unlock => 2
    case Announce => 1
  }

  // The actions of the step machine, one after the other, up to the
  // interruption if there is one; and what a get returns.
  function Finish(st: Stream, op: Op, i: Interruption): (Stream, Option<Token>)
    requires !op.Idle?
    decreases PhasesLeft(op)
  {
    if (i == AtClaim && op.at == Claim) || (i == AtLock && op.at == Lock) then (InterruptStream(st, op), None)
    else if !CanAdvance(st, op) then (st, None)
    else if op.at == Announce then (AdvanceStream(st, op), if op.Get? then op.ret else None)
    else Finish(AdvanceStream(st, op), AdvanceOp(st, op), i)
  }

  // Undisturbed, a put moves a slot's worth of empty to full and appends its
  // token; a get moves it back and takes the first one.
  lemma PutAsAWhole(st: Stream, tok: Token)
    requires st.empty > 0 && st.mutex > 0
    ensures Finish(st, Op.Put(0, tok, Claim), Never) ==
            (st.(empty := st.empty - 1, full := st.full + 1, buffer := st.buffer + [tok], sent := st.sent + 1), None)
  {
    var st1 := st.(empty := st.empty - 1);
    var st2 := st1.(mutex := st1.mutex - 1);
    var st3 := st2.(buffer := st.buffer + [tok], sent := st.sent + 1);
    var st4 := st3.(mutex := st3.mutex + 1);
    assert Finish(st4, Op.Put(0, tok, Announce), Never) == (st4.(full := st4.full + 1), None);
    assert Finish(st3, Op.Put(0, tok, Unlock), Never) == Finish(st4, Op.Put(0, tok, Announce), Never);
    assert Finish(st2, Op.Put(0, tok, Move), Never) == Finish(st3, Op.Put(0, tok, Unlock), Never);
    assert Finish(st1, Op.Put(0, tok, Lock), Never) == Finish(st2, Op.Put(0, tok, Move), Never);
  }

  // Interrupted at its first wait, a put or get leaves the stream as it was;
  // interrupted at the mutex, it keeps what it has claimed, and the queue stays.
  lemma InterruptedAsAWhole(st: Stream, tok: Token)
    ensures Finish(st, Op.Put(0, tok, Claim), AtClaim) == (st, None)
    ensures Finish(st, Op.Get(0, None, Claim), AtClaim) == (st, None)
    ensures st.empty > 0 ==>
              Finish(st, Op.Put(0, tok, Claim), AtLock) == (st.(empty := st.empty - 1, lostSlots := st.lostSlots + 1), None)
    ensures st.full > 0 ==>
              Finish(st, Op.Get(0, None, Claim), AtLock) == (st.(full := st.full - 1, lostTokens := st.lostTokens + 1), None)
  {
    if st.empty > 0 {
      var claimed := st.(empty := st.empty - 1);
      assert Finish(claimed, Op.Put(0, tok, Lock), AtLock) == (claimed.(lostSlots := st.lostSlots + 1), None);
    }
    if st.full > 0 {
      var claimed := st.(full := st.full - 1);
      assert Finish(claimed, Op.Get(0, None, Lock), AtLock) == (claimed.(lostTokens := st.lostTokens + 1), None);
    }
  }

  lemma GetAsAWhole(st: Stream)
    requires st.full > 0 && st.mutex > 0 && st.buffer != []
    ensures Finish(st, Op.Get(0, None, Claim), Never) ==
            (st.(full := st.full - 1, empty := st.empty + 1, buffer := st.buffer[1..], taken := st.taken + 1), Some(st.buffer[0]))
  {
    var ret := Some(st.buffer[0]);
    var st1 := st.(full := st.full - 1);
    var st2 := st1.(mutex := st1.mutex - 1);
    var st3 := st2.(buffer := st.buffer[1..], taken := st.taken + 1);
    var st4 := st3.(mutex := st3.mutex + 1);
    assert Finish(st4, Op.Get(0, ret, Announce), Never) == (st4.(empty := st4.empty + 1), ret);
    assert Finish(st3, Op.Get(0, ret, Unlock), Never) == Finish(st4, Op.Get(0, ret, Announce), Never);
    assert Finish(st2, Op.Get(0, None, Move), Never) == Finish(st3, Op.Get(0, ret, Unlock), Never);
    assert Finish(st1, Op.Get(0, None, Lock), Never) == Finish(st2, Op.Get(0, None, Move), Never);
  }
}

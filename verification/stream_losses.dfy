// What interrupted waits do to a stream in the long run: each may cost it a slot
// or a token for good, and when all are lost the stream is dead.
module StreamLosses {
  import opened Options
  import opened Tally
  import opened StreamProtocol

  function Lost(st: Stream): nat {
    st.lostSlots + st.lostTokens
  }

  // The state after a run, for runs that are known to be possible.
  predicate Reaches(streams: nat, threads: nat, events: seq<Event>, m: Machine) {
    After(streams, threads, events) == Some(m)
  }

  lemma ReachesOneMore(streams: nat, threads: nat, events: seq<Event>, m: Machine, e: Event)
    requires Reaches(streams, threads, events, m) && Possible(m, e)
    ensures Reaches(streams, threads, events + [e], Happen(m, e))
  {
    assert (events + [e])[..|events|] == events;
  }

  lemma Regroup(before: seq<Event>, more: seq<Event>, rest: seq<Event>)
    ensures before + (more + rest) == before + more + rest
  {
  }

  lemma ReachableIsBalanced(streams: nat, threads: nat, events: seq<Event>, m: Machine)
    requires Reaches(streams, threads, events, m)
    ensures |m.streams| == streams && |m.ops| == threads && OnTarget(m) && AllBalanced(m.streams, m.ops)
  {
    RunsStayBalanced(streams, threads, events);
  }

  // ---- Losses are for good ----

  lemma EventKeepsLosses(m: Machine, e: Event, s: nat)
    requires Possible(m, e) && s < |m.streams|
    ensures |Happen(m, e).streams| == |m.streams| && Lost(m.streams[s]) <= Lost(Happen(m, e).streams[s])
  {
  }

  lemma {:induction false} LossOnlyGrows(streams: nat, threads: nat, events: seq<Event>, more: seq<Event>, s: nat, m: Machine, m': Machine)
    requires Reaches(streams, threads, events, m) && Reaches(streams, threads, events + more, m') && s < |m.streams|
    ensures |m'.streams| == |m.streams| && Lost(m.streams[s]) <= Lost(m'.streams[s])
    decreases |more|
  {
    if more == [] {
      assert events + more == events;
    } else {
      var before, e := more[..|more|-1], more[|more|-1];
      assert (events + more)[..|events + more|-1] == events + before && (events + more)[|events + more|-1] == e;
      var prev := After(streams, threads, events + before).value;
      LossOnlyGrows(streams, threads, events, before, s, m, prev);
      EventKeepsLosses(prev, e, s);
    }
  }

  // With five claims abandoned, of slots and of tokens together, nothing is left
  // to wait for: in no continuation does a put or a get on the stream get past
  // its first wait, and the tokens in the queue stay there.
  lemma LostStreamStaysDead(streams: nat, threads: nat, events: seq<Event>, more: seq<Event>, s: nat, m: Machine, m': Machine)
    requires Reaches(streams, threads, events, m) && Reaches(streams, threads, events + more, m')
    requires s < |m.streams| && Lost(m.streams[s]) == BUFFER_SIZE
    ensures s < |m'.streams| && Lost(m'.streams[s]) == BUFFER_SIZE && |m'.streams[s].buffer| == m'.streams[s].lostTokens
    ensures forall op: Op | !op.Idle? && op.at == Claim :: !CanAdvance(m'.streams[s], op)
    ensures forall t | 0 <= t < |m'.ops| :: EmptyHanded(m'.ops[t]) || m'.ops[t].s != s
  {
    LossOnlyGrows(streams, threads, events, more, s, m, m');
    ReachableIsBalanced(streams, threads, events + more, m');
    assert Balanced(m'.streams[s], m'.ops, s);
    forall t | 0 <= t < |m'.ops| ensures EmptyHanded(m'.ops[t]) || m'.ops[t].s != s {
      SumIncludes(Weights(m'.ops, s, Slot), t);
      SumIncludes(Weights(m'.ops, s, Item), t);
    }
  }

  // With nobody past its first wait, nothing can be claimed if and only if all
  // is lost.
  lemma DeadWhenAllIsLost(st: Stream, ops: seq<Op>, s: nat)
    requires Balanced(st, ops, s) && forall t | 0 <= t < |ops| :: EmptyHanded(ops[t])
    ensures st.empty == 0 && st.full == 0 <==> Lost(st) == BUFFER_SIZE
  {
    NothingInFlight(ops, s);
  }

  // ---- Everything else can still be used ----

  // Actions left until a thread is empty-handed again.
  function ToGo(op: Op): nat {
    if EmptyHanded(op) then 0 else PhasesLeft(op)
  }

  function AllToGo(ops: seq<Op>): seq<nat> {
    seq(|ops|, t requires 0 <= t < |ops| => ToGo(ops[t]))
  }

  predicate SameLosses(m: Machine, m': Machine) {
    |m'.streams| == |m.streams| && forall s | 0 <= s < |m.streams| :: Lost(m'.streams[s]) == Lost(m.streams[s])
  }

  // Whenever a thread is past its first wait, some such thread can step: the
  // thread itself or the one that has the mutex it waits for.
  lemma SomeoneCanFinish(m: Machine, t: nat) returns (u: nat)
    requires OnTarget(m) && AllBalanced(m.streams, m.ops) && t < |m.ops| && !EmptyHanded(m.ops[t])
    ensures u < |m.ops| && !EmptyHanded(m.ops[u]) && Possible(m, Advance(u))
  {
    u := t;
    var s := m.ops[t].s;
    if m.ops[t].at == Lock && m.streams[s].mutex == 0 {
      assert Balanced(m.streams[s], m.ops, s);
      u := SumHasPart(Weights(m.ops, s, Mutex));
    }
  }

  lemma AdvanceShrinks(m: Machine, u: nat)
    requires u < |m.ops| && !EmptyHanded(m.ops[u]) && Possible(m, Advance(u))
    ensures Sum(AllToGo(Happen(m, Advance(u)).ops)) < Sum(AllToGo(m.ops)) && SameLosses(m, Happen(m, Advance(u)))
  {
    var op' := AdvanceOp(m.streams[m.ops[u].s], m.ops[u]);
    SumUpdate(AllToGo(m.ops), u, ToGo(op'));
    assert AllToGo(m.ops[u := op']) == AllToGo(m.ops)[u := ToGo(op')];
  }

  // From every reachable state all operations under way can be finished,
  // without an interruption.
  lemma {:induction false} AllCanFinish(streams: nat, threads: nat, events: seq<Event>, m: Machine)
    returns (more: seq<Event>, m': Machine)
    requires Reaches(streams, threads, events, m)
    ensures Reaches(streams, threads, events + more, m') && SameLosses(m, m')
    ensures forall t | 0 <= t < |m'.ops| :: EmptyHanded(m'.ops[t])
    decreases Sum(AllToGo(m.ops))
  {
    if t :| 0 <= t < |m.ops| && !EmptyHanded(m.ops[t]) {
      RunsStayBalanced(streams, threads, events);
      var u := SomeoneCanFinish(m, t);
      AdvanceShrinks(m, u);
      ReachesOneMore(streams, threads, events, m, Advance(u));
      var rest, last := AllCanFinish(streams, threads, events + [Advance(u)], Happen(m, Advance(u)));
      more, m' := [Advance(u)] + rest, last;
      Regroup(events, [Advance(u)], rest);
    } else {
      more, m' := [], m;
      assert events + more == events;
    }
  }

  // A thread that has claimed nothing can give up what it is doing and call op.
  lemma CanTurnTo(streams: nat, threads: nat, events: seq<Event>, m: Machine, t: nat, op: Op)
    returns (more: seq<Event>, m': Machine)
    requires Reaches(streams, threads, events, m) && OnTarget(m) && t < |m.ops| && EmptyHanded(m.ops[t])
    requires Possible(Machine(m.streams, m.ops[t := Idle]), Call(t, op))
    ensures Reaches(streams, threads, events + more, m') && m' == Machine(m.streams, m.ops[t := op])
  {
    if m.ops[t].Idle? {
      assert m.ops[t := Idle] == m.ops;
      more := [Call(t, op)];
      ReachesOneMore(streams, threads, events, m, Call(t, op));
      m' := Happen(m, Call(t, op));
    } else {
      var idle := Happen(m, Interrupt(t));
      assert idle.streams == m.streams && idle.ops == m.ops[t := Idle];
      more := [Interrupt(t)] + [Call(t, op)];
      ReachesOneMore(streams, threads, events, m, Interrupt(t));
      ReachesOneMore(streams, threads, events + [Interrupt(t)], idle, Call(t, op));
      Regroup(events, [Interrupt(t)], [Call(t, op)]);
      m' := Happen(idle, Call(t, op));
      assert m'.ops == m.ops[t := op];
    }
  }

  // Thread t is at its first wait on stream s and can pass it.
  predicate PassesWait(m: Machine, t: nat, s: nat) {
    Possible(m, Advance(t)) && m.ops[t].s == s && m.ops[t].at == Claim
  }

  // From a state in which nobody has claimed anything, thread t passes a wait.
  lemma UsableWhenCalm(streams: nat, threads: nat, events: seq<Event>, m: Machine, s: nat, t: nat)
    returns (more: seq<Event>, m': Machine)
    requires Reaches(streams, threads, events, m) && OnTarget(m) && s < |m.streams| && t < |m.ops| && EmptyHanded(m.ops[t])
    requires m.streams[s].empty > 0 || m.streams[s].full > 0
    ensures Reaches(streams, threads, events + more, m') && PassesWait(m', t, s)
  {
    var op := if m.streams[s].empty > 0 then Put(s, 0, Claim) else Get(s, None, Claim);
    more, m' := CanTurnTo(streams, threads, events, m, t, op);
    assert m'.ops[t] == op;
  }

  lemma SomethingLeft(m: Machine, s: nat)
    requires AllBalanced(m.streams, m.ops) && s < |m.streams| && Lost(m.streams[s]) < BUFFER_SIZE
    requires forall t | 0 <= t < |m.ops| :: EmptyHanded(m.ops[t])
    ensures m.streams[s].empty > 0 || m.streams[s].full > 0
  {
    DeadWhenAllIsLost(m.streams[s], m.ops, s);
  }

  lemma UsableAgain(streams: nat, threads: nat, events: seq<Event>, m: Machine, s: nat, t: nat)
    returns (more: seq<Event>, m': Machine)
    requires Reaches(streams, threads, events, m) && s < streams && t < threads
    requires s < |m.streams| && Lost(m.streams[s]) < BUFFER_SIZE
    ensures Reaches(streams, threads, events + more, m') && PassesWait(m', t, s)
  {
    var calm, m1 := AllCanFinish(streams, threads, events, m);
    ReachableIsBalanced(streams, threads, events + calm, m1);
    SomethingLeft(m1, s);
    var turn: seq<Event>;
    turn, m' := UsableWhenCalm(streams, threads, events + calm, m1, s, t);
    more := calm + turn;
    Regroup(events, calm, turn);
  }

  // After any run, a stream can be used again, by any thread, in some
  // continuation if and only if fewer than five claims on it were abandoned.
  lemma UsableUnlessAllLost(streams: nat, threads: nat, events: seq<Event>, m: Machine, s: nat, t: nat)
    requires Reaches(streams, threads, events, m) && s < streams && t < threads
    ensures s < |m.streams|
    ensures (exists more, m' :: Reaches(streams, threads, events + more, m') && PassesWait(m', t, s))
            <==> Lost(m.streams[s]) < BUFFER_SIZE
  {
    ReachableIsBalanced(streams, threads, events, m);
    assert Balanced(m.streams[s], m.ops, s);
    if Lost(m.streams[s]) < BUFFER_SIZE {
      var more, m' := UsableAgain(streams, threads, events, m, s, t);
    } else {
      forall more, m' | Reaches(streams, threads, events + more, m') ensures !PassesWait(m', t, s) {
        LostStreamStaysDead(streams, threads, events, more, s, m, m');
      }
    }
  }

  // ---- All can be lost ----

  // A put on stream s that is interrupted while it waits for the mutex.
  function AbandonedPut(s: nat, t: nat): seq<Event> {
    [Call(t, Put(s, 0, Claim))] + [Advance(t)] + [Interrupt(t)]
  }

  // Stream s after a complete puts, b gets interrupted at the mutex, and c puts
  // interrupted there. An interrupted put keeps its slot and an interrupted get
  // its claim on a token, which stays in the queue.
  predicate LeftWith(m: Machine, s: nat, t: nat, a: nat, b: nat, c: nat) {
    && s < |m.streams| && t < |m.ops| && m.ops[t].Idle? && b <= a <= 5
    && var st := m.streams[s];
       && st.empty + a + c == 5 && st.full + b == a && st.mutex == 1 && |st.buffer| == a
       && st.lostSlots == c && st.lostTokens == b
  }

  function CompletePut(s: nat, t: nat): seq<Event> {
    [Call(t, Put(s, 0, Claim))] + [Advance(t)] + [Advance(t)] + [Advance(t)] + [Advance(t)] + [Advance(t)]
  }

  // A get on stream s that is interrupted while it waits for the mutex.
  function AbandonedGet(s: nat, t: nat): seq<Event> {
    [Call(t, Get(s, None, Claim))] + [Advance(t)] + [Interrupt(t)]
  }

  lemma CallAndClaim(streams: nat, threads: nat, events: seq<Event>, m: Machine, t: nat, op: Op) returns (m': Machine)
    requires Reaches(streams, threads, events, m) && Possible(m, Call(t, op)) && CanAdvance(m.streams[op.s], op)
    ensures Reaches(streams, threads, events + [Call(t, op)] + [Advance(t)], m') && |m'.ops| == |m.ops|
    ensures m'.streams == m.streams[op.s := AdvanceStream(m.streams[op.s], op)] && m'.ops == m.ops[t := At(op, Lock)]
  {
    var called := Happen(m, Call(t, op));
    ReachesOneMore(streams, threads, events, m, Call(t, op));
    ReachesOneMore(streams, threads, events + [Call(t, op)], called, Advance(t));
    m' := Happen(called, Advance(t));
  }

  lemma LoseSlot(streams: nat, threads: nat, events: seq<Event>, m: Machine, s: nat, t: nat, a: nat, b: nat, c: nat)
    returns (m': Machine)
    requires Reaches(streams, threads, events, m) && LeftWith(m, s, t, a, b, c) && a + c < 5
    ensures Reaches(streams, threads, events + AbandonedPut(s, t), m') && LeftWith(m', s, t, a, b, c + 1)
  {
    var call := Call(t, Put(s, 0, Claim));
    var claimed := CallAndClaim(streams, threads, events, m, t, Put(s, 0, Claim));
    ReachesOneMore(streams, threads, events + [call] + [Advance(t)], claimed, Interrupt(t));
    m' := Happen(claimed, Interrupt(t));
    assert events + AbandonedPut(s, t) == events + [call] + [Advance(t)] + [Interrupt(t)];
  }

  lemma LoseToken(streams: nat, threads: nat, events: seq<Event>, m: Machine, s: nat, t: nat, a: nat, b: nat, c: nat)
    returns (m': Machine)
    requires Reaches(streams, threads, events, m) && LeftWith(m, s, t, a, b, c) && b < a
    ensures Reaches(streams, threads, events + AbandonedGet(s, t), m') && LeftWith(m', s, t, a, b + 1, c)
  {
    var call := Call(t, Get(s, None, Claim));
    var claimed := CallAndClaim(streams, threads, events, m, t, Get(s, None, Claim));
    ReachesOneMore(streams, threads, events + [call] + [Advance(t)], claimed, Interrupt(t));
    m' := Happen(claimed, Interrupt(t));
    assert events + AbandonedGet(s, t) == events + [call] + [Advance(t)] + [Interrupt(t)];
  }

  lemma Advances(streams: nat, threads: nat, events: seq<Event>, m: Machine, t: nat) returns (m': Machine)
    requires Reaches(streams, threads, events, m) && Possible(m, Advance(t))
    ensures Reaches(streams, threads, events + [Advance(t)], m') && |m'.streams| == |m.streams| && |m'.ops| == |m.ops|
    ensures var op, st := m.ops[t], m.streams[m.ops[t].s];
            m'.streams[op.s] == AdvanceStream(st, op) && m'.ops[t] == AdvanceOp(st, op)
  {
    ReachesOneMore(streams, threads, events, m, Advance(t));
    m' := Happen(m, Advance(t));
  }

  lemma PutOne(streams: nat, threads: nat, events: seq<Event>, m: Machine, s: nat, t: nat, a: nat)
    returns (m': Machine)
    requires Reaches(streams, threads, events, m) && LeftWith(m, s, t, a, 0, 0) && a < 5
    ensures Reaches(streams, threads, events + CompletePut(s, t), m') && LeftWith(m', s, t, a + 1, 0, 0)
  {
    var e := events + [Call(t, Put(s, 0, Claim))] + [Advance(t)];
    var claimed := CallAndClaim(streams, threads, events, m, t, Put(s, 0, Claim));
    var locked := Advances(streams, threads, e, claimed, t);
    var moved := Advances(streams, threads, e + [Advance(t)], locked, t);
    var unlocked := Advances(streams, threads, e + [Advance(t)] + [Advance(t)], moved, t);
    m' := Advances(streams, threads, e + [Advance(t)] + [Advance(t)] + [Advance(t)], unlocked, t);
    assert events + CompletePut(s, t) == e + [Advance(t)] + [Advance(t)] + [Advance(t)] + [Advance(t)];
  }

  // a complete puts, then b abandoned gets, then c abandoned puts.
  function Losing(s: nat, t: nat, a: nat, b: nat, c: nat): seq<Event>
    decreases a + b + c
  {
    if c > 0 then Losing(s, t, a, b, c - 1) + AbandonedPut(s, t)
    else if b > 0 then Losing(s, t, a, b - 1, 0) + AbandonedGet(s, t)
    else if a > 0 then Losing(s, t, a - 1, 0, 0) + CompletePut(s, t)
    else []
  }

  // On any stream, by any one thread, every combination of lost slots and lost
  // tokens that a stream can have is reached by a run; so with b + c == 5 the
  // stream is dead.
  lemma {:induction false} AllCanBeLost(streams: nat, threads: nat, s: nat, t: nat, a: nat, b: nat, c: nat) returns (m: Machine)
    requires s < streams && t < threads && b <= a && a + c <= 5
    ensures Reaches(streams, threads, Losing(s, t, a, b, c), m) && LeftWith(m, s, t, a, b, c)
    decreases a + b + c
  {
    if c > 0 {
      var before := AllCanBeLost(streams, threads, s, t, a, b, c - 1);
      m := LoseSlot(streams, threads, Losing(s, t, a, b, c - 1), before, s, t, a, b, c - 1);
    } else if b > 0 {
      var before := AllCanBeLost(streams, threads, s, t, a, b - 1, 0);
      m := LoseToken(streams, threads, Losing(s, t, a, b - 1, 0), before, s, t, a, b - 1, 0);
    } else if a > 0 {
      var before := AllCanBeLost(streams, threads, s, t, a - 1, 0, 0);
      m := PutOne(streams, threads, Losing(s, t, a - 1, 0, 0), before, s, t, a - 1);
    } else {
      m := Start(streams, threads);
    }
  }
}

// The character device that turns writes into identities, and the worker that
// drains them (Task_18/misc_device/misc_dev.c).
module NameDevice {
  import opened Bytes
  import opened Options
  import opened IdentityRing

  const EFAULT: int := 14
  const INPUT_SIZE: nat := 4096
  const WRITABLE: nat := 19
  const SSIZE_MAX: nat := 0x7fff_ffff_ffff_ffff
  const INT_LIMIT: nat := 0x8000_0000
  const ULONG_LIMIT: nat := 0x1_0000_0000_0000_0000

  // ---- The state as a value ----

  // input is user_input; made and freed count the identities that were
  // allocated and released.
  datatype Device = Device(input: seq<char>, idCount: nat, list: seq<Identity>, recent: Identity,
                           made: nat, freed: nat)

  // An unsigned long passed as an int.
  function AsInt(n: nat): int {
    var m := n % (2 * INT_LIMIT);
    if m < INT_LIMIT then m else m - 2 * INT_LIMIT
  }

  // How many bytes a write at pos accepts.
  function Accepted(pos: nat, count: nat): nat {
    if pos >= WRITABLE then 0 else if pos + count > WRITABLE then WRITABLE - pos else count
  }

  // simple_dev_write: landed is what the copy left in the accepted bytes, and
  // fault says whether it failed.
  datatype Write = Write(pos: nat, count: nat, landed: seq<char>, fault: bool, outOfMemory: bool)

  predicate Sane(w: Write) {
    w.count <= SSIZE_MAX && |w.landed| == Accepted(w.pos, w.count)
  }

  function Written(d: Device, w: Write): Device
    requires |d.input| == INPUT_SIZE && Sane(w)
  {
    if w.pos >= WRITABLE then d else
    var d' := d.(input := Overlay(d.input, w.pos, w.landed));
    if w.fault then d' else
    var (list, err) := Create(d.list, CString(d'.input), AsInt(d.idCount), w.outOfMemory);
    d'.(list := list, idCount := (d.idCount + 1) % ULONG_LIMIT,
        made := d.made + if err == 0 then 1 else 0)
  }

  function WriteResult(w: Write): int {
    if w.pos >= WRITABLE then 0 else if w.fault then -EFAULT else Accepted(w.pos, w.count)
  }

  // The worker wakes up and calls identity_get.
  function Drained(d: Device): Device {
    d.(list := [], recent := Oldest(d.list, d.recent), freed := d.freed + |d.list|)
  }

  datatype Event = Writes(w: Write) | Wakes

  function Happen(d: Device, e: Event): Device
    requires |d.input| == INPUT_SIZE && (e.Writes? ==> Sane(e.w))
  {
    if e.Writes? then Written(d, e.w) else Drained(d)
  }

  // What misc_init leaves behind: what it drained, and how many identities it
  // made and released.
  datatype Boot = Boot(recent: Identity, made: nat)

  // Loaded: nothing written yet, and the list empty again.
  function Loaded(boot: Boot): Device {
    Device(seq(INPUT_SIZE, _ => NUL), 0, [], boot.recent, boot.made, boot.made)
  }

  function After(boot: Boot, events: seq<Event>): (d: Option<Device>)
    ensures d.Some? ==> |d.value.input| == INPUT_SIZE
  {
    if events == [] then Some(Loaded(boot)) else
    match After(boot, events[..|events|-1])
    case None => None
    case Some(d) =>
      var e := events[|events|-1];
      if e.Writes? ==> Sane(e.w) then Some(Happen(d, e)) else None
  }

  // ---- What every run keeps ----

  predicate TailZero(input: seq<char>) {
    |input| == INPUT_SIZE && forall k | WRITABLE <= k < INPUT_SIZE :: input[k] == NUL
  }

  // Newer entries are nearer the head and have larger ids.
  predicate Descending(list: seq<Identity>, below: nat) {
    && (forall i | 0 <= i < |list| :: 0 <= list[i].id < below)
    && (forall i, j | 0 <= i < j < |list| :: list[i].id > list[j].id)
  }

  predicate NamesFit(list: seq<Identity>) {
    forall i | 0 <= i < |list| :: |list[i].name| + 1 <= NAME_SIZE && NUL !in list[i].name
  }

  // Independent of how many writes there were.
  predicate Sound(d: Device) {
    TailZero(d.input) && NamesFit(d.list) && d.made == d.freed + |d.list|
  }

  // The name a write passes on always passes the length test: it ends, with
  // its NUL, within the first 20 bytes of the buffer.
  lemma NameFits(d: Device, w: Write)
    requires TailZero(d.input) && Sane(w)
    ensures var input := Written(d, w).input;
            TailZero(input) && |CString(input)| + 1 <= NAME_SIZE && NUL !in CString(input) &&
            CString(input) + [NUL] == input[..|CString(input)| + 1]
  {
    var input := Written(d, w).input;
    CStringEnds(input, WRITABLE);
  }

  lemma WriteKeepsSound(d: Device, w: Write)
    requires Sound(d) && Sane(w)
    ensures Sound(Written(d, w))
    ensures w.pos < WRITABLE && !w.fault && !w.outOfMemory ==>
              Written(d, w).list == [Identity(CString(Written(d, w).input), AsInt(d.idCount), false)] + d.list
  {
    NameFits(d, w);
  }

  // In every run of writes and wake-ups, in any order.
  lemma {:induction false} RunsStaySound(boot: Boot, events: seq<Event>)
    ensures After(boot, events).Some? ==> Sound(After(boot, events).value)
  {
    if events != [] {
      RunsStaySound(boot, events[..|events|-1]);
      var prev, e := After(boot, events[..|events|-1]), events[|events|-1];
      if prev.Some? && e.Writes? && Sane(e.w) {
        WriteKeepsSound(prev.value, e.w);
      }
    }
  }

  // ---- What a write does, in the source's numbers ----

  function Smaller(m: nat, n: nat): nat {
    if m < n then m else n
  }

  // A write at offset 19 or beyond does nothing and returns 0. Any other takes
  // what fits below 19; if the copy fails it returns -EFAULT and makes nothing,
  // and otherwise it returns what it took, counts, and makes an identity if there
  // is memory.
  lemma WriteOutcome(d: Device, w: Write)
    requires Sound(d) && Sane(w)
    ensures |w.landed| == if w.pos >= 19 then 0 else Smaller(w.count, 19 - w.pos)
    ensures WriteResult(w) == if w.pos >= 19 then 0 else if w.fault then -14 else Smaller(w.count, 19 - w.pos)
    ensures w.pos >= 19 ==> Written(d, w) == d
    ensures w.pos < 19 && w.fault ==> Written(d, w) == d.(input := Written(d, w).input)
    ensures w.pos < 19 && !w.fault ==>
              && Written(d, w).idCount == (d.idCount + 1) % 0x1_0000_0000_0000_0000
              && Written(d, w).recent == d.recent && Written(d, w).freed == d.freed
              && (w.outOfMemory ==> Written(d, w).list == d.list && Written(d, w).made == d.made)
              && (!w.outOfMemory ==> |Written(d, w).list| == |d.list| + 1 && Written(d, w).list[1..] == d.list)
  {
    WriteKeepsSound(d, w);
  }

  // The id passed on is the int that agrees with the counter modulo 2^32.
  lemma AsIntAgrees(n: nat)
    ensures -0x8000_0000 <= AsInt(n) < 0x8000_0000 && (n - AsInt(n)) % 0x1_0000_0000 == 0
  {
  }

  // ---- What is in the buffer, from the history alone ----

  predicate Covers(e: Event, k: nat) {
    e.Writes? && e.w.pos <= k < e.w.pos + |e.w.landed|
  }

  // The byte brought by the last write that covers k; NUL if none does.
  function LastByte(events: seq<Event>, k: nat): char {
    if events == [] then NUL
    else if Covers(events[|events|-1], k) then events[|events|-1].w.landed[k - events[|events|-1].w.pos]
    else LastByte(events[..|events|-1], k)
  }

  function Buffer(events: seq<Event>): (input: seq<char>)
    ensures |input| == 4096 && forall k | 0 <= k < 4096 :: input[k] == LastByte(events, k)
  {
    seq(4096, k requires 0 <= k < 4096 => LastByte(events, k))
  }

  // In every run the buffer holds, byte for byte, what was last written there.
  lemma {:induction false} InputIsBuffer(boot: Boot, events: seq<Event>)
    ensures var d := After(boot, events); d.Some? ==> d.value.input == Buffer(events)
  {
    if events != [] && After(boot, events).Some? {
      var before, e := events[..|events|-1], events[|events|-1];
      InputIsBuffer(boot, before);
      var input := After(boot, events).value.input;
      forall k | 0 <= k < 4096 ensures input[k] == LastByte(events, k) {
        assert Buffer(before)[k] == LastByte(before, k);
      }
      assert input == Buffer(events);
    }
  }

  lemma {:induction false} LastByteIsLast(events: seq<Event>, k: nat, i: nat)
    requires i < |events| && Covers(events[i], k) && forall j | i < j < |events| :: !Covers(events[j], k)
    ensures LastByte(events, k) == events[i].w.landed[k - events[i].w.pos]
  {
    if i < |events| - 1 {
      assert !Covers(events[|events|-1], k);
      LastByteIsLast(events[..|events|-1], k, i);
    }
  }

  lemma {:induction false} LastByteIsNul(events: seq<Event>, k: nat)
    requires forall j | 0 <= j < |events| :: !Covers(events[j], k)
    ensures LastByte(events, k) == NUL
  {
    if events != [] {
      assert !Covers(events[|events|-1], k);
      LastByteIsNul(events[..|events|-1], k);
    }
  }

  // A byte that write i brought stays until a later write covers it, whether or
  // not those writes fail and whatever wakes up in between.
  lemma LastWriteWins(boot: Boot, events: seq<Event>, d: Device, k: nat, i: nat)
    requires After(boot, events) == Some(d) && i < |events|
    requires Covers(events[i], k) && forall j | i < j < |events| :: !Covers(events[j], k)
    ensures k < 19 && d.input[k] == events[i].w.landed[k - events[i].w.pos]
  {
    RunsAreSane(boot, events, i);
    InputIsBuffer(boot, events);
    LastByteIsLast(events, k, i);
    assert Buffer(events)[k] == LastByte(events, k);
  }

  lemma UnwrittenIsNul(boot: Boot, events: seq<Event>, d: Device, k: nat)
    requires After(boot, events) == Some(d) && k < 4096
    requires forall j | 0 <= j < |events| :: !Covers(events[j], k)
    ensures d.input[k] == NUL
  {
    InputIsBuffer(boot, events);
    LastByteIsNul(events, k);
    assert Buffer(events)[k] == LastByte(events, k);
  }

  lemma {:induction false} RunsAreSane(boot: Boot, events: seq<Event>, i: nat)
    requires After(boot, events).Some? && i < |events| && events[i].Writes?
    ensures Sane(events[i].w)
  {
    if i < |events| - 1 {
      RunsAreSane(boot, events[..|events|-1], i);
    }
  }

  // ---- What is pending, from the history alone ----

  // A write that gets past its copy moves the counter, and one that also gets
  // memory creates an identity.
  predicate Counts(e: Event) {
    e.Writes? && e.w.pos < 19 && !e.w.fault
  }

  predicate Creates(e: Event) {
    Counts(e) && !e.w.outOfMemory
  }

  function Increments(events: seq<Event>): nat {
    if events == [] then 0
    else Increments(events[..|events|-1]) + if Counts(events[|events|-1]) then 1 else 0
  }

  // The identity that the last of these events creates: it is named by what was
  // last written and numbered by the writes counted before.
  function Created(events: seq<Event>): Identity
    requires events != []
  {
    Identity(CString(Buffer(events)), AsInt(Increments(events[..|events|-1])), false)
  }

  // What was created since the last wake-up, the newest first.
  function Pending(events: seq<Event>): seq<Identity> {
    if events == [] || events[|events|-1] == Wakes then []
    else (if Creates(events[|events|-1]) then [Created(events)] else []) + Pending(events[..|events|-1])
  }

  // A write at the start of the buffer gives the identity a name that begins with
  // what was written; and where nothing was written behind it, that is the name.
  lemma NameAsWritten(events: seq<Event>)
    requires events != [] && events[|events|-1].Writes?
    requires var w := events[|events|-1].w; w.pos == 0 && |w.landed| < 4096 && NUL !in w.landed
    ensures var w := events[|events|-1].w;
            && w.landed <= CString(Buffer(events))
            && (LastByte(events, |w.landed|) == NUL ==> CString(Buffer(events)) == w.landed)
  {
    var w, input := events[|events|-1].w, Buffer(events);
    forall k | 0 <= k < |w.landed| ensures input[k] == w.landed[k] {
      assert Covers(events[|events|-1], k);
    }
    CStringBegins(input, w.landed);
  }

  function LastWake(events: seq<Event>): (n: nat)
    ensures n <= |events| && (n > 0 ==> events[n-1] == Wakes)
    ensures forall k | n <= k < |events| :: events[k] != Wakes
  {
    if events == [] || events[|events|-1] == Wakes then |events| else LastWake(events[..|events|-1])
  }

  lemma {:induction false} CounterIsIncrements(boot: Boot, events: seq<Event>)
    ensures var d := After(boot, events); d.Some? ==> d.value.idCount == Increments(events) % ULONG_LIMIT
  {
    if events != [] {
      CounterIsIncrements(boot, events[..|events|-1]);
      WrapOnce(Increments(events[..|events|-1]));
    }
  }

  lemma WrapOnce(n: nat)
    ensures (n % ULONG_LIMIT + 1) % ULONG_LIMIT == (n + 1) % ULONG_LIMIT
  {
  }

  lemma AsIntOfWrapped(n: nat)
    ensures AsInt(n % ULONG_LIMIT) == AsInt(n)
  {
    var q := n / ULONG_LIMIT;
    assert n == n % ULONG_LIMIT + 2 * INT_LIMIT * (2 * INT_LIMIT * q);
    ModuloMultiple(n % ULONG_LIMIT, 2 * INT_LIMIT * q);
  }

  lemma ModuloMultiple(n: nat, q: nat)
    ensures (n + 2 * INT_LIMIT * q) % (2 * INT_LIMIT) == n % (2 * INT_LIMIT)
  {
  }

  // In every run, however long, the list is exactly what was created since the
  // last wake-up.
  lemma {:induction false} ListIsPending(boot: Boot, events: seq<Event>)
    ensures var d := After(boot, events); d.Some? ==> d.value.list == Pending(events)
  {
    if events != [] && After(boot, events).Some? {
      var before, e := events[..|events|-1], events[|events|-1];
      ListIsPending(boot, before);
      if Creates(e) {
        RunsStaySound(boot, before);
        CounterIsIncrements(boot, before);
        AsIntOfWrapped(Increments(before));
        InputIsBuffer(boot, events);
        WriteKeepsSound(After(boot, before).value, e.w);
      }
    }
  }

  // Its last entry is from the first event that created anything since then.
  lemma {:induction false} PendingEnds(events: seq<Event>, recent: Identity, j: nat)
    requires LastWake(events) <= j <= |events|
    requires forall k | LastWake(events) <= k < j :: !Creates(events[k])
    ensures j == |events| ==> Pending(events) == []
    ensures j < |events| && Creates(events[j]) ==>
              Pending(events) != [] && Oldest(Pending(events), recent) == Created(events[..j+1])
    decreases |events|
  {
    if events != [] && events[|events|-1] != Wakes {
      var before := events[..|events|-1];
      if j == |events| {
        PendingEnds(before, recent, j - 1);
      } else if j == |events| - 1 {
        PendingEnds(before, recent, j);
        assert events[..j+1] == events;
      } else {
        PendingEnds(before, recent, j);
        assert before[..j+1] == events[..j+1];
      }
    }
  }

  // After any run of writes and wake-ups the worker gets the identity made by
  // the first event that created one since it last woke up; if none did it gets
  // what it got before. Either way the list is empty afterwards and everything
  // allocated has been released.
  lemma WakeTakesOldest(boot: Boot, events: seq<Event>, d: Device, j: nat)
    requires After(boot, events) == Some(d) && LastWake(events) <= j <= |events|
    requires forall k | LastWake(events) <= k < j :: !Creates(events[k])
    ensures var d' := Drained(d);
            && After(boot, events + [Wakes]) == Some(d') && d'.list == [] && d'.made == d'.freed
            && (j == |events| ==> d'.recent == d.recent)
            && (j < |events| && Creates(events[j]) ==> d'.recent == Created(events[..j+1]))
  {
    assert (events + [Wakes])[..|events|] == events;
    RunsStaySound(boot, events);
    ListIsPending(boot, events);
    PendingEnds(events, d.recent, j);
  }

  // ---- The order of the ids ----

  lemma SmallCounter(n: nat)
    requires n < INT_LIMIT
    ensures (n + 1) % ULONG_LIMIT == n + 1 && AsInt(n) == n
  {
  }

  lemma WriteKeepsDescending(d: Device, w: Write)
    requires |d.input| == INPUT_SIZE && Sane(w) && Descending(d.list, d.idCount)
    requires Counts(Writes(w)) ==> d.idCount < INT_LIMIT
    ensures Written(d, w).idCount == d.idCount + if Counts(Writes(w)) then 1 else 0
    ensures Descending(Written(d, w).list, Written(d, w).idCount)
  {
    if Counts(Writes(w)) {
      SmallCounter(d.idCount);
    }
  }

  // As long as the counter has not left the int range, the ids pending are
  // distinct, below the counter, and strictly decreasing from the head. Only
  // writes that move the counter use the range up.
  lemma {:induction false} RunsStayDescending(boot: Boot, events: seq<Event>)
    requires Increments(events) <= INT_LIMIT
    ensures var d := After(boot, events);
            d.Some? ==> d.value.idCount == Increments(events) && Descending(d.value.list, d.value.idCount)
  {
    if events != [] {
      RunsStayDescending(boot, events[..|events|-1]);
      var prev, e := After(boot, events[..|events|-1]), events[|events|-1];
      if prev.Some? && e.Writes? && Sane(e.w) {
        WriteKeepsDescending(prev.value, e.w);
      }
    }
  }

  // Then the oldest identity pending is the one with the smallest id.
  lemma OldestHasSmallestId(boot: Boot, events: seq<Event>, d: Device, x: Identity)
    requires After(boot, events) == Some(d) && Increments(events) <= INT_LIMIT && x in d.list
    ensures Drained(d).recent in d.list && (x != Drained(d).recent ==> Drained(d).recent.id < x.id)
  {
    RunsStayDescending(boot, events);
  }

  // A write that creates an identity keeps the order exactly when the counter,
  // cut to an int, is not negative, still above the ids pending, and the counter
  // does not wrap.
  lemma OrderNeedsIntRange(d: Device, w: Write)
    requires Sound(d) && Sane(w) && d.idCount < ULONG_LIMIT && Descending(d.list, d.idCount)
    requires Creates(Writes(w))
    ensures Descending(Written(d, w).list, Written(d, w).idCount) <==>
              && 0 <= AsInt(d.idCount) < (d.idCount + 1) % ULONG_LIMIT
              && (d.list == [] || d.list[0].id < AsInt(d.idCount))
  {
    WriteKeepsSound(d, w);
    var d' := Written(d, w);
    assert d'.list[0].id == AsInt(d.idCount);
    if d.list != [] {
      assert d'.list[1] == d.list[0];
    }
    assert forall i | 0 < i < |d'.list| :: d'.list[i] == d.list[i-1];
  }

  // n writes of nothing that find no memory: each moves the counter.
  function Starved(n: nat): seq<Event> {
    seq(n, _ => Writes(Write(0, 0, [], false, true)))
  }

  lemma {:induction false} StarvedMovesCounter(boot: Boot, n: nat)
    ensures Increments(Starved(n)) == n
    ensures After(boot, Starved(n)).Some? && After(boot, Starved(n)).value.list == []
  {
    if n > 0 {
      assert Starved(n)[..n-1] == Starved(n - 1);
      StarvedMovesCounter(boot, n - 1);
    }
  }

  // The bound is the best there is: with nothing pending, the next identity
  // after INT_LIMIT counted writes gets a negative id, and the loop of misc_exit
  // ends before it comes to it.
  lemma OrderBreaks(boot: Boot, events: seq<Event>)
    requires events != [] && Creates(events[|events|-1]) && After(boot, events).Some?
    requires Increments(events) == INT_LIMIT + 1 && Pending(events[..|events|-1]) == []
    ensures var d := After(boot, events).value;
            && d.list == [Created(events)] && d.list[0].id < 0
            && !Descending(d.list, d.idCount) && Exited(d.list, Rounds(d.idCount)) != []
  {
    var d := After(boot, events).value;
    ListIsPending(boot, events);
    CounterIsIncrements(boot, events);
    ExitedEmpties(d.list, Rounds(d.idCount));
  }

  lemma OrderCanBreak(boot: Boot, w: Write)
    requires Sane(w) && Creates(Writes(w))
    ensures var events := Starved(INT_LIMIT) + [Writes(w)];
            && Increments(events) == INT_LIMIT + 1 && After(boot, events).Some?
            && var d := After(boot, events).value;
               !Descending(d.list, d.idCount) && Exited(d.list, Rounds(d.idCount)) != []
  {
    var before, events := Starved(INT_LIMIT), Starved(INT_LIMIT) + [Writes(w)];
    assert events[..|events|-1] == before;
    StarvedMovesCounter(boot, INT_LIMIT);
    ListIsPending(boot, before);
    OrderBreaks(boot, events);
  }

  // ---- Unloading ----

  // The loop of misc_exit counts an int up and compares it with the counter, an
  // unsigned long. The int wraps: its value in round number k is AsInt(k).
  function Rounds(idCount: nat): nat {
    if idCount <= INT_LIMIT then idCount
    else if idCount <= ULONG_LIMIT - INT_LIMIT then INT_LIMIT
    else idCount - (ULONG_LIMIT - 2 * INT_LIMIT)
  }

  function Incremented(i: int): int {
    if i == INT_LIMIT - 1 then -(INT_LIMIT as int) else i + 1
  }

  lemma IncrementedIsNext(k: nat)
    ensures Incremented(AsInt(k)) == AsInt(k + 1)
  {
  }

  lemma RoundsEnd(idCount: nat, k: nat)
    requires idCount < ULONG_LIMIT && k <= Rounds(idCount)
    ensures AsInt(k) % ULONG_LIMIT < idCount <==> k < Rounds(idCount)
  {
    assert AsInt(k) == if k < INT_LIMIT then k else k - 2 * INT_LIMIT;
    assert AsInt(k) % ULONG_LIMIT == if k < INT_LIMIT then k else k - 2 * INT_LIMIT + ULONG_LIMIT;
  }

  // The list after n rounds.
  function Exited(list: seq<Identity>, n: nat): seq<Identity> {
    if n == 0 then list else Remove(Exited(list, n - 1), AsInt(n - 1))
  }

  // The loop comes to this id within n rounds.
  predicate Reached(id: int, n: nat) {
    -(INT_LIMIT as int) <= id < INT_LIMIT && (if id >= 0 then id else id + 2 * INT_LIMIT) < n
  }

  lemma ReachedNext(id: int, n: nat)
    requires n < 2 * INT_LIMIT
    ensures Reached(id, n + 1) <==> Reached(id, n) || id == AsInt(n)
  {
  }

  lemma {:induction false} ExitedRemoves(list: seq<Identity>, n: nat, x: Identity)
    requires n <= 2 * INT_LIMIT
    ensures x in Exited(list, n) <==> x in list && !Reached(x.id, n)
  {
    if n > 0 {
      ExitedRemoves(list, n - 1, x);
      ReachedNext(x.id, n - 1);
      RemoveMember(Exited(list, n - 1), AsInt(n - 1), x);
    }
  }

  lemma ExitedEmpties(list: seq<Identity>, n: nat)
    requires n <= 2 * INT_LIMIT
    ensures Exited(list, n) == [] <==> forall i | 0 <= i < |list| :: Reached(list[i].id, n)
  {
    var rest := Exited(list, n);
    if rest != [] {
      ExitedRemoves(list, n, rest[0]);
    }
    forall i | 0 <= i < |list| ensures list[i] in rest <==> !Reached(list[i].id, n) {
      ExitedRemoves(list, n, list[i]);
    }
  }

  // As long as the counter is in the int range, the ids every run has are reached.
  lemma DescendingIsReached(list: seq<Identity>, idCount: nat)
    requires Descending(list, idCount) && idCount <= INT_LIMIT
    ensures Exited(list, Rounds(idCount)) == []
  {
    ExitedEmpties(list, Rounds(idCount));
  }

  // After any run the loop of misc_exit leaves nothing on the list.
  lemma ExitEmptiesList(boot: Boot, events: seq<Event>, d: Device)
    requires After(boot, events) == Some(d) && Increments(events) <= INT_LIMIT
    ensures Exited(d.list, Rounds(d.idCount)) == []
  {
    RunsStayDescending(boot, events);
    DescendingIsReached(d.list, d.idCount);
  }

  // ---- Loading ----

  // The identities misc_init creates are numbered from 1.
  const NAMES: seq<string> := ["Alice", "Bob", "Dave", "Gena"]

  // The first one from number k on for which there is memory.
  function FirstMade(outOfMemory: seq<bool>, k: nat): Identity
    requires k <= |outOfMemory| == |NAMES|
    decreases |NAMES| - k
  {
    if k == |NAMES| then BLANK
    else if outOfMemory[k] then FirstMade(outOfMemory, k + 1)
    else Identity(NAMES[k], k + 1, false)
  }

  // That is Alice with number 1 if there was memory for her; each of the others
  // in turn, numbered 2 to 4, if all before failed; and nothing if all failed.
  lemma FirstMadeIs(outOfMemory: seq<bool>)
    requires |outOfMemory| == 4
    ensures FirstMade(outOfMemory, 0) ==
              if !outOfMemory[0] then Identity("Alice", 1, false)
              else if !outOfMemory[1] then Identity("Bob", 2, false)
              else if !outOfMemory[2] then Identity("Dave", 3, false)
              else if !outOfMemory[3] then Identity("Gena", 4, false)
              else Identity("", 0, false)
  {
    assert FirstMade(outOfMemory, 4) == Identity("", 0, false);
    assert FirstMade(outOfMemory, 2) == if !outOfMemory[2] then Identity("Dave", 3, false) else FirstMade(outOfMemory, 3);
  }

  lemma SomeMember(list: seq<Identity>)
    ensures list != [] ==> exists x :: x in list
  {
    if list != [] {
      assert list[0] in list;
    }
  }

  lemma RemoveNames(list: seq<Identity>)
    ensures forall x :: x in Remove(Remove(Remove(Remove(Remove(list, 2), 1), 10), 42), 3) <==>
                        x in list && x.id !in {1, 2, 3, 10, 42}
  {
    forall x
      ensures x in Remove(Remove(Remove(Remove(Remove(list, 2), 1), 10), 42), 3) <==> x in list && x.id !in {1, 2, 3, 10, 42}
    {
      RemoveMember(list, 2, x);
      RemoveMember(Remove(list, 2), 1, x);
      RemoveMember(Remove(Remove(list, 2), 1), 10, x);
      RemoveMember(Remove(Remove(Remove(list, 2), 1), 10), 42, x);
      RemoveMember(Remove(Remove(Remove(Remove(list, 2), 1), 10), 42), 3, x);
    }
  }

  // ---- The driver in place ----

  class Driver {
    const input: array<char>
    var idCount: nat
    const list: IdentityList

    ghost predicate Valid()
      reads this, list, list.repr
    {
      input.Length == INPUT_SIZE && idCount < ULONG_LIMIT && list.Valid()
    }

    ghost function View(): Device
      reads this, input, list, list.repr
      requires Valid()
    {
      Device(input[..], idCount, list.Contents(), list.recent, list.made, list.freed)
    }

    constructor ()
      ensures Valid() && View() == Loaded(Boot(BLANK, 0))
      ensures fresh(input) && fresh(list) && fresh(list.repr)
    {
      input := new char[INPUT_SIZE](_ => NUL);
      idCount := 0;
      list := new IdentityList();
      new;
      assert input[..] == seq(INPUT_SIZE, _ => NUL);
    }

    // Device calls are serialized: one runs to its end before the next begins.
    method SimpleDevWrite(w: Write) returns (ret: int, pos: nat)
      requires Valid() && Sane(w)
      modifies this, input, list, list.repr
      ensures Valid() && View() == Written(old(View()), w) && ret == WriteResult(w)
      ensures ret == (if w.pos >= 19 then 0 else if w.fault then -14 else Smaller(w.count, 19 - w.pos))
      ensures pos == w.pos + if ret > 0 then ret else 0
      ensures fresh(list.repr - old(list.repr))
    {
      pos := w.pos;
      if w.pos >= WRITABLE {
        return 0, pos;
      }
      var count := w.count;
      if w.pos + count > WRITABLE {
        count := WRITABLE - w.pos;
      }
      CopyIn(w.pos, w.landed);
      if w.fault {
        return -EFAULT, pos;
      }
      ret, pos := count, w.pos + count;
      var _ := list.IdentityCreate(CString(input[..]), AsInt(idCount), w.outOfMemory);
      idCount := (idCount + 1) % ULONG_LIMIT;
    }

    method CopyIn(pos: nat, data: seq<char>)
      requires Valid() && pos + |data| <= INPUT_SIZE
      modifies input
      ensures input[..] == Overlay(old(input[..]), pos, data)
    {
      ghost var was := input[..];
      for k := 0 to |data|
        invariant input[..] == Overlay(was, pos, data[..k])
      {
        input[pos + k] := data[k];
      }
      assert data[..|data|] == data;
    }

    method Wake() returns (got: Identity)
      requires Valid()
      modifies list, list.repr
      ensures Valid() && View() == Drained(old(View())) && got == View().recent && list.repr == old(list.repr)
    {
      list.CacheIsList();
      got := list.IdentityGet();
      list.CacheIsList();
    }

    // The four identities of misc_init, each of which may run out of memory.
    method CreateNames(outOfMemory: seq<bool>)
      requires Valid() && list.Contents() == [] && |outOfMemory| == |NAMES|
      modifies list`ring, list`repr, list`cache, list`made, list.repr
      ensures Valid() && Oldest(list.Contents(), BLANK) == FirstMade(outOfMemory, 0)
      ensures fresh(list.repr - old(list.repr))
    {
      for k := 0 to |NAMES|
        invariant Valid() && Oldest(list.Contents(), FirstMade(outOfMemory, k)) == FirstMade(outOfMemory, 0)
        invariant fresh(list.repr - old(list.repr))
      {
        var _ := list.IdentityCreate(NAMES[k], k + 1, outOfMemory[k]);
      }
    }

    method DestroyNames()
      requires Valid()
      modifies list`ring, list`cache, list`freed, list.repr
      ensures Valid() && forall x :: x in list.Contents() <==> x in old(list.Contents()) && x.id !in {1, 2, 3, 10, 42}
    {
      RemoveNames(list.Contents());
      list.IdentityDestroy(2);
      list.IdentityDestroy(1);
      list.IdentityDestroy(10);
      list.IdentityDestroy(42);
      list.IdentityDestroy(3);
    }

    // misc_init after registration: the identities are created and drained
    // again. So neither identity 3 nor identity 42 is found afterwards, and the
    // five destroys find nothing.
    method MiscInit(outOfMemory: seq<bool>) returns (three: Link?, fortyTwo: Link?)
      requires Valid() && View() == Loaded(Boot(BLANK, 0)) && |outOfMemory| == |NAMES|
      modifies list, list.repr
      ensures Valid() && View() == Loaded(Boot(FirstMade(outOfMemory, 0), list.made))
      ensures three == fortyTwo == null && (!outOfMemory[0] ==> list.recent == Identity("Alice", 1, false))
      ensures fresh(list.repr - old(list.repr))
    {
      CreateNames(outOfMemory);
      var _ := Wake();
      three := list.IdentityFind(3);
      fortyTwo := list.IdentityFind(42);
      DestroyNames();
      SomeMember(list.Contents());
      list.CacheIsList();
    }

    // One round of the loop of misc_exit.
    method ExitRound(i: int, ghost k: nat, ghost was: seq<Identity>) returns (next: int)
      requires Valid() && i == AsInt(k) && list.Contents() == Exited(was, k)
      modifies list`ring, list`cache, list`freed, list.repr
      ensures Valid() && next == AsInt(k + 1) && list.Contents() == Exited(was, k + 1)
    {
      list.IdentityDestroy(i);
      IncrementedIsNext(k);
      next := Incremented(i);
    }

    method MiscExit()
      requires Valid()
      modifies list`ring, list`cache, list`freed, list.repr
      ensures Valid() && list.Contents() == Exited(old(list.Contents()), Rounds(idCount))
      ensures Descending(old(list.Contents()), idCount) && idCount <= INT_LIMIT ==>
                list.Contents() == [] && list.made == list.freed
    {
      ghost var was, k: nat, n := list.Contents(), 0, Rounds(idCount);
      var i := 0;
      var more := StillBelow(i, k);
      while more
        invariant Valid() && k <= n && (more <==> k < n) && i == AsInt(k) && list.Contents() == Exited(was, k)
        decreases n - k
      {
        i := ExitRound(i, k, was);
        k := k + 1;
        more := StillBelow(i, k);
      }
      ExitReleases(was);
    }

    // The test of the loop in round number k.
    method StillBelow(i: int, ghost k: nat) returns (more: bool)
      requires Valid() && k <= Rounds(idCount) && i == AsInt(k)
      ensures more <==> k < Rounds(idCount)
    {
      RoundsEnd(idCount, k);
      more := i % ULONG_LIMIT < idCount;
    }

    lemma ExitReleases(was: seq<Identity>)
      requires Valid() && list.Contents() == Exited(was, Rounds(idCount))
      ensures Descending(was, idCount) && idCount <= INT_LIMIT ==> list.Contents() == [] && list.made == list.freed
    {
      if Descending(was, idCount) && idCount <= INT_LIMIT {
        DescendingIsReached(was, idCount);
      }
      list.CacheIsList();
    }
  }
}

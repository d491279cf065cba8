// The intrusive list of identities (Task_13/kll/kll.c, and the same list in
// Task_18/misc_device/misc_dev.c): a doubly linked ring through a list head,
// changed in place, with its entries allocated from a cache.
module IdentityRing {
  import opened Options

  const ENOMEM: int := 12
  const NAME_SIZE: nat := 20

  // name is the string without its terminating NUL.
  datatype Identity = Identity(name: string, id: int, busy: bool)

  // Static storage starts out zeroed.
  const BLANK := Identity("", 0, false)

  // ---- What the operations do to the sequence of identities ----

  function Create(list: seq<Identity>, name: string, id: int, outOfMemory: bool): (seq<Identity>, int) {
    if |name| + 1 > NAME_SIZE || outOfMemory then (list, -ENOMEM)
    else ([Identity(name, id, false)] + list, 0)
  }

  // Position of the first entry with this id; the length if there is none.
  function FirstWith(list: seq<Identity>, id: int): (k: nat)
    ensures k <= |list|
    ensures k < |list| ==> list[k].id == id
    ensures forall i | 0 <= i < k :: list[i].id != id
  {
    if list == [] || list[0].id == id then 0 else 1 + FirstWith(list[1..], id)
  }

  function Remove(list: seq<Identity>, id: int): (r: seq<Identity>)
    ensures |r| <= |list|
  {
    if list == [] then []
    else if list[0].id == id then Remove(list[1..], id)
    else [list[0]] + Remove(list[1..], id)
  }

  // Remove works entry by entry: it drops the matches, all of them, and keeps
  // everything else in its order.
  lemma {:induction false} RemoveDistributes(xs: seq<Identity>, ys: seq<Identity>, id: int)
    ensures Remove(xs + ys, id) == Remove(xs, id) + Remove(ys, id)
  {
    if xs == [] {
      assert xs + ys == ys;
    } else {
      assert (xs + ys)[1..] == xs[1..] + ys;
      RemoveDistributes(xs[1..], ys, id);
    }
  }

  lemma {:induction false} RemoveRemovesAll(list: seq<Identity>, id: int, x: Identity)
    ensures multiset(Remove(list, id))[x] == if x.id == id then 0 else multiset(list)[x]
  {
    if list != [] {
      assert list == [list[0]] + list[1..];
      RemoveRemovesAll(list[1..], id, x);
    }
  }

  lemma {:induction false} RemoveMember(list: seq<Identity>, id: int, x: Identity)
    ensures x in Remove(list, id) <==> x in list && x.id != id
  {
    if list != [] {
      assert list == [list[0]] + list[1..];
      RemoveMember(list[1..], id, x);
    }
  }

  lemma RemoveOne(done: seq<Identity>, x: Identity, id: int)
    ensures Remove(done + [x], id) == Remove(done, id) + if x.id == id then [] else [x]
  {
    RemoveDistributes(done, [x], id);
  }

  // ---- Any sequence of operations ----

  datatype Call = Creates(name: string, id: int, outOfMemory: bool) | Destroys(id: int)

  function AfterCalls(list: seq<Identity>, calls: seq<Call>): seq<Identity>
    decreases |calls|
  {
    if calls == [] then list else
    match calls[0]
    case Creates(name, id, outOfMemory) => AfterCalls(Create(list, name, id, outOfMemory).0, calls[1..])
    case Destroys(id) => AfterCalls(Remove(list, id), calls[1..])
  }

  // The entries of list that none of the calls destroys.
  function Untouched(list: seq<Identity>, calls: seq<Call>): seq<Identity> {
    if list == [] then []
    else (if Destroys(list[0].id) in calls then [] else [list[0]]) + Untouched(list[1..], calls)
  }

  // What a create puts on the list: nothing without memory, and nothing if the
  // name does not fit, with its NUL, into 20 bytes.
  function Made(name: string, id: int, outOfMemory: bool): seq<Identity> {
    if |name| <= 19 && !outOfMemory then [Identity(name, id, false)] else []
  }

  // What the calls created and did not destroy later, the newest first.
  function Surviving(calls: seq<Call>): seq<Identity> {
    if calls == [] then []
    else if calls[0].Creates? then
      Surviving(calls[1..]) + Untouched(Made(calls[0].name, calls[0].id, calls[0].outOfMemory), calls[1..])
    else Surviving(calls[1..])
  }

  lemma {:induction false} UntouchedConcat(xs: seq<Identity>, ys: seq<Identity>, calls: seq<Call>)
    ensures Untouched(xs + ys, calls) == Untouched(xs, calls) + Untouched(ys, calls)
  {
    if xs == [] {
      assert xs + ys == ys;
    } else {
      assert (xs + ys)[1..] == xs[1..] + ys;
      UntouchedConcat(xs[1..], ys, calls);
    }
  }

  lemma {:induction false} UntouchedFirst(list: seq<Identity>, c: Call, calls: seq<Call>)
    ensures Untouched(list, [c] + calls) == Untouched(if c.Destroys? then Remove(list, c.id) else list, calls)
  {
    if list != [] {
      UntouchedFirst(list[1..], c, calls);
    }
  }

  // Whatever the calls, the list ends up with exactly the entries that were
  // not destroyed after they were there: those created on the way, newest
  // first, and then those of before, in their order.
  lemma {:induction false} CallsLeaveSurvivors(list: seq<Identity>, calls: seq<Call>)
    ensures AfterCalls(list, calls) == Surviving(calls) + Untouched(list, calls)
    decreases |calls|
  {
    if calls == [] {
      UntouchedByNothing(list);
    } else {
      var c, rest := calls[0], calls[1..];
      assert calls == [c] + rest;
      UntouchedFirst(list, c, rest);
      if c.Creates? {
        var added := Made(c.name, c.id, c.outOfMemory);
        CreateAdds(list, c.name, c.id, c.outOfMemory);
        CallsLeaveSurvivors(added + list, rest);
        UntouchedConcat(added, list, rest);
        Regroup(Surviving(rest), Untouched(added, rest), Untouched(list, rest));
      } else {
        CallsLeaveSurvivors(Remove(list, c.id), rest);
      }
    }
  }

  // A create fails with -ENOMEM exactly for a name of 20 characters or more, or
  // without memory, and then changes nothing; otherwise it adds the one entry.
  lemma CreateAdds(list: seq<Identity>, name: string, id: int, outOfMemory: bool)
    ensures Create(list, name, id, outOfMemory).0 == Made(name, id, outOfMemory) + list
    ensures Create(list, name, id, outOfMemory).1 == if |name| >= 20 || outOfMemory then -12 else 0
  {
  }

  lemma {:induction false} UntouchedMembers(list: seq<Identity>, calls: seq<Call>)
    ensures forall x :: x in Untouched(list, calls) <==> x in list && Destroys(x.id) !in calls
  {
    if list != [] {
      UntouchedMembers(list[1..], calls);
      assert list == [list[0]] + list[1..];
    }
  }

  // No name that ever gets on the list is longer than 19 characters, so strcpy
  // stays within the 20 bytes of its array.
  lemma {:induction false} NamesStayShort(list: seq<Identity>, calls: seq<Call>)
    requires forall x | x in list :: |x.name| <= 19
    ensures forall x | x in AfterCalls(list, calls) :: |x.name| <= 19
    decreases |calls|
  {
    if calls != [] {
      var c := calls[0];
      if c.Creates? {
        CreateAdds(list, c.name, c.id, c.outOfMemory);
        NamesStayShort(Create(list, c.name, c.id, c.outOfMemory).0, calls[1..]);
      } else {
        forall x ensures x in Remove(list, c.id) <==> x in list && x.id != c.id {
          RemoveMember(list, c.id, x);
        }
        NamesStayShort(Remove(list, c.id), calls[1..]);
      }
    }
  }

  // From the empty list, exactly the identities some create with a short name and
  // with memory made, and no later call destroyed, are there.
  lemma PresentIfMadeAndKept(calls: seq<Call>, x: Identity)
    ensures x in AfterCalls([], calls) <==>
              exists k :: 0 <= k < |calls| && calls[k] == Creates(x.name, x.id, false) && |x.name| <= 19 && !x.busy &&
                          Destroys(x.id) !in calls[k + 1..]
  {
    CallsLeaveSurvivors([], calls);
    SurvivingMembers(calls, x);
  }

  lemma {:induction false} SurvivingMembers(calls: seq<Call>, x: Identity)
    ensures x in Surviving(calls) <==>
              exists k :: 0 <= k < |calls| && calls[k] == Creates(x.name, x.id, false) && |x.name| <= 19 && !x.busy &&
                          Destroys(x.id) !in calls[k + 1..]
  {
    if calls != [] {
      var c, rest := calls[0], calls[1..];
      SurvivingMembers(rest, x);
      if c.Creates? {
        UntouchedMembers(Made(c.name, c.id, c.outOfMemory), rest);
      }
      if x in Surviving(rest) {
        var k :| 0 <= k < |rest| && rest[k] == Creates(x.name, x.id, false) && |x.name| <= 19 && !x.busy &&
                 Destroys(x.id) !in rest[k + 1..];
        assert calls[k + 1] == rest[k] && calls[k + 2..] == rest[k + 1..];
      }
      forall k | 0 < k < |calls| ensures calls[k] == rest[k - 1] && calls[k + 1..] == rest[k..] {
      }
    }
  }

  lemma Regroup(xs: seq<Identity>, ys: seq<Identity>, zs: seq<Identity>)
    ensures xs + (ys + zs) == xs + ys + zs
  {
  }

  lemma {:induction false} UntouchedByNothing(list: seq<Identity>)
    ensures Untouched(list, []) == list
  {
    if list != [] {
      UntouchedByNothing(list[1..]);
    }
  }

  // What a drain of the list returns.
  function Oldest(list: seq<Identity>, recent: Identity): Identity {
    if list == [] then recent else list[|list| - 1]
  }

  // Part-way through draining list: the first k entries are taken.
  ghost predicate Draining(now: seq<Identity>, list: seq<Identity>, k: nat, before: Identity, recent: Identity) {
    k <= |list| && now == list[k..] && recent == Oldest(list[..k], before)
  }

  lemma DrainingStep(now: seq<Identity>, list: seq<Identity>, k: nat, before: Identity, recent: Identity)
    requires Draining(now, list, k, before, recent) && now != []
    ensures k < |list| && Draining(now[..0] + now[1..], list, k + 1, before, now[0])
  {
    assert now[..0] + now[1..] == list[k + 1..];
  }

  lemma DrainingEnds(list: seq<Identity>, k: nat, before: Identity, recent: Identity)
    requires Draining([], list, k, before, recent)
    ensures recent == Oldest(list, before)
  {
    assert list[..k] == list;
  }

  // Part-way through removing id from list: the first k entries are dealt
  // with and r of them are left.
  ghost predicate Removing(now: seq<Identity>, list: seq<Identity>, k: nat, r: nat, id: int) {
    && k <= |list| && r <= |now|
    && now[..r] == Remove(list[..k], id) && now[r..] == list[k..]
  }

  lemma RemovingStarts(list: seq<Identity>, id: int)
    ensures Removing(list, list, 0, 0, id)
  {
  }

  // The entry now at r either goes or stays.
  lemma RemovingStep(now: seq<Identity>, list: seq<Identity>, k: nat, r: nat, id: int)
    requires Removing(now, list, k, r, id) && r < |now|
    ensures k < |list|
    ensures if now[r].id == id then Removing(now[..r] + now[r+1..], list, k + 1, r, id)
            else Removing(now, list, k + 1, r + 1, id)
  {
    assert now[r] == now[r..][0] == list[k];
    assert list[..k + 1] == list[..k] + [list[k]];
    RemoveOne(list[..k], list[k], id);
    assert now[r + 1..] == now[r..][1..] == list[k + 1..];
    assert now[..r + 1] == now[..r] + [list[k]];
    assert (now[..r] + now[r+1..])[..r] == now[..r];
    assert (now[..r] + now[r+1..])[r..] == now[r+1..];
  }

  lemma RemovingEnds(now: seq<Identity>, list: seq<Identity>, k: nat, r: nat, id: int)
    requires Removing(now, list, k, r, id) && r == |now|
    ensures now == Remove(list, id)
  {
    assert list[k..] == [] && list[..k] == list && now == now[..r];
  }

  // A created entry is found first and goes away when destroyed.
  lemma CreateThenFind(list: seq<Identity>, name: string, id: int)
    requires |name| + 1 <= NAME_SIZE
    ensures FirstWith(Create(list, name, id, false).0, id) == 0
    ensures Remove(Create(list, name, id, false).0, id) == Remove(list, id)
  {
    RemoveDistributes([Identity(name, id, false)], list, id);
  }

  // ---- The ring ----

  // struct identity with its list_head. The list head itself has no identity
  // of its own and carries a dummy one.
  class Link {
    var next: Link
    var prev: Link
    const entry: Identity

    constructor (entry: Identity)
      ensures next == prev == this && this.entry == entry
    {
      this.entry := entry;
      next, prev := this, this;
    }
  }

  ghost function Identities(ring: seq<Link>): (list: seq<Identity>)
    requires |ring| > 0
    ensures |list| == |ring| - 1 && forall i | 0 <= i < |list| :: list[i] == ring[i + 1].entry
  {
    seq(|ring| - 1, i requires 0 <= i < |ring| - 1 => ring[i + 1].entry)
  }

  ghost function Entries(ring: seq<Link>): set<Link>
    requires |ring| > 0
  {
    set l | l in ring[1..]
  }

  lemma EntriesWithout(ring: seq<Link>, k: nat)
    requires 0 < k < |ring| && forall i, j | 0 <= i < j < |ring| :: ring[i] != ring[j]
    ensures Entries(ring[..k] + ring[k+1..]) == Entries(ring) - {ring[k]}
  {
    var rest := ring[..k] + ring[k+1..];
    forall l | l in Entries(ring) - {ring[k]} ensures l in rest[1..] {
      var i :| 0 < i < |ring| && ring[i] == l;
      assert rest[if i < k then i else i - 1] == l;
    }
    forall l | l in rest[1..] ensures l in Entries(ring) - {ring[k]} {
      var i :| 0 < i < |rest| && rest[i] == l;
      assert ring[1..][if i < k then i - 1 else i] == l;
    }
  }

  lemma IdentitiesWith(ring: seq<Link>, l: Link)
    requires |ring| > 0
    ensures Identities([ring[0], l] + ring[1..]) == [l.entry] + Identities(ring)
  {
  }

  lemma IdentitiesWithout(ring: seq<Link>, k: nat)
    requires 0 < k < |ring|
    ensures Identities(ring[..k] + ring[k+1..]) == Identities(ring)[..k-1] + Identities(ring)[k..]
  {
  }

  lemma {:induction false} EntriesCount(ring: seq<Link>)
    requires |ring| > 0 && forall i, j | 0 <= i < j < |ring| :: ring[i] != ring[j]
    ensures |Entries(ring)| == |ring| - 1
    decreases |ring|
  {
    var n := |ring| - 1;
    if n > 0 {
      EntriesWithout(ring, n);
      assert ring[..n] + ring[n+1..] == ring[..n];
      EntriesCount(ring[..n]);
      assert ring[n] in ring[1..];
    }
  }

  class IdentityList {
    const head: Link
    // The objects the cache has handed out and not got back; they are the
    // entries of the list. made and freed count what it handed out and got back.
    var cache: set<Link>
    ghost var made: nat
    ghost var freed: nat
    // The static variable of identity_get.
    var recent: Identity
    // The links in order, the head first, and all links that ever were in use.
    ghost var ring: seq<Link>
    ghost var repr: set<Link>

    ghost predicate Linked()
      reads this`ring, ring
      requires |ring| > 0
    {
      && (forall i | 0 <= i < |ring| - 1 :: ring[i].next == ring[i + 1] && ring[i + 1].prev == ring[i])
      && ring[|ring| - 1].next == ring[0] && ring[0].prev == ring[|ring| - 1]
    }

    ghost predicate Distinct()
      reads this`ring
    {
      forall i, j | 0 <= i < j < |ring| :: ring[i] != ring[j]
    }

    ghost predicate RingValid()
      reads this`ring, this`repr, repr
    {
      && |ring| > 0 && ring[0] == head && (forall i | 0 <= i < |ring| :: ring[i] in repr)
      && Distinct() && Linked()
    }

    ghost predicate Valid()
      reads this, repr
    {
      && RingValid() && (forall i | 0 < i < |ring| :: ring[i] in cache)
      && |cache| == |ring| - 1 && made == freed + |cache|
    }

    ghost function Contents(): seq<Identity>
      reads this`ring
      requires |ring| > 0
    {
      Identities(ring)
    }

    // The link at position i of the ring; after the last comes the head.
    ghost function At(i: nat): Link
      reads this`ring
    {
      if i < |ring| then ring[i] else head
    }

    // What was handed out and not got back is exactly what is on the list.
    lemma CacheIsList()
      requires Valid()
      ensures cache == Entries(ring) && made == freed + |Contents()|
    {
      EntriesCount(ring);
      forall l | l in Entries(ring) ensures l in cache {
        var i :| 0 < i < |ring| && ring[i] == l;
      }
      assert |cache - Entries(ring)| == |cache| - |Entries(ring)|;
    }

    lemma NextIs(i: nat)
      requires RingValid() && i < |ring|
      ensures ring[i].next == At(i + 1)
    {
    }

    constructor ()
      ensures Valid() && Contents() == [] && recent == BLANK && made == freed == 0 && fresh(repr)
    {
      head := new Link(BLANK);
      cache, made, freed := {}, 0, 0;
      recent := BLANK;
      new;
      ring, repr := [head], {head};
    }

    // kmem_cache_alloc and kmem_cache_free.
    method Alloc(entry: Identity) returns (l: Link)
      modifies this`cache, this`made
      ensures fresh(l) && l.entry == entry && cache == old(cache) + {l} && |cache| == old(|cache|) + 1 && made == old(made) + 1
    {
      l := new Link(entry);
      cache, made := cache + {l}, made + 1;
    }

    method Free(l: Link)
      requires l in cache
      modifies this`cache, this`freed
      ensures cache == old(cache) - {l} && |cache| + 1 == old(|cache|) && freed == old(freed) + 1
    {
      cache, freed := cache - {l}, freed + 1;
    }

    // list_add: right after the head.
    method ListAdd(l: Link)
      requires RingValid() && l !in ring
      modifies this`ring, this`repr, repr, l
      ensures RingValid() && ring == [head, l] + old(ring)[1..] && repr == old(repr) + {l}
    {
      var first := head.next;
      NextIs(0);
      first.prev := l;
      l.next := first;
      l.prev := head;
      head.next := l;
      ghost var was := ring;
      ring, repr := [head, l] + ring[1..], repr + {l};
      forall i | 0 <= i < |ring| - 1 ensures ring[i].next == ring[i + 1] && ring[i + 1].prev == ring[i] {
        if i >= 2 {
          assert ring[i] == was[i - 1] && ring[i + 1] == was[i];
        }
      }
    }

    // __list_del_entry. The next pointer is read before.
    method ListDel(l: Link, ghost k: nat) returns (n: Link)
      requires RingValid() && 0 < k < |ring| && l == ring[k]
      modifies this`ring, repr
      ensures RingValid() && ring == old(ring)[..k] + old(ring)[k+1..] && n == At(k)
    {
      ghost var was := ring;
      NextIs(k);
      var p := l.prev;
      n := l.next;
      assert p == was[k - 1] by {
        assert ring[k - 1 + 1].prev == ring[k - 1];
      }
      n.prev := p;
      p.next := n;
      ring := ring[..k] + ring[k+1..];
      forall i | 0 <= i < |ring| - 1 ensures ring[i].next == ring[i + 1] && ring[i + 1].prev == ring[i] {
        if i < k - 1 {
          assert ring[i] == was[i] && ring[i + 1] == was[i + 1];
        } else if i >= k {
          assert ring[i] == was[i + 1] && ring[i + 1] == was[i + 2];
        }
      }
    }

    // Unlinks and releases the entry that is number r of the list.
    method Take(l: Link, ghost r: nat) returns (n: Link)
      requires Valid() && r + 1 < |ring| && l == ring[r + 1]
      modifies this`ring, this`cache, this`freed, repr
      ensures Valid() && n == At(r + 1) && Contents() == old(Contents())[..r] + old(Contents())[r+1..]
    {
      IdentitiesWithout(ring, r + 1);
      n := ListDel(l, r + 1);
      Free(l);
    }

    method IdentityCreate(name: string, id: int, outOfMemory: bool) returns (err: int)
      requires Valid()
      modifies this`ring, this`repr, this`cache, this`made, repr
      ensures Valid() && (Contents(), err) == Create(old(Contents()), name, id, outOfMemory)
      ensures err == (if |name| >= 20 || outOfMemory then -12 else 0)
      ensures Contents() == Made(name, id, outOfMemory) + old(Contents())
      ensures made == old(made) + (if err == 0 then 1 else 0) && fresh(repr - old(repr))
    {
      if |name| + 1 > NAME_SIZE {
        return -ENOMEM;
      }
      if outOfMemory {
        return -ENOMEM;
      }
      Insert(Identity(name, id, false));
      err := 0;
    }

    // The new entry is allocated and put on the list.
    method Insert(entry: Identity)
      requires Valid()
      modifies this`ring, this`repr, this`cache, this`made, repr
      ensures Valid() && Contents() == [entry] + old(Contents())
      ensures made == old(made) + 1 && fresh(repr - old(repr))
    {
      var l := Alloc(entry);
      IdentitiesWith(ring, l);
      ListAdd(l);
    }

    method IdentityFind(id: int) returns (l: Link?)
      requires Valid()
      ensures var k := FirstWith(Contents(), id);
              l == if k < |Contents()| then ring[k + 1] else null
    {
      l := head.next;
      NextIs(0);
      ghost var i := 1;
      while l != head
        invariant 0 < i <= |ring| && l == At(i)
        invariant forall k | 0 < k < i :: ring[k].entry.id != id
        decreases |ring| - i
      {
        if l.entry.id == id {
          assert Contents()[i - 1].id == id;
          return;
        }
        NextIs(i);
        l := l.next;
        i := i + 1;
      }
      l := null;
    }

    // One round of identity_destroy, at entry number r of what is left of list.
    method Visit(l: Link, id: int, ghost list: seq<Identity>, ghost k: nat, ghost r: nat)
      returns (n: Link, ghost r': nat)
      requires Valid() && r + 1 < |ring| && l == ring[r + 1] && Removing(Contents(), list, k, r, id)
      modifies this`ring, this`cache, this`freed, repr
      ensures Valid() && n == At(r' + 1) && k < |list| && Removing(Contents(), list, k + 1, r', id)
    {
      RemovingStep(Contents(), list, k, r, id);
      NextIs(r + 1);
      if l.entry.id == id {
        n := Take(l, r);
        r' := r;
      } else {
        n := l.next;
        r' := r + 1;
      }
    }

    method IdentityDestroy(id: int)
      requires Valid()
      modifies this`ring, this`cache, this`freed, repr
      ensures Valid() && Contents() == Remove(old(Contents()), id)
    {
      ghost var list: seq<Identity>, k: nat, r: nat := Contents(), 0, 0;
      var l := head.next;
      NextIs(0);
      RemovingStarts(list, id);
      while l != head
        invariant Valid() && Removing(Contents(), list, k, r, id) && l == At(r + 1)
        decreases |list| - k
      {
        l, r := Visit(l, id, list, k, r);
        k := k + 1;
      }
      RemovingEnds(Contents(), list, k, r, id);
    }

    // Takes everything off the list and returns what it took last, which is
    // what was put on the list first.
    method IdentityGet() returns (got: Identity)
      requires Valid()
      modifies this`ring, this`cache, this`freed, this`recent, repr
      ensures Valid() && Contents() == [] && got == recent == Oldest(old(Contents()), old(recent))
    {
      ghost var list: seq<Identity>, k: nat := Contents(), 0;
      var l := head.next;
      NextIs(0);
      while l != head
        invariant Valid() && l == At(1) && Draining(Contents(), list, k, old(recent), recent)
        decreases |list| - k
      {
        DrainingStep(Contents(), list, k, old(recent), recent);
        recent := l.entry;
        l := Take(l, 0);
        k := k + 1;
      }
      DrainingEnds(list, k, old(recent), recent);
      got := recent;
    }
  }
}

// The device that hands out and checks the author's name
// (Task_6/misc_device/misc_dev.c).
module AuthorDevice {
  import opened Bytes

  const EFAULT: int := 14
  const INPUT_SIZE: nat := 4096
  const SSIZE_MAX: nat := 0x7fff_ffff_ffff_ffff

  // author_id, whose size includes the terminating NUL.
  const AUTHOR: string := "Nishad Kamdar" + [NUL]
  const COMPARED: nat := 13

  // How many bytes a transfer of count bytes at pos moves, out of size.
  function Clip(pos: nat, count: nat, size: nat): (n: nat)
    ensures pos < size ==> pos + n <= size
  {
    if pos >= size then 0 else if pos + count > size then size - pos else count
  }

  function Smaller(m: nat, n: nat): nat {
    if m < n then m else n
  }

  // ---- Reading ----

  // One read: how much is asked for, and whether the copy to the user fails.
  datatype Read = Read(count: nat, fault: bool)

  function Moved(text: string, pos: nat, r: Read): nat {
    if r.fault then 0 else Clip(pos, r.count, |text|)
  }

  function Delivered(text: string, pos: nat, r: Read): (s: string)
    ensures |s| == Moved(text, pos, r)
  {
    if pos >= |text| then [] else text[pos..pos + Moved(text, pos, r)]
  }

  function ReadResult(text: string, pos: nat, r: Read): int {
    if pos >= |text| then 0 else if r.fault then -EFAULT else Clip(pos, r.count, |text|)
  }

  // What a sequence of reads of one open file delivers, starting at pos.
  function DeliveredAll(text: string, pos: nat, requests: seq<Read>): string
    decreases |requests|
  {
    if requests == [] then []
    else Delivered(text, pos, requests[0]) + DeliveredAll(text, pos + Moved(text, pos, requests[0]), requests[1..])
  }

  // The number of bytes asked for by the reads that do not fail.
  function Asked(requests: seq<Read>): nat {
    if requests == [] then 0 else (if requests[0].fault then 0 else requests[0].count) + Asked(requests[1..])
  }

  // The first read delivers n bytes of the text, the others all the rest up to end.
  lemma Glue(text: string, pos: nat, n: nat, end: nat, first: string, others: string)
    requires pos + n <= end <= |text| && first == text[pos..pos + n] && others == text[pos + n..end]
    ensures first + others == text[pos..end]
  {
  }

  lemma ReadsRound(text: string, pos: nat, requests: seq<Read>, end: nat)
    requires requests != [] && pos <= |text| && pos + Moved(text, pos, requests[0]) <= end <= |text|
    requires var next := pos + Moved(text, pos, requests[0]);
             DeliveredAll(text, next, requests[1..]) == text[next..end]
    ensures DeliveredAll(text, pos, requests) == text[pos..end]
  {
    var first, n := Delivered(text, pos, requests[0]), Moved(text, pos, requests[0]);
    assert first == text[pos..pos + n];
    Glue(text, pos, n, end, first, DeliveredAll(text, pos + n, requests[1..]));
  }

  // Reads in any sizes, failing or not, deliver consecutive pieces of the
  // text: as much as they ask for in total, up to its end.
  lemma {:induction false} ReadsConcatenate(text: string, pos: nat, requests: seq<Read>, end: nat)
    requires pos <= |text| && end == pos + Clip(pos, Asked(requests), |text|)
    ensures DeliveredAll(text, pos, requests) == text[pos..end]
    decreases |requests|
  {
    if requests == [] {
      assert text[pos..pos] == [];
    } else {
      ReadsConcatenate(text, pos + Moved(text, pos, requests[0]), requests[1..], end);
      ReadsRound(text, pos, requests, end);
    }
  }

  // The file position after a sequence of reads.
  function PosAfter(text: string, pos: nat, requests: seq<Read>): nat
    decreases |requests|
  {
    if requests == [] then pos else PosAfter(text, pos + Moved(text, pos, requests[0]), requests[1..])
  }

  lemma {:induction false} PosIsAsked(text: string, pos: nat, requests: seq<Read>)
    requires pos <= |text|
    ensures PosAfter(text, pos, requests) == pos + Clip(pos, Asked(requests), |text|)
    decreases |requests|
  {
    if requests != [] {
      PosIsAsked(text, pos + Moved(text, pos, requests[0]), requests[1..]);
    }
  }

  lemma {:induction false} AskedAdds(requests: seq<Read>, more: seq<Read>)
    ensures Asked(requests + more) == Asked(requests) + Asked(more)
  {
    if requests == [] {
      assert requests + more == more;
    } else {
      assert (requests + more)[1..] == requests[1..] + more;
      AskedAdds(requests[1..], more);
    }
  }

  // A read at offset 14 or beyond returns 0. Any other returns -EFAULT if the copy
  // fails, and otherwise as many bytes as are asked for and left.
  lemma ReadOutcome(pos: nat, r: Read)
    ensures ReadResult(AUTHOR, pos, r) ==
              if pos >= 14 then 0 else if r.fault then -14 else Smaller(r.count, 14 - pos)
    ensures Delivered(AUTHOR, pos, r) ==
              if pos >= 14 || r.fault then [] else "Nishad Kamdar\0"[pos..pos + Smaller(r.count, 14 - pos)]
  {
    assert |AUTHOR| == 14 && AUTHOR == "Nishad Kamdar\0";
  }

  // A reader that starts at 0 gets exactly the 14 bytes of author_id if and
  // only if the reads that do not fail ask for that much.
  lemma ReadToEnd(requests: seq<Read>)
    ensures AUTHOR == "Nishad Kamdar\0" && (DeliveredAll(AUTHOR, 0, requests) == AUTHOR <==> Asked(requests) >= 14)
  {
    assert |AUTHOR| == 14;
    ReadsConcatenate(AUTHOR, 0, requests, Clip(0, Asked(requests), 14));
  }

  // From then on every read returns 0, whatever it asks for and whatever was
  // read in between; and until then none that asks for anything does.
  lemma ThenZeroForever(requests: seq<Read>, more: seq<Read>, r: Read)
    ensures Asked(requests) >= 14 ==> ReadResult(AUTHOR, PosAfter(AUTHOR, 0, requests + more), r) == 0
    ensures Asked(requests) < 14 && r.count > 0 ==> ReadResult(AUTHOR, PosAfter(AUTHOR, 0, requests), r) != 0
  {
    AskedAdds(requests, more);
    PosIsAsked(AUTHOR, 0, requests);
    PosIsAsked(AUTHOR, 0, requests + more);
  }

  // ---- Writing ----

  // landed is what the copy left in the bytes the write covers; fault says
  // whether it failed.
  datatype Write = Write(pos: nat, count: nat, landed: string, fault: bool)

  predicate Sane(w: Write) {
    w.count <= SSIZE_MAX && |w.landed| == Clip(w.pos, w.count, INPUT_SIZE)
  }

  function Written(input: string, w: Write): (r: string)
    requires |input| == INPUT_SIZE && Sane(w)
    ensures |r| == INPUT_SIZE
  {
    if w.pos >= INPUT_SIZE then input else Overlay(input, w.pos, w.landed)
  }

  // strncmp(a, b, n) == 0
  predicate SamePrefix(a: string, b: string, n: nat)
    decreases n
  {
    n == 0 || (a != [] && b != [] && a[0] == b[0] && (a[0] == NUL || SamePrefix(a[1..], b[1..], n - 1)))
  }

  function WriteResult(input: string, w: Write): int
    requires |input| == INPUT_SIZE && Sane(w)
  {
    if w.pos >= INPUT_SIZE then 0
    else if w.fault then -EFAULT
    else if !SamePrefix(AUTHOR, Written(input, w), COMPARED) then -1
    else |w.landed|
  }

  lemma {:induction false} SamePrefixIsEquality(a: string, b: string, n: nat)
    requires n <= |a| && n <= |b| && NUL !in a[..n]
    ensures SamePrefix(a, b, n) <==> a[..n] == b[..n]
  {
    if n > 0 {
      assert a[..n] == [a[0]] + a[1..][..n - 1] && b[..n] == [b[0]] + b[1..][..n - 1];
      SamePrefixIsEquality(a[1..], b[1..], n - 1);
    }
  }

  // How much of the buffer of 4096 bytes a write covers.
  lemma WriteTakes(w: Write)
    requires Sane(w)
    ensures |w.landed| == if w.pos >= 4096 then 0 else Smaller(w.count, 4096 - w.pos)
  {
  }

  // A write at offset 4096 or beyond returns 0, and one whose copy fails -EFAULT.
  // Any other returns as many bytes as it brings and the buffer has room for
  // exactly when the buffer then starts with the author's name, and -1 otherwise.
  lemma WriteChecksAuthor(input: string, w: Write)
    requires |input| == INPUT_SIZE && Sane(w)
    ensures WriteResult(input, w) ==
              if w.pos >= 4096 then 0
              else if w.fault then -14
              else if Written(input, w)[..13] == "Nishad Kamdar" then Smaller(w.count, 4096 - w.pos)
              else -1
  {
    assert AUTHOR[..COMPARED] == "Nishad Kamdar";
    SamePrefixIsEquality(AUTHOR, Written(input, w), COMPARED);
  }

  // The buffer after a sequence of writes to the zeroed buffer.
  function After(writes: seq<Write>): (input: string)
    requires forall k | 0 <= k < |writes| :: Sane(writes[k])
    ensures |input| == INPUT_SIZE
  {
    if writes == [] then seq(INPUT_SIZE, _ => NUL)
    else Written(After(writes[..|writes|-1]), writes[|writes|-1])
  }

  predicate Covers(w: Write, k: nat) {
    w.pos <= k < w.pos + |w.landed|
  }

  // Each byte is the one brought by the last write that covers it, if any
  // does; later writes leave it alone.
  lemma {:induction false} LastWriteWins(writes: seq<Write>, k: nat, i: nat)
    requires forall j | 0 <= j < |writes| :: Sane(writes[j])
    requires k < INPUT_SIZE && i < |writes| && Covers(writes[i], k)
    requires forall j | i < j < |writes| :: !Covers(writes[j], k)
    ensures After(writes)[k] == writes[i].landed[k - writes[i].pos]
    decreases |writes|
  {
    if i < |writes| - 1 {
      assert !Covers(writes[|writes|-1], k);
      LastWriteWins(writes[..|writes|-1], k, i);
    }
  }

  // A byte no write covers is still zero.
  lemma {:induction false} UnwrittenIsZero(writes: seq<Write>, k: nat)
    requires forall j | 0 <= j < |writes| :: Sane(writes[j]) && !Covers(writes[j], k)
    requires k < INPUT_SIZE
    ensures After(writes)[k] == NUL
    decreases |writes|
  {
    if writes != [] {
      assert !Covers(writes[|writes|-1], k);
      UnwrittenIsZero(writes[..|writes|-1], k);
    }
  }

  // ---- The handlers in place ----

  class Driver {
    const input: array<char>

    ghost predicate Valid() {
      input.Length == INPUT_SIZE
    }

    constructor ()
      ensures Valid() && fresh(input) && input[..] == After([])
    {
      input := new char[INPUT_SIZE](_ => NUL);
      new;
      assert input[..] == seq(INPUT_SIZE, _ => NUL);
    }

    // fault says whether the copy to the user fails; data is what it delivers.
    method SimpleDevRead(count: nat, offset: nat, fault: bool) returns (ret: int, pos: nat, data: string)
      requires count <= SSIZE_MAX
      ensures data == Delivered(AUTHOR, offset, Read(count, fault)) && pos == offset + |data|
      ensures ret == ReadResult(AUTHOR, offset, Read(count, fault))
      ensures ret == (if offset >= 14 then 0 else if fault then -14 else Smaller(count, 14 - offset))
      ensures ret == |data| || (ret == -EFAULT && fault && data == [])
    {
      pos, data := offset, [];
      if offset >= |AUTHOR| {
        return 0, pos, data;
      }
      var n := count;
      if offset + n > |AUTHOR| {
        n := |AUTHOR| - offset;
      }
      if fault {
        return -EFAULT, pos, data;
      }
      data := AUTHOR[offset..offset + n];
      return n, offset + n, data;
    }

    method CopyIn(pos: nat, data: string)
      requires Valid() && pos + |data| <= INPUT_SIZE
      modifies input
      ensures input[..] == Overlay(old(input[..]), pos, data)
    {
      for k := 0 to |data|
        invariant input[..] == Overlay(old(input[..]), pos, data[..k])
      {
        input[pos + k] := data[k];
      }
      assert data[..|data|] == data;
    }

    // A write that fails the check has moved the file position all the same.
    method SimpleDevWrite(w: Write) returns (ret: int, pos: nat)
      requires Valid() && Sane(w)
      modifies input
      ensures input[..] == Written(old(input[..]), w) && ret == WriteResult(old(input[..]), w)
      ensures ret == (if w.pos >= 4096 then 0 else if w.fault then -14
                      else if input[..13] == "Nishad Kamdar" then Smaller(w.count, 4096 - w.pos) else -1)
      ensures pos == w.pos + if w.fault || w.pos >= 4096 then 0 else Smaller(w.count, 4096 - w.pos)
    {
      pos := w.pos;
      if w.pos >= INPUT_SIZE {
        return 0, pos;
      }
      var count := w.count;
      if w.pos + count > INPUT_SIZE {
        count := INPUT_SIZE - w.pos;
      }
      CopyIn(w.pos, w.landed);
      if w.fault {
        return -EFAULT, pos;
      }
      pos := w.pos + count;
      ret := if SamePrefix(AUTHOR, input[..], COMPARED) then count else -1;
      WriteChecksAuthor(old(input[..]), w);
    }
  }
}

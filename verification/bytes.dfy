// Buffers of bytes and the C strings in them.
module Bytes {

  const NUL: char := '\0'

  // The string that starts at the beginning of buf.
  function CString(buf: seq<char>): string {
    if buf == [] || buf[0] == NUL then [] else [buf[0]] + CString(buf[1..])
  }

  // buf with data written over it at pos.
  function Overlay(buf: seq<char>, pos: nat, data: seq<char>): (r: seq<char>)
    requires pos + |data| <= |buf|
    ensures |r| == |buf|
    ensures forall k | 0 <= k < |buf| :: r[k] == if pos <= k < pos + |data| then data[k - pos] else buf[k]
  {
    buf[..pos] + data + buf[pos + |data|..]
  }

  lemma {:induction false} CStringEnds(buf: seq<char>, k: nat)
    requires k < |buf| && buf[k] == NUL
    ensures |CString(buf)| <= k && NUL !in CString(buf)
    ensures CString(buf) == buf[..|CString(buf)|] && buf[|CString(buf)|] == NUL
  {
    if buf[0] != NUL {
      CStringEnds(buf[1..], k - 1);
      var n := |CString(buf[1..])|;
      assert buf[..n + 1] == [buf[0]] + buf[1..][..n];
    }
  }

  lemma {:induction false} CStringBegins(buf: seq<char>, s: string)
    requires |s| < |buf| && NUL !in s && forall k | 0 <= k < |s| :: buf[k] == s[k]
    ensures s <= CString(buf) && (buf[|s|] == NUL ==> CString(buf) == s)
  {
    if s != [] {
      assert s[0] in s;
      assert forall k | 0 <= k < |s| - 1 :: buf[1..][k] == buf[k + 1] == s[1..][k];
      CStringBegins(buf[1..], s[1..]);
      assert s == [s[0]] + s[1..];
    }
  }
}

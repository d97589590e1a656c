/** A buffer of a pool as a bounded byte queue (src/buf/mod.rs): the bytes `start..end` of its memory
    are filled and not read yet. */
module PoolBufs {
  import opened Prelude

  type Byte = b: nat | b < 256
  type Bytes = seq<Byte>

  // ----- the queue it stands for

  /** As many of `bytes` as a queue of `cap` with `queue` in it takes. */
  function Accepted(queue: Bytes, cap: nat, bytes: Bytes): Bytes
    requires |queue| <= cap
  {
    bytes[..Min(cap - |queue|, |bytes|)]
  }

  /** `out` with the front of `src` over its own. */
  function Overwritten(out: Bytes, src: Bytes): (r: Bytes)
    ensures |r| == |out|
  {
    var n := Min(|src|, |out|);
    src[..n] + out[n..]
  }

  function Concat(parts: seq<Bytes>): Bytes {
    if parts == [] then [] else Concat(parts[..|parts| - 1]) + parts[|parts| - 1]
  }

  /** What a user of the buffer does to it. */
  datatype Use = Append(bytes: Bytes) | Read(room: nat) | Consume(n: nat)

  /** The queue's unread bytes, and every byte accepted and consumed so far. */
  datatype History = History(unread: Bytes, accepted: Bytes, consumed: Bytes)

  function After(h: History, cap: nat, use: Use): (r: History)
    requires |h.unread| <= cap
    ensures |r.unread| <= cap
  {
    match use
    case Append(bytes) =>
      var taken := Accepted(h.unread, cap, bytes);
      History(h.unread + taken, h.accepted + taken, h.consumed)
    case Read(room) => Drop(h, Min(|h.unread|, room))
    case Consume(n) => Drop(h, Min(n, |h.unread|))
  }

  function Drop(h: History, n: nat): History
    requires n <= |h.unread|
  {
    History(h.unread[n..], h.accepted, h.consumed + h.unread[..n])
  }

  function AfterAll(h: History, cap: nat, uses: seq<Use>): (r: History)
    requires |h.unread| <= cap
    ensures |r.unread| <= cap
    decreases |uses|
  {
    if uses == [] then h else AfterAll(After(h, cap, uses[0]), cap, uses[1..])
  }

  /** First in, first out, nothing lost: over every run the bytes accepted are those consumed
      followed by those still unread. */
  lemma {:induction false} FirstInFirstOut(h: History, cap: nat, uses: seq<Use>)
    requires |h.unread| <= cap && h.accepted == h.consumed + h.unread
    ensures var r := AfterAll(h, cap, uses); r.accepted == r.consumed + r.unread
    decreases |uses|
  {
    if uses != [] {
      var next := After(h, cap, uses[0]);
      assert next.accepted == next.consumed + next.unread;
      FirstInFirstOut(next, cap, uses[1..]);
    }
  }

  // ----- slices

  ghost predicate Apart(bufs: seq<array<Byte>>) {
    forall i, j | 0 <= i < j < |bufs| :: bufs[i] != bufs[j]
  }

  ghost function Contents(bufs: seq<array<Byte>>): seq<Bytes>
    reads bufs
  {
    seq(|bufs|, k requires 0 <= k < |bufs| reads bufs => bufs[k][..])
  }

  lemma ConcatLast(parts: seq<Bytes>)
    requires parts != []
    ensures Concat(parts) == Concat(parts[..|parts| - 1]) + parts[|parts| - 1]
  {
  }

  lemma {:induction false} ConcatSplit(parts: seq<Bytes>, i: nat)
    requires i <= |parts|
    ensures Concat(parts) == Concat(parts[..i]) + Concat(parts[i..])
  {
    hide Concat;
    if i == |parts| {
      assert parts[..i] == parts && parts[i..] == [];
      ConcatNone();
    } else {
      var rest := parts[..|parts| - 1];
      ConcatSplit(rest, i);
      assert rest[..i] == parts[..i];
      ConcatLast(parts);
      ConcatLast(parts[i..]);
      assert parts[i..][..|parts| - i - 1] == rest[i..];
    }
  }

  lemma ConcatOn(parts: seq<Bytes>, i: nat)
    requires i < |parts|
    ensures Concat(parts[..i + 1]) == Concat(parts[..i]) + parts[i]
  {
    assert parts[..i + 1][..i] == parts[..i];
  }

  /** Filling the first slices and then the next one fills their concatenation. */
  lemma OverwrittenOn(done: Bytes, next: Bytes, src: Bytes)
    ensures Overwritten(done, src) + Overwritten(next, src[Min(|src|, |done|)..]) == Overwritten(done + next, src)
  {
  }

  /** Copies the front of `src` over the front of `out`. */
  method CopyFront(src: Bytes, out: array<Byte>) returns (n: nat)
    modifies out
    ensures n == Min(|src|, out.Length)
    ensures out[..] == Overwritten(old(out[..]), src)
  {
    n := Min(|src|, out.Length);
    forall j | 0 <= j < n {
      out[j] := src[j];
    }
  }

  /** Scatters `src` over the slices, as one copy into their concatenation would. */
  method CopyVectored(src: Bytes, bufs: seq<array<Byte>>) returns (n: nat)
    requires Apart(bufs)
    modifies bufs
    ensures n == Min(|src|, |old(Concat(Contents(bufs)))|)
    ensures Concat(Contents(bufs)) == Overwritten(old(Concat(Contents(bufs))), src)
  {
    hide Concat, Overwritten;
    n := 0;
    ghost var was := Contents(bufs);
    var i := 0;
    ConcatNone();
    while i < |bufs| && n < |src|
      invariant 0 <= i <= |bufs| && n == Min(|src|, |Concat(was[..i])|)
      invariant forall k | i <= k < |bufs| :: bufs[k][..] == was[k]
      invariant Concat(Contents(bufs)[..i]) == Overwritten(Concat(was[..i]), src)
    {
      ghost var before := Contents(bufs);
      var k := CopyFront(src[n..], bufs[i]);
      assert Contents(bufs)[..i] == before[..i];
      ConcatOn(was, i);
      ConcatOn(Contents(bufs), i);
      OverwrittenOn(Concat(was[..i]), was[i], src);
      n := n + k;
      i := i + 1;
    }
    ConcatSplit(was, i);
    ConcatSplit(Contents(bufs), i);
    assert Contents(bufs)[i..] == was[i..];
    OverwrittenRest(Concat(was[..i]), Concat(was[i..]), src);
  }

  lemma ConcatNone()
    ensures forall src: Bytes :: Overwritten([], src) == []
    ensures Concat([]) == []
  {
  }

  lemma OverwrittenRest(done: Bytes, rest: Bytes, src: Bytes)
    ensures |src| <= |done| || rest == [] ==> Overwritten(done, src) + rest == Overwritten(done + rest, src)
  {
    OverwrittenOn(done, rest, src);
  }

  // ----- the buffer

  /** Two appends are one append of both. */
  lemma AppendsJoin(h: History, cap: nat, a: Bytes, b: Bytes)
    requires |h.unread| <= cap
    ensures After(After(h, cap, Use.Append(a)), cap, Use.Append(b)) == After(h, cap, Use.Append(a + b))
  {
    var ta := Accepted(h.unread, cap, a);
    var tb := Accepted(h.unread + ta, cap, b);
    assert Accepted(h.unread, cap, a + b) == ta + tb;
    assert h.unread + ta + tb == h.unread + (ta + tb);
    assert h.accepted + ta + tb == h.accepted + (ta + tb);
  }

  lemma AppendGrows(h: History, cap: nat, bytes: Bytes)
    requires |h.unread| <= cap
    ensures |After(h, cap, Use.Append(bytes)).unread| == |h.unread| + Min(|bytes|, cap - |h.unread|)
    ensures |bytes| == 0 || |h.unread| == cap ==> After(h, cap, Use.Append(bytes)) == h
  {
  }

  /** The bounds of bytes marked as written, their end summed on 64 bits. */
  function FilledBounds(cap: nat, from: nat, n: nat): (nat, nat)
    requires cap < TWO_32 && n < TWO_64
  {
    var f := Min(from, cap);
    (f, Min(WrappingAdd(f, n), cap))
  }

  /** The bounds are in order exactly when the sum does not wrap. */
  lemma FilledBoundsExactly(cap: nat, from: nat, n: nat)
    requires cap < TWO_32 && n < TWO_64
    ensures var (start, end) := FilledBounds(cap, from, n);
            && (start <= end <==> start + n < TWO_64)
            && (start <= end ==> end == Min(start + n, cap))
  {
  }

  /** One byte in, the longest length of all ends before it starts. */
  lemma FilledBoundsCross()
    ensures FilledBounds(512, 1, TWO_64 - 1) == (1, 0)
  {
  }

  class PoolBuf {
    const data: array<Byte>
    var start: nat
    var end: nat
    /** The bytes that went through the buffer since it was last filled from its start. */
    ghost var history: History

    ghost predicate Valid()
      reads this, data
    {
      && start <= end <= data.Length < TWO_32
      && history.unread == Filled()
      && history.accepted == history.consumed + history.unread
    }

    /** What the buffer holds for its reader. */
    function Filled(): Bytes
      requires start <= end <= data.Length
      reads this, data
    {
      data[start..end]
    }

    /** A buffer over memory of the pool's, empty. */
    constructor (memory: array<Byte>)
      requires memory.Length < TWO_32
      ensures Valid() && data == memory && Filled() == []
    {
      data, start, end := memory, 0, 0;
      history := History([], [], []);
    }

    method IsEmpty() returns (empty: bool)
      requires Valid()
      ensures empty <==> Filled() == []
    {
      empty := start == end;
    }

    ghost method Refilled()
      requires start <= end <= data.Length < TWO_32
      modifies this`history
      ensures Valid() && history == History(Filled(), Filled(), [])
    {
      history := History(Filled(), Filled(), []);
    }

    /** Empties the buffer, so that all of it can be filled. */
    method Spare()
      requires Valid()
      modifies this
      ensures Valid() && start == end == 0 && Filled() == []
    {
      start, end := 0, 0;
      Refilled();
    }

    /** The first `n` bytes were written. */
    method SetFilled(n: nat)
      requires data.Length < TWO_32
      modifies this
      ensures Valid() && Filled() == data[..Min(n, data.Length)]
    {
      start := 0;
      end := Min(n, data.Length);
      Refilled();
    }

    /** Marks bytes written somewhere in the buffer: it is sound exactly when their end does not wrap. */
    method SetFilledAt(from: nat, n: nat)
      requires data.Length < TWO_32 && n < TWO_64
      modifies this
      ensures var f := Min(from, data.Length);
              && (f + n < TWO_64 <==> start <= end)
              && (f + n < TWO_64 ==> Valid() && Filled() == data[f..Min(f + n, data.Length)])
    {
      FilledBoundsExactly(data.Length, from, n);
      start, end := FilledBounds(data.Length, from, n).0, FilledBounds(data.Length, from, n).1;
      if start <= end {
        Refilled();
      }
    }

    /** Copies `bytes` to the memory from `from`. */
    method Write(from: nat, bytes: Bytes)
      requires from + |bytes| <= data.Length
      modifies data
      ensures data[from..from + |bytes|] == bytes
      ensures forall k | 0 <= k < data.Length && !(from <= k < from + |bytes|) :: data[k] == old(data[k])
    {
      forall j | 0 <= j < |bytes| {
        data[from + j] := bytes[j];
      }
    }

    /** Overwrites the tail at `from` with the front of `bytes`. */
    method FillAt(from: nat, bytes: Bytes) returns (n: nat)
      requires Valid() && |bytes| < TWO_64
      modifies this, data
      ensures n == Min(|bytes|, if from <= data.Length then data.Length - from else 0)
      ensures Valid() && Filled() == bytes[..n]
      ensures forall k | 0 <= k < data.Length && !(from <= k < from + n) :: data[k] == old(data[k])
    {
      n := Min(|bytes|, if from <= data.Length then data.Length - from else 0);
      Spare();
      if from + n <= data.Length {
        Write(from, bytes[..n]);
      }
      SetFilledAt(from, n);
    }

    /** Fills the buffer, as much as fits. */
    method FillFrom(bytes: Bytes) returns (n: nat)
      requires Valid()
      modifies this, data
      ensures n == Min(|bytes|, data.Length)
      ensures Valid() && Filled() == bytes[..n]
    {
      n := Min(|bytes|, data.Length);
      Spare();
      Write(0, bytes[..n]);
      SetFilled(n);
    }

    /** Makes all the room behind the unread bytes, in place. */
    method Compact()
      requires Valid()
      modifies this`start, this`end, data
      ensures Valid() && start == 0 && Filled() == old(Filled())
    {
      var n := end - start;
      forall j | 0 <= j < n {
        data[j] := data[start + j];
      }
      start, end := 0, n;
      assert Filled() == old(Filled());
    }

    /** Takes on the front of `bytes`: as much as the buffer can hold beside the unread bytes, which
        are moved to make the room when they must be. */
    method Append(bytes: Bytes) returns (n: nat)
      requires Valid()
      modifies this, data
      ensures Valid() && history == After(old(history), data.Length, Use.Append(bytes))
      ensures n == Min(|bytes|, data.Length - |old(Filled())|)
    {
      var cap := data.Length;
      if start > 0 && end + |bytes| > cap {
        Compact();
      }
      n := Min(cap - end, |bytes|);
      Add(bytes[..n]);
      history := After(history, cap, Use.Append(bytes));
    }

    /** More bytes for the reader, where there is room behind. */
    method Add(bytes: Bytes)
      requires start <= end && end + |bytes| <= data.Length
      modifies this`end, data
      ensures start <= end <= data.Length && Filled() == old(Filled()) + bytes
    {
      Write(end, bytes);
      end := end + |bytes|;
    }

    /** The reader is done with `n` bytes. */
    method Consume(n: nat)
      requires Valid()
      modifies this
      ensures Valid() && history == After(old(history), data.Length, Use.Consume(n))
    {
      var k := Min(n, end - start);
      start := start + k;
      history := After(history, data.Length, Use.Consume(n));
    }

    /** A read that can be repeated. */
    method PeekInto(out: array<Byte>) returns (n: nat)
      requires Valid() && out != data
      modifies out
      ensures Valid() && n == Min(|Filled()|, out.Length)
      ensures out[..] == Overwritten(old(out[..]), Filled())
    {
      n := CopyFront(Filled(), out);
    }

    method ReadInto(out: array<Byte>) returns (n: nat)
      requires Valid() && out != data
      modifies this, out
      ensures Valid() && history == After(old(history), data.Length, Use.Read(out.Length))
      ensures n == Min(|old(Filled())|, out.Length)
      ensures out[..] == Overwritten(old(out[..]), old(Filled()))
    {
      n := PeekInto(out);
      Consume(n);
    }

    /** As one read into the slices' concatenation. */
    method ReadIntoVectored(bufs: seq<array<Byte>>) returns (n: nat)
      requires Valid() && Apart(bufs) && data !in bufs
      modifies this, bufs
      ensures Valid() && history == After(old(history), data.Length, Use.Read(|old(Concat(Contents(bufs)))|))
      ensures n == Min(|old(Filled())|, |old(Concat(Contents(bufs)))|)
      ensures Concat(Contents(bufs)) == Overwritten(old(Concat(Contents(bufs))), old(Filled()))
    {
      n := CopyVectored(Filled(), bufs);
      Consume(n);
    }

    /** As one append of the slices' concatenation. */
    method AppendVectored(bufs: seq<Bytes>) returns (n: nat)
      requires Valid()
      modifies this, data
      ensures Valid() && history == After(old(history), data.Length, Use.Append(Concat(bufs)))
      ensures n == Min(|Concat(bufs)|, data.Length - |old(Filled())|)
    {
      hide After, Concat;
      n := 0;
      var i := 0;
      var full := false;
      ConcatNone();
      AppendGrows(history, data.Length, []);
      while i < |bufs| && !full
        invariant 0 <= i <= |bufs| && Valid()
        invariant history == After(old(history), data.Length, Use.Append(Concat(bufs[..i])))
        invariant n == |history.unread| - |old(history).unread|
        invariant full ==> |history.unread| == data.Length
      {
        ConcatOn(bufs, i);
        AppendsJoin(old(history), data.Length, Concat(bufs[..i]), bufs[i]);
        AppendGrows(history, data.Length, bufs[i]);
        var taken := Append(bufs[i]);
        n := n + taken;
        full := taken < |bufs[i]|;
        i := i + 1;
      }
      ConcatSplit(bufs, i);
      assert i == |bufs| ==> bufs[i..] == [];
      AppendsJoin(old(history), data.Length, Concat(bufs[..i]), Concat(bufs[i..]));
      AppendGrows(history, data.Length, Concat(bufs[i..]));
      AppendGrows(old(history), data.Length, Concat(bufs));
    }
  }
}

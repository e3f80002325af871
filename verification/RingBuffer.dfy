/** The ring inside a shared memory buffer: its value, the two chunk copies
    and the transfer loops of sd_write and sd_read. */
module RingBuffer {
  import opened Bytes

  /** payload, read_index, write_index and filled of a shared_mem_buffer */
  datatype Ring = Ring(data: seq<byte>, readIndex: nat, writeIndex: nat, filled: nat) {

    function Size(): nat { |data| }

    predicate Ok() {
      && readIndex < |data|
      && writeIndex < |data|
      && filled <= |data|
      && writeIndex == (readIndex + filled) % |data|
    }

    /** The bytes written and not yet read, oldest first. */
    function Contents(): (c: seq<byte>)
      requires Ok()
      ensures |c| == filled
    {
      seq(filled, i requires 0 <= i < filled => data[(readIndex + i) % |data|])
    }
  }

  function Min(a: nat, b: nat): nat { if a < b then a else b }

  /** How much the next memcpy into the ring moves. */
  function WriteCount(r: Ring, left: nat): (count: nat)
    requires r.Ok()
    ensures count <= left && r.filled + count <= r.Size() && r.writeIndex + count <= r.Size()
    ensures count == left || r.filled + count == r.Size() || r.writeIndex + count == r.Size()
    ensures count == 0 ==> left == 0 || r.filled == r.Size()
  {
    Min(Min(left, r.Size() - r.filled), r.Size() - r.writeIndex)
  }

  /** How much the next memcpy out of the ring moves. */
  function ReadCount(r: Ring, left: nat): (count: nat)
    requires r.Ok()
    ensures count <= left && count <= r.filled && r.readIndex + count <= r.Size()
    ensures count == left || count == r.filled || r.readIndex + count == r.Size()
    ensures count == 0 ==> left == 0 || r.filled == 0
  {
    Min(Min(left, r.filled), r.Size() - r.readIndex)
  }

  function CopyIn(r: Ring, chunk: seq<byte>): Ring
    requires r.Ok() && r.filled + |chunk| <= r.Size() && r.writeIndex + |chunk| <= r.Size()
  {
    Ring(r.data[..r.writeIndex] + chunk + r.data[r.writeIndex + |chunk|..],
         r.readIndex,
         (r.writeIndex + |chunk|) % r.Size(),
         r.filled + |chunk|)
  }

  function CopiedOut(r: Ring, count: nat): seq<byte>
    requires r.Ok() && r.readIndex + count <= r.Size()
  {
    r.data[r.readIndex..r.readIndex + count]
  }

  function CopyOut(r: Ring, count: nat): Ring
    requires r.Ok() && count <= r.filled && r.readIndex + count <= r.Size()
  {
    Ring(r.data, (r.readIndex + count) % r.Size(), r.writeIndex, r.filled - count)
  }

  lemma Wraps(i: nat, n: nat)
    requires i < 2 * n
    ensures i % n == if i < n then i else i - n
  {
    if i >= n {
      assert i == n + (i - n);
      assert i / n == 1;
    }
  }

  /** A chunk copied in goes behind everything that is unread, and no unread byte changes. */
  lemma CopyInAppends(r: Ring, chunk: seq<byte>)
    requires r.Ok() && r.filled + |chunk| <= r.Size() && r.writeIndex + |chunk| <= r.Size()
    ensures CopyIn(r, chunk).Ok()
    ensures CopyIn(r, chunk).Contents() == r.Contents() + chunk
  {
    var n, r' := r.Size(), CopyIn(r, chunk);
    assert |r'.data| == n;
    Wraps(r.readIndex + r.filled, n);
    Wraps(r.writeIndex + |chunk|, n);
    Wraps(r.readIndex + r'.filled, n);
    forall i | 0 <= i < r'.filled
      ensures r'.Contents()[i] == (r.Contents() + chunk)[i]
    {
      Wraps(r.readIndex + i, n);
    }
  }

  /** A chunk copied out is the oldest unread bytes; the rest stays unread, in order. */
  lemma CopyOutTakes(r: Ring, count: nat)
    requires r.Ok() && count <= r.filled && r.readIndex + count <= r.Size()
    ensures CopyOut(r, count).Ok()
    ensures r.Contents() == CopiedOut(r, count) + CopyOut(r, count).Contents()
  {
    var n, r' := r.Size(), CopyOut(r, count);
    Wraps(r.readIndex + r.filled, n);
    Wraps(r.readIndex + count, n);
    Wraps(r'.readIndex + r'.filled, n);
    forall i | 0 <= i < r.filled
      ensures r.Contents()[i] == (CopiedOut(r, count) + r'.Contents())[i]
    {
      Wraps(r.readIndex + i, n);
      if count <= i {
        Wraps(r'.readIndex + (i - count), n);
      }
    }
  }

  /** The ring fields of struct shared_mem_buffer, with the two copy loops between
      two waits: each runs until the transfer is complete or the caller has to wait. */
  class SharedBuffer {
    const payload: array<byte>
    var filled: nat
    var readIndex: nat
    var writeIndex: nat

    ghost predicate Valid()
      reads this, payload
    {
      Value().Ok()
    }

    ghost function Value(): Ring
      reads this, payload
    {
      Ring(payload[..], readIndex, writeIndex, filled)
    }

    ghost function Unread(): seq<byte>
      requires Valid()
      reads this, payload
    {
      Value().Contents()
    }

    constructor (bufsize: nat)
      requires bufsize > 0
      ensures Valid() && fresh(payload)
      ensures payload.Length == bufsize && Unread() == []
    {
      payload := new byte[bufsize];
      filled, readIndex, writeIndex := 0, 0, 0;
    }

    /** One memcpy of sd_write with the index updates behind it. */
    method WriteChunk(src: array<byte>, written: nat) returns (count: nat)
      requires Valid() && src != payload && written <= src.Length
      modifies this`writeIndex, this`filled, payload
      ensures count == WriteCount(old(Value()), src.Length - written)
      ensures Value() == CopyIn(old(Value()), src[written..written + count])
    {
      count := src.Length - written;
      if payload.Length - filled < count {
        count := payload.Length - filled;
      }
      if payload.Length - writeIndex < count {
        count := payload.Length - writeIndex;
      }
      MemCopy(payload, writeIndex, src, written, count);
      writeIndex := (writeIndex + count) % payload.Length;
      filled := filled + count;
    }

    /** One memcpy of sd_read with the index updates behind it. */
    method ReadChunk(dest: array<byte>, bytesRead: nat) returns (count: nat)
      requires Valid() && dest != payload && bytesRead <= dest.Length
      modifies this`readIndex, this`filled, dest
      ensures count == ReadCount(old(Value()), dest.Length - bytesRead)
      ensures Value() == CopyOut(old(Value()), count)
      ensures dest[..] == old(dest[..])[..bytesRead] + CopiedOut(old(Value()), count)
                          + old(dest[..])[bytesRead + count..]
    {
      count := dest.Length - bytesRead;
      if count > filled {
        count := filled;
      }
      if count > payload.Length - readIndex {
        count := payload.Length - readIndex;
      }
      MemCopy(dest, bytesRead, payload, readIndex, count);
      readIndex := (readIndex + count) % payload.Length;
      filled := filled - count;
    }

    /** The loop of sd_write from one wait to the next. */
    method WriteUntilFull(src: array<byte>, start: nat) returns (written: nat)
      requires Valid() && src != payload && start <= src.Length
      modifies this`writeIndex, this`filled, payload
      ensures Valid()
      ensures start <= written <= src.Length
      ensures written == src.Length || filled == payload.Length
      ensures Unread() == old(Unread()) + src[start..written]
    {
      written := start;
      ghost var whole := src[..];
      while written < src.Length && filled < payload.Length
        invariant Valid() && start <= written <= src.Length && src[..] == whole
        invariant Unread() == old(Unread()) + whole[start..written]
        decreases src.Length - written
      {
        ghost var before := Value();
        var count := WriteChunk(src, written);
        WriteProgress(before, old(Unread()), whole, start, written, count);
        written := written + count;
      }
    }

    /** The loop of sd_read from one wait to the next. */
    method ReadUntilEmpty(dest: array<byte>, start: nat) returns (bytesRead: nat)
      requires Valid() && dest != payload && start <= dest.Length
      modifies this`readIndex, this`filled, dest
      ensures Valid()
      ensures start <= bytesRead <= dest.Length
      ensures bytesRead == dest.Length || filled == 0
      ensures ReadSoFar(old(dest[..]), dest[..], start, bytesRead, old(Unread()), Unread())
    {
      bytesRead := start;
      while bytesRead < dest.Length && filled > 0
        invariant Valid() && start <= bytesRead <= dest.Length
        invariant ReadSoFar(old(dest[..]), dest[..], start, bytesRead, old(Unread()), Unread())
        decreases dest.Length - bytesRead
      {
        ghost var before, previous := Value(), dest[..];
        var count := ReadChunk(dest, bytesRead);
        ReadProgress(before, count, old(dest[..]), previous, start, bytesRead, old(Unread()));
        bytesRead := bytesRead + count;
      }
    }
  }

  lemma WriteProgress(r: Ring, unread: seq<byte>, src: seq<byte>, start: nat, written: nat, count: nat)
    requires r.Ok() && start <= written && written + count <= |src|
    requires r.filled + count <= r.Size() && r.writeIndex + count <= r.Size()
    requires r.Contents() == unread + src[start..written]
    ensures CopyIn(r, src[written..written + count]).Ok()
    ensures CopyIn(r, src[written..written + count]).Contents() == unread + src[start..written + count]
  {
    CopyInAppends(r, src[written..written + count]);
    assert src[start..written + count] == src[start..written] + src[written..written + count];
  }

  /** dest has the bytes from start to bytesRead replaced by the bytes that left the ring. */
  predicate ReadSoFar(dest0: seq<byte>, dest: seq<byte>, start: nat, bytesRead: nat, unread0: seq<byte>, unread: seq<byte>) {
    && start <= bytesRead <= |dest| == |dest0|
    && dest[..start] == dest0[..start] && dest[bytesRead..] == dest0[bytesRead..]
    && unread0 == dest[start..bytesRead] + unread
  }

  lemma ReadProgress(r: Ring, count: nat, dest0: seq<byte>, dest: seq<byte>, start: nat, bytesRead: nat, unread0: seq<byte>)
    requires r.Ok() && count <= r.filled && r.readIndex + count <= r.Size() && bytesRead + count <= |dest|
    requires ReadSoFar(dest0, dest, start, bytesRead, unread0, r.Contents())
    ensures CopyOut(r, count).Ok()
    ensures ReadSoFar(dest0, dest[..bytesRead] + CopiedOut(r, count) + dest[bytesRead + count..], start, bytesRead + count,
                      unread0, CopyOut(r, count).Contents())
  {
    CopyOutTakes(r, count);
    var dest' := dest[..bytesRead] + CopiedOut(r, count) + dest[bytesRead + count..];
    assert dest'[start..bytesRead + count] == dest[start..bytesRead] + CopiedOut(r, count);
    assert dest'[bytesRead + count..] == dest[bytesRead..][count..] == dest0[bytesRead + count..];
  }

  /** memcpy between two different byte ranges */
  method MemCopy(dst: array<byte>, at: nat, src: array<byte>, from: nat, count: nat)
    requires dst != src && at + count <= dst.Length && from + count <= src.Length
    modifies dst
    ensures dst[..] == old(dst[..])[..at] + src[from..from + count] + old(dst[..])[at + count..]
  {
    forall i | 0 <= i < count {
      dst[at + i] := src[from + i];
    }
  }
}

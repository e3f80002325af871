/** A growing byte buffer whose consumed front is given up again. */
module SlidingBuffer {
  import opened Bytes

  const THRESHOLD: nat := 64

  /** s has sa.a bytes of which sa.len are used; those before offset are expired. */
  class SlidingBuffer {
    var s: array<byte>
    var len: nat
    var offset: nat
    ghost var appended: seq<byte>   // everything ever appended
    ghost var expired: nat          // how much of it has been given up

    ghost predicate Valid()
      reads this, s
    {
      && offset <= len <= s.Length
      && expired <= |appended|
      && Window() == appended[expired..]
    }

    /** The bytes still needed. */
    function Window(): (w: seq<byte>)
      requires offset <= len <= s.Length
      reads this, s
    {
      s[offset..len]
    }

    function Free(): int
      reads this
    {
      s.Length - len
    }

    constructor ()
      ensures Valid() && fresh(s) && Window() == [] && appended == [] && expired == 0
    {
      s := new byte[0];
      len, offset := 0, 0;
      appended, expired := [], 0;
    }

    /** memmove of the window to the front */
    method Shift()
      requires Valid()
      modifies this`len, this`offset, s
      ensures Valid() && offset == 0
      ensures Window() == old(Window())
    {
      var n := len - offset;
      forall i | 0 <= i < n {
        s[i] := s[offset + i];
      }
      offset, len := 0, n;
    }

    /** stralloc_readyplus: grows, by at least what is needed, unless there is no memory */
    method ReadyPlus(minspace: nat, slack: nat, memory: bool) returns (ok: bool)
      requires Valid()
      modifies this`s
      ensures Valid() && (s == old(s) || fresh(s))
      ensures Window() == old(Window())
      ensures ok ==> Free() >= minspace
      ensures !ok ==> !memory && s == old(s) && Free() < minspace
    {
      if s.Length - len >= minspace {
        return true;
      }
      if !memory {
        return false;
      }
      var t := new byte[len + minspace + slack];
      forall i | 0 <= i < len {
        t[i] := s[i];
      }
      assert t[..len] == s[..len];
      assert t[offset..len] == t[..len][offset..];
      s := t;
      return true;
    }

    /** sliding_buffer_ready: room for minspace bytes, by reset, shift or growth; it fails only
        without memory and when no shift helps, and the window is never touched. */
    method Ready(minspace: nat, slack: nat, memory: bool) returns (ok: bool)
      requires Valid()
      modifies this`s, this`len, this`offset, s
      ensures Valid() && (s == old(s) || fresh(s))
      ensures Window() == old(Window())
      ensures ok ==> Free() >= minspace
      ensures !ok ==> !memory && s == old(s) && |Window()| + minspace > s.Length
    {
      var n := len - offset;
      if n == 0 {
        offset, len := 0, 0;
      } else if offset >= THRESHOLD && n <= THRESHOLD {
        Shift();
      }
      if s.Length - len >= minspace {
        return true;
      }
      var spaceLeft := s.Length - len + offset;
      if spaceLeft < minspace {
        ok := ReadyPlus(minspace, slack, memory);
      } else {
        Shift();
        ok := true;
      }
    }

    /** New bytes behind sa.len, as the caller of Ready puts them there. */
    method Append(chunk: seq<byte>)
      requires Valid() && |chunk| <= Free()
      modifies this`len, this`appended, s
      ensures Valid() && appended == old(appended) + chunk
      ensures Window() == old(Window()) + chunk
      ensures Free() == old(Free()) - |chunk|
    {
      forall i | 0 <= i < |chunk| {
        s[len + i] := chunk[i];
      }
      len := len + |chunk|;
      appended := appended + chunk;
      assert s[offset..len] == old(s[offset..len]) + chunk;
    }

    method Expire(n: nat)
      requires Valid() && n <= |Window()|
      modifies this`offset, this`expired
      ensures Valid() && expired == old(expired) + n && offset == old(offset) + n
      ensures Window() == old(Window())[n..]
    {
      offset := offset + n;
      expired := expired + n;
    }
  }
}

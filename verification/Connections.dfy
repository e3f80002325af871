/** A connection of the event loop with its queue of pending output. */
module Connections {
  import opened Bytes

  // ---------------------------------------------------------------- output queues

  /** An output_queue_member: buf[pos..] is still to be sent. */
  datatype Packet = Packet(buf: seq<byte>, pos: nat)

  predicate QueueOk(oq: seq<Packet>) {
    forall i :: 0 <= i < |oq| ==> oq[i].pos < |oq[i].buf|
  }

  function Unsent(oq: seq<Packet>): seq<byte>
    requires QueueOk(oq)
  {
    if oq == [] then [] else oq[0].buf[oq[0].pos..] + Unsent(oq[1..])
  }

  lemma {:induction false} UnsentSnoc(oq: seq<Packet>, p: Packet)
    requires QueueOk(oq) && p.pos < |p.buf|
    ensures QueueOk(oq + [p]) && Unsent(oq + [p]) == Unsent(oq) + p.buf[p.pos..]
  {
    if oq == [] {
      assert oq + [p] == [p] && [p][1..] == [];
    } else {
      assert (oq + [p])[0] == oq[0] && (oq + [p])[1..] == oq[1..] + [p];
      UnsentSnoc(oq[1..], p);
    }
  }

  /** The queue after n bytes of its head have been sent. */
  function Sent(oq: seq<Packet>, n: nat): seq<Packet>
    requires oq != [] && oq[0].pos + n <= |oq[0].buf|
  {
    if oq[0].pos + n == |oq[0].buf| then oq[1..] else oq[0 := Packet(oq[0].buf, oq[0].pos + n)]
  }

  lemma SentIsPrefix(oq: seq<Packet>, n: nat)
    requires QueueOk(oq) && oq != [] && oq[0].pos + n <= |oq[0].buf|
    ensures QueueOk(Sent(oq, n))
    ensures Unsent(oq) == oq[0].buf[oq[0].pos..oq[0].pos + n] + Unsent(Sent(oq, n))
  {
    var b, p := oq[0].buf, oq[0].pos;
    var rest := Unsent(oq[1..]);
    assert Unsent(oq) == b[p..] + rest;
    Reassociate(b, p, p + n, rest);
    if p + n < |b| {
      HeadShrinks(oq, n);
    } else {
      assert Unsent(Sent(oq, n)) == rest;
    }
  }

  lemma HeadShrinks(oq: seq<Packet>, n: nat)
    requires QueueOk(oq) && oq != [] && oq[0].pos + n < |oq[0].buf|
    ensures QueueOk(Sent(oq, n))
    ensures Unsent(Sent(oq, n)) == oq[0].buf[oq[0].pos + n..] + Unsent(oq[1..])
  {
    var left := Sent(oq, n);
    assert left[0] == Packet(oq[0].buf, oq[0].pos + n) && left[1..] == oq[1..];
    forall i | 0 <= i < |left|
      ensures left[i].pos < |left[i].buf|
    {
      assert i > 0 ==> left[i] == oq[i];
    }
  }

  lemma Reassociate(b: seq<byte>, p: nat, q: nat, rest: seq<byte>)
    requires p <= q <= |b|
    ensures b[p..] + rest == b[p..q] + (b[q..] + rest)
    ensures q == |b| ==> b[p..] + rest == b[p..q] + rest
  {}

  // ---------------------------------------------------------------- connections

  class Connection {
    const fd: int
    var eof: bool
    var oq: seq<Packet>
    var next: Connection?
    var prev: Connection?
    ghost var queued: seq<byte>   // all that was passed to write_to_link
    ghost var sent: seq<byte>     // all that the socket has accepted

    constructor (fd: int, prev: Connection?)
      ensures this.fd == fd && !eof && oq == [] && next == null && this.prev == prev && queued == sent == []
    {
      this.fd, this.prev := fd, prev;
      eof, oq, next := false, [], null;
      queued, sent := [], [];
    }

    /** Nothing is lost, repeated or reordered on the way to the socket. */
    ghost predicate Conserved()
      reads this`oq, this`queued, this`sent
    {
      QueueOk(oq) && queued == sent + Unsent(oq)
    }

    method Enqueue(buf: seq<byte>)
      requires Conserved() && buf != []
      modifies this`oq, this`queued
      ensures Conserved()
      ensures oq == old(oq) + [Packet(buf, 0)] && queued == old(queued) + buf
    {
      UnsentSnoc(oq, Packet(buf, 0));
      oq := oq + [Packet(buf, 0)];
      queued := queued + buf;
    }

    /** The socket has accepted the next n bytes. */
    method Advance(n: nat)
      requires Conserved() && oq != [] && 0 < n && oq[0].pos + n <= |oq[0].buf|
      modifies this`oq, this`sent
      ensures Conserved()
      ensures oq == Sent(old(oq), n)
      ensures sent == old(sent) + old(oq[0].buf[oq[0].pos..oq[0].pos + n])
    {
      SentIsPrefix(oq, n);
      sent := sent + oq[0].buf[oq[0].pos..oq[0].pos + n];
      oq := Sent(oq, n);
    }
  }
}

/** The event loop over network connections: a doubly linked list of links with output queues,
    user handlers called from inside the loop, and polls over a snapshot of the list. */
module Multiplexor {
  import opened Bytes
  import opened Connections
  import opened EventLog

  // ---------------------------------------------------------------- the list

  function First(links: seq<Connection>): Connection? { if links == [] then null else links[0] }

  function Last(links: seq<Connection>): Connection? { if links == [] then null else links[|links| - 1] }

  function Succ(links: seq<Connection>, i: nat): Connection?
    requires i < |links|
  {
    if i + 1 < |links| then links[i + 1] else null
  }

  function Pred(links: seq<Connection>, i: nat): Connection?
    requires i < |links|
  {
    if i > 0 then links[i - 1] else null
  }

  /** next and prev run through exactly these links, which are different. */
  ghost predicate Chained(links: seq<Connection>)
    reads links`next, links`prev
  {
    && (forall i {:trigger links[i].next} :: 0 <= i < |links| ==> links[i].next == Succ(links, i))
    && (forall i {:trigger links[i].prev} :: 0 <= i < |links| ==> links[i].prev == Pred(links, i))
  }

  ghost function Elements(links: seq<Connection>): set<Connection> { set c | c in links }

  function Cut(links: seq<Connection>, i: nat): seq<Connection>
    requires i < |links|
  {
    links[..i] + links[i + 1..]
  }

  lemma CutElements(links: seq<Connection>, i: nat)
    requires Distinct(links) && i < |links|
    ensures Distinct(Cut(links, i)) && Elements(Cut(links, i)) == Elements(links) - {links[i]}
  {
    var rest := Cut(links, i);
    forall c | c in links && c != links[i]
      ensures c in rest
    {
      var k :| 0 <= k < |links| && links[k] == c;
      assert rest[if k < i then k else k - 1] == c;
    }
    forall c | c in rest
      ensures c in links && c != links[i]
    {
      var k :| 0 <= k < |rest| && rest[k] == c;
      assert links[if k < i then k else k + 1] == c;
    }
  }

  /** Cutting out links[i] makes its neighbours each other's neighbours and changes no others. */
  lemma CutNeighbours(links: seq<Connection>, i: nat, k: nat)
    requires i < |links| && k < |links| - 1
    ensures |Cut(links, i)| == |links| - 1
    ensures var j := if k < i then k else k + 1;
            && Cut(links, i)[k] == links[j]
            && Succ(Cut(links, i), k) == (if j + 1 == i then Succ(links, i) else Succ(links, j))
            && Pred(Cut(links, i), k) == (if j == i + 1 then Pred(links, i) else Pred(links, j))
  {}

  lemma CutEnds(links: seq<Connection>, i: nat)
    requires i < |links|
    ensures First(Cut(links, i)) == if i == 0 then Succ(links, 0) else First(links)
    ensures Last(Cut(links, i)) == if i == |links| - 1 then Pred(links, i) else Last(links)
  {}

  lemma SnocElements(links: seq<Connection>, c: Connection)
    requires Distinct(links) && c !in links
    ensures Distinct(links + [c]) && Elements(links + [c]) == Elements(links) + {c}
  {}

  lemma LinkAt(links: seq<Connection>, c: Connection) returns (i: nat)
    requires c in Elements(links)
    ensures i < |links| && links[i] == c
  {
    i :| i < |links| && links[i] == c;
  }

  // ---------------------------------------------------------------- system calls

  datatype PollFd = PollFd(fd: int, wantIn: bool, wantOut: bool)

  /** The part of revents the loop looks at; other stands for POLLERR, POLLHUP and POLLNVAL. */
  datatype Revents = Revents(gotIn: bool, gotOut: bool, other: bool) {
    predicate Any() { gotIn || gotOut || other }
  }

  /** What the system answers in one round: realloc has memory, poll returns result with an event
      on the listening socket (knock) and these events on the links, as far as asked for, accept
      returns newfd, malloc has space for the new link, read returns received, and write
      accepts so many bytes of a link's output. */
  datatype Answers = Answers(memory: bool, result: int, knock: Revents, ready: Connection -> Revents,
                             newfd: int, space: bool, received: Connection -> int, accepted: Connection -> int)

  /** poll reports no more than it was asked for. */
  function Asked(fd: PollFd, r: Revents): Revents {
    Revents(r.gotIn && fd.wantIn, r.gotOut && fd.wantOut, r.other)
  }

  /** The report of the round is the system's answer: exactly the links about which poll was
      asked and that are ready. */
  ghost predicate Answered(r: Round, a: Answers) {
    && Among(r.report.inputs, r.wantIn)
    && (forall c :: c in r.wantIn ==> (c in r.report.inputs <==> a.ready(c).gotIn))
    && Among(r.report.outputs, r.wantOut)
    && (forall c :: c in r.wantOut ==> (c in r.report.outputs <==> a.ready(c).gotOut))
    && (r.report.accept <==> r.listening && (a.knock.gotIn || a.knock.other))
  }

  datatype Outcome = Finished | PollFailed | OutOfMemory | StillRunning

  // ---------------------------------------------------------------- what handlers change

  /** Nothing is opened, nothing fails, the round is where it was; links may have gone, reached
      end of file or got output. */
  ghost predicate Quieter(m: Summary, m': Summary) {
    && m'.round == m.round && m'.polls == m.polls && m'.ever == m.ever
    && m'.failing == m.failing && m'.failed == m.failed
    && m'.live <= m.live && m.eof <= m'.eof && m.pending <= m'.pending
  }

  ghost predicate Acted(m: Summary, m': Summary) { Quieter(m, m') && m'.live == m.live }

  /** The same with a read from one link, which may have gone if it had no output. */
  ghost predicate Handled(m: Summary, m': Summary, link: Connection) {
    Quieter(m, m') && m.live - {link} <= m'.live && (link in m.live && link in m.pending ==> link in m'.live)
  }

  /** One link has been served: its input handler was called, it was written to. */
  ghost predicate Served(m: Summary, m': Summary, link: Connection, events: Revents) {
    && m'.round == m.round.(called := if events.gotIn then m.round.called + [link] else m.round.called,
                            written := if events.gotOut then m.round.written + [link] else m.round.written)
    && m'.polls == m.polls && m'.ever == m.ever
    && m.live - {link} <= m'.live <= m.live && m.pending - {link} <= m'.pending
  }

  /** The links that were done have gone or have got output; nothing has failed. */
  ghost predicate Cleared(m: Summary, m': Summary) {
    && m'.ever == m.ever && m'.failed == m.failed && m'.failing == m.failing && m'.live <= m.live
    && (m.live * m.eof - m.pending) * m'.live <= m'.pending
    && m'.polls == m.polls && m'.round.stage == SettingUp && m'.round.due == m.live * m.eof - m.pending
  }

  /** The same after setup_polls: poll will be asked about the input of all links that are not at
      end of file and about the output of all that have some. */
  ghost predicate SetUpFrom(m: Summary, m': Summary) {
    && m'.ever == m.ever && m'.failed == m.failed && m'.failing == m.failing && m'.live <= m.live
    && (m.live * m.eof - m.pending) * m'.live <= m'.pending
    && m'.polls == m.polls + 1 && m'.round.stage == Waiting && m'.round.start == m'.length
    && m'.round.wantIn == m'.live - m'.eof && m'.round.wantOut == m'.live * m'.pending
    && m'.round.called == [] && m'.round.written == []
  }

  /** A round without what has been done of its report. */
  ghost function Undone(r: Round): Round { r.(called := [], written := [], accepts := 0) }

  /** The round that ends with this part of the log was answered in this way and is complete. */
  ghost predicate DoneBy(log: seq<Event>, end: nat, a: Answers, polls: nat) {
    end <= |log| &&
    var m := Summarized(log[..end]);
    m.round.Complete() && Answered(m.round, a) && m.polls == polls
  }

  ghost predicate RoundsDone(log: seq<Event>, ends: seq<nat>, world: seq<Answers>, polls: nat) {
    |ends| <= |world| && forall i :: 0 <= i < |ends| ==> DoneBy(log, ends[i], world[i], polls + i + 1)
  }

  lemma RoundsStayDone(log: seq<Event>, log': seq<Event>, ends: seq<nat>, world: seq<Answers>, polls: nat)
    requires log <= log' && RoundsDone(log, ends, world, polls)
    ensures RoundsDone(log', ends, world, polls)
  {
    forall i | 0 <= i < |ends|
      ensures DoneBy(log', ends[i], world[i], polls + i + 1)
    {
      assert DoneBy(log, ends[i], world[i], polls + i + 1);
      assert log'[..ends[i]] == log[..ends[i]];
    }
  }

  lemma OneMoreRound(log: seq<Event>, m: Summary, ends: seq<nat>, world: seq<Answers>, polls: nat)
    requires RoundsDone(log, ends, world, polls) && |ends| < |world| && m == Summarized(log)
    requires m.round.Complete() && Answered(m.round, world[|ends|]) && m.polls == polls + |ends| + 1
    ensures RoundsDone(log, ends + [|log|], world, polls)
  {
    assert log[..|log|] == log;
    assert DoneBy(log, |log|, world[|ends|], polls + |ends| + 1);
    var more := ends + [|log|];
    forall i | 0 <= i < |more|
      ensures DoneBy(log, more[i], world[i], polls + i + 1)
    {
      assert i < |ends| ==> more[i] == ends[i];
      assert i == |ends| ==> more[i] == |log|;
    }
  }

  /** Poll is about to be called with all that matters. */
  ghost predicate Asking(m: Summary) {
    && m.round.stage == Waiting && m.round.called == [] && m.round.written == []
    && m.round.wantIn == m.live - m.eof && m.round.wantOut == m.live * m.pending
  }

  /** What poll was asked in a round. */
  ghost function Question(r: Round): (nat, bool, set<Connection>, set<Connection>) {
    (r.start, r.listening, r.wantIn, r.wantOut)
  }

  /** If a connection has been accepted, one with this descriptor is new, and nothing else. */
  ghost predicate Welcomed(m: Summary, m': Summary, accepted: bool, fd: int) {
    if accepted then exists c :: c in m'.ever && c !in m.ever && m'.ever == m.ever + {c} && c.fd == fd
    else m'.ever == m.ever
  }

  lemma PolledAfter(m: Summary, m': Summary, listening: bool)
    requires Cleared(m, m')
    ensures var e := Polled(listening, m'.live - m'.eof, m'.live * m'.pending);
            MayFollow(m', e) && SetUpFrom(m, With(m', e))
  {
  }

  lemma WroteServes(m: Summary, m': Summary, link: Connection, n: nat, drained: bool, failed: bool)
    requires m' == With(m, Wrote(link, n, drained)) || Acted(With(With(m, Wrote(link, n, drained)), Closed(link, failed)), m')
    requires link in m.live
    ensures Served(m, m', link, Revents(false, true, false))
  {
  }

  class Multiplexor {
    const socket: int
    var socketok: bool
    var head: Connection?
    var tail: Connection?
    var count: nat
    var pollfdslen: nat
    var pollfds: array<PollFd>
    var pollcs: array<Connection?>

    ghost var links: seq<Connection>     // the list from head to tail
    ghost var log: seq<Event>            // what has happened
    ghost var m: Summary                 // what this amounts to

    // -------------------------------------------------------------- invariants

    ghost predicate ListOk()
      reads this`head, this`tail, this`links, links`next, links`prev
    {
      head == First(links) && tail == Last(links) && Chained(links) && Distinct(links)
    }

    ghost predicate LogOk()
      reads this`log, this`m
    {
      Orderly(log) && m == Summarized(log)
    }

    /** The log tells the state of the links. */
    ghost predicate Mirrored()
      reads this`links, this`m, m.live`eof, m.live`oq
    {
      && m.live == Elements(links) && m.live <= m.ever
      && forall c :: c in m.live ==> c.fd != socket && (c.eof <==> c in m.eof) && (c.oq != [] <==> c in m.pending)
    }

    /** Every queue is conserved, and a link that left the list without a write failure had
        reached end of file and had sent everything. */
    ghost predicate QueuesOk()
      reads this`m, m.ever`eof, m.ever`oq, m.ever`queued, m.ever`sent
    {
      forall c :: c in m.ever ==> c.Conserved() && (c in m.live || c in m.failed || (c.eof && c.oq == []))
    }

    /** What holds also while the close handler is running; count is decremented after it. */
    ghost predicate Inner()
      reads this`head, this`tail, this`links, this`log, this`m, links`next, links`prev,
            m.live`eof, m.live`oq, m.ever`eof, m.ever`oq, m.ever`queued, m.ever`sent
    {
      ListOk() && LogOk() && Mirrored() && QueuesOk()
    }

    ghost predicate Valid()
      reads this`head, this`tail, this`count, this`links, this`log, this`m, links`next, links`prev,
            m.live`eof, m.live`oq, m.ever`eof, m.ever`oq, m.ever`queued, m.ever`sent
    {
      Inner() && count == |links|
    }

    ghost predicate PollsOk()
      reads this`pollfds, this`pollcs, this`pollfdslen
    {
      pollfds.Length == pollcs.Length == pollfdslen
    }

    constructor (socket: int)
      ensures Valid() && PollsOk() && this.socket == socket && socketok
      ensures links == [] && log == [] && m == Beginning
      ensures fresh(pollfds) && fresh(pollcs)
    {
      this.socket, socketok := socket, true;
      head, tail, count, pollfdslen := null, null, 0, 0;
      pollfds, pollcs := new PollFd[0], new Connection?[0];
      links, log, m := [], [], Beginning;
    }

    ghost method Note(e: Event)
      requires LogOk() && MayFollow(m, e)
      modifies this`log, this`m
      ensures LogOk() && log == old(log) + [e] && m == With(old(m), e)
    {
      OneMoreEvent(log, e);
      log, m := log + [e], With(m, e);
    }

    // -------------------------------------------------------------- what handlers may call

    method WriteToLink(link: Connection, buf: seq<byte>, memory: bool) returns (ok: bool)
      requires Inner() && link in m.live
      modifies this`log, this`m, link`oq, link`queued
      ensures Inner() && (ok <==> buf == [] || memory)
      ensures if ok && buf != []
              then link.oq == old(link.oq) + [Packet(buf, 0)] && link.queued == old(link.queued) + buf
                   && log == old(log) + [Filed(link)] && m == With(old(m), Filed(link))
              else unchanged(this`log, this`m, link`oq, link`queued)
    {
      if buf == [] {
        return true;
      }
      if !memory {
        return false;
      }
      link.Enqueue(buf);
      Note(Filed(link));
      return true;
    }

    method CloseLink(link: Connection)
      requires Inner() && link in m.live
      modifies this`log, this`m, link`eof
      ensures Inner() && link.eof && log == old(log) + [Shut(link)] && m == With(old(m), Shut(link))
    {
      link.eof := true;
      Note(Shut(link));
    }

    /** Any link of the list, or null. */
    method Pick() returns (c: Connection?)
      requires ListOk()
      ensures c != null ==> c in links
    {
      c := head;
      ghost var i := 0;
      while c != null
        invariant 0 <= i <= |links| && c == if i < |links| then links[i] else null
        decreases |links| - i
      {
        var stop: bool := *;
        if stop {
          return;
        }
        c := c.next;
        i := i + 1;
      }
    }

    /** Any finite sequence of writes and closes on links of the list other than `except`: all a
        handler may do besides reading. */
    method UserActs(except: Connection?)
      requires Inner()
      modifies this`log, this`m, m.live`eof, m.live`oq, m.live`queued
      ensures Inner() && old(log) <= log && Acted(old(m), m)
    {
      var acts: nat := *;
      while acts > 0
        invariant Inner() && old(log) <= log && Acted(old(m), m)
      {
        var c := Pick();
        if c != null && c != except {
          var write: bool := *;
          if write {
            var buf: seq<byte>, memory: bool := *, *;
            var _ := WriteToLink(c, buf, memory);
          } else {
            CloseLink(c);
          }
        }
        acts := acts - 1;
      }
    }

    // -------------------------------------------------------------- the list

    /** The splicing of remove_link. */
    method Unlink(link: Connection, ghost i: nat)
      requires ListOk() && i < |links| && links[i] == link
      modifies this`head, this`tail, this`links, links`next, links`prev
      ensures ListOk() && links == Cut(old(links), i)
    {
      CutElements(links, i);
      CutEnds(links, i);
      ghost var was := links;
      assert link.prev == Pred(links, i) && link.next == Succ(links, i);
      if link.prev != null {
        link.prev.next := link.next;
      } else {
        head := link.next;
      }
      if link.next != null {
        link.next.prev := link.prev;
      } else {
        tail := link.prev;
      }
      links := Cut(links, i);
      forall k | 0 <= k < |links|
        ensures links[k].next == Succ(links, k) && links[k].prev == Pred(links, k)
      {
        CutNeighbours(was, i, k);
        assert links[k] == was[if k < i then k else k + 1];
      }
    }

    /** This is the first thing that has happened. */
    twostate predicate Began(new e: Event)
      reads this`log
    {
      |old(log)| < |log| && log[|old(log)|] == e
    }

    /** The link leaves the list; its close handler is about to be called. */
    method Depart(link: Connection, failed: bool, ghost i: nat)
      requires Inner() && i < |links| && links[i] == link && MayFollow(m, Closed(link, failed))
      modifies this`head, this`tail, this`links, this`log, this`m, links`next, links`prev
      ensures Inner() && log == old(log) + [Closed(link, failed)] && m == With(old(m), Closed(link, failed))
      ensures links == Cut(old(links), i)
    {
      CutElements(links, i);
      Unlink(link, i);
      Note(Closed(link, failed));
    }

    /** What holds of links and queues does not depend on the counters. */
    twostate lemma Undisturbed()
      requires old(Inner())
      requires unchanged(this`head, this`tail, this`links, this`log, this`m)
      requires unchanged(old(m.ever))
      ensures Inner()
    {}

    /** remove_link up to the end of the close handler. */
    method Leave(link: Connection, failed: bool, ghost i: nat)
      requires Inner() && i < |links| && links[i] == link && MayFollow(m, Closed(link, failed))
      modifies this`head, this`tail, this`links, this`log, this`m,
               m.live`next, m.live`prev, m.live`eof, m.live`oq, m.live`queued
      ensures Inner() && old(log) <= log && Acted(With(old(m), Closed(link, failed)), m)
      ensures links == Cut(old(links), i) && Began(Closed(link, failed))
      ensures unchanged(link`eof, link`oq, link`queued)
    {
      Depart(link, failed, i);
      UserActs(null);
      assert Began(Closed(link, failed));
    }

    method RemoveLink(link: Connection, failed: bool, ghost i: nat)
      requires Valid() && i < |links| && links[i] == link && MayFollow(m, Closed(link, failed))
      modifies this`head, this`tail, this`count, this`links, this`log, this`m,
               m.live`next, m.live`prev, m.live`eof, m.live`oq, m.live`queued
      ensures Valid() && old(log) <= log && Acted(With(old(m), Closed(link, failed)), m)
      ensures links == Cut(old(links), i) && Began(Closed(link, failed))
      ensures unchanged(link`eof, link`oq, link`queued)
    {
      Leave(link, failed, i);
      label handled:
      count := count - 1;
      Undisturbed@handled();
    }

    /** The splicing of add_connection. */
    method Append(link: Connection)
      requires ListOk() && link !in links && link.next == null && link.prev == tail
      modifies this`head, this`tail, this`links, links`next
      ensures ListOk() && links == old(links) + [link]
    {
      SnocElements(links, link);
      if tail != null {
        tail.next := link;
      } else {
        head := link;
      }
      tail := link;
      links := links + [link];
    }

    /** The link enters the list; its open handler is about to be called. */
    method Arrive(link: Connection)
      requires Inner() && MayFollow(m, Opened(link)) && link.Conserved() && link.fd != socket
      requires !link.eof && link.oq == [] && link.next == null && link.prev == tail
      requires link !in m.eof && link !in m.pending
      modifies this`head, this`tail, this`links, this`log, this`m, links`next
      ensures Inner() && log == old(log) + [Opened(link)] && m == With(old(m), Opened(link))
      ensures links == old(links) + [link]
    {
      SnocElements(links, link);
      Append(link);
      Note(Opened(link));
    }

    /** add_connection up to the call of the open handler. */
    method Admit(newfd: int) returns (link: Connection)
      requires Valid() && newfd != socket && MayFollow(m, Refused)
      modifies this`head, this`tail, this`count, this`links, this`log, this`m, links`next
      ensures Valid() && fresh(link) && link.fd == newfd && !link.eof && link.oq == []
      ensures links == old(links) + [link] && log == old(log) + [Opened(link)] && m == With(old(m), Opened(link))
    {
      link := new Connection(newfd, tail);
      OnlyEver(log, link);
      Arrive(link);
      label arrived:
      count := count + 1;
      Undisturbed@arrived();
    }

    /** accept has returned newfd, and space tells whether malloc succeeds. */
    method AddConnection(newfd: int, space: bool) returns (ok: bool)
      requires Valid() && newfd != socket && MayFollow(m, Refused)
      modifies this`socketok, this`head, this`tail, this`count, this`links, this`log, this`m,
               m.live`next, m.live`eof, m.live`oq, m.live`queued
      ensures Valid() && old(log) <= log
      ensures ok <==> newfd < 0 || space
      ensures socketok == (old(socketok) && newfd >= 0)
      ensures if newfd >= 0 && space
              then links == old(links) + [Last(links)] && Last(links) != null && fresh(Last(links)) && Last(links).fd == newfd
                   && Began(Opened(Last(links))) && Acted(With(old(m), Opened(Last(links))), m)
              else links == old(links) && m == With(old(m), Refused)
    {
      if newfd < 0 {
        socketok := false;
        Note(Refused);
        return true;
      }
      if !space {
        Note(Refused);
        return false;
      }
      Welcome(newfd);
      return true;
    }

    /** The part of add_connection that follows the allocation. */
    method Welcome(newfd: int)
      requires Valid() && newfd != socket && MayFollow(m, Refused)
      modifies this`head, this`tail, this`count, this`links, this`log, this`m,
               m.live`next, m.live`eof, m.live`oq, m.live`queued
      ensures Valid() && old(log) <= log
      ensures links == old(links) + [Last(links)] && Last(links) != null && fresh(Last(links)) && Last(links).fd == newfd
      ensures Began(Opened(Last(links))) && Acted(With(old(m), Opened(Last(links))), m)
    {
      var link := Admit(newfd);
      UserActs(null);
      assert links == old(links) + [link] && Began(Opened(link));
    }

    // -------------------------------------------------------------- input and output

    /** read has returned nbytes, or would have if it were called. */
    method ReadFromLink(link: Connection, nbytes: int) returns (result: int)
      requires Valid() && link in m.live && (link.eof || nbytes > 0 || MayFollow(m, Ended(link)))
      modifies this`head, this`tail, this`count, this`links, this`log, this`m,
               m.live`next, m.live`prev, m.live`eof, m.live`oq, m.live`queued
      ensures Valid() && old(log) <= log && Handled(old(m), m, link)
      ensures result == if old(link.eof) then 0 else nbytes
      ensures unchanged(link`oq, link`queued) && link.eof == (result <= 0)
      ensures link !in m.live <==> !old(link.eof) && nbytes <= 0 && link.oq == []
      ensures old(link.eof) || nbytes > 0 ==> m == old(m)
      ensures !old(link.eof) && nbytes <= 0 ==> Began(Ended(link))
    {
      if link.eof {
        return 0;
      }
      if nbytes <= 0 {
        End(link);
      }
      return nbytes;
    }

    /** The reaction to the end of the input. */
    method End(link: Connection)
      requires Valid() && link in m.live && !link.eof && MayFollow(m, Ended(link))
      modifies this`head, this`tail, this`count, this`links, this`log, this`m,
               m.live`next, m.live`prev, m.live`eof, m.live`oq, m.live`queued
      ensures Valid() && old(log) <= log && Handled(old(m), m, link) && Began(Ended(link))
      ensures unchanged(link`oq, link`queued) && link.eof && (link !in m.live <==> link.oq == [])
    {
      NoteEnd(link);
      if link.oq == [] {
        ghost var i := LinkAt(links, link);
        RemoveLink(link, false, i);
      }
      assert Began(Ended(link));
    }

    method NoteEnd(link: Connection)
      requires Valid() && link in m.live && !link.eof && MayFollow(m, Ended(link))
      modifies this`log, this`m, link`eof
      ensures Valid() && log == old(log) + [Ended(link)] && m == With(old(m), Ended(link)) && link.eof
    {
      link.eof := true;
      Note(Ended(link));
    }

    /** Any input handler that keeps to its contract: it reads at most once and only from its own
        link, and does not use the link after a read that returned no input. */
    method InputHandler(link: Connection, nbytes: int)
      requires Valid() && MayFollow(m, Input(link))
      modifies this`head, this`tail, this`count, this`links, this`log, this`m,
               m.live`next, m.live`prev, m.live`eof, m.live`oq, m.live`queued
      ensures Valid() && old(log) <= log && Began(Input(link)) && Handled(With(old(m), Input(link)), m, link)
    {
      Note(Input(link));
      HandlerBody(link, nbytes);
      assert Began(Input(link));
    }

    method HandlerBody(link: Connection, nbytes: int)
      requires Valid() && link in m.live && MayFollow(m, Ended(link))
      modifies this`head, this`tail, this`count, this`links, this`log, this`m,
               m.live`next, m.live`prev, m.live`eof, m.live`oq, m.live`queued
      ensures Valid() && old(log) <= log && Handled(old(m), m, link)
    {
      UserActs(null);
      var wantsInput: bool := *;
      if wantsInput {
        var result := ReadFromLink(link, nbytes);
        UserActs(if result <= 0 then link else null);
      }
    }

    twostate predicate Transmitted(link: Connection, n: nat)
      reads link`oq, link`sent
    {
      && old(link.oq != [] && link.oq[0].pos + n <= |link.oq[0].buf|)
      && link.oq == Sent(old(link.oq), n)
      && link.sent == old(link.sent) + old(link.oq[0].buf[link.oq[0].pos..link.oq[0].pos + n])
    }

    /** write accepts nbytes, but not more than it is given. Either it fails and the link is
        removed, or exactly these bytes of the queue are sent, and the link is removed exactly if
        it is now done. */
    method WriteToSocket(link: Connection, nbytes: int) returns (n: nat)
      requires Valid() && MayFollow(m, Wrote(link, 0, false))
      modifies this`head, this`tail, this`count, this`links, this`log, this`m,
               m.live`next, m.live`prev, m.live`eof, m.live`oq, m.live`queued, link`sent
      ensures Valid() && old(log) <= log && Served(old(m), m, link, Revents(false, true, false))
      ensures old(link.oq) != []
      ensures var left := |old(link.oq)[0].buf| - old(link.oq)[0].pos;
              n == if nbytes <= 0 then 0 else if nbytes < left then nbytes else left
      ensures n == 0 ==> link !in m.live && Closed(link, true) in log && unchanged(link`oq, link`sent)
      ensures n > 0 ==> Transmitted(link, n) && (link !in m.live <==> link.eof && link.oq == [])
    {
      if nbytes <= 0 {
        n := 0;
        FailedWrite(link);
      } else {
        assert link.Conserved();
        var left := |link.oq[0].buf| - link.oq[0].pos;
        n := if nbytes < left then nbytes else left;
        Transmit(link, n);
      }
    }

    method FailedWrite(link: Connection)
      requires Valid() && MayFollow(m, Wrote(link, 0, false))
      modifies this`head, this`tail, this`count, this`links, this`log, this`m,
               m.live`next, m.live`prev, m.live`eof, m.live`oq, m.live`queued
      ensures Valid() && old(log) <= log && Served(old(m), m, link, Revents(false, true, false))
      ensures link !in m.live && Closed(link, true) in log && unchanged(link`oq)
    {
      Note(Wrote(link, 0, false));
      ghost var k := |log|;
      ghost var i := LinkAt(links, link);
      RemoveLink(link, true, i);
      assert log[k] == Closed(link, true);
      WroteServes(old(m), m, link, 0, false, true);
    }

    /** The part of write_to_socket after a successful write of n bytes. */
    method Transmit(link: Connection, n: nat)
      requires Valid() && MayFollow(m, Wrote(link, n, false)) && link.oq != []
      requires 0 < n && link.oq[0].pos + n <= |link.oq[0].buf|
      modifies this`head, this`tail, this`count, this`links, this`log, this`m,
               m.live`next, m.live`prev, m.live`eof, m.live`oq, m.live`queued, link`sent
      ensures Valid() && old(log) <= log && Served(old(m), m, link, Revents(false, true, false))
      ensures Transmitted(link, n) && (link !in m.live <==> link.eof && link.oq == [])
    {
      WriteSome(link, n);
      ghost var drained := link.oq == [];
      if link.oq == [] && link.eof {
        ghost var i := LinkAt(links, link);
        RemoveLink(link, false, i);
      }
      assert Transmitted(link, n);
      WroteServes(old(m), m, link, n, drained, false);
    }

    method WriteSome(link: Connection, n: nat)
      requires Valid() && MayFollow(m, Wrote(link, n, false)) && link.oq != []
      requires 0 < n && link.oq[0].pos + n <= |link.oq[0].buf|
      modifies this`log, this`m, link`oq, link`sent
      ensures Valid() && old(log) <= log && m == With(old(m), Wrote(link, n, link.oq == []))
      ensures Transmitted(link, n)
    {
      assert link.Conserved();
      link.Advance(n);
      Note(Wrote(link, n, link.oq == []));
    }

    // -------------------------------------------------------------- setup_polls

    /** The first i links were not done when setup_polls began or have got output since. */
    ghost predicate Weeded(i: nat)
      reads this`links, this`m
    {
      i <= |links| && forall k :: 0 <= k < i && links[k] in m.round.due ==> links[k] in m.pending
    }

    /** Removes the links that are done, that is, at end of file with an empty queue. A link that
        was done before stays only if a close handler has given it new output. */
    method Weed()
      requires Valid() && m.round.due <= m.eof
      modifies this`head, this`tail, this`count, this`links, this`log, this`m,
               m.live`next, m.live`prev, m.live`eof, m.live`oq, m.live`queued
      ensures Valid() && old(log) <= log && Quieter(old(m), m) && count <= old(count)
      ensures m.round.due * m.live <= m.pending
    {
      var link := head;
      ghost var i: nat := 0;
      while link != null
        invariant Valid() && old(log) <= log && Quieter(old(m), m) && count <= old(count)
        invariant Weeded(i) && link == if i < |links| then links[i] else null
        decreases |links| - i
      {
        var next := link.next;
        i := WeedOne(link, i);
        link := next;
      }
      forall c | c in m.round.due && c in m.live
        ensures c in m.pending
      {
        var k := LinkAt(links, c);
      }
    }

    method WeedOne(link: Connection, ghost i: nat) returns (ghost j: nat)
      requires Valid() && Weeded(i) && i < |links| && link == links[i] && m.round.due <= m.eof
      modifies this`head, this`tail, this`count, this`links, this`log, this`m,
               m.live`next, m.live`prev, m.live`eof, m.live`oq, m.live`queued
      ensures Valid() && old(log) <= log && Quieter(old(m), m) && count <= old(count)
      ensures Weeded(j) && |links| - j == |old(links)| - i - 1
      ensures old(link.next) == if j < |links| then links[j] else null
    {
      if link.eof && link.oq == [] {
        RemoveLink(link, false, i);
        return i;
      }
      return i + 1;
    }

    /** Index k of the poll arrays holds this link with the events that poll is asked about. */
    ghost predicate Entry(k: nat, link: Connection)
      reads this`pollfds, this`pollcs, this`m, pollfds, pollcs
    {
      && k < pollfds.Length && k < pollcs.Length
      && pollcs[k] == link
      && pollfds[k] == PollFd(link.fd, link in m.round.wantIn, link in m.round.wantOut)
    }

    /** The poll arrays hold the listening socket, while it is usable, and then these links. */
    ghost predicate Snapshot(n: nat, polled: seq<Connection>)
      reads this`pollfds, this`pollcs, this`m, pollfds, pollcs
    {
      var first := if m.round.listening then 1 else 0;
      && n == first + |polled| <= pollfds.Length
      && (m.round.listening ==> pollcs.Length > 0 && pollcs[0] == null && pollfds[0] == PollFd(socket, true, false))
      && (forall k :: 0 <= k < |polled| ==> Entry(first + k, polled[k]))
    }

    method FillLinks(first: nat) returns (index: nat)
      requires ListOk() && Mirrored() && PollsOk() && first + |links| <= pollfdslen
      requires m.round.wantIn == m.live - m.eof && m.round.wantOut == m.live * m.pending
      modifies pollfds, pollcs
      ensures index == first + |links|
      ensures forall k :: 0 <= k < first ==> pollfds[k] == old(pollfds[k]) && pollcs[k] == old(pollcs[k])
      ensures forall k :: 0 <= k < |links| ==> Entry(first + k, links[k])
    {
      index := first;
      var link := head;
      ghost var i := 0;
      while link != null
        invariant i <= |links| && index == first + i
        invariant link == if i < |links| then links[i] else null
        invariant forall k :: 0 <= k < first ==> pollfds[k] == old(pollfds[k]) && pollcs[k] == old(pollcs[k])
        invariant forall k :: 0 <= k < i ==> Entry(first + k, links[k])
        decreases |links| - i
      {
        pollcs[index], pollfds[index] := link, PollFd(link.fd, !link.eof, link.oq != []);
        index := index + 1;
        link := link.next;
        i := i + 1;
      }
    }

    /** The second half of setup_polls; the array bounds hold because weeding only shortens the
        list. */
    method Fill(ghost m0: Summary) returns (index: nat)
      requires Valid() && PollsOk() && count + (if socketok then 1 else 0) <= pollfdslen && Cleared(m0, m)
      modifies this`log, this`m, pollfds, pollcs
      ensures Valid() && old(log) <= log
      ensures SetUpFrom(m0, m) && m.round.listening == socketok && Snapshot(index, links)
      ensures m.live == old(m.live) && m.eof == old(m.eof)
    {
      NotePolled(m0);
      label noted:
      index := FillArrays();
      Undisturbed@noted();
    }

    method FillArrays() returns (index: nat)
      requires ListOk() && Mirrored() && PollsOk() && |links| + (if socketok then 1 else 0) <= pollfdslen
      requires m.round.wantIn == m.live - m.eof && m.round.wantOut == m.live * m.pending
      requires m.round.listening == socketok
      modifies pollfds, pollcs
      ensures Snapshot(index, links)
    {
      index := 0;
      if socketok {
        pollcs[index], pollfds[index] := null, PollFd(socket, true, false);
        index := index + 1;
      }
      index := FillLinks(index);
    }

    ghost method NotePolled(m0: Summary)
      requires Inner() && Cleared(m0, m)
      modifies this`log, this`m
      ensures Inner() && old(log) <= log && SetUpFrom(m0, m) && m.round.listening == socketok
      ensures m.live == old(m.live) && m.eof == old(m.eof)
    {
      PolledAfter(m0, m, socketok);
      Note(Polled(socketok, m.live - m.eof, m.live * m.pending));
    }

    /** A successful realloc; the old contents do not matter. */
    method Grow(len: nat)
      modifies this`pollfds, this`pollcs, this`pollfdslen
      ensures PollsOk() && fresh(pollfds) && fresh(pollcs) && pollfdslen == len
    {
      pollfds, pollcs, pollfdslen := new PollFd[len], new Connection?[len], len;
    }

    /** realloc, if necessary; it succeeds if there is memory. */
    method Reserve(len: nat, memory: bool) returns (ok: bool)
      requires PollsOk()
      modifies this`pollfds, this`pollcs, this`pollfdslen
      ensures PollsOk() && (ok <==> memory || len <= old(pollfdslen)) && (ok ==> len <= pollfdslen)
      ensures pollfds == old(pollfds) || fresh(pollfds)
      ensures pollcs == old(pollcs) || fresh(pollcs)
    {
      ok := true;
      if pollfdslen < len {
        ok := memory;
        if memory {
          Grow(len);
        }
      }
    }

    method Prepare(len: nat, memory: bool, ghost m0: Summary) returns (index: nat, ok: bool)
      requires Valid() && PollsOk() && count + (if socketok then 1 else 0) <= len && Cleared(m0, m)
      modifies this`log, this`m, this`pollfds, this`pollcs, this`pollfdslen, pollfds, pollcs
      ensures Valid() && PollsOk() && old(log) <= log && (ok <==> memory || len <= old(pollfdslen))
      ensures pollfds == old(pollfds) || fresh(pollfds)
      ensures pollcs == old(pollcs) || fresh(pollcs)
      ensures m.live <= m0.live
      ensures if ok then SetUpFrom(m0, m) && m.round.listening == socketok && Snapshot(index, links) else index == 0
    {
      ok := Reserve(len, memory);
      if ok {
        index := Fill(m0);
      } else {
        index := 0;
      }
    }

    /** The first half of setup_polls. */
    method WeedAll()
      requires Valid() && MayFollow(m, SetUp)
      modifies this`head, this`tail, this`count, this`links, this`log, this`m,
               m.live`next, m.live`prev, m.live`eof, m.live`oq, m.live`queued
      ensures Valid() && old(log) <= log && Cleared(old(m), m) && count <= old(count)
    {
      Note(SetUp);
      Weed();
    }

    /** memory: realloc succeeds */
    method SetupPolls(memory: bool) returns (index: nat, ok: bool)
      requires Valid() && PollsOk() && MayFollow(m, SetUp)
      modifies this`head, this`tail, this`count, this`links, this`log, this`m,
               m.live`next, m.live`prev, m.live`eof, m.live`oq, m.live`queued
      modifies this`pollfds, this`pollcs, this`pollfdslen, pollfds, pollcs
      ensures Valid() && PollsOk() && old(log) <= log && m.live <= old(m.live)
      ensures pollfds == old(pollfds) || fresh(pollfds)
      ensures pollcs == old(pollcs) || fresh(pollcs)
      ensures memory ==> ok
      ensures index == 0 && ok ==> !socketok && links == []
      ensures index > 0 ==> ok && SetUpFrom(old(m), m) && m.round.listening == socketok && Snapshot(index, links)
    {
      var len := count;
      if socketok {
        len := len + 1;
      }
      index, ok := 0, true;
      if len > 0 {
        index, ok := WeedAndPrepare(len, memory);
      }
    }

    method WeedAndPrepare(len: nat, memory: bool) returns (index: nat, ok: bool)
      requires Valid() && PollsOk() && MayFollow(m, SetUp) && count + (if socketok then 1 else 0) == len
      modifies this`head, this`tail, this`count, this`links, this`log, this`m,
               m.live`next, m.live`prev, m.live`eof, m.live`oq, m.live`queued
      modifies this`pollfds, this`pollcs, this`pollfdslen, pollfds, pollcs
      ensures Valid() && PollsOk() && old(log) <= log && m.live <= old(m.live)
      ensures pollfds == old(pollfds) || fresh(pollfds)
      ensures pollcs == old(pollcs) || fresh(pollcs)
      ensures memory ==> ok
      ensures if ok then SetUpFrom(old(m), m) && m.round.listening == socketok && Snapshot(index, links) else index == 0
    {
      WeedAll();
      index, ok := Prepare(len, memory, old(m));
    }

    // -------------------------------------------------------------- dispatch

    /** One round trip for a link: the link is in the list when its input handler is called, and
        it is in the list and has output when it is written to. */
    method Serve(link: Connection, events: Revents, received: int, accepted: int)
      requires Valid() && link in m.live && m.round.stage == Serving
      requires events.gotIn ==> MayFollow(m, Input(link))
      requires events.gotOut ==> MayFollow(m, Wrote(link, 0, false))
      modifies this`head, this`tail, this`count, this`links, this`log, this`m,
               m.live`next, m.live`prev, m.live`eof, m.live`oq, m.live`queued, link`sent
      ensures Valid() && old(log) <= log && Served(old(m), m, link, events)
      ensures events.gotIn ==> Began(Input(link))
      ensures events.gotOut ==> if accepted > 0 then |link.sent| > |old(link.sent)| else Closed(link, true) in log
    {
      if events.gotIn {
        InputHandler(link, received);
      }
      if events.gotOut {
        var n := WriteToSocket(link, accepted);
      }
    }

    ghost predicate GotKnock(revents: seq<Revents>)
      reads this`pollfds, pollfds
    {
      0 < |revents| <= pollfds.Length && pollfds[0].fd == socket && revents[0].Any()
    }

    /** The entry of a link with input, or one that can be written to. */
    ghost predicate Got(k: nat, events: Revents, output: bool)
      requires k < pollfds.Length && k < pollcs.Length
      reads this`pollfds, this`pollcs, pollfds, pollcs
    {
      pollfds[k].fd != socket && pollcs[k] != null && if output then events.gotOut else events.gotIn
    }

    /** The links with input, or those that can be written to, among the first k entries. */
    ghost function Selected(k: nat, revents: seq<Revents>, output: bool): seq<Connection>
      requires k <= |revents| <= pollfds.Length && |revents| <= pollcs.Length
      reads this`pollfds, this`pollcs, pollfds, pollcs
    {
      if k == 0 then []
      else Selected(k - 1, revents, output) + (if Got(k - 1, revents[k - 1], output) then [pollcs[k - 1]] else [])
    }

    ghost function ReportOf(revents: seq<Revents>): Report
      requires |revents| <= pollfds.Length && |revents| <= pollcs.Length
      reads this`pollfds, this`pollcs, pollfds, pollcs
    {
      Report(Selected(|revents|, revents, false), Selected(|revents|, revents, true), GotKnock(revents))
    }

    lemma {:induction false} NextSelected(k: nat, n: nat, revents: seq<Revents>, output: bool)
      requires k < n <= |revents| <= pollfds.Length && |revents| <= pollcs.Length && Got(k, revents[k], output)
      ensures IsNext(pollcs[k], Selected(n, revents, output), Selected(k, revents, output))
      decreases n
    {
      if k + 1 < n {
        NextSelected(k, n - 1, revents, output);
      }
    }

    lemma {:induction false} SelectedAre(k: nat, revents: seq<Revents>, output: bool, c: Connection)
      requires k <= |revents| <= pollfds.Length && |revents| <= pollcs.Length
      ensures c in Selected(k, revents, output) <==> exists j :: 0 <= j < k && Got(j, revents[j], output) && pollcs[j] == c
    {
      if k > 0 {
        SelectedAre(k - 1, revents, output, c);
      }
    }

    lemma {:induction false} SelectedAreDistinct(k: nat, revents: seq<Revents>, output: bool)
      requires k <= |revents| <= pollfds.Length && |revents| <= pollcs.Length
      requires forall i, j :: 0 <= i < j < |revents| && pollcs[i] != null ==> pollcs[i] != pollcs[j]
      ensures EventLog.Distinct(Selected(k, revents, output))
    {
      if k > 0 {
        SelectedAreDistinct(k - 1, revents, output);
        if Got(k - 1, revents[k - 1], output) {
          SelectedAre(k - 1, revents, output, pollcs[k - 1]);
        }
      }
    }

    /** The entries from index k on are different links that can still be served; the listening
        socket is at index 0 only. */
    ghost predicate Pending(mm: Summary, k: nat, revents: seq<Revents>)
      reads this`pollfds, this`pollcs, pollfds, pollcs
    {
      && |revents| <= pollfds.Length && |revents| <= pollcs.Length
      && (forall j :: k <= j < |revents| ==> Servable(mm, pollfds[j], pollcs[j], revents[j]))
      && (forall j :: 0 < j < |revents| ==> pollfds[j].fd != socket)
      && (forall i, j :: k <= i < j < |revents| && pollcs[i] != null ==> pollcs[i] != pollcs[j])
    }

    ghost predicate Servable(mm: Summary, fd: PollFd, c: Connection?, events: Revents) {
      fd.fd == socket || (c != null && c in mm.live && (events.gotOut ==> c in mm.pending))
    }

    /** The first k entries have been visited: input handlers were called and links written to for
        exactly those among them for which this was reported. */
    ghost predicate Visited(mm: Summary, k: nat, revents: seq<Revents>)
      reads this`pollfds, this`pollcs, pollfds, pollcs
    {
      && k <= |revents| && Pending(mm, k, revents)
      && mm.round.stage == Serving && mm.round.report == ReportOf(revents)
      && mm.round.called == Selected(k, revents, false) && mm.round.written == Selected(k, revents, true)
      && mm.round.accepts == if k > 0 && GotKnock(revents) then 1 else 0
    }

    /** The link of the next entry may be served. */
    lemma MayServe(mm: Summary, k: nat, revents: seq<Revents>)
      requires k < |revents| && Visited(mm, k, revents) && pollfds[k].fd != socket
      ensures pollcs[k] != null && pollcs[k] in mm.live
      ensures revents[k].gotIn ==> MayFollow(mm, Input(pollcs[k]))
      ensures revents[k].gotOut ==> MayFollow(mm, Wrote(pollcs[k], 0, false))
    {
      assert Servable(mm, pollfds[k], pollcs[k], revents[k]);
      if revents[k].gotIn {
        NextSelected(k, |revents|, revents, false);
      }
      if revents[k].gotOut {
        NextSelected(k, |revents|, revents, true);
      }
    }

    /** Serving it leaves the entries behind it as they are. */
    lemma ServedIsVisited(mm: Summary, mm': Summary, k: nat, revents: seq<Revents>)
      requires k < |revents| && Visited(mm, k, revents) && pollfds[k].fd != socket && pollcs[k] != null
      requires Served(mm, mm', pollcs[k], revents[k])
      ensures Visited(mm', k + 1, revents)
    {
      forall j | k < j < |revents|
        ensures Servable(mm', pollfds[j], pollcs[j], revents[j])
      {
        assert Servable(mm, pollfds[j], pollcs[j], revents[j]);
      }
    }

    lemma AcceptedIsVisited(mm: Summary, mm': Summary, revents: seq<Revents>)
      requires Visited(mm, 0, revents) && GotKnock(revents)
      requires mm.live <= mm'.live && mm.pending <= mm'.pending
      requires mm'.round == mm.round.(accepts := 1)
      ensures Visited(mm', 1, revents)
    {
      forall j | 0 < j < |revents|
        ensures Servable(mm', pollfds[j], pollcs[j], revents[j])
      {
        assert Servable(mm, pollfds[j], pollcs[j], revents[j]);
      }
    }

    lemma SkippedIsVisited(mm: Summary, k: nat, revents: seq<Revents>)
      requires k < |revents| && Visited(mm, k, revents) && !revents[k].Any()
      ensures Visited(mm, k + 1, revents)
    {
    }

    // -------------------------------------------------------------- poll

    function AnswerAt(k: nat, a: Answers): Revents
      requires k < pollfds.Length && k < pollcs.Length
      reads this`pollfds, this`pollcs, pollfds, pollcs
    {
      Asked(pollfds[k], if pollcs[k] == null then a.knock else a.ready(pollcs[k]))
    }

    ghost predicate AnsweredBy(revents: seq<Revents>, a: Answers)
      reads this`pollfds, this`pollcs, pollfds, pollcs
    {
      && |revents| <= pollfds.Length && |revents| <= pollcs.Length
      && forall k :: 0 <= k < |revents| ==> revents[k] == AnswerAt(k, a)
    }

    /** poll: it reports what was asked for. */
    method Poll(n: nat, a: Answers) returns (revents: seq<Revents>)
      requires n <= pollfds.Length && n <= pollcs.Length
      ensures |revents| == n && AnsweredBy(revents, a)
    {
      revents := [];
      for k := 0 to n
        invariant |revents| == k
        invariant forall j :: 0 <= j < k ==> revents[j] == AnswerAt(j, a)
      {
        revents := revents + [AnswerAt(k, a)];
      }
    }

    lemma SnapshotIsPending(revents: seq<Revents>, a: Answers)
      requires ListOk() && Mirrored() && PollsOk() && Snapshot(|revents|, links) && AnsweredBy(revents, a)
      requires m.round.wantIn == m.live - m.eof && m.round.wantOut == m.live * m.pending
      ensures Pending(m, 0, revents)
    {
      var first := if m.round.listening then 1 else 0;
      forall j | 0 <= j < |revents|
        ensures Servable(m, pollfds[j], pollcs[j], revents[j]) && (j > 0 ==> pollfds[j].fd != socket)
      {
        if j >= first {
          assert Entry(first + (j - first), links[j - first]);
        }
      }
      forall i, j | 0 <= i < j < |revents| && pollcs[i] != null
        ensures pollcs[i] != pollcs[j]
      {
        assert Entry(first + (i - first), links[i - first]);
        assert Entry(first + (j - first), links[j - first]);
      }
    }

    /** A link is reported exactly if poll was asked about it and it is ready. */
    lemma SelectedIffReady(revents: seq<Revents>, a: Answers, output: bool, c: Connection)
      requires ListOk() && Mirrored() && PollsOk() && Snapshot(|revents|, links) && AnsweredBy(revents, a)
      requires m.round.wantIn == m.live - m.eof && m.round.wantOut == m.live * m.pending
      ensures c in Selected(|revents|, revents, output)
              <==> if output then c in m.round.wantOut && a.ready(c).gotOut else c in m.round.wantIn && a.ready(c).gotIn
    {
      var first := if m.round.listening then 1 else 0;
      SelectedAre(|revents|, revents, output, c);
      if c in m.live {
        var k := LinkAt(links, c);
        assert Entry(first + k, links[k]);
        assert revents[first + k] == AnswerAt(first + k, a);
      }
      forall j | 0 <= j < |revents| && Got(j, revents[j], output) && pollcs[j] == c
        ensures if output then c in m.round.wantOut && a.ready(c).gotOut else c in m.round.wantIn && a.ready(c).gotIn
      {
        assert Entry(first + (j - first), links[j - first]);
      }
    }

    lemma SelectedAmongAsked(revents: seq<Revents>, a: Answers, output: bool)
      requires ListOk() && Mirrored() && PollsOk() && Snapshot(|revents|, links) && AnsweredBy(revents, a)
      requires m.round.wantIn == m.live - m.eof && m.round.wantOut == m.live * m.pending
      ensures Among(Selected(|revents|, revents, output), if output then m.round.wantOut else m.round.wantIn)
    {
      var cs := Selected(|revents|, revents, output);
      forall i | 0 <= i < |cs|
        ensures cs[i] in if output then m.round.wantOut else m.round.wantIn
      {
        SelectedIffReady(revents, a, output, cs[i]);
      }
    }

    /** What the loop begins to dispatch is the answer of poll. */
    lemma ReportIsAnswer(revents: seq<Revents>, a: Answers)
      requires ListOk() && Mirrored() && PollsOk() && Snapshot(|revents|, links) && AnsweredBy(revents, a)
      requires m.round.wantIn == m.live - m.eof && m.round.wantOut == m.live * m.pending && m.round.stage == Waiting
      ensures MayFollow(m, Ready(ReportOf(revents)))
      ensures Answered(m.round.(report := ReportOf(revents)), a)
    {
      SnapshotIsPending(revents, a);
      SelectedAreDistinct(|revents|, revents, false);
      SelectedAreDistinct(|revents|, revents, true);
      SelectedAmongAsked(revents, a, false);
      SelectedAmongAsked(revents, a, true);
      forall c | c in m.live
        ensures c in Selected(|revents|, revents, false) <==> c in m.round.wantIn && a.ready(c).gotIn
        ensures c in Selected(|revents|, revents, true) <==> c in m.round.wantOut && a.ready(c).gotOut
      {
        SelectedIffReady(revents, a, false, c);
        SelectedIffReady(revents, a, true, c);
      }
      KnockIsAnswer(revents, a);
    }

    lemma KnockIsAnswer(revents: seq<Revents>, a: Answers)
      requires ListOk() && Mirrored() && PollsOk() && Snapshot(|revents|, links) && AnsweredBy(revents, a)
      ensures GotKnock(revents) <==> m.round.listening && (a.knock.gotIn || a.knock.other)
    {
      if m.round.listening {
        assert revents[0] == AnswerAt(0, a);
      } else if |revents| > 0 {
        assert Entry(0, links[0]);
      }
    }

    // -------------------------------------------------------------- the main loop

    /** The first k entries lead to a call of accept. */
    ghost predicate Knocked(k: nat, revents: seq<Revents>)
      reads this`pollfds, pollfds
    {
      k > 0 && GotKnock(revents)
    }

    /** What the visits of the first k entries amount to; mm and listened are from before. */
    ghost predicate Since(mm: Summary, listened: bool, k: nat, revents: seq<Revents>, a: Answers)
      reads this`socketok, this`m, this`pollfds, pollfds
    {
      && socketok == (listened && !(Knocked(k, revents) && a.newfd < 0))
      && Welcomed(mm, m, Knocked(k, revents) && a.newfd >= 0 && a.space, a.newfd)
      && Undone(m.round) == Undone(mm.round) && m.polls == mm.polls
    }

    /** What the loop needs to know of add_connection. */
    method TryAccept(newfd: int, space: bool) returns (ok: bool)
      requires Valid() && newfd != socket && MayFollow(m, Refused)
      modifies this`socketok, this`head, this`tail, this`count, this`links, this`log, this`m,
               m.live`next, m.live`eof, m.live`oq, m.live`queued
      ensures Valid() && old(log) <= log && fresh(m.live - old(m.live))
      ensures (ok <==> newfd < 0 || space) && socketok == (old(socketok) && newfd >= 0)
      ensures m.round == old(m.round).(accepts := 1) && m.polls == old(m.polls)
      ensures old(m.live) <= m.live && old(m.pending) <= m.pending
      ensures Welcomed(old(m), m, newfd >= 0 && space, newfd)
    {
      ok := AddConnection(newfd, space);
      if newfd >= 0 && space {
        ghost var c := Last(links);
        assert c !in old(m.ever) && m.ever == old(m.ever) + {c} && c.fd == newfd;
      }
    }

    method VisitSocket(k: nat, revents: seq<Revents>, a: Answers, ghost mm: Summary, ghost listened: bool) returns (ok: bool)
      requires Valid() && k < |revents| && Visited(m, k, revents) && Since(mm, listened, k, revents, a) && a.newfd != socket
      requires pollfds[k].fd == socket && revents[k].Any()
      modifies this`socketok, this`head, this`tail, this`count, this`links, this`log, this`m,
               m.live`next, m.live`eof, m.live`oq, m.live`queued
      ensures Valid() && old(log) <= log && fresh(m.live - old(m.live))
      ensures Since(mm, listened, k + 1, revents, a)
      ensures (ok <==> a.newfd < 0 || a.space) && (ok ==> Visited(m, k + 1, revents))
    {
      ghost var before := m;
      ok := TryAccept(a.newfd, a.space);
      AcceptedIsVisited(before, m, revents);
    }

    method VisitLink(k: nat, revents: seq<Revents>, a: Answers)
      requires Valid() && k < |revents| && Visited(m, k, revents) && pollfds[k].fd != socket
      modifies this`head, this`tail, this`count, this`links, this`log, this`m, m.live
      ensures Valid() && old(log) <= log && Visited(m, k + 1, revents) && m.live <= old(m.live)
      ensures m.ever == old(m.ever) && Undone(m.round) == Undone(old(m.round)) && m.polls == old(m.polls)
      ensures revents[k].gotIn ==> Began(Input(pollcs[k]))
    {
      var link := pollcs[k];
      MayServe(m, k, revents);
      Serve(link, revents[k], a.received(link), a.accepted(link));
      ServedIsVisited(old(m), m, k, revents);
    }

    /** The state of the dispatch loop at index k; it has been left if ok is false. */
    ghost predicate Dispatching(ok: bool, k: nat, revents: seq<Revents>, a: Answers, mm: Summary, listened: bool)
      reads this`socketok, this`m, this`pollfds, this`pollcs, pollfds, pollcs
    {
      && k <= |revents| && (ok ==> Visited(m, k, revents)) && Since(mm, listened, k, revents, a)
      && (ok <==> !Knocked(k, revents) || a.newfd < 0 || a.space)
    }

    /** The body of the dispatch loop for one index. */
    method Visit(k: nat, revents: seq<Revents>, a: Answers, ghost mm: Summary, ghost listened: bool) returns (ok: bool)
      requires Valid() && k < |revents| && Dispatching(true, k, revents, a, mm, listened) && a.newfd != socket
      modifies this`socketok, this`head, this`tail, this`count, this`links, this`log, this`m, m.live
      ensures Valid() && old(log) <= log && fresh(m.live - old(m.live))
      ensures Dispatching(ok, k + 1, revents, a, mm, listened)
    {
      ok := true;
      if revents[k].Any() {
        if pollfds[k].fd == socket {
          ok := VisitSocket(k, revents, a, mm, listened);
        } else {
          VisitLink(k, revents, a);
        }
      } else {
        SkippedIsVisited(m, k, revents);
      }
    }

    method DispatchAll(revents: seq<Revents>, a: Answers, ghost mm: Summary, ghost listened: bool) returns (ok: bool)
      requires Valid() && Dispatching(true, 0, revents, a, mm, listened) && a.newfd != socket
      modifies this`socketok, this`head, this`tail, this`count, this`links, this`log, this`m, m.live
      ensures Valid() && old(log) <= log && fresh(m.live - old(m.live))
      ensures exists k :: (ok ==> k == |revents|) && Dispatching(ok, k, revents, a, mm, listened)
    {
      ok := true;
      var k := 0;
      while k < |revents| && ok
        invariant Valid() && old(log) <= log && fresh(m.live - old(m.live))
        invariant k <= |revents| && Dispatching(ok, k, revents, a, mm, listened)
      {
        ok := Visit(k, revents, a, mm, listened);
        k := k + 1;
      }
    }

    /** The dispatch loop. When it is through, the input handler has been called for exactly the
        links with reported input, exactly the links that were reported to be writable have been
        written to, each once and in the order of the list, and accept has been called if there
        was an event on the listening socket. */
    method Dispatch(revents: seq<Revents>, a: Answers) returns (ok: bool)
      requires Valid() && revents != [] && Visited(m, 0, revents) && a.newfd != socket
      modifies this`socketok, this`head, this`tail, this`count, this`links, this`log, this`m, m.live
      ensures Valid() && old(log) <= log && fresh(m.live - old(m.live))
      ensures (ok <==> !GotKnock(revents) || a.newfd < 0 || a.space) && (ok ==> m.round.Complete())
      ensures Since(old(m), old(socketok), |revents|, revents, a)
    {
      ok := DispatchAll(revents, a, m, socketok);
    }

    lemma ReadyIsVisited(revents: seq<Revents>, a: Answers)
      requires ListOk() && Mirrored() && PollsOk() && Snapshot(|revents|, links) && AnsweredBy(revents, a) && Asking(m)
      ensures var e := Ready(ReportOf(revents));
              && MayFollow(m, e) && Visited(With(m, e), 0, revents)
              && Answered(With(m, e).round, a) && Question(With(m, e).round) == Question(m.round)
    {
      ReportIsAnswer(revents, a);
      SnapshotIsPending(revents, a);
      forall j | 0 <= j < |revents|
        ensures Servable(With(m, Ready(ReportOf(revents))), pollfds[j], pollcs[j], revents[j])
      {
        assert Servable(m, pollfds[j], pollcs[j], revents[j]);
      }
    }

    /** What one round has done when it is complete. */
    ghost predicate Answering(mm: Summary, listened: bool, a: Answers)
      reads this`socketok, this`m
    {
      && Answered(m.round, a) && Question(m.round) == Question(mm.round) && m.polls == mm.polls
      && Accepting(mm, listened, a)
    }

    /** If there was an event on the listening socket, accept was called: either there is a new
        connection or the socket is given up. */
    ghost predicate Accepting(mm: Summary, listened: bool, a: Answers)
      reads this`socketok, this`m
    {
      var accept := m.round.report.accept;
      && socketok == (listened && !(accept && a.newfd < 0))
      && Welcomed(mm, m, accept && a.newfd >= 0 && a.space, a.newfd)
    }

    /** The call of poll and the dispatch of its events. */
    method Await(n: nat, a: Answers) returns (outcome: Outcome)
      requires Valid() && PollsOk() && n > 0 && Snapshot(n, links) && Asking(m) && a.newfd != socket
      modifies this`socketok, this`head, this`tail, this`count, this`links, this`log, this`m, m.live
      ensures Valid() && old(log) <= log && fresh(m.live - old(m.live))
      ensures outcome != Finished && (outcome == PollFailed <==> a.result <= 0)
      ensures outcome == OutOfMemory ==> !a.space
      ensures outcome == PollFailed ==> m.polls == old(m.polls)
      ensures outcome == StillRunning ==> m.round.Complete()
      ensures outcome != PollFailed ==> Answering(old(m), old(socketok), a)
    {
      var revents := Poll(n, a);
      if a.result <= 0 {
        outcome := PollFailed;
      } else {
        var ok := Answer(revents, a);
        outcome := if ok then StillRunning else OutOfMemory;
      }
    }

    /** The reaction to the answer of poll. */
    method Answer(revents: seq<Revents>, a: Answers) returns (ok: bool)
      requires Valid() && PollsOk() && revents != [] && Snapshot(|revents|, links) && AnsweredBy(revents, a)
      requires Asking(m) && a.newfd != socket
      modifies this`socketok, this`head, this`tail, this`count, this`links, this`log, this`m, m.live
      ensures Valid() && old(log) <= log && fresh(m.live - old(m.live))
      ensures (!ok ==> !a.space) && (ok ==> m.round.Complete())
      ensures Answering(old(m), old(socketok), a)
    {
      ghost var mm := m;
      NoteReady(revents, a);
      ok := DispatchAnswer(revents, a, mm);
    }

    ghost method NoteReady(revents: seq<Revents>, a: Answers)
      requires Valid() && PollsOk() && Snapshot(|revents|, links) && AnsweredBy(revents, a) && Asking(m)
      modifies this`log, this`m
      ensures Valid() && old(log) <= log && Visited(m, 0, revents) && m.live == old(m.live) && m.ever == old(m.ever)
      ensures Answered(m.round, a) && Question(m.round) == Question(old(m.round)) && m.polls == old(m.polls)
    {
      ReadyIsVisited(revents, a);
      Note(Ready(ReportOf(revents)));
    }

    method DispatchAnswer(revents: seq<Revents>, a: Answers, ghost mm: Summary) returns (ok: bool)
      requires Valid() && revents != [] && Visited(m, 0, revents) && a.newfd != socket
      requires Answered(m.round, a) && Question(m.round) == Question(mm.round) && m.polls == mm.polls && m.ever == mm.ever
      modifies this`socketok, this`head, this`tail, this`count, this`links, this`log, this`m, m.live
      ensures Valid() && old(log) <= log && fresh(m.live - old(m.live))
      ensures (!ok ==> !a.space) && (ok ==> m.round.Complete())
      ensures Answering(mm, old(socketok), a)
    {
      ok := Dispatch(revents, a);
    }

    /** All events that poll has reported have been served, and the links that were done before
        are gone or poll was asked about their new output. */
    ghost predicate RoundFrom(m0: Summary, listened: bool, a: Answers)
      reads this`socketok, this`m
    {
      && m.round.Complete() && Answered(m.round, a) && m.polls == m0.polls + 1
      && Accepting(m0, listened, a)
      && (m0.live * m0.eof - m0.pending) * m.live <= m.round.wantOut
    }

    /** Why the main loop ends, or what its round has done. */
    ghost predicate RoundOutcome(outcome: Outcome, m0: Summary, listened: bool, a: Answers)
      reads this`socketok, this`links, this`m
    {
      match outcome
      case Finished => !socketok && links == []
      case PollFailed => a.result <= 0 && m.polls == m0.polls + 1
      case OutOfMemory => !a.memory || !a.space
      case StillRunning => RoundFrom(m0, listened, a)
    }

    method AwaitFrom(n: nat, a: Answers, ghost m0: Summary) returns (outcome: Outcome)
      requires Valid() && PollsOk() && n > 0 && Snapshot(n, links) && SetUpFrom(m0, m) && a.newfd != socket
      modifies this`socketok, this`head, this`tail, this`count, this`links, this`log, this`m, m.live
      ensures Valid() && PollsOk() && old(log) <= log && fresh(m.live - m0.live)
      ensures unchanged(this`pollfds, this`pollcs)
      ensures RoundOutcome(outcome, m0, old(socketok), a)
    {
      outcome := Await(n, a);
      forall c | outcome == StillRunning && c in m0.live && c in m0.eof && c !in m0.pending && c in m.live
        ensures c in m.round.wantOut
      {
        assert c in old(m.live);
      }
    }

    /** One iteration of the main loop. */
    method Round(a: Answers) returns (outcome: Outcome)
      requires Valid() && PollsOk() && m.round.Complete() && a.newfd != socket
      modifies this, m.live, pollfds, pollcs
      ensures Valid() && PollsOk() && old(log) <= log && fresh(m.live - old(m.live))
      ensures pollfds == old(pollfds) || fresh(pollfds)
      ensures pollcs == old(pollcs) || fresh(pollcs)
      ensures RoundOutcome(outcome, old(m), old(socketok), a)
    {
      ghost var m0 := m;
      var n, ok := SetupPolls(a.memory);
      if n > 0 {
        outcome := AwaitFrom(n, a, m0);
        assert fresh(m.live - m0.live);
      } else {
        outcome := if ok then Finished else OutOfMemory;
      }
    }

    /** The main loop, for as many rounds as there are answers. It ends only when the socket has
        failed and the list is empty, when poll fails, or for lack of memory. ends: the length of
        the log at the end of each round; every one of them was complete. */
    method Run(world: seq<Answers>) returns (outcome: Outcome, ghost ends: seq<nat>)
      requires Valid() && PollsOk() && m.round.Complete()
      requires forall i :: 0 <= i < |world| ==> world[i].newfd != socket
      modifies this, m.live, pollfds, pollcs
      ensures Valid() && PollsOk() && old(log) <= log && |ends| <= |world|
      ensures RoundsDone(log, ends, world, old(m).polls)
      ensures outcome == Finished ==> !socketok && links == []
      ensures outcome == PollFailed ==> |ends| < |world| && world[|ends|].result <= 0
      ensures outcome == OutOfMemory ==> |ends| < |world| && (!world[|ends|].memory || !world[|ends|].space)
      ensures outcome == StillRunning ==> |ends| == |world| && m.polls == old(m.polls) + |world|
    {
      outcome, ends := StillRunning, [];
      var i := 0;
      ghost var polls := m.polls;
      while i < |world| && outcome == StillRunning
        invariant Valid() && PollsOk() && old(log) <= log && fresh(m.live - old(m.live))
        invariant pollfds == old(pollfds) || fresh(pollfds)
        invariant pollcs == old(pollcs) || fresh(pollcs)
        invariant i <= |world| && RoundsDone(log, ends, world, polls)
        invariant LoopOutcome(outcome, i, |ends|, world)
        invariant outcome == StillRunning ==> m.round.Complete() && m.polls == polls + i
      {
        outcome, ends := RecordedRound(world, ends, polls, i);
        i := i + 1;
      }
    }

    method RecordedRound(world: seq<Answers>, ghost ends: seq<nat>, ghost polls: nat, i: nat)
      returns (outcome: Outcome, ghost ends': seq<nat>)
      requires Valid() && PollsOk() && m.round.Complete() && m.polls == polls + i && |ends| == i < |world|
      requires RoundsDone(log, ends, world, polls) && world[i].newfd != socket
      modifies this, m.live, pollfds, pollcs
      ensures Valid() && PollsOk() && old(log) <= log && fresh(m.live - old(m.live))
      ensures pollfds == old(pollfds) || fresh(pollfds)
      ensures pollcs == old(pollcs) || fresh(pollcs)
      ensures RoundsDone(log, ends', world, polls) && LoopOutcome(outcome, i + 1, |ends'|, world)
      ensures outcome == StillRunning ==> m.round.Complete() && m.polls == polls + i + 1
    {
      outcome := Round(world[i]);
      RoundsStayDone(old(log), log, ends, world, polls);
      ends' := ends;
      if outcome == StillRunning {
        OneMoreRound(log, m, ends, world, polls);
        ends' := ends + [|log|];
      }
    }

    ghost predicate LoopOutcome(outcome: Outcome, i: nat, done: nat, world: seq<Answers>)
      reads this`socketok, this`links
    {
      match outcome
      case StillRunning => done == i
      case Finished => !socketok && links == []
      case PollFailed => done < |world| && world[done].result <= 0
      case OutOfMemory => done < |world| && (!world[done].memory || !world[done].space)
    }

    // -------------------------------------------------------------- a late call

    /** A round in which only accept is called, in a loop without open handler. */
    method AcceptQuietly(newfd: int) returns (link: Connection)
      requires Valid() && socketok && newfd != socket && m.round.Complete() && m.live * m.eof == {}
      modifies this`head, this`tail, this`count, this`links, this`log, this`m, links`next
      modifies this`pollfds, this`pollcs, this`pollfdslen
      ensures Valid() && m.round.Complete() && m.live * m.eof == {}
      ensures fresh(link) && !link.eof && links == old(links) + [link]
    {
      ghost var n := StartRound();
      Note(Ready(Report([], [], true)));
      link := Admit(newfd);
      OnlyEver(old(log), link);
    }

    /** setup_polls with enough memory in a loop in which no link is at end of file */
    method StartRound() returns (n: nat)
      requires Valid() && socketok && m.round.Complete() && m.live * m.eof == {}
      modifies this`log, this`m, this`pollfds, this`pollcs, this`pollfdslen
      ensures Valid() && PollsOk() && fresh(pollfds) && fresh(pollcs)
      ensures SetUpFrom(old(m), m) && m.live == old(m.live) && m.eof == old(m.eof)
      ensures m.round.listening && Snapshot(n, links)
    {
      ghost var m0 := m;
      NoteSetUp();
      Grow(count + 1);
      n := Fill(m0);
      assert m.live == m0.live && m.eof == m0.eof && SetUpFrom(m0, m);
    }

    ghost method NoteSetUp()
      requires Valid() && m.round.Complete() && m.live * m.eof == {}
      modifies this`log, this`m
      ensures Valid() && old(log) <= log && Cleared(old(m), m) && m.live == old(m.live) && m.eof == old(m.eof)
    {
      Note(SetUp);
    }

    /** What poll reports when both links have input, and the visit of the listening socket. */
    lemma TwoInputs(first: Connection, second: Connection, revents: seq<Revents>)
      requires ListOk() && Mirrored() && PollsOk() && Snapshot(3, links) && Asking(m) && m.round.listening
      requires links == [first, second] && m.live * m.eof == {}
      requires revents == [Revents(false, false, false), Revents(true, false, false), Revents(true, false, false)]
      ensures MayFollow(m, Ready(ReportOf(revents))) && Visited(With(m, Ready(ReportOf(revents))), 1, revents)
      ensures Got(1, revents[1], false) && pollcs[1] == first
      ensures Got(2, revents[2], false) && pollcs[2] == second
    {
      assert Entry(1, links[0]) && Entry(2, links[1]);
      var none, input := Revents(false, false, false), Revents(true, false, false);
      var a := Answers(true, 2, none, (c: Connection) => input, -1, true, (c: Connection) => 1, (c: Connection) => 1);
      assert links[0] in m.live && links[0] !in m.live * m.eof;
      assert links[1] in m.live && links[1] !in m.live * m.eof;
      assert AnswerAt(0, a) == none && AnswerAt(1, a) == input && AnswerAt(2, a) == input;
      ReadyIsVisited(revents, a);
      SkippedIsVisited(With(m, Ready(ReportOf(revents))), 0, revents);
    }

    /** A round in which both links have input. */
    method PollTwo(first: Connection, second: Connection) returns (revents: seq<Revents>)
      requires Valid() && socketok && links == [first, second] && m.round.Complete() && m.live * m.eof == {}
      modifies this`log, this`m, this`pollfds, this`pollcs, this`pollfdslen
      ensures Valid() && fresh(pollfds) && fresh(pollcs) && m.live == old(m.live)
      ensures BothReady(first, second, revents)
    {
      var n := StartRound();
      revents := NoteTwo(first, second);
    }

    ghost predicate BothReady(first: Connection, second: Connection, revents: seq<Revents>)
      reads this`m, this`pollfds, this`pollcs, pollfds, pollcs
    {
      && |revents| == 3 && Visited(m, 1, revents) && !revents[1].gotOut
      && Got(1, revents[1], false) && pollcs[1] == first
      && Got(2, revents[2], false) && pollcs[2] == second
    }

    method NoteTwo(first: Connection, second: Connection) returns (revents: seq<Revents>)
      requires Valid() && PollsOk() && Snapshot(3, links) && Asking(m) && m.round.listening
      requires links == [first, second] && m.live * m.eof == {}
      modifies this`log, this`m
      ensures Valid() && m.live == old(m.live) && BothReady(first, second, revents)
    {
      revents := [Revents(false, false, false), Revents(true, false, false), Revents(true, false, false)];
      TwoInputs(first, second, revents);
      Note(Ready(ReportOf(revents)));
    }

    /** An input handler that reads, as it has to, and then closes another link. */
    method ClosingHandler(link: Connection, other: Connection, nbytes: int)
      requires Valid() && MayFollow(m, Input(link)) && other in m.live && other != link
      modifies this`head, this`tail, this`count, this`links, this`log, this`m, m.live
      ensures Valid() && Served(old(m), m, link, Revents(true, false, false))
      ensures log != [] && log[|log| - 1] == Shut(other)
    {
      Note(Input(link));
      ReadAndClose(link, other, nbytes);
    }

    method ReadAndClose(link: Connection, other: Connection, nbytes: int)
      requires Valid() && link in m.live && MayFollow(m, Ended(link)) && other in m.live && other != link
      modifies this`head, this`tail, this`count, this`links, this`log, this`m, m.live
      ensures Valid() && Handled(old(m), m, link) && log != [] && log[|log| - 1] == Shut(other)
    {
      var result := ReadFromLink(link, nbytes);
      assert other in m.live;
      CloseLink(other);
      assert log[|log| - 1] == Shut(other);
    }

    /** The visit of an entry with input but without output whose handler is ClosingHandler and
        closes the link of the next entry. */
    method VisitClosing(k: nat, revents: seq<Revents>, nbytes: int)
      requires Valid() && k + 1 < |revents| && Visited(m, k, revents)
      requires Got(k, revents[k], false) && !revents[k].gotOut && Got(k + 1, revents[k + 1], false)
      modifies this`head, this`tail, this`count, this`links, this`log, this`m, m.live
      ensures Valid() && Visited(m, k + 1, revents) && m.live <= old(m.live)
      ensures log != [] && log[|log| - 1] == Shut(pollcs[k + 1])
    {
      MayServe(m, k, revents);
      assert Servable(m, pollfds[k + 1], pollcs[k + 1], revents[k + 1]);
      ClosingHandler(pollcs[k], pollcs[k + 1], nbytes);
      ServedIsVisited(old(m), m, k, revents);
    }

    method VisitAfter(k: nat, revents: seq<Revents>, a: Answers, ghost e: Event)
      requires Valid() && k < |revents| && Visited(m, k, revents) && Got(k, revents[k], false)
      requires log != [] && log[|log| - 1] == e
      modifies this`head, this`tail, this`count, this`links, this`log, this`m, m.live
      ensures InARow(log, e, Input(pollcs[k]))
    {
      ghost var j := |log| - 1;
      VisitLink(k, revents, a);
      assert log[j] == e && log[j + 1] == Input(pollcs[k]);
    }

    /** Both links have input, and the input handler of the first closes the second. */
    method PollAndClose(first: Connection, second: Connection, a: Answers)
      requires Valid() && socketok && links == [first, second] && m.round.Complete() && m.live * m.eof == {}
      modifies this, m.live
      ensures InARow(log, Shut(second), Input(second))
    {
      var revents := PollTwo(first, second);
      VisitBoth(first, second, revents, a);
    }

    method VisitBoth(first: Connection, second: Connection, revents: seq<Revents>, a: Answers)
      requires Valid() && BothReady(first, second, revents)
      modifies this`head, this`tail, this`count, this`links, this`log, this`m, m.live
      ensures InARow(log, Shut(second), Input(second))
    {
      VisitClosing(1, revents, 1);
      VisitAfter(2, revents, a, Shut(second));
    }

    // -------------------------------------------------------------- whole runs

    /** A connection whose close handler was called, and not after a write failure, had reached
        end of file and everything ever passed to write_to_link for it was sent. */
    lemma CleanlyClosed(c: Connection)
      requires Inner() && Closed(c, false) in log
      ensures c.eof && c.sent == c.queued
    {
      ClosedOnce(log, c);
      FailedWasClosed(log);
      var i :| 0 <= i < |log| && log[i] == Closed(c, false);
      TouchedWasOpened(log, i, c);
      GoneIffClosed(log, c);
    }

    /** When the list is empty every connection there ever was has been closed, and has been sent
        everything unless a write to it failed. */
    lemma AllServed(c: Connection)
      requires Inner() && links == [] && c in m.ever
      ensures Closed(c, false) in log || Closed(c, true) in log
      ensures c.sent == c.queued || Closed(c, true) in log
    {
      GoneIffClosed(log, c);
      FailedWasClosed(log);
    }
  }

  /** A whole run, for any listening socket, any answers of the system and any handlers that keep
      to their contract. */
  method RunMultiplexor(socket: int, world: seq<Answers>) returns (outcome: Outcome, mpx: Multiplexor, ghost ends: seq<nat>)
    requires forall i :: 0 <= i < |world| ==> world[i].newfd != socket
    ensures Orderly(mpx.log) && RoundsDone(mpx.log, ends, world, 0)
    ensures outcome == StillRunning ==> |ends| == |world| && Summarized(mpx.log).polls == |world|
    ensures forall c :: c in Summarized(mpx.log).ever ==> c.Conserved()
    ensures forall c :: c in Summarized(mpx.log).ever && Closed(c, false) in mpx.log ==> c.sent == c.queued
    ensures outcome == Finished ==>
              forall c :: c in Summarized(mpx.log).ever ==> Closed(c, false) in mpx.log || Closed(c, true) in mpx.log
  {
    mpx := new Multiplexor(socket);
    outcome, ends := mpx.Run(world);
    forall c | c in Summarized(mpx.log).ever
      ensures Closed(c, false) in mpx.log ==> c.sent == c.queued
      ensures outcome == Finished ==> Closed(c, false) in mpx.log || Closed(c, true) in mpx.log
    {
      if Closed(c, false) in mpx.log {
        mpx.CleanlyClosed(c);
      }
      if outcome == Finished {
        mpx.AllServed(c);
      }
    }
  }

  /** Two links are accepted, both have input, and the input handler of the first reads and
      closes the second: "the input handler will no longer be called" fails, as the dispatch loop
      goes on and calls the input handler of the second. */
  method LateInput(a: Answers) returns (mpx: Multiplexor, second: Connection)
    ensures InARow(mpx.log, Shut(second), Input(second))
  {
    mpx := new Multiplexor(3);
    var first := mpx.AcceptQuietly(4);
    second := mpx.AcceptQuietly(5);
    mpx.PollAndClose(first, second, a);
  }
}

/** What happens in the event loop, in the order in which it happens, and in which order it may. */
module EventLog {
  import opened Connections

  /** The answer of poll: the links that have input and those that can be written to, as far as
      this was asked for, and whether there is an event on the listening socket. */
  datatype Report = Report(inputs: seq<Connection>, outputs: seq<Connection>, accept: bool)

  datatype Event =
    | Opened(c: Connection)                             // accepted; call of the open handler
    | Refused                                           // accept or the allocation has failed
    | Input(c: Connection)                              // call of the input handler
    | Filed(c: Connection)                              // write_to_link with a nonempty buffer
    | Shut(c: Connection)                               // close_link
    | Ended(c: Connection)                              // read_from_link has found no more input
    | Wrote(c: Connection, n: nat, drained: bool)       // n bytes were sent, 0 if write has failed
    | Closed(c: Connection, failed: bool)               // removed; call of the close handler
    | SetUp                                             // setup_polls begins
    | Polled(listening: bool, wantIn: set<Connection>, wantOut: set<Connection>)   // setup_polls has ended
    | Ready(report: Report)                             // poll has returned

  datatype Stage = Serving | SettingUp | Waiting

  /** One iteration of the main loop. start: the length of the log when poll was called; due: the
      links that were done when setup_polls began; called, written, accepts: what has been done
      of the report */
  datatype Round = Round(stage: Stage, due: set<Connection>, start: nat,
                         listening: bool, wantIn: set<Connection>, wantOut: set<Connection>,
                         report: Report, called: seq<Connection>, written: seq<Connection>, accepts: nat)
  {
    /** Everything poll has reported has been served. */
    predicate Complete() {
      && stage == Serving
      && called == report.inputs && written == report.outputs
      && accepts == if report.accept then 1 else 0
    }
  }

  /** What a log amounts to. live: opened and not closed; ever: opened; failing: their last write
      has failed; failed: removed for this reason; eof: at end of file; pending: with output */
  datatype Summary = Summary(length: nat, polls: nat, live: set<Connection>, ever: set<Connection>,
                             failing: set<Connection>, failed: set<Connection>,
                             eof: set<Connection>, pending: set<Connection>, round: Round)

  const Beginning: Summary :=
    Summary(0, 0, {}, {}, {}, {}, {}, {}, Round(Serving, {}, 0, false, {}, {}, Report([], [], false), [], [], 0))

  ghost function With(m: Summary, e: Event): Summary {
    Effect(m, e).(length := m.length + 1)
  }

  ghost function Effect(m: Summary, e: Event): Summary {
    var r := m.round;
    match e
    case Opened(c) => m.(live := m.live + {c}, ever := m.ever + {c}, round := r.(accepts := r.accepts + 1))
    case Refused => m.(round := r.(accepts := r.accepts + 1))
    case Input(c) => m.(round := r.(called := r.called + [c]))
    case Filed(c) => m.(pending := m.pending + {c})
    case Shut(c) => m.(eof := m.eof + {c})
    case Ended(c) => m.(eof := m.eof + {c})
    case Wrote(c, n, drained) =>
      m.(failing := if n == 0 then m.failing + {c} else m.failing,
         pending := if drained then m.pending - {c} else m.pending,
         round := r.(written := r.written + [c]))
    case Closed(c, failed) => m.(live := m.live - {c}, failed := if failed then m.failed + {c} else m.failed)
    case SetUp => m.(round := r.(stage := SettingUp, due := m.live * m.eof - m.pending))
    case Polled(listening, wantIn, wantOut) =>
      m.(polls := m.polls + 1,
         round := r.(stage := Waiting, start := m.length + 1, listening := listening, wantIn := wantIn, wantOut := wantOut,
                     called := [], written := []))
    case Ready(report) => m.(round := r.(stage := Serving, report := report, called := [], written := [], accepts := 0))
  }

  predicate Distinct(cs: seq<Connection>) {
    forall i, j :: 0 <= i < j < |cs| ==> cs[i] != cs[j]
  }

  predicate Among(cs: seq<Connection>, all: set<Connection>) {
    forall i :: 0 <= i < |cs| ==> cs[i] in all
  }

  predicate IsNext(c: Connection, all: seq<Connection>, done: seq<Connection>) {
    |done| < |all| && all[|done|] == c
  }

  /** What the main loop may do next. Reported events are served in order and nothing else is;
      a new round begins only when all of them are served; a link is closed when it is at end of
      file and has no output, or after a failed write, and not otherwise; links that were done
      when setup_polls began are not polled again unless they have got new output; and poll is
      asked about the input of all links that are not at end of file and about the output of all
      that have some. */
  ghost predicate MayFollow(m: Summary, e: Event) {
    var r := m.round;
    match e
    case Opened(c) => r.stage == Serving && r.report.accept && r.accepts == 0 && c !in m.ever
    case Refused => r.stage == Serving && r.report.accept && r.accepts == 0
    case Input(c) => r.stage == Serving && c in m.live && IsNext(c, r.report.inputs, r.called)
    case Filed(c) => c in m.live
    case Shut(c) => c in m.live
    case Ended(c) => r.stage == Serving && c in m.live && r.called != [] && r.called[|r.called| - 1] == c
    case Wrote(c, n, drained) =>
      r.stage == Serving && c in m.live && c in m.pending && IsNext(c, r.report.outputs, r.written)
    case Closed(c, failed) => c in m.live && if failed then c in m.failing else c in m.eof && c !in m.pending
    case SetUp => r.Complete()
    case Polled(listening, wantIn, wantOut) =>
      && r.stage == SettingUp && r.due * m.live <= m.pending
      && wantIn == m.live - m.eof && wantOut == m.live * m.pending
    case Ready(report) =>
      && r.stage == Waiting && (report.accept ==> r.listening)
      && Distinct(report.inputs) && Among(report.inputs, r.wantIn)
      && Distinct(report.outputs) && Among(report.outputs, r.wantOut)
  }

  ghost function Summarized(log: seq<Event>): Summary {
    if log == [] then Beginning else With(Summarized(log[..|log| - 1]), log[|log| - 1])
  }

  ghost predicate Orderly(log: seq<Event>) {
    log == [] || (Orderly(log[..|log| - 1]) && MayFollow(Summarized(log[..|log| - 1]), log[|log| - 1]))
  }

  lemma OneMoreEvent(log: seq<Event>, e: Event)
    requires Orderly(log) && MayFollow(Summarized(log), e)
    ensures Orderly(log + [e]) && Summarized(log + [e]) == With(Summarized(log), e)
  {
    assert (log + [e])[..|log|] == log;
  }

  // ---------------------------------------------------------------- prefixes

  lemma {:induction false} OrderlyPrefix(log: seq<Event>, j: nat)
    requires Orderly(log) && j <= |log|
    ensures Orderly(log[..j])
    ensures j < |log| ==> MayFollow(Summarized(log[..j]), log[j]) && Summarized(log[..j + 1]) == With(Summarized(log[..j]), log[j])
  {
    if j == |log| {
      assert log[..j] == log;
    } else {
      var front := log[..|log| - 1];
      if j < |log| - 1 {
        OrderlyPrefix(front, j);
        assert front[..j] == log[..j] && front[..j + 1] == log[..j + 1];
      } else {
        assert log[..j + 1] == log;
      }
    }
  }

  lemma {:induction false} LengthIsLength(log: seq<Event>)
    ensures Summarized(log).length == |log|
  {
    if log != [] {
      LengthIsLength(log[..|log| - 1]);
    }
  }

  ghost predicate About(e: Event, c: Connection) {
    match e
    case Refused => false
    case SetUp => false
    case Polled(_, _, _) => false
    case Ready(_) => false
    case _ => e.c == c
  }

  // ---------------------------------------------------------------- the life of a connection

  lemma {:induction false} LiveWasOpened(log: seq<Event>)
    requires Orderly(log)
    ensures Summarized(log).live <= Summarized(log).ever
    ensures forall c :: c in Summarized(log).ever ==> Opened(c) in log
  {
    if log != [] {
      LiveWasOpened(log[..|log| - 1]);
      assert log == log[..|log| - 1] + [log[|log| - 1]];
    }
  }

  lemma {:induction false} OnlyEver(log: seq<Event>, c: Connection)
    requires Orderly(log) && c !in Summarized(log).ever
    ensures c !in Summarized(log).eof && c !in Summarized(log).pending
  {
    if log != [] {
      var front := log[..|log| - 1];
      LiveWasOpened(front);
      OnlyEver(front, c);
    }
  }

  lemma {:induction false} TouchedWasOpened(log: seq<Event>, i: nat, c: Connection)
    requires Orderly(log) && i < |log| && About(log[i], c)
    ensures c in Summarized(log).ever
  {
    var front := log[..|log| - 1];
    LiveWasOpened(front);
    if i < |log| - 1 {
      TouchedWasOpened(front, i, c);
    }
  }

  lemma {:induction false} NeverLiveAgain(log: seq<Event>, i: nat)
    requires Orderly(log) && i < |log| && log[i].Closed?
    ensures log[i].c !in Summarized(log).live
  {
    var front := log[..|log| - 1];
    if i < |log| - 1 {
      NeverLiveAgain(front, i);
      TouchedWasOpened(front, i, log[i].c);
    }
  }

  /** Of two events about one connection the later is not its opening and the earlier is not its
      closing: the open handler is called exactly once, before everything else, and the close
      handler at most once, after everything else. */
  lemma LifeCycle(log: seq<Event>, i: nat, j: nat, c: Connection)
    requires Orderly(log) && i < j < |log| && About(log[i], c) && About(log[j], c)
    ensures !log[j].Opened? && !log[i].Closed? && Opened(c) in log[..j]
  {
    var before := log[..j];
    OrderlyPrefix(log, j);
    LiveWasOpened(before);
    TouchedWasOpened(before, i, c);
    if log[i].Closed? {
      NeverLiveAgain(before, i);
    }
  }

  lemma {:induction false} FailedWasClosed(log: seq<Event>)
    ensures forall c :: c in Summarized(log).failed ==> Closed(c, true) in log
  {
    if log != [] {
      FailedWasClosed(log[..|log| - 1]);
      assert log == log[..|log| - 1] + [log[|log| - 1]];
    }
  }

  /** An opened connection has left the list exactly if its close handler has been called. */
  lemma {:induction false} GoneIffClosed(log: seq<Event>, c: Connection)
    requires Orderly(log) && c in Summarized(log).ever
    ensures c !in Summarized(log).live <==> Closed(c, true) in log || Closed(c, false) in log
  {
    var front, e := log[..|log| - 1], log[|log| - 1];
    assert log == front + [e];
    LiveWasOpened(front);
    if c in Summarized(front).ever {
      GoneIffClosed(front, c);
    } else if Closed(c, true) in front || Closed(c, false) in front {
      var i :| 0 <= i < |front| && (front[i] == Closed(c, true) || front[i] == Closed(c, false));
      TouchedWasOpened(front, i, c);
    }
  }

  /** A connection is not closed both after a write failure and without one. */
  lemma ClosedOnce(log: seq<Event>, c: Connection)
    requires Orderly(log) && Closed(c, false) in log
    ensures Closed(c, true) !in log
  {
    var i :| 0 <= i < |log| && log[i] == Closed(c, false);
    forall j | 0 <= j < |log|
      ensures log[j] != Closed(c, true)
    {
      if i < j && log[j] == Closed(c, true) {
        LifeCycle(log, i, j, c);
      }
      if j < i && log[j] == Closed(c, true) {
        LifeCycle(log, j, i, c);
      }
    }
  }

  /** When a link is closed without a write failure it is at end of file and without output. */
  lemma ClosedWhenDone(log: seq<Event>, i: nat, c: Connection)
    requires Orderly(log) && i < |log| && log[i] == Closed(c, false)
    ensures c in Summarized(log[..i]).eof && c !in Summarized(log[..i]).pending
  {
    OrderlyPrefix(log, i);
  }

  // ---------------------------------------------------------------- rounds

  lemma {:induction false} StartOfRound(log: seq<Event>)
    ensures Summarized(log).round.start <= |log|
    ensures Summarized(log).round.start > 0 ==> log[Summarized(log).round.start - 1].Polled?
    ensures forall i :: Summarized(log).round.start <= i < |log| ==> !log[i].Polled?
  {
    LengthIsLength(log);
    if log != [] {
      StartOfRound(log[..|log| - 1]);
      LengthIsLength(log[..|log| - 1]);
    }
  }

  /** The input handlers called in the present round are the events of this kind in it. */
  lemma {:induction false} CalledAre(log: seq<Event>, c: Connection)
    requires Orderly(log)
    ensures Summarized(log).round.start <= |log|
    ensures c in Summarized(log).round.called <==> Input(c) in log[Summarized(log).round.start..]
  {
    LengthIsLength(log);
    if log != [] {
      var front, e := log[..|log| - 1], log[|log| - 1];
      var start := Summarized(log).round.start;
      CalledAre(front, c);
      if e.Ready? {
        NothingCalledYet(front);
      }
      if !e.Polled? {
        assert log[start..] == front[start..] + [e];
      }
    }
  }

  /** Between the call of poll and its return no handler is called. */
  lemma {:induction false} NothingCalledYet(log: seq<Event>)
    requires Orderly(log) && Summarized(log).round.stage == Waiting
    ensures Summarized(log).round.called == []
  {
    if !log[|log| - 1].Polled? {
      NothingCalledYet(log[..|log| - 1]);
    }
  }

  /** What is called is a prefix of what was reported. */
  lemma {:induction false} CalledWasReported(log: seq<Event>)
    requires Orderly(log)
    ensures var r := Summarized(log).round;
            r.stage != Waiting ==> r.called <= r.report.inputs && r.written <= r.report.outputs
  {
    if log != [] {
      CalledWasReported(log[..|log| - 1]);
    }
  }

  /** Nothing is reported twice. */
  lemma {:induction false} ReportedOnce(log: seq<Event>)
    requires Orderly(log)
    ensures Distinct(Summarized(log).round.report.inputs) && Distinct(Summarized(log).round.report.outputs)
  {
    if log != [] {
      ReportedOnce(log[..|log| - 1]);
    }
  }

  ghost predicate WrittenIn(events: seq<Event>, c: Connection) {
    exists i :: 0 <= i < |events| && events[i].Wrote? && events[i].c == c
  }

  lemma WrittenSnoc(events: seq<Event>, e: Event, c: Connection)
    ensures WrittenIn(events + [e], c) <==> WrittenIn(events, c) || (e.Wrote? && e.c == c)
  {
    if WrittenIn(events, c) {
      var i :| 0 <= i < |events| && events[i].Wrote? && events[i].c == c;
      assert (events + [e])[i] == events[i];
    }
    assert (events + [e])[|events|] == e;
  }

  lemma {:induction false} NothingWrittenYet(log: seq<Event>)
    requires Orderly(log) && Summarized(log).round.stage == Waiting
    ensures Summarized(log).round.written == []
  {
    if !log[|log| - 1].Polled? {
      NothingWrittenYet(log[..|log| - 1]);
    }
  }

  /** The links written to in the present round are those of the events of this kind in it. */
  lemma {:induction false} WrittenAre(log: seq<Event>, c: Connection)
    requires Orderly(log)
    ensures Summarized(log).round.start <= |log|
    ensures c in Summarized(log).round.written <==> WrittenIn(log[Summarized(log).round.start..], c)
  {
    LengthIsLength(log);
    if log != [] {
      var front, e := log[..|log| - 1], log[|log| - 1];
      var start := Summarized(log).round.start;
      WrittenAre(front, c);
      if e.Ready? {
        NothingWrittenYet(front);
      }
      if !e.Polled? {
        assert log[start..] == front[start..] + [e];
        WrittenSnoc(front[start..], e, c);
      }
    }
  }

  /** Before the next round begins, exactly the links with reported input have got a call of
      their input handler, and exactly those that were reported to be writable have been written
      to. */
  lemma RoundIsServed(log: seq<Event>, k: nat, c: Connection)
    requires Orderly(log) && k < |log| && log[k] == SetUp
    ensures var r := Summarized(log[..k]).round;
            && r.start <= k
            && (Input(c) in log[r.start..k] <==> c in r.report.inputs)
            && (WrittenIn(log[r.start..k], c) <==> c in r.report.outputs)
  {
    OrderlyPrefix(log, k);
    CalledAre(log[..k], c);
    WrittenAre(log[..k], c);
    assert log[..k][Summarized(log[..k]).round.start..] == log[Summarized(log[..k]).round.start..k];
  }

  // ---------------------------------------------------------------- input after close_link

  /** Between two calls of the input handler of a link poll has been called. */
  lemma OncePerSnapshot(log: seq<Event>, i: nat, j: nat, c: Connection)
    requires Orderly(log) && i < j < |log| && log[i] == log[j] == Input(c)
    ensures exists k :: i < k < j && log[k].Polled?
  {
    OrderlyPrefix(log, j);
    var before := log[..j];
    var start := NotCalledYet(before, c);
    NotBehind(before, start, i);
    assert log[start - 1].Polled?;
  }

  lemma NotCalledYet(log: seq<Event>, c: Connection) returns (start: nat)
    requires Orderly(log) && MayFollow(Summarized(log), Input(c))
    ensures start <= |log| && (start > 0 ==> log[start - 1].Polled?) && Input(c) !in log[start..]
  {
    start := Summarized(log).round.start;
    StartOfRound(log);
    CalledAre(log, c);
    NotYetCalled(Summarized(log).round, log, c);
  }

  lemma NotYetCalled(r: Round, log: seq<Event>, c: Connection)
    requires Orderly(log) && r == Summarized(log).round && r.stage == Serving && IsNext(c, r.report.inputs, r.called)
    ensures c !in r.called
  {
    CalledWasReported(log);
    ReportedOnce(log);
    if c in r.called {
      NotNextTwice(c, r.report.inputs, r.called);
    }
  }

  lemma NotNextTwice(c: Connection, all: seq<Connection>, done: seq<Connection>)
    requires Distinct(all) && done <= all && c in done
    ensures !IsNext(c, all, done)
  {
    var i :| 0 <= i < |done| && done[i] == c;
    assert all[i] == c;
  }

  lemma NotBehind(log: seq<Event>, from: nat, i: nat)
    requires from <= |log| && i < |log| && log[i] !in log[from..]
    ensures i < from
  {
    assert forall k :: from <= k < |log| ==> log[from..][k - from] == log[k];
  }

  lemma {:induction false} EndStays(log: seq<Event>, i: nat, c: Connection)
    requires i < |log| && (log[i] == Shut(c) || log[i] == Ended(c))
    ensures c in Summarized(log).eof
  {
    if i < |log| - 1 {
      EndStays(log[..|log| - 1], i, c);
    }
  }

  lemma {:induction false} NotWantedAfterShut(log: seq<Event>, i: nat, k: nat, c: Connection)
    requires Orderly(log) && i < k < |log| && log[k].Polled? && (log[i] == Shut(c) || log[i] == Ended(c))
    ensures c !in Summarized(log).round.wantIn
  {
    var front := log[..|log| - 1];
    EndStays(front, i, c);
    if k < |log| - 1 {
      NotWantedAfterShut(front, i, k, c);
    }
  }

  lemma {:induction false} ReportedWasWanted(log: seq<Event>, c: Connection)
    requires Orderly(log) && Summarized(log).round.stage != Waiting && c in Summarized(log).round.report.inputs
    ensures c in Summarized(log).round.wantIn
  {
    if log != [] && !log[|log| - 1].Ready? {
      ReportedWasWanted(log[..|log| - 1], c);
    }
  }

  /** The input handler is not called for a link any more once setup_polls has ended after
      close_link. */
  lemma NoInputAfterShut(log: seq<Event>, i: nat, k: nat, j: nat, c: Connection)
    requires Orderly(log) && i < k < j < |log| && log[i] == Shut(c) && log[k].Polled?
    ensures log[j] != Input(c)
  {
    OrderlyPrefix(log, j);
    NotWantedAfterShut(log[..j], i, k, c);
    if log[j] == Input(c) {
      ReportedWasWanted(log[..j], c);
    }
  }

  lemma NotTwice(log: seq<Event>, start: nat, i: nat, c: Connection)
    requires Orderly(log) && start <= i <= |log| && Input(c) in log[start..i]
    requires forall k :: start <= k < |log| ==> !log[k].Polled?
    ensures Input(c) !in log[i..]
  {
    var k :| 0 <= k < |log[start..i]| && log[start..i][k] == Input(c);
    forall j | i <= j < |log|
      ensures log[j] != Input(c)
    {
      if log[j] == Input(c) {
        OncePerSnapshot(log, start + k, j, c);
      }
    }
  }

  lemma TwoParts(log: seq<Event>, from: nat, i: nat, e: Event)
    requires from <= i <= |log|
    ensures e in log[from..] <==> e in log[from..i] || e in log[i..]
  {
    assert log[from..] == log[from..i] + log[i..];
  }

  lemma StillCalledIff(log: seq<Event>, i: nat, c: Connection)
    requires Orderly(log) && Summarized(log).round.start <= i <= |log|
    ensures Input(c) in log[i..] <==> c in Summarized(log).round.called && Input(c) !in log[Summarized(log).round.start..i]
  {
    var start := Summarized(log).round.start;
    CalledAre(log, c);
    TwoParts(log, start, i, Input(c));
    if Input(c) in log[start..i] {
      StartOfRound(log);
      NotTwice(log, start, i, c);
    }
  }

  /** In the round in which close_link is called for a link its input handler is still called
      afterwards if and only if its input has been reported and it was not called before. */
  lemma CalledAfterShutIff(log: seq<Event>, i: nat, k: nat, c: Connection)
    requires Orderly(log) && i < k < |log| && log[i] == Shut(c) && log[k] == SetUp
    requires Summarized(log[..k]).round.start <= i
    ensures var r := Summarized(log[..k]).round;
            Input(c) in log[i..k] <==> c in r.report.inputs && Input(c) !in log[r.start..i]
  {
    OrderlyPrefix(log, k);
    var before := log[..k];
    StillCalledIff(before, i, c);
    var start := Summarized(before).round.start;
    assert before[i..] == log[i..k];
    assert before[start..i] == log[start..i];
  }

  ghost predicate InARow(log: seq<Event>, a: Event, b: Event) {
    exists j :: 0 <= j < |log| - 1 && log[j] == a && log[j + 1] == b
  }
}

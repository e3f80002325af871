/** What sd_write, sd_read and sd_shutdown promise, for every run of the step system. */
module BufferProperties {
  import opened Bytes
  import opened BufferProtocol
  import opened BufferArguments

  // ---------------------------------------------------------------- streams

  /** The messages of the writers in the order in which they set the flag. */
  function Messages(s: State): seq<seq<byte>>
    requires InRange(s.calls, s.writers.order)
  {
    seq(|s.writers.order|, i requires 0 <= i < |s.writers.order| => s.calls[s.writers.order[i]].msg)
  }

  /** What each reader asked for, in the order in which they set the flag. */
  function Wanted(s: State): seq<nat>
    requires InRange(s.calls, s.readers.order)
  {
    seq(|s.readers.order|, i requires 0 <= i < |s.readers.order| => s.calls[s.readers.order[i]].n)
  }

  lemma TurnFacts(s: State, role: Role, i: nat)
    requires Inv(s) && i < |s.Side(role).order|
    ensures InRange(s.calls, s.Side(role).order)
    ensures var c := s.calls[s.Side(role).order[i]];
            && c.role == role && c.ticket == i && |c.moved| <= c.n && 0 < c.n
            && (role == Writer ==> c.n == |c.msg| && c.moved == c.msg[..|c.moved|])
            && (i < |s.Side(role).order| - 1 ==> |c.moved| == c.n)
  {
    OrderFacts(s, role);
    assert TurnOk(s, role, i) && CallOk(s, s.Side(role).order[i]);
  }

  /** The bytes ever copied in are whole messages in the order in which their writers got
      their turn, and then a prefix of the last one. */
  ghost predicate WholeMessages(s: State)
    requires InRange(s.calls, s.writers.order)
  {
    var messages := Messages(s);
    if messages == [] then s.writers.stream == []
    else
      var last := |messages| - 1;
      exists k :: 0 <= k <= |messages[last]| && s.writers.stream == Flatten(messages[..last]) + messages[last][..k]
  }

  /** The bytes ever copied out are what the readers got in the order of their turns; all but
      the last of them got all they wanted. */
  ghost predicate WholeReads(s: State)
    requires InRange(s.calls, s.readers.order)
  {
    var got := Moved(s.calls, s.readers.order);
    && s.readers.stream == Flatten(got)
    && forall k :: 0 <= k < |got| - 1 ==> |got[k]| == Wanted(s)[k]
  }

  lemma WritersKeepMessagesWhole(s: State)
    requires Inv(s) && InRange(s.calls, s.writers.order)
    ensures WholeMessages(s)
  {
    var order, sent, messages := s.writers.order, Moved(s.calls, s.writers.order), Messages(s);
    if order != [] {
      var last := |order| - 1;
      SentFacts(s);
      assert forall k :: 0 <= k < last ==> sent[k] == messages[k];
      assert sent[..last] == messages[..last];
      assert s.writers.stream == Flatten(sent[..last]) + sent[last];
    }
  }

  lemma ReadersGetWhatTheyWant(s: State)
    requires Inv(s) && InRange(s.calls, s.readers.order)
    ensures WholeReads(s)
  {
    var got := Moved(s.calls, s.readers.order);
    forall k | 0 <= k < |got| - 1
      ensures |got[k]| == Wanted(s)[k]
    {
      TurnFacts(s, Reader, k);
    }
  }

  /** The turns are turns of invocations: the messages are what sd_write was called with, and
      the lengths what sd_read was asked for. */
  ghost predicate TurnsOfInvocations(s: State, begun: seq<Action>)
    requires InRange(s.calls, s.writers.order) && InRange(s.calls, s.readers.order)
  {
    && |s.calls| == |begun| && (forall t :: 0 <= t < |begun| ==> begun[t].Begin?)
    && Messages(s) == MessagesOf(begun, s.writers.order)
    && Wanted(s) == LengthsOf(begun, s.readers.order)
    && (forall k :: 0 <= k < |s.writers.order| ==> begun[s.writers.order[k]].role == Writer)
    && (forall k :: 0 <= k < |s.readers.order| ==> begun[s.readers.order[k]].role == Reader)
  }

  lemma TurnsAlways(states: seq<State>, actions: seq<Action>, i: nat)
    requires IsRun(states, actions) && i < |states|
    requires InRange(states[i].calls, states[i].writers.order) && InRange(states[i].calls, states[i].readers.order)
    ensures TurnsOfInvocations(states[i], Begun(actions[..i]))
  {
    InvAlways(states, actions, i);
    ArgumentsAlways(states, actions, i);
    var s, begun := states[i], Begun(actions[..i]);
    forall k | 0 <= k < |s.writers.order|
      ensures s.calls[s.writers.order[k]].role == Writer
    {
      TurnFacts(s, Writer, k);
    }
    forall k | 0 <= k < |s.readers.order|
      ensures s.calls[s.readers.order[k]].role == Reader
    {
      TurnFacts(s, Reader, k);
    }
    assert forall t :: 0 <= t < |s.calls| ==> Carries(s.calls[t], begun[t]);
  }

  /** Write operations never mix, and no byte is lost, repeated or reordered: what has been
      copied in is what has been copied out followed by the contents of the ring, and it is
      whole messages passed to sd_write and a prefix of a last one. */
  lemma StreamRefinement(states: seq<State>, actions: seq<Action>, i: nat)
    requires IsRun(states, actions) && i < |states|
    ensures var s := states[i];
            && s.ring.Ok() && s.writers.stream == s.readers.stream + s.ring.Contents()
            && InRange(s.calls, s.writers.order) && WholeMessages(s)
            && InRange(s.calls, s.readers.order) && WholeReads(s)
            && TurnsOfInvocations(s, Begun(actions[..i]))
  {
    InvAlways(states, actions, i);
    WritersKeepMessagesWhole(states[i]);
    ReadersGetWhatTheyWant(states[i]);
    TurnsAlways(states, actions, i);
  }

  /** A call that returns true has transferred exactly the nbytes of its invocation, and a
      writer the very bytes it was called with. */
  lemma TrueMeansAll(states: seq<State>, actions: seq<Action>, i: nat, t: nat)
    requires IsRun(states, actions) && i < |states|
    requires t < |states[i].calls| && states[i].calls[t].pc == Done(true)
    ensures |states[i].calls| == |Begun(actions[..i])|
    ensures var c, a := states[i].calls[t], Begun(actions[..i])[t];
            && a.Begin? && c.role == a.role
            && |c.moved| == a.n
            && (a.role == Writer ==> c.moved == a.msg)
            && (a.n > 0 ==> 0 <= c.ticket < |states[i].Side(c.role).order|
                            && states[i].Side(c.role).order[c.ticket] == t)
  {
    ArgumentsAlways(states, actions, i);
    InvAlways(states, actions, i);
    assert CallOk(states[i], t);
  }

  /** A call returns false only after terminating was set, and never if it has nothing to do. */
  lemma FalseMeansShutdown(states: seq<State>, actions: seq<Action>, i: nat, t: nat)
    requires IsRun(states, actions) && i < |states|
    requires t < |states[i].calls| && states[i].calls[t].pc == Done(false)
    ensures |states[i].calls| == |Begun(actions[..i])|
    ensures states[i].terminating && Begun(actions[..i])[t].Begin? && Begun(actions[..i])[t].n > 0
  {
    InvAlways(states, actions, i);
    ArgumentsAlways(states, actions, i);
    assert CallOk(states[i], t) && Carries(states[i].calls[t], Begun(actions[..i])[t]);
  }

  /** Every reader asks for as many bytes as the writer with the same number sends. */
  ghost predicate Matched(s: State) {
    && InRange(s.calls, s.writers.order) && InRange(s.calls, s.readers.order)
    && forall k :: 0 <= k < |Messages(s)| && k < |Wanted(s)| ==> Wanted(s)[k] == |Messages(s)[k]|
  }

  /** Pieces that begin what was sent, each as long as the message with its number, are those
      messages, if what was sent is full messages up to a last, shorter piece. */
  lemma FramedPieces(got: seq<seq<byte>>, rest: seq<byte>, sent: seq<seq<byte>>, messages: seq<seq<byte>>)
    requires |sent| == |messages| && Flatten(sent) == Flatten(got) + rest
    requires forall j :: 0 <= j < |got| ==> |got[j]| > 0
    requires forall j :: 0 <= j < |got| && j < |messages| ==> |got[j]| == |messages[j]|
    requires forall j :: 0 <= j < |sent| ==> |sent[j]| <= |messages[j]| && sent[j] == messages[j][..|sent[j]|]
    requires forall j :: 0 <= j < |sent| - 1 ==> |sent[j]| == |messages[j]|
    ensures |got| <= |messages| && forall j :: 0 <= j < |got| ==> got[j] == messages[j]
  {
    EnoughPieces(got, sent);
    SameLengthsSamePieces(got, sent, rest);
  }

  lemma SentFacts(s: State)
    requires Inv(s) && InRange(s.calls, s.writers.order)
    ensures var sent, messages := Moved(s.calls, s.writers.order), Messages(s);
            && (forall j :: 0 <= j < |sent| ==> |sent[j]| <= |messages[j]| && sent[j] == messages[j][..|sent[j]|])
            && (forall j :: 0 <= j < |sent| - 1 ==> |sent[j]| == |messages[j]|)
  {
    forall j | 0 <= j < |s.writers.order|
      ensures var sent, messages := Moved(s.calls, s.writers.order), Messages(s);
              && |sent[j]| <= |messages[j]| && sent[j] == messages[j][..|sent[j]|]
              && (j < |sent| - 1 ==> |sent[j]| == |messages[j]|)
    {
      TurnFacts(s, Writer, j);
    }
  }

  lemma GotFacts(s: State, k: nat)
    requires Inv(s) && InRange(s.calls, s.readers.order) && k < |s.readers.order|
    requires |Moved(s.calls, s.readers.order)[k]| == Wanted(s)[k]
    ensures forall j :: 0 <= j <= k ==> |Moved(s.calls, s.readers.order)[j]| == Wanted(s)[j] > 0
  {
    forall j | 0 <= j <= k
      ensures |Moved(s.calls, s.readers.order)[j]| == Wanted(s)[j] > 0
    {
      TurnFacts(s, Reader, j);
    }
  }

  lemma FramedTurn(s: State, k: nat)
    requires Inv(s) && Matched(s) && k < |s.readers.order|
    requires |Moved(s.calls, s.readers.order)[k]| == Wanted(s)[k]
    ensures k < |Messages(s)| && Moved(s.calls, s.readers.order)[k] == Messages(s)[k]
  {
    var got, sent := Moved(s.calls, s.readers.order), Moved(s.calls, s.writers.order);
    SentFacts(s);
    GotFacts(s, k);
    FramedPrefix(got, s.ring.Contents(), sent, Messages(s), k);
  }

  lemma FramedPrefix(got: seq<seq<byte>>, unread: seq<byte>, sent: seq<seq<byte>>, messages: seq<seq<byte>>, k: nat)
    requires |sent| == |messages| && k < |got| && Flatten(sent) == Flatten(got) + unread
    requires forall j :: 0 <= j <= k ==> |got[j]| > 0 && (j < |messages| ==> |got[j]| == |messages[j]|)
    requires forall j :: 0 <= j < |sent| ==> |sent[j]| <= |messages[j]| && sent[j] == messages[j][..|sent[j]|]
    requires forall j :: 0 <= j < |sent| - 1 ==> |sent[j]| == |messages[j]|
    ensures k < |messages| && got[k] == messages[k]
  {
    var a, b := got[..k + 1], got[k + 1..];
    assert got == a + b;
    FlattenAppend(a, b);
    assert Flatten(sent) == Flatten(a) + (Flatten(b) + unread);
    assert forall j :: 0 <= j < |a| ==> a[j] == got[j];
    FramedPieces(a, Flatten(b) + unread, sent, messages);
  }

  /** Then the k-th read that completes has exactly the k-th message, however small the ring. */
  lemma FramedReads(states: seq<State>, actions: seq<Action>, i: nat, t: nat)
    requires IsRun(states, actions) && i < |states| && Matched(states[i])
    requires t < |states[i].calls| && states[i].calls[t].role == Reader
    requires states[i].calls[t].n > 0 && states[i].calls[t].pc == Done(true)
    ensures var s := states[i];
            var k := s.calls[t].ticket;
            && InRange(s.calls, s.writers.order) && InRange(s.calls, s.readers.order)
            && TurnsOfInvocations(s, Begun(actions[..i]))
            && 0 <= k < |s.writers.order| && s.calls[t].moved == Begun(actions[..i])[s.writers.order[k]].msg
  {
    InvAlways(states, actions, i);
    TurnsAlways(states, actions, i);
    assert CallOk(states[i], t);
    FramedTurn(states[i], states[i].calls[t].ticket);
  }

  /** Nonempty pieces of given lengths fit into a list of pieces that are no longer,
      and shorter only at the end, only if the list has as many and the last one is full. */
  lemma EnoughPieces(a: seq<seq<byte>>, b: seq<seq<byte>>)
    requires forall j :: 0 <= j < |a| ==> |a[j]| > 0
    requires forall j :: 0 <= j < |a| && j < |b| ==> |b[j]| <= |a[j]| && (j < |b| - 1 ==> |b[j]| == |a[j]|)
    requires |Flatten(a)| <= |Flatten(b)|
    ensures |a| <= |b| && forall j :: 0 <= j < |a| ==> |a[j]| == |b[j]|
  {
    if |b| < |a| {
      TooFewPieces(a, b);
    } else if |b| == |a| && a != [] {
      var k := |a| - 1;
      FlattenLength(a[..k], b[..k]);
    }
  }

  lemma TooFewPieces(a: seq<seq<byte>>, b: seq<seq<byte>>)
    requires |b| < |a| && |a[|a| - 1]| > 0
    requires forall j :: 0 <= j < |b| ==> |b[j]| <= |a[j]|
    ensures |Flatten(b)| < |Flatten(a)|
  {
    FlattenShorter(a[..|b|], b);
    assert a == a[..|b|] + a[|b|..];
    FlattenAppend(a[..|b|], a[|b|..]);
    assert a[|b|..][|a| - |b| - 1] == a[|a| - 1];
  }

  lemma {:induction false} FlattenShorter(a: seq<seq<byte>>, b: seq<seq<byte>>)
    requires |a| == |b| && forall j :: 0 <= j < |a| ==> |b[j]| <= |a[j]|
    ensures |Flatten(b)| <= |Flatten(a)|
  {
    if a != [] {
      FlattenShorter(a[..|a| - 1], b[..|b| - 1]);
    }
  }

  // ---------------------------------------------------------------- wakeups

  /** Whenever nobody has the mutex, whoever sleeps has a reason to, or someone is on the
      way to find out: although only notify_one is used, no wakeup is lost. */
  lemma NoLostWakeups(states: seq<State>, actions: seq<Action>, i: nat, t: nat)
    requires IsRun(states, actions) && i < |states| && t < |states[i].calls|
    requires states[i].holder == Free && !states[i].terminating
    ensures var s, c := states[i], states[i].calls[t];
            && (c.role == Writer && c.pc == AsleepRoom ==> s.ring.filled == s.ring.Size())
            && (c.role == Reader && c.pc == AsleepRoom ==> s.ring.filled == 0)
            && (c.pc == AsleepAlone ==> s.Side(c.role).active || Someone(s.calls, c.role, WokenAlone))
  {
    InvAlways(states, actions, i);
    var s, c := states[i], states[i].calls[t];
    assert WakeOk(s, c.role);
  }

  predicate Unfinished(s: State, t: nat, role: Role) {
    t < |s.calls| && s.calls[t].role == role && !s.calls[t].pc.Done?
  }

  ghost predicate Stuck(s: State) {
    forall t :: 0 <= t < |s.calls| ==> !CanStep(s, t)
  }

  lemma HolderCanStep(s: State)
    requires Inv(s) && s.holder.Held?
    ensures s.holder.t < |s.calls| && CanStep(s, s.holder.t)
  {
    assert CallOk(s, s.holder.t);
  }

  lemma StuckIsAsleep(s: State)
    requires Inv(s) && Stuck(s) && s.holder != ByShutdown
    ensures s.holder == Free
    ensures forall t :: 0 <= t < |s.calls| ==> s.calls[t].pc.Asleep() || s.calls[t].pc.Done?
  {
    if s.holder.Held? {
      HolderCanStep(s);
    }
    forall t | 0 <= t < |s.calls|
      ensures s.calls[t].pc.Asleep() || s.calls[t].pc.Done?
    {
      assert CallOk(s, t) && !CanStep(s, t);
    }
  }

  /** Absent sd_shutdown, calls of one side are stuck only behind a full or an empty ring. */
  lemma StuckIsBlocked(s: State, t: nat, role: Role)
    requires Inv(s) && !s.terminating && Stuck(s) && Unfinished(s, t, role)
    ensures s.Blocked(role)
  {
    StuckIsAsleep(s);
    assert WakeOk(s, role) && CallOk(s, t);
    assert Someone(s.calls, role, s.calls[t].pc);
    if s.calls[t].pc == AsleepAlone {
      var order := s.Side(role).order;
      assert TurnOk(s, role, |order| - 1) && CallOk(s, order[|order| - 1]);
      assert Someone(s.calls, role, s.calls[order[|order| - 1]].pc);
    }
  }

  /** No deadlock: with an unfinished write and an unfinished read, some call can go on. */
  lemma NoDeadlock(states: seq<State>, actions: seq<Action>, i: nat, writer: nat, reader: nat)
    requires IsRun(states, actions) && i < |states| && !states[i].terminating
    requires Unfinished(states[i], writer, Writer) && Unfinished(states[i], reader, Reader)
    ensures exists t :: 0 <= t < |states[i].calls| && CanStep(states[i], t)
  {
    InvAlways(states, actions, i);
    if Stuck(states[i]) {
      StuckIsBlocked(states[i], writer, Writer);
      StuckIsBlocked(states[i], reader, Reader);
      assert false;
    }
  }

  // ---------------------------------------------------------------- shutdown

  /** Once sd_shutdown has visited the buffer, nobody is asleep on it, now or later. */
  lemma NobodySleepsAfterShutdown(states: seq<State>, actions: seq<Action>, i: nat, j: nat, t: nat)
    requires IsRun(states, actions) && i <= j < |states| && states[i].shut == Visited
    requires t < |states[j].calls|
    ensures states[j].shut == Visited
    ensures !states[j].calls[t].pc.Asleep()
    decreases j - i
  {
    InvAlways(states, actions, j);
    assert CallOk(states[j], t);
    VisitedStays(states, actions, i, j);
  }

  lemma {:induction false} VisitedStays(states: seq<State>, actions: seq<Action>, i: nat, j: nat)
    requires IsRun(states, actions) && i <= j < |states| && states[i].shut == Visited
    ensures states[j].shut == Visited
    decreases j - i
  {
    if i < j {
      VisitedStays(states, actions, i, j - 1);
      InvAlways(states, actions, j - 1);
      assert Transition(states[j - 1], actions[j - 1], states[j]);
      InvIsSane(states[j - 1], actions[j - 1]);
      StepKeepsShut(states[j - 1], actions[j - 1]);
    }
  }

  lemma StepKeepsShut(s: State, a: Action)
    requires Enabled(s, a) && Sane(s, a) && s.shut == Visited
    ensures Next(s, a).shut == Visited
  {
  }

  /** A call that sd_shutdown woke, and a call with nbytes > 0 that began after the flag was
      set, never returns true. */
  lemma WokenOrLateCallsFail(states: seq<State>, actions: seq<Action>, i: nat, t: nat, ok: bool)
    requires IsRun(states, actions) && i < |states| && t < |states[i].calls|
    requires states[i].calls[t].kicked || (states[i].calls[t].late && states[i].calls[t].n > 0)
    requires states[i].calls[t].pc == Done(ok)
    ensures !ok
  {
    InvAlways(states, actions, i);
    assert CallOk(states[i], t);
  }

  /** This call has no way left to return true. */
  predicate Lost(s: State, t: nat)
    requires t < |s.calls|
  {
    var c := s.calls[t];
    s.terminating && c.n > 0 &&
    (c.pc.Start? || c.pc.Lock? || c.pc.Check? || c.pc.Asleep() || c.pc.WokenAlone? || c.pc.WokenRoom?
     || c.pc.RetestAlone? || c.pc.RetestRoom? || c.pc.Failed())
  }

  lemma StepKeepsLost(s: State, u: nat, wake: nat, t: nat)
    requires CanStep(s, u) && Sane(s, Step(u, wake)) && t < |s.calls| && Lost(s, t)
    ensures |CallStep(s, u, wake).calls| == |s.calls| && Lost(CallStep(s, u, wake), t)
  {
    match s.calls[u].pc {
      case Start =>
      case Lock =>
      case Check =>
      case TestAlone =>
      case WokenAlone =>
      case RetestAlone =>
      case Transfer =>
      case WokenRoom =>
      case RetestRoom =>
      case NotifyPeer =>
      case NotifyAlone =>
      case Unlock(_) =>
    }
  }

  lemma NextKeepsLost(s: State, a: Action, t: nat)
    requires Enabled(s, a) && Sane(s, a) && t < |s.calls| && Lost(s, t)
    ensures t < |Next(s, a).calls| && Lost(Next(s, a), t)
  {
    match a {
      case Step(u, wake) => StepKeepsLost(s, u, wake, t);
      case _ =>
    }
  }

  /** Once terminating is set, a nonempty call that has not begun its test of it, is waiting for
      the mutex, asleep or woken but not back in its loop never returns true. */
  lemma {:induction false} LostNeverSucceeds(states: seq<State>, actions: seq<Action>, i: nat, j: nat, t: nat)
    requires IsRun(states, actions) && i <= j < |states| && t < |states[i].calls| && Lost(states[i], t)
    ensures t < |states[j].calls| && states[j].calls[t].pc != Done(true)
    ensures Lost(states[j], t)
    decreases j
  {
    if i < j {
      LostNeverSucceeds(states, actions, i, j - 1, t);
      RunStep(states, actions, j - 1);
      NextKeepsLost(states[j - 1], actions[j - 1], t);
    }
  }

  /** Once terminating is set, everything comes to an end: when neither a call nor sd_shutdown
      can go on, the buffer has been visited and every call has returned. */
  lemma ShutdownDrains(states: seq<State>, actions: seq<Action>, i: nat)
    requires IsRun(states, actions) && i < |states| && states[i].terminating
    requires Stuck(states[i]) && !Enabled(states[i], ShutdownStep)
    ensures states[i].shut == Visited
    ensures forall t :: 0 <= t < |states[i].calls| ==> states[i].calls[t].pc.Done?
  {
    InvAlways(states, actions, i);
    var s := states[i];
    if s.holder.Held? {
      HolderCanStep(s);
    }
    StuckIsAsleep(s);
    forall t | 0 <= t < |s.calls|
      ensures s.calls[t].pc.Done?
    {
      assert CallOk(s, t);
    }
  }
}

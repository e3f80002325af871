/** No livelock: without new calls and spurious wakeups the calls on a buffer make only a
    bounded number of steps, and balanced traffic completes. */
module BufferProgress {
  import opened Sums
  import opened BufferProtocol
  import opened BufferProperties

  /** An upper bound on what a call can still do, wakeups of others included. */
  function PcWeight(pc: Pc): nat {
    match pc
    case Start => 12
    case Lock => 11
    case Check => 10
    case TestAlone => 9
    case AsleepAlone => 8
    case WokenAlone => 11
    case RetestAlone => 10
    case Transfer => 7
    case AsleepRoom => 6
    case WokenRoom => 9
    case RetestRoom => 8
    case NotifyPeer => 11
    case NotifyAlone => 5
    case Unlock(_) => 1
    case Done(_) => 0
  }

  function Weight(c: Call): int { PcWeight(c.pc) + 5 * (c.n - |c.moved|) }

  function ShutRank(shut: Shutdown): nat {
    match shut
    case Flagged => 6
    case Notifying(i) => if i <= 3 then 5 - i else 1
    case Leaving => 1
    case _ => 0
  }

  function Variant(s: State): int {
    Sum(s.calls, Weight) + ShutRank(s.shut) * (3 * |s.calls| + 1)
  }

  /** Not a new call, not a spurious wakeup, not the decision to shut down. */
  predicate Internal(a: Action) { a.Step? || a.ShutdownStep? }

  lemma NotifyOneWeighs(calls: seq<Call>, role: Role, cv: Pc, wake: nat)
    requires cv.Asleep()
    ensures Sum(NotifyOne(calls, role, cv, wake), Weight) <= Sum(calls, Weight) + 3
  {
    if wake < |calls| && calls[wake].role == role && calls[wake].pc == cv {
      SumUpdate(calls, wake, calls[wake].(pc := cv.Awake()), Weight);
    }
  }

  lemma {:induction false} NotifyAllWeighs(calls: seq<Call>, role: Role, cv: Pc)
    requires cv.Asleep()
    ensures Sum(NotifyAll(calls, role, cv), Weight) <= Sum(calls, Weight) + 3 * |calls|
  {
    if calls != [] {
      var k := |calls| - 1;
      assert NotifyAll(calls, role, cv)[..k] == NotifyAll(calls[..k], role, cv);
      NotifyAllWeighs(calls[..k], role, cv);
    }
  }

  lemma NotifyingStepDecreases(s: State, t: nat, wake: nat)
    requires CanStep(s, t) && Sane(s, Step(t, wake))
    requires s.calls[t].pc == NotifyPeer || s.calls[t].pc == NotifyAlone
    ensures Sum(CallStep(s, t, wake).calls, Weight) < Sum(s.calls, Weight)
  {
    var c := s.calls[t];
    if c.pc == NotifyPeer {
      SumUpdate(s.calls, t, c.(pc := Transfer), Weight);
      NotifyOneWeighs(Goto(s, t, Transfer).calls, c.role.Other(), AsleepRoom, wake);
    } else {
      SumUpdate(s.calls, t, c.(pc := Unlock(true)), Weight);
      NotifyOneWeighs(Goto(s, t, Unlock(true)).calls, c.role, AsleepAlone, wake);
    }
  }

  lemma ChunkDecreases(s: State, t: nat)
    requires t < |s.calls| && s.ring.Ok() && CallOk(s, t) && s.calls[t].pc == Transfer
    requires |s.calls[t].moved| < s.calls[t].n && !s.Blocked(s.calls[t].role)
    ensures Sum(MoveChunk(s, t).calls, Weight) < Sum(s.calls, Weight)
  {
    SumUpdate(s.calls, t, MoveChunk(s, t).calls[t], Weight);
  }

  /** A step that neither moves bytes nor notifies. */
  ghost predicate Local(s: State, t: nat, wake: nat) {
    && CanStep(s, t) && Sane(s, Step(t, wake)) && !s.calls[t].pc.NotifyPeer? && !s.calls[t].pc.NotifyAlone?
    && (s.calls[t].pc == Transfer ==> |s.calls[t].moved| == s.calls[t].n || s.Blocked(s.calls[t].role))
  }

  lemma LocalStepChangesOne(s: State, t: nat, wake: nat)
    requires Local(s, t, wake)
    ensures |CallStep(s, t, wake).calls| == |s.calls|
    ensures CallStep(s, t, wake).calls == s.calls[t := CallStep(s, t, wake).calls[t]]
  {
  }

  lemma LocalStepWeighsLess(s: State, t: nat, wake: nat)
    requires Local(s, t, wake) && |CallStep(s, t, wake).calls| == |s.calls|
    ensures Weight(CallStep(s, t, wake).calls[t]) < Weight(s.calls[t])
  {
    match s.calls[t].pc {
      case Start =>
      case Lock =>
      case Check =>
      case TestAlone =>
      case WokenAlone =>
      case RetestAlone =>
      case Transfer =>
      case WokenRoom =>
      case RetestRoom =>
      case Unlock(_) =>
    }
  }

  lemma StepDecreases(s: State, t: nat, wake: nat)
    requires CanStep(s, t) && Sane(s, Step(t, wake)) && CallOk(s, t)
    ensures Sum(CallStep(s, t, wake).calls, Weight) < Sum(s.calls, Weight)
  {
    var c := s.calls[t];
    if c.pc == NotifyPeer || c.pc == NotifyAlone {
      NotifyingStepDecreases(s, t, wake);
    } else if c.pc == Transfer && |c.moved| < c.n && !s.Blocked(c.role) {
      ChunkDecreases(s, t);
    } else {
      LocalStepChangesOne(s, t, wake);
      LocalStepWeighsLess(s, t, wake);
      SumUpdate(s.calls, t, CallStep(s, t, wake).calls[t], Weight);
    }
  }

  lemma StepKeepsShutdown(s: State, t: nat, wake: nat)
    requires CanStep(s, t) && Sane(s, Step(t, wake))
    ensures |CallStep(s, t, wake).calls| == |s.calls| && CallStep(s, t, wake).shut == s.shut
  {
  }

  lemma ShutdownDecreases(s: State)
    requires Enabled(s, ShutdownStep) && LockOk(s)
    ensures Variant(ShutStep(s)) < Variant(s)
  {
    var s', unit := ShutStep(s), 3 * |s.calls| + 1;
    if s.shut.Notifying? {
      NotifyAllWeighs(s.calls, CvRole(s.shut.i), CvPc(s.shut.i));
    }
    assert ShutRank(s'.shut) <= ShutRank(s.shut) - 1;
    assert ShutRank(s'.shut) * unit <= (ShutRank(s.shut) - 1) * unit == ShutRank(s.shut) * unit - unit;
  }

  lemma InternalDecreases(s: State, a: Action)
    requires Enabled(s, a) && Sane(s, a) && Internal(a)
    requires LockOk(s) && (a.Step? ==> CallOk(s, a.t))
    ensures Variant(Next(s, a)) < Variant(s)
  {
    if a.Step? {
      StepDecreases(s, a.t, a.wake);
      StepKeepsShutdown(s, a.t, a.wake);
    } else {
      ShutdownDecreases(s);
    }
  }

  lemma CallIsOk(s: State, a: Action)
    requires Inv(s) && Enabled(s, a)
    ensures LockOk(s) && (a.Step? ==> CallOk(s, a.t))
  {
  }

  lemma WeightIsNatural(s: State, t: nat)
    requires CallsOk(s) && t < |s.calls|
    ensures Weight(s.calls[t]) >= 0
  {
    assert CallOk(s, t);
  }

  lemma WeightsAreNatural(s: State)
    requires CallsOk(s)
    ensures Sum(s.calls, Weight) >= 0
  {
    forall t | 0 <= t < |s.calls|
      ensures Weight(s.calls[t]) >= 0
    {
      WeightIsNatural(s, t);
    }
    SumIsNatural(s.calls, Weight);
  }

  lemma ProductIsNatural(a: nat, b: nat)
    ensures a * b >= 0
  {
  }

  lemma VariantIsNatural(s: State)
    requires CallsOk(s)
    ensures Variant(s) >= 0
  {
    WeightsAreNatural(s);
    ProductIsNatural(ShutRank(s.shut), 3 * |s.calls| + 1);
  }

  /** Between new calls and spurious wakeups, a run makes at most Variant steps: nobody spins,
      whatever the scheduler does and whichever sleeper notify_one picks. */
  lemma {:induction false} BoundedWork(states: seq<State>, actions: seq<Action>, i: nat, j: nat)
    requires IsRun(states, actions) && i <= j < |states|
    requires forall k :: i <= k < j ==> Internal(actions[k])
    ensures 0 <= Variant(states[j]) <= Variant(states[i]) - (j - i)
    decreases j - i
  {
    InvAlways(states, actions, j);
    VariantIsNatural(states[j]);
    if i < j {
      BoundedWork(states, actions, i, j - 1);
      InvAlways(states, actions, j - 1);
      assert Transition(states[j - 1], actions[j - 1], states[j]);
      InvIsSane(states[j - 1], actions[j - 1]);
      CallIsOk(states[j - 1], actions[j - 1]);
      InternalDecreases(states[j - 1], actions[j - 1]);
    }
  }

  // ---------------------------------------------------------------- balanced traffic

  function MovedOf(role: Role): Call -> int { (c: Call) => if c.role == role then |c.moved| else 0 }

  function AskedOf(role: Role): Call -> int { (c: Call) => if c.role == role then c.n else 0 }

  /** The bytes of the stream are the bytes its calls have moved. */
  ghost predicate Counted(s: State, role: Role) {
    Sum(s.calls, MovedOf(role)) == |s.Side(role).stream|
  }

  lemma SameMovesSameCount(s: State, s': State, role: Role)
    requires Counted(s, role) && |s'.calls| == |s.calls| && |s'.Side(role).stream| == |s.Side(role).stream|
    requires forall t :: 0 <= t < |s.calls| ==> s'.calls[t].role == s.calls[t].role && s'.calls[t].moved == s.calls[t].moved
    ensures Counted(s', role)
  {
    SumBelow(s.calls, MovedOf(role), s'.calls, MovedOf(role));
    SumBelow(s'.calls, MovedOf(role), s.calls, MovedOf(role));
  }

  lemma StepKeepsCount(s: State, t: nat, wake: nat, role: Role)
    requires Enabled(s, Step(t, wake)) && Sane(s, Step(t, wake)) && CallOk(s, t) && Counted(s, role)
    ensures Counted(CallStep(s, t, wake), role)
  {
    var c, s' := s.calls[t], CallStep(s, t, wake);
    if c.pc == Transfer && |c.moved| < c.n && !s.Blocked(c.role) {
      SumUpdate(s.calls, t, s'.calls[t], MovedOf(role));
    } else {
      QuietStepKeepsRing(s, t, wake);
      forall u | 0 <= u < |s.calls|
        ensures s'.calls[u].role == s.calls[u].role && s'.calls[u].moved == s.calls[u].moved
      {
        QuietStepMovesNothing(s, t, wake, u);
      }
      SameMovesSameCount(s, s', role);
    }
  }

  lemma NextKeepsCount(s: State, a: Action, role: Role)
    requires Enabled(s, a) && Sane(s, a) && (a.Step? ==> CallOk(s, a.t)) && Counted(s, role)
    ensures Counted(Next(s, a), role)
  {
    match a {
      case Begin(_, _, _) => assert Next(s, a).calls[..|s.calls|] == s.calls;
      case Step(t, wake) => StepKeepsCount(s, t, wake, role);
      case Spurious(_) => SameMovesSameCount(s, Next(s, a), role);
      case SetTerminating => SameMovesSameCount(s, Next(s, a), role);
      case ShutdownStep => SameMovesSameCount(s, Next(s, a), role);
    }
  }

  lemma {:induction false} CountedAlways(states: seq<State>, actions: seq<Action>, i: nat, role: Role)
    requires IsRun(states, actions) && i < |states|
    ensures Counted(states[i], role)
  {
    if i > 0 {
      CountedAlways(states, actions, i - 1, role);
      InvAlways(states, actions, i - 1);
      assert Transition(states[i - 1], actions[i - 1], states[i]);
      InvIsSane(states[i - 1], actions[i - 1]);
      CallIsOk(states[i - 1], actions[i - 1]);
      NextKeepsCount(states[i - 1], actions[i - 1], role);
    }
  }

  /** If no call of one side is unfinished, its stream is as long as its calls asked for. */
  lemma DoneMeansAll(s: State, role: Role)
    requires Inv(s) && !s.terminating && Counted(s, role)
    requires forall t :: !Unfinished(s, t, role)
    ensures |s.Side(role).stream| >= Sum(s.calls, AskedOf(role))
  {
    forall t | 0 <= t < |s.calls|
      ensures AskedOf(role)(s.calls[t]) <= MovedOf(role)(s.calls[t])
    {
      assert CallOk(s, t) && !Unfinished(s, t, role);
    }
    SumBelow(s.calls, AskedOf(role), s.calls, MovedOf(role));
  }

  lemma SleeperIsShort(s: State, t: nat, role: Role)
    requires Inv(s) && Counted(s, role) && Unfinished(s, t, role) && s.calls[t].pc.Asleep()
    ensures |s.Side(role).stream| < Sum(s.calls, AskedOf(role))
  {
    forall u | 0 <= u < |s.calls|
      ensures MovedOf(role)(s.calls[u]) <= AskedOf(role)(s.calls[u])
    {
      assert CallOk(s, u);
    }
    assert CallOk(s, t);
    SumStrictlyBelow(s.calls, MovedOf(role), AskedOf(role), t);
  }

  /** Absent sd_shutdown: when no call can go on and the readers have asked for as many bytes
      in all as the writers, in whatever portions, every call has returned true. Together with
      BoundedWork: balanced traffic always completes. */
  lemma BalancedTrafficCompletes(states: seq<State>, actions: seq<Action>, i: nat, t: nat)
    requires IsRun(states, actions) && i < |states| && t < |states[i].calls|
    requires !states[i].terminating && Stuck(states[i])
    requires Sum(states[i].calls, AskedOf(Writer)) == Sum(states[i].calls, AskedOf(Reader))
    ensures states[i].calls[t].pc == Done(true)
  {
    InvAlways(states, actions, i);
    CountedAlways(states, actions, i, Writer);
    CountedAlways(states, actions, i, Reader);
    var s := states[i];
    assert CallOk(s, t);
    if !s.calls[t].pc.Done? {
      UnbalancedIfUnfinished(s, t);
    }
  }

  lemma UnbalancedIfUnfinished(s: State, t: nat)
    requires Inv(s) && Counted(s, Writer) && Counted(s, Reader)
    requires !s.terminating && Stuck(s) && t < |s.calls| && !s.calls[t].pc.Done?
    ensures Sum(s.calls, AskedOf(Writer)) != Sum(s.calls, AskedOf(Reader))
  {
    var role := s.calls[t].role;
    StuckIsAsleep(s);
    StuckIsBlocked(s, t, role);
    SleeperIsShort(s, t, role);
    forall u
      ensures !Unfinished(s, u, role.Other())
    {
      if Unfinished(s, u, role.Other()) {
        StuckIsBlocked(s, u, role.Other());
      }
    }
    DoneMeansAll(s, role.Other());
    assert |s.writers.stream| == |s.readers.stream| + s.ring.filled;
  }
}

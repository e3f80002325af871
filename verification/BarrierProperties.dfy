/** What sd_barrier promises, for every run, and where it does not keep its promise. */
module BarrierProperties {
  import opened Barrier

  /** The call of process p returns with this result in step i. */
  predicate Returns(states: seq<State>, i: nat, p: nat, ok: bool)
    requires i + 1 < |states|
  {
    && p < |states[i].procs| && p < |states[i + 1].procs|
    && !states[i].procs[p].pc.Idle? && states[i + 1].procs[p].pc.Idle?
    && states[i + 1].procs[p].result == ok
  }

  /** A step in which a process returns true is its unlock after a decision at sync_count 0. */
  lemma ReturnsTrueFromUnlock(s: State, a: Action, p: nat)
    requires Inv(s) && Enabled(s, a) && p < |s.procs|
    requires !s.procs[p].pc.Idle? && Next(s, a).procs[p].pc.Idle? && Next(s, a).procs[p].result
    ensures a == Step(p) && s.procs[p].pc == Unlock(true) && s.syncCount == 0
  {
    assert ProcOk(s, p);
    if a.Step? {
      StepReturnsTrueFromUnlock(s, a.p, p);
    }
  }

  lemma StepReturnsTrueFromUnlock(s: State, q: nat, p: nat)
    requires CanStep(s, q) && p < |s.procs| == |ProcStep(s, q).procs|
    requires !s.procs[p].pc.Idle? && ProcStep(s, q).procs[p].pc.Idle? && ProcStep(s, q).procs[p].result
    ensures q == p && s.procs[p].pc == Unlock(true)
  {
    match s.procs[q].pc {
      case Start =>
      case Lock =>
      case Recover =>
      case RecoverNotify =>
      case Check =>
      case Arrive =>
      case Notify =>
      case LoopTest(_) =>
      case Woken =>
      case Retest =>
      case Unlock(_) =>
    }
  }

  /** When the k-th call of a process returns true, every process has made its k-th arrival;
      indeed everybody has made exactly k, whatever died, woke up or came back early. */
  lemma BarrierSafety(states: seq<State>, actions: seq<Action>, i: nat, p: nat)
    requires IsRun(states, actions) && i < |actions|
    requires p < |states[i].procs| == |states[i + 1].procs| && Returns(states, i, p, true)
    ensures forall q :: 0 <= q < |states[i].procs| ==> states[i].procs[q].arrivals == states[i].procs[p].calls
  {
    InvAlways(states, actions, i);
    var s := states[i];
    ReturnsTrueFromUnlock(s, actions[i], p);
    forall q | 0 <= q < |s.procs|
      ensures s.procs[q].arrivals <= s.round
    {
      assert ProcOk(s, q);
    }
    AllReached(s.procs, s.round);
    assert ProcOk(s, p);
  }

  // ---------------------------------------------------------------- failure has a reason

  lemma StepThatReturns(s: State, q: nat, p: nat)
    requires CanStep(s, q) && p < |s.procs| == |ProcStep(s, q).procs|
    requires !s.procs[p].pc.Idle? && ProcStep(s, q).procs[p].pc.Idle? && !ProcStep(s, q).procs[p].result
    ensures ProcStep(s, q).procs[p].failed
  {
    match s.procs[q].pc {
      case Start =>
      case Lock =>
      case Recover =>
      case RecoverNotify =>
      case Check =>
      case Arrive =>
      case Notify =>
      case LoopTest(_) =>
      case Woken =>
      case Retest =>
      case Unlock(_) =>
    }
  }

  /** A call returns false only if sd_shutdown has been called, sync_count is -1 or the mutex
      can no longer be locked. */
  lemma FalseMeansDoomed(states: seq<State>, actions: seq<Action>, i: nat, p: nat)
    requires IsRun(states, actions) && i < |actions|
    requires p < |states[i].procs| == |states[i + 1].procs| && Returns(states, i, p, false)
    ensures Doomed(states[i + 1])
  {
    InvAlways(states, actions, i + 1);
    if actions[i].Step? {
      StepThatReturns(states[i], actions[i].p, p);
    }
    assert ProcOk(states[i + 1], p);
  }

  // ---------------------------------------------------------------- failure is final

  /** Process p has no way left to return true. */
  predicate Lost(s: State, p: nat)
    requires p < |s.procs|
  {
    var c := s.procs[p];
    || c.failed
    || c.pc == LoopTest(false) || c.pc == Unlock(false) || c.pc == Dead
    || c.pc == Recover || c.pc == RecoverNotify || s.mutex == Broken
    || (s.syncCount < 0 && c.pc != Unlock(true))
    || (s.terminating && (c.pc.Idle? || c.pc.Start? || c.pc.Lock? || c.pc.Check? || c.pc.Asleep? || c.pc.Woken? || c.pc.Retest?))
    || Overtaken(s, p)
  }

  /** A waiter of an earlier round: someone has set sync_count again before it looked. */
  predicate Overtaken(s: State, p: nat)
    requires p < |s.procs|
  {
    s.procs[p].pc.Waiting() && s.syncCount > 0 && s.procs[p].arrivals < s.round
  }

  /** The round of an overtaken waiter cannot end without it. */
  lemma OvertakenStays(s: State, s': State, p: nat)
    requires Inv(s') && p < |s.procs| == |s'.procs| && s.procs[p].arrivals == s'.procs[p].arrivals
    requires Overtaken(s, p) && s'.round == s.round
    ensures s'.syncCount != 0
  {
    if s'.syncCount == 0 {
      forall q | 0 <= q < |s'.procs|
        ensures s'.procs[q].arrivals <= s'.round
      {
        assert ProcOk(s', q);
      }
      AllReached(s'.procs, s'.round);
    }
  }

  lemma StepKeepsLost(s: State, q: nat, p: nat)
    requires LockOk(s) && CanStep(s, q) && p < |s.procs| && ProcOk(s, p) && ProcOk(s, q) && Lost(s, p)
    requires Overtaken(s, p) && |ProcStep(s, q).procs| == |s.procs| ==> ProcStep(s, q).syncCount != 0
    ensures |ProcStep(s, q).procs| == |s.procs| && Lost(ProcStep(s, q), p)
  {
    match s.procs[q].pc {
      case Start => LockStepKeepsLost(s, q, p);
      case Lock => LockStepKeepsLost(s, q, p);
      case Woken => LockStepKeepsLost(s, q, p);
      case Check =>
      case Recover =>
      case RecoverNotify =>
      case Arrive =>
      case Notify =>
      case LoopTest(_) =>
      case Retest =>
      case Unlock(_) => UnlockKeepsLost(s, q, p);
    }
  }

  lemma LockStepKeepsLost(s: State, q: nat, p: nat)
    requires LockOk(s) && CanStep(s, q) && p < |s.procs| && ProcOk(s, p) && ProcOk(s, q) && Lost(s, p)
    requires s.procs[q].pc.Start? || s.procs[q].pc.Lock? || s.procs[q].pc.Woken?
    ensures |ProcStep(s, q).procs| == |s.procs| && Lost(ProcStep(s, q), p)
  {
    match s.procs[q].pc {
      case Start =>
      case Lock =>
      case Woken =>
    }
  }

  lemma UnlockKeepsLost(s: State, q: nat, p: nat)
    requires LockOk(s) && CanStep(s, q) && p < |s.procs| && ProcOk(s, p) && ProcOk(s, q) && Lost(s, p)
    requires s.procs[q].pc.Unlock?
    ensures |ProcStep(s, q).procs| == |s.procs| && Lost(ProcStep(s, q), p)
  {
  }

  lemma OvertakenKeepsRound(s: State, q: nat, p: nat)
    requires LockOk(s) && CanStep(s, q) && p < |s.procs| && Overtaken(s, p)
    ensures |ProcStep(s, q).procs| == |s.procs| && ProcStep(s, q).round == s.round
    ensures ProcStep(s, q).procs[p].arrivals == s.procs[p].arrivals
  {
  }

  lemma NextKeepsLost(s: State, a: Action, p: nat)
    requires Inv(s) && Enabled(s, a) && Inv(Next(s, a)) && p < |s.procs| && Lost(s, p)
    ensures |Next(s, a).procs| == |s.procs| && Lost(Next(s, a), p)
  {
    assert ProcOk(s, p);
    match a {
      case Step(q) =>
        assert ProcOk(s, q);
        if Overtaken(s, p) {
          OvertakenKeepsRound(s, q, p);
          OvertakenStays(s, ProcStep(s, q), p);
        }
        StepKeepsLost(s, q, p);
      case _ =>
    }
  }

  lemma {:induction false} LostForever(states: seq<State>, actions: seq<Action>, i: nat, j: nat, p: nat)
    requires IsRun(states, actions) && i <= j < |states| && p < |states[i].procs| && Lost(states[i], p)
    ensures p < |states[j].procs| && Lost(states[j], p)
    decreases j - i
  {
    if i < j {
      LostForever(states, actions, i, j - 1, p);
      RunKeepsLost(states, actions, j - 1, p);
    }
  }

  lemma RunKeepsLost(states: seq<State>, actions: seq<Action>, j: nat, p: nat)
    requires IsRun(states, actions) && j < |actions| && p < |states[j].procs| && Lost(states[j], p)
    ensures p < |states[j + 1].procs| && Lost(states[j + 1], p)
  {
    InvAlways(states, actions, j);
    InvAlways(states, actions, j + 1);
    NextKeepsLost(states[j], actions[j], p);
  }

  /** Once a call of p has failed, once p has found a dead owner of the mutex or nobody can lock it
      any more, once sync_count is -1, once terminating is set before p has tested it under the
      mutex or while p waits, and once p has been overtaken, no call of p returns true. */
  lemma LostNeverSucceeds(states: seq<State>, actions: seq<Action>, i: nat, j: nat, p: nat)
    requires IsRun(states, actions) && i <= j < |actions| && p < |states[i].procs| && Lost(states[i], p)
    ensures !Returns(states, j, p, true)
  {
    LostForever(states, actions, i, j, p);
    InvAlways(states, actions, j);
    assert ProcOk(states[j], p);
    if Returns(states, j, p, true) {
      ReturnsTrueFromUnlock(states[j], actions[j], p);
    }
  }

  // ---------------------------------------------------------------- shutdown

  /** Once sd_shutdown has visited the header, nobody is or falls asleep in the barrier. */
  lemma NobodySleepsAfterShutdown(states: seq<State>, actions: seq<Action>, i: nat, j: nat, p: nat)
    requires IsRun(states, actions) && i <= j < |states| && states[i].shut == Visited && p < |states[j].procs|
    ensures states[j].procs[p].pc != Asleep
  {
    VisitedStays(states, actions, i, j);
    InvAlways(states, actions, j);
    assert ProcOk(states[j], p);
  }

  lemma {:induction false} VisitedStays(states: seq<State>, actions: seq<Action>, i: nat, j: nat)
    requires IsRun(states, actions) && i <= j < |states| && states[i].shut == Visited
    ensures states[j].shut == Visited
    decreases j - i
  {
    if i < j {
      VisitedStays(states, actions, i, j - 1);
      NextKeepsVisited(states[j - 1], actions[j - 1]);
    }
  }

  lemma NextKeepsVisited(s: State, a: Action)
    requires Enabled(s, a) && s.shut == Visited
    ensures Next(s, a).shut == Visited
  {
  }

  // ---------------------------------------------------------------- progress

  predicate Healthy(s: State) {
    !s.terminating && forall p :: 0 <= p < |s.procs| ==> s.procs[p].pc != Dead
  }

  predicate Stuck(s: State) {
    forall p :: 0 <= p < |s.procs| ==> !CanStep(s, p)
  }

  /** Without shutdown and deaths the mutex is sound, and sleepers are woken at the end of a round. */
  predicate Sound(s: State) {
    && (s.mutex == Free || (s.mutex.Held? && !s.mutex.bad && s.mutex.p < |s.procs|))
    && s.syncCount >= 0
    && (s.syncCount == 0 && !(s.mutex.Held? && s.procs[s.mutex.p].pc == Notify) ==>
          forall p :: 0 <= p < |s.procs| ==> s.procs[p].pc != Asleep)
  }

  lemma NextKeepsSound(s: State, a: Action)
    requires Inv(s) && Enabled(s, a) && Healthy(Next(s, a)) && |Next(s, a).procs| == |s.procs| && Sound(s)
    ensures Sound(Next(s, a))
  {
    if a.Step? {
      assert ProcOk(s, a.p);
      StepKeepsSound(s, a.p);
    } else {
      assert s.mutex.Held? ==> ProcOk(s, s.mutex.p);
      if a.Die? {
        DeathIsUnhealthy(s, a);
      }
    }
  }

  lemma StepKeepsSound(s: State, p: nat)
    requires LockOk(s) && CanStep(s, p) && ProcOk(s, p) && Sound(s) && !s.terminating
    ensures Sound(ProcStep(s, p))
  {
    match s.procs[p].pc {
      case Start =>
      case Lock =>
      case Check =>
      case Arrive =>
      case Notify =>
      case LoopTest(_) =>
      case Woken =>
      case Retest =>
      case Unlock(_) =>
    }
  }

  lemma DeathIsUnhealthy(s: State, a: Action)
    requires Enabled(s, a) && a.Die?
    ensures !Healthy(Next(s, a))
  {
    assert Next(s, a).procs[a.p].pc == Dead;
  }

  lemma NextKeepsHealth(s: State, a: Action)
    requires Enabled(s, a) && |Next(s, a).procs| == |s.procs| && Healthy(Next(s, a))
    ensures Healthy(s)
  {
    forall p | 0 <= p < |s.procs|
      ensures s.procs[p].pc != Dead
    {
      assert Next(s, a).procs[p].pc != Dead;
    }
  }

  lemma {:induction false} SoundAlways(states: seq<State>, actions: seq<Action>, i: nat)
    requires IsRun(states, actions) && i < |states| && Healthy(states[i])
    ensures Sound(states[i])
  {
    if i > 0 {
      InvAlways(states, actions, i - 1);
      SameProcs(states[i - 1], actions[i - 1]);
      NextKeepsHealth(states[i - 1], actions[i - 1]);
      SoundAlways(states, actions, i - 1);
      NextKeepsSound(states[i - 1], actions[i - 1]);
    }
  }

  lemma SameProcs(s: State, a: Action)
    requires Enabled(s, a)
    ensures |Next(s, a).procs| == |s.procs|
  {
  }

  lemma HolderCanStep(s: State)
    requires Inv(s) && s.mutex.Held?
    ensures CanStep(s, s.mutex.p)
  {
    assert ProcOk(s, s.mutex.p);
  }

  /** Without shutdown and deaths, a process stuck in its k-th call either waits for one that
      has not made its k-th arrival, as it should, or has been overtaken. */
  lemma StuckWaiter(states: seq<State>, actions: seq<Action>, i: nat, p: nat)
    requires IsRun(states, actions) && i < |states| && p < |states[i].procs|
    requires Healthy(states[i]) && Stuck(states[i]) && states[i].procs[p].pc != Idle
    ensures var s := states[i];
            || Overtaken(s, p)
            || exists q :: 0 <= q < |s.procs| && s.procs[q].arrivals < s.procs[p].calls
  {
    InvAlways(states, actions, i);
    SoundAlways(states, actions, i);
    var s := states[i];
    assert ProcOk(s, p) && !CanStep(s, p);
    if s.mutex.Held? {
      HolderCanStep(s);
    }
    if !Overtaken(s, p) && forall q :: 0 <= q < |s.procs| ==> s.procs[q].arrivals >= s.round {
      forall q | 0 <= q < |s.procs|
        ensures s.procs[q].arrivals == s.round
      {
        assert ProcOk(s, q);
      }
      AllTheSame(s.procs, s.round);
    }
  }

  lemma {:induction false} AllTheSame(procs: seq<Process>, r: nat)
    requires forall q :: 0 <= q < |procs| ==> procs[q].arrivals == r
    ensures Arrivals(procs) == |procs| * r
  {
    if procs != [] {
      AllTheSame(procs[..|procs| - 1], r);
      assert |procs| * r == (|procs| - 1) * r + r;
    }
  }

  // ---------------------------------------------------------------- overtaking does happen

  function Two(first: Process, second: Process, sync: int, round: nat, mutex: Mutex): State {
    State([first, second], sync, false, mutex, Running, round)
  }

  function At(pc: Pc, calls: nat, arrivals: nat, result: bool): Process {
    Process(pc, calls, arrivals, false, result)
  }

  /** A run of two processes: the first one arrives and falls asleep (6), the second one
      completes the round and returns true (13), comes back, sets sync_count again and falls
      asleep (19), and only then the first one gets the mutex and falls asleep again (22). */
  function Scene(i: nat): State {
    if i <= 6 then FirstArrives(i)
    else if i <= 13 then SecondArrives(i)
    else if i <= 19 then SecondComesBack(i)
    else FirstLooks(i)
  }

  function FirstArrives(i: nat): State {
    var second := At(Idle, 0, 0, false);
    match i
    case 0 => Two(At(Idle, 0, 0, false), second, 0, 0, Free)
    case 1 => Two(At(Start, 1, 0, false), second, 0, 0, Free)
    case 2 => Two(At(Lock, 1, 0, false), second, 0, 0, Free)
    case 3 => Two(At(Check, 1, 0, false), second, 0, 0, Held(0, false))
    case 4 => Two(At(Arrive, 1, 0, false), second, 0, 0, Held(0, false))
    case 5 => Two(At(LoopTest(true), 1, 1, false), second, 1, 1, Held(0, false))
    case _ => Two(At(Asleep, 1, 1, false), second, 1, 1, Free)
  }

  function SecondArrives(i: nat): State {
    var first := At(Asleep, 1, 1, false);
    match i
    case 7 => Two(first, At(Start, 1, 0, false), 1, 1, Free)
    case 8 => Two(first, At(Lock, 1, 0, false), 1, 1, Free)
    case 9 => Two(first, At(Check, 1, 0, false), 1, 1, Held(1, false))
    case 10 => Two(first, At(Arrive, 1, 0, false), 1, 1, Held(1, false))
    case 11 => Two(first, At(Notify, 1, 1, false), 0, 1, Held(1, false))
    case 12 => Two(first.(pc := Woken), At(Unlock(true), 1, 1, false), 0, 1, Held(1, false))
    case _ => Two(first.(pc := Woken), At(Idle, 1, 1, true), 0, 1, Free)
  }

  function SecondComesBack(i: nat): State {
    var first := At(Woken, 1, 1, false);
    match i
    case 14 => Two(first, At(Start, 2, 1, true), 0, 1, Free)
    case 15 => Two(first, At(Lock, 2, 1, true), 0, 1, Free)
    case 16 => Two(first, At(Check, 2, 1, true), 0, 1, Held(1, false))
    case 17 => Two(first, At(Arrive, 2, 1, true), 0, 1, Held(1, false))
    case 18 => Two(first, At(LoopTest(true), 2, 2, true), 1, 2, Held(1, false))
    case _ => Two(first, At(Asleep, 2, 2, true), 1, 2, Free)
  }

  function FirstLooks(i: nat): State {
    var second := At(Asleep, 2, 2, true);
    match i
    case 20 => Two(At(Retest, 1, 1, false), second, 1, 2, Held(0, false))
    case 21 => Two(At(LoopTest(true), 1, 1, false), second, 1, 2, Held(0, false))
    case _ => Two(At(Asleep, 1, 1, false), second, 1, 2, Free)
  }

  const LAST: nat := 22

  /** What happens between Scene(i) and Scene(i + 1). */
  function Deed(i: nat): Action {
    if i == 0 then Call(0)
    else if i == 6 || i == 13 then Call(1)
    else if i < 6 || i > 18 then Step(0)
    else Step(1)
  }

  predicate Follows(i: nat) {
    Enabled(Scene(i), Deed(i)) && Next(Scene(i), Deed(i)) == Scene(i + 1)
  }

  lemma FirstArrivesFollows(i: nat)
    requires i < 6
    ensures Follows(i)
  {
    match i {
      case 0 =>
      case 1 =>
      case 2 =>
      case 3 =>
      case 4 =>
      case 5 =>
    }
  }

  lemma SecondArrivesFollows(i: nat)
    requires 6 <= i < 11
    ensures Follows(i)
  {
    match i {
      case 6 =>
      case 7 =>
      case 8 =>
      case 9 =>
      case 10 =>
    }
  }

  lemma SecondLeavesFollows(i: nat)
    requires 11 <= i < 13
    ensures Follows(i)
  {
    match i {
      case 11 =>
      case 12 =>
    }
  }

  lemma SecondComesBackFollows(i: nat)
    requires 13 <= i < 19
    ensures Follows(i)
  {
    match i {
      case 13 =>
      case 14 =>
      case 15 =>
      case 16 =>
      case 17 =>
      case 18 =>
    }
  }

  lemma FirstLooksFollows(i: nat)
    requires 19 <= i < LAST
    ensures Follows(i)
  {
    match i {
      case 19 =>
      case 20 =>
      case 21 =>
    }
  }

  lemma SceneFollows(i: nat)
    requires i < LAST
    ensures Follows(i)
  {
    if i < 6 {
      FirstArrivesFollows(i);
    } else if i < 11 {
      SecondArrivesFollows(i);
    } else if i < 13 {
      SecondLeavesFollows(i);
    } else if i < 19 {
      SecondComesBackFollows(i);
    } else {
      FirstLooksFollows(i);
    }
  }

  /** "Each process who calls sd_barrier is suspended until all have invoked sd_barrier" fails
      for two healthy processes: the second one completes the round, comes back, and sets
      sync_count again before the first one looks. Then both sleep and nobody can go on,
      although both have made their first call and the second one has made two. */
  lemma OvertakingDeadlock() returns (states: seq<State>, actions: seq<Action>)
    ensures IsRun(states, actions)
    ensures var s := states[|actions|];
            && Healthy(s) && Stuck(s) && |s.procs| == 2 && Overtaken(s, 0)
            && s.procs[0].arrivals == s.procs[0].calls == 1 && s.procs[1].arrivals == s.procs[1].calls == 2
  {
    states, actions := seq(LAST + 1, i requires i >= 0 => Scene(i)), seq(LAST, i requires i >= 0 => Deed(i));
    forall i | 0 <= i < LAST
      ensures Enabled(states[i], actions[i]) && states[i + 1] == Next(states[i], actions[i])
    {
      SceneFollows(i);
    }
  }
}

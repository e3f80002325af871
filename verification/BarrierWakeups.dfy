/** Who may be asleep in sd_barrier, in any run, whoever dies: once a caller has found a dead
    owner of the mutex and has let go of it, nobody. */
module BarrierWakeups {
  import opened Barrier
  import opened BarrierProperties

  /** The mutex is sound and its holder owes nobody a wakeup. */
  predicate Settled(s: State) {
    || s.mutex == Free
    || s.mutex == ByShutdown(false)
    || (s.mutex.Held? && !s.mutex.bad && s.mutex.p < |s.procs|
        && s.procs[s.mutex.p].pc != Notify && s.procs[s.mutex.p].pc != RecoverNotify)
  }

  predicate NobodyAsleep(s: State) {
    forall p :: 0 <= p < |s.procs| ==> s.procs[p].pc != Asleep
  }

  /** At the end of a round and after a failure was found the sleepers have been woken. */
  predicate Woken(s: State) {
    Settled(s) && s.syncCount <= 0 ==> NobodyAsleep(s)
  }

  lemma TakingStepKeepsWoken(s: State, p: nat)
    requires LockOk(s) && CanStep(s, p) && ProcOk(s, p) && Woken(s)
    requires s.procs[p].pc.Start? || s.procs[p].pc.Lock? || s.procs[p].pc.Woken?
    ensures Woken(ProcStep(s, p))
  {
    match s.procs[p].pc {
      case Start =>
      case Lock =>
      case Woken =>
    }
  }

  lemma NotifyingStepKeepsWoken(s: State, p: nat)
    requires CanStep(s, p) && (s.procs[p].pc.Notify? || s.procs[p].pc.RecoverNotify?)
    ensures NobodyAsleep(ProcStep(s, p))
  {
    match s.procs[p].pc {
      case Notify =>
      case RecoverNotify =>
    }
  }

  lemma StepKeepsWoken(s: State, p: nat)
    requires LockOk(s) && CanStep(s, p) && ProcOk(s, p) && Woken(s)
    ensures Woken(ProcStep(s, p))
  {
    match s.procs[p].pc {
      case Start => TakingStepKeepsWoken(s, p);
      case Lock => TakingStepKeepsWoken(s, p);
      case Woken => TakingStepKeepsWoken(s, p);
      case Notify => NotifyingStepKeepsWoken(s, p);
      case RecoverNotify => NotifyingStepKeepsWoken(s, p);
      case Recover =>
      case Check =>
      case Arrive =>
      case LoopTest(_) =>
      case Retest =>
      case Unlock(_) =>
    }
  }

  lemma OtherActionKeepsWoken(s: State, a: Action)
    requires LockOk(s) && Enabled(s, a) && !a.Step? && Woken(s)
    requires s.mutex.Held? ==> ProcOk(s, s.mutex.p)
    ensures Woken(Next(s, a))
  {
    match a {
      case Call(_) =>
      case Spurious(_) =>
      case Die(_) =>
      case SetTerminating =>
      case ShutdownStep =>
    }
  }

  lemma {:induction false} WokenAlways(states: seq<State>, actions: seq<Action>, i: nat)
    requires IsRun(states, actions) && i < |states|
    ensures Woken(states[i])
  {
    if i > 0 {
      WokenAlways(states, actions, i - 1);
      InvAlways(states, actions, i - 1);
      var s, a := states[i - 1], actions[i - 1];
      if a.Step? {
        assert ProcOk(s, a.p);
        StepKeepsWoken(s, a.p);
      } else {
        assert s.mutex.Held? ==> ProcOk(s, s.mutex.p);
        OtherActionKeepsWoken(s, a);
      }
    }
  }

  /** Whenever the mutex is free, a sleeper waits for arrivals that are still missing. */
  lemma SleeperHasReason(states: seq<State>, actions: seq<Action>, i: nat, p: nat)
    requires IsRun(states, actions) && i < |states| && p < |states[i].procs|
    requires states[i].mutex == Free && states[i].procs[p].pc == Asleep
    ensures states[i].syncCount > 0
  {
    WokenAlways(states, actions, i);
  }

  /** If nobody can go on, a process is asleep only while arrivals are missing, or because the
      mutex has an owner that died and that nobody has found (OwnerDied) or that only a waiter
      has found (Broken). */
  lemma StuckSleeper(states: seq<State>, actions: seq<Action>, i: nat, p: nat)
    requires IsRun(states, actions) && i < |states| && p < |states[i].procs|
    requires Stuck(states[i]) && !Enabled(states[i], ShutdownStep) && states[i].procs[p].pc == Asleep
    ensures (states[i].mutex == Free && states[i].syncCount > 0) || states[i].mutex == OwnerDied || states[i].mutex == Broken
  {
    InvAlways(states, actions, i);
    WokenAlways(states, actions, i);
    if states[i].mutex.Held? {
      HolderCanStep(states[i]);
    }
  }

  // ---------------------------------------------------------------- after a failure was found

  predicate AllFailing(s: State) { s.syncCount < 0 && NobodyAsleep(s) }

  lemma NextKeepsFailing(s: State, a: Action)
    requires Enabled(s, a) && AllFailing(s)
    ensures AllFailing(Next(s, a))
  {
    match a {
      case Step(p) =>
        match s.procs[p].pc {
          case Start =>
          case Lock =>
          case Recover =>
          case RecoverNotify =>
          case Check =>
          case Arrive =>
          case Notify =>
          case LoopTest(_) =>
          case Woken =>
          case Retest =>
          case Unlock(_) =>
        }
      case _ =>
    }
  }

  /** Once a caller has found a dead owner, marked the barrier as failed and let go of the mutex,
      nobody is asleep in the barrier or falls asleep in it again. */
  lemma {:induction false} NobodySleepsAfterFailure(states: seq<State>, actions: seq<Action>, i: nat, j: nat)
    requires IsRun(states, actions) && i <= j < |states| && states[i].syncCount < 0 && Settled(states[i])
    ensures AllFailing(states[j])
    decreases j
  {
    if i == j {
      WokenAlways(states, actions, i);
    } else {
      NobodySleepsAfterFailure(states, actions, i, j - 1);
      NextKeepsFailing(states[j - 1], actions[j - 1]);
    }
  }

  /** A caller that finds a dead owner, when it locks the mutex or when it wakes up, never
      returns true again. */
  lemma DeadOwnerIsFatal(states: seq<State>, actions: seq<Action>, i: nat, j: nat, p: nat)
    requires IsRun(states, actions) && i < j < |actions| && actions[i] == Step(p)
    requires states[i].mutex == OwnerDied && (states[i].procs[p].pc.Lock? || states[i].procs[p].pc.Woken?)
    ensures !Returns(states, j, p, true)
  {
    FindsDeadOwner(states[i], p);
    LostNeverSucceeds(states, actions, i + 1, j, p);
  }

  lemma FindsDeadOwner(s: State, p: nat)
    requires CanStep(s, p) && s.mutex == OwnerDied && (s.procs[p].pc.Lock? || s.procs[p].pc.Woken?)
    ensures p < |ProcStep(s, p).procs| && Lost(ProcStep(s, p), p)
  {
  }
}

/** When the documented promise of sd_barrier, that everybody goes on once all have called it,
    is kept: exactly as long as nobody sets sync_count again before a waiter has looked. */
module BarrierOvertaking {
  import opened Barrier
  import opened BarrierProperties

  /** Nobody lags behind by more than one round. */
  predicate Paced(s: State) {
    s.syncCount >= 0 ==> forall p :: 0 <= p < |s.procs| ==> s.procs[p].arrivals + 1 >= s.round
  }

  lemma RoundIsOver(s: State, p: nat)
    requires Inv(s) && s.syncCount == 0 && p < |s.procs|
    ensures s.procs[p].arrivals == s.round
  {
    forall q | 0 <= q < |s.procs|
      ensures s.procs[q].arrivals <= s.round
    {
      assert ProcOk(s, q);
    }
    AllReached(s.procs, s.round);
  }

  lemma StepKeepsPaced(s: State, q: nat)
    requires Inv(s) && Paced(s) && CanStep(s, q)
    ensures Paced(ProcStep(s, q))
  {
    StepKeepsLock(s, q);
    if s.procs[q].pc == Arrive {
      if s.syncCount == 0 {
        forall p | 0 <= p < |s.procs|
          ensures s.procs[p].arrivals == s.round
        {
          RoundIsOver(s, p);
        }
      }
    } else if s.procs[q].pc != Recover {
      StepKeepsSync(s, q);
      forall p | 0 <= p < |s.procs|
        ensures ProcStep(s, q).procs[p].arrivals == s.procs[p].arrivals
      {
        StepKeepsArrivals(s, q, p);
      }
    }
  }

  lemma {:induction false} PacedAlways(states: seq<State>, actions: seq<Action>, i: nat)
    requires IsRun(states, actions) && i < |states|
    ensures Paced(states[i])
  {
    if i > 0 {
      PacedAlways(states, actions, i - 1);
      InvAlways(states, actions, i - 1);
      NextKeepsPaced(states[i - 1], actions[i - 1]);
    }
  }

  lemma NextKeepsPaced(s: State, a: Action)
    requires Inv(s) && Paced(s) && Enabled(s, a)
    ensures Paced(Next(s, a))
  {
    if a.Step? {
      StepKeepsPaced(s, a.p);
    }
  }

  // ---------------------------------------------------------------- the guard

  /** Another process finds sync_count at 0 and sets it again while p has not looked. */
  predicate Overtakes(s: State, a: Action, p: nat) {
    && a.Step? && a.p < |s.procs| && p < |s.procs| && a.p != p
    && s.procs[a.p].pc == Arrive && s.syncCount == 0
    && s.procs[p].pc.Waiting()
  }

  lemma ArrivalOvertakesIff(s: State, q: nat, p: nat)
    requires Inv(s) && Paced(s) && CanStep(s, q) && p < |s.procs| && s.procs[q].pc == Arrive && !Overtaken(s, p)
    ensures |ProcStep(s, q).procs| == |s.procs|
    ensures Overtaken(ProcStep(s, q), p) <==> Overtakes(s, Step(q), p)
  {
    if s.syncCount == 0 {
      RoundIsOver(s, p);
    }
  }

  lemma OtherStepDoesNotOvertake(s: State, q: nat, p: nat)
    requires Inv(s) && CanStep(s, q) && p < |s.procs| && s.procs[q].pc != Arrive && !Overtaken(s, p)
    ensures |ProcStep(s, q).procs| == |s.procs|
    ensures !Overtaken(ProcStep(s, q), p)
  {
    StepKeepsLock(s, q);
    if s.procs[q].pc != Recover {
      StepKeepsSync(s, q);
      StepKeepsArrivals(s, q, p);
      if !s.procs[p].pc.Waiting() {
        StepDoesNotBeginToWait(s, q, p);
      }
    }
  }

  lemma StepDoesNotBeginToWait(s: State, q: nat, p: nat)
    requires CanStep(s, q) && p < |s.procs| && s.procs[q].pc != Arrive && !s.procs[p].pc.Waiting()
    ensures |ProcStep(s, q).procs| == |s.procs|
    ensures !ProcStep(s, q).procs[p].pc.Waiting()
  {
    match s.procs[q].pc {
      case Start =>
      case Lock =>
      case Recover =>
      case RecoverNotify =>
      case Check =>
      case Notify =>
      case LoopTest(_) =>
      case Woken =>
      case Retest =>
      case Unlock(_) =>
    }
  }

  lemma OtherActionDoesNotOvertake(s: State, a: Action, p: nat)
    requires Enabled(s, a) && !a.Step? && p < |s.procs| && !Overtaken(s, p)
    ensures |Next(s, a).procs| == |s.procs| && !Overtaken(Next(s, a), p)
  {
  }

  /** What makes a waiter overtaken is the assignment to sync_count by another one, and
      nothing else. */
  lemma OvertakenIff(states: seq<State>, actions: seq<Action>, i: nat, p: nat)
    requires IsRun(states, actions) && i < |actions| && p < |states[i].procs| && !Overtaken(states[i], p)
    ensures |states[i + 1].procs| == |states[i].procs|
    ensures Overtaken(states[i + 1], p) <==> Overtakes(states[i], actions[i], p)
  {
    InvAlways(states, actions, i);
    PacedAlways(states, actions, i);
    var s := states[i];
    match actions[i] {
      case Step(q) =>
        if s.procs[q].pc == Arrive {
          ArrivalOvertakesIff(s, q, p);
        } else {
          OtherStepDoesNotOvertake(s, q, p);
        }
      case _ => OtherActionDoesNotOvertake(s, actions[i], p);
    }
  }

  // ---------------------------------------------------------------- no way out

  lemma OwnStepStaysOvertaken(s: State, p: nat)
    requires CanStep(s, p) && Overtaken(s, p) && Sound(s) && !s.terminating
    ensures |ProcStep(s, p).procs| == |s.procs|
    ensures Overtaken(ProcStep(s, p), p) && ProcStep(s, p).procs[p].calls == s.procs[p].calls
  {
    match s.procs[p].pc {
      case LoopTest(_) =>
      case Woken =>
      case Retest =>
    }
  }

  lemma OtherStepKeepsWaiting(s: State, q: nat, p: nat)
    requires CanStep(s, q) && p < |s.procs| && q != p && s.procs[p].pc.Waiting()
    ensures |ProcStep(s, q).procs| == |s.procs|
    ensures ProcStep(s, q).procs[p].pc.Waiting() && ProcStep(s, q).procs[p].calls == s.procs[p].calls
  {
    match s.procs[q].pc {
      case Start =>
      case Lock =>
      case Recover =>
      case RecoverNotify =>
      case Check =>
      case Arrive =>
      case Notify =>
      case LoopTest(_) =>
      case Woken =>
      case Retest =>
      case Unlock(_) =>
    }
  }

  lemma OtherStepStaysOvertaken(s: State, q: nat, p: nat)
    requires Inv(s) && CanStep(s, q) && Inv(ProcStep(s, q)) && p < |s.procs| && q != p && Overtaken(s, p)
    requires s.procs[q].pc != Recover
    ensures |ProcStep(s, q).procs| == |s.procs|
    ensures Overtaken(ProcStep(s, q), p) && ProcStep(s, q).procs[p].calls == s.procs[p].calls
  {
    OtherStepKeepsWaiting(s, q, p);
    OvertakenKeepsRound(s, q, p);
    OvertakenStays(s, ProcStep(s, q), p);
    StepKeepsNonnegative(s, q);
  }

  lemma StepKeepsNonnegative(s: State, q: nat)
    requires CanStep(s, q) && s.syncCount >= 0 && s.procs[q].pc != Recover && |s.procs| > 0
    ensures ProcStep(s, q).syncCount >= 0
  {
  }

  /** As long as nobody dies and nobody shuts down, an overtaken process stays in its call. */
  lemma StaysOvertaken(states: seq<State>, actions: seq<Action>, i: nat, p: nat)
    requires IsRun(states, actions) && i < |actions| && p < |states[i].procs| && Overtaken(states[i], p)
    requires Healthy(states[i + 1])
    ensures |states[i + 1].procs| == |states[i].procs|
    ensures Overtaken(states[i + 1], p) && states[i + 1].procs[p].calls == states[i].procs[p].calls
  {
    var s, a := states[i], actions[i];
    SameProcs(s, a);
    NextKeepsHealth(s, a);
    InvAlways(states, actions, i);
    InvAlways(states, actions, i + 1);
    SoundAlways(states, actions, i);
    match a {
      case Step(q) =>
        assert ProcOk(s, q);
        if q == p {
          OwnStepStaysOvertaken(s, p);
        } else {
          OtherStepStaysOvertaken(s, q, p);
        }
      case Die(_) => DeathIsUnhealthy(s, a);
      case _ =>
    }
  }

  lemma HealthyBefore(states: seq<State>, actions: seq<Action>, i: nat)
    requires IsRun(states, actions) && i < |actions| && Healthy(states[i + 1])
    ensures |states[i + 1].procs| == |states[i].procs| && Healthy(states[i])
  {
    SameProcs(states[i], actions[i]);
    NextKeepsHealth(states[i], actions[i]);
  }

  /** In step j another process overtakes p, which is in its k-th call. */
  predicate OvertakenIn(states: seq<State>, actions: seq<Action>, j: nat, p: nat, k: nat)
    requires j < |states| && j < |actions|
  {
    Overtakes(states[j], actions[j], p) && states[j].procs[p].calls == k
  }

  lemma {:induction false} OvertakenSince(states: seq<State>, actions: seq<Action>, i: nat, p: nat)
    requires IsRun(states, actions) && i < |states| && p < |states[i].procs|
    requires Healthy(states[i]) && Overtaken(states[i], p)
    ensures exists j :: 0 <= j < i && OvertakenIn(states, actions, j, p, states[i].procs[p].calls)
  {
    if i > 0 {
      HealthyBefore(states, actions, i - 1);
      if Overtaken(states[i - 1], p) {
        OvertakenSince(states, actions, i - 1, p);
        StaysOvertaken(states, actions, i - 1, p);
      } else {
        OvertakenIff(states, actions, i - 1, p);
        OvertakenNow(states, actions, i - 1, p);
        assert OvertakenIn(states, actions, i - 1, p, states[i].procs[p].calls);
      }
    }
  }

  lemma {:induction false} OvertakenUntil(states: seq<State>, actions: seq<Action>, j: nat, i: nat, p: nat)
    requires IsRun(states, actions) && j <= i < |states| && Healthy(states[i])
    requires p < |states[j].procs| && Overtaken(states[j], p)
    ensures |states[i].procs| == |states[j].procs|
    ensures Overtaken(states[i], p) && states[i].procs[p].calls == states[j].procs[p].calls
    decreases i
  {
    if j < i {
      HealthyBefore(states, actions, i - 1);
      OvertakenUntil(states, actions, j, i - 1, p);
      StaysOvertaken(states, actions, i - 1, p);
    }
  }

  lemma OvertakenNow(states: seq<State>, actions: seq<Action>, j: nat, p: nat)
    requires IsRun(states, actions) && j < |actions| && p < |states[j].procs| && Overtakes(states[j], actions[j], p)
    ensures |states[j + 1].procs| == |states[j].procs|
    ensures Overtaken(states[j + 1], p) && states[j + 1].procs[p].calls == states[j].procs[p].calls
  {
    OvertakenIff(states, actions, j, p);
    OtherStepKeepsWaiting(states[j], actions[j].p, p);
  }

  /** Without shutdown and deaths, when nobody can go on and everybody has made its k-th
      arrival, the k-th call of p has not returned if and only if another process came back
      and set sync_count again while p was waiting in that call. */
  lemma StuckIffOvertaken(states: seq<State>, actions: seq<Action>, i: nat, p: nat)
    requires IsRun(states, actions) && i < |states| && p < |states[i].procs|
    requires Healthy(states[i]) && Stuck(states[i])
    requires forall q :: 0 <= q < |states[i].procs| ==> states[i].procs[q].arrivals >= states[i].procs[p].calls
    ensures states[i].procs[p].pc != Idle
            <==> exists j :: 0 <= j < i && OvertakenIn(states, actions, j, p, states[i].procs[p].calls)
  {
    if states[i].procs[p].pc != Idle {
      StuckWaiter(states, actions, i, p);
      OvertakenSince(states, actions, i, p);
    }
    if exists j :: 0 <= j < i && OvertakenIn(states, actions, j, p, states[i].procs[p].calls) {
      var j :| 0 <= j < i && OvertakenIn(states, actions, j, p, states[i].procs[p].calls);
      OvertakenNow(states, actions, j, p);
      OvertakenUntil(states, actions, j + 1, i, p);
    }
  }
}

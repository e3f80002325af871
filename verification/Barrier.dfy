/** sd_barrier as a step system: N processes, one caller each, any number of rounds, spurious
    wakeups, re-entry while earlier waiters still sleep, shutdown, and processes that die
    at any point, also while they hold the robust mutex of the header. */
module Barrier {

  datatype Pc =
    | Idle           // not in sd_barrier
    | Start          // first test of terminating
    | Lock           // waits for the mutex
    | Check          // has the mutex, tests terminating
    | Arrive         // looks at sync_count and counts itself
    | Notify         // was the last one, wakes all
    | LoopTest(ok: bool)
    | Asleep | Woken | Retest
    | Recover | RecoverNotify    // got the mutex of a dead owner
    | Unlock(ok: bool)
    | Dead
  {
    /** Holds the mutex. */
    predicate InSection() {
      Check? || Arrive? || Notify? || LoopTest? || Retest? || Recover? || RecoverNotify? || Unlock?
    }

    predicate BeforeArrival() { Start? || Lock? || Check? || Arrive? }

    predicate Arrived() { Notify? || LoopTest? || Asleep? || Woken? || Retest? || this == Unlock(true) }

    predicate Waiting() { this == LoopTest(true) || Asleep? || Woken? || Retest? }
  }

  /** The robust mutex; bad: its last owner died and it was not made consistent since. */
  datatype Mutex = Free | Held(p: nat, bad: bool) | ByShutdown(bad: bool) | OwnerDied | Broken

  /** calls, arrivals: how often sd_barrier was called and how often the call got as far as
      counting itself; failed: some call has returned false; result: of the last call */
  datatype Process = Process(pc: Pc, calls: nat, arrivals: nat, failed: bool, result: bool)

  datatype Shutdown = Running | Flagged | Notifying | Leaving | Visited

  /** round is a history variable: the number of times sync_count was set from 0. */
  datatype State = State(procs: seq<Process>, syncCount: int, terminating: bool, mutex: Mutex,
                         shut: Shutdown, round: nat)

  datatype Action =
    | Call(p: nat)
    | Step(p: nat)
    | Spurious(p: nat)
    | Die(p: nat)
    | SetTerminating
    | ShutdownStep

  predicate CanStep(s: State, p: nat) {
    p < |s.procs| &&
    match s.procs[p].pc
    case Start => true
    case Lock => s.mutex == Free || s.mutex == OwnerDied || s.mutex == Broken
    case Woken => s.mutex == Free || s.mutex == OwnerDied || s.mutex == Broken
    case _ => s.procs[p].pc.InSection() && s.mutex.Held? && s.mutex.p == p
  }

  predicate Enabled(s: State, a: Action) {
    match a
    case Call(p) => p < |s.procs| && s.procs[p].pc == Idle
    case Step(p) => CanStep(s, p)
    case Spurious(p) => p < |s.procs| && s.procs[p].pc == Asleep
    case Die(p) => p < |s.procs| && s.procs[p].pc != Dead
    case SetTerminating => s.shut == Running
    case ShutdownStep =>
      match s.shut
      case Flagged => s.mutex == Free || s.mutex == OwnerDied || s.mutex == Broken
      case Notifying => true
      case Leaving => true
      case _ => false
  }

  function Goto(s: State, p: nat, pc: Pc): State
    requires p < |s.procs|
  {
    s.(procs := s.procs[p := s.procs[p].(pc := pc)])
  }

  function Return(s: State, p: nat, ok: bool): State
    requires p < |s.procs|
  {
    s.(procs := s.procs[p := s.procs[p].(pc := Idle, failed := s.procs[p].failed || !ok, result := ok)])
  }

  function WakeAll(procs: seq<Process>): seq<Process> {
    seq(|procs|, i requires 0 <= i < |procs| =>
      if procs[i].pc == Asleep then procs[i].(pc := Woken) else procs[i])
  }

  /** pthread_mutex_unlock: a mutex that is not made consistent can never be locked again. */
  function Unlocked(bad: bool): Mutex { if bad then Broken else Free }

  function CountIn(s: State, p: nat): State
    requires p < |s.procs|
  {
    if s.syncCount < 0 then Goto(s, p, Unlock(false))
    else
      var sync := if s.syncCount == 0 then |s.procs| - 1 else s.syncCount - 1;
      s.(procs := s.procs[p := s.procs[p].(pc := if sync == 0 then Notify else LoopTest(true),
                                          arrivals := s.procs[p].arrivals + 1)],
         syncCount := sync,
         round := if s.syncCount == 0 then s.round + 1 else s.round)
  }

  function ProcStep(s: State, p: nat): State
    requires CanStep(s, p)
  {
    match s.procs[p].pc
    case Start => if s.terminating then Return(s, p, false) else Goto(s, p, Lock)
    case Lock =>
      if s.mutex == Broken then Return(s, p, false)
      else if s.mutex == OwnerDied then Goto(s, p, Recover).(mutex := Held(p, true))
      else Goto(s, p, Check).(mutex := Held(p, false))
    case Recover => Goto(s, p, RecoverNotify).(syncCount := -1, mutex := Held(p, false))
    case RecoverNotify => var s' := Goto(s, p, Unlock(false)); s'.(procs := WakeAll(s'.procs))
    case Check => Goto(s, p, if s.terminating then Unlock(false) else Arrive)
    case Arrive => CountIn(s, p)
    case Notify => var s' := Goto(s, p, Unlock(true)); s'.(procs := WakeAll(s'.procs))
    case LoopTest(ok) =>
      if ok && s.syncCount > 0 then Goto(s, p, Asleep).(mutex := Unlocked(s.mutex.bad))
      else Goto(s, p, Unlock(ok && s.syncCount >= 0))
    case Woken =>
      if s.mutex == Broken then Return(s, p, false)
      else if s.mutex == OwnerDied then Goto(s, p, LoopTest(false)).(mutex := Held(p, true))
      else Goto(s, p, Retest).(mutex := Held(p, false))
    case Retest => Goto(s, p, LoopTest(!s.terminating))
    case Unlock(ok) => Return(s, p, ok).(mutex := Unlocked(s.mutex.bad))
    case _ => s
  }

  /** The part of sd_shutdown that visits the header; it ignores a failing lock. */
  function ShutStep(s: State): State {
    match s.shut
    case Flagged =>
      s.(shut := Notifying,
         mutex := if s.mutex == Broken then Broken else ByShutdown(s.mutex == OwnerDied))
    case Notifying => s.(shut := Leaving, procs := WakeAll(s.procs))
    case Leaving =>
      s.(shut := Visited, mutex := if s.mutex.ByShutdown? then Unlocked(s.mutex.bad) else s.mutex)
    case _ => s
  }

  function Next(s: State, a: Action): State
    requires Enabled(s, a)
  {
    match a
    case Call(p) => s.(procs := s.procs[p := s.procs[p].(pc := Start, calls := s.procs[p].calls + 1)])
    case Step(p) => ProcStep(s, p)
    case Spurious(p) => Goto(s, p, Woken)
    case Die(p) =>
      Goto(s, p, Dead).(mutex := if s.mutex.Held? && s.mutex.p == p then OwnerDied else s.mutex)
    case SetTerminating => s.(terminating := true, shut := Flagged)
    case ShutdownStep => ShutStep(s)
  }

  predicate Init(s: State) {
    && |s.procs| > 0
    && (forall p :: 0 <= p < |s.procs| ==> s.procs[p] == Process(Idle, 0, 0, false, false))
    && s.syncCount == 0 && !s.terminating && s.mutex == Free && s.shut == Running && s.round == 0
  }

  ghost predicate IsRun(states: seq<State>, actions: seq<Action>) {
    && |states| == |actions| + 1
    && Init(states[0])
    && forall i :: 0 <= i < |actions| ==> Enabled(states[i], actions[i]) && states[i + 1] == Next(states[i], actions[i])
  }

  // ---------------------------------------------------------------- invariant

  function Arrivals(procs: seq<Process>): nat {
    if procs == [] then 0 else Arrivals(procs[..|procs| - 1]) + procs[|procs| - 1].arrivals
  }

  /** No call that starts now can count itself. */
  predicate Doomed(s: State) { s.terminating || s.syncCount < 0 || s.mutex == Broken }

  predicate ProcOk(s: State, p: nat)
    requires p < |s.procs|
  {
    var c := s.procs[p];
    && (c.pc.InSection() <==> s.mutex.Held? && s.mutex.p == p)
    && (s.syncCount >= 0 ==> c.arrivals <= s.round)
    && (s.syncCount > 0 && !c.failed && (c.pc.Idle? || c.pc.BeforeArrival()) ==> c.arrivals < s.round)
    && (!c.failed && (c.pc.Idle? || c.pc.Arrived()) ==> c.calls == c.arrivals)
    && (!c.failed && c.pc.BeforeArrival() ==> c.calls == c.arrivals + 1)
    && (c.failed ==> Doomed(s) && !c.pc.Arrived())
    && (c.failed && (c.pc.Lock? || c.pc.Check? || c.pc.Arrive?) ==> s.syncCount < 0 || s.mutex == Broken)
    && (c.pc == Notify || c.pc == Unlock(true) ==> s.syncCount == 0)
    && (c.pc == LoopTest(false) || c.pc == Unlock(false) ==> s.terminating || s.syncCount < 0 || s.mutex == Held(p, true))
    && (c.pc == RecoverNotify ==> s.syncCount < 0)
    && (c.pc == Recover ==> s.mutex == Held(p, true))
    && (s.mutex == Held(p, true) ==> c.pc == Recover || c.pc == LoopTest(false) || c.pc == Unlock(false))
    && (s.shut == Leaving || s.shut == Visited ==> c.pc != Asleep)
    && (s.shut == Visited ==> c.pc != Arrive && c.pc != Notify && c.pc != LoopTest(true) && c.pc != Unlock(true))
  }

  predicate LockOk(s: State) {
    && 0 < |s.procs|
    && s.syncCount < |s.procs|
    && (s.mutex.Held? ==> s.mutex.p < |s.procs|)
    && (s.mutex.ByShutdown? ==> s.shut == Notifying || s.shut == Leaving)
    && (s.shut == Notifying || s.shut == Leaving ==> s.mutex.ByShutdown? || s.mutex == Broken)
    && (s.terminating <==> s.shut != Running)
  }

  /** sync_count is what is missing to the end of the round. */
  predicate Counted(s: State) {
    s.syncCount >= 0 ==> Arrivals(s.procs) + s.syncCount == |s.procs| * s.round
  }

  predicate Inv(s: State) {
    LockOk(s) && Counted(s) && forall p :: 0 <= p < |s.procs| ==> ProcOk(s, p)
  }

  lemma {:induction false} ArrivalsUpdate(procs: seq<Process>, p: nat, c: Process)
    requires p < |procs|
    ensures Arrivals(procs[p := c]) == Arrivals(procs) - procs[p].arrivals + c.arrivals
  {
    var k := |procs| - 1;
    if p == k {
      assert procs[p := c][..k] == procs[..k];
    } else {
      assert procs[p := c][..k] == procs[..k][p := c];
      ArrivalsUpdate(procs[..k], p, c);
    }
  }

  lemma {:induction false} ArrivalsSame(a: seq<Process>, b: seq<Process>)
    requires |a| == |b| && forall p :: 0 <= p < |a| ==> a[p].arrivals == b[p].arrivals
    ensures Arrivals(a) == Arrivals(b)
  {
    if a != [] {
      ArrivalsSame(a[..|a| - 1], b[..|b| - 1]);
    }
  }

  /** N counts, none above r, that add up to N * r are all r. */
  lemma {:induction false} AllReached(procs: seq<Process>, r: nat)
    requires forall p :: 0 <= p < |procs| ==> procs[p].arrivals <= r
    ensures Arrivals(procs) <= |procs| * r
    ensures Arrivals(procs) == |procs| * r ==> forall p :: 0 <= p < |procs| ==> procs[p].arrivals == r
  {
    if procs != [] {
      var k := |procs| - 1;
      AllReached(procs[..k], r);
      assert |procs| * r == k * r + r;
      assert forall p :: 0 <= p < k ==> procs[p] == procs[..k][p];
    }
  }

  lemma {:induction false} InitHolds(s: State)
    requires Init(s)
    ensures Inv(s)
  {
    AllReached(s.procs, 0);
  }

  // ---------------------------------------------------------------- preservation

  lemma OneMoreRound(n: nat, r: nat)
    ensures n * (r + 1) == n * r + n
  {
  }

  lemma CountInKeepsCount(s: State, p: nat)
    requires Counted(s) && p < |s.procs|
    ensures Counted(CountIn(s, p))
  {
    var s' := CountIn(s, p);
    if s.syncCount >= 0 {
      ArrivalsUpdate(s.procs, p, s'.procs[p]);
      OneMoreRound(|s.procs|, s.round);
    } else {
      ArrivalsSame(s.procs, s'.procs);
    }
  }

  lemma StepKeepsArrivals(s: State, p: nat, q: nat)
    requires CanStep(s, p) && s.procs[p].pc != Arrive && q < |s.procs|
    ensures |ProcStep(s, p).procs| == |s.procs| && ProcStep(s, p).procs[q].arrivals == s.procs[q].arrivals
  {
  }

  lemma StepKeepsSync(s: State, p: nat)
    requires CanStep(s, p) && s.procs[p].pc != Arrive && s.procs[p].pc != Recover
    ensures ProcStep(s, p).syncCount == s.syncCount && ProcStep(s, p).round == s.round
  {
  }

  lemma StepKeepsCount(s: State, p: nat)
    requires Counted(s) && CanStep(s, p)
    ensures Counted(ProcStep(s, p))
  {
    if s.procs[p].pc == Arrive {
      CountInKeepsCount(s, p);
    } else if s.procs[p].pc != Recover {
      StepKeepsSync(s, p);
      forall q | 0 <= q < |s.procs|
        ensures |ProcStep(s, p).procs| == |s.procs| && ProcStep(s, p).procs[q].arrivals == s.procs[q].arrivals
      {
        StepKeepsArrivals(s, p, q);
      }
      ArrivalsSame(s.procs, ProcStep(s, p).procs);
    }
  }

  lemma StepKeepsLock(s: State, p: nat)
    requires LockOk(s) && CanStep(s, p)
    ensures LockOk(ProcStep(s, p)) && |ProcStep(s, p).procs| == |s.procs|
  {
  }

  lemma StartKeepsOwn(s: State, p: nat)
    requires LockOk(s) && CanStep(s, p) && ProcOk(s, p)
    requires s.procs[p].pc.Start? || s.procs[p].pc.Check?
    ensures |ProcStep(s, p).procs| == |s.procs| && ProcOk(ProcStep(s, p), p)
  {
    match s.procs[p].pc {
      case Start =>
      case Check =>
    }
  }

  lemma LockKeepsOwn(s: State, p: nat)
    requires LockOk(s) && CanStep(s, p) && ProcOk(s, p) && s.procs[p].pc.Lock?
    ensures |ProcStep(s, p).procs| == |s.procs| && ProcOk(ProcStep(s, p), p)
  {
  }

  lemma WokenKeepsOwn(s: State, p: nat)
    requires LockOk(s) && CanStep(s, p) && ProcOk(s, p) && s.procs[p].pc.Woken?
    ensures |ProcStep(s, p).procs| == |s.procs| && ProcOk(ProcStep(s, p), p)
  {
  }

  lemma ArriveKeepsOwn(s: State, p: nat)
    requires LockOk(s) && CanStep(s, p) && ProcOk(s, p) && s.procs[p].pc.Arrive?
    ensures |ProcStep(s, p).procs| == |s.procs| && ProcOk(ProcStep(s, p), p)
  {
  }

  lemma TestKeepsOwn(s: State, p: nat)
    requires LockOk(s) && CanStep(s, p) && ProcOk(s, p)
    requires s.procs[p].pc.LoopTest? || s.procs[p].pc.Retest?
    ensures |ProcStep(s, p).procs| == |s.procs| && ProcOk(ProcStep(s, p), p)
  {
    match s.procs[p].pc {
      case LoopTest(_) =>
      case Retest =>
    }
  }

  lemma LeaveKeepsOwn(s: State, p: nat)
    requires LockOk(s) && CanStep(s, p) && ProcOk(s, p)
    requires s.procs[p].pc.Recover? || s.procs[p].pc.RecoverNotify? || s.procs[p].pc.Notify? || s.procs[p].pc.Unlock?
    ensures |ProcStep(s, p).procs| == |s.procs| && ProcOk(ProcStep(s, p), p)
  {
    match s.procs[p].pc {
      case Recover =>
      case RecoverNotify =>
      case Notify =>
      case Unlock(_) =>
    }
  }

  lemma StepKeepsOwn(s: State, p: nat)
    requires LockOk(s) && CanStep(s, p) && ProcOk(s, p)
    ensures |ProcStep(s, p).procs| == |s.procs| && ProcOk(ProcStep(s, p), p)
  {
    match s.procs[p].pc {
      case Start => StartKeepsOwn(s, p);
      case Check => StartKeepsOwn(s, p);
      case Lock => LockKeepsOwn(s, p);
      case Woken => WokenKeepsOwn(s, p);
      case Arrive => ArriveKeepsOwn(s, p);
      case LoopTest(_) => TestKeepsOwn(s, p);
      case Retest => TestKeepsOwn(s, p);
      case _ => LeaveKeepsOwn(s, p);
    }
  }

  lemma ArriveKeepsOther(s: State, p: nat, q: nat)
    requires LockOk(s) && CanStep(s, p) && q < |s.procs| && q != p && ProcOk(s, q) && s.procs[p].pc == Arrive
    ensures |ProcStep(s, p).procs| == |s.procs| && ProcOk(ProcStep(s, p), q)
  {
  }

  lemma RecoverKeepsOther(s: State, p: nat, q: nat)
    requires LockOk(s) && CanStep(s, p) && q < |s.procs| && q != p && ProcOk(s, q)
    requires s.procs[p].pc == Recover || s.procs[p].pc == RecoverNotify
    ensures |ProcStep(s, p).procs| == |s.procs| && ProcOk(ProcStep(s, p), q)
  {
    match s.procs[p].pc {
      case Recover =>
      case RecoverNotify =>
    }
  }

  lemma StepKeepsOther(s: State, p: nat, q: nat)
    requires LockOk(s) && CanStep(s, p) && q < |s.procs| && q != p && ProcOk(s, q)
    requires s.procs[p].pc == Arrive || s.procs[p].pc == Recover ==> s.mutex.Held?
    ensures |ProcStep(s, p).procs| == |s.procs| && ProcOk(ProcStep(s, p), q)
  {
    match s.procs[p].pc {
      case Arrive => ArriveKeepsOther(s, p, q);
      case Recover => RecoverKeepsOther(s, p, q);
      case RecoverNotify => RecoverKeepsOther(s, p, q);
      case Start =>
      case Lock =>
      case Check =>
      case Notify =>
      case LoopTest(_) =>
      case Woken =>
      case Retest =>
      case Unlock(_) =>
    }
  }

  lemma ShutdownKeepsProc(s: State, a: Action, q: nat)
    requires LockOk(s) && Enabled(s, a) && (a.SetTerminating? || a.ShutdownStep?) && q < |s.procs| && ProcOk(s, q)
    ensures |Next(s, a).procs| == |s.procs| && ProcOk(Next(s, a), q)
  {
    match s.shut {
      case Running =>
      case Flagged =>
      case Notifying =>
      case Leaving =>
      case Visited =>
    }
  }

  lemma DeathKeepsProc(s: State, p: nat, q: nat)
    requires LockOk(s) && Enabled(s, Die(p)) && q < |s.procs| && ProcOk(s, q)
    ensures |Next(s, Die(p)).procs| == |s.procs| && ProcOk(Next(s, Die(p)), q)
  {
  }

  lemma OtherActionKeepsProc(s: State, a: Action, q: nat)
    requires LockOk(s) && Enabled(s, a) && !a.Step? && q < |s.procs| && ProcOk(s, q)
    ensures |Next(s, a).procs| == |s.procs| && ProcOk(Next(s, a), q)
  {
    match a {
      case Call(p) =>
      case Spurious(p) =>
      case Die(p) => DeathKeepsProc(s, p, q);
      case SetTerminating => ShutdownKeepsProc(s, a, q);
      case ShutdownStep => ShutdownKeepsProc(s, a, q);
    }
  }

  lemma NextKeepsInv(s: State, a: Action)
    requires Inv(s) && Enabled(s, a)
    ensures Inv(Next(s, a))
  {
    var s' := Next(s, a);
    if a.Step? {
      StepKeepsLock(s, a.p);
      StepKeepsCount(s, a.p);
      forall q | 0 <= q < |s'.procs|
        ensures ProcOk(s', q)
      {
        if q == a.p {
          StepKeepsOwn(s, a.p);
        } else {
          StepKeepsOther(s, a.p, q);
        }
      }
    } else {
      ArrivalsSame(s.procs, s'.procs);
      forall q | 0 <= q < |s'.procs|
        ensures ProcOk(s', q)
      {
        OtherActionKeepsProc(s, a, q);
      }
    }
  }

  lemma {:induction false} InvAlways(states: seq<State>, actions: seq<Action>, i: nat)
    requires IsRun(states, actions) && i < |states|
    ensures Inv(states[i])
  {
    if i == 0 {
      InitHolds(states[0]);
    } else {
      InvAlways(states, actions, i - 1);
      NextKeepsInv(states[i - 1], actions[i - 1]);
    }
  }
}

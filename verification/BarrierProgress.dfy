/** No livelock in sd_barrier: without new calls and spurious wakeups every run is short. */
module BarrierProgress {
  import opened Sums
  import opened Barrier

  /** An upper bound on what a process can still do in its call, wakeups of the n processes
      included. */
  function PcWeight(pc: Pc, n: nat): nat {
    match pc
    case Dead => 0
    case Idle => 1
    case Unlock(_) => 2
    case Asleep => 3
    case LoopTest(_) => 4
    case Retest => 5
    case Woken => 6
    case Notify => 3 * n + 3
    case RecoverNotify => 3 * n + 3
    case Recover => 3 * n + 4
    case Arrive => 3 * n + 5
    case Check => 3 * n + 6
    case Lock => 3 * n + 7
    case Start => 3 * n + 8
  }

  function Weight(n: nat): Process -> int { (c: Process) => PcWeight(c.pc, n) }

  function ShutRank(shut: Shutdown): nat {
    match shut
    case Running => 4
    case Flagged => 3
    case Notifying => 2
    case Leaving => 1
    case Visited => 0
  }

  function Variant(s: State): int {
    Sum(s.procs, Weight(|s.procs|)) + ShutRank(s.shut) * (3 * |s.procs| + 1)
  }

  /** Neither a new call nor a spurious wakeup. */
  predicate Internal(a: Action) { !a.Call? && !a.Spurious? }

  lemma {:induction false} WakeAllWeighs(procs: seq<Process>, n: nat)
    ensures Sum(WakeAll(procs), Weight(n)) <= Sum(procs, Weight(n)) + 3 * |procs|
  {
    if procs != [] {
      var k := |procs| - 1;
      assert WakeAll(procs)[..k] == WakeAll(procs[..k]);
      WakeAllWeighs(procs[..k], n);
    }
  }

  lemma NotifyingStepDecreases(s: State, p: nat, pc: Pc)
    requires p < |s.procs| && PcWeight(s.procs[p].pc, |s.procs|) == 3 * |s.procs| + 3 && pc.Unlock?
    ensures Sum(WakeAll(Goto(s, p, pc).procs), Weight(|s.procs|)) < Sum(s.procs, Weight(|s.procs|))
  {
    SumUpdate(s.procs, p, s.procs[p].(pc := pc), Weight(|s.procs|));
    WakeAllWeighs(Goto(s, p, pc).procs, |s.procs|);
  }

  /** A step that wakes nobody. */
  predicate Local(s: State, p: nat) {
    CanStep(s, p) && !s.procs[p].pc.Notify? && !s.procs[p].pc.RecoverNotify?
  }

  lemma LocalStepChangesOne(s: State, p: nat)
    requires Local(s, p)
    ensures |ProcStep(s, p).procs| == |s.procs|
    ensures ProcStep(s, p).procs == s.procs[p := ProcStep(s, p).procs[p]]
  {
    match s.procs[p].pc {
      case Start =>
      case Lock =>
      case Recover =>
      case Check =>
      case Arrive =>
      case LoopTest(_) =>
      case Woken =>
      case Retest =>
      case Unlock(_) =>
    }
  }

  lemma LocalStepWeighsLess(s: State, p: nat)
    requires Local(s, p) && |ProcStep(s, p).procs| == |s.procs|
    ensures PcWeight(ProcStep(s, p).procs[p].pc, |s.procs|) < PcWeight(s.procs[p].pc, |s.procs|)
  {
    match s.procs[p].pc {
      case Start =>
      case Lock =>
      case Recover =>
      case Check =>
      case Arrive =>
      case LoopTest(_) =>
      case Woken =>
      case Retest =>
      case Unlock(_) =>
    }
  }

  lemma StepKeepsShutdown(s: State, p: nat)
    requires CanStep(s, p)
    ensures |ProcStep(s, p).procs| == |s.procs| && ProcStep(s, p).shut == s.shut
  {
  }

  lemma StepDecreases(s: State, p: nat)
    requires CanStep(s, p)
    ensures Variant(ProcStep(s, p)) < Variant(s)
  {
    StepKeepsShutdown(s, p);
    if s.procs[p].pc.Notify? {
      NotifyingStepDecreases(s, p, Unlock(true));
    } else if s.procs[p].pc.RecoverNotify? {
      NotifyingStepDecreases(s, p, Unlock(false));
    } else {
      LocalStepChangesOne(s, p);
      LocalStepWeighsLess(s, p);
      SumUpdate(s.procs, p, ProcStep(s, p).procs[p], Weight(|s.procs|));
    }
  }

  lemma ShutdownDecreases(s: State, a: Action)
    requires Enabled(s, a) && (a.SetTerminating? || a.ShutdownStep?)
    ensures Variant(Next(s, a)) < Variant(s)
  {
    var s', unit := Next(s, a), 3 * |s.procs| + 1;
    WakeAllWeighs(s.procs, |s.procs|);
    assert ShutRank(s'.shut) == ShutRank(s.shut) - 1;
    assert ShutRank(s'.shut) * unit == ShutRank(s.shut) * unit - unit;
  }

  lemma InternalDecreases(s: State, a: Action)
    requires Enabled(s, a) && Internal(a)
    ensures Variant(Next(s, a)) < Variant(s)
  {
    match a {
      case Step(p) => StepDecreases(s, p);
      case Die(p) => SumUpdate(s.procs, p, s.procs[p].(pc := Dead), Weight(|s.procs|));
      case _ => ShutdownDecreases(s, a);
    }
  }

  lemma VariantIsNatural(s: State)
    ensures Variant(s) >= 0
  {
    SumIsNatural(s.procs, Weight(|s.procs|));
    assert ShutRank(s.shut) * (3 * |s.procs| + 1) >= 0;
  }

  /** Between new calls and spurious wakeups a run makes at most Variant steps, whatever the
      scheduler does and whoever dies: it ends in a state in which nobody can go on. */
  lemma {:induction false} BoundedWork(states: seq<State>, actions: seq<Action>, i: nat, j: nat)
    requires IsRun(states, actions) && i <= j < |states|
    requires forall k :: i <= k < j ==> Internal(actions[k])
    ensures 0 <= Variant(states[j]) <= Variant(states[i]) - (j - i)
    decreases j - i
  {
    VariantIsNatural(states[j]);
    if i < j {
      BoundedWork(states, actions, i, j - 1);
      InternalDecreases(states[j - 1], actions[j - 1]);
    }
  }
}

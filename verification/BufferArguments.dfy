/** The calls in the states of a run are the invocations among its actions, with the arguments
    they were made with. */
module BufferArguments {
  import opened Bytes
  import opened BufferProtocol

  /** The invocations of sd_write and sd_read, in order. */
  function Begun(actions: seq<Action>): seq<Action> {
    if actions == [] then []
    else
      var k := |actions| - 1;
      Begun(actions[..k]) + (if actions[k].Begin? then [actions[k]] else [])
  }

  predicate Carries(c: Call, a: Action) {
    a.Begin? && c.role == a.role && c.n == a.n && c.msg == a.msg
  }

  predicate SameArguments(c: Call, c': Call) {
    c'.role == c.role && c'.n == c.n && c'.msg == c.msg && c'.late == c.late
  }

  lemma CallStepKeepsArguments(s: State, t: nat, wake: nat, u: nat)
    requires CanStep(s, t) && Sane(s, Step(t, wake)) && u < |s.calls|
    ensures |CallStep(s, t, wake).calls| == |s.calls| && SameArguments(s.calls[u], CallStep(s, t, wake).calls[u])
  {
    match s.calls[t].pc {
      case Start =>
      case Lock =>
      case Check =>
      case TestAlone =>
      case WokenAlone =>
      case RetestAlone =>
      case Transfer => TransferKeepsArguments(s, t, wake, u);
      case WokenRoom =>
      case RetestRoom =>
      case NotifyPeer => NotifyKeepsArguments(s, t, wake, u);
      case NotifyAlone => NotifyKeepsArguments(s, t, wake, u);
      case Unlock(_) =>
    }
  }

  lemma TransferKeepsArguments(s: State, t: nat, wake: nat, u: nat)
    requires CanStep(s, t) && Sane(s, Step(t, wake)) && u < |s.calls| && s.calls[t].pc.Transfer?
    ensures |CallStep(s, t, wake).calls| == |s.calls| && SameArguments(s.calls[u], CallStep(s, t, wake).calls[u])
  {
  }

  lemma NotifyKeepsArguments(s: State, t: nat, wake: nat, u: nat)
    requires CanStep(s, t) && Sane(s, Step(t, wake)) && u < |s.calls|
    requires s.calls[t].pc.NotifyPeer? || s.calls[t].pc.NotifyAlone?
    ensures |CallStep(s, t, wake).calls| == |s.calls| && SameArguments(s.calls[u], CallStep(s, t, wake).calls[u])
  {
  }

  lemma NextKeepsArguments(s: State, a: Action, t: nat)
    requires Enabled(s, a) && Sane(s, a) && t < |s.calls|
    ensures |Next(s, a).calls| == |s.calls| + (if a.Begin? then 1 else 0)
    ensures SameArguments(s.calls[t], Next(s, a).calls[t])
  {
    match a {
      case Step(u, wake) => CallStepKeepsArguments(s, u, wake, t);
      case _ =>
    }
  }

  lemma BeginTakesArguments(s: State, a: Action)
    requires Enabled(s, a) && a.Begin?
    ensures |Next(s, a).calls| == |s.calls| + 1
    ensures var c := Next(s, a).calls[|s.calls|]; Carries(c, a) && c.late == s.terminating && c.moved == [] && c.pc == Start
  {
  }

  lemma RunStep(states: seq<State>, actions: seq<Action>, i: nat)
    requires IsRun(states, actions) && i < |actions|
    ensures Enabled(states[i], actions[i]) && Sane(states[i], actions[i])
    ensures states[i + 1] == Next(states[i], actions[i])
  {
    InvAlways(states, actions, i);
    assert Transition(states[i], actions[i], states[i + 1]);
    InvIsSane(states[i], actions[i]);
  }

  /** In any state of a run the calls are exactly the invocations so far, with their arguments. */
  lemma {:induction false} ArgumentsAlways(states: seq<State>, actions: seq<Action>, i: nat)
    requires IsRun(states, actions) && i < |states|
    ensures |states[i].calls| == |Begun(actions[..i])|
    ensures forall t :: 0 <= t < |states[i].calls| ==> Carries(states[i].calls[t], Begun(actions[..i])[t])
  {
    if i > 0 {
      var s, a := states[i - 1], actions[i - 1];
      ArgumentsAlways(states, actions, i - 1);
      RunStep(states, actions, i - 1);
      assert actions[..i][..i - 1] == actions[..i - 1];
      OneMoreCall(s, a);
      forall t | 0 <= t < |s.calls|
        ensures Carries(states[i].calls[t], Begun(actions[..i])[t])
      {
        NextKeepsArguments(s, a, t);
      }
    }
  }

  lemma OneMoreCall(s: State, a: Action)
    requires Enabled(s, a) && Sane(s, a)
    ensures |Next(s, a).calls| == |s.calls| + (if a.Begin? then 1 else 0)
    ensures a.Begin? ==> Carries(Next(s, a).calls[|s.calls|], a)
  {
    if a.Step? {
      CallStepKeepsArguments(s, a.t, a.wake, a.t);
    }
  }

  /** The call that an invocation begins has the role, the length and the bytes of the
      invocation ever after, and is late exactly if terminating was set when it was made. */
  lemma {:induction false} CallIsBegun(states: seq<State>, actions: seq<Action>, i: nat, j: nat)
    requires IsRun(states, actions) && i < j < |states| && actions[i].Begin?
    ensures var t := |states[i].calls|;
            && t < |states[j].calls|
            && Carries(states[j].calls[t], actions[i])
            && (states[j].calls[t].late <==> states[i].terminating)
    decreases j
  {
    RunStep(states, actions, j - 1);
    if j == i + 1 {
      BeginTakesArguments(states[i], actions[i]);
    } else {
      CallIsBegun(states, actions, i, j - 1);
      NextKeepsArguments(states[j - 1], actions[j - 1], |states[i].calls|);
    }
  }

  /** The messages of the invocations with these numbers. */
  function MessagesOf(begun: seq<Action>, order: seq<nat>): seq<seq<byte>>
    requires forall k :: 0 <= k < |order| ==> order[k] < |begun| && begun[order[k]].Begin?
  {
    seq(|order|, k requires 0 <= k < |order| => begun[order[k]].msg)
  }

  function LengthsOf(begun: seq<Action>, order: seq<nat>): seq<nat>
    requires forall k :: 0 <= k < |order| ==> order[k] < |begun| && begun[order[k]].Begin?
  {
    seq(|order|, k requires 0 <= k < |order| => begun[order[k]].n)
  }
}

/** sd_write, sd_read and sd_shutdown on one shared memory buffer, as a step system over
    any number of concurrent calls. One step is what a thread does between two points at
    which another thread can act on the same data. A condition variable is the set of calls
    asleep on it; a woken call contends for the mutex again before it goes on. */
module BufferProtocol {
  import opened Bytes
  import opened RingBuffer

  datatype Role = Writer | Reader {
    function Other(): Role { if this == Writer then Reader else Writer }
  }

  /** Where a call is. "Alone" is the wait for the own side's flag, "Room" the wait for
      free space (writer) or for data (reader). */
  datatype Pc =
    | Start           // nothing tested yet
    | Lock            // waits for the mutex
    | Check           // has the mutex, tests terminating
    | TestAlone       // loop test of the flag
    | AsleepAlone | WokenAlone | RetestAlone
    | Transfer        // loop test of the transfer, then of the ring
    | AsleepRoom | WokenRoom | RetestRoom
    | NotifyPeer      // chunk moved, peer not yet notified
    | NotifyAlone     // flag cleared, next one not yet notified
    | Unlock(ok: bool)
    | Done(ok: bool)
  {
    /** Holds the mutex. */
    predicate InSection() {
      Check? || TestAlone? || RetestAlone? || Transfer? || RetestRoom? || NotifyPeer? || NotifyAlone? || Unlock?
    }

    /** Has not set the flag of its side. */
    predicate BeforeTurn() {
      Start? || Lock? || Check? || TestAlone? || AsleepAlone? || WokenAlone? || RetestAlone?
    }

    /** Has set the flag of its side and not cleared it. */
    predicate InTurn() {
      Transfer? || AsleepRoom? || WokenRoom? || RetestRoom? || NotifyPeer?
    }

    predicate Asleep() { AsleepAlone? || AsleepRoom? }

    predicate Finished() { NotifyAlone? || this == Unlock(true) || this == Done(true) }

    predicate Failed() { this == Unlock(false) || this == Done(false) }

    function Awake(): Pc {
      match this
      case AsleepAlone => WokenAlone
      case AsleepRoom => WokenRoom
      case _ => this
    }
  }

  /** One invocation of sd_write or sd_read with nbytes == n.
      moved: the bytes copied so far; ticket: its place in the order in which its side's flag
      was set, -1 before; late: began after terminating was set; kicked: woken by sd_shutdown */
  datatype Call = Call(role: Role, n: nat, msg: seq<byte>, moved: seq<byte>, pc: Pc,
                       ticket: int, late: bool, kicked: bool)

  /** One side of the buffer: its flag (writing, reading), the calls that set it, in order,
      and every byte the side has ever copied. */
  datatype Side = Side(active: bool, order: seq<nat>, stream: seq<byte>)

  datatype Holder = Free | Held(t: nat) | ByShutdown

  /** Progress of the one sd_shutdown call that sets the flag, as far as this buffer sees it. */
  datatype Shutdown = Running | Flagged | Notifying(i: nat) | Leaving | Visited

  datatype State = State(ring: Ring, writers: Side, readers: Side, terminating: bool,
                         holder: Holder, calls: seq<Call>, shut: Shutdown)
  {
    function Side(role: Role): Side { if role == Writer then writers else readers }

    function WithSide(role: Role, side: Side): State {
      if role == Writer then this.(writers := side) else this.(readers := side)
    }

    /** The ring test in front of a wait: filled == bufsize, filled == 0. */
    predicate Blocked(role: Role) {
      if role == Writer then ring.filled == ring.Size() else ring.filled == 0
    }

    predicate At(t: nat, role: Role, pc: Pc) {
      t < |calls| && calls[t].role == role && calls[t].pc == pc
    }

    predicate HolderAt(role: Role, pc: Pc) {
      holder.Held? && At(holder.t, role, pc)
    }
  }

  ghost predicate Someone(calls: seq<Call>, role: Role, pc: Pc) {
    exists t :: 0 <= t < |calls| && calls[t].role == role && calls[t].pc == pc
  }

  // ---------------------------------------------------------------- steps

  datatype Action =
    | Begin(role: Role, n: nat, msg: seq<byte>)
    | Step(t: nat, wake: nat)
    | Spurious(t: nat)
    | SetTerminating
    | ShutdownStep

  /** wake may be picked by notify_one: any sleeper, if there is one. */
  ghost predicate MayWake(calls: seq<Call>, role: Role, pc: Pc, wake: nat) {
    Someone(calls, role, pc) ==> wake < |calls| && calls[wake].role == role && calls[wake].pc == pc
  }

  function NotifyOne(calls: seq<Call>, role: Role, pc: Pc, wake: nat): seq<Call> {
    if wake < |calls| && calls[wake].role == role && calls[wake].pc == pc
    then calls[wake := calls[wake].(pc := pc.Awake())]
    else calls
  }

  function NotifyAll(calls: seq<Call>, role: Role, pc: Pc): seq<Call> {
    seq(|calls|, i requires 0 <= i < |calls| =>
      if calls[i].role == role && calls[i].pc == pc
      then calls[i].(pc := pc.Awake(), kicked := true) else calls[i])
  }

  /** The four condition variables in the order in which sd_shutdown notifies them. */
  function CvRole(i: nat): Role { if i == 0 || i == 3 then Reader else Writer }
  function CvPc(i: nat): Pc { if i < 2 then AsleepRoom else AsleepAlone }

  /** The call can go on by itself: it is not asleep, not done and not waiting for the mutex. */
  predicate CanStep(s: State, t: nat) {
    t < |s.calls| &&
    match s.calls[t].pc
    case Start => true
    case Lock => s.holder == Free
    case WokenAlone => s.holder == Free
    case WokenRoom => s.holder == Free
    case _ => s.calls[t].pc.InSection() && s.holder == Held(t)
  }

  ghost predicate Enabled(s: State, a: Action) {
    match a
    case Begin(role, n, msg) => role == Writer ==> n == |msg|
    case Step(t, wake) =>
      && CanStep(s, t)
      && (s.calls[t].pc == NotifyPeer ==> MayWake(s.calls, s.calls[t].role.Other(), AsleepRoom, wake))
      && (s.calls[t].pc == NotifyAlone ==> MayWake(s.calls, s.calls[t].role, AsleepAlone, wake))
    case Spurious(t) => t < |s.calls| && s.calls[t].pc.Asleep()
    case SetTerminating => s.shut == Running
    case ShutdownStep =>
      match s.shut
      case Flagged => s.holder == Free
      case Notifying(i) => true
      case Leaving => true
      case _ => false
  }

  function Goto(s: State, t: nat, pc: Pc): State
    requires t < |s.calls|
  {
    s.(calls := s.calls[t := s.calls[t].(pc := pc)])
  }

  /** The memcpy of the transfer loop with its index updates. */
  function MoveChunk(s: State, t: nat): State
    requires t < |s.calls| && s.ring.Ok() && |s.calls[t].moved| <= s.calls[t].n
    requires s.calls[t].role == Writer ==> s.calls[t].n == |s.calls[t].msg|
  {
    var c := s.calls[t];
    var k, left := |c.moved|, c.n - |c.moved|;
    if c.role == Writer then
      var chunk := c.msg[k..k + WriteCount(s.ring, left)];
      s.(ring := CopyIn(s.ring, chunk),
         writers := s.writers.(stream := s.writers.stream + chunk),
         calls := s.calls[t := c.(moved := c.moved + chunk, pc := NotifyPeer)])
    else
      var count := ReadCount(s.ring, left);
      var chunk := CopiedOut(s.ring, count);
      s.(ring := CopyOut(s.ring, count),
         readers := s.readers.(stream := s.readers.stream + chunk),
         calls := s.calls[t := c.(moved := c.moved + chunk, pc := NotifyPeer)])
  }

  function Acquire(s: State, t: nat, pc: Pc): State
    requires t < |s.calls|
  {
    Goto(s, t, pc).(holder := Held(t))
  }

  function Release(s: State, t: nat, pc: Pc): State
    requires t < |s.calls|
  {
    Goto(s, t, pc).(holder := Free)
  }

  /** Sets the flag of the own side. */
  function TakeTurn(s: State, t: nat): State
    requires t < |s.calls|
  {
    var c := s.calls[t];
    var side := s.Side(c.role);
    s.(calls := s.calls[t := c.(pc := Transfer, ticket := |side.order|)])
    .WithSide(c.role, side.(active := true, order := side.order + [t]))
  }

  /** Clears the flag of the own side. */
  function EndTurn(s: State, t: nat): State
    requires t < |s.calls|
  {
    var c := s.calls[t];
    Goto(s, t, NotifyAlone).WithSide(c.role, s.Side(c.role).(active := false))
  }

  function GotoAndNotify(s: State, t: nat, pc: Pc, role: Role, cv: Pc, wake: nat): State
    requires t < |s.calls|
  {
    var s' := Goto(s, t, pc);
    s'.(calls := NotifyOne(s'.calls, role, cv, wake))
  }

  function CallStep(s: State, t: nat, wake: nat): State
    requires CanStep(s, t) && s.ring.Ok() && |s.calls[t].moved| <= s.calls[t].n
    requires s.calls[t].role == Writer ==> s.calls[t].n == |s.calls[t].msg|
  {
    var c := s.calls[t];
    match c.pc
    case Start => Goto(s, t, if c.n == 0 then Done(true) else if s.terminating then Done(false) else Lock)
    case Lock => Acquire(s, t, Check)
    case Check => Goto(s, t, if s.terminating then Unlock(false) else TestAlone)
    case TestAlone => if s.Side(c.role).active then Release(s, t, AsleepAlone) else TakeTurn(s, t)
    case WokenAlone => Acquire(s, t, RetestAlone)
    case RetestAlone => Goto(s, t, if s.terminating then Unlock(false) else TestAlone)
    case Transfer =>
      if |c.moved| == c.n then EndTurn(s, t)
      else if s.Blocked(c.role) then Release(s, t, AsleepRoom)
      else MoveChunk(s, t)
    case WokenRoom => Acquire(s, t, RetestRoom)
    case RetestRoom => Goto(s, t, if s.terminating then Unlock(false) else Transfer)
    case NotifyPeer => GotoAndNotify(s, t, Transfer, c.role.Other(), AsleepRoom, wake)
    case NotifyAlone => GotoAndNotify(s, t, Unlock(true), c.role, AsleepAlone, wake)
    case Unlock(ok) => Release(s, t, Done(ok))
    case _ => s
  }

  function ShutStep(s: State): State {
    match s.shut
    case Flagged => s.(holder := ByShutdown, shut := Notifying(0))
    case Notifying(i) =>
      s.(calls := NotifyAll(s.calls, CvRole(i), CvPc(i)), shut := if i < 3 then Notifying(i + 1) else Leaving)
    case Leaving => s.(holder := Free, shut := Visited)
    case _ => s
  }

  /** What a step of a call relies on: without it the memcpy could leave the ring or the
      caller's bytes, and the step could do anything. */
  ghost predicate Sane(s: State, a: Action) {
    a.Step? && a.t < |s.calls| ==>
      && s.ring.Ok() && |s.calls[a.t].moved| <= s.calls[a.t].n
      && (s.calls[a.t].role == Writer ==> s.calls[a.t].n == |s.calls[a.t].msg|)
  }

  function Next(s: State, a: Action): State
    requires Enabled(s, a) && Sane(s, a)
  {
    match a
    case Begin(role, n, msg) => s.(calls := s.calls + [Call(role, n, msg, [], Start, -1, s.terminating, false)])
    case Step(t, wake) => CallStep(s, t, wake)
    case Spurious(t) => Goto(s, t, s.calls[t].pc.Awake())
    case SetTerminating => s.(terminating := true, shut := Flagged)
    case ShutdownStep => ShutStep(s)
  }

  /** init_buffer with a payload of bufsize > 0 bytes */
  ghost predicate Init(s: State) {
    && s.ring.Size() > 0 && s.ring.readIndex == s.ring.writeIndex == s.ring.filled == 0
    && s.writers == s.readers == Side(false, [], [])
    && !s.terminating && s.holder == Free && s.calls == [] && s.shut == Running
  }

  ghost predicate Transition(s: State, a: Action, s': State) {
    Enabled(s, a) && (Sane(s, a) ==> s' == Next(s, a))
  }

  ghost predicate IsRun(states: seq<State>, actions: seq<Action>) {
    && |states| == |actions| + 1
    && Init(states[0])
    && forall i :: 0 <= i < |actions| ==> Transition(states[i], actions[i], states[i + 1])
  }

  // ---------------------------------------------------------------- invariant

  /** What is known of one call, in relation to the mutex, its side and the shutdown. */
  ghost predicate CallOk(s: State, t: nat)
    requires t < |s.calls|
  {
    var c := s.calls[t];
    var side := s.Side(c.role);
    && (c.pc.InSection() <==> s.holder == Held(t))
    && |c.moved| <= c.n
    && (c.role == Writer ==> c.n == |c.msg| && c.moved == c.msg[..|c.moved|])
    && (c.n == 0 ==> (c.pc == Start || c.pc == Done(true)) && c.ticket == -1)
    && -1 <= c.ticket < |side.order|
    && (c.ticket == -1 ==> c.moved == [])
    && (c.ticket >= 0 ==> side.order[c.ticket] == t)
    && (c.pc.BeforeTurn() ==> c.ticket == -1)
    && (c.pc.InTurn() ==> side.active && c.ticket >= 0 && c.ticket == |side.order| - 1)
    && (c.pc.AsleepRoom? || c.pc.WokenRoom? || c.pc.RetestRoom? ==> |c.moved| < c.n)
    && (c.pc.Finished() ==> |c.moved| == c.n && (c.n == 0 || c.ticket >= 0))
    && (c.pc.Failed() ==> s.terminating && (c.ticket >= 0 ==> side.active && c.ticket == |side.order| - 1))
    && (c.kicked ==> s.terminating && (c.pc.WokenAlone? || c.pc.RetestAlone? || c.pc.WokenRoom? || c.pc.RetestRoom? || c.pc.Failed()))
    && (c.late ==> s.terminating && (c.pc == Start || c.pc == Done(false) || c.n == 0))
    && (s.shut == Visited ==> !(c.pc.TestAlone? || c.pc.Transfer? || c.pc.NotifyPeer? || c.pc.NotifyAlone? || c.pc == Unlock(true) || c.pc.Asleep()))
    && (s.shut == Leaving ==> !c.pc.Asleep())
  }

  /** The order of a side lists its turns; all but the running one are complete. */
  ghost predicate SideOk(s: State, role: Role) {
    var side := s.Side(role);
    && (forall i :: 0 <= i < |side.order| ==> TurnOk(s, role, i))
    && (side.active ==> side.order != [])
  }

  ghost predicate TurnOk(s: State, role: Role, i: nat)
    requires i < |s.Side(role).order|
  {
    var side := s.Side(role);
    var t := side.order[i];
    && t < |s.calls|
    && s.calls[t].role == role
    && s.calls[t].ticket == i
    && (i < |side.order| - 1 || !side.active ==> s.calls[t].pc.Finished())
    && (i == |side.order| - 1 && side.active ==> s.calls[t].pc.InTurn() || s.calls[t].pc.Failed())
  }

  predicate InRange(calls: seq<Call>, order: seq<nat>) {
    forall i :: 0 <= i < |order| ==> order[i] < |calls|
  }

  /** Everything the calls of a side have moved, turn by turn. */
  function Moved(calls: seq<Call>, order: seq<nat>): seq<seq<byte>>
    requires InRange(calls, order)
  {
    seq(|order|, i requires 0 <= i < |order| => calls[order[i]].moved)
  }

  ghost predicate StreamsOk(s: State) {
    && s.ring.Ok()
    && InRange(s.calls, s.writers.order) && InRange(s.calls, s.readers.order)
    && s.writers.stream == Flatten(Moved(s.calls, s.writers.order))
    && s.readers.stream == Flatten(Moved(s.calls, s.readers.order))
    && s.writers.stream == s.readers.stream + s.ring.Contents()
  }

  ghost predicate LockOk(s: State) {
    && (s.holder.Held? ==> s.holder.t < |s.calls|)
    && (s.holder == ByShutdown <==> s.shut.Notifying? || s.shut.Leaving?)
    && (s.terminating <==> s.shut != Running)
    && (s.shut.Notifying? ==> s.shut.i <= 3 && forall j :: 0 <= j < s.shut.i ==> !Someone(s.calls, CvRole(j), CvPc(j)))
  }

  /** Nobody sleeps who should have been woken. */
  ghost predicate AloneOk(s: State, role: Role) {
    Someone(s.calls, role, AsleepAlone) ==>
      || s.Side(role).active
      || Someone(s.calls, role, WokenAlone)
      || s.HolderAt(role, RetestAlone) || s.HolderAt(role, TestAlone) || s.HolderAt(role, NotifyAlone)
  }

  ghost predicate RoomOk(s: State, role: Role) {
    Someone(s.calls, role, AsleepRoom) ==> s.Blocked(role) || s.HolderAt(role.Other(), NotifyPeer)
  }

  ghost predicate WakeOk(s: State, role: Role) {
    AloneOk(s, role) && RoomOk(s, role)
  }

  ghost predicate CallsOk(s: State) {
    forall t :: 0 <= t < |s.calls| ==> CallOk(s, t)
  }

  ghost predicate Base(s: State) {
    LockOk(s) && CallsOk(s) && SideOk(s, Writer) && SideOk(s, Reader)
  }

  ghost predicate Inv(s: State) {
    && Base(s)
    && StreamsOk(s)
    && (!s.terminating ==> WakeOk(s, Writer) && WakeOk(s, Reader))
  }

  lemma InitHolds(s: State)
    requires Init(s)
    ensures Inv(s)
  {
    assert s.ring.Contents() == [];
  }

  // ---------------------------------------------------------------- preservation

  lemma InvIsSane(s: State, a: Action)
    requires Inv(s) && Enabled(s, a)
    ensures Sane(s, a)
  {
    if a.Step? {
      assert CallOk(s, a.t);
    }
  }

  /** s' differs from s for call u at most by a wakeup and by what another call may do
      to the mutex and to the own side. */
  ghost predicate Undisturbed(s: State, s': State, u: nat)
    requires u < |s.calls| == |s'.calls|
  {
    var c, c' := s.calls[u], s'.calls[u];
    var side, side' := s.Side(c.role), s'.Side(c.role);
    && (c' == c || (c.pc.Asleep() && c' == c.(pc := c.pc.Awake())))
    && s'.terminating == s.terminating && s'.shut == s.shut
    && (s'.holder == s.holder || (s.holder != Held(u) && s'.holder != Held(u)))
    && (|| (side'.order == side.order && side'.active == side.active)
        || (side'.order == side.order && side.order != [] && side.order[|side.order| - 1] != u)
        || (!side.active && |side'.order| == |side.order| + 1 && side'.order[..|side.order|] == side.order))
  }

  lemma UndisturbedCall(s: State, s': State, u: nat)
    requires u < |s.calls| == |s'.calls|
    requires CallOk(s, u) && Undisturbed(s, s', u)
    ensures CallOk(s', u)
  {
    var c := s.calls[u];
    var side, side' := s.Side(c.role), s'.Side(c.role);
    if c.ticket >= 0 && |side'.order| == |side.order| + 1 {
      assert side'.order[c.ticket] == side'.order[..|side.order|][c.ticket];
    }
  }

  /** How call t may change the two sides in one step. */
  ghost predicate OwnSide(s: State, s': State, t: nat, role: Role)
    requires t < |s.calls| == |s'.calls|
  {
    var side, side' := s.Side(role), s'.Side(role);
    || (side'.order == side.order && side'.active == side.active)
    || (side'.order == side.order && !side'.active && side.order != [] && side.order[|side.order| - 1] == t)
    || (&& !side.active && side'.active && side'.order == side.order + [t]
        && s.calls[t].ticket == -1 && s'.calls[t].role == role && s'.calls[t].ticket == |side.order|)
  }

  /** A step of call t keeps what is known of all calls and of both sides, if it keeps it for t. */
  lemma BaseKept(s: State, s': State, t: nat)
    requires Base(s) && t < |s.calls| == |s'.calls|
    requires forall u :: 0 <= u < |s.calls| && u != t ==> Undisturbed(s, s', u)
    requires OwnSide(s, s', t, Writer) && OwnSide(s, s', t, Reader)
    requires s'.calls[t].role == s.calls[t].role && CallOk(s', t)
    requires s'.calls[t].ticket >= 0 ==> TurnOk(s', s'.calls[t].role, s'.calls[t].ticket)
    requires s.calls[t].ticket >= 0 ==> s'.calls[t].ticket == s.calls[t].ticket
    requires LockOk(s')
    ensures Base(s')
  {
    forall u | 0 <= u < |s'.calls|
      ensures CallOk(s', u)
    {
      if u != t {
        UndisturbedCall(s, s', u);
      }
    }
    SideKept(s, s', t, Writer);
    SideKept(s, s', t, Reader);
  }

  lemma SideKept(s: State, s': State, t: nat, role: Role)
    requires SideOk(s, role) && t < |s.calls| == |s'.calls|
    requires forall u :: 0 <= u < |s.calls| && u != t ==> Undisturbed(s, s', u)
    requires OwnSide(s, s', t, role)
    requires s'.calls[t].role == s.calls[t].role
    requires s'.calls[t].role == role && s'.calls[t].ticket >= 0 ==>
               s'.calls[t].ticket < |s'.Side(role).order| && TurnOk(s', role, s'.calls[t].ticket)
    requires s.calls[t].ticket >= 0 ==> s'.calls[t].ticket == s.calls[t].ticket
    ensures SideOk(s', role)
  {
    var side, side' := s.Side(role), s'.Side(role);
    forall i | 0 <= i < |side'.order|
      ensures TurnOk(s', role, i)
    {
      if i < |side.order| {
        assert TurnOk(s, role, i);
        assert side'.order[i] == side.order[i];
        if side.order[i] != t {
          assert Undisturbed(s, s', side.order[i]);
        }
      } else {
        assert side'.order[i] == t;
      }
    }
  }

  /** The mutex and shutdown facts survive a step that puts nobody to sleep behind sd_shutdown's back. */
  lemma LockKept(s: State, s': State, t: nat)
    requires LockOk(s) && t < |s.calls| == |s'.calls|
    requires forall u :: 0 <= u < |s.calls| && u != t ==> Undisturbed(s, s', u)
    requires s'.calls[t].role == s.calls[t].role
    requires s'.terminating == s.terminating && s'.shut == s.shut
    requires s'.holder == s.holder || (s.holder != ByShutdown && (s'.holder == Free || s'.holder == Held(t)))
    requires s'.calls[t].pc.Asleep() ==> s.holder == Held(t)
    ensures LockOk(s')
  {
    if s.shut.Notifying? {
      forall j | 0 <= j < s.shut.i
        ensures !Someone(s'.calls, CvRole(j), CvPc(j))
      {
        forall u | 0 <= u < |s'.calls|
          ensures !(s'.calls[u].role == CvRole(j) && s'.calls[u].pc == CvPc(j))
        {
          assert !Someone(s.calls, CvRole(j), CvPc(j)) && CvPc(j).Asleep();
          if u != t {
            assert Undisturbed(s, s', u);
          }
        }
      }
    }
  }

  /** The tests made without going to sleep. */
  lemma TestKeeps(s: State, t: nat, pc: Pc)
    requires Base(s) && CanStep(s, t)
    requires
      match s.calls[t].pc
      case Start => pc == if s.calls[t].n == 0 then Done(true) else if s.terminating then Done(false) else Lock
      case Check => pc == if s.terminating then Unlock(false) else TestAlone
      case RetestAlone => pc == if s.terminating then Unlock(false) else TestAlone
      case RetestRoom => pc == if s.terminating then Unlock(false) else Transfer
      case _ => false
    ensures Base(Goto(s, t, pc))
  {
    var s' := Goto(s, t, pc);
    assert CallOk(s, t);
    LockKept(s, s', t);
    if s.calls[t].ticket >= 0 {
      assert TurnOk(s, s.calls[t].role, s.calls[t].ticket);
    }
    BaseKept(s, s', t);
  }

  lemma AcquireKeeps(s: State, t: nat, pc: Pc)
    requires Base(s) && CanStep(s, t)
    requires
      match s.calls[t].pc
      case Lock => pc == Check
      case WokenAlone => pc == RetestAlone
      case WokenRoom => pc == RetestRoom
      case _ => false
    ensures Base(Acquire(s, t, pc))
  {
    var s' := Acquire(s, t, pc);
    assert CallOk(s, t);
    forall u | 0 <= u < |s.calls| && u != t
      ensures Undisturbed(s, s', u)
    {
      assert CallOk(s, u);
    }
    LockKept(s, s', t);
    if s.calls[t].ticket >= 0 {
      assert TurnOk(s, s.calls[t].role, s.calls[t].ticket);
    }
    BaseKept(s, s', t);
  }

  lemma ReleaseKeeps(s: State, t: nat, pc: Pc)
    requires Base(s) && CanStep(s, t)
    requires
      match s.calls[t].pc
      case TestAlone => pc == AsleepAlone
      case Transfer => pc == AsleepRoom && |s.calls[t].moved| != s.calls[t].n
      case Unlock(ok) => pc == Done(ok)
      case _ => false
    ensures Base(Release(s, t, pc))
  {
    var s' := Release(s, t, pc);
    assert CallOk(s, t);
    LockKept(s, s', t);
    if s.calls[t].ticket >= 0 {
      assert TurnOk(s, s.calls[t].role, s.calls[t].ticket);
    }
    BaseKept(s, s', t);
  }

  lemma TakeTurnKeeps(s: State, t: nat)
    requires Base(s) && CanStep(s, t) && s.calls[t].pc == TestAlone && !s.Side(s.calls[t].role).active
    ensures Base(TakeTurn(s, t))
  {
    var s' := TakeTurn(s, t);
    assert CallOk(s, t);
    forall u | 0 <= u < |s.calls| && u != t
      ensures Undisturbed(s, s', u)
    {
      assert s'.Side(s.calls[t].role).order[..|s.Side(s.calls[t].role).order|] == s.Side(s.calls[t].role).order;
    }
    LockKept(s, s', t);
    BaseKept(s, s', t);
  }

  lemma EndTurnKeeps(s: State, t: nat)
    requires Base(s) && CanStep(s, t) && s.calls[t].pc == Transfer && |s.calls[t].moved| == s.calls[t].n
    ensures Base(EndTurn(s, t))
  {
    var s' := EndTurn(s, t);
    assert CallOk(s, t);
    LockKept(s, s', t);
    assert TurnOk(s, s.calls[t].role, s.calls[t].ticket);
    BaseKept(s, s', t);
  }

  lemma NotifyKeeps(s: State, t: nat, pc: Pc, role: Role, cv: Pc, wake: nat)
    requires Base(s) && CanStep(s, t) && cv.Asleep()
    requires
      match s.calls[t].pc
      case NotifyPeer => pc == Transfer
      case NotifyAlone => pc == Unlock(true)
      case _ => false
    ensures Base(GotoAndNotify(s, t, pc, role, cv, wake))
  {
    var s' := GotoAndNotify(s, t, pc, role, cv, wake);
    assert CallOk(s, t);
    LockKept(s, s', t);
    assert TurnOk(s, s.calls[t].role, s.calls[t].ticket);
    BaseKept(s, s', t);
  }

  lemma MoveChunkKeeps(s: State, t: nat)
    requires Base(s) && s.ring.Ok() && CanStep(s, t) && s.calls[t].pc == Transfer
    requires CallOk(s, t) && |s.calls[t].moved| < s.calls[t].n
    ensures Base(MoveChunk(s, t))
  {
    var s' := MoveChunk(s, t);
    LockKept(s, s', t);
    assert TurnOk(s, s.calls[t].role, s.calls[t].ticket);
    BaseKept(s, s', t);
  }

  lemma OrderFacts(s: State, role: Role)
    requires SideOk(s, role)
    ensures var order := s.Side(role).order;
            InRange(s.calls, order) && forall i :: 0 <= i < |order| ==> s.calls[order[i]].role == role && s.calls[order[i]].ticket == i
  {
    var order := s.Side(role).order;
    forall i | 0 <= i < |order|
      ensures order[i] < |s.calls| && s.calls[order[i]].role == role && s.calls[order[i]].ticket == i
    {
      assert TurnOk(s, role, i);
    }
  }

  /** A step that moves no byte leaves the streams as they are. */
  lemma StreamsKept(s: State, s': State, t: nat)
    requires StreamsOk(s) && t < |s.calls| == |s'.calls|
    requires SideOk(s', Writer) && SideOk(s', Reader)
    requires forall u :: 0 <= u < |s.calls| ==> s'.calls[u].moved == s.calls[u].moved
    requires s'.ring == s.ring && s'.writers.stream == s.writers.stream && s'.readers.stream == s.readers.stream
    requires s'.writers.order == s.writers.order || (s'.writers.order == s.writers.order + [t] && s.calls[t].moved == [])
    requires s'.readers.order == s.readers.order || (s'.readers.order == s.readers.order + [t] && s.calls[t].moved == [])
    ensures StreamsOk(s')
  {
    OrderKept(s, s', t, Writer);
    OrderKept(s, s', t, Reader);
  }

  lemma OrderKept(s: State, s': State, t: nat, role: Role)
    requires t < |s.calls| == |s'.calls| && SideOk(s', role) && InRange(s.calls, s.Side(role).order)
    requires forall u :: 0 <= u < |s.calls| ==> s'.calls[u].moved == s.calls[u].moved
    requires s'.Side(role).order == s.Side(role).order || (s'.Side(role).order == s.Side(role).order + [t] && s.calls[t].moved == [])
    ensures InRange(s'.calls, s'.Side(role).order)
    ensures Flatten(Moved(s'.calls, s'.Side(role).order)) == Flatten(Moved(s.calls, s.Side(role).order))
  {
    var order, order' := s.Side(role).order, s'.Side(role).order;
    OrderFacts(s', role);
    if |order'| == |order| {
      assert Moved(s'.calls, order') == Moved(s.calls, order);
    } else {
      assert Moved(s'.calls, order') == Moved(s.calls, order) + [[]];
      FlattenSnoc(Moved(s.calls, order), []);
    }
  }

  /** The bytes of a chunk are appended to the stream and to the last turn of the side. */
  lemma LastTurnGrows(s: State, s': State, t: nat, chunk: seq<byte>)
    requires t < |s.calls| && CallOk(s, t) && SideOk(s, s.calls[t].role) && s.calls[t].pc.InTurn()
    requires s'.calls == s.calls[t := s.calls[t].(moved := s.calls[t].moved + chunk, pc := NotifyPeer)]
    requires s'.Side(s.calls[t].role).order == s.Side(s.calls[t].role).order
    ensures var order := s.Side(s.calls[t].role).order;
            && InRange(s.calls, order) && InRange(s'.calls, order)
            && Flatten(Moved(s'.calls, order)) == Flatten(Moved(s.calls, order)) + chunk
  {
    var role := s.calls[t].role;
    var order := s.Side(role).order;
    OrderFacts(s, role);
    var a, b := Moved(s.calls, order), Moved(s'.calls, order);
    var k := |order| - 1;
    assert a[..k] == b[..k];
    assert Flatten(b) == Flatten(b[..k]) + (a[k] + chunk);
  }

  lemma WriteChunkKeepsStreams(s: State, s': State, t: nat, chunk: seq<byte>)
    requires SideOk(s, Writer) && SideOk(s, Reader) && StreamsOk(s)
    requires t < |s.calls| && CallOk(s, t) && s.calls[t].pc.InTurn() && s.calls[t].role == Writer
    requires s.ring.filled + |chunk| <= s.ring.Size() && s.ring.writeIndex + |chunk| <= s.ring.Size()
    requires s' == s.(ring := CopyIn(s.ring, chunk),
                      writers := s.writers.(stream := s.writers.stream + chunk),
                      calls := s.calls[t := s.calls[t].(moved := s.calls[t].moved + chunk, pc := NotifyPeer)])
    ensures StreamsOk(s')
  {
    CopyInAppends(s.ring, chunk);
    LastTurnGrows(s, s', t, chunk);
    OtherOrderKept(s, s', t, Reader);
  }

  lemma ReadChunkKeepsStreams(s: State, s': State, t: nat, count: nat)
    requires SideOk(s, Writer) && SideOk(s, Reader) && StreamsOk(s)
    requires t < |s.calls| && CallOk(s, t) && s.calls[t].pc.InTurn() && s.calls[t].role == Reader
    requires count <= s.ring.filled && s.ring.readIndex + count <= s.ring.Size()
    requires s' == s.(ring := CopyOut(s.ring, count),
                      readers := s.readers.(stream := s.readers.stream + CopiedOut(s.ring, count)),
                      calls := s.calls[t := s.calls[t].(moved := s.calls[t].moved + CopiedOut(s.ring, count), pc := NotifyPeer)])
    ensures StreamsOk(s')
  {
    CopyOutTakes(s.ring, count);
    LastTurnGrows(s, s', t, CopiedOut(s.ring, count));
    OtherOrderKept(s, s', t, Writer);
  }

  lemma MoveChunkKeepsStreams(s: State, t: nat)
    requires SideOk(s, Writer) && SideOk(s, Reader) && StreamsOk(s) && CanStep(s, t) && s.calls[t].pc == Transfer
    requires CallOk(s, t) && |s.calls[t].moved| < s.calls[t].n
    ensures StreamsOk(MoveChunk(s, t))
  {
    var c := s.calls[t];
    var k, left := |c.moved|, c.n - |c.moved|;
    if c.role == Writer {
      WriteChunkKeepsStreams(s, MoveChunk(s, t), t, c.msg[k..k + WriteCount(s.ring, left)]);
    } else {
      ReadChunkKeepsStreams(s, MoveChunk(s, t), t, ReadCount(s.ring, left));
    }
  }

  lemma OtherOrderKept(s: State, s': State, t: nat, role: Role)
    requires t < |s.calls| == |s'.calls| && SideOk(s, role) && s.calls[t].role != role
    requires forall u :: 0 <= u < |s.calls| && u != t ==> s'.calls[u] == s.calls[u]
    ensures var order := s.Side(role).order;
            && InRange(s.calls, order) && InRange(s'.calls, order)
            && Moved(s'.calls, order) == Moved(s.calls, order)
  {
    var order := s.Side(role).order;
    OrderFacts(s, role);
  }

  /** Only the running turn can be asleep on the ready variable of its side. */
  lemma OneRoomSleeper(s: State, x: nat, y: nat)
    requires x < |s.calls| && y < |s.calls| && CallOk(s, x) && CallOk(s, y)
    requires s.calls[x].role == s.calls[y].role && s.calls[x].pc.InTurn() && s.calls[y].pc.InTurn()
    ensures x == y
  {
    assert s.Side(s.calls[x].role).order[s.calls[x].ticket] == x;
  }

  /** A call of this side that is asleep after the step was so before, or went to sleep in it. */
  lemma SleeperBefore(s: State, s': State, t: nat, role: Role, pc: Pc)
    requires t < |s.calls| == |s'.calls| && pc.Asleep()
    requires forall u :: 0 <= u < |s.calls| && u != t ==> Undisturbed(s, s', u)
    requires Someone(s'.calls, role, pc) && !s'.At(t, role, pc)
    ensures Someone(s.calls, role, pc)
  {
    var u :| 0 <= u < |s'.calls| && s'.calls[u].role == role && s'.calls[u].pc == pc;
    assert u != t && Undisturbed(s, s', u);
    assert s.calls[u].role == role && s.calls[u].pc == pc;
  }

  lemma SomeoneKept(s: State, s': State, t: nat, role: Role, pc: Pc)
    requires t < |s.calls| == |s'.calls| && !pc.Asleep()
    requires forall u :: 0 <= u < |s.calls| && u != t ==> Undisturbed(s, s', u)
    requires Someone(s.calls, role, pc) && !s.At(t, role, pc)
    ensures Someone(s'.calls, role, pc)
  {
    var u :| 0 <= u < |s.calls| && s.calls[u].role == role && s.calls[u].pc == pc;
    assert u != t && Undisturbed(s, s', u);
    assert s'.calls[u].role == role && s'.calls[u].pc == pc;
  }

  lemma WakeKept(s: State, s': State, t: nat, role: Role)
    requires t < |s.calls| == |s'.calls|
    requires forall u :: 0 <= u < |s.calls| && u != t ==> Undisturbed(s, s', u)
    requires WakeOk(s, role)
    requires s'.At(t, role, AsleepAlone) ==> s'.Side(role).active
    requires s.At(t, role, WokenAlone) ==> s'.HolderAt(role, RetestAlone)
    requires s.Side(role).active || s.HolderAt(role, RetestAlone) || s.HolderAt(role, TestAlone) || s.HolderAt(role, NotifyAlone)
             ==> AloneOk(s', role)
    requires s'.At(t, role, AsleepRoom) ==> s'.Blocked(role)
    requires s.Blocked(role) || s.HolderAt(role.Other(), NotifyPeer) ==> RoomOk(s', role)
    ensures WakeOk(s', role)
  {
    if Someone(s'.calls, role, AsleepAlone) && !s'.At(t, role, AsleepAlone) {
      SleeperBefore(s, s', t, role, AsleepAlone);
      if Someone(s.calls, role, WokenAlone) && !s.At(t, role, WokenAlone) {
        SomeoneKept(s, s', t, role, WokenAlone);
      }
    }
    if Someone(s'.calls, role, AsleepRoom) && !s'.At(t, role, AsleepRoom) {
      SleeperBefore(s, s', t, role, AsleepRoom);
    }
  }

  lemma TestWakes(s: State, t: nat, pc: Pc, role: Role)
    requires Base(s) && CanStep(s, t) && WakeOk(s, role)
    requires
      match s.calls[t].pc
      case Start => pc == Lock || pc == Done(true)
      case Check => pc == TestAlone
      case RetestAlone => pc == TestAlone
      case RetestRoom => pc == Transfer
      case _ => false
    ensures WakeOk(Goto(s, t, pc), role)
  {
    assert CallOk(s, t);
    WakeKept(s, Goto(s, t, pc), t, role);
  }

  lemma AcquireWakes(s: State, t: nat, pc: Pc, role: Role)
    requires Base(s) && CanStep(s, t) && WakeOk(s, role)
    requires
      match s.calls[t].pc
      case Lock => pc == Check
      case WokenAlone => pc == RetestAlone
      case WokenRoom => pc == RetestRoom
      case _ => false
    ensures WakeOk(Acquire(s, t, pc), role)
  {
    WakeKept(s, Acquire(s, t, pc), t, role);
  }

  lemma ReleaseWakes(s: State, t: nat, pc: Pc, role: Role)
    requires Base(s) && CanStep(s, t) && WakeOk(s, role)
    requires
      match s.calls[t].pc
      case TestAlone => s.Side(s.calls[t].role).active && pc == AsleepAlone
      case Transfer => s.Blocked(s.calls[t].role) && pc == AsleepRoom
      case Unlock(ok) => pc == Done(ok)
      case _ => false
    ensures WakeOk(Release(s, t, pc), role)
  {
    assert CallOk(s, t);
    WakeKept(s, Release(s, t, pc), t, role);
  }

  lemma TakeTurnWakes(s: State, t: nat, role: Role)
    requires Base(s) && CanStep(s, t) && WakeOk(s, role)
    requires s.calls[t].pc == TestAlone && !s.Side(s.calls[t].role).active
    ensures WakeOk(TakeTurn(s, t), role)
  {
    var s' := TakeTurn(s, t);
    assert CallOk(s, t);
    assert s'.Side(s.calls[t].role).order[..|s.Side(s.calls[t].role).order|] == s.Side(s.calls[t].role).order;
    WakeKept(s, s', t, role);
  }

  lemma EndTurnWakes(s: State, t: nat, role: Role)
    requires Base(s) && CanStep(s, t) && WakeOk(s, role)
    requires s.calls[t].pc == Transfer && |s.calls[t].moved| == s.calls[t].n
    ensures WakeOk(EndTurn(s, t), role)
  {
    assert CallOk(s, t);
    WakeKept(s, EndTurn(s, t), t, role);
  }

  lemma MoveChunkWakes(s: State, t: nat, role: Role)
    requires Base(s) && s.ring.Ok() && CanStep(s, t) && WakeOk(s, role)
    requires s.calls[t].pc == Transfer && CallOk(s, t) && |s.calls[t].moved| < s.calls[t].n
    ensures WakeOk(MoveChunk(s, t), role)
  {
    var s' := MoveChunk(s, t);
    if role == s.calls[t].role && Someone(s'.calls, role, AsleepRoom) {
      var u :| 0 <= u < |s'.calls| && s'.calls[u].role == role && s'.calls[u].pc == AsleepRoom;
      assert CallOk(s, u);
      OneRoomSleeper(s, u, t);
    }
    WakeKept(s, s', t, role);
  }

  lemma NotifyPeerWakes(s: State, t: nat, wake: nat, role: Role)
    requires Base(s) && CanStep(s, t) && WakeOk(s, role)
    requires s.calls[t].pc == NotifyPeer && MayWake(s.calls, s.calls[t].role.Other(), AsleepRoom, wake)
    ensures WakeOk(GotoAndNotify(s, t, Transfer, s.calls[t].role.Other(), AsleepRoom, wake), role)
  {
    var s' := GotoAndNotify(s, t, Transfer, s.calls[t].role.Other(), AsleepRoom, wake);
    assert CallOk(s, t);
    if role == s.calls[t].role.Other() && Someone(s'.calls, role, AsleepRoom) {
      var u :| 0 <= u < |s'.calls| && s'.calls[u].role == role && s'.calls[u].pc == AsleepRoom;
      assert Someone(s.calls, role, AsleepRoom) by {
        assert s.calls[u].role == role && s.calls[u].pc == AsleepRoom;
      }
      assert CallOk(s, u) && CallOk(s, wake);
      OneRoomSleeper(s, u, wake);
    }
    WakeKept(s, s', t, role);
  }

  lemma NotifyAloneWakes(s: State, t: nat, wake: nat, role: Role)
    requires Base(s) && CanStep(s, t) && WakeOk(s, role)
    requires s.calls[t].pc == NotifyAlone && MayWake(s.calls, s.calls[t].role, AsleepAlone, wake)
    ensures WakeOk(GotoAndNotify(s, t, Unlock(true), s.calls[t].role, AsleepAlone, wake), role)
  {
    var s' := GotoAndNotify(s, t, Unlock(true), s.calls[t].role, AsleepAlone, wake);
    assert CallOk(s, t);
    if role == s.calls[t].role && Someone(s'.calls, role, AsleepAlone) {
      SleeperBefore(s, s', t, role, AsleepAlone);
      assert s'.calls[wake].role == role && s'.calls[wake].pc == WokenAlone;
    }
    WakeKept(s, s', t, role);
  }

  /** A step of a call that moves no byte. */
  ghost predicate Quiet(s: State, t: nat, wake: nat) {
    && Enabled(s, Step(t, wake)) && s.ring.Ok() && CallOk(s, t)
    && (s.calls[t].pc == Transfer ==> |s.calls[t].moved| == s.calls[t].n || s.Blocked(s.calls[t].role))
  }

  lemma QuietStepKeepsBase(s: State, t: nat, wake: nat)
    requires Base(s) && Quiet(s, t, wake)
    ensures Base(CallStep(s, t, wake))
  {
    var s', c := CallStep(s, t, wake), s.calls[t];
    match c.pc {
      case Start => TestKeeps(s, t, s'.calls[t].pc);
      case Check => TestKeeps(s, t, s'.calls[t].pc);
      case RetestAlone => TestKeeps(s, t, s'.calls[t].pc);
      case RetestRoom => TestKeeps(s, t, s'.calls[t].pc);
      case Lock => AcquireKeeps(s, t, Check);
      case WokenAlone => AcquireKeeps(s, t, RetestAlone);
      case WokenRoom => AcquireKeeps(s, t, RetestRoom);
      case TestAlone => if s.Side(c.role).active { ReleaseKeeps(s, t, AsleepAlone); } else { TakeTurnKeeps(s, t); }
      case Transfer => if |c.moved| == c.n { EndTurnKeeps(s, t); } else { ReleaseKeeps(s, t, AsleepRoom); }
      case NotifyPeer => NotifyKeeps(s, t, Transfer, c.role.Other(), AsleepRoom, wake);
      case NotifyAlone => NotifyKeeps(s, t, Unlock(true), c.role, AsleepAlone, wake);
      case Unlock(ok) => ReleaseKeeps(s, t, Done(ok));
    }
  }

  lemma QuietStepKeepsRing(s: State, t: nat, wake: nat)
    requires Quiet(s, t, wake)
    ensures var s' := CallStep(s, t, wake);
            && |s'.calls| == |s.calls| && s'.ring == s.ring
            && s'.writers.stream == s.writers.stream && s'.readers.stream == s.readers.stream
  {
  }

  lemma QuietStepMovesNothing(s: State, t: nat, wake: nat, u: nat)
    requires Quiet(s, t, wake) && u < |s.calls| == |CallStep(s, t, wake).calls|
    ensures CallStep(s, t, wake).calls[u].role == s.calls[u].role
    ensures CallStep(s, t, wake).calls[u].moved == s.calls[u].moved
  {
    match s.calls[t].pc {
      case Start =>
      case Lock =>
      case Check =>
      case TestAlone =>
      case WokenAlone =>
      case RetestAlone =>
      case Transfer =>
      case WokenRoom =>
      case RetestRoom =>
      case NotifyPeer =>
      case NotifyAlone =>
      case Unlock(_) =>
    }
  }

  lemma QuietStepKeepsOrder(s: State, t: nat, wake: nat, role: Role)
    requires Quiet(s, t, wake)
    ensures var order, order' := s.Side(role).order, CallStep(s, t, wake).Side(role).order;
            order' == order || (order' == order + [t] && s.calls[t].moved == [])
  {
  }

  lemma QuietStepKeepsStreams(s: State, t: nat, wake: nat)
    requires StreamsOk(s) && Quiet(s, t, wake)
    requires SideOk(CallStep(s, t, wake), Writer) && SideOk(CallStep(s, t, wake), Reader)
    ensures StreamsOk(CallStep(s, t, wake))
  {
    QuietStepKeepsRing(s, t, wake);
    forall u | 0 <= u < |s.calls|
      ensures CallStep(s, t, wake).calls[u].moved == s.calls[u].moved
    {
      QuietStepMovesNothing(s, t, wake, u);
    }
    QuietStepKeepsOrder(s, t, wake, Writer);
    QuietStepKeepsOrder(s, t, wake, Reader);
    StreamsKept(s, CallStep(s, t, wake), t);
  }

  lemma QuietStepKeepsWake(s: State, t: nat, wake: nat, role: Role)
    requires Base(s) && WakeOk(s, role) && !s.terminating && Quiet(s, t, wake)
    ensures WakeOk(CallStep(s, t, wake), role)
  {
    var s', c := CallStep(s, t, wake), s.calls[t];
    match c.pc {
      case Start => TestWakes(s, t, s'.calls[t].pc, role);
      case Check => TestWakes(s, t, s'.calls[t].pc, role);
      case RetestAlone => TestWakes(s, t, s'.calls[t].pc, role);
      case RetestRoom => TestWakes(s, t, s'.calls[t].pc, role);
      case Lock => AcquireWakes(s, t, Check, role);
      case WokenAlone => AcquireWakes(s, t, RetestAlone, role);
      case WokenRoom => AcquireWakes(s, t, RetestRoom, role);
      case TestAlone => if s.Side(c.role).active { ReleaseWakes(s, t, AsleepAlone, role); } else { TakeTurnWakes(s, t, role); }
      case Transfer => if |c.moved| == c.n { EndTurnWakes(s, t, role); } else { ReleaseWakes(s, t, AsleepRoom, role); }
      case NotifyPeer => NotifyPeerWakes(s, t, wake, role);
      case NotifyAlone => NotifyAloneWakes(s, t, wake, role);
      case Unlock(ok) => ReleaseWakes(s, t, Done(ok), role);
    }
  }

  lemma StepKeepsInv(s: State, t: nat, wake: nat)
    requires Inv(s) && Enabled(s, Step(t, wake)) && Sane(s, Step(t, wake))
    ensures Inv(Next(s, Step(t, wake)))
  {
    assert CallOk(s, t);
    var c := s.calls[t];
    if c.pc == Transfer && |c.moved| < c.n && !s.Blocked(c.role) {
      MoveChunkKeeps(s, t);
      MoveChunkKeepsStreams(s, t);
      if !s.terminating {
        MoveChunkWakes(s, t, Writer);
        MoveChunkWakes(s, t, Reader);
      }
    } else {
      QuietStepKeepsBase(s, t, wake);
      QuietStepKeepsStreams(s, t, wake);
      if !s.terminating {
        QuietStepKeepsWake(s, t, wake, Writer);
        QuietStepKeepsWake(s, t, wake, Reader);
      }
    }
  }

  lemma SpuriousKeepsBase(s: State, t: nat)
    requires Base(s) && Enabled(s, Spurious(t))
    ensures Base(Goto(s, t, s.calls[t].pc.Awake()))
  {
    assert CallOk(s, t);
    var s' := Goto(s, t, s.calls[t].pc.Awake());
    LockKept(s, s', t);
    if s.calls[t].ticket >= 0 {
      assert TurnOk(s, s.calls[t].role, s.calls[t].ticket);
    }
    BaseKept(s, s', t);
  }

  lemma SpuriousKeepsInv(s: State, t: nat)
    requires Inv(s) && Enabled(s, Spurious(t))
    ensures Inv(Next(s, Spurious(t)))
  {
    var s' := Next(s, Spurious(t));
    SpuriousKeepsBase(s, t);
    StreamsKept(s, s', t);
    if !s.terminating {
      SpuriousKeepsWake(s, s', t, Writer);
      SpuriousKeepsWake(s, s', t, Reader);
    }
  }

  lemma SpuriousKeepsWake(s: State, s': State, t: nat, role: Role)
    requires Base(s) && WakeOk(s, role) && Enabled(s, Spurious(t)) && s' == Goto(s, t, s.calls[t].pc.Awake())
    ensures WakeOk(s', role)
  {
    WakeKept(s, s', t, role);
  }

  lemma BeginKeepsInv(s: State, a: Action)
    requires Inv(s) && a.Begin? && Enabled(s, a)
    ensures Inv(Next(s, a))
  {
    var s' := Next(s, a);
    forall t | 0 <= t < |s'.calls|
      ensures CallOk(s', t)
    {
      if t < |s.calls| {
        assert CallOk(s, t);
      }
    }
    BeginKeepsSide(s, s', Writer);
    BeginKeepsSide(s, s', Reader);
  }

  lemma BeginKeepsSide(s: State, s': State, role: Role)
    requires SideOk(s, role) && InRange(s.calls, s.Side(role).order)
    requires |s'.calls| == |s.calls| + 1 && s' == s.(calls := s'.calls) && s'.calls[..|s.calls|] == s.calls
    requires s'.calls[|s.calls|].pc == Start
    ensures SideOk(s', role)
    ensures InRange(s'.calls, s.Side(role).order) && Moved(s'.calls, s.Side(role).order) == Moved(s.calls, s.Side(role).order)
    ensures WakeOk(s, role) ==> WakeOk(s', role)
    ensures forall pc: Pc :: pc.Asleep() ==> (Someone(s'.calls, role, pc) <==> Someone(s.calls, role, pc))
  {
    OrderFacts(s, role);
    assert forall t :: 0 <= t < |s.calls| ==> s'.calls[t] == s'.calls[..|s.calls|][t] == s.calls[t];
    forall i | 0 <= i < |s'.Side(role).order|
      ensures TurnOk(s', role, i)
    {
      assert TurnOk(s, role, i);
    }
  }

  lemma SetTerminatingKeepsInv(s: State)
    requires Inv(s) && Enabled(s, SetTerminating)
    ensures Inv(Next(s, SetTerminating))
  {
    var s' := Next(s, SetTerminating);
    forall t | 0 <= t < |s'.calls|
      ensures CallOk(s', t)
    {
      assert CallOk(s, t);
    }
    SameCallsKeepSide(s, s', Writer);
    SameCallsKeepSide(s, s', Reader);
  }

  lemma SameCallsKeepSide(s: State, s': State, role: Role)
    requires SideOk(s, role) && s'.calls == s.calls && s'.Side(role) == s.Side(role)
    ensures SideOk(s', role)
  {
    forall i | 0 <= i < |s'.Side(role).order|
      ensures TurnOk(s', role, i)
    {
      assert TurnOk(s, role, i);
    }
  }

  /** sd_shutdown locks the mutex, or unlocks it after the last notification. */
  lemma ShutdownLockKeepsBase(s: State)
    requires Base(s) && Enabled(s, ShutdownStep) && !s.shut.Notifying?
    ensures Base(ShutStep(s))
  {
    var s' := ShutStep(s);
    forall t | 0 <= t < |s'.calls|
      ensures CallOk(s', t)
    {
      assert CallOk(s, t);
    }
    SameCallsKeepSide(s, s', Writer);
    SameCallsKeepSide(s, s', Reader);
  }

  lemma NobodyLeft(s: State, i: nat)
    requires LockOk(s) && s.shut == Notifying(i)
    ensures forall j :: 0 <= j <= i ==> !Someone(ShutStep(s).calls, CvRole(j), CvPc(j))
  {
    forall j | 0 <= j <= i
      ensures !Someone(ShutStep(s).calls, CvRole(j), CvPc(j))
    {
      var calls := ShutStep(s).calls;
      forall t | 0 <= t < |calls|
        ensures !(calls[t].role == CvRole(j) && calls[t].pc == CvPc(j))
      {
        if j < i {
          assert !Someone(s.calls, CvRole(j), CvPc(j));
        }
      }
    }
  }

  lemma NotifyAllKeepsBase(s: State, i: nat)
    requires Base(s) && s.shut == Notifying(i)
    ensures Base(ShutStep(s))
  {
    var s' := ShutStep(s);
    NobodyLeft(s, i);
    forall t | 0 <= t < |s'.calls|
      ensures CallOk(s', t)
    {
      assert CallOk(s, t);
      if s'.shut == Leaving {
        forall j | 0 <= j <= 3
          ensures !(s'.calls[t].role == CvRole(j) && s'.calls[t].pc == CvPc(j))
        {
          assert !Someone(s'.calls, CvRole(j), CvPc(j));
        }
        assert CvPc(0) == CvPc(1) == AsleepRoom && CvPc(2) == CvPc(3) == AsleepAlone;
      }
    }
    NotifyAllKeepsSide(s, s', i, Writer);
    NotifyAllKeepsSide(s, s', i, Reader);
  }

  lemma NotifyAllKeepsSide(s: State, s': State, i: nat, role: Role)
    requires SideOk(s, role) && s.shut == Notifying(i) && s' == ShutStep(s)
    ensures SideOk(s', role)
  {
    forall k | 0 <= k < |s'.Side(role).order|
      ensures TurnOk(s', role, k)
    {
      assert TurnOk(s, role, k);
    }
  }

  lemma ShutdownKeepsInv(s: State)
    requires Inv(s) && Enabled(s, ShutdownStep)
    ensures Inv(Next(s, ShutdownStep))
  {
    var s' := Next(s, ShutdownStep);
    if s.shut.Notifying? {
      NotifyAllKeepsBase(s, s.shut.i);
    } else {
      ShutdownLockKeepsBase(s);
    }
    OrderFacts(s, Writer);
    OrderFacts(s, Reader);
    assert Moved(s'.calls, s.writers.order) == Moved(s.calls, s.writers.order);
    assert Moved(s'.calls, s.readers.order) == Moved(s.calls, s.readers.order);
  }

  lemma NextKeepsInv(s: State, a: Action)
    requires Inv(s) && Enabled(s, a) && Sane(s, a)
    ensures Inv(Next(s, a))
  {
    match a {
      case Begin(_, _, _) => BeginKeepsInv(s, a);
      case Step(t, wake) => StepKeepsInv(s, t, wake);
      case Spurious(t) => SpuriousKeepsInv(s, t);
      case SetTerminating => SetTerminatingKeepsInv(s);
      case ShutdownStep => ShutdownKeepsInv(s);
    }
  }

  /** Every state of every run satisfies the invariant, so no step ever runs outside the ring. */
  lemma {:induction false} InvAlways(states: seq<State>, actions: seq<Action>, i: nat)
    requires IsRun(states, actions) && i < |states|
    ensures Inv(states[i])
  {
    if i == 0 {
      InitHolds(states[0]);
    } else {
      InvAlways(states, actions, i - 1);
      assert Transition(states[i - 1], actions[i - 1], states[i]);
      InvIsSane(states[i - 1], actions[i - 1]);
      NextKeepsInv(states[i - 1], actions[i - 1]);
    }
  }
}

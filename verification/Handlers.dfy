/**
 Many Run handlers, and the Lock and Unlock calls beside them, interleaved over
 one locker (cmds/dutagent/states.go, cmds/dutagent/rpc.go, internal/fsm/fsm.go).

 A handler moves from state to state; before and inside every state it may be
 cut short (an error, a cancellation seen by the state machine, a panic), and
 whatever cuts it short, or success, leads to the deferred release.
 */
module Handlers {
  import opened Base
  import opened Locker

  const SECOND := 1_000_000_000
  const DEFAULT_LOCK_DURATION := 30 * 60 * SECOND

  /** The state function a handler is about to run; Unwinding is before the deferred release, Finished after it. */
  datatype Phase = Receiving | Finding | Checking | Acquiring | Executing | Waiting | Unwinding | Finished

  /**
   device means something once the handler is named, that is, once its command was received; held is
   what the deferred release looks at.
   */
  datatype Handler = Handler(user: string, named: bool, device: string, phase: Phase, held: bool)

  datatype System = System(holds: Holds, now: nat, handlers: map<nat, Handler>)

  datatype Action =
    | Begin(h: nat, user: string)
    | Receive(h: nat, device: string)
    | Find(h: nat)
    | Check(h: nat, t: nat)
    | Acquire(h: nat, t1: nat, t2: nat)
    | Execute(h: nat)
    | Succeed(h: nat)
    | CutShort(h: nat)
    | Release(h: nat)
    | LockRpc(user: string, device: string, seconds: int, t1: nat, t2: nat, t3: nat)
    | UnlockRpc(user: string, device: string, t: nat)
    | ForceUnlockRpc(device: string, t: nat)
    | ListRpc(clock: map<string, nat>, end: nat)

  const START := System(EMPTY, 0, map[])

  predicate Running(p: Phase) { p != Unwinding && p != Finished }

  /** Between a successful acquire and the deferred release. */
  predicate Critical(h: Handler) { h.held && h.phase != Finished }

  /** Between receiving its command and its end. */
  predicate Active(h: Handler) { h.named && h.phase != Finished }

  predicate InPhase(s: System, h: nat, p: Phase) { h in s.handlers && s.handlers[h].phase == p }

  /** The duration an RPC asks for: unset means the default. */
  function Duration(seconds: int): (d: int) { if seconds == 0 then DEFAULT_LOCK_DURATION else seconds * SECOND }

  /** A locker call made now is well timed and can be made. */
  predicate May(s: System, op: Op) { Timed(op, s.now) && Callable(s.holds, op) }

  function CheckOp(h: Handler, t: nat): (op: Op) { CheckAccess(h.device, h.user, t) }
  function AcquireOp(h: Handler, t1: nat, t2: nat): (op: Op) { AutoLock(h.device, h.user, t1, t2) }
  function ReleaseOp(h: Handler): (op: Op) { ClearAutoLock(h.device, h.user) }

  /** The calls of the Lock, Unlock and List RPCs. */
  function RpcOp(a: Action): (op: Op)
    requires a.LockRpc? || a.UnlockRpc? || a.ForceUnlockRpc? || a.ListRpc?
  {
    match a
    case LockRpc(u, d, secs, t1, t2, t3) => Lock(d, u, Duration(secs), t1, t2, t3)
    case UnlockRpc(u, d, t) => ClearLock(d, u, t)
    case ForceUnlockRpc(d, t) => ForceClearLock(d, t)
    case ListRpc(clock, end) => StatusAll(clock, end)
  }

  predicate Enabled(s: System, a: Action)
  {
    match a
    case Begin(h, _) => h !in s.handlers
    case Receive(h, _) => InPhase(s, h, Receiving)
    case Find(h) => InPhase(s, h, Finding)
    case Check(h, t) => InPhase(s, h, Checking) && May(s, CheckOp(s.handlers[h], t))
    case Acquire(h, t1, t2) => InPhase(s, h, Acquiring) && May(s, AcquireOp(s.handlers[h], t1, t2))
    case Execute(h) => InPhase(s, h, Executing)
    case Succeed(h) => InPhase(s, h, Waiting)
    case CutShort(h) => h in s.handlers && Running(s.handlers[h].phase)
    case Release(h) => InPhase(s, h, Unwinding)
    case _ => May(s, RpcOp(a))
  }

  /** A move of one handler alone. */
  function Move(s: System, h: nat, to: Handler): (s': System) { s.(handlers := s.handlers[h := to]) }

  function Goto(s: System, h: nat, p: Phase): (s': System)
    requires h in s.handlers
  {
    Move(s, h, s.handlers[h].(phase := p))
  }

  /** A call on the locker; the clock has moved to its last reading. */
  function Call(s: System, op: Op): (s': System)
    requires May(s, op)
  {
    s.(holds := Apply(s.holds, op).0, now := End(op, s.now))
  }

  function Step(s: System, a: Action): (s': System)
    requires Enabled(s, a)
  {
    match a
    case Begin(h, u) => Move(s, h, Handler(u, false, "", Receiving, false))
    case Receive(h, d) => Move(s, h, s.handlers[h].(named := true, device := d, phase := Finding))
    case Find(h) => Goto(s, h, Checking)
    case Check(h, t) =>
      var op := CheckOp(s.handlers[h], t);
      Goto(Call(s, op), h, if Apply(s.holds, op).1 == Done then Acquiring else Unwinding)
    case Acquire(h, t1, t2) =>
      var op := AcquireOp(s.handlers[h], t1, t2);
      if Apply(s.holds, op).1.Granted? then Move(Call(s, op), h, s.handlers[h].(phase := Executing, held := true))
      else Goto(Call(s, op), h, Unwinding)
    case Execute(h) => Goto(s, h, Waiting)
    case Succeed(h) => Goto(s, h, Unwinding)
    case CutShort(h) => Goto(s, h, Unwinding)
    case Release(h) =>
      var op := ReleaseOp(s.handlers[h]);
      Goto(if s.handlers[h].held then Call(s, op) else s, h, Finished)
    case _ => Call(s, RpcOp(a))
  }

  /** An interleaving: actions one after another, each possible when its turn comes. */
  predicate Path(s: System, acts: seq<Action>)
    decreases |acts|, 0
  {
    acts == [] || (Path(s, acts[..|acts| - 1]) && Enabled(After(s, acts[..|acts| - 1]), acts[|acts| - 1]))
  }

  /** The state an interleaving leads to. */
  function After(s: System, acts: seq<Action>): (s': System)
    requires Path(s, acts)
    decreases |acts|, 1
  {
    if acts == [] then s else Step(After(s, acts[..|acts| - 1]), acts[|acts| - 1])
  }

  // ------------------------------------------------------------------ what the RPCs do

  const MINUTE := 60_000_000_000

  /**
   The Lock RPC: for the caller and the named device, for the seconds asked, for
   half an hour if none are given; it gives nothing to a caller whom another's
   hold shuts out, and a negative duration changes nothing at all.
   */
  lemma LockRpcMeans(s: System, a: Action)
    requires Consistent(s.holds) && a.LockRpc? && Enabled(s, a)
    ensures var s' := Step(s, a);
      var dur := if a.seconds == 0 then 30 * MINUTE else a.seconds * 1_000_000_000;
      && s'.handlers == s.handlers && s'.holds.busy == s.holds.busy
      && (a.seconds < 0 ==> s'.holds == s.holds)
      && (a.seconds >= 0 && OpenTo(s.holds, a.device, a.user, a.t1) ==>
            && a.device in s'.holds.reserved && s'.holds.reserved[a.device].owner == a.user
            && s'.holds.reserved[a.device].expiresAt >= a.t2 + dur
            && (a.device !in s.holds.reserved ==>
                  s'.holds.reserved[a.device] == Hold(a.user, a.t2, a.t2 + dur, Reserved)))
      && (!OpenTo(s.holds, a.device, a.user, a.t1) && a.device in s'.holds.reserved ==>
            a.device in s.holds.reserved && s'.holds.reserved[a.device] == s.holds.reserved[a.device])
      && (forall d :: d in s.holds.reserved && d != a.device ==>
            d in s'.holds.reserved && s'.holds.reserved[d] == s.holds.reserved[d])
  {
    OpenExactly(s.holds, RpcOp(a));
    forall d | d in s.holds.reserved && d != a.device
      ensures d in Step(s, a).holds.reserved && Step(s, a).holds.reserved[d] == s.holds.reserved[d]
    {
      OtherDevicesKept(s.holds, RpcOp(a), d);
    }
  }

  /**
   The Unlock RPC: it ends the caller's own reservation on the named device, and nothing else but
   one whose time is over.
   */
  lemma UnlockRpcMeans(s: System, a: Action)
    requires Consistent(s.holds) && a.UnlockRpc? && Enabled(s, a)
    ensures var s' := Step(s, a);
      && s'.handlers == s.handlers && s'.holds.busy == s.holds.busy
      && (a.device in s'.holds.reserved <==>
            a.device in s.holds.reserved
            && a.t < s.holds.reserved[a.device].expiresAt && s.holds.reserved[a.device].owner != a.user)
      && (forall d :: d in s.holds.reserved && d in s'.holds.reserved ==>
            s'.holds.reserved[d] == s.holds.reserved[d])
      && (forall d :: d in s.holds.reserved && d != a.device ==> d in s'.holds.reserved)
  {
  }

  /** A forced unlock frees the named device altogether and touches no other. */
  lemma ForceUnlockRpcMeans(s: System, a: Action)
    requires Consistent(s.holds) && a.ForceUnlockRpc? && Enabled(s, a)
    ensures var s' := Step(s, a);
      && s'.handlers == s.handlers
      && a.device !in s'.holds.reserved && a.device !in s'.holds.busy
      && (forall d :: d in s.holds.reserved && d != a.device ==>
            d in s'.holds.reserved && s'.holds.reserved[d] == s.holds.reserved[d])
      && (forall d :: d in s.holds.busy && d != a.device ==> d in s'.holds.busy && s'.holds.busy[d] == s.holds.busy[d])
  {
  }

  // -------------------------------------------------------------- no hold is leaked

  /** h is a handler of this user inside its critical part on the device. */
  predicate Inside(s: System, h: nat, device: string, user: string)
  {
    h in s.handlers && Critical(s.handlers[h]) && s.handlers[h].device == device && s.handlers[h].user == user
  }

  ghost predicate HasInside(s: System, device: string, user: string) { exists h :: Inside(s, h, device, user) }

  /** Every busy hold belongs to a handler that will release it. */
  ghost predicate NoOrphans(s: System)
  {
    && Consistent(s.holds)
    && (forall d :: d in s.holds.busy ==> HasInside(s, d, s.holds.busy[d].owner))
    && (forall h :: h in s.handlers ==> Named(s.handlers[h]))
  }

  /** What a handler has got to in each phase. */
  predicate Named(h: Handler)
  {
    && (h.held ==> h.named)
    && (h.phase in {Finding, Checking, Acquiring, Executing, Waiting} ==> h.named)
    && (h.phase in {Receiving, Finding, Checking, Acquiring} ==> !h.held)
    && (h.phase == Receiving ==> !h.named)
  }

  lemma MoveKeepsInside(s: System, h: nat, to: Handler, d: string, u: string)
    requires HasInside(s, d, u)
    requires Inside(s, h, d, u) ==> Critical(to) && to.device == d && to.user == u
    ensures HasInside(Move(s, h, to), d, u)
  {
    var k :| Inside(s, k, d, u);
    assert Inside(Move(s, h, to), k, d, u);
  }

  lemma MoveNoOrphans(s: System, h: nat, to: Handler)
    requires NoOrphans(s) && Named(to)
    requires h in s.handlers && Critical(s.handlers[h]) ==>
      Critical(to) && to.device == s.handlers[h].device && to.user == s.handlers[h].user
    ensures NoOrphans(Move(s, h, to))
  {
    forall d | d in s.holds.busy ensures HasInside(Move(s, h, to), d, s.holds.busy[d].owner) {
      MoveKeepsInside(s, h, to, d, s.holds.busy[d].owner);
    }
  }

  lemma CallNoOrphans(s: System, op: Op)
    requires NoOrphans(s) && May(s, op) && !op.AutoLock?
    ensures NoOrphans(Call(s, op))
  {
    BusyEffect(s.holds, op);
    ApplyConsistent(s.holds, op);
    forall d | d in Call(s, op).holds.busy ensures HasInside(Call(s, op), d, Call(s, op).holds.busy[d].owner) {
      var k :| Inside(s, k, d, s.holds.busy[d].owner);
      assert Inside(Call(s, op), k, d, s.holds.busy[d].owner);
    }
  }

  /** Whose hold d is afterwards, that of a handler still inside or of the one just let in. */
  predicate StillOwned(s: System, h: nat, to: Handler, busy: map<string, Hold>, d: string)
    requires d in busy
  {
    || (d in s.holds.busy && busy[d].owner == s.holds.busy[d].owner
        && !(Inside(s, h, d, busy[d].owner) && !(Critical(to) && to.device == d && to.user == busy[d].owner)))
    || (Critical(to) && to.device == d && to.user == busy[d].owner)
  }

  lemma ChangeNoOrphans(s: System, h: nat, to: Handler, holds: Holds, now: nat)
    requires NoOrphans(s) && Named(to) && Consistent(holds)
    requires forall d :: d in holds.busy ==> StillOwned(s, h, to, holds.busy, d)
    ensures NoOrphans(System(holds, now, s.handlers[h := to]))
  {
    var s' := System(holds, now, s.handlers[h := to]);
    forall d | d in holds.busy ensures HasInside(s', d, holds.busy[d].owner) {
      if Critical(to) && to.device == d && to.user == holds.busy[d].owner {
        assert Inside(s', h, d, holds.busy[d].owner);
      } else {
        var k :| Inside(s, k, d, s.holds.busy[d].owner);
        assert Inside(s', k, d, holds.busy[d].owner);
      }
    }
  }

  lemma AcquireNoOrphans(s: System, h: nat, t1: nat, t2: nat)
    requires NoOrphans(s) && Enabled(s, Acquire(h, t1, t2))
    ensures NoOrphans(Step(s, Acquire(h, t1, t2)))
  {
    var me, op := s.handlers[h], AcquireOp(s.handlers[h], t1, t2);
    var holds := Apply(s.holds, op).0;
    var to := if Apply(s.holds, op).1.Granted? then me.(phase := Executing, held := true) else me.(phase := Unwinding);
    BusyEffect(s.holds, op);
    ApplyConsistent(s.holds, op);
    assert Named(me) && !me.held;
    ChangeNoOrphans(s, h, to, holds, End(op, s.now));
  }

  lemma ReleaseNoOrphans(s: System, h: nat)
    requires NoOrphans(s) && Enabled(s, Release(h))
    ensures NoOrphans(Step(s, Release(h)))
  {
    var me := s.handlers[h];
    var to := me.(phase := Finished);
    if me.held {
      BusyEffect(s.holds, ReleaseOp(me));
      ApplyConsistent(s.holds, ReleaseOp(me));
      ChangeNoOrphans(s, h, to, Apply(s.holds, ReleaseOp(me)).0, s.now);
    } else {
      ChangeNoOrphans(s, h, to, s.holds, s.now);
    }
  }

  lemma StepNoOrphans(s: System, a: Action)
    requires NoOrphans(s) && Enabled(s, a)
    ensures NoOrphans(Step(s, a))
  {
    match a
    case Begin(h, u) => MoveNoOrphans(s, h, Handler(u, false, "", Receiving, false));
    case Receive(h, d) => MoveNoOrphans(s, h, s.handlers[h].(named := true, device := d, phase := Finding));
    case Find(h) => MoveNoOrphans(s, h, s.handlers[h].(phase := Checking));
    case Check(h, t) =>
      var op := CheckOp(s.handlers[h], t);
      CallNoOrphans(s, op);
      MoveNoOrphans(Call(s, op), h,
                    s.handlers[h].(phase := if Apply(s.holds, op).1 == Done then Acquiring else Unwinding));
    case Acquire(h, t1, t2) => AcquireNoOrphans(s, h, t1, t2);
    case Execute(h) => MoveNoOrphans(s, h, s.handlers[h].(phase := Waiting));
    case Succeed(h) => MoveNoOrphans(s, h, s.handlers[h].(phase := Unwinding));
    case CutShort(h) => MoveNoOrphans(s, h, s.handlers[h].(phase := Unwinding));
    case Release(h) => ReleaseNoOrphans(s, h);
    case _ => CallNoOrphans(s, RpcOp(a));
  }

  /**
   In every interleaving, forced unlocks and overlapping runs included: a device
   is busy only on behalf of a handler that has yet to release it, so once no
   handler is between acquire and release, nothing is busy.
   */
  lemma {:induction false} NoBusyLeaks(acts: seq<Action>)
    requires Path(START, acts)
    ensures NoOrphans(After(START, acts))
    ensures (forall h :: h in After(START, acts).handlers ==> !Critical(After(START, acts).handlers[h])) ==>
      After(START, acts).holds.busy == map[]
  {
    if acts != [] {
      var front := acts[..|acts| - 1];
      NoBusyLeaks(front);
      StepNoOrphans(After(START, front), acts[|acts| - 1]);
    }
    var s := After(START, acts);
    if forall h :: h in s.handlers ==> !Critical(s.handlers[h]) {
      assert forall d, u :: !HasInside(s, d, u);
      assert s.holds.busy.Keys == {};
    }
  }

  // -------------------------------------------------------------------- teardown

  /**
   The deferred release, in any state whatever: it ends the handler, leaves no
   busy hold of its user on a device it had acquired, and touches no
   reservation, no other user's hold and no other device.
   */
  lemma TeardownReleases(s: System, h: nat)
    requires NoOrphans(s) && Enabled(s, Release(h))
    ensures var (me, s') := (s.handlers[h], Step(s, Release(h)));
      && s'.handlers[h].phase == Finished
      && s'.holds.reserved == s.holds.reserved
      && (me.held ==> !HeldBy(s'.holds, me.device, me.user, Busy, s'.now))
      && s'.holds.busy.Keys <= s.holds.busy.Keys
      && (forall d :: d in s.holds.busy && !(me.held && d == me.device && s.holds.busy[d].owner == me.user) ==>
            d in s'.holds.busy && s'.holds.busy[d] == s.holds.busy[d])
  {
    BusyEffect(s.holds, ReleaseOp(s.handlers[h]));
  }

  lemma StepFinishes(s: System, a: Action, h: nat)
    requires Enabled(s, a)
    ensures InPhase(Step(s, a), h, Finished) <==> InPhase(s, h, Finished) || a == Release(h)
    ensures a == Release(h) ==> !InPhase(s, h, Finished)
  {
  }

  /** Whatever happens to a handler, it ends by exactly one release, and not before. */
  lemma {:induction false} FinishedByRelease(acts: seq<Action>, h: nat)
    requires Path(START, acts)
    ensures InPhase(After(START, acts), h, Finished) <==> Release(h) in acts
    ensures multiset(acts)[Release(h)] <= 1
  {
    if acts != [] {
      var front, last := acts[..|acts| - 1], acts[|acts| - 1];
      FinishedByRelease(front, h);
      StepFinishes(After(START, front), last, h);
      assert acts == front + [last];
    }
  }

  // ------------------------------------------------------------- mutual exclusion

  /** The action starts a second run of a user on a device, or forces an unlock. */
  predicate Disorderly(s: System, a: Action)
  {
    || a.ForceUnlockRpc?
    || (a.Receive? && a.h in s.handlers
        && exists k :: k in s.handlers && k != a.h && Active(s.handlers[k])
             && s.handlers[k].user == s.handlers[a.h].user && s.handlers[k].device == a.device)
  }

  predicate Orderly(s: System, acts: seq<Action>)
    requires Path(s, acts)
    decreases |acts|
  {
    acts == [] || (Orderly(s, acts[..|acts| - 1]) && !Disorderly(After(s, acts[..|acts| - 1]), acts[|acts| - 1]))
  }

  /** No two active runs of one user on one device, and everybody inside really has the busy hold. */
  ghost predicate Exclusive(s: System)
  {
    && (forall j, k :: j in s.handlers && k in s.handlers && j != k ==> !Rivals(s.handlers[j], s.handlers[k]))
    && (forall h :: h in s.handlers && Critical(s.handlers[h]) ==> HasHold(s.holds, s.handlers[h]))
  }

  predicate Rivals(a: Handler, b: Handler)
  {
    Active(a) && Active(b) && a.user == b.user && a.device == b.device
  }

  predicate HasHold(holds: Holds, h: Handler)
  {
    h.device in holds.busy && holds.busy[h.device].owner == h.user
  }

  /** A call that takes away no busy hold of anybody inside. */
  lemma CallExclusive(s: System, op: Op)
    requires Exclusive(s) && May(s, op) && !op.ForceClearLock? && !op.ClearAutoLock?
    ensures Exclusive(Call(s, op))
  {
    BusyEffect(s.holds, op);
  }

  lemma MoveExclusive(s: System, h: nat, to: Handler)
    requires Exclusive(s)
    requires forall k :: k in s.handlers && k != h ==> !Rivals(to, s.handlers[k])
    requires Critical(to) ==> HasHold(s.holds, to)
    ensures Exclusive(Move(s, h, to))
  {
  }

  /** Releasing takes no hold of anybody else inside. */
  lemma ReleaseSpares(s: System, h: nat, k: nat)
    requires NoOrphans(s) && Exclusive(s) && Enabled(s, Release(h))
    requires k in s.handlers && k != h && Critical(s.handlers[k])
    ensures HasHold(Step(s, Release(h)).holds, s.handlers[k])
  {
    var me, other := s.handlers[h], s.handlers[k];
    assert HasHold(s.holds, other) && !Rivals(me, other) && Named(other) && Named(me);
    if me.held { BusyEffect(s.holds, ReleaseOp(me)); }
  }

  lemma ReleaseExclusive(s: System, h: nat)
    requires NoOrphans(s) && Exclusive(s) && Enabled(s, Release(h))
    ensures Exclusive(Step(s, Release(h)))
  {
    var s' := Step(s, Release(h));
    assert s'.handlers == s.handlers[h := s.handlers[h].(phase := Finished)];
    forall k | k in s'.handlers && Critical(s'.handlers[k]) ensures HasHold(s'.holds, s'.handlers[k]) {
      ReleaseSpares(s, h, k);
    }
  }

  lemma StepExclusive(s: System, a: Action)
    requires NoOrphans(s) && Exclusive(s) && Enabled(s, a) && !Disorderly(s, a)
    ensures Exclusive(Step(s, a))
  {
    match a
    case Begin(h, u) => MoveExclusive(s, h, Handler(u, false, "", Receiving, false));
    case Receive(h, d) => MoveExclusive(s, h, s.handlers[h].(named := true, device := d, phase := Finding));
    case Find(h) => MoveExclusive(s, h, s.handlers[h].(phase := Checking));
    case Check(h, t) =>
      var op := CheckOp(s.handlers[h], t);
      CallExclusive(s, op);
      MoveExclusive(Call(s, op), h,
                    s.handlers[h].(phase := if Apply(s.holds, op).1 == Done then Acquiring else Unwinding));
    case Acquire(h, t1, t2) =>
      var op := AcquireOp(s.handlers[h], t1, t2);
      BusyEffect(s.holds, op);
      CallExclusive(s, op);
      MoveExclusive(Call(s, op), h,
        if Apply(s.holds, op).1.Granted? then s.handlers[h].(phase := Executing, held := true)
        else s.handlers[h].(phase := Unwinding));
    case Execute(h) => MoveExclusive(s, h, s.handlers[h].(phase := Waiting));
    case Succeed(h) => MoveExclusive(s, h, s.handlers[h].(phase := Unwinding));
    case CutShort(h) => MoveExclusive(s, h, s.handlers[h].(phase := Unwinding));
    case Release(h) => ReleaseExclusive(s, h);
    case LockRpc(_, _, _, _, _, _) => CallExclusive(s, RpcOp(a));
    case UnlockRpc(_, _, _) => CallExclusive(s, RpcOp(a));
    case ListRpc(_, _) => CallExclusive(s, RpcOp(a));
    case ForceUnlockRpc(_, _) =>
  }

  /**
   With no forced unlock, and no user starting a run on a device while another
   of theirs is in progress there: at most one handler per device is between a
   successful acquire and its release.
   */
  lemma {:induction false} MutualExclusion(acts: seq<Action>)
    requires Path(START, acts) && Orderly(START, acts)
    ensures Exclusive(After(START, acts))
    ensures forall j, k, d, u, v ::
      Inside(After(START, acts), j, d, u) && Inside(After(START, acts), k, d, v) ==> j == k
  {
    NoBusyLeaks(acts);
    if acts != [] {
      var front := acts[..|acts| - 1];
      MutualExclusion(front);
      NoBusyLeaks(front);
      StepExclusive(After(START, front), acts[|acts| - 1]);
    }
    OneInside(After(START, acts));
  }

  lemma OneInside(s: System)
    requires NoOrphans(s) && Exclusive(s)
    ensures forall j, k, d, u, v :: Inside(s, j, d, u) && Inside(s, k, d, v) ==> j == k
  {
    forall j, k, d, u, v | Inside(s, j, d, u) && Inside(s, k, d, v) ensures j == k {
      assert HasHold(s.holds, s.handlers[j]) && HasHold(s.holds, s.handlers[k]);
      assert Named(s.handlers[j]) && Named(s.handlers[k]);
      assert j != k ==> !Rivals(s.handlers[j], s.handlers[k]);
    }
  }

  // ----------------------------------------- both conditions of exclusion are needed

  /** Two users are inside on one device. */
  ghost predicate TwoUsersInside(s: System)
  {
    exists j, k, d, u, v :: Inside(s, j, d, u) && Inside(s, k, d, v) && u != v
  }

  /** s is a state some interleaving leads to, acts being that interleaving. */
  ghost predicate Leads(acts: seq<Action>, s: System) { Path(START, acts) && After(START, acts) == s }

  lemma Then(acts: seq<Action>, s: System, a: Action) returns (more: seq<Action>, s': System)
    requires Leads(acts, s) && Enabled(s, a)
    ensures more == acts + [a] && s' == Step(s, a) && Leads(more, s')
  {
    more, s' := acts + [a], Step(s, a);
    assert more[..|more| - 1] == acts;
  }

  /** A handler that has reached its access check, with nothing else changed. */
  lemma RunToCheck(acts: seq<Action>, s: System, h: nat, user: string, device: string)
    returns (more: seq<Action>, s': System)
    requires Leads(acts, s) && h !in s.handlers
    ensures more == acts + [Begin(h, user), Receive(h, device), Find(h)] && Leads(more, s')
    ensures s' == Move(s, h, Handler(user, true, device, Checking, false))
  {
    more, s' := Then(acts, s, Begin(h, user));
    more, s' := Then(more, s', Receive(h, device));
    more, s' := Then(more, s', Find(h));
    assert s'.handlers == s.handlers[h := Handler(user, true, device, Checking, false)];
  }

  /** The device is free for the user: no reservations anywhere, and busy for nobody else. */
  predicate FreeFor(s: System, device: string, user: string)
  {
    s.now <= 1 && s.holds.reserved == map[] && (device in s.holds.busy ==> s.holds.busy[device].owner == user)
  }

  function Acquired(busy: map<string, Hold>, device: string, user: string): (r: map<string, Hold>)
  {
    if device in busy then busy else busy[device := Hold(user, 1, ZERO_TIME, Busy)]
  }

  /** A handler goes from its beginning to holding a device that nobody else holds, all at one moment. */
  lemma RunUp(acts: seq<Action>, s: System, h: nat, user: string, device: string)
    returns (more: seq<Action>, s': System)
    requires Leads(acts, s) && h !in s.handlers && FreeFor(s, device, user)
    ensures more == acts + [Begin(h, user), Receive(h, device), Find(h), Check(h, 1), Acquire(h, 1, 1)]
    ensures Leads(more, s')
    ensures s' == System(Holds(map[], Acquired(s.holds.busy, device, user)), 1,
                         s.handlers[h := Handler(user, true, device, Executing, true)])
  {
    more, s' := RunToCheck(acts, s, h, user, device);
    more, s' := PassCheck(more, s', h, user, device);
    more, s' := Then(more, s', Acquire(h, 1, 1));
    assert s'.handlers == s.handlers[h := Handler(user, true, device, Executing, true)];
  }

  lemma PassCheck(acts: seq<Action>, s: System, h: nat, user: string, device: string)
    returns (more: seq<Action>, s': System)
    requires Leads(acts, s) && FreeFor(s, device, user)
    requires h in s.handlers && s.handlers[h] == Handler(user, true, device, Checking, false)
    ensures more == acts + [Check(h, 1)] && Leads(more, s')
    ensures s' == System(s.holds, 1, s.handlers[h := Handler(user, true, device, Acquiring, false)])
  {
    more, s' := Then(acts, s, Check(h, 1));
  }

  /** A run inside is cut short and releases its user's hold. */
  lemma RunDown(acts: seq<Action>, s: System, h: nat) returns (more: seq<Action>, s': System)
    requires Leads(acts, s) && InPhase(s, h, Executing) && s.handlers[h].held && HasHold(s.holds, s.handlers[h])
    ensures more == acts + [CutShort(h), Release(h)] && Leads(more, s')
    ensures s' == System(s.holds.(busy := s.holds.busy - {s.handlers[h].device}), s.now,
                         s.handlers[h := s.handlers[h].(phase := Finished)])
  {
    more, s' := Then(acts, s, CutShort(h));
    more, s' := Then(more, s', Release(h));
    assert s'.handlers == s.handlers[h := s.handlers[h].(phase := Finished)];
  }

  predicate Unforced(acts: seq<Action>) { forall i :: 0 <= i < |acts| ==> !acts[i].ForceUnlockRpc? }

  /** One user's overlapping runs: the first to end takes the hold from under the second, and another user gets in. */
  lemma OverlapBreaksExclusion(ann: string, bob: string, device: string) returns (acts: seq<Action>, s: System)
    requires ann != bob
    ensures Leads(acts, s) && Unforced(acts) && TwoUsersInside(s)
  {
    acts, s := RunUp([], START, 0, ann, device);
    acts, s := RunUp(acts, s, 1, ann, device);
    acts, s := RunDown(acts, s, 0);
    acts, s := RunUp(acts, s, 2, bob, device);
    assert Inside(s, 1, device, ann) && Inside(s, 2, device, bob);
  }

  predicate OneRunEach(acts: seq<Action>)
  {
    forall i, j :: 0 <= i < j < |acts| && acts[i].Begin? && acts[j].Begin? ==> acts[i].user != acts[j].user
  }

  /** A forced unlock lets a second user in while the first still runs, though no user has two runs. */
  lemma ForceBreaksExclusion(ann: string, bob: string, device: string) returns (acts: seq<Action>, s: System)
    requires ann != bob
    ensures Leads(acts, s) && OneRunEach(acts) && TwoUsersInside(s)
  {
    acts, s := RunUp([], START, 0, ann, device);
    assert OneBegin(acts, ann);
    acts, s := ForcedOut(acts, s, device);
    acts, s := RunUp(acts, s, 1, bob, device);
    assert Inside(s, 0, device, ann) && Inside(s, 1, device, bob);
  }

  predicate OneBegin(acts: seq<Action>, user: string)
  {
    forall i :: 0 <= i < |acts| && acts[i].Begin? ==> i == 0 && acts[i].user == user
  }

  lemma ForcedOut(acts: seq<Action>, s: System, device: string) returns (more: seq<Action>, s': System)
    requires Leads(acts, s) && s.now == 1 && s.holds.reserved == map[] && s.holds.busy.Keys == {device}
    ensures more == acts + [ForceUnlockRpc(device, 1)] && Leads(more, s') && s' == s.(holds := EMPTY)
  {
    more, s' := Then(acts, s, ForceUnlockRpc(device, 1));
    assert s.holds.busy - {device} == map[];
  }
}

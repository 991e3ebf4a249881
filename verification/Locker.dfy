/**
 The device locker (internal/dutagent/locker/locker.go).

 Every operation is given the readings of the clock it takes, in order: one
 operation may read the clock several times, and the readings never go back.
 A reading of 0 is the zero time, which no real clock shows.
 */
module Locker {
  import opened Base

  const ZERO_TIME := 0

  datatype Kind = Reserved | Busy

  datatype Hold = Hold(owner: string, lockedAt: nat, expiresAt: nat, kind: Kind)

  predicate IsExpired(h: Hold, now: nat)
  {
    h.expiresAt != ZERO_TIME && now >= h.expiresAt
  }

  datatype Error = NotLocked | WrongOwner(device: string, holder: Hold) | InvalidDuration

  /** What an operation reports: a hold, plain success, a status report, or an error. */
  datatype Result = Granted(hold: Hold) | Done | Report(holds: map<string, Hold>) | Denied(error: Error)

  /** The two stores of the locker. */
  datatype Holds = Holds(reserved: map<string, Hold>, busy: map<string, Hold>)

  /** The calls of the locker, each with its clock readings. */
  datatype Op =
    | Lock(device: string, owner: string, dur: int, t1: nat, t2: nat, t3: nat)
    | ClearLock(device: string, owner: string, t: nat)
    | ForceClearLock(device: string, t: nat)
    | AutoLock(device: string, owner: string, t1: nat, t2: nat)
    | ClearAutoLock(device: string, owner: string)
    | CheckAccess(device: string, owner: string, t: nat)
    | StatusAll(clock: map<string, nat>, end: nat)

  // -------------------------------------------------- the locker, pruning lazily

  function Prune(s: Holds, device: string, now: nat): (r: Holds)
  {
    if device in s.reserved && IsExpired(s.reserved[device], now) then s.(reserved := s.reserved - {device}) else s
  }

  /** The hold that keeps owner off the device, the reservation before the busy hold. */
  function Blocker(s: Holds, device: string, owner: string): (r: Option<Hold>)
  {
    if device in s.reserved && s.reserved[device].owner != owner then Some(s.reserved[device])
    else if device in s.busy && s.busy[device].owner != owner then Some(s.busy[device])
    else None
  }

  function Extended(h: Hold, expiry: nat): (r: Hold)
  {
    if expiry > h.expiresAt then h.(expiresAt := expiry) else h
  }

  /** The reservations that are live at the readings taken for their devices. */
  function LiveAt(s: Holds, clock: map<string, nat>): (r: map<string, Hold>)
    requires s.reserved.Keys <= clock.Keys
  {
    map d | d in s.reserved && !IsExpired(s.reserved[d], clock[d]) :: s.reserved[d]
  }

  /**
   The report of StatusAll: each device's reservation if it is live at the reading taken for it,
   else its busy hold.
   */
  function StatusOf(s: Holds, clock: map<string, nat>): (r: map<string, Hold>)
    requires s.reserved.Keys <= clock.Keys
  {
    s.busy + LiveAt(s, clock)
  }

  function PruneAll(s: Holds, clock: map<string, nat>): (r: Holds)
    requires s.reserved.Keys <= clock.Keys
  {
    s.(reserved := LiveAt(s, clock))
  }

  predicate Callable(s: Holds, op: Op)
  {
    op.StatusAll? ==> s.reserved.Keys <= op.clock.Keys
  }

  /** One call: the new stores and the result. */
  function Apply(s: Holds, op: Op): (r: (Holds, Result))
    requires Callable(s, op)
  {
    match op
    case Lock(d, o, dur, t1, t2, t3) =>
      if dur <= 0 then (s, Denied(InvalidDuration))
      else
        var s1 := Prune(s, d, t1);
        var blocker := Blocker(s1, d, o);
        if blocker.Some? then (s1, Denied(WrongOwner(d, blocker.value)))
        else
          var s2 := Prune(s1, d, t3);
          var hold := if d in s2.reserved then Extended(s2.reserved[d], t2 + dur)
                      else Hold(o, t2, t2 + dur, Reserved);
          (s2.(reserved := s2.reserved[d := hold]), Granted(hold))
    case ClearLock(d, o, t) =>
      var s1 := Prune(s, d, t);
      if d !in s1.reserved then (s1, Denied(NotLocked))
      else if s1.reserved[d].owner != o then (s1, Denied(WrongOwner(d, s1.reserved[d])))
      else (s1.(reserved := s1.reserved - {d}), Done)
    case ForceClearLock(d, t) =>
      var s1 := Prune(s, d, t);
      if d !in s1.reserved && d !in s1.busy then (s1, Denied(NotLocked))
      else (Holds(s1.reserved - {d}, s1.busy - {d}), Done)
    case AutoLock(d, o, t1, t2) =>
      var s1 := Prune(s, d, t1);
      var blocker := Blocker(s1, d, o);
      if blocker.Some? then (s1, Denied(WrongOwner(d, blocker.value)))
      else if d in s1.busy then (s1, Granted(s1.busy[d]))
      else
        var hold := Hold(o, t2, ZERO_TIME, Busy);
        (s1.(busy := s1.busy[d := hold]), Granted(hold))
    case ClearAutoLock(d, o) =>
      if d !in s.busy then (s, Denied(NotLocked))
      else if s.busy[d].owner != o then (s, Denied(WrongOwner(d, s.busy[d])))
      else (s.(busy := s.busy - {d}), Done)
    case CheckAccess(d, o, t) =>
      var s1 := Prune(s, d, t);
      var blocker := Blocker(s1, d, o);
      (s1, if blocker.Some? then Denied(WrongOwner(d, blocker.value)) else Done)
    case StatusAll(clock, _) =>
      (PruneAll(s, clock), Report(StatusOf(s, clock)))
  }

  // -------------------------------------------------------------------- histories

  /** The earliest and the latest clock reading of a call; now stands in for a call that takes none. */
  function Start(op: Op, now: nat): (t: nat)
  {
    match op
    case Lock(_, _, dur, t1, _, _) => if dur <= 0 then now else t1
    case ClearLock(_, _, t) => t
    case ForceClearLock(_, t) => t
    case AutoLock(_, _, t1, _) => t1
    case ClearAutoLock(_, _) => now
    case CheckAccess(_, _, t) => t
    case StatusAll(_, _) => now
  }

  function End(op: Op, now: nat): (t: nat)
  {
    match op
    case Lock(_, _, dur, _, _, t3) => if dur <= 0 then now else t3
    case ClearLock(_, _, t) => t
    case ForceClearLock(_, t) => t
    case AutoLock(_, _, _, t2) => t2
    case ClearAutoLock(_, _) => now
    case CheckAccess(_, _, t) => t
    case StatusAll(_, end) => end
  }

  /** The readings of a call follow one another, none before now. */
  predicate Timed(op: Op, now: nat)
  {
    && now <= Start(op, now)
    && match op
       case Lock(_, _, dur, t1, t2, t3) => dur > 0 ==> t1 <= t2 <= t3
       case AutoLock(_, _, t1, t2) => t1 <= t2
       case StatusAll(clock, end) => now <= end && forall d :: d in clock ==> now <= clock[d] <= end
       case _ => true
  }

  /** Calls one after another, with a clock that never goes back. */
  predicate Runs(s: Holds, now: nat, ops: seq<Op>)
    decreases |ops|
  {
    ops == [] || (Timed(ops[0], now) && Callable(s, ops[0]) && Runs(Apply(s, ops[0]).0, End(ops[0], now), ops[1..]))
  }

  function Results(s: Holds, now: nat, ops: seq<Op>): (r: seq<Result>)
    requires Runs(s, now, ops)
    ensures |r| == |ops|
    decreases |ops|
  {
    if ops == [] then []
    else [Apply(s, ops[0]).1] + Results(Apply(s, ops[0]).0, End(ops[0], now), ops[1..])
  }

  function Final(s: Holds, now: nat, ops: seq<Op>): (r: Holds)
    requires Runs(s, now, ops)
    decreases |ops|
  {
    if ops == [] then s else Final(Apply(s, ops[0]).0, End(ops[0], now), ops[1..])
  }

  function FinalTime(now: nat, ops: seq<Op>): (t: nat)
    decreases |ops|
  {
    if ops == [] then now else FinalTime(End(ops[0], now), ops[1..])
  }

  const EMPTY := Holds(map[], map[])

  // ---------------------------------------------------------- what every call keeps

  /** Stores as the locker leaves them: reservations expire, busy holds do not, and a device has one owner. */
  ghost predicate Consistent(s: Holds)
  {
    && (forall d :: d in s.reserved ==> s.reserved[d].kind == Reserved && s.reserved[d].expiresAt != ZERO_TIME)
    && (forall d :: d in s.busy ==> s.busy[d].kind == Busy && s.busy[d].expiresAt == ZERO_TIME)
    && (forall d :: d in s.reserved && d in s.busy ==> s.reserved[d].owner == s.busy[d].owner)
  }

  lemma ApplyConsistent(s: Holds, op: Op)
    requires Consistent(s) && Callable(s, op)
    ensures Consistent(Apply(s, op).0)
  {
  }

  /** What a call does to the busy holds: only acquiring, releasing by the owner, and a forced clear touch them. */
  lemma BusyEffect(s: Holds, op: Op)
    requires Callable(s, op)
    ensures var (busy, result) := (Apply(s, op).0.busy, Apply(s, op).1);
      match op
      case AutoLock(d, o, _, _) =>
        if result.Granted? then
          && d in busy && busy[d].owner == o && busy - {d} == s.busy - {d}
          && (d in s.busy ==> busy == s.busy)
        else busy == s.busy
      case ClearAutoLock(d, o) => busy == if d in s.busy && s.busy[d].owner == o then s.busy - {d} else s.busy
      case ForceClearLock(d, _) => busy == s.busy - {d}
      case _ => busy == s.busy
  {
    if op.AutoLock? || op.ForceClearLock? {
      assert op.device !in s.busy ==> s.busy - {op.device} == s.busy;
    }
  }

  /** In every reachable state a device's two holds, expired ones included, have the same owner. */
  lemma {:induction false} ReachableConsistent(s: Holds, now: nat, ops: seq<Op>)
    requires Consistent(s) && Runs(s, now, ops)
    ensures Consistent(Final(s, now, ops))
    decreases |ops|
  {
    if ops != [] {
      ApplyConsistent(s, ops[0]);
      ReachableConsistent(Apply(s, ops[0]).0, End(ops[0], now), ops[1..]);
    }
  }

  lemma {:induction false} TimeAdvances(s: Holds, now: nat, ops: seq<Op>)
    requires Runs(s, now, ops)
    ensures now <= FinalTime(now, ops)
    decreases |ops|
  {
    if ops != [] {
      TimeAdvances(Apply(s, ops[0]).0, End(ops[0], now), ops[1..]);
    }
  }

  // ------------------------------------------------------------ status and access

  /** Every device read at the same moment. */
  function At(s: Holds, now: nat): (clock: map<string, nat>)
    ensures s.reserved.Keys <= clock.Keys
  {
    map d | d in s.reserved :: now
  }

  /**
   Status and access agree at any one moment: a device missing from the report
   admits everybody, a reported one admits exactly the reported owner and names
   the reported hold to everybody else.
   */
  lemma StatusAgreesWithAccess(s: Holds, now: nat, device: string, owner: string)
    requires Consistent(s)
    ensures var report := Apply(s, StatusAll(At(s, now), now)).1.holds;
      var access := Apply(s, CheckAccess(device, owner, now)).1;
      && (access == Done <==> (device in report ==> report[device].owner == owner))
      && (access != Done ==> device in report && access == Denied(WrongOwner(device, report[device])))
  {
  }

  // ---------------------------------------------------------------- exclusion

  /** owner holds the device with a hold of this kind that is live at now. */
  ghost predicate HeldBy(s: Holds, device: string, owner: string, kind: Kind, now: nat)
  {
    match kind
    case Busy => device in s.busy && s.busy[device].owner == owner
    case Reserved => device in s.reserved && s.reserved[device].owner == owner && !IsExpired(s.reserved[device], now)
  }

  /** The calls that may end a hold of this kind before its expiry. */
  predicate Ends(op: Op, device: string, owner: string, kind: Kind)
  {
    || (op.ForceClearLock? && op.device == device)
    || (kind == Reserved && op.ClearLock? && op.device == device && op.owner == owner)
    || (kind == Busy && op.ClearAutoLock? && op.device == device && op.owner == owner)
  }

  /** A call by somebody else on the device. */
  predicate Foreign(op: Op, device: string, owner: string)
  {
    !op.ForceClearLock? && !op.StatusAll? && op.device == device && op.owner != owner
  }

  lemma HoldExcludesOne(s: Holds, now: nat, op: Op, device: string, owner: string, kind: Kind)
    requires Consistent(s) && Timed(op, now) && Callable(s, op)
    requires HeldBy(s, device, owner, kind, End(op, now)) && !Ends(op, device, owner, kind)
    ensures Foreign(op, device, owner) ==> Apply(s, op).1.Denied?
    ensures HeldBy(Apply(s, op).0, device, owner, kind, End(op, now))
    ensures kind == Reserved ==> Apply(s, op).0.reserved[device].expiresAt >= s.reserved[device].expiresAt
  {
  }

  /**
   From an owner's hold until the owner clears it, a force-clear, or its expiry,
   every Lock, AutoLock, CheckAccess and clear of anybody else on the device is denied.
   */
  lemma {:induction false} HoldExcludes(s: Holds, now: nat, ops: seq<Op>, device: string, owner: string, kind: Kind)
    requires Consistent(s) && Runs(s, now, ops)
    requires HeldBy(s, device, owner, kind, FinalTime(now, ops))
    requires forall i :: 0 <= i < |ops| ==> !Ends(ops[i], device, owner, kind)
    ensures forall i :: 0 <= i < |ops| && Foreign(ops[i], device, owner) ==> Results(s, now, ops)[i].Denied?
    ensures HeldBy(Final(s, now, ops), device, owner, kind, FinalTime(now, ops))
    decreases |ops|
  {
    if ops != [] {
      var s1, t := Apply(s, ops[0]).0, End(ops[0], now);
      TimeAdvances(s1, t, ops[1..]);
      HoldExcludesOne(s, now, ops[0], device, owner, kind);
      ApplyConsistent(s, ops[0]);
      assert forall i :: 0 <= i < |ops| - 1 ==> ops[1..][i] == ops[i + 1];
      HoldExcludes(s1, t, ops[1..], device, owner, kind);
      assert Results(s, now, ops)[1..] == Results(s1, t, ops[1..]);
    }
  }

  /** A successful Lock or AutoLock establishes such a hold, and a new one begins when it is taken. */
  lemma GrantHolds(s: Holds, now: nat, op: Op)
    requires Consistent(s) && Timed(op, now) && (op.Lock? || op.AutoLock?)
    requires Apply(s, op).1.Granted?
    ensures op.AutoLock? ==> HeldBy(Apply(s, op).0, op.device, op.owner, Busy, End(op, now))
    ensures op.AutoLock? && op.device !in s.busy ==> Apply(s, op).0.busy[op.device].lockedAt == op.t2
    ensures op.Lock? ==>
      var h := Apply(s, op).0.reserved[op.device];
      && h == Apply(s, op).1.hold && h.owner == op.owner && h.expiresAt >= op.t2 + op.dur
      && (!HeldBy(s, op.device, op.owner, Reserved, op.t3) ==> h.lockedAt == op.t2 && h.expiresAt == op.t2 + op.dur)
  {
  }

  /**
   So from a successful Lock, while its requested time lasts, or from a successful
   AutoLock, everybody else is kept off the device until the owner clears the hold
   or somebody forces it.
   */
  lemma GrantExcludes(s: Holds, now: nat, op: Op, ops: seq<Op>)
    requires Consistent(s) && Timed(op, now) && (op.Lock? || op.AutoLock?) && Apply(s, op).1.Granted?
    requires Runs(Apply(s, op).0, End(op, now), ops)
    requires op.Lock? ==> FinalTime(End(op, now), ops) < op.t2 + op.dur
    requires forall i :: 0 <= i < |ops| ==> !Ends(ops[i], op.device, op.owner, if op.Lock? then Reserved else Busy)
    ensures forall i :: 0 <= i < |ops| && Foreign(ops[i], op.device, op.owner) ==>
      Results(Apply(s, op).0, End(op, now), ops)[i].Denied?
  {
    GrantHolds(s, now, op);
    ApplyConsistent(s, op);
    HoldExcludes(Apply(s, op).0, End(op, now), ops, op.device, op.owner, if op.Lock? then Reserved else Busy);
  }

  /** Somebody holds the device, with either kind of hold. */
  ghost predicate Held(s: Holds, device: string, now: nat)
  {
    device in s.busy || (device in s.reserved && !IsExpired(s.reserved[device], now))
  }

  /**
   What each call needs in order to succeed, no more and no less, and what a
   clear leaves: a device is acquired by whoever no other owner's live hold shuts
   out, a hold is cleared by its owner alone, and a forced clear by anybody.
   */
  lemma SucceedsExactly(s: Holds, op: Op)
    requires Consistent(s) && !op.StatusAll?
    ensures var (s', result) := Apply(s, op);
      match op
      case Lock(d, o, dur, t1, _, _) => result.Granted? <==> dur > 0 && (Held(s, d, t1) ==> HeldByEither(s, d, o, t1))
      case AutoLock(d, o, t1, _) => result.Granted? <==> (Held(s, d, t1) ==> HeldByEither(s, d, o, t1))
      case CheckAccess(d, o, t) => result == Done <==> (Held(s, d, t) ==> HeldByEither(s, d, o, t))
      case ClearLock(d, o, t) =>
        (result == Done <==> HeldBy(s, d, o, Reserved, t)) && (result == Done ==> d !in s'.reserved)
      case ClearAutoLock(d, o) => (result == Done <==> HeldBy(s, d, o, Busy, 0)) && (result == Done ==> d !in s'.busy)
      case ForceClearLock(d, t) => (result == Done <==> Held(s, d, t)) && !Held(s', d, t)
  {
  }

  /** No other owner has an unexpired reservation or a busy hold on the device. */
  predicate OpenTo(s: Holds, d: string, o: string, t: nat)
  {
    && !(d in s.reserved && t < s.reserved[d].expiresAt && s.reserved[d].owner != o)
    && !(d in s.busy && s.busy[d].owner != o)
  }

  /** Who gets through, in terms of the stored expiries. */
  lemma OpenExactly(s: Holds, op: Op)
    requires Consistent(s)
    ensures op.CheckAccess? ==> (Apply(s, op).1 == Done <==> OpenTo(s, op.device, op.owner, op.t))
    ensures op.AutoLock? ==> (Apply(s, op).1.Granted? <==> OpenTo(s, op.device, op.owner, op.t1))
    ensures op.Lock? ==> (Apply(s, op).1.Granted? <==> op.dur > 0 && OpenTo(s, op.device, op.owner, op.t1))
  {
  }

  /**
   What a live reservation, with no busy hold beside it, makes of the calls at its device: only its
   owner gets through.
   */
  ghost predicate Guarded(s: Holds, d: string, o: string, dur: nat, t: nat, t2: nat, t3: nat)
    requires d in s.reserved
  {
    var h := s.reserved[d];
    var through := if o == h.owner then Done else Denied(WrongOwner(d, h));
    && Apply(s, CheckAccess(d, o, t)).1 == through
    && Apply(s, ClearLock(d, o, t)).1 == through
    && (o != h.owner ==> Apply(s, AutoLock(d, o, t, t2)).1 == through)
    && (o != h.owner ==> Apply(s, Lock(d, o, dur, t, t2, t3)).1 == through)
    && (o == h.owner ==> Apply(s, AutoLock(d, o, t, t2)).1 == Granted(Hold(o, t2, ZERO_TIME, Busy)))
    && (o == h.owner ==> Apply(s, Lock(d, o, dur, t, t2, t3)).1.Granted?)
    && Apply(s, ForceClearLock(d, t)).1 == Done
  }

  /** What a free device answers: everybody gets it, and there is nothing to clear. */
  ghost predicate Free(s: Holds, d: string, o: string, dur: nat, t: nat, t2: nat, t3: nat)
  {
    && Apply(s, CheckAccess(d, o, t)).1 == Done
    && Apply(s, ClearLock(d, o, t)).1 == Denied(NotLocked)
    && Apply(s, AutoLock(d, o, t, t2)).1 == Granted(Hold(o, t2, ZERO_TIME, Busy))
    && Apply(s, Lock(d, o, dur, t, t2, t3)).1 == Granted(Hold(o, t2, t2 + dur, Reserved))
    && Apply(s, ForceClearLock(d, t)).1 == Denied(NotLocked)
  }

  /**
   A reservation ends at its expiry, neither later nor earlier: before it the
   device is its owner's alone, from it on the device is free to everybody.
   */
  lemma ExpiryExactly(s: Holds, d: string, o: string, dur: nat, t: nat, t2: nat, t3: nat)
    requires Consistent(s) && d in s.reserved && d !in s.busy && dur > 0 && t <= t2 <= t3
    ensures t < s.reserved[d].expiresAt ==> Guarded(s, d, o, dur, t, t2, t3)
    ensures s.reserved[d].expiresAt <= t ==> Free(s, d, o, dur, t, t2, t3)
    ensures var report := Apply(s, StatusAll(At(s, t), t)).1.holds;
      && (t < s.reserved[d].expiresAt ==> d in report && report[d] == s.reserved[d])
      && (s.reserved[d].expiresAt <= t ==> d !in report)
  {
  }

  /**
   The same of a device with a busy hold and no reservation whose time is not
   over: that hold has no end, whatever the time, and its owner's clear ends it.
   */
  lemma BusyWithoutEnd(s: Holds, d: string, o: string, dur: nat, t: nat, t2: nat, t3: nat)
    requires Consistent(s) && d in s.busy && dur > 0 && t <= t2 <= t3
    requires d in s.reserved ==> s.reserved[d].expiresAt <= t
    ensures var h := s.busy[d];
      && Apply(s, CheckAccess(d, o, t)).1 == (if o == h.owner then Done else Denied(WrongOwner(d, h)))
      && Apply(s, AutoLock(d, o, t, t2)).1 == (if o == h.owner then Granted(h) else Denied(WrongOwner(d, h)))
      && Apply(s, Lock(d, o, dur, t, t2, t3)).1
         == (if o == h.owner then Granted(Hold(o, t2, t2 + dur, Reserved)) else Denied(WrongOwner(d, h)))
      && Apply(s, ClearLock(d, o, t)).1 == Denied(NotLocked)
      && Apply(s, ClearAutoLock(d, o)).1 == (if o == h.owner then Done else Denied(WrongOwner(d, h)))
      && Apply(s, ForceClearLock(d, t)).1 == Done
      && d in Apply(s, StatusAll(At(s, t), t)).1.holds && Apply(s, StatusAll(At(s, t), t)).1.holds[d] == h
  {
  }

  /** A device that nobody has anything on is free. */
  lemma UntouchedIsFree(s: Holds, d: string, o: string, dur: nat, t: nat, t2: nat, t3: nat)
    requires d !in s.busy && d !in s.reserved && dur > 0 && t <= t2 <= t3
    ensures Free(s, d, o, dur, t, t2, t3)
    ensures d !in Apply(s, StatusAll(At(s, t), t)).1.holds && Apply(s, ClearAutoLock(d, o)).1 == Denied(NotLocked)
  {
  }

  /** A duration that is not positive is refused, and changes nothing. */
  lemma BadDurationRefused(s: Holds, d: string, o: string, dur: int, t1: nat, t2: nat, t3: nat)
    requires dur <= 0
    ensures Apply(s, Lock(d, o, dur, t1, t2, t3)) == (s, Denied(InvalidDuration))
  {
  }

  /** A call leaves the reservations of other devices alone, but for ones whose time is over. */
  lemma OtherDevicesKept(s: Holds, op: Op, d: string)
    requires Consistent(s) && Callable(s, op) && (op.StatusAll? || op.device != d)
    ensures d in Apply(s, op).0.reserved ==> d in s.reserved && Apply(s, op).0.reserved[d] == s.reserved[d]
    ensures d in s.reserved && d !in Apply(s, op).0.reserved ==> op.StatusAll? && s.reserved[d].expiresAt <= op.clock[d]
    ensures d in s.busy <==> d in Apply(s, op).0.busy
    ensures d in s.busy ==> Apply(s, op).0.busy[d] == s.busy[d]
  {
  }

  ghost predicate HeldByEither(s: Holds, device: string, owner: string, now: nat)
  {
    HeldBy(s, device, owner, Busy, now) || HeldBy(s, device, owner, Reserved, now)
  }

  // --------------------------------------------- pruning exactly at expiry instead

  /** The stores with everything that has expired by now removed, as a locker with a perfect alarm clock has them. */
  function Tick(s: Holds, now: nat): (r: Holds)
  {
    s.(reserved := map d | d in s.reserved && !IsExpired(s.reserved[d], now) :: s.reserved[d])
  }

  /** The reservations still there at the readings taken for their devices. */
  function StillThere(s: Holds, clock: map<string, nat>): (r: map<string, Hold>)
  {
    map d | d in s.reserved && d in clock && d in Tick(s, clock[d]).reserved :: s.reserved[d]
  }

  /** The same calls on such a locker: reservations vanish when the clock moves, and no call looks at an expiry. */
  function IdealApply(s: Holds, op: Op, now: nat): (r: (Holds, Result))
  {
    match op
    case Lock(d, o, dur, t1, t2, t3) =>
      if dur <= 0 then (s, Denied(InvalidDuration))
      else
        var s1 := Tick(s, t1);
        var blocker := Blocker(s1, d, o);
        var s2 := Tick(s1, t3);
        if blocker.Some? then (s2, Denied(WrongOwner(d, blocker.value)))
        else
          var hold := if d in s2.reserved then Extended(s2.reserved[d], t2 + dur)
                      else Hold(o, t2, t2 + dur, Reserved);
          (Tick(s2.(reserved := s2.reserved[d := hold]), t3), Granted(hold))
    case ClearLock(d, o, t) =>
      var s1 := Tick(s, t);
      if d !in s1.reserved then (s1, Denied(NotLocked))
      else if s1.reserved[d].owner != o then (s1, Denied(WrongOwner(d, s1.reserved[d])))
      else (s1.(reserved := s1.reserved - {d}), Done)
    case ForceClearLock(d, t) =>
      var s1 := Tick(s, t);
      (Holds(s1.reserved - {d}, s1.busy - {d}),
       if d in s1.reserved || d in s1.busy then Done else Denied(NotLocked))
    case AutoLock(d, o, t1, t2) =>
      var s1 := Tick(s, t1);
      var blocker := Blocker(s1, d, o);
      var s2 := Tick(s1, t2);
      if blocker.Some? then (s2, Denied(WrongOwner(d, blocker.value)))
      else
        var hold := if d in s2.busy then s2.busy[d] else Hold(o, t2, ZERO_TIME, Busy);
        (s2.(busy := s2.busy[d := hold]), Granted(hold))
    case ClearAutoLock(d, o) =>
      if d !in s.busy then (s, Denied(NotLocked))
      else if s.busy[d].owner != o then (s, Denied(WrongOwner(d, s.busy[d])))
      else (s.(busy := s.busy - {d}), Done)
    case CheckAccess(d, o, t) =>
      var s1 := Tick(s, t);
      var blocker := Blocker(s1, d, o);
      (s1, if blocker.Some? then Denied(WrongOwner(d, blocker.value)) else Done)
    case StatusAll(clock, end) =>
      (Tick(s, end),
       Report(s.busy + StillThere(s, clock)))
  }

  lemma TickTick(s: Holds, a: nat, b: nat)
    requires a <= b
    ensures Tick(Tick(s, a), b) == Tick(s, b)
  {
  }

  lemma PruneTick(s: Holds, d: string, a: nat, b: nat)
    requires a <= b
    ensures Tick(Prune(s, d, a), b) == Tick(s, b)
  {
  }

  /** At the moment a device is pruned, both lockers see the same holds on it. */
  lemma PrunedLooksTicked(s: Holds, d: string, o: string, t: nat)
    ensures d in Tick(s, t).reserved <==> d in Prune(s, d, t).reserved
    ensures d in Tick(s, t).reserved ==> Tick(s, t).reserved[d] == Prune(s, d, t).reserved[d]
    ensures Blocker(Tick(s, t), d, o) == Blocker(Prune(s, d, t), d, o)
  {
  }

  lemma TickSet(a: Holds, b: Holds, d: string, h: Hold, t: nat)
    requires a == Tick(b, t)
    ensures Tick(a.(reserved := a.reserved[d := h]), t) == Tick(b.(reserved := b.reserved[d := h]), t)
  {
  }

  lemma TickRemove(s: Holds, d: string, t: nat)
    ensures Tick(s.(reserved := s.reserved - {d}), t) == Tick(s, t).(reserved := Tick(s, t).reserved - {d})
  {
  }

  lemma LockStep(s: Holds, now: nat, op: Op)
    requires op.Lock? && op.dur > 0 && Timed(op, now)
    ensures IdealApply(Tick(s, now), op, now) == (Tick(Apply(s, op).0, op.t3), Apply(s, op).1)
  {
    var d, s1 := op.device, Prune(s, op.device, op.t1);
    TickTick(s, now, op.t1);
    TickTick(s, op.t1, op.t3);
    PruneTick(s, d, op.t1, op.t3);
    PrunedLooksTicked(s, d, op.owner, op.t1);
    if Blocker(s1, d, op.owner).None? {
      var s2 := Prune(s1, d, op.t3);
      PruneTick(s1, d, op.t3, op.t3);
      PrunedLooksTicked(s1, d, op.owner, op.t3);
      var hold := if d in s2.reserved then Extended(s2.reserved[d], op.t2 + op.dur)
                  else Hold(op.owner, op.t2, op.t2 + op.dur, Reserved);
      TickSet(Tick(s2, op.t3), s2, d, hold, op.t3);
    }
  }

  lemma AutoLockStep(s: Holds, now: nat, op: Op)
    requires op.AutoLock? && Timed(op, now)
    ensures IdealApply(Tick(s, now), op, now) == (Tick(Apply(s, op).0, op.t2), Apply(s, op).1)
  {
    TickTick(s, now, op.t1);
    TickTick(s, op.t1, op.t2);
    PruneTick(s, op.device, op.t1, op.t2);
    PrunedLooksTicked(s, op.device, op.owner, op.t1);
    var busy := s.busy;
    assert op.device in busy ==> busy[op.device := busy[op.device]] == busy;
  }

  lemma ClearStep(s: Holds, now: nat, op: Op)
    requires (op.ClearLock? || op.ForceClearLock?) && Timed(op, now)
    ensures IdealApply(Tick(s, now), op, now) == (Tick(Apply(s, op).0, op.t), Apply(s, op).1)
  {
    var s1 := Prune(s, op.device, op.t);
    TickTick(s, now, op.t);
    PruneTick(s, op.device, op.t, op.t);
    PrunedLooksTicked(s, op.device, "", op.t);
    TickRemove(s1, op.device, op.t);
    assert op.device !in Tick(s, op.t).reserved ==> Tick(s, op.t).reserved - {op.device} == Tick(s, op.t).reserved;
    assert op.device !in s.busy ==> s.busy - {op.device} == s.busy;
  }

  lemma TickKeeps(s: Holds, now: nat, d: string)
    ensures d in Tick(s, now).reserved <==> d in s.reserved && !IsExpired(s.reserved[d], now)
    ensures d in Tick(s, now).reserved ==> Tick(s, now).reserved[d] == s.reserved[d]
  {
  }

  lemma StillThereIsLive(s: Holds, now: nat, clock: map<string, nat>)
    requires s.reserved.Keys <= clock.Keys
    requires forall d :: d in clock ==> now <= clock[d]
    ensures StillThere(Tick(s, now), clock) == LiveAt(s, clock)
  {
    var all := Tick(s, now);
    forall d | d in s.reserved
      ensures d in StillThere(all, clock) <==> d in LiveAt(s, clock)
    {
      TickKeeps(s, now, d);
      TickKeeps(all, clock[d], d);
    }
    assert StillThere(all, clock).Keys == LiveAt(s, clock).Keys;
  }

  lemma PruneAllTick(s: Holds, clock: map<string, nat>, end: nat)
    requires s.reserved.Keys <= clock.Keys
    requires forall d :: d in clock ==> clock[d] <= end
    ensures Tick(PruneAll(s, clock), end) == Tick(s, end)
  {
    assert Tick(PruneAll(s, clock), end).reserved.Keys == Tick(s, end).reserved.Keys;
  }

  lemma StatusStep(s: Holds, now: nat, op: Op)
    requires op.StatusAll? && Timed(op, now) && Callable(s, op)
    ensures IdealApply(Tick(s, now), op, now) == (Tick(Apply(s, op).0, op.end), Apply(s, op).1)
  {
    TickTick(s, now, op.end);
    StillThereIsLive(s, now, op.clock);
    PruneAllTick(s, op.clock, op.end);
  }

  /** One call: the lazy locker and the ideal one report the same and stay in step. */
  lemma PruningInvisibleOne(s: Holds, op: Op, now: nat)
    requires Timed(op, now) && Callable(s, op)
    ensures IdealApply(Tick(s, now), op, now) == (Tick(Apply(s, op).0, End(op, now)), Apply(s, op).1)
  {
    match op
    case Lock(_, _, dur, _, _, _) => if dur > 0 { LockStep(s, now, op); }
    case ClearLock(_, _, _) => ClearStep(s, now, op);
    case ForceClearLock(_, _) => ClearStep(s, now, op);
    case AutoLock(_, _, _, _) => AutoLockStep(s, now, op);
    case ClearAutoLock(d, _) =>
    case CheckAccess(d, o, t) =>
      TickTick(s, now, t);
      PruneTick(s, d, t, t);
      PrunedLooksTicked(s, d, o, t);
    case StatusAll(_, _) => StatusStep(s, now, op);
  }

  function IdealResults(s: Holds, now: nat, ops: seq<Op>): (r: seq<Result>)
    ensures |r| == |ops|
    decreases |ops|
  {
    if ops == [] then []
    else
      var (s1, result) := IdealApply(s, ops[0], now);
      [result] + IdealResults(s1, End(ops[0], now), ops[1..])
  }

  /** Lazy pruning is unobservable: over every history, every result is that of the ideal locker. */
  lemma {:induction false} PruningInvisible(s: Holds, now: nat, ops: seq<Op>)
    requires Runs(s, now, ops)
    ensures Results(s, now, ops) == IdealResults(Tick(s, now), now, ops)
    decreases |ops|
  {
    if ops != [] {
      PruningInvisibleOne(s, ops[0], now);
      PruningInvisible(Apply(s, ops[0]).0, End(ops[0], now), ops[1..]);
    }
  }

  // ------------------------------------------------------- extending a reservation

  function Max(a: nat, b: nat): (m: nat) { if a >= b then a else b }

  /** The expiry this call asks for on the device for the owner, 0 if it asks for none. */
  function Requested(op: Op, device: string, owner: string): (t: nat)
  {
    if op.Lock? && op.dur > 0 && op.device == device && op.owner == owner then op.t2 + op.dur else 0
  }

  /**
   With what has been requested so far (expiry at first), the reservation is live at every reading
   and nobody clears it.
   */
  predicate NeverLapses(now: nat, ops: seq<Op>, device: string, owner: string, expiry: nat)
    decreases |ops|
  {
    ops == []
    || (&& End(ops[0], now) < expiry
        && !Ends(ops[0], device, owner, Reserved)
        && NeverLapses(End(ops[0], now), ops[1..], device, owner, Max(expiry, Requested(ops[0], device, owner))))
  }

  function MaxRequested(ops: seq<Op>, device: string, owner: string, expiry: nat): (t: nat)
    decreases |ops|
  {
    if ops == [] then expiry
    else MaxRequested(ops[1..], device, owner, Max(expiry, Requested(ops[0], device, owner)))
  }

  lemma ExtendOne(s: Holds, now: nat, op: Op, device: string, owner: string)
    requires Consistent(s) && Timed(op, now) && Callable(s, op)
    requires HeldBy(s, device, owner, Reserved, End(op, now)) && !Ends(op, device, owner, Reserved)
    ensures var h := s.reserved[device];
      && device in Apply(s, op).0.reserved
      && Apply(s, op).0.reserved[device] == h.(expiresAt := Max(h.expiresAt, Requested(op, device, owner)))
  {
    HoldExcludesOne(s, now, op, device, owner, Reserved);
  }

  /**
   A reservation that never lapses keeps its start, expires at the latest moment
   ever requested, and shuts everybody else out all the while.
   */
  lemma {:induction false} ReservationExtends(s: Holds, now: nat, ops: seq<Op>, device: string, owner: string)
    requires Consistent(s) && Runs(s, now, ops)
    requires device in s.reserved && s.reserved[device].owner == owner
    requires NeverLapses(now, ops, device, owner, s.reserved[device].expiresAt)
    ensures var h := s.reserved[device];
      var final := Final(s, now, ops);
      && device in final.reserved
      && final.reserved[device] == h.(expiresAt := MaxRequested(ops, device, owner, h.expiresAt))
    ensures forall i :: 0 <= i < |ops| && Foreign(ops[i], device, owner) ==> Results(s, now, ops)[i].Denied?
    decreases |ops|
  {
    if ops != [] {
      ExtendOne(s, now, ops[0], device, owner);
      HoldExcludesOne(s, now, ops[0], device, owner, Reserved);
      ApplyConsistent(s, ops[0]);
      var s1, t := Apply(s, ops[0]).0, End(ops[0], now);
      assert forall i :: 0 <= i < |ops| - 1 ==> ops[1..][i] == ops[i + 1];
      ReservationExtends(s1, t, ops[1..], device, owner);
      assert Results(s, now, ops)[1..] == Results(s1, t, ops[1..]);
    }
  }

  /**
   And then it lapses: once the latest moment ever requested has come, whoever
   asks is let in, if no command is running on the device.
   */
  lemma ReservationLapses(s: Holds, now: nat, ops: seq<Op>, device: string, owner: string, o: string, t: nat)
    requires Consistent(s) && Runs(s, now, ops)
    requires device in s.reserved && s.reserved[device].owner == owner
    requires NeverLapses(now, ops, device, owner, s.reserved[device].expiresAt)
    requires device !in Final(s, now, ops).busy
    ensures var end := MaxRequested(ops, device, owner, s.reserved[device].expiresAt);
      Apply(Final(s, now, ops), CheckAccess(device, o, t)).1 == Done <==> end <= t || o == owner
  {
    ReservationExtends(s, now, ops, device, owner);
    ReachableConsistent(s, now, ops);
    ExpiryExactly(Final(s, now, ops), device, o, 1, t, t, t);
  }

  // -------------------------------------------------------------- the locker object

  class DeviceLocker {
    var reserved: map<string, Hold>
    var busy: map<string, Hold>

    function View(): (s: Holds)
      reads this
    {
      Holds(reserved, busy)
    }

    ghost predicate Valid()
      reads this
    {
      Consistent(View())
    }

    constructor ()
      ensures Valid() && View() == EMPTY
    {
      reserved, busy := map[], map[];
    }

    /** The live reservation of the device at now, pruning it first if it has expired. */
    method LiveReservation(device: string, now: nat) returns (hold: Option<Hold>)
      requires Valid()
      modifies this`reserved
      ensures Valid() && View() == Prune(old(View()), device, now)
      ensures hold == if device in reserved then Some(reserved[device]) else None
      ensures device in reserved <==> device in old(reserved) && now < old(reserved)[device].expiresAt
    {
      if device !in reserved {
        return None;
      }
      if IsExpired(reserved[device], now) {
        reserved := reserved - {device};
        return None;
      }
      return Some(reserved[device]);
    }

    method CheckLocked(device: string, owner: string, now: nat) returns (error: Option<Error>)
      requires Valid()
      modifies this`reserved
      ensures Valid() && View() == Prune(old(View()), device, now)
      ensures var blocker := Blocker(View(), device, owner);
        error == if blocker.Some? then Some(WrongOwner(device, blocker.value)) else None
    {
      var hold := LiveReservation(device, now);
      if hold.Some? && hold.value.owner != owner {
        return Some(WrongOwner(device, hold.value));
      }
      if device in busy && busy[device].owner != owner {
        return Some(WrongOwner(device, busy[device]));
      }
      return None;
    }

    method Lock(device: string, owner: string, dur: int, t1: nat, t2: nat, t3: nat) returns (r: Result)
      requires Valid()
      modifies this
      ensures Valid() && (View(), r) == Apply(old(View()), Op.Lock(device, owner, dur, t1, t2, t3))
    {
      if dur <= 0 {
        return Denied(InvalidDuration);
      }
      var blocker := CheckLocked(device, owner, t1);
      if blocker.Some? {
        return Denied(blocker.value);
      }
      var newExpiry := t2 + dur;
      var existing := LiveReservation(device, t3);
      if existing.Some? {
        var updated := existing.value;
        if newExpiry > updated.expiresAt {
          updated := updated.(expiresAt := newExpiry);
        }
        reserved := reserved[device := updated];
        return Granted(updated);
      }
      var hold := Hold(owner, t2, newExpiry, Reserved);
      reserved := reserved[device := hold];
      return Granted(hold);
    }

    method ClearLock(device: string, owner: string, t: nat) returns (r: Result)
      requires Valid()
      modifies this
      ensures Valid() && (View(), r) == Apply(old(View()), Op.ClearLock(device, owner, t))
      ensures busy == old(busy)
    {
      var hold := LiveReservation(device, t);
      if hold.None? {
        return Denied(NotLocked);
      }
      if hold.value.owner != owner {
        return Denied(WrongOwner(device, hold.value));
      }
      reserved := reserved - {device};
      return Done;
    }

    method ForceClearLock(device: string, t: nat) returns (r: Result)
      requires Valid()
      modifies this
      ensures Valid() && (View(), r) == Apply(old(View()), Op.ForceClearLock(device, t))
      ensures device !in reserved && device !in busy
    {
      var reservation := LiveReservation(device, t);
      var hadBusy := device in busy;
      if reservation.None? && !hadBusy {
        return Denied(NotLocked);
      }
      reserved := reserved - {device};
      busy := busy - {device};
      return Done;
    }

    method AutoLock(device: string, owner: string, t1: nat, t2: nat) returns (r: Result)
      requires Valid()
      modifies this
      ensures Valid() && (View(), r) == Apply(old(View()), Op.AutoLock(device, owner, t1, t2))
    {
      var blocker := CheckLocked(device, owner, t1);
      if blocker.Some? {
        return Denied(blocker.value);
      }
      if device in busy {
        return Granted(busy[device]);
      }
      var hold := Hold(owner, t2, ZERO_TIME, Busy);
      busy := busy[device := hold];
      return Granted(hold);
    }

    method ClearAutoLock(device: string, owner: string) returns (r: Result)
      requires Valid()
      modifies this`busy
      ensures Valid() && (View(), r) == Apply(old(View()), Op.ClearAutoLock(device, owner))
    {
      if device !in busy {
        return Denied(NotLocked);
      }
      if busy[device].owner != owner {
        return Denied(WrongOwner(device, busy[device]));
      }
      busy := busy - {device};
      return Done;
    }

    method CheckAccess(device: string, owner: string, t: nat) returns (r: Result)
      requires Valid()
      modifies this`reserved
      ensures Valid() && (View(), r) == Apply(old(View()), Op.CheckAccess(device, owner, t))
    {
      var blocker := CheckLocked(device, owner, t);
      return if blocker.Some? then Denied(blocker.value) else Done;
    }

    /** Visits the reservations in any order; clock says at what reading each device is visited. */
    method StatusAll(clock: map<string, nat>, end: nat) returns (r: Result)
      requires Valid() && reserved.Keys <= clock.Keys
      modifies this`reserved
      ensures Valid() && (View(), r) == Apply(old(View()), Op.StatusAll(clock, end))
    {
      var out := busy;
      var left := reserved.Keys;
      while left != {}
        invariant left <= reserved.Keys && Valid()
        invariant Visited(old(View()), clock, left, reserved, busy, out)
        decreases left
      {
        var device :| device in left;
        var hold := LiveReservation(device, clock[device]);
        if hold.Some? {
          out := out[device := hold.value];
        }
        left := left - {device};
      }
      VisitedAll(old(View()), clock, reserved, busy, out);
      return Report(out);
    }
  }

  /** The visit of StatusAll when `left` are still to be visited. */
  ghost predicate Visited(s: Holds, clock: map<string, nat>, left: set<string>, reserved: map<string, Hold>,
                          busy: map<string, Hold>, out: map<string, Hold>)
  {
    && s.reserved.Keys <= clock.Keys
    && reserved.Keys <= s.reserved.Keys
    && (forall d :: d in reserved ==> reserved[d] == s.reserved[d])
    && (forall d :: d in s.reserved && d !in left ==> (d in reserved <==> !IsExpired(s.reserved[d], clock[d])))
    && out.Keys == busy.Keys + (reserved.Keys - left)
    && (forall d :: d in out ==> out[d] == if d in reserved && d !in left then reserved[d] else busy[d])
  }

  lemma VisitedAll(s: Holds, clock: map<string, nat>, reserved: map<string, Hold>, busy: map<string, Hold>,
                   out: map<string, Hold>)
    requires Visited(s, clock, {}, reserved, busy, out) && busy == s.busy
    ensures reserved == LiveAt(s, clock) && out == StatusOf(s, clock)
  {
    assert reserved.Keys == LiveAt(s, clock).Keys;
    assert out.Keys == StatusOf(s, clock).Keys;
  }
}

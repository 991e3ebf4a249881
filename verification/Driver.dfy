/**
 One Run handler as it is written: the driver loop of the state machine
 (internal/fsm/fsm.go), its state functions (cmds/dutagent/states.go), and the
 release deferred around them (cmds/dutagent/rpc.go).

 It works on the real locker, resolves the arguments of the modules, and waits as
 the outcome of the run has it. What everybody else does before a state function
 is called, and whether that function panics, is given by a visit; the functions
 are taken to return. The run is proved to be one of the interleavings of the
 step system, whose theorems therefore hold of it.
 */
module Driver {
  import opened Base
  import opened Locker
  import opened Handlers
  import Templating
  import Outcome

  /** The record of the auto-lock: written by the acquiring state, read by the deferred release. */
  class AutoLockHold {
    var device: string
    var held: bool

    constructor ()
      ensures !held
    {
      device, held := "", false;
    }
  }

  /** What may go wrong inside a state function: one of the first two fails, or any panics. */
  datatype Mishap = NoMishap | Fails | Panics

  /** What the driver meets at a state: a done context, others at work, the clock, and a mishap inside. */
  datatype Visit = Visit(ctxDone: bool, others: System -> seq<Action>, wait1: nat, wait2: nat, mishap: Mishap)

  /** The first message, with the command it names. */
  datatype Request = Request(device: string, command: Templating.Command, args: seq<string>)

  /** What a run meets: its visits, its request, and how the modules and the broker go for given argument lists. */
  datatype Script = Script(visit: Phase -> Visit, request: Request, course: seq<seq<string>> -> seq<Outcome.Action>)

  /** Why a state function fails. */
  datatype Cause =
    | NoCommand
    | NotFound
    | Refused(error: Error)
    | BadArguments(why: Templating.ArgsError)
    | Unsuccessful(result: Outcome.RunResult)

  /** What a state function comes to, or the driver before calling it. */
  datatype Reply = Next(state: Phase) | NoState | Fail(cause: Cause) | Panic | ContextDone

  datatype Ending = Success | Failed(cause: Cause) | Cancelled | Panicked

  /** The action is of some other handler, or of none. */
  predicate Stranger(a: Action, h: nat)
  {
    match a
    case Begin(k, _) => k != h
    case Receive(k, _) => k != h
    case Find(k) => k != h
    case Check(k, _) => k != h
    case Acquire(k, _, _) => k != h
    case Execute(k) => k != h
    case Succeed(k) => k != h
    case CutShort(k) => k != h
    case Release(k) => k != h
    case _ => true
  }

  /** The others do what they can, and leave this handler alone. */
  ghost predicate Meanwhile(v: Visit, h: nat)
  {
    forall s :: Path(s, v.others(s)) && forall i :: 0 <= i < |v.others(s)| ==> Stranger(v.others(s)[i], h)
  }

  /** The run of the modules and the broker, up to the answer of the waiting state. */
  ghost predicate Answers(course: seq<Outcome.Action>, plan: seq<seq<string>>)
  {
    Outcome.Path(Outcome.Begin(plan), course) && Outcome.After(Outcome.Begin(plan), course).waiter.Answered?
  }

  /** Others leave this handler alone, the command was accepted when it was loaded, and the wait is answered. */
  ghost predicate Proper(script: Script, h: nat)
  {
    && (forall p :: Meanwhile(script.visit(p), h))
    && Templating.Loaded(script.request.command)
    && Answered(script)
  }

  /** Whatever the argument lists, the wait comes to an answer. */
  ghost predicate Answered(script: Script) { forall plan :: Answers(script.course(plan), plan) }

  function Ran(script: Script, plan: seq<seq<string>>): (r: Outcome.Run)
    requires Answers(script.course(plan), plan)
  {
    Outcome.After(Outcome.Begin(plan), script.course(plan))
  }

  lemma {:induction false} OthersLeave(s: System, acts: seq<Action>, h: nat)
    requires Path(s, acts) && h in s.handlers && forall i :: 0 <= i < |acts| ==> Stranger(acts[i], h)
    ensures h in After(s, acts).handlers && After(s, acts).handlers[h] == s.handlers[h]
  {
    if acts != [] { OthersLeave(s, acts[..|acts| - 1], h); }
  }

  lemma {:induction false} ThenAll(acts: seq<Action>, s: System, more: seq<Action>)
    requires Leads(acts, s) && Path(s, more)
    ensures Leads(acts + more, After(s, more))
  {
    if more == [] {
      assert acts + more == acts;
    } else {
      var front, last := more[..|more| - 1], more[|more| - 1];
      ThenAll(acts, s, front);
      assert acts + more == (acts + front) + [last];
      var all, s' := Then(acts + front, After(s, front), last);
    }
  }

  /** The step system's account of this handler is what its own variables say. */
  ghost predicate Tied(s: System, h: nat, user: string, device: string, phase: Phase, record: AutoLockHold,
                       locker: DeviceLocker)
    reads record, locker
  {
    && h in s.handlers && s.handlers[h] == Handler(user, phase != Receiving, device, phase, record.held)
    && (record.held ==> record.device == device)
    && (record.held <==> phase == Executing || phase == Waiting)
    && locker.Valid() && locker.View() == s.holds
  }

  /** At the end of the states: about to release, with the record as it was left. */
  ghost predicate Leaving(s: System, h: nat, user: string, record: AutoLockHold, locker: DeviceLocker)
    reads record, locker
  {
    && InPhase(s, h, Unwinding) && s.handlers[h].user == user
    && s.handlers[h].held == record.held && (record.held ==> record.device == s.handlers[h].device)
    && locker.Valid() && locker.View() == s.holds
  }

  /** The state a state function names as the next. */
  function Following(p: Phase): (next: Phase)
  {
    match p
    case Receiving => Finding
    case Finding => Checking
    case Checking => Acquiring
    case Acquiring => Executing
    case Executing => Waiting
    case _ => Unwinding
  }

  /** How many states there are from this one on. */
  function Left(p: Phase): (n: nat)
  {
    match p
    case Receiving => 6
    case Finding => 5
    case Checking => 4
    case Acquiring => 3
    case Executing => 2
    case Waiting => 1
    case _ => 0
  }

  /** The mishap keeps this state function from returning without an error. */
  predicate Fatal(v: Visit, p: Phase)
  {
    v.mishap == Panics || (v.mishap == Fails && (p == Receiving || p == Finding))
  }

  /** The arguments resolve to these lists, one for each module. */
  ghost predicate Resolved(request: Request, plan: seq<seq<string>>)
  {
    Templating.ArgumentLists(request.command, request.args, plan)
  }

  /** What a failure means. */
  ghost predicate Justified(script: Script, user: string, plan: seq<seq<string>>, cause: Cause)
    requires Answered(script)
  {
    var request := script.request;
    match cause
    case NoCommand => script.visit(Receiving).mishap == Fails
    case NotFound => script.visit(Finding).mishap == Fails
    case Refused(error) => error.WrongOwner? && error.device == request.device && error.holder.owner != user
    case BadArguments(_) =>
      !Templating.HasPassthrough(request.command) && |request.args| != |request.command.argNames|
    case Unsuccessful(result) =>
      Resolved(request, plan) && Ran(script, plan).waiter == Outcome.Answered(result) && result != Outcome.Success
  }

  /** Every module of the command ran once, in order, with its own arguments, and the workers ended cleanly. */
  ghost predicate RanCleanly(script: Script, plan: seq<seq<string>>)
    requires Answered(script)
  {
    && Resolved(script.request, plan)
    && Ran(script, plan).log == Outcome.CleanLog(plan, |plan|)
    && Outcome.Quiet(Ran(script, plan).broker)
  }

  /** What the ending says: a success, that nothing went wrong in any state and the modules ran cleanly. */
  ghost predicate Explained(script: Script, user: string, plan: seq<seq<string>>, ending: Ending)
    requires Answered(script)
  {
    match ending
    case Success => Passed(script.visit, Unwinding) && RanCleanly(script, plan)
    case Cancelled => exists p :: Running(p) && script.visit(p).ctxDone
    case Panicked => exists p :: Running(p) && script.visit(p).mishap == Panics
    case Failed(cause) => Justified(script, user, plan, cause)
  }

  /** Nothing went wrong in any state before p. */
  predicate Passed(visits: Phase -> Visit, p: Phase)
  {
    forall q :: Running(q) && Left(q) > Left(p) ==> !visits(q).ctxDone && !Fatal(visits(q), q)
  }

  lemma PassOn(visits: Phase -> Visit, p: Phase)
    requires Running(p) && Passed(visits, p)
    ensures !visits(p).ctxDone && !Fatal(visits(p), p) ==> Passed(visits, Following(p))
  {
    assert forall q :: Running(q) && Left(q) > Left(Following(p)) ==> Left(q) > Left(p) || q == p;
  }

  /** The ending that a reply without a next state makes. */
  function EndingOf(reply: Reply): (e: Ending)
    requires !reply.Next?
  {
    match reply
    case NoState => Success
    case Fail(cause) => Failed(cause)
    case Panic => Panicked
    case ContextDone => Cancelled
  }

  /** What one round's reply says is what the ending it makes says. */
  lemma ExplainEnding(script: Script, user: string, plan: seq<seq<string>>, p: Phase, reply: Reply)
    requires Answered(script)
    requires Running(p) && Passed(script.visit, p) && !reply.Next?
    requires reply == NoState ==> p == Waiting && RanCleanly(script, plan) && !Fatal(script.visit(p), p)
    requires reply == ContextDone <==> script.visit(p).ctxDone
    requires reply == Panic ==> script.visit(p).mishap == Panics
    requires reply.Fail? ==> Justified(script, user, plan, reply.cause)
    ensures Explained(script, user, plan, EndingOf(reply))
  {
    PassOn(script.visit, p);
  }

  class RunHandler {
    const h: nat
    const user: string
    const locker: DeviceLocker
    const record: AutoLockHold
    const script: Script
    var device: string
    // The argument lists, once they are resolved.
    var plan: seq<seq<string>>
    // The whole agent as others see it, and how it came about.
    var world: System
    ghost var acts: seq<Action>

    constructor (h: nat, user: string, locker: DeviceLocker, script: Script, world: System, ghost acts: seq<Action>)
      requires Leads(acts, world) && h !in world.handlers && locker.Valid() && locker.View() == world.holds
      ensures this.h == h && this.user == user && this.locker == locker && this.script == script
      ensures fresh(record) && At(Receiving) && this.acts == acts + [Begin(h, user)]
    {
      this.h, this.user, this.locker, this.script := h, user, locker, script;
      this.record := new AutoLockHold();
      device, plan := "", [];
      this.world := Step(world, Begin(h, user));
      var more, s := Then(acts, world, Begin(h, user));
      this.acts := more;
    }

    /** About to call the function of this state. */
    ghost predicate At(p: Phase)
      reads this, record, locker
    {
      && Leads(acts, world) && Tied(world, h, user, device, p, record, locker)
      && (p != Receiving ==> device == script.request.device)
      && (p == Waiting ==> Resolved(script.request, plan))
    }

    /** Out of the driver loop. */
    ghost predicate Out()
      reads this, record, locker
    {
      Leads(acts, world) && Leaving(world, h, user, record, locker)
    }

    /** The others have their turn. */
    method LetOthers(v: Visit, ghost p: Phase)
      requires At(p) && Meanwhile(v, h)
      modifies this`world, this`acts, locker
      ensures At(p) && old(acts) <= acts
      ensures Succeed(h) in acts <==> Succeed(h) in old(acts)
    {
      Interlude(v);
    }

    /** And once more, between the last state and the release. */
    method LetOthersLast(v: Visit)
      requires Out() && Meanwhile(v, h)
      modifies this`world, this`acts, locker
      ensures Out() && old(acts) <= acts
      ensures Succeed(h) in acts <==> Succeed(h) in old(acts)
    {
      Interlude(v);
    }

    /** What the others do shows in the locker and leaves this handler's entry as it is. */
    method Interlude(v: Visit)
      requires Leads(acts, world) && h in world.handlers && Meanwhile(v, h)
      modifies this`world, this`acts, locker
      ensures Leads(acts, world) && old(acts) <= acts
      ensures h in world.handlers && world.handlers[h] == old(world).handlers[h]
      ensures locker.Valid() && locker.View() == world.holds
      ensures Succeed(h) in acts <==> Succeed(h) in old(acts)
    {
      ghost var more := v.others(world);
      OthersLeave(world, more, h);
      ThenAll(acts, world, more);
      NoBusyLeaks(acts + more);
      world := After(world, v.others(world));
      acts := acts + more;
      locker.reserved, locker.busy := world.holds.reserved, world.holds.busy;
    }

    /** The state function has led to the next state, to the end, or out. */
    ghost predicate Went(next: Phase, reply: Reply)
      reads this, record, locker
      requires Proper(script, h)
    {
      match reply
      case Next(state) => state == next && At(next)
      case NoState => next == Unwinding && Out() && RanCleanly(script, plan)
      case Fail(cause) => Out() && Justified(script, user, plan, cause)
      case _ => false
    }

    /** The first message must be a command. */
    method ReceiveCommand(v: Visit) returns (reply: Reply)
      requires At(Receiving) && Proper(script, h)
      requires v == script.visit(Receiving)
      modifies this, record, locker
      ensures reply.Next? ==> v.mishap != Fails
      ensures Went(Finding, reply) && reply != NoState && old(acts) <= acts
      ensures Succeed(h) in acts <==> Succeed(h) in old(acts)
    {
      if v.mishap == Fails {
        Take(CutShort(h));
        return Fail(NoCommand);
      }
      device := script.request.device;
      Take(Receive(h, device));
      return Next(Finding);
    }

    /** The device and the command must exist. */
    method FindCommand(v: Visit) returns (reply: Reply)
      requires At(Finding) && Proper(script, h)
      requires v == script.visit(Finding)
      modifies this, record, locker
      ensures reply.Next? ==> v.mishap != Fails
      ensures Went(Checking, reply) && reply != NoState && old(acts) <= acts
      ensures Succeed(h) in acts <==> Succeed(h) in old(acts)
    {
      if v.mishap == Fails {
        Take(CutShort(h));
        return Fail(NotFound);
      }
      Take(Find(h));
      return Next(Checking);
    }

    /** Nobody else may hold the device. */
    method CheckDeviceAccess(v: Visit) returns (reply: Reply)
      requires At(Checking) && Proper(script, h)
      modifies this, record, locker
      ensures reply.Fail? ==> reply.cause.Refused?
      ensures reply.Next? <==> OpenTo(old(world).holds, script.request.device, user, old(world).now + v.wait1)
      ensures Went(Acquiring, reply) && reply != NoState && old(acts) <= acts
      ensures Succeed(h) in acts <==> Succeed(h) in old(acts)
    {
      var t := world.now + v.wait1;
      OpenExactly(world.holds, CheckAccess(device, user, t));
      var access := locker.CheckAccess(device, user, t);
      Take(Check(h, t));
      return if access == Done then Next(Acquiring) else Fail(Refused(access.error));
    }

    /** The device becomes busy, and the record says so. */
    method AcquireAutoLock(v: Visit) returns (reply: Reply)
      requires At(Acquiring) && Proper(script, h)
      modifies this, record, locker
      ensures reply.Fail? ==> reply.cause.Refused?
      ensures reply.Next? <==> OpenTo(old(world).holds, script.request.device, user, old(world).now + v.wait1)
      ensures Went(Executing, reply) && reply != NoState && old(acts) <= acts
      ensures Succeed(h) in acts <==> Succeed(h) in old(acts)
    {
      var t1 := world.now + v.wait1;
      var t2 := t1 + v.wait2;
      OpenExactly(world.holds, AutoLock(device, user, t1, t2));
      var hold := locker.AutoLock(device, user, t1, t2);
      Take(Acquire(h, t1, t2));
      if !hold.Granted? {
        return Fail(Refused(hold.error));
      }
      record.device, record.held := device, true;
      return Next(Executing);
    }

    /** The modules are started, unless their arguments do not resolve. */
    method ExecuteModules() returns (reply: Reply)
      requires At(Executing) && Proper(script, h)
      modifies this, record, locker
      ensures reply.Fail? ==> reply.cause.BadArguments?
      ensures reply.Next? <==>
        (Templating.HasPassthrough(script.request.command)
         || |script.request.args| == |script.request.command.argNames|)
      ensures Went(Waiting, reply) && reply != NoState && old(acts) <= acts
      ensures Succeed(h) in acts <==> Succeed(h) in old(acts)
    {
      var lists := Templating.ModuleArgs(script.request.command, script.request.args);
      if lists.Failed? {
        Take(CutShort(h));
        return Fail(BadArguments(lists.error));
      }
      plan := lists.value;
      Take(Execute(h));
      return Next(Waiting);
    }

    /** The modules and the broker are waited for. */
    method WaitModules() returns (reply: Reply)
      requires At(Waiting) && Proper(script, h)
      modifies this, record, locker
      ensures reply.Fail? ==> reply.cause.Unsuccessful?
      ensures reply == NoState <==> Ran(script, plan).waiter == Outcome.Answered(Outcome.Success)
      ensures Went(Unwinding, reply) && !reply.Next? && old(acts) <= acts
      ensures Succeed(h) in acts <==> Succeed(h) in old(acts) || reply == NoState
    {
      var run := Outcome.After(Outcome.Begin(plan), script.course(plan));
      Outcome.AnswerIsTrue(plan, script.course(plan));
      if run.waiter.result != Outcome.Success {
        Take(CutShort(h));
        return Fail(Unsuccessful(run.waiter.result));
      }
      Take(Succeed(h));
      return NoState;
    }

    /** One state function; a panic unwinds past it. */
    method CallState(p: Phase) returns (reply: Reply)
      requires At(p) && Running(p) && Proper(script, h)
      modifies this, record, locker
      ensures old(acts) <= acts
      ensures if reply == Panic then Out() else Went(Following(p), reply)
      ensures reply.Next? ==> p != Waiting
      ensures reply == NoState ==> p == Waiting
      ensures reply == Panic <==> script.visit(p).mishap == Panics
      ensures reply.Next? || reply == NoState ==> !Fatal(script.visit(p), p)
      ensures Succeed(h) in acts <==> Succeed(h) in old(acts) || reply == NoState
    {
      var v := script.visit(p);
      if v.mishap == Panics {
        Take(CutShort(h));
        return Panic;
      }
      match p {
        case Receiving => reply := ReceiveCommand(v);
        case Finding => reply := FindCommand(v);
        case Checking => reply := CheckDeviceAccess(v);
        case Acquiring => reply := AcquireAutoLock(v);
        case Executing => reply := ExecuteModules();
        case Waiting => reply := WaitModules();
      }
    }

    /** The account of what this handler just did. */
    method Take(a: Action)
      requires Leads(acts, world) && Enabled(world, a)
      modifies this`world, this`acts
      ensures world == Step(old(world), a) && acts == old(acts) + [a] && Leads(acts, world)
    {
      ghost var more, s := Then(acts, world, a);
      world := Step(world, a);
      acts := more;
    }

    /** One round of the driver: the context first, then the state function. */
    method NextState(p: Phase) returns (reply: Reply)
      requires At(p) && Running(p) && Proper(script, h) && Succeed(h) !in acts
      modifies this, record, locker
      ensures old(acts) <= acts
      ensures if reply.Next? then reply.state == Following(p) && Running(reply.state) && At(reply.state) else Out()
      ensures Succeed(h) in acts <==> reply == NoState
      ensures reply == NoState ==> p == Waiting && RanCleanly(script, plan)
      ensures reply == ContextDone <==> script.visit(p).ctxDone
      ensures reply == Panic <==> !script.visit(p).ctxDone && script.visit(p).mishap == Panics
      ensures reply.Next? || reply == NoState ==> !Fatal(script.visit(p), p)
      ensures reply.Fail? ==> Justified(script, user, plan, reply.cause)
    {
      LetOthers(script.visit(p), p);
      if script.visit(p).ctxDone {
        Take(CutShort(h));
        return ContextDone;
      }
      reply := CallState(p);
    }

    /** The driver: one state after another until an error, a done context, a panic, or no next state. */
    method DriveStates() returns (ending: Ending)
      requires At(Receiving) && Proper(script, h) && Succeed(h) !in acts
      modifies this, record, locker
      ensures Out() && old(acts) <= acts
      ensures ending == Success <==> Succeed(h) in acts
      ensures Explained(script, user, plan, ending)
    {
      var current := Receiving;
      while true
        invariant At(current) && Running(current) && old(acts) <= acts
        invariant Succeed(h) !in acts
        invariant Passed(script.visit, current)
        decreases Left(current)
      {
        var reply := NextState(current);
        if !reply.Next? {
          ExplainEnding(script, user, plan, current, reply);
          return EndingOf(reply);
        }
        PassOn(script.visit, current);
        current := reply.state;
      }
    }

    /** The Run RPC: the driver, and the release deferred around it. */
    method Serve() returns (ending: Ending)
      requires At(Receiving) && Proper(script, h) && Succeed(h) !in acts
      modifies this, record, locker
      ensures Leads(acts, world) && old(acts) <= acts && locker.View() == world.holds
      ensures InPhase(world, h, Finished) && Release(h) in acts
      ensures record.held ==> !HeldBy(world.holds, record.device, user, Busy, world.now)
      ensures ending == Success <==> Succeed(h) in acts
      ensures Explained(script, user, plan, ending)
    {
      ending := DriveStates();
      LetOthersLast(script.visit(Unwinding));
      ReleaseDeferred();
    }

    /** The release, if the record says that the device was acquired. */
    method ReleaseDeferred()
      requires Out()
      modifies this`world, this`acts, locker
      ensures Leads(acts, world) && acts == old(acts) + [Release(h)] && locker.View() == world.holds
      ensures InPhase(world, h, Finished)
      ensures record.held ==> !HeldBy(world.holds, record.device, user, Busy, world.now)
    {
      NoBusyLeaks(acts);
      TeardownReleases(world, h);
      if record.held {
        var cleared := locker.ClearAutoLock(record.device, user);
      }
      Take(Release(h));
    }
  }
}

/**
 What the result of a run says (cmds/dutagent/states.go, executeModules and
 waitModules): the module goroutine, the broker's workers and the waiting state
 interleaved, with the context cancelled at any moment or never.
 */
module Outcome {
  import opened Base
  import opened ErrChannel
  import Templating

  /** What the modules did: module i was started with these arguments, module i returned nil or an error. */
  datatype Entry = Started(i: nat, args: seq<string>) | Ended(i: nat, ok: bool)

  /** The module goroutine: before module i, inside module i, or gone (finished, failed, aborted). */
  datatype Goroutine = Before(i: nat) | Inside(i: nat) | Completed | Failed | Aborted

  datatype RunResult = Success | Canceled | ModuleFailed | BrokerFailed(err: Err)

  datatype Waiter = Waiting(brokerDone: bool, moduleDone: bool) | Answered(result: RunResult)

  /** plan is what ModuleArgs gave for each module; moduleErrs and moduleClosed are the module channel. */
  datatype Run = Run(plan: seq<seq<string>>, go: Goroutine, log: seq<Entry>, moduleErrs: nat, moduleClosed: bool,
                     broker: Broker, ctxDone: bool, waiter: Waiter)

  datatype Action =
    | CancelContext
    | NextModule            // the loop head: stop if the context is done, else start the module
    | ModuleReturns(ok: bool)
    | AllFinished           // past the last module: close the module channel
    | BrokerMoves(e: Event)
    | SeeContext            // the waiting select, one case each
    | SeeBroker
    | SeeModule
    | Conclude

  function Begin(plan: seq<seq<string>>): (r: Run)
  {
    Run(plan, Before(0), [], 0, false, FRESH, false, Waiting(false, false))
  }

  predicate Enabled(r: Run, a: Action)
  {
    match a
    case CancelContext => !r.ctxDone
    case NextModule => r.go.Before? && r.go.i < |r.plan|
    case ModuleReturns(_) => r.go.Inside? && r.moduleErrs == 0
    case AllFinished => r.go.Before? && r.go.i == |r.plan|
    case BrokerMoves(e) => !e.Take? && ErrChannel.Enabled(r.broker, e)
    case SeeContext => r.waiter.Waiting? && r.ctxDone
    case SeeBroker => r.waiter.Waiting? && (r.broker.queue != [] || r.broker.closed)
    case SeeModule => r.waiter.Waiting? && (r.moduleErrs > 0 || r.moduleClosed)
    case Conclude => r.waiter == Waiting(true, true)
  }

  function Step(r: Run, a: Action): (r': Run)
    requires Enabled(r, a)
  {
    match a
    case CancelContext => r.(ctxDone := true)
    case NextModule =>
      if r.ctxDone then r.(go := Aborted)
      else r.(go := Inside(r.go.i), log := r.log + [Started(r.go.i, r.plan[r.go.i])])
    case ModuleReturns(ok) =>
      var log := r.log + [Ended(r.go.i, ok)];
      if ok then r.(go := Before(r.go.i + 1), log := log)
      else r.(go := Failed, log := log, moduleErrs := 1)
    case AllFinished => r.(go := Completed, moduleClosed := true)
    case BrokerMoves(e) => r.(broker := ErrChannel.Step(r.broker, e))
    case SeeContext => r.(waiter := Answered(Canceled))
    case SeeBroker =>
      if r.broker.queue != [] then
        r.(broker := ErrChannel.Step(r.broker, Take), waiter := Answered(BrokerFailed(r.broker.queue[0])))
      else r.(waiter := r.waiter.(brokerDone := true))
    case SeeModule =>
      if r.moduleErrs > 0 then r.(moduleErrs := 0, waiter := Answered(ModuleFailed))
      else r.(waiter := r.waiter.(moduleDone := true))
    case Conclude => r.(waiter := Answered(Success))
  }

  predicate Path(r: Run, acts: seq<Action>)
    decreases |acts|, 0
  {
    acts == [] || (Path(r, acts[..|acts| - 1]) && Enabled(After(r, acts[..|acts| - 1]), acts[|acts| - 1]))
  }

  function After(r: Run, acts: seq<Action>): (r': Run)
    requires Path(r, acts)
    decreases |acts|, 1
  {
    if acts == [] then r else Step(After(r, acts[..|acts| - 1]), acts[|acts| - 1])
  }

  /** The first n modules, each started once with its own arguments and then returning nil, in order. */
  function CleanLog(plan: seq<seq<string>>, n: nat): (log: seq<Entry>)
    requires n <= |plan|
  {
    if n == 0 then [] else CleanLog(plan, n - 1) + [Started(n - 1, plan[n - 1]), Ended(n - 1, true)]
  }

  /** The log is what the goroutine's position says. */
  ghost predicate Logged(r: Run)
  {
    match r.go
    case Before(i) => i <= |r.plan| && r.log == CleanLog(r.plan, i)
    case Inside(i) => i < |r.plan| && r.log == CleanLog(r.plan, i) + [Started(i, r.plan[i])]
    case Completed => r.log == CleanLog(r.plan, |r.plan|)
    case Failed => exists i :: FailedAt(r.plan, i, r.log)
    case Aborted => r.ctxDone && exists i :: StoppedAt(r.plan, i, r.log)
  }

  /** The modules before i went well, and module i was started and returned an error. */
  predicate FailedAt(plan: seq<seq<string>>, i: nat, log: seq<Entry>)
  {
    i < |plan| && log == CleanLog(plan, i) + [Started(i, plan[i]), Ended(i, false)]
  }

  /** The modules before i went well, and none was started after them. */
  predicate StoppedAt(plan: seq<seq<string>>, i: nat, log: seq<Entry>)
  {
    i < |plan| && log == CleanLog(plan, i)
  }

  /** Both workers are gone, neither with an error. */
  predicate Quiet(b: Broker) { b.toClient.stage == Left(None) && b.fromClient.stage == Left(None) }

  /** What each thing the waiter has seen, or answered, stands for. */
  ghost predicate Accounted(r: Run)
  {
    match r.waiter
    case Waiting(brokerDone, moduleDone) =>
      && (brokerDone ==> r.broker.closed && r.broker.received == [] && r.broker.queue == [])
      && (moduleDone ==> r.go == Completed)
    case Answered(Success) => r.go == Completed && Quiet(r.broker)
    case Answered(Canceled) => r.ctxDone
    case Answered(ModuleFailed) => r.go == Failed
    case Answered(BrokerFailed(e)) => e in r.broker.history
  }

  ghost predicate Invariant(r: Run)
  {
    && Valid(r.broker)
    && Logged(r)
    && Accounted(r)
    && (r.waiter.Waiting? ==> r.broker.received == [])
    && (r.moduleErrs > 0 ==> r.go == Failed)
    && (r.waiter.Waiting? && r.go == Failed ==> r.moduleErrs > 0)
    && (r.moduleClosed <==> r.go == Completed)
  }

  lemma GoroutineInvariant(r: Run, a: Action)
    requires Invariant(r) && Enabled(r, a) && (a.CancelContext? || a.NextModule? || a.ModuleReturns? || a.AllFinished?)
    ensures Invariant(Step(r, a))
  {
    if a.ModuleReturns? {
      var i := r.go.i;
      if a.ok {
        Regroup(CleanLog(r.plan, i), [Started(i, r.plan[i])], [Ended(i, true)]);
        assert [Started(i, r.plan[i])] + [Ended(i, true)] == [Started(i, r.plan[i]), Ended(i, true)];
        assert CleanLog(r.plan, i + 1) == CleanLog(r.plan, i) + [Started(i, r.plan[i]), Ended(i, true)];
      } else {
        Regroup(CleanLog(r.plan, i), [Started(i, r.plan[i])], [Ended(i, false)]);
        assert [Started(i, r.plan[i])] + [Ended(i, false)] == [Started(i, r.plan[i]), Ended(i, false)];
        assert FailedAt(r.plan, i, Step(r, a).log);
      }
    } else if a.NextModule? && r.ctxDone {
      assert StoppedAt(r.plan, r.go.i, r.log);
    }
  }

  lemma BrokerInvariant(r: Run, e: Event)
    requires Invariant(r) && Enabled(r, BrokerMoves(e))
    ensures Invariant(Step(r, BrokerMoves(e)))
  {
    StepValid(r.broker, e);
  }

  lemma WaiterInvariant(r: Run, a: Action)
    requires Invariant(r) && Enabled(r, a) && (a.SeeContext? || a.SeeBroker? || a.SeeModule? || a.Conclude?)
    ensures Invariant(Step(r, a))
  {
    DrainedClean(r.broker);
    if a.SeeBroker? && r.broker.queue != [] {
      StepValid(r.broker, Take);
      assert r.broker.history[|r.broker.received|] == r.broker.queue[0];
    }
  }

  lemma StepInvariant(r: Run, a: Action)
    requires Invariant(r) && Enabled(r, a)
    ensures Invariant(Step(r, a)) && Step(r, a).plan == r.plan
  {
    match a
    case BrokerMoves(e) => BrokerInvariant(r, e);
    case SeeContext => WaiterInvariant(r, a);
    case SeeBroker => WaiterInvariant(r, a);
    case SeeModule => WaiterInvariant(r, a);
    case Conclude => WaiterInvariant(r, a);
    case CancelContext => GoroutineInvariant(r, a);
    case NextModule => GoroutineInvariant(r, a);
    case ModuleReturns(_) => GoroutineInvariant(r, a);
    case AllFinished => GoroutineInvariant(r, a);
  }

  lemma {:induction false} AlwaysInvariant(plan: seq<seq<string>>, acts: seq<Action>)
    requires Path(Begin(plan), acts)
    ensures Invariant(After(Begin(plan), acts)) && After(Begin(plan), acts).plan == plan
  {
    if acts != [] {
      var front := acts[..|acts| - 1];
      AlwaysInvariant(plan, front);
      StepInvariant(After(Begin(plan), front), acts[|acts| - 1]);
    }
  }

  /**
   In every interleaving: the run is answered with success only if every module
   of the command ran once, in order, with its own arguments, and returned nil,
   and both broker workers ended without an error; and every failure answered
   has happened.
   */
  lemma AnswerIsTrue(plan: seq<seq<string>>, acts: seq<Action>)
    requires Path(Begin(plan), acts) && After(Begin(plan), acts).waiter.Answered?
    ensures var r := After(Begin(plan), acts);
      match r.waiter.result
      case Success => r.log == CleanLog(plan, |plan|) && Quiet(r.broker)
      case Canceled => r.ctxDone
      case ModuleFailed => exists i :: FailedAt(plan, i, r.log)
      case BrokerFailed(e) => e in r.broker.toClient.sent || e in r.broker.fromClient.sent
  {
    AlwaysInvariant(plan, acts);
    var r := After(Begin(plan), acts);
    if r.waiter.result.BrokerFailed? {
      var i :| 0 <= i < |r.broker.history| && r.broker.history[i] == r.waiter.result.err;
    }
  }

  /** What stands at each place of a clean log. */
  lemma {:induction false} CleanLogAt(plan: seq<seq<string>>, n: nat, i: nat)
    requires i < n <= |plan|
    ensures |CleanLog(plan, n)| == 2 * n
    ensures CleanLog(plan, n)[2 * i] == Started(i, plan[i]) && CleanLog(plan, n)[2 * i + 1] == Ended(i, true)
  {
    if n > 1 { CleanLogAt(plan, n - 1, if i < n - 1 then i else 0); }
  }

  /**
   So for a command with its runtime arguments, whose argument lists are those
   ModuleArgs promises: a run answered with success did exactly two things per
   module, and module i was started with the arguments of module i of the command.
   */
  lemma SuccessRanTheCommand(c: Templating.Command, runtime: seq<string>, plan: seq<seq<string>>,
                             acts: seq<Action>, i: nat)
    requires Templating.ArgumentLists(c, runtime, plan) && i < |c.modules|
    requires Path(Begin(plan), acts) && After(Begin(plan), acts).waiter == Answered(Success)
    ensures var log := After(Begin(plan), acts).log;
      && |log| == 2 * |c.modules|
      && log[2 * i].Started? && log[2 * i].i == i && log[2 * i + 1] == Ended(i, true)
      && Templating.ArgumentList(c, c.modules[i], runtime, log[2 * i].args)
  {
    AnswerIsTrue(plan, acts);
    CleanLogAt(plan, |plan|, i);
  }

  // -------------------------------------------------------- and what happens is answered

  /**
   In every interleaving, while the run is waited for: a module's error is still
   there and is the answer as soon as the wait takes it; so is the first error of
   a worker; and so is a cancellation.
   */
  lemma WhatHappensIsAnswered(plan: seq<seq<string>>, acts: seq<Action>)
    requires Path(Begin(plan), acts) && After(Begin(plan), acts).waiter.Waiting?
    ensures var r := After(Begin(plan), acts);
      && (r.go == Failed ==> Enabled(r, SeeModule) && Step(r, SeeModule).waiter == Answered(ModuleFailed))
      && (r.broker.history != [] ==>
            Enabled(r, SeeBroker) && Step(r, SeeBroker).waiter == Answered(BrokerFailed(r.broker.history[0])))
      && (r.ctxDone ==> Enabled(r, SeeContext) && Step(r, SeeContext).waiter == Answered(Canceled))
  {
    AlwaysInvariant(plan, acts);
    var r := After(Begin(plan), acts);
    assert r.broker.history == [] + r.broker.queue;
  }

  /** Nothing but a cancellation can change anything any more; a closed channel read again changes nothing. */
  ghost predicate AtRest(r: Run)
  {
    forall a :: Enabled(r, a) && a != CancelContext ==> Step(r, a) == r
  }

  /** A next event of a worker that is not gone. */
  function WorkerMove(b: Broker, w: Worker): (e: Event)
  {
    match SideOf(b, w).stage
    case Working => Return(w, None)
    case Returned(_) => Post(w)
    case Posted(_) => ErrChannel.Cancel(w)
    case _ => Leave(w)
  }

  /** While the run is waited for, something can still happen. */
  lemma WaitingMoves(r: Run) returns (a: Action)
    requires Invariant(r) && r.waiter.Waiting?
    ensures a != CancelContext && Enabled(r, a) && Step(r, a) != r
  {
    match r.go
    case Before(i) => a := if i < |r.plan| then NextModule else AllFinished;
    case Inside(_) => a := ModuleReturns(true);
    case Failed => a := SeeModule;
    case Aborted => a := SeeContext;
    case Completed =>
      if !r.waiter.moduleDone { a := SeeModule; }
      else if !r.broker.toClient.stage.Left? { a := WorkerMoves(r, ToClient); }
      else if !r.broker.fromClient.stage.Left? { a := WorkerMoves(r, FromClient); }
      else if !r.broker.closed { a := BrokerMoves(Close); }
      else if r.broker.queue != [] || !r.waiter.brokerDone { a := SeeBroker; }
      else { a := Conclude; }
  }

  lemma WorkerMoves(r: Run, w: Worker) returns (a: Action)
    requires Invariant(r) && !SideOf(r.broker, w).stage.Left?
    ensures a != CancelContext && Enabled(r, a) && Step(r, a) != r
  {
    a := BrokerMoves(WorkerMove(r.broker, w));
    if SideOf(r.broker, w).stage.Returned? { PostNeverBlocks(r.broker, w); }
    assert SideOf(Step(r, a).broker, w).stage != SideOf(r.broker, w).stage;
  }

  /**
   In every interleaving that has come to rest, the run is answered; and if all
   modules returned nil, both workers ended without an error and the context was
   not cancelled, the answer is success.
   */
  lemma RestIsAnswered(plan: seq<seq<string>>, acts: seq<Action>)
    requires Path(Begin(plan), acts) && AtRest(After(Begin(plan), acts))
    ensures var r := After(Begin(plan), acts);
      && r.waiter.Answered?
      && (r.log == CleanLog(plan, |plan|) && Quiet(r.broker) && !r.ctxDone ==> r.waiter == Answered(Success))
  {
    AlwaysInvariant(plan, acts);
    var r := After(Begin(plan), acts);
    if r.waiter.Waiting? {
      var a := WaitingMoves(r);
    } else if r.log == CleanLog(plan, |plan|) {
      AnswerIsTrue(plan, acts);
      CleanNotFailed(plan, r.log);
    }
  }

  lemma CleanNotFailed(plan: seq<seq<string>>, log: seq<Entry>)
    requires log == CleanLog(plan, |plan|)
    ensures !exists i :: FailedAt(plan, i, log)
  {
    forall i | 0 <= i < |plan| ensures !FailedAt(plan, i, log) {
      CleanLogAt(plan, |plan|, i);
      if i > 0 { CleanLogAt(plan, i, 0); }
      assert |CleanLog(plan, i)| == 2 * i;
      assert log[2 * i + 1] == Ended(i, true);
    }
  }

  // ------------------------------------------------------------ and that comes about

  function GoRank(go: Goroutine, n: nat): (r: nat)
  {
    match go
    case Before(i) => if i <= n then 2 * (n - i) + 1 else 0
    case Inside(i) => if i <= n then 2 * (n - i) else 0
    case _ => 0
  }

  function StageRank(s: Stage): (r: nat)
  {
    match s
    case Working => 4
    case Returned(_) => 3
    case Posted(_) => 2
    case Cancelling(_) => 1
    case Left(_) => 0
  }

  function WaiterRank(w: Waiter): (r: nat)
  {
    match w
    case Waiting(b, m) => 1 + (if b then 0 else 1) + (if m then 0 else 1)
    case Answered(_) => 0
  }

  /** What is left to happen: modules, workers, the close, and the wait. */
  function Remaining(r: Run): (n: nat)
  {
    GoRank(r.go, |r.plan|) + StageRank(r.broker.toClient.stage) + StageRank(r.broker.fromClient.stage)
    + (if r.broker.closed then 0 else 1) + WaiterRank(r.waiter)
  }

  lemma StepRemains(r: Run, a: Action)
    requires Invariant(r) && Enabled(r, a)
    ensures Remaining(Step(r, a)) <= Remaining(r)
    ensures a != CancelContext && Step(r, a) != r ==> Remaining(Step(r, a)) < Remaining(r)
  {
    if a.BrokerMoves? {
      BrokerRemains(r.broker, a.e);
      assert Step(r, a) == r.(broker := ErrChannel.Step(r.broker, a.e));
    } else if a.NextModule? || a.ModuleReturns? || a.AllFinished? {
      GoRemains(r, a);
    } else if a != CancelContext {
      WaiterRemains(r, a);
    }
  }

  lemma GoRemains(r: Run, a: Action)
    requires Invariant(r) && Enabled(r, a) && (a.NextModule? || a.ModuleReturns? || a.AllFinished?)
    ensures Remaining(Step(r, a)) < Remaining(r)
  {
    var r' := Step(r, a);
    assert r'.plan == r.plan && r'.broker == r.broker && r'.waiter == r.waiter;
  }

  lemma WaiterRemains(r: Run, a: Action)
    requires Invariant(r) && Enabled(r, a) && (a.SeeContext? || a.SeeBroker? || a.SeeModule? || a.Conclude?)
    ensures Remaining(Step(r, a)) <= Remaining(r)
    ensures Step(r, a) != r ==> Remaining(Step(r, a)) < Remaining(r)
  {
    var r' := Step(r, a);
    assert r'.plan == r.plan && r'.go == r.go && r'.broker.closed == r.broker.closed;
    assert r'.broker.toClient == r.broker.toClient && r'.broker.fromClient == r.broker.fromClient;
  }

  lemma BrokerRemains(b: Broker, e: Event)
    requires ErrChannel.Enabled(b, e) && !e.Take?
    ensures var b' := ErrChannel.Step(b, e);
      StageRank(b'.toClient.stage) + StageRank(b'.fromClient.stage) + (if b'.closed then 0 else 1)
      < StageRank(b.toClient.stage) + StageRank(b.fromClient.stage) + (if b.closed then 0 else 1)
  {
  }

  /** The steps that change anything, cancellations aside. */
  function Changes(r: Run, acts: seq<Action>): (n: nat)
    requires Path(r, acts)
    decreases |acts|
  {
    if acts == [] then 0
    else
      var (front, a) := (acts[..|acts| - 1], acts[|acts| - 1]);
      Changes(r, front) + (if a != CancelContext && Step(After(r, front), a) != After(r, front) then 1 else 0)
  }

  /** A run takes no more of them than two for each module and thirteen, so it comes to rest. */
  lemma {:induction false} ChangesBounded(plan: seq<seq<string>>, acts: seq<Action>)
    requires Path(Begin(plan), acts)
    ensures Changes(Begin(plan), acts) + Remaining(After(Begin(plan), acts)) <= 2 * |plan| + 13
  {
    if acts != [] {
      var front, a := acts[..|acts| - 1], acts[|acts| - 1];
      ChangesBounded(plan, front);
      AlwaysInvariant(plan, front);
      StepRemains(After(Begin(plan), front), a);
    }
  }

  // ------------------------------------------------------------ after a cancellation

  function Starts(log: seq<Entry>): (n: nat)
  {
    if log == [] then 0 else Starts(log[..|log| - 1]) + (if log[|log| - 1].Started? then 1 else 0)
  }

  lemma StepStarts(r: Run, a: Action)
    requires Enabled(r, a) && r.ctxDone
    ensures Step(r, a).ctxDone && Starts(Step(r, a).log) == Starts(r.log)
  {
    if a.ModuleReturns? { assert (r.log + [Ended(r.go.i, a.ok)])[..|r.log|] == r.log; }
  }

  /** Once the context is cancelled no module is started any more. */
  lemma {:induction false} NothingStartsAfterCancel(r: Run, more: seq<Action>)
    requires r.ctxDone && Path(r, more)
    ensures After(r, more).ctxDone && Starts(After(r, more).log) == Starts(r.log)
  {
    if more != [] {
      NothingStartsAfterCancel(r, more[..|more| - 1]);
      StepStarts(After(r, more[..|more| - 1]), more[|more| - 1]);
    }
  }
}

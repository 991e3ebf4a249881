/** Once the workers' context is cancelled, every goroutine of a session comes to its end. */
module SessionTeardown {
  import opened Base
  import Err = ErrChannel
  import opened Session

  // ------------------------------------------------------ a measure of what is left

  function ModuleRank(pc: ModulePc): (r: nat)
  {
    match pc
    case Idle => 0
    case Offering(c) => if c.RequestFile? then 9 else 5
    case AwaitingFile(_, _) => 1
    case ReadingStdin => 1
    case SendChecked(_, _) => 7
    case OfferingFile(_, _) => 6
  }

  function ToRank(pc: ToPc): (r: nat)
  {
    match pc
    case ToSelect => 4
    case Naming(_) => 7
    case Sending(_) => 6
    case GotFile(_) => 7
    case ToClearing => 5
    case ToEnded(_) => 0
  }

  function FromRank(pc: FromPc): (r: nat)
  {
    match pc
    case FromSelect => 4
    case GivingStdin(_) => 6
    case Judging(_) => 11
    case GivingFile(_) => 10
    case FromClearing => 5
    case FromEnded => 0
  }

  function LoopRank(pc: LoopPc): (r: nat)
  {
    match pc
    case Receiving => 3
    case Passing(res) => if res.Message? then 12 else 2
    case LoopEnded => 0
  }

  function StageRank(s: Err.Stage): (r: nat)
  {
    match s
    case Working => 0
    case Returned(_) => 3
    case Posted(_) => 2
    case Cancelling(_) => 1
    case Left(_) => 0
  }

  const CALL_WEIGHT := 10
  const MESSAGE_WEIGHT := 10

  function BrokerRank(b: Err.Broker): (r: nat)
  {
    StageRank(b.toClient.stage) + StageRank(b.fromClient.stage) + (if b.closed then 0 else 1)
  }

  /** Calls the module has yet to make, messages yet to be received, and where everybody stands. */
  function Measure(s: State): (r: nat)
  {
    ModuleRank(s.mod.pc) + CALL_WEIGHT * |s.mod.todo| + ToRank(s.to) + FromRank(s.from)
    + LoopRank(s.loop) + MESSAGE_WEIGHT * |s.inbox| + BrokerRank(s.broker)
  }

  /** A step of one of the session's own goroutines. */
  predicate Own(a: Step) { !FromOutside(a) && !(a.Report? && a.e.Take?) }

  lemma ModuleShrinks(s: State, a: Step)
    requires Enabled(s, a) && ByModule(a) && !a.StartCall?
    ensures Measure(Do(s, a)) < Measure(s)
  {
  }

  lemma ToShrinks(s: State, a: Step)
    requires Sound(s) && Enabled(s, a) && ByTo(a)
    ensures Measure(Do(s, a)) < Measure(s)
  {
  }

  /** Ending adds the three steps of the report and takes away those of the worker function. */
  lemma EndFromRank(s: State, err: Option<Err.Err>)
    requires s.broker.fromClient.stage.Working?
    ensures Measure(EndFrom(s, err)) + FromRank(s.from) == Measure(s) + 3
  {
  }

  lemma PassShrinks(s: State)
    requires Sound(s) && Enabled(s, PassResult)
    ensures Measure(DoPassResult(s)) < Measure(s)
  {
    var s1 := s.(loop := LoopAfter(s.loop.res));
    assert Measure(s1) + LoopRank(s.loop) == Measure(s) + LoopRank(s1.loop);
    EndFromRank(s1, None);
    EndFromRank(s1, Some(Err.StreamFailed));
    EndFromRank(s1, Some(Err.BadFileTransfer));
  }

  lemma JudgeShrinks(s: State)
    requires Sound(s) && Enabled(s, JudgeUpload)
    ensures Measure(DoJudge(s)) < Measure(s)
  {
    EndFromRank(s, Some(Err.BadFileTransfer));
  }

  lemma DrainShrinks(s: State, err: Option<Err.Err>)
    requires Sound(s) && Enabled(s, DrainResult)
    ensures Measure(EndFrom(s.(loop := LoopAfter(s.loop.res)), err)) < Measure(s)
  {
    EndFromRank(s.(loop := LoopAfter(s.loop.res)), err);
  }

  lemma GivenShrinks(s: State, a: Step)
    requires Enabled(s, a) && (a.StealFile? || a.ClearGiven?)
    ensures Measure(Do(s, a)) < Measure(s)
  {
  }

  lemma FromShrinks(s: State, a: Step)
    requires Sound(s) && Enabled(s, a) && ByFrom(a)
    ensures Measure(Do(s, a)) < Measure(s)
  {
    match a
    case PassResult => PassShrinks(s);
    case JudgeUpload => JudgeShrinks(s);
    case FromSeesDone => EndFromRank(s, None);
    case DrainResult => DrainShrinks(s, if s.loop.res.Failure? then Some(Err.StreamFailed) else None);
    case _ => GivenShrinks(s, a);
  }

  lemma ReportShrinks(s: State, e: Err.Event)
    requires Enabled(s, Report(e)) && !e.Take?
    ensures Measure(Do(s, Report(e))) < Measure(s)
  {
  }

  /** Every step of a session goroutine, before or after cancellation, uses up some of what is left. */
  lemma OwnStepShrinks(s: State, a: Step)
    requires Sound(s) && Enabled(s, a) && Own(a)
    ensures Measure(Do(s, a)) < Measure(s)
  {
    if a.StartCall? { StartShape(s); }
    else if ByModule(a) { ModuleShrinks(s, a); }
    else if ByTo(a) { ToShrinks(s, a); }
    else if ByFrom(a) { FromShrinks(s, a); }
    else if a.Report? { ReportShrinks(s, a.e); }
  }

  function CountOwn(steps: seq<Step>): (n: nat)
  {
    if steps == [] then 0 else CountOwn(steps[..|steps| - 1]) + (if Own(steps[|steps| - 1]) then 1 else 0)
  }

  function CountSends(steps: seq<Step>): (n: nat)
  {
    if steps == [] then 0 else CountSends(steps[..|steps| - 1]) + (if steps[|steps| - 1].ClientSends? then 1 else 0)
  }

  function OwnCost(a: Step): (n: nat) { if Own(a) then 1 else 0 }

  function SendCost(a: Step): (n: nat) { if a.ClientSends? then MESSAGE_WEIGHT else 0 }

  /** Reading the error channel is nobody's own step. */
  lemma TakeKeeps(s: State)
    requires Enabled(s, Report(Err.Take))
    ensures Measure(Do(s, Report(Err.Take))) == Measure(s)
  {
  }

  lemma StepCost(s: State, a: Step)
    requires Sound(s) && Enabled(s, a)
    ensures Measure(Do(s, a)) + OwnCost(a) <= Measure(s) + SendCost(a)
  {
    if Own(a) { OwnStepShrinks(s, a); }
    else if a.Report? { TakeKeeps(s); }
  }

  /**
   From any moment on, the goroutines together take no more steps than the measure of that moment,
   and ten for each later client message.
   */
  lemma {:induction false} StepsBounded(s: State, steps: seq<Step>)
    requires Sound(s) && Path(s, steps)
    ensures CountOwn(steps) + Measure(After(s, steps)) <= Measure(s) + MESSAGE_WEIGHT * CountSends(steps)
  {
    if steps != [] {
      var front := steps[..|steps| - 1];
      StepsBounded(s, front);
      SoundAfter(s, front);
      StepCost(After(s, front), steps[|steps| - 1]);
    }
  }

  // --------------------------------------------------------------- nobody is stuck

  predicate ModuleThrough(s: State) { s.mod.pc.Idle? && s.mod.todo == [] }

  /** A next step of the module that needs no partner. */
  function ModuleNext(s: State): (a: Step)
  {
    if s.mod.pc.Idle? then StartCall else if s.mod.pc.SendChecked? then SetSendName else ModuleSeesDone
  }

  function ToNext(s: State): (a: Step)
  {
    match s.to
    case ToSelect => ToSeesDone
    case Naming(_) => SetRequestName
    case Sending(_) => SendSucceeds
    case GotFile(_) => NameFile
    case ToClearing => ClearSent
    case ToEnded(_) => Report(SideNext(s.broker, Err.ToClient))
  }

  function FromNext(s: State): (a: Step)
  {
    match s.from
    case Judging(_) => JudgeUpload
    case FromClearing => ClearGiven
    case FromEnded => Report(SideNext(s.broker, Err.FromClient))
    case _ => FromSeesDone
  }

  function SideNext(b: Err.Broker, w: Err.Worker): (e: Err.Event)
  {
    match Err.SideOf(b, w).stage
    case Returned(_) => Err.Post(w)
    case Posted(_) => Err.Cancel(w)
    case _ => Err.Leave(w)
  }

  function LoopNext(s: State): (a: Step) { if s.loop.Receiving? then ReceiveEnds(true) else LoopSeesDone }

  /**
   After cancellation, wherever the goroutines stand: each that has not finished
   has a step of its own that waits for no partner, given that the stream's Send
   and Receive return; and the closer has one once both workers are gone.
   */
  lemma NobodyStuck(s: State)
    requires Sound(s) && s.cancelled
    ensures !ModuleThrough(s) ==> Enabled(s, ModuleNext(s)) && Own(ModuleNext(s))
    ensures !s.broker.toClient.stage.Left? ==> Enabled(s, ToNext(s)) && Own(ToNext(s))
    ensures !s.broker.fromClient.stage.Left? ==> Enabled(s, FromNext(s)) && Own(FromNext(s))
    ensures !s.loop.LoopEnded? ==> Enabled(s, LoopNext(s)) && Own(LoopNext(s))
    ensures s.broker.toClient.stage.Left? && s.broker.fromClient.stage.Left? && !s.broker.closed ==>
      Enabled(s, Report(Err.Close))
  {
    if s.broker.toClient.stage.Returned? { Err.PostNeverBlocks(s.broker, Err.ToClient); }
    if s.broker.fromClient.stage.Returned? { Err.PostNeverBlocks(s.broker, Err.FromClient); }
  }

  predicate AllEnded(s: State)
  {
    && ModuleThrough(s) && s.loop.LoopEnded?
    && s.broker.toClient.stage.Left? && s.broker.fromClient.stage.Left? && s.broker.closed
  }

  /** So a cancelled session that can go no further has ended altogether, its error channel closed. */
  lemma QuietMeansEnded(calls: seq<Call>, steps: seq<Step>)
    requires Path(Begin(calls), steps)
    requires var s := After(Begin(calls), steps); s.cancelled && forall a :: Own(a) ==> !Enabled(s, a)
    ensures AllEnded(After(Begin(calls), steps))
  {
    SoundAfter(Begin(calls), steps);
    NobodyStuck(After(Begin(calls), steps));
    assert Own(Report(Err.Close));
  }
}

/** With which result each worker of a session ends, told from the steps that were taken. */
module SessionEnds {
  import opened Base
  import Err = ErrChannel
  import opened Session
  import SessionTeardown

  // --------------------------------------------------------------- what can happen

  /** A send to the client failed, or toClientWorker saw the context done. */
  predicate SendFault(a: Step) { a.SendFails? }

  predicate ToDone(a: Step) { a.ToSeesDone? }

  /** A failed receive came to fromClientWorker. */
  predicate StreamFault(s: State, a: Step)
  {
    (a.PassResult? || a.DrainResult?) && s.loop.Passing? && s.loop.res == Failure
  }

  /** A file message without a file came, or a file that was not requested, has no content or another name. */
  predicate TransferFault(s: State, a: Step)
  {
    || (a.PassResult? && s.loop.Passing? && s.loop.res == Message(EmptyUpload))
    || (a.JudgeUpload? && s.from.Judging? && s.from.upload.Upload?
        && (s.currentFile == "" || s.from.upload.path != s.currentFile || s.from.upload.content == None))
  }

  /** The client closed the stream, or fromClientWorker saw the context done with no failed receive pending. */
  predicate FromDone(s: State, a: Step)
  {
    || a.FromSeesDone?
    || (a.PassResult? && s.loop.Passing? && s.loop.res == EndOfStream)
    || (a.DrainResult? && s.loop.Passing? && s.loop.res != Failure)
  }

  /** A goroutine acts on the context being done. */
  predicate SeesContext(a: Step)
  {
    a.ModuleSeesDone? || a.ToSeesDone? || a.FromSeesDone? || a.DrainResult? || a.LoopSeesDone?
  }

  datatype Happening =
    | SendFailed | ToQuit
    | ReceiveFailed | TransferFailed | FromQuit | ClientCloses
    | ParentCancels | WorkerCancels | ContextSeen

  predicate Happens(h: Happening, s: State, a: Step)
  {
    match h
    case SendFailed => SendFault(a)
    case ToQuit => ToDone(a)
    case ReceiveFailed => StreamFault(s, a)
    case TransferFailed => TransferFault(s, a)
    case FromQuit => FromDone(s, a)
    case ClientCloses => a.PassResult? && s.loop.Passing? && s.loop.res == EndOfStream
    case ContextSeen => SeesContext(a)
    case ParentCancels => a.CancelParent?
    case WorkerCancels => a.Report? && a.e.Cancel?
  }

  predicate Ever(h: Happening, s: State, steps: seq<Step>)
    requires Path(s, steps)
    decreases |steps|
  {
    steps != []
    && (Ever(h, s, steps[..|steps| - 1]) || Happens(h, After(s, steps[..|steps| - 1]), steps[|steps| - 1]))
  }

  // ----------------------------------------------------------- and what comes of it

  predicate EndedWith(side: Err.Side, err: Option<Err.Err>) { !side.stage.Working? && side.stage.err == err }

  /** What the happening has made of the session. */
  predicate Shows(h: Happening, s: State)
  {
    match h
    case SendFailed => EndedWith(s.broker.toClient, Some(Err.StreamFailed))
    case ToQuit => EndedWith(s.broker.toClient, None)
    case ReceiveFailed => EndedWith(s.broker.fromClient, Some(Err.StreamFailed))
    case TransferFailed => EndedWith(s.broker.fromClient, Some(Err.BadFileTransfer))
    case FromQuit => EndedWith(s.broker.fromClient, None)
    case _ => s.cancelled
  }

  predicate OfTo(h: Happening) { h == SendFailed || h == ToQuit }

  predicate OfFrom(h: Happening) { h == ReceiveFailed || h == TransferFailed || h == FromQuit }

  /** The broker's own events keep what the workers ended with. */
  lemma ReportShows(h: Happening, s: State, e: Err.Event)
    requires Enabled(s, Report(e)) && (OfTo(h) || OfFrom(h))
    ensures Shows(h, Do(s, Report(e))) <==> Shows(h, s)
  {
  }

  lemma ToShows(h: Happening, s: State, a: Step)
    requires Sound(s) && Enabled(s, a) && ByTo(a) && (OfTo(h) || OfFrom(h))
    ensures Shows(h, Do(s, a)) <==> Shows(h, s) || Happens(h, s, a)
  {
  }

  lemma PassShows(h: Happening, s: State)
    requires Sound(s) && Enabled(s, PassResult) && (OfTo(h) || OfFrom(h))
    ensures Shows(h, DoPassResult(s)) <==> Shows(h, s) || Happens(h, s, PassResult)
  {
  }

  lemma JudgeShows(h: Happening, s: State)
    requires Sound(s) && Enabled(s, JudgeUpload) && (OfTo(h) || OfFrom(h))
    ensures Shows(h, DoJudge(s)) <==> Shows(h, s) || Happens(h, s, JudgeUpload)
  {
  }

  lemma FromShows(h: Happening, s: State, a: Step)
    requires Sound(s) && Enabled(s, a) && ByFrom(a) && (OfTo(h) || OfFrom(h))
    ensures Shows(h, Do(s, a)) <==> Shows(h, s) || Happens(h, s, a)
  {
    if a.PassResult? { PassShows(h, s); }
    else if a.JudgeUpload? { JudgeShows(h, s); }
    else { EndShows(h, s, a); }
  }

  lemma EndShows(h: Happening, s: State, a: Step)
    requires Sound(s) && Enabled(s, a) && (OfTo(h) || OfFrom(h))
    requires a.StealFile? || a.ClearGiven? || a.FromSeesDone? || a.DrainResult?
    ensures Shows(h, Do(s, a)) <==> Shows(h, s) || Happens(h, s, a)
  {
  }

  lemma RestShows(h: Happening, s: State, a: Step)
    requires Enabled(s, a) && !ByTo(a) && !ByFrom(a) && !a.Report? && (OfTo(h) || OfFrom(h))
    ensures Do(s, a).broker == s.broker
  {
    if a.StartCall? { StartShape(s); }
  }

  lemma StepShows(h: Happening, s: State, a: Step)
    requires Sound(s) && Enabled(s, a) && (OfTo(h) || OfFrom(h))
    ensures Shows(h, Do(s, a)) <==> Shows(h, s) || Happens(h, s, a)
  {
    if ByTo(a) { ToShows(h, s, a); }
    else if ByFrom(a) { FromShows(h, s, a); }
    else if a.Report? { ReportShows(h, s, a.e); }
    else { RestShows(h, s, a); }
  }

  lemma {:induction false} EverShows(h: Happening, calls: seq<Call>, steps: seq<Step>)
    requires Path(Begin(calls), steps) && (OfTo(h) || OfFrom(h))
    ensures Sound(After(Begin(calls), steps))
    ensures Shows(h, After(Begin(calls), steps)) <==> Ever(h, Begin(calls), steps)
  {
    SoundAfter(Begin(calls), steps);
    if steps != [] {
      var front, a := steps[..|steps| - 1], steps[|steps| - 1];
      EverShows(h, calls, front);
      StepShows(h, After(Begin(calls), front), a);
    }
  }

  /**
   In every interleaving: toClientWorker has ended with a stream error exactly if a
   send failed, without one exactly if it saw the context done, and otherwise not.
   */
  lemma ToEndsExactly(calls: seq<Call>, steps: seq<Step>)
    requires Path(Begin(calls), steps)
    ensures var (side, start) := (After(Begin(calls), steps).broker.toClient, Begin(calls));
      && (EndedWith(side, Some(Err.StreamFailed)) <==> Ever(SendFailed, start, steps))
      && (EndedWith(side, None) <==> Ever(ToQuit, start, steps))
      && (side.stage.Working? <==> !Ever(SendFailed, start, steps) && !Ever(ToQuit, start, steps))
  {
    EverShows(SendFailed, calls, steps);
    EverShows(ToQuit, calls, steps);
    AlwaysTransferless(calls, steps);
    Results(After(Begin(calls), steps).broker.toClient);
  }

  /**
   And fromClientWorker: with a stream error exactly if a failed receive came to
   it, with a bad transfer exactly if a bad file did, without an error exactly if
   the client closed the stream or it saw the context done, and otherwise not.
   */
  lemma FromEndsExactly(calls: seq<Call>, steps: seq<Step>)
    requires Path(Begin(calls), steps)
    ensures var (side, start) := (After(Begin(calls), steps).broker.fromClient, Begin(calls));
      && (EndedWith(side, Some(Err.StreamFailed)) <==> Ever(ReceiveFailed, start, steps))
      && (EndedWith(side, Some(Err.BadFileTransfer)) <==> Ever(TransferFailed, start, steps))
      && (EndedWith(side, None) <==> Ever(FromQuit, start, steps))
  {
    EverShows(ReceiveFailed, calls, steps);
    EverShows(TransferFailed, calls, steps);
    EverShows(FromQuit, calls, steps);
  }

  /** There is no fourth result. */
  lemma Results(side: Err.Side)
    ensures side.stage.Working? || EndedWith(side, None)
         || EndedWith(side, Some(Err.StreamFailed)) || EndedWith(side, Some(Err.BadFileTransfer))
  {
    if !side.stage.Working? && side.stage.err.Some? {
      var e := side.stage.err.value;
      assert e == Err.StreamFailed || e == Err.BadFileTransfer;
    }
  }

  /** Only fromClientWorker judges files. */
  lemma {:induction false} AlwaysTransferless(calls: seq<Call>, steps: seq<Step>)
    requires Path(Begin(calls), steps)
    ensures !EndedWith(After(Begin(calls), steps).broker.toClient, Some(Err.BadFileTransfer))
  {
    if steps != [] {
      var front, a := steps[..|steps| - 1], steps[|steps| - 1];
      AlwaysTransferless(calls, front);
      SoundAfter(Begin(calls), front);
      StepTransferless(After(Begin(calls), front), a);
    }
  }

  lemma StepTransferless(s: State, a: Step)
    requires Sound(s) && Enabled(s, a) && !EndedWith(s.broker.toClient, Some(Err.BadFileTransfer))
    ensures !EndedWith(Do(s, a).broker.toClient, Some(Err.BadFileTransfer))
  {
    if ByTo(a) { ToTransferless(s, a); }
    else if !a.Report? { ToSideKept(s, a); }
  }

  lemma ToTransferless(s: State, a: Step)
    requires Enabled(s, a) && ByTo(a) && !EndedWith(s.broker.toClient, Some(Err.BadFileTransfer))
    ensures !EndedWith(Do(s, a).broker.toClient, Some(Err.BadFileTransfer))
  {
  }

  lemma ToSideKept(s: State, a: Step)
    requires Enabled(s, a) && !ByTo(a) && !a.Report?
    ensures Do(s, a).broker.toClient == s.broker.toClient
  {
    if a.StartCall? { StartShape(s); }
  }

  /**
   So the error channel of a session: what it has been given is the errors of the
   faults that happened; without a fault it closes empty.
   */
  lemma FaultlessChannelEmpty(calls: seq<Call>, steps: seq<Step>)
    requires Path(Begin(calls), steps)
    ensures var (b, start) := (After(Begin(calls), steps).broker, Begin(calls));
      var fault :=
        Ever(SendFailed, start, steps) || Ever(ReceiveFailed, start, steps) || Ever(TransferFailed, start, steps);
      && (!fault ==> b.history == [])
      && (b.closed ==> (b.history == [] <==> !fault))
  {
    ToEndsExactly(calls, steps);
    FromEndsExactly(calls, steps);
    SoundAfter(Begin(calls), steps);
    var b := After(Begin(calls), steps).broker;
    AlwaysTransferless(calls, steps);
    Results(b.toClient);
    Results(b.fromClient);
    ClosedEmpty(b);
  }

  /** The channel has been given nothing by workers without an error, and something once one has left with one. */
  lemma ClosedEmpty(b: Err.Broker)
    requires Err.Valid(b)
    ensures Unfailed(b.toClient) && Unfailed(b.fromClient) ==> b.history == []
    ensures b.closed ==>
      (b.history == [] <==> EndedWith(b.toClient, None) && EndedWith(b.fromClient, None))
  {
  }

  predicate Unfailed(side: Err.Side) { side.stage.Working? || EndedWith(side, None) }

  // ------------------------------------------------------------------- cancellation

  lemma CancelStep(s: State, a: Step)
    requires Enabled(s, a)
    ensures Do(s, a).cancelled <==> s.cancelled || Happens(ParentCancels, s, a) || Happens(WorkerCancels, s, a)
  {
    if a.StartCall? { StartShape(s); }
    else if a.PassResult? { PassKeeps(s); }
  }

  /** The context is done exactly if the parent was cancelled or a worker has cancelled on leaving. */
  lemma {:induction false} CancelledExactly(calls: seq<Call>, steps: seq<Step>)
    requires Path(Begin(calls), steps)
    ensures After(Begin(calls), steps).cancelled
       <==> Ever(ParentCancels, Begin(calls), steps) || Ever(WorkerCancels, Begin(calls), steps)
  {
    if steps != [] {
      CancelledExactly(calls, steps[..|steps| - 1]);
      CancelStep(After(Begin(calls), steps[..|steps| - 1]), steps[|steps| - 1]);
    }
  }

  /** Nobody acts on a done context before it is. */
  lemma {:induction false} SeenOnlyWhenDone(calls: seq<Call>, steps: seq<Step>)
    requires Path(Begin(calls), steps)
    ensures Ever(ContextSeen, Begin(calls), steps) ==>
      Ever(ParentCancels, Begin(calls), steps) || Ever(WorkerCancels, Begin(calls), steps)
  {
    if steps != [] {
      var front, a := steps[..|steps| - 1], steps[|steps| - 1];
      SeenOnlyWhenDone(calls, front);
      CancelledExactly(calls, front);
      if SeesContext(a) { SeesDone(After(Begin(calls), front), a); }
    }
  }

  lemma SeesDone(s: State, a: Step)
    requires Enabled(s, a) && SeesContext(a)
    ensures s.cancelled
  {
  }

  /** So before a cancellation fromClientWorker ends without an error only because the client closed the stream. */
  lemma {:induction false} QuitsOnlyOnClose(calls: seq<Call>, steps: seq<Step>)
    requires Path(Begin(calls), steps)
    ensures Ever(FromQuit, Begin(calls), steps) ==>
      Ever(ClientCloses, Begin(calls), steps) || Ever(ContextSeen, Begin(calls), steps)
  {
    if steps != [] { QuitsOnlyOnClose(calls, steps[..|steps| - 1]); }
  }

  /** Nobody gives up anything, and no goroutine sees the context done, before it is. */
  ghost predicate Patient(s: State)
  {
    && (s.log.dropped || s.log.abandoned ==> s.cancelled)
    && (s.to == ToEnded([]) ==> s.cancelled)
    && (s.loop.LoopEnded? ==> s.cancelled || s.from.FromEnded?)
    && (Gone(s.broker.toClient) || Gone(s.broker.fromClient) ==> s.cancelled)
  }

  /** The worker has cancelled its companion. */
  predicate Gone(side: Err.Side) { side.stage.Cancelling? || side.stage.Left? }

  lemma StepPatient(s: State, a: Step)
    requires Sound(s) && Patient(s) && Enabled(s, a)
    ensures Patient(Do(s, a))
  {
    CancelStep(s, a);
    if a.Report? { ReportPatient(s, a.e); }
    else if ByModule(a) || ByTo(a) { WorkPatient(s, a); }
    else { OthersKeep(s, a); OthersPatient(s, a); }
  }

  lemma ReportPatient(s: State, e: Err.Event)
    requires Patient(s) && Enabled(s, Report(e))
    ensures Patient(Do(s, Report(e)))
  {
  }

  lemma WorkPatient(s: State, a: Step)
    requires Sound(s) && Patient(s) && Enabled(s, a) && (ByModule(a) || ByTo(a))
    ensures Patient(Do(s, a))
  {
    if a.StartCall? { StartShape(s); }
  }

  lemma OthersPatient(s: State, a: Step)
    requires Sound(s) && Patient(s) && Enabled(s, a) && !ByModule(a) && !ByTo(a) && !a.Report?
    requires Do(s, a).log.dropped == s.log.dropped && Do(s, a).log.abandoned == s.log.abandoned
    requires s.cancelled ==> Do(s, a).cancelled
    ensures Patient(Do(s, a))
  {
    assert Gone(Do(s, a).broker.fromClient) ==> Gone(s.broker.fromClient);
    assert Do(s, a).broker.toClient == s.broker.toClient;
    assert Do(s, a).to == ToEnded([]) ==> s.to == ToEnded([]);
    assert s.from.FromEnded? ==> Do(s, a).from.FromEnded?;
  }

  lemma {:induction false} AlwaysPatient(calls: seq<Call>, steps: seq<Step>)
    requires Path(Begin(calls), steps)
    ensures Sound(After(Begin(calls), steps)) && Patient(After(Begin(calls), steps))
  {
    SoundAfter(Begin(calls), steps);
    if steps != [] {
      AlwaysPatient(calls, steps[..|steps| - 1]);
      StepPatient(After(Begin(calls), steps[..|steps| - 1]), steps[|steps| - 1]);
    }
  }

  /**
   The end of either worker is the end of the session: it cancels the other, so a
   session that can go no further after one has ended has ended altogether.
   */
  lemma OneEndsAll(calls: seq<Call>, steps: seq<Step>)
    requires Path(Begin(calls), steps)
    requires var s := After(Begin(calls), steps);
      && (s.to.ToEnded? || s.from.FromEnded?)
      && forall a :: SessionTeardown.Own(a) ==> !Enabled(s, a)
    ensures SessionTeardown.AllEnded(After(Begin(calls), steps))
  {
    AlwaysPatient(calls, steps);
    var s := After(Begin(calls), steps);
    if s.to.ToEnded? { LeavesOrCan(s, Err.ToClient); }
    if s.from.FromEnded? { LeavesOrCan(s, Err.FromClient); }
    SessionTeardown.QuietMeansEnded(calls, steps);
  }

  /** A worker that has ended is gone, or has a step left. */
  lemma LeavesOrCan(s: State, w: Err.Worker)
    requires Sound(s) && !Err.SideOf(s.broker, w).stage.Working?
    requires forall a :: SessionTeardown.Own(a) ==> !Enabled(s, a)
    ensures Err.SideOf(s.broker, w).stage.Left?
  {
    if Err.SideOf(s.broker, w).stage.Returned? { Err.PostNeverBlocks(s.broker, w); }
    var a := Report(SessionTeardown.SideNext(s.broker, w));
    assert SessionTeardown.Own(a);
  }
}

/**
 One session (internal/dutagent/session): the module's goroutine, the two broker
 workers, the receive loop and the closer, interleaved.

 Channels are unbuffered: an exchange is one step of both partners, possible
 whenever both stand at selects that offer it, and a select with several ready
 cases may take any of them. Handing over a file channel includes filling and
 closing it, which the giver does at once and without blocking.
 */
module Session {
  import opened Base
  import opened ErrChannel

  // ------------------------------------------------------------------- messages

  datatype Kind = Printed | Stdout | Stderr

  /** To the client. */
  datatype OutMsg = Output(kind: Kind, data: Data) | FileRequest(name: string) | File(name: string, data: Data)

  /**
   From the client. A file without content is also what an empty file arrives as,
   since encoders leave empty bytes out of the message. reply says which file
   request a file answers and is seen by nobody here.
   */
  datatype InMsg =
    | Stdin(data: Data)
    | Upload(path: string, content: Option<Data>, reply: nat)
    | EmptyUpload
    | Other

  /** What stream.Receive returned. */
  datatype Received = Message(m: InMsg) | EndOfStream | Failure

  /** The calls a module makes on its session. */
  datatype Call =
    | Emit(kind: Kind, data: Data)
    | RequestFile(name: string)
    | SendFile(name: string, data: Data)
    | ReadStdin

  // ----------------------------------------------------------------- goroutines

  /** The module: between calls, or where it stands inside one. */
  datatype ModulePc =
    | Idle
    | Offering(call: Call)
    | AwaitingFile(name: string, k: nat)
    | ReadingStdin
    | SendChecked(name: string, data: Data)
    | OfferingFile(name: string, data: Data)

  /** done are the calls that have returned, todo those still to come. */
  datatype Module = Module(pc: ModulePc, done: seq<Call>, todo: seq<Call>)

  /** toClientWorker; when it has ended, lost is a message it took and could not send. */
  datatype ToPc =
    | ToSelect
    | Naming(name: string)
    | Sending(msg: OutMsg)
    | GotFile(data: Data)
    | ToClearing
    | ToEnded(lost: seq<OutMsg>)

  /** fromClientWorker. */
  datatype FromPc =
    | FromSelect
    | GivingStdin(data: Data)
    | Judging(upload: InMsg)
    | GivingFile(upload: InMsg)
    | FromClearing
    | FromEnded

  /** The receive loop. */
  datatype LoopPc = Receiving | Passing(res: Received) | LoopEnded

  /** A reader that RequestFile returned: the name asked for, the number of the request, and the upload behind it. */
  datatype Opened = Opened(name: string, k: nat, upload: InMsg)

  /**
   What has happened so far, for stating properties; no goroutine looks at it.
   taken and sent are the messages for the client that toClientWorker took from
   the module and that it sent; requests, answers and readers the file requests,
   the client's replies by request, and what RequestFile returned; typed and read
   the stdin messages of the client and those the module got. An output may be
   dropped and a request abandoned because the module found the session done; a
   reply may be stolen from the module by toClientWorker; and the name of a
   request may be wiped, by clearing the current file after an earlier reply.
   */
  datatype Log = Log(taken: seq<OutMsg>, sent: seq<OutMsg>, requests: seq<string>, answers: map<nat, Option<Data>>,
                     readers: seq<Opened>, typed: seq<Data>, read: seq<Data>, dropped: bool, abandoned: bool,
                     stolen: bool, wiped: bool)

  const NOTHING := Log([], [], [], map[], [], [], [], false, false, false, false)

  datatype State = State(mod: Module, to: ToPc, from: FromPc, loop: LoopPc, currentFile: string, inbox: seq<InMsg>,
                         broker: Broker, cancelled: bool, log: Log)

  function Begin(calls: seq<Call>): (s: State)
  {
    State(Module(Idle, [], calls), ToSelect, FromSelect, Receiving, "", [], FRESH, false, NOTHING)
  }

  // ----------------------------------------------------------------------- steps

  datatype Step =
    // the module
    | StartCall
    | SourceFails
    | SetSendName
    | ModuleSeesDone
    // exchanges of the module with a worker
    | TakeOutput
    | TakeFile
    | GiveStdin
    | GiveFile
    // toClientWorker
    | SetRequestName
    | SendSucceeds
    | SendFails
    | NameFile
    | ClearSent
    | ToSeesDone
    // fromClientWorker
    | PassResult
    | JudgeUpload
    | StealFile
    | ClearGiven
    | FromSeesDone
    | DrainResult
    // the receive loop
    | ReceiveMessage
    | ReceiveEnds(failed: bool)
    | LoopSeesDone
    // reporting and closing
    | Report(e: Event)
    // outside
    | CancelParent
    | ClientSends(m: InMsg)

  predicate Waiting(pc: ModulePc)
  {
    pc.Offering? || pc.AwaitingFile? || pc.ReadingStdin? || pc.OfferingFile?
  }

  predicate Enabled(s: State, a: Step)
  {
    match a
    case StartCall => s.mod.pc.Idle? && s.mod.todo != []
    case SourceFails => s.mod.pc.SendChecked?
    case SetSendName => s.mod.pc.SendChecked?
    case ModuleSeesDone => s.cancelled && Waiting(s.mod.pc)
    case TakeOutput => s.to.ToSelect? && s.mod.pc.Offering? && (s.mod.pc.call.Emit? || s.mod.pc.call.RequestFile?)
    case TakeFile => s.to.ToSelect? && s.mod.pc.OfferingFile?
    case GiveStdin => s.from.GivingStdin? && s.mod.pc.ReadingStdin?
    case GiveFile => s.from.GivingFile? && s.mod.pc.AwaitingFile?
    case SetRequestName => s.to.Naming?
    case SendSucceeds => s.to.Sending?
    case SendFails => s.to.Sending?
    case NameFile => s.to.GotFile?
    case ClearSent => s.to.ToClearing?
    case ToSeesDone => s.cancelled && s.to.ToSelect?
    case PassResult => s.from.FromSelect? && s.loop.Passing?
    case JudgeUpload => s.from.Judging? && s.from.upload.Upload?
    case StealFile => s.from.GivingFile? && s.from.upload.Upload? && s.from.upload.content.Some? && s.to.ToSelect?
    case ClearGiven => s.from.FromClearing?
    case FromSeesDone => s.cancelled && (s.from.FromSelect? || s.from.GivingStdin? || s.from.GivingFile?)
    case DrainResult => s.cancelled && s.from.FromSelect? && s.loop.Passing?
    case ReceiveMessage => s.loop.Receiving? && s.inbox != []
    case ReceiveEnds(_) => s.loop.Receiving?
    case LoopSeesDone => s.cancelled && s.loop.Passing?
    case Report(e) => !e.Return? && ErrChannel.Enabled(s.broker, e)
    case CancelParent => true
    case ClientSends(_) => true
  }

  /** The call the module is in. */
  function Current(pc: ModulePc): (calls: seq<Call>)
  {
    match pc
    case Idle => []
    case Offering(c) => [c]
    case AwaitingFile(n, _) => [RequestFile(n)]
    case ReadingStdin => [ReadStdin]
    case SendChecked(n, d) => [SendFile(n, d)]
    case OfferingFile(n, d) => [SendFile(n, d)]
  }

  /** The call returns. */
  function Returns(m: Module): (m': Module) { Module(Idle, m.done + Current(m.pc), m.todo) }

  function EndTo(s: State, lost: seq<OutMsg>, err: Option<Err>): (s': State)
  {
    s.(to := ToEnded(lost), broker := SetStage(s.broker, ToClient, Returned(err)))
  }

  function EndFrom(s: State, err: Option<Err>): (s': State)
  {
    s.(from := FromEnded, broker := SetStage(s.broker, FromClient, Returned(err)))
  }

  /** The loop after its result was taken: it ends after any error. */
  function LoopAfter(res: Received): (pc: LoopPc) { if res.Message? then Receiving else LoopEnded }

  function DoStartCall(s: State): (s': State)
    requires Enabled(s, StartCall)
  {
    var call := s.mod.todo[0];
    var m := s.mod.(todo := s.mod.todo[1..]);
    match call
    case Emit(_, _) => s.(mod := m.(pc := Offering(call)))
    case RequestFile(_) => s.(mod := m.(pc := Offering(call)))
    case ReadStdin => s.(mod := m.(pc := ReadingStdin))
    case SendFile(n, d) =>
      if s.currentFile != "" then s.(mod := m.(done := m.done + [call])) else s.(mod := m.(pc := SendChecked(n, d)))
  }

  function DoTakeOutput(s: State): (s': State)
    requires Enabled(s, TakeOutput)
  {
    match s.mod.pc.call
    case Emit(kind, d) =>
      s.(mod := Returns(s.mod), to := Sending(Output(kind, d)), log := s.log.(taken := s.log.taken + [Output(kind, d)]))
    case RequestFile(n) =>
      s.(mod := s.mod.(pc := AwaitingFile(n, |s.log.requests|)), to := Naming(n),
         log := s.log.(taken := s.log.taken + [FileRequest(n)], requests := s.log.requests + [n]))
  }

  function DoPassResult(s: State): (s': State)
    requires Enabled(s, PassResult)
  {
    var s1 := s.(loop := LoopAfter(s.loop.res));
    match s.loop.res
    case EndOfStream => EndFrom(s1, None)
    case Failure => EndFrom(s1, Some(StreamFailed))
    case Message(m) =>
      match m
      case Stdin(d) => s1.(from := GivingStdin(d))
      case Upload(_, _, _) => s1.(from := Judging(m))
      case EmptyUpload => EndFrom(s1, Some(BadFileTransfer))
      case Other => s1
  }

  function DoJudge(s: State): (s': State)
    requires Enabled(s, JudgeUpload)
  {
    var u := s.from.upload;
    if s.currentFile == "" || u.content.None? || u.path != s.currentFile then EndFrom(s, Some(BadFileTransfer))
    else s.(from := GivingFile(u))
  }

  function Do(s: State, a: Step): (s': State)
    requires Enabled(s, a)
  {
    match a
    case StartCall => DoStartCall(s)
    case SourceFails => s.(mod := Returns(s.mod))
    case SetSendName =>
      s.(currentFile := s.mod.pc.name, mod := s.mod.(pc := OfferingFile(s.mod.pc.name, s.mod.pc.data)))
    case ModuleSeesDone =>
      s.(mod := Returns(s.mod),
         log := s.log.(dropped := s.log.dropped || s.mod.pc.Offering?,
                       abandoned := s.log.abandoned || s.mod.pc.AwaitingFile?))
    case TakeOutput => DoTakeOutput(s)
    case TakeFile =>
      s.(mod := Returns(s.mod), to := GotFile(s.mod.pc.data),
         log := s.log.(taken := s.log.taken + [File(s.mod.pc.name, s.mod.pc.data)]))
    case GiveStdin => s.(mod := Returns(s.mod), from := FromSelect, log := s.log.(read := s.log.read + [s.from.data]))
    case GiveFile =>
      s.(mod := Returns(s.mod), from := FromClearing,
         log := s.log.(readers := s.log.readers + [Opened(s.mod.pc.name, s.mod.pc.k, s.from.upload)]))
    case SetRequestName => s.(currentFile := s.to.name, to := Sending(FileRequest(s.to.name)))
    case SendSucceeds =>
      s.(to := if s.to.msg.File? then ToClearing else ToSelect, log := s.log.(sent := s.log.sent + [s.to.msg]))
    case SendFails => EndTo(s, [s.to.msg], Some(StreamFailed))
    case NameFile => s.(to := Sending(File(s.currentFile, s.to.data)))
    case ClearSent => s.(currentFile := "", to := ToSelect)
    case ToSeesDone => EndTo(s, [], None)
    case PassResult => DoPassResult(s)
    case JudgeUpload => DoJudge(s)
    case StealFile =>
      s.(from := FromClearing, to := GotFile(s.from.upload.content.value), log := s.log.(stolen := true))
    case ClearGiven =>
      s.(currentFile := "", from := FromSelect,
         log := s.log.(wiped := s.log.wiped || (s.mod.pc.AwaitingFile? && !s.to.Naming?)))
    case FromSeesDone => EndFrom(s, None)
    case DrainResult =>
      EndFrom(s.(loop := LoopAfter(s.loop.res)), if s.loop.res.Failure? then Some(StreamFailed) else None)
    case ReceiveMessage => s.(loop := Passing(Message(s.inbox[0])), inbox := s.inbox[1..])
    case ReceiveEnds(failed) => s.(loop := Passing(if failed then Failure else EndOfStream))
    case LoopSeesDone => s.(loop := LoopEnded)
    case Report(e) => s.(broker := ErrChannel.Step(s.broker, e), cancelled := s.cancelled || e.Cancel?)
    case CancelParent => s.(cancelled := true)
    case ClientSends(m) =>
      s.(inbox := s.inbox + [m],
         log := match m
                case Upload(_, content, k) => s.log.(answers := s.log.answers[k := content])
                case Stdin(d) => s.log.(typed := s.log.typed + [d])
                case _ => s.log)
  }

  /** An interleaving: steps one after another, each possible when its turn comes. */
  predicate Path(s: State, steps: seq<Step>)
    decreases |steps|, 0
  {
    steps == [] || (Path(s, steps[..|steps| - 1]) && Enabled(After(s, steps[..|steps| - 1]), steps[|steps| - 1]))
  }

  function After(s: State, steps: seq<Step>): (s': State)
    requires Path(s, steps)
    decreases |steps|, 1
  {
    if steps == [] then s else Do(After(s, steps[..|steps| - 1]), steps[|steps| - 1])
  }

  // ------------------------------------------------------------ well-formed states

  /**
   Each worker function is running exactly as long as its goroutine has nothing to report, and
   uploads stay uploads.
   */
  ghost predicate Sound(s: State)
  {
    && Valid(s.broker)
    && (s.to.ToEnded? <==> !s.broker.toClient.stage.Working?)
    && (s.from.FromEnded? <==> !s.broker.fromClient.stage.Working?)
    && (s.mod.pc.Offering? ==> s.mod.pc.call.Emit? || s.mod.pc.call.RequestFile?)
    && (s.from.Judging? ==> s.from.upload.Upload?)
    && (s.from.GivingFile? ==> s.from.upload.Upload? && s.from.upload.content.Some?)
  }

  /**
   The steps by the goroutine that takes them (an exchange of the module with a worker is counted as
   the module's).
   */
  predicate ByModule(a: Step)
  {
    || a.StartCall? || a.SourceFails? || a.SetSendName? || a.ModuleSeesDone?
    || a.TakeOutput? || a.TakeFile? || a.GiveStdin? || a.GiveFile?
  }

  predicate ByTo(a: Step)
  {
    a.SetRequestName? || a.SendSucceeds? || a.SendFails? || a.NameFile? || a.ClearSent? || a.ToSeesDone?
  }

  predicate ByFrom(a: Step)
  {
    a.PassResult? || a.JudgeUpload? || a.StealFile? || a.ClearGiven? || a.FromSeesDone? || a.DrainResult?
  }

  predicate ByLoop(a: Step) { a.ReceiveMessage? || a.ReceiveEnds? || a.LoopSeesDone? }

  predicate FromOutside(a: Step) { a.CancelParent? || a.ClientSends? }

  /** Starting a call takes it off the program; a file that cannot be sent is refused on the spot. */
  lemma StartShape(s: State)
    requires Enabled(s, StartCall)
    ensures var (call, m') := (s.mod.todo[0], Do(s, StartCall).mod);
      && Do(s, StartCall) == s.(mod := m')
      && m'.todo == s.mod.todo[1..]
      && (m'.pc.Idle? ==> call.SendFile? && m'.done == s.mod.done + [call])
      && (!m'.pc.Idle? ==> m'.done == s.mod.done && Current(m'.pc) == [call])
      && !m'.pc.AwaitingFile? && !m'.pc.OfferingFile?
      && (m'.pc.Offering? ==> call.Emit? || call.RequestFile?)
  {
  }

  /** What the steps that are neither the module's nor toClientWorker's leave alone. */
  lemma OthersKeep(s: State, a: Step)
    requires Enabled(s, a) && !ByModule(a) && !ByTo(a)
    ensures Do(s, a).mod == s.mod
    ensures Do(s, a).to == if a.StealFile? then GotFile(s.from.upload.content.value) else s.to
    ensures var log' := Do(s, a).log;
      log' == s.log.(answers := log'.answers, typed := log'.typed,
                     stolen := s.log.stolen || a.StealFile?, wiped := log'.wiped)
    ensures s.cancelled ==> Do(s, a).cancelled
  {
    if a.PassResult? { PassKeeps(s); }
  }

  lemma PassKeeps(s: State)
    requires Enabled(s, PassResult)
    ensures var s' := DoPassResult(s);
      s'.mod == s.mod && s'.to == s.to && s'.log == s.log && s'.cancelled == s.cancelled
  {
  }

  /** A worker function that returns leaves the broker in order. */
  lemma ReturnValid(b: Broker, w: Worker, err: Option<Err>)
    requires Valid(b) && SideOf(b, w).stage.Working?
    ensures Valid(SetStage(b, w, Returned(err)))
  {
    StepValid(b, Return(w, err));
  }

  lemma ModuleSound(s: State, a: Step)
    requires Sound(s) && Enabled(s, a) && ByModule(a)
    ensures Sound(Do(s, a))
  {
    if a.StartCall? { StartShape(s); }
  }

  lemma ToSound(s: State, a: Step)
    requires Sound(s) && Enabled(s, a) && ByTo(a)
    ensures Sound(Do(s, a))
  {
    if a.SendFails? { ReturnValid(s.broker, ToClient, Some(StreamFailed)); }
    if a.ToSeesDone? { ReturnValid(s.broker, ToClient, None); }
  }

  lemma EndFromSound(s: State, loop: LoopPc, err: Option<Err>)
    requires Sound(s) && !s.from.FromEnded?
    ensures Sound(EndFrom(s.(loop := loop), err))
  {
    ReturnValid(s.broker, FromClient, err);
  }

  lemma PassSound(s: State)
    requires Sound(s) && Enabled(s, PassResult)
    ensures Sound(Do(s, PassResult))
  {
    var loop := LoopAfter(s.loop.res);
    match s.loop.res
    case EndOfStream => EndFromSound(s, loop, None);
    case Failure => EndFromSound(s, loop, Some(StreamFailed));
    case Message(m) =>
      if m.EmptyUpload? { EndFromSound(s, loop, Some(BadFileTransfer)); }
      else { assert !Do(s, PassResult).from.FromEnded? && Do(s, PassResult).broker == s.broker; }
  }

  lemma FromSound(s: State, a: Step)
    requires Sound(s) && Enabled(s, a) && ByFrom(a)
    ensures Sound(Do(s, a))
  {
    match a
    case PassResult => PassSound(s);
    case JudgeUpload => EndFromSound(s, s.loop, Some(BadFileTransfer));
    case FromSeesDone => EndFromSound(s, s.loop, None);
    case DrainResult =>
      EndFromSound(s, LoopAfter(s.loop.res), if s.loop.res.Failure? then Some(StreamFailed) else None);
    case _ =>
  }

  lemma ReportSound(s: State, e: Event)
    requires Sound(s) && Enabled(s, Report(e))
    ensures Sound(Do(s, Report(e)))
  {
    StepValid(s.broker, e);
    StepKeepsWorking(s.broker, e);
  }

  lemma StepSound(s: State, a: Step)
    requires Sound(s) && Enabled(s, a)
    ensures Sound(Do(s, a))
  {
    if ByModule(a) { ModuleSound(s, a); }
    else if ByTo(a) { ToSound(s, a); }
    else if ByFrom(a) { FromSound(s, a); }
    else if a.Report? { ReportSound(s, a.e); }
  }

  lemma {:induction false} SoundAfter(s: State, steps: seq<Step>)
    requires Sound(s) && Path(s, steps)
    ensures Sound(After(s, steps))
  {
    if steps != [] {
      SoundAfter(s, steps[..|steps| - 1]);
      StepSound(After(s, steps[..|steps| - 1]), steps[|steps| - 1]);
    }
  }

  /**
   In every interleaving each worker reports at most one error, its own, finding
   room and an open channel, and the channel is closed only after both have left.
   */
  lemma ReportsDisciplined(calls: seq<Call>, steps: seq<Step>)
    requires Path(Begin(calls), steps)
    ensures var b := After(Begin(calls), steps).broker;
      && |b.toClient.sent| <= 1 && |b.fromClient.sent| <= 1
      && (forall w :: SideOf(b, w).stage.Returned? ==> |b.queue| < NUM_WORKERS && !b.closed)
      && (b.closed ==> b.toClient.stage.Left? && b.fromClient.stage.Left?)
    ensures Sound(After(Begin(calls), steps))
  {
    SoundAfter(Begin(calls), steps);
    var b := After(Begin(calls), steps).broker;
    forall w | SideOf(b, w).stage.Returned? ensures |b.queue| < NUM_WORKERS && !b.closed {
      PostNeverBlocks(b, w);
    }
  }
}

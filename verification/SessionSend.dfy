/** Files the module sends reach the client under their own names and in their own place. */
module SessionSend {
  import opened Base
  import opened Session
  import opened SessionFiles
  import opened SessionOrder

  /** Every file to be sent has a name. */
  predicate NamedSends(calls: seq<Call>) { forall i :: 0 <= i < |calls| && calls[i].SendFile? ==> calls[i].name != "" }

  // ------------------------------------------------------- who may touch the name

  /** The worker is busy with a file of the module's. */
  predicate Filing(to: ToPc) { to.GotFile? || (to.Sending? && to.msg.File?) || to.ToClearing? }

  /** The worker has a file request that the client has not been sent. */
  predicate Asking(to: ToPc) { to.Naming? || (to.Sending? && to.msg.FileRequest?) }

  predicate SendingFile(pc: ModulePc) { pc.SendChecked? || pc.OfferingFile? }

  /** The current file is in one pair of hands at a time. */
  ghost predicate Tidy(pc: ModulePc, to: ToPc, from: FromPc, current: string, answers: map<nat, Option<Data>>)
  {
    && (Filing(to) ==> current != "" && !pc.AwaitingFile?)
    && (SendingFile(pc) ==> pc.name != "" && !Filing(to) && !Asking(to))
    && (pc.OfferingFile? ==> current == pc.name)
    && (from.FromClearing? ==> !SendingFile(pc) && !Filing(to) && (current != "" || pc.AwaitingFile?))
    && (from.GivingFile? ==> current != "")
    && (Asking(to) ==> pc.AwaitingFile? && pc.k !in answers)
  }

  /** A request in hand is not among those sent, and only requests are answered. */
  ghost predicate Counted(to: ToPc, log: Log)
  {
    && CountRequests(log.sent) + (if Asking(to) then 1 else 0) <= |log.requests|
    && (forall k :: k in log.answers ==> k < |log.requests|)
  }

  /** What the worker has in its hands, a file under the name it would be sent. */
  function Hand(to: ToPc, current: string): (r: seq<OutMsg>)
  {
    match to
    case Naming(n) => [FileRequest(n)]
    case Sending(m) => [m]
    case GotFile(d) => [File(current, d)]
    case ToEnded(lost) => lost
    case _ => []
  }

  /** Every message taken has been sent, or is in hand, just as the module gave it. */
  ghost predicate Delivered(to: ToPc, current: string, log: Log) { log.sent + Hand(to, current) == log.taken }

  ghost predicate Smooth(s: State)
  {
    && Tidy(s.mod.pc, s.to, s.from, s.currentFile, s.log.answers)
    && Counted(s.to, s.log)
    && Delivered(s.to, s.currentFile, s.log)
  }

  /** A file on its way to the module is the reply being waited for. */
  lemma GivingWaits(s: State)
    requires Kept(s) && !s.log.abandoned
    ensures s.from.GivingFile? ==> s.mod.pc.AwaitingFile? && s.mod.pc.k in s.log.answers
  {
    if s.from.GivingFile? {
      assert Flying(s)[0] == s.from.upload;
      assert s.from.upload in Flying(s);
    }
  }

  lemma StartSmooth(s: State)
    requires Smooth(s) && Enabled(s, StartCall) && NamedSends(s.mod.todo)
    ensures Smooth(Do(s, StartCall))
  {
    StartShape(s);
    var call, pc := s.mod.todo[0], Do(s, StartCall).mod.pc;
    assert SendingFile(pc) ==> call.SendFile? && pc.name == call.name && s.currentFile == "";
  }

  lemma ModuleSmooth(s: State, a: Step)
    requires Kept(s) && Smooth(s) && Enabled(s, a) && !s.log.abandoned
    requires a.SourceFails? || a.SetSendName? || a.ModuleSeesDone? || a.GiveStdin? || a.GiveFile?
    ensures !Do(s, a).log.abandoned ==> Smooth(Do(s, a))
  {
    GivingWaits(s);
  }

  lemma TakeSmooth(s: State)
    requires Smooth(s) && Enabled(s, TakeOutput)
    ensures Smooth(Do(s, TakeOutput))
  {
    assert s.log.sent + [] == s.log.sent;
  }

  lemma TakeFileSmooth(s: State)
    requires Smooth(s) && Enabled(s, TakeFile)
    ensures Smooth(Do(s, TakeFile))
  {
    assert s.log.sent + [] == s.log.sent;
  }

  lemma SentDelivered(to: ToPc, to': ToPc, current: string, log: Log)
    requires to.Sending? && Delivered(to, current, log) && (to' == ToClearing || to' == ToSelect)
    ensures Delivered(to', current, log.(sent := log.sent + [to.msg]))
  {
    var sent := log.sent + [to.msg];
    assert sent + [] == sent;
  }

  lemma SentCounted(to: ToPc, to': ToPc, log: Log)
    requires to.Sending? && Counted(to, log) && !Asking(to')
    ensures Counted(to', log.(sent := log.sent + [to.msg]))
  {
    CountSnoc(log.sent, to.msg);
  }

  lemma SentTidy(pc: ModulePc, to: ToPc, from: FromPc, current: string, answers: map<nat, Option<Data>>)
    requires to.Sending? && Tidy(pc, to, from, current, answers)
    ensures Tidy(pc, if to.msg.File? then ToClearing else ToSelect, from, current, answers)
  {
  }

  lemma SentSmooth(s: State)
    requires Smooth(s) && Enabled(s, SendSucceeds)
    ensures Smooth(Do(s, SendSucceeds))
  {
    var to' := if s.to.msg.File? then ToClearing else ToSelect;
    assert Do(s, SendSucceeds) == s.(to := to', log := s.log.(sent := s.log.sent + [s.to.msg]));
    SentTidy(s.mod.pc, s.to, s.from, s.currentFile, s.log.answers);
    SentCounted(s.to, to', s.log);
    SentDelivered(s.to, to', s.currentFile, s.log);
  }

  lemma ToSmooth(s: State, a: Step)
    requires Kept(s) && Smooth(s) && Enabled(s, a) && ByTo(a) && !a.SendSucceeds? && !s.log.abandoned
    ensures Smooth(Do(s, a))
  {
    GivingWaits(s);
    if a.SetRequestName? { SetRequestSmooth(s); }
    else if a.ClearSent? { ClearSentSmooth(s); }
    else { assert !Asking(Do(s, a).to) && Hand(Do(s, a).to, s.currentFile) == Hand(s.to, s.currentFile); }
  }

  lemma SetRequestSmooth(s: State)
    requires Smooth(s) && Enabled(s, SetRequestName)
    requires (s.from.GivingFile? ==> s.mod.pc.AwaitingFile? && s.mod.pc.k in s.log.answers)
    ensures Smooth(Do(s, SetRequestName))
  {
  }

  lemma ClearSentSmooth(s: State)
    requires Smooth(s) && Enabled(s, ClearSent) && (s.from.GivingFile? ==> s.mod.pc.AwaitingFile?)
    ensures Smooth(Do(s, ClearSent))
  {
  }

  lemma FromSmooth(s: State, a: Step)
    requires Smooth(s) && Enabled(s, a) && ByFrom(a) && !a.StealFile?
    ensures Smooth(Do(s, a))
  {
    OthersKeep(s, a);
    if !a.ClearGiven? { FromKeeps(s, a); }
  }

  lemma FromKeeps(s: State, a: Step)
    requires Enabled(s, a) && ByFrom(a) && !a.StealFile? && !a.ClearGiven?
    ensures var s' := Do(s, a);
      && s'.currentFile == s.currentFile && s'.log == s.log && !s'.from.FromClearing?
      && (s'.from.GivingFile? ==> s.currentFile != "" || s.from.GivingFile?)
  {
  }

  lemma ClientSmooth(s: State, m: InMsg)
    requires Kept(s) && Smooth(s) && Prompted(s, ClientSends(m))
    ensures Smooth(Do(s, ClientSends(m)))
  {
    var s' := Do(s, ClientSends(m));
    assert s'.mod == s.mod && s'.to == s.to && s'.from == s.from && s'.currentFile == s.currentFile;
    if m.Upload? {
      assert s'.log == s.log.(answers := s.log.answers[m.reply := m.content]);
      assert Asking(s.to) ==> m.reply != s.mod.pc.k;
    } else {
      assert s'.log == s.log.(typed := s'.log.typed);
    }
  }

  lemma StepSmooth(s: State, a: Step)
    requires Kept(s) && Smooth(s) && Enabled(s, a) && Prompted(s, a) && NamedSends(s.mod.todo) && !s.log.abandoned
    ensures !Do(s, a).log.abandoned && !Do(s, a).log.stolen ==> Smooth(Do(s, a))
  {
    if a.StartCall? { StartSmooth(s); }
    else if a.TakeOutput? { TakeSmooth(s); }
    else if a.TakeFile? { TakeFileSmooth(s); }
    else if ByModule(a) { ModuleSmooth(s, a); }
    else if a.SendSucceeds? { SentSmooth(s); }
    else if ByTo(a) { ToSmooth(s, a); }
    else if ByFrom(a) && !a.StealFile? { FromSmooth(s, a); }
    else if a.ClientSends? { ClientSmooth(s, a.m); }
  }

  // --------------------------------------------------------------- over every run

  lemma FlagsStay(s: State, a: Step)
    requires Enabled(s, a)
    ensures s.log.abandoned ==> Do(s, a).log.abandoned
    ensures s.log.stolen ==> Do(s, a).log.stolen
  {
    if a.StartCall? { StartShape(s); }
    else if !ByModule(a) && !ByTo(a) { OthersKeep(s, a); }
  }

  lemma StillNamed(s: State, a: Step)
    requires Enabled(s, a) && NamedSends(s.mod.todo)
    ensures NamedSends(Do(s, a).mod.todo)
  {
    if a.StartCall? {
      StartShape(s);
      assert forall i :: 0 <= i < |s.mod.todo| - 1 ==> s.mod.todo[1..][i] == s.mod.todo[i + 1];
    } else if !ByModule(a) && !ByTo(a) {
      OthersKeep(s, a);
    }
  }

  lemma {:induction false} AlwaysSmooth(calls: seq<Call>, steps: seq<Step>)
    requires NamedSends(calls) && Path(Begin(calls), steps) && PromptedPath(Begin(calls), steps)
    ensures var s := After(Begin(calls), steps);
      Kept(s) && NamedSends(s.mod.todo) && (!s.log.abandoned && !s.log.stolen ==> Smooth(s))
  {
    if steps != [] {
      var front, a := steps[..|steps| - 1], steps[|steps| - 1];
      AlwaysSmooth(calls, front);
      var s := After(Begin(calls), front);
      StepKept(s, a);
      StillNamed(s, a);
      FlagsStay(s, a);
      if !s.log.abandoned && !s.log.stolen { StepSmooth(s, a); }
    }
  }

  /**
   In every interleaving with a client that sends files only as replies to the
   requests it was sent, a module that names the files it sends, no request given
   up and no reply stolen: everything the client was sent, files with their names
   and contents included, followed by at most one message in the worker's hands,
   is what the module handed over, in its program order and each at most once.
   */
  lemma ClientGetsFilesAsSent(calls: seq<Call>, steps: seq<Step>)
    requires NamedSends(calls) && Path(Begin(calls), steps) && PromptedPath(Begin(calls), steps)
    requires var log := After(Begin(calls), steps).log; !log.abandoned && !log.stolen
    ensures var s := After(Begin(calls), steps);
      && s.log.sent + Hand(s.to, s.currentFile) == s.log.taken && |Hand(s.to, s.currentFile)| <= 1
      && SubSeq(s.log.taken, Emitted(s.mod))
  {
    AlwaysSmooth(calls, steps);
    AlwaysInOrder(calls, steps);
  }

  // -------------------------------------------------------- files without a name

  lemma UnnamedFileTaken(name: string, first: Data, second: Data) returns (steps: seq<Step>, s: State)
    ensures var calls := [SendFile("", first), SendFile(name, second)];
      && Leads(calls, steps, s)
      && s == Begin([]).(mod := Module(Idle, [calls[0]], [calls[1]]), to := GotFile(first),
                             log := NOTHING.(taken := [File("", first)]))
  {
    var calls := [SendFile("", first), SendFile(name, second)];
    steps, s := Then(calls, [], Begin(calls), StartCall);
    assert s == Begin([]).(mod := Module(SendChecked("", first), [], [calls[1]]));
    steps, s := Then(calls, steps, s, SetSendName);
    steps, s := Then(calls, steps, s, TakeFile);
  }

  /**
   Why the names are needed: an empty name looks like no file in progress, so the
   module may start the next file before the worker has named the first, and the
   first file is sent under the second one's name.
   */
  lemma UnnamedFileMisnamed(name: string, first: Data, second: Data) returns (steps: seq<Step>, s: State)
    requires name != ""
    ensures var calls := [SendFile("", first), SendFile(name, second)];
      && Leads(calls, steps, s) && !s.cancelled && !s.log.abandoned && !s.log.stolen
      && s.log.taken == [File("", first)] && s.log.sent == [File(name, first)]
  {
    var calls := [SendFile("", first), SendFile(name, second)];
    steps, s := UnnamedFileTaken(name, first, second);
    steps, s := Then(calls, steps, s, StartCall);
    steps, s := Then(calls, steps, s, SetSendName);
    steps, s := Then(calls, steps, s, NameFile);
    steps, s := Then(calls, steps, s, SendSucceeds);
  }

  /**
   Why no request may have been given up: the worker that still records the name
   of an abandoned request does so over the name of the file being sent.
   */
  lemma AbandonedRequestMisnames(asked: string, name: string, data: Data) returns (steps: seq<Step>, s: State)
    requires asked != name && asked != "" && name != ""
    ensures Leads([RequestFile(asked), SendFile(name, data)], steps, s) && s.log.abandoned && !s.log.stolen
    ensures s.log.taken == [FileRequest(asked), File(name, data)]
    ensures s.log.sent == [FileRequest(asked), File(asked, data)]
  {
    var calls := [RequestFile(asked), SendFile(name, data)];
    steps, s := Ask(calls, [], Begin(calls), asked);
    steps, s := GivenUp(calls, steps, s, asked);
    steps, s := NameOverwritten(calls, steps, s, asked, name, data);
    steps, s := FileSent(calls, steps, s, data);
  }

  lemma FileSent(calls: seq<Call>, steps: seq<Step>, s: State, data: Data) returns (more: seq<Step>, s': State)
    requires Leads(calls, steps, s) && s.to == GotFile(data)
    ensures Leads(calls, more, s')
    ensures s' == s.(to := ToClearing, log := s.log.(sent := s.log.sent + [File(s.currentFile, data)]))
  {
    more, s' := Then(calls, steps, s, NameFile);
    more, s' := Then(calls, more, s', SendSucceeds);
  }

  lemma GivenUp(calls: seq<Call>, steps: seq<Step>, s: State, asked: string) returns (more: seq<Step>, s': State)
    requires Leads(calls, steps, s) && s.mod.pc.AwaitingFile? && s.mod.pc.name == asked
    ensures Leads(calls, more, s')
    ensures s' == s.(mod := Module(Idle, s.mod.done + [RequestFile(asked)], s.mod.todo), cancelled := true,
                     log := s.log.(abandoned := true))
  {
    more, s' := Then(calls, steps, s, CancelParent);
    more, s' := Then(calls, more, s', ModuleSeesDone);
  }

  lemma NameOverwritten(calls: seq<Call>, steps: seq<Step>, s: State, asked: string, name: string, data: Data)
    returns (more: seq<Step>, s': State)
    requires Leads(calls, steps, s) && s.to == Naming(asked) && s.mod.pc == Idle && s.currentFile == ""
    requires s.mod.todo != [] && s.mod.todo[0] == SendFile(name, data)
    ensures Leads(calls, more, s')
    ensures s' == s.(mod := Module(Idle, s.mod.done + [SendFile(name, data)], s.mod.todo[1..]), to := GotFile(data),
                     currentFile := asked,
                     log := s.log.(taken := s.log.taken + [File(name, data)],
                                   sent := s.log.sent + [FileRequest(asked)]))
  {
    more, s' := Then(calls, steps, s, StartCall);
    assert s' == s.(mod := Module(SendChecked(name, data), s.mod.done, s.mod.todo[1..]));
    more, s' := Then(calls, more, s', SetSendName);
    more, s' := Then(calls, more, s', SetRequestName);
    assert s' == s.(mod := Module(OfferingFile(name, data), s.mod.done, s.mod.todo[1..]),
                    to := Sending(FileRequest(asked)), currentFile := asked);
    more, s' := Then(calls, more, s', SendSucceeds);
    more, s' := Then(calls, more, s', TakeFile);
  }
}

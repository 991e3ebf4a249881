/** Whose content a module reads when it has requested a file. */
module SessionFiles {
  import opened Base
  import opened Session
  import ErrChannel
  import ChanReader

  // ------------------------------------------------------------ a well-behaved client

  /** The client sends a file only as the one reply to a file request, under the requested name. */
  predicate Honest(s: State, a: Step)
  {
    a.ClientSends? && a.m.Upload? ==>
      a.m.reply < |s.log.requests| && a.m.path == s.log.requests[a.m.reply] && a.m.reply !in s.log.answers
  }

  predicate HonestPath(s: State, steps: seq<Step>)
    requires Path(s, steps)
    decreases |steps|
  {
    steps == [] || (HonestPath(s, steps[..|steps| - 1]) && Honest(After(s, steps[..|steps| - 1]), steps[|steps| - 1]))
  }

  // ------------------------------------------------- a client that waits to be asked

  function CountRequests(msgs: seq<OutMsg>): (n: nat)
  {
    if msgs == [] then 0
    else CountRequests(msgs[..|msgs| - 1]) + (if msgs[|msgs| - 1].FileRequest? then 1 else 0)
  }

  lemma CountSnoc(msgs: seq<OutMsg>, m: OutMsg)
    ensures CountRequests(msgs + [m]) == CountRequests(msgs) + (if m.FileRequest? then 1 else 0)
  {
    assert (msgs + [m])[..|msgs|] == msgs;
  }

  /** The client is honest, and replies only to requests it was sent. */
  predicate Prompted(s: State, a: Step)
  {
    Honest(s, a) && (a.ClientSends? && a.m.Upload? ==> a.m.reply < CountRequests(s.log.sent))
  }

  predicate PromptedPath(s: State, steps: seq<Step>)
    requires Path(s, steps)
    decreases |steps|
  {
    || steps == []
    || (PromptedPath(s, steps[..|steps| - 1]) && Prompted(After(s, steps[..|steps| - 1]), steps[|steps| - 1]))
  }

  // --------------------------------------------------------------- uploads in flight

  function InFrom(pc: FromPc): (r: seq<InMsg>)
  {
    match pc
    case Judging(u) => [u]
    case GivingFile(u) => [u]
    case _ => []
  }

  function InLoop(pc: LoopPc): (r: seq<InMsg>)
  {
    if pc.Passing? && pc.res.Message? && pc.res.m.Upload? then [pc.res.m] else []
  }

  function Uploads(inbox: seq<InMsg>): (r: seq<InMsg>)
  {
    if inbox == [] then [] else (if inbox[0].Upload? then [inbox[0]] else []) + Uploads(inbox[1..])
  }

  lemma {:induction false} UploadsSnoc(inbox: seq<InMsg>, m: InMsg)
    ensures Uploads(inbox + [m]) == Uploads(inbox) + (if m.Upload? then [m] else [])
  {
    if inbox == [] {
      assert inbox + [m] == [m] && [m][1..] == [];
    } else {
      UploadsSnoc(inbox[1..], m);
      assert (inbox + [m])[0] == inbox[0] && (inbox + [m])[1..] == inbox[1..] + [m];
      Regroup(if inbox[0].Upload? then [inbox[0]] else [], Uploads(inbox[1..]), if m.Upload? then [m] else []);
    }
  }

  /** The files the client has sent and nobody has yet been given, oldest first. */
  function Flying(s: State): (r: seq<InMsg>)
  {
    InFrom(s.from) + (InLoop(s.loop) + Uploads(s.inbox))
  }

  /** fs are some of gs. */
  ghost predicate Among(fs: seq<InMsg>, gs: seq<InMsg>)
  {
    |fs| <= |gs| && forall u :: u in fs ==> u in gs
  }

  lemma PassFlying(s: State)
    requires Enabled(s, PassResult)
    ensures Among(Flying(DoPassResult(s)), Flying(s))
  {
    var s' := DoPassResult(s);
    assert InFrom(s.from) == [] && InLoop(s'.loop) == [] && s'.inbox == s.inbox;
    assert Among(InFrom(s'.from), InLoop(s.loop));
  }

  lemma FromFlying(s: State, a: Step)
    requires Enabled(s, a) && ByFrom(a) && !a.StealFile?
    ensures Among(Flying(Do(s, a)), Flying(s))
  {
    if a.PassResult? { PassFlying(s); }
    else if a.JudgeUpload? { assert Among(InFrom(DoJudge(s).from), InFrom(s.from)); }
    else {
      var s' := Do(s, a);
      assert InFrom(s'.from) == [] && Among(InLoop(s'.loop), InLoop(s.loop)) && s'.inbox == s.inbox;
    }
  }

  lemma LoopFlying(s: State, a: Step)
    requires Enabled(s, a) && ByLoop(a)
    ensures Among(Flying(Do(s, a)), Flying(s))
  {
  }

  /** Giving a file away, to the module or to the other worker, takes it out of the air. */
  lemma GivenFlying(s: State, a: Step)
    requires Enabled(s, a) && (a.GiveFile? || a.StealFile?)
    ensures Flying(s) == [s.from.upload] + Flying(Do(s, a))
  {
    var rest := InLoop(s.loop) + Uploads(s.inbox);
    assert [] + rest == rest;
  }

  lemma SentFlying(s: State, m: InMsg)
    ensures Flying(Do(s, ClientSends(m))) == Flying(s) + (if m.Upload? then [m] else [])
  {
    SentLast(InFrom(s.from), InLoop(s.loop), s.inbox, m);
  }

  lemma SentLast(given: seq<InMsg>, passing: seq<InMsg>, inbox: seq<InMsg>, m: InMsg)
    ensures given + (passing + Uploads(inbox + [m]))
         == given + (passing + Uploads(inbox)) + (if m.Upload? then [m] else [])
  {
    UploadsSnoc(inbox, m);
    var more := if m.Upload? then [m] else [];
    Regroup(passing, Uploads(inbox), more);
    Regroup(given, passing + Uploads(inbox), more);
  }

  /** Every other step leaves them all in the air. */
  lemma OtherFlying(s: State, a: Step)
    requires Enabled(s, a) && !ByFrom(a) && !ByLoop(a) && !a.GiveFile? && !a.ClientSends? && !a.GiveStdin?
    ensures Flying(Do(s, a)) == Flying(s)
  {
    if a.StartCall? { StartShape(s); }
  }

  // ----------------------------------------------------------------- every reader

  /** u is the client's reply to one of the module's requests. */
  predicate Answers(log: Log, u: InMsg)
  {
    && u.Upload? && u.reply < |log.requests| && u.path == log.requests[u.reply]
    && u.reply in log.answers && log.answers[u.reply] == u.content
  }

  /** A reader was opened for its own request, and on some reply of the client's. */
  predicate Proper(log: Log, r: Opened)
  {
    r.k < |log.requests| && log.requests[r.k] == r.name && Answers(log, r.upload) && r.upload.content.Some?
  }

  /** Whatever is in the air answers a request, every reader is proper, and the module waits on its latest request. */
  ghost predicate Genuine(flying: seq<InMsg>, log: Log, pc: ModulePc)
  {
    && (forall u :: u in flying ==> Answers(log, u))
    && (forall i :: 0 <= i < |log.readers| ==> Proper(log, log.readers[i]))
    && (pc.AwaitingFile? ==> pc.k + 1 == |log.requests| && log.requests[pc.k] == pc.name)
  }

  /** The request the module is waiting on. */
  function Awaited(pc: ModulePc): (k: Option<nat>)
  {
    if pc.AwaitingFile? then Some(pc.k) else None
  }

  /**
   Only the reply to the request being waited on is in the air, at most once, and every reader is on
   its own reply.
   */
  ghost predicate Matched(flying: seq<InMsg>, log: Log, pc: ModulePc)
  {
    && (flying == [] || (|flying| == 1 && flying[0].Upload? && Awaited(pc) == Some(flying[0].reply)))
    && (forall j :: 0 <= j < |log.requests| ==> j in log.answers || Awaited(pc) == Some(j))
    && (forall i :: 0 <= i < |log.readers| ==> OnOwnReply(log.readers[i]))
  }

  /** The upload behind the reader is the reply to the reader's own request. */
  predicate OnOwnReply(r: Opened) { r.upload.Upload? && r.upload.reply == r.k }

  ghost predicate InTune(flying: seq<InMsg>, log: Log, pc: ModulePc)
  {
    Genuine(flying, log, pc) && (!log.abandoned ==> Matched(flying, log, pc))
  }

  ghost predicate Kept(s: State) { Sound(s) && InTune(Flying(s), s.log, s.mod.pc) }

  // ------------------------------------------------- what each kind of step does to it

  predicate SameFiles(a: Log, b: Log)
  {
    a.requests == b.requests && a.answers == b.answers && a.readers == b.readers && a.abandoned == b.abandoned
  }

  /** Files may get lost from the air, and the module may move between calls that wait for no file. */
  lemma QuietInTune(flying: seq<InMsg>, flying': seq<InMsg>, log: Log, log': Log, pc: ModulePc, pc': ModulePc)
    requires InTune(flying, log, pc) && Among(flying', flying)
    requires SameFiles(log, log')
    requires pc' == pc || (!pc.AwaitingFile? && !pc'.AwaitingFile?)
    ensures InTune(flying', log', pc')
  {
    forall u | u in flying' ensures Answers(log', u) { assert Answers(log, u); }
    forall i | 0 <= i < |log'.readers| ensures Proper(log', log'.readers[i]) { assert Proper(log, log.readers[i]); }
    if flying' != [] { assert flying'[0] in flying; }
  }

  lemma GiveInTune(u: InMsg, rest: seq<InMsg>, log: Log, pc: ModulePc)
    requires InTune([u] + rest, log, pc) && pc.AwaitingFile? && u.Upload? && u.content.Some?
    ensures InTune(rest, log.(readers := log.readers + [Opened(pc.name, pc.k, u)]), Idle)
  {
    var (r, log') := (Opened(pc.name, pc.k, u), log.(readers := log.readers + [Opened(pc.name, pc.k, u)]));
    assert Answers(log, u) by { assert u in [u] + rest; }
    forall v | v in rest ensures Answers(log', v) { assert v in [u] + rest; }
    forall i | 0 <= i < |log'.readers| ensures Proper(log', log'.readers[i]) {
      assert Proper(log, if i < |log.readers| then log.readers[i] else r);
    }
    if !log.abandoned {
      assert ([u] + rest)[0] == u && rest == [];
      forall i | 0 <= i < |log'.readers| ensures OnOwnReply(log'.readers[i]) {
        assert OnOwnReply(if i < |log.readers| then log.readers[i] else r);
      }
    }
  }

  lemma RequestInTune(flying: seq<InMsg>, log: Log, log': Log, pc: ModulePc, name: string)
    requires InTune(flying, log, pc) && !pc.AwaitingFile?
    requires log' == log.(taken := log'.taken, requests := log.requests + [name])
    ensures InTune(flying, log', AwaitingFile(name, |log.requests|))
  {
    forall u | u in flying ensures Answers(log', u) { assert Answers(log, u); }
    forall i | 0 <= i < |log'.readers| ensures Proper(log', log'.readers[i]) { assert Proper(log, log.readers[i]); }
  }

  lemma SendInTune(flying: seq<InMsg>, log: Log, pc: ModulePc, u: InMsg)
    requires InTune(flying, log, pc)
    requires u.Upload? && u.reply < |log.requests| && u.path == log.requests[u.reply] && u.reply !in log.answers
    ensures InTune(flying + [u], log.(answers := log.answers[u.reply := u.content]), pc)
  {
    var log' := log.(answers := log.answers[u.reply := u.content]);
    forall v | v in flying + [u] ensures Answers(log', v) { assert v == u || Answers(log, v); }
    forall i | 0 <= i < |log'.readers| ensures Proper(log', log'.readers[i]) { assert Proper(log, log.readers[i]); }
    if flying != [] { assert flying[0] in flying && Answers(log, flying[0]); }
  }

  /** Once a request is given up, nothing is claimed about which reply a reader is on. */
  lemma AbandonInTune(flying: seq<InMsg>, log: Log, log': Log, pc: ModulePc)
    requires InTune(flying, log, pc) && log' == log.(dropped := log'.dropped, abandoned := true)
    ensures InTune(flying, log', Idle)
  {
    forall u | u in flying ensures Answers(log', u) { assert Answers(log, u); }
    forall i | 0 <= i < |log'.readers| ensures Proper(log', log'.readers[i]) { assert Proper(log, log.readers[i]); }
  }

  lemma GiveKept(s: State)
    requires Kept(s) && Enabled(s, GiveFile)
    ensures Kept(Do(s, GiveFile))
  {
    StepSound(s, GiveFile);
    GivenFlying(s, GiveFile);
    GiveInTune(s.from.upload, Flying(Do(s, GiveFile)), s.log, s.mod.pc);
  }

  lemma RequestKept(s: State)
    requires Kept(s) && Enabled(s, TakeOutput) && s.mod.pc.call.RequestFile?
    ensures Kept(Do(s, TakeOutput))
  {
    StepSound(s, TakeOutput);
    OtherFlying(s, TakeOutput);
    RequestInTune(Flying(s), s.log, Do(s, TakeOutput).log, s.mod.pc, s.mod.pc.call.name);
  }

  lemma SendKept(s: State, m: InMsg)
    requires Kept(s) && Honest(s, ClientSends(m))
    ensures Kept(Do(s, ClientSends(m)))
  {
    StepSound(s, ClientSends(m));
    SentFlying(s, m);
    if m.Upload? {
      SendInTune(Flying(s), s.log, s.mod.pc, m);
    } else {
      assert Flying(s) + [] == Flying(s);
      QuietInTune(Flying(s), Flying(s), s.log, Do(s, ClientSends(m)).log, s.mod.pc, s.mod.pc);
    }
  }

  lemma AbandonKept(s: State)
    requires Kept(s) && Enabled(s, ModuleSeesDone) && s.mod.pc.AwaitingFile?
    ensures Kept(Do(s, ModuleSeesDone))
  {
    StepSound(s, ModuleSeesDone);
    OtherFlying(s, ModuleSeesDone);
    AbandonInTune(Flying(s), s.log, Do(s, ModuleSeesDone).log, s.mod.pc);
  }

  lemma StdinFlying(s: State)
    requires Enabled(s, GiveStdin)
    ensures Flying(Do(s, GiveStdin)) == Flying(s)
  {
  }

  lemma StepKept(s: State, a: Step)
    requires Kept(s) && Enabled(s, a) && Honest(s, a)
    ensures Kept(Do(s, a))
  {
    StepSound(s, a);
    if a.GiveFile? { GiveKept(s); }
    else if a.TakeOutput? && s.mod.pc.call.RequestFile? { RequestKept(s); }
    else if a.ClientSends? { SendKept(s, a.m); }
    else if a.ModuleSeesDone? && s.mod.pc.AwaitingFile? { AbandonKept(s); }
    else {
      RestFlying(s, a);
      RestFrame(s, a);
      QuietInTune(Flying(s), Flying(Do(s, a)), s.log, Do(s, a).log, s.mod.pc, Do(s, a).mod.pc);
    }
  }

  lemma RestFlying(s: State, a: Step)
    requires Sound(s) && Enabled(s, a) && !a.GiveFile? && !a.ClientSends?
    ensures Among(Flying(Do(s, a)), Flying(s))
  {
    if a.StealFile? { GivenFlying(s, a); }
    else if ByFrom(a) { FromFlying(s, a); }
    else if ByLoop(a) { LoopFlying(s, a); }
    else if a.GiveStdin? { StdinFlying(s); }
    else { OtherFlying(s, a); }
  }

  lemma RestFrame(s: State, a: Step)
    requires Enabled(s, a) && !a.GiveFile? && !a.ClientSends?
    requires !(a.TakeOutput? && s.mod.pc.call.RequestFile?) && !(a.ModuleSeesDone? && s.mod.pc.AwaitingFile?)
    ensures var s' := Do(s, a);
      && SameFiles(s.log, s'.log)
      && (s'.mod.pc == s.mod.pc || (!s.mod.pc.AwaitingFile? && !s'.mod.pc.AwaitingFile?))
  {
    if a.StartCall? { StartShape(s); }
    else if !ByModule(a) && !ByTo(a) { OthersKeep(s, a); }
  }

  lemma {:induction false} AlwaysKept(calls: seq<Call>, steps: seq<Step>)
    requires Path(Begin(calls), steps) && HonestPath(Begin(calls), steps)
    ensures Kept(After(Begin(calls), steps))
  {
    if steps != [] {
      var front := steps[..|steps| - 1];
      AlwaysKept(calls, front);
      StepKept(After(Begin(calls), front), steps[|steps| - 1]);
    }
  }

  /**
   With an honest client, in every interleaving: a reader that RequestFile has
   returned stands on some reply of the client's to a request of this module;
   and unless the module gave up an earlier request at teardown, it is the reply
   to this very request, under the requested name, so that reading it to the end
   with reads of any sizes yields exactly the content the client sent for it.
   */
  lemma ReaderHasRequestedContent(calls: seq<Call>, steps: seq<Step>, i: nat, sizes: seq<nat>)
    requires Path(Begin(calls), steps) && HonestPath(Begin(calls), steps)
    requires i < |After(Begin(calls), steps).log.readers|
    ensures var log := After(Begin(calls), steps).log;
      var r := log.readers[i];
      && Proper(log, r)
      && (!log.abandoned ==>
            && r.upload.reply == r.k && r.upload.path == r.name && log.answers[r.k] == r.upload.content
            && var read := ChanReader.ReadMany(sizes,
                                               ChanReader.Reader([], ChanReader.Closed([r.upload.content.value])));
               read.2 == ChanReader.Eof ==> read.0 == log.answers[r.k].value)
  {
    AlwaysKept(calls, steps);
    var r := After(Begin(calls), steps).log.readers[i];
    var content := r.upload.content.value;
    var reader := ChanReader.Reader([], ChanReader.Closed([content]));
    if ChanReader.ReadMany(sizes, reader).2 == ChanReader.Eof {
      ChanReader.ReadToEofIsWholeStream(sizes, [], [content]);
      assert Flatten([content]) == content by { FlattenCons(content, []); assert [content] + [] == [content]; }
    }
  }

  // ---------------------------------------------------------------- two races

  /** s is what steps comes to, an interleaving with a client that is honest and prompted. */
  ghost predicate Leads(calls: seq<Call>, steps: seq<Step>, s: State)
  {
    && Path(Begin(calls), steps) && HonestPath(Begin(calls), steps) && PromptedPath(Begin(calls), steps)
    && After(Begin(calls), steps) == s
  }

  lemma Then(calls: seq<Call>, steps: seq<Step>, s: State, a: Step) returns (more: seq<Step>, s': State)
    requires Leads(calls, steps, s) && Enabled(s, a) && Prompted(s, a)
    ensures more == steps + [a] && s' == Do(s, a) && Leads(calls, more, s')
  {
    more, s' := steps + [a], Do(s, a);
    assert more[..|more| - 1] == steps;
  }

  /** The module makes its next file request and the worker takes it. */
  lemma Ask(calls: seq<Call>, steps: seq<Step>, s: State, n: string) returns (more: seq<Step>, s': State)
    requires Leads(calls, steps, s) && s.to == ToSelect
    requires s.mod.pc == Idle && s.mod.todo != [] && s.mod.todo[0] == RequestFile(n)
    ensures Leads(calls, more, s')
    ensures s' == s.(mod := Module(AwaitingFile(n, |s.log.requests|), s.mod.done, s.mod.todo[1..]), to := Naming(n),
                     log := s.log.(taken := s.log.taken + [FileRequest(n)], requests := s.log.requests + [n]))
  {
    more, s' := Then(calls, steps, s, StartCall);
    assert s' == s.(mod := Module(Offering(RequestFile(n)), s.mod.done, s.mod.todo[1..]));
    more, s' := Then(calls, more, s', TakeOutput);
  }

  /** The client answers a request and the answer comes to the worker. */
  lemma Deliver(calls: seq<Call>, steps: seq<Step>, s: State, u: InMsg) returns (more: seq<Step>, s': State)
    requires Leads(calls, steps, s) && s.loop == Receiving && s.inbox == [] && s.from == FromSelect
    requires u.Upload? && Prompted(s, ClientSends(u))
    ensures Leads(calls, more, s')
    ensures s' == s.(from := Judging(u), log := s.log.(answers := s.log.answers[u.reply := u.content]))
  {
    more, s' := Then(calls, steps, s, ClientSends(u));
    var sent := s.(log := s.log.(answers := s.log.answers[u.reply := u.content]));
    assert s' == sent.(inbox := [u]);
    more, s' := Arrive(calls, more, s', u);
    assert s' == sent.(from := Judging(u));
  }

  lemma Arrive(calls: seq<Call>, steps: seq<Step>, s: State, u: InMsg) returns (more: seq<Step>, s': State)
    requires Leads(calls, steps, s) && s.loop == Receiving && s.inbox == [u] && s.from == FromSelect && u.Upload?
    ensures Leads(calls, more, s') && s' == s.(from := Judging(u), inbox := [])
  {
    more, s' := Then(calls, steps, s, ReceiveMessage);
    assert s' == s.(loop := Passing(Message(u)), inbox := []);
    more, s' := Then(calls, more, s', PassResult);
  }

  function OneRequest(a: string): (log: Log)
  {
    NOTHING.(taken := [FileRequest(a)], sent := [FileRequest(a)], requests := [a])
  }

  /** The first request is with the client. */
  lemma FirstAsked(a: string, b: string) returns (steps: seq<Step>, s: State)
    ensures Leads([RequestFile(a), RequestFile(b)], steps, s)
    ensures s == State(Module(AwaitingFile(a, 0), [], [RequestFile(b)]), ToSelect, FromSelect, Receiving, a, [],
                       ErrChannel.FRESH, false, OneRequest(a))
  {
    var calls := [RequestFile(a), RequestFile(b)];
    steps, s := Ask(calls, [], Begin(calls), a);
    steps, s := Then(calls, steps, s, SetRequestName);
    steps, s := Then(calls, steps, s, SendSucceeds);
  }

  /** The first request is under way: its reply is with the worker, accepted, and the module waits for it. */
  lemma FirstRequest(a: string, b: string, content: Data) returns (steps: seq<Step>, s: State)
    requires a != ""
    ensures Leads([RequestFile(a), RequestFile(b)], steps, s)
    ensures s == State(Module(AwaitingFile(a, 0), [], [RequestFile(b)]), ToSelect,
                       GivingFile(Upload(a, Some(content), 0)), Receiving, a, [],
                       ErrChannel.FRESH, false, OneRequest(a).(answers := map[0 := Some(content)]))
  {
    var calls := [RequestFile(a), RequestFile(b)];
    steps, s := FirstAsked(a, b);
    steps, s := Deliver(calls, steps, s, Upload(a, Some(content), 0));
    steps, s := Then(calls, steps, s, JudgeUpload);
  }

  /**
   Why the condition is needed: the module gives up its first request at
   teardown while the worker still offers the reply, asks for another file, and
   both selects take the exchange although the context is done.
   */
  lemma AbandonedReplyResurfaces(a: string, b: string, content: Data) returns (steps: seq<Step>, s: State)
    requires a != "" && a != b
    ensures Leads([RequestFile(a), RequestFile(b)], steps, s) && s.log.abandoned
    ensures s.log.readers == [Opened(b, 1, Upload(a, Some(content), 0))]
  {
    var calls := [RequestFile(a), RequestFile(b)];
    steps, s := FirstRequest(a, b, content);
    steps, s := Then(calls, steps, s, CancelParent);
    steps, s := Then(calls, steps, s, ModuleSeesDone);
    steps, s := Ask(calls, steps, s, b);
    steps, s := Then(calls, steps, s, GiveFile);
  }

  /**
   Why not every request gets its reply: the other worker receives on the same
   channel and may take it, sending the client's own file back to the client. The
   module waits on, and there is no further reply to come.
   */
  lemma ReplyEchoedToClient(a: string, b: string, content: Data) returns (steps: seq<Step>, s: State)
    requires a != ""
    ensures Leads([RequestFile(a), RequestFile(b)], steps, s) && !s.cancelled && s.log.stolen
    ensures s.log.sent == [FileRequest(a), File(a, content)] && s.mod.pc == AwaitingFile(a, 0) && Flying(s) == []
  {
    var calls := [RequestFile(a), RequestFile(b)];
    steps, s := FirstRequest(a, b, content);
    steps, s := Then(calls, steps, s, StealFile);
    steps, s := Then(calls, steps, s, NameFile);
    steps, s := Then(calls, steps, s, SendSucceeds);
  }

  /**
   The worker forgets the current file only after it has handed the reply over,
   so it can wipe the name of the next request: a client that answered both
   requests properly is then turned away, in a session that nobody cancelled.
   */
  lemma HonestClientTurnedAway(a: string, b: string, content: Data) returns (steps: seq<Step>, s: State)
    requires a != ""
    ensures Leads([RequestFile(a), RequestFile(b)], steps, s) && !s.cancelled
    ensures s.log.answers == map[0 := Some(content), 1 := Some(content)] && s.mod.pc == AwaitingFile(b, 1)
    ensures s.broker.fromClient.stage == ErrChannel.Returned(Some(ErrChannel.BadFileTransfer)) && s.log.wiped
  {
    var calls := [RequestFile(a), RequestFile(b)];
    steps, s := SecondRequest(a, b, content);
    steps, s := Deliver(calls, steps, s, Upload(b, Some(content), 1));
    steps, s := Then(calls, steps, s, JudgeUpload);
  }

  /** The second request is with the client, and its name has been wiped. */
  lemma SecondRequest(a: string, b: string, content: Data) returns (steps: seq<Step>, s: State)
    requires a != ""
    ensures Leads([RequestFile(a), RequestFile(b)], steps, s) && !s.cancelled && s.currentFile == ""
    ensures s.mod.pc == AwaitingFile(b, 1) && s.from == FromSelect && s.loop == Receiving && s.inbox == []
    ensures s.log.requests == [a, b] && s.log.answers == map[0 := Some(content)]
    ensures CountRequests(s.log.sent) == 2 && s.log.wiped
  {
    var calls := [RequestFile(a), RequestFile(b)];
    steps, s := FirstRequest(a, b, content);
    steps, s := Then(calls, steps, s, GiveFile);
    steps, s := Ask(calls, steps, s, b);
    steps, s := NameWiped(calls, steps, s, b);
    CountSnoc([FileRequest(a)], FileRequest(b));
  }

  /** The request's name is recorded, wiped for the reply before it, and then sent. */
  lemma NameWiped(calls: seq<Call>, steps: seq<Step>, s: State, n: string) returns (more: seq<Step>, s': State)
    requires Leads(calls, steps, s) && s.to == Naming(n) && s.from == FromClearing && s.mod.pc.AwaitingFile?
    ensures Leads(calls, more, s')
    ensures s' == s.(to := ToSelect, from := FromSelect, currentFile := "",
                     log := s.log.(sent := s.log.sent + [FileRequest(n)], wiped := true))
  {
    more, s' := Then(calls, steps, s, SetRequestName);
    more, s' := Then(calls, more, s', ClearGiven);
    more, s' := Then(calls, more, s', SendSucceeds);
  }
}

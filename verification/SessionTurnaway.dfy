/** Which modules can have a proper reply of the client's turned away. */
module SessionTurnaway {
  import opened Base
  import opened Session
  import opened SessionFiles
  import opened SessionSend
  import opened SessionVerdict
  import opened SessionMixup
  import opened SessionAstray

  /** The worker is about to turn away a reply that has content. */
  predicate TurnsAway(s: State)
  {
    Enabled(s, JudgeUpload) && s.from.upload.content.Some? && DoJudge(s).from.FromEnded?
  }

  /** In some interleaving a prompted client has such a reply turned away. */
  ghost predicate CanTurnAway(calls: seq<Call>)
  {
    exists steps ::
      Path(Begin(calls), steps) && PromptedPath(Begin(calls), steps) && TurnsAway(After(Begin(calls), steps))
  }

  /** The same with no request given up. */
  ghost predicate CanTurnAwayWaiting(calls: seq<Call>)
  {
    exists steps ::
      && Path(Begin(calls), steps) && PromptedPath(Begin(calls), steps)
      && TurnsAway(After(Begin(calls), steps)) && !After(Begin(calls), steps).log.abandoned
  }

  predicate MovesFile(c: Call) { c.RequestFile? || c.SendFile? }

  ghost predicate RequestsUnnamed(calls: seq<Call>)
  {
    exists i :: 0 <= i < |calls| && calls[i] == RequestFile("")
  }

  /** A request comes before another request or a file to send. */
  ghost predicate RequestsEarly(calls: seq<Call>)
  {
    exists i, j :: 0 <= i < j < |calls| && calls[i].RequestFile? && MovesFile(calls[j])
  }

  ghost predicate RequestsTwice(calls: seq<Call>)
  {
    exists i, j :: 0 <= i < j < |calls| && calls[i].RequestFile? && calls[j].RequestFile?
  }

  // --------------------------------------- one named request, and files only before it

  ghost predicate LoneRequest(calls: seq<Call>) { !RequestsUnnamed(calls) && !RequestsEarly(calls) }

  predicate NoFiles(calls: seq<Call>) { forall j :: 0 <= j < |calls| ==> !MovesFile(calls[j]) }

  ghost predicate Lone(m: Module, requests: seq<string>)
  {
    && LoneRequest(m.todo)
    && (m.pc.Offering? && m.pc.call.RequestFile? ==> m.pc.call.name != "" && requests == [] && NoFiles(m.todo))
    && (requests != [] ==> |requests| == 1 && requests[0] != "" && NoFiles(m.todo) && !SendingFile(m.pc))
  }

  /** From the request on, nothing but it sets the current file until its reply is judged. */
  ghost predicate Undisturbed(to: ToPc, from: FromPc, current: string, log: Log, flying: seq<InMsg>)
  {
    && (log.requests == [] ==> !from.FromClearing? && !Asking(to))
    && (log.requests != [] ==>
          && (to.Naming? ==> to.name == log.requests[0])
          && (Asking(to) ==> 0 !in log.answers)
          && (0 !in log.answers ==>
                !from.FromClearing? && !Filing(to) && (to.Naming? || current == log.requests[0]))
          && (flying != [] ==> current == log.requests[0] && !Filing(to) && !Asking(to))
          && |flying| <= 1
          && (from.FromClearing? ==> flying == []))
  }

  ghost predicate Calm(s: State)
  {
    && Lone(s.mod, s.log.requests)
    && Undisturbed(s.to, s.from, s.currentFile, s.log, Flying(s))
    && Counted(s.to, s.log)
  }

  lemma StartLone(m: Module, m': Module, requests: seq<string>)
    requires Lone(m, requests) && m.pc.Idle? && m.todo != [] && m'.todo == m.todo[1..]
    requires m'.pc.Offering? ==> m'.pc.call == m.todo[0]
    requires SendingFile(m'.pc) ==> m.todo[0].SendFile?
    ensures Lone(m', requests)
  {
    assert forall i :: 0 <= i < |m.todo| - 1 ==> m.todo[1..][i] == m.todo[i + 1];
    assert requests != [] ==> !MovesFile(m.todo[0]);
    if m.todo[0].RequestFile? {
      assert m.todo[0] != RequestFile("") && m.todo[0] == RequestFile(m.todo[0].name);
      assert forall j :: 0 < j < |m.todo| ==> !MovesFile(m.todo[j]);
    }
  }

  lemma StartCalm(s: State)
    requires Calm(s) && Enabled(s, StartCall)
    ensures Calm(Do(s, StartCall))
  {
    StartShape(s);
    var m' := Do(s, StartCall).mod;
    assert m'.pc.Offering? ==> m'.pc.call == s.mod.todo[0];
    StartLone(s.mod, m', s.log.requests);
  }

  lemma FirstFlying(s: State)
    requires Kept(s)
    ensures Flying(s) == [] || Answers(s.log, Flying(s)[0])
  {
    if Flying(s) != [] { assert Flying(s)[0] in Flying(s); }
  }

  /** Nothing is in the air before there is a request, or before there is a reply. */
  lemma NothingYet(s: State)
    requires Kept(s) && |s.log.requests| <= 1 && (s.log.requests == [] || 0 !in s.log.answers)
    ensures Flying(s) == []
  {
    FirstFlying(s);
  }

  lemma GivenAnswers(s: State)
    requires Kept(s) && Calm(s) && s.from.GivingFile?
    ensures s.log.requests != [] && 0 in s.log.answers && Flying(s) == [s.from.upload]
  {
    assert Flying(s)[0] == s.from.upload;
    assert s.from.upload in Flying(s);
  }

  lemma GivenCalm(s: State, a: Step)
    requires Kept(s) && Calm(s) && Enabled(s, a) && (a.GiveFile? || a.StealFile?)
    ensures Calm(Do(s, a))
  {
    GivenAnswers(s);
    GivenFlying(s, a);
  }

  lemma ModuleCalm(s: State, a: Step)
    requires Calm(s) && Enabled(s, a) && (a.SourceFails? || a.SetSendName? || a.ModuleSeesDone?)
    ensures Calm(Do(s, a))
  {
    OtherFlying(s, a);
  }

  lemma StdinCalm(s: State)
    requires Calm(s) && Enabled(s, GiveStdin)
    ensures Calm(Do(s, GiveStdin))
  {
    StdinFlying(s);
  }

  lemma TakeCalm(s: State)
    requires Kept(s) && Calm(s) && Enabled(s, TakeOutput)
    ensures Calm(Do(s, TakeOutput))
  {
    OtherFlying(s, TakeOutput);
    if s.mod.pc.call.RequestFile? { NothingYet(s); }
  }

  lemma TakeFileCalm(s: State)
    requires Calm(s) && Enabled(s, TakeFile)
    ensures Calm(Do(s, TakeFile))
  {
    OtherFlying(s, TakeFile);
  }

  lemma SentCalm(s: State)
    requires Calm(s) && Enabled(s, SendSucceeds)
    ensures Calm(Do(s, SendSucceeds))
  {
    OtherFlying(s, SendSucceeds);
    var to' := if s.to.msg.File? then ToClearing else ToSelect;
    assert Do(s, SendSucceeds) == s.(to := to', log := s.log.(sent := s.log.sent + [s.to.msg]));
    SentCounted(s.to, to', s.log);
  }

  lemma ToCalm(s: State, a: Step)
    requires Calm(s) && Enabled(s, a) && ByTo(a) && !a.SendSucceeds?
    ensures Calm(Do(s, a))
  {
    OtherFlying(s, a);
    if a.SetRequestName? { SetRequestCalm(s); }
    else if a.ClearSent? { ClearSentCalm(s); }
    else { HandOnCalm(s, a); }
  }

  lemma SetRequestCalm(s: State)
    requires Calm(s) && Enabled(s, SetRequestName) && Flying(Do(s, SetRequestName)) == Flying(s)
    ensures Calm(Do(s, SetRequestName))
  {
    assert Do(s, SetRequestName) == s.(currentFile := s.to.name, to := Sending(FileRequest(s.to.name)));
  }

  lemma ClearSentCalm(s: State)
    requires Calm(s) && Enabled(s, ClearSent) && Flying(Do(s, ClearSent)) == Flying(s)
    ensures Calm(Do(s, ClearSent))
  {
    assert Do(s, ClearSent) == s.(currentFile := "", to := ToSelect);
  }

  lemma HandOnCalm(s: State, a: Step)
    requires Calm(s) && Enabled(s, a) && (a.SendFails? || a.NameFile? || a.ToSeesDone?) && Flying(Do(s, a)) == Flying(s)
    ensures Calm(Do(s, a))
  {
    var s' := Do(s, a);
    assert s'.mod == s.mod && s'.from == s.from && s'.currentFile == s.currentFile && s'.log == s.log;
    assert !Asking(s'.to) && (Filing(s'.to) ==> Filing(s.to)) && (s.to.Naming? ==> s'.to.Naming?);
  }

  /** The worker moves on with nothing newly given, and no more in the air than before. */
  lemma FewerFlying(to: ToPc, from: FromPc, from': FromPc, current: string, log: Log, log': Log,
                    flying: seq<InMsg>, flying': seq<InMsg>)
    requires Undisturbed(to, from, current, log, flying) && Among(flying', flying) && !from'.FromClearing?
    requires log'.requests == log.requests && log'.answers == log.answers
    ensures Undisturbed(to, from', current, log', flying')
  {
    assert flying == [] ==> flying' == [];
  }

  lemma FromCalm(s: State, a: Step)
    requires Calm(s) && Enabled(s, a) && ByFrom(a) && !a.StealFile?
    ensures Calm(Do(s, a))
  {
    OthersKeep(s, a);
    FromClears(s, a);
    var s' := Do(s, a);
    if a.ClearGiven? { ClearGivenCalm(s); } else {
      FromFlying(s, a);
      FewerFlying(s.to, s.from, s'.from, s.currentFile, s.log, s'.log, Flying(s), Flying(s'));
    }
  }

  lemma ClearGivenCalm(s: State)
    requires Calm(s) && Enabled(s, ClearGiven)
    ensures Calm(Do(s, ClearGiven))
  {
    FromFlying(s, ClearGiven);
    assert Flying(Do(s, ClearGiven)) == [];
  }

  lemma FromClears(s: State, a: Step)
    requires Enabled(s, a) && ByFrom(a) && !a.StealFile?
    ensures !Do(s, a).from.FromClearing?
    ensures Do(s, a).currentFile == if a.ClearGiven? then "" else s.currentFile
  {
  }

  lemma LoopCalm(s: State, a: Step)
    requires Calm(s) && Enabled(s, a) && ByLoop(a)
    ensures Calm(Do(s, a))
  {
    OthersKeep(s, a);
    LoopFlying(s, a);
    assert Flying(s) == [] ==> Flying(Do(s, a)) == [];
    assert Do(s, a).from == s.from && Do(s, a).currentFile == s.currentFile;
  }

  lemma ClientCalm(s: State, m: InMsg)
    requires Kept(s) && Calm(s) && Prompted(s, ClientSends(m))
    ensures Calm(Do(s, ClientSends(m)))
  {
    var s' := Do(s, ClientSends(m));
    SentFlying(s, m);
    assert s'.mod == s.mod && s'.to == s.to && s'.from == s.from && s'.currentFile == s.currentFile;
    if m.Upload? {
      assert m.reply == 0 && !Asking(s.to);
      NothingYet(s);
      assert s'.log == s.log.(answers := s.log.answers[0 := m.content]);
    }
  }

  lemma ReportCalm(s: State, a: Step)
    requires Calm(s) && Enabled(s, a) && (a.Report? || a.CancelParent?)
    ensures Calm(Do(s, a))
  {
    OtherFlying(s, a);
  }

  lemma StepCalm(s: State, a: Step)
    requires Kept(s) && Calm(s) && Enabled(s, a) && Prompted(s, a)
    ensures Calm(Do(s, a))
  {
    if a.StartCall? { StartCalm(s); }
    else if a.TakeOutput? { TakeCalm(s); }
    else if a.TakeFile? { TakeFileCalm(s); }
    else if a.GiveStdin? { StdinCalm(s); }
    else if a.GiveFile? || a.StealFile? { GivenCalm(s, a); }
    else if ByModule(a) { ModuleCalm(s, a); }
    else if a.SendSucceeds? { SentCalm(s); }
    else if ByTo(a) { ToCalm(s, a); }
    else if ByFrom(a) { FromCalm(s, a); }
    else if ByLoop(a) { LoopCalm(s, a); }
    else if a.ClientSends? { ClientCalm(s, a.m); }
    else { ReportCalm(s, a); }
  }

  lemma {:induction false} AlwaysCalm(calls: seq<Call>, steps: seq<Step>)
    requires LoneRequest(calls) && Path(Begin(calls), steps) && PromptedPath(Begin(calls), steps)
    ensures Kept(After(Begin(calls), steps)) && Calm(After(Begin(calls), steps))
  {
    if steps != [] {
      var front, a := steps[..|steps| - 1], steps[|steps| - 1];
      AlwaysCalm(calls, front);
      StepKept(After(Begin(calls), front), a);
      StepCalm(After(Begin(calls), front), a);
    }
  }

  lemma JudgedCalmly(s: State)
    requires Kept(s) && Calm(s) && Enabled(s, JudgeUpload)
    ensures s.currentFile == s.from.upload.path && s.currentFile != ""
  {
    assert Flying(s)[0] == s.from.upload;
    FirstFlying(s);
  }

  lemma CalmAccepts(s: State)
    requires Kept(s) && Calm(s)
    ensures !TurnsAway(s)
  {
    if Enabled(s, JudgeUpload) { JudgedCalmly(s); }
  }

  // ------------------------------------------------ otherwise a reply can be turned away

  lemma UnnamedTurnedAway(calls: seq<Call>, i: nat) returns (steps: seq<Step>, s: State)
    requires i < |calls| && calls[i] == RequestFile("")
    ensures Leads(calls, steps, s) && TurnsAway(s) && !s.log.abandoned
  {
    steps, s := ComeTo(calls, i);
    steps, s := UnnamedAnswered(calls, steps, s);
  }

  lemma UnnamedAnswered(calls: seq<Call>, steps: seq<Step>, s: State) returns (more: seq<Step>, s': State)
    requires Leads(calls, steps, s) && s.mod.pc == Idle && s.mod.todo != [] && s.mod.todo[0] == RequestFile("")
    requires s.to == ToSelect && s.from == FromSelect && s.loop == Receiving && s.inbox == []
    requires s.log.requests == [] && s.log.answers == map[] && !s.log.abandoned
    ensures Leads(calls, more, s') && TurnsAway(s') && !s'.log.abandoned
  {
    more, s' := Ask(calls, steps, s, "");
    more, s' := Asked(calls, more, s', "");
    more, s' := AnswerTurnedAway(calls, more, s', Upload("", Some([0]), 0));
  }

  /** A reply that comes while no name is recorded is turned away. */
  lemma AnswerTurnedAway(calls: seq<Call>, steps: seq<Step>, s: State, u: InMsg) returns (more: seq<Step>, s': State)
    requires Leads(calls, steps, s) && s.loop == Receiving && s.inbox == [] && s.from == FromSelect
    requires s.currentFile == "" && u.Upload? && u.content.Some? && Prompted(s, ClientSends(u))
    ensures Leads(calls, more, s') && TurnsAway(s') && s'.log.abandoned == s.log.abandoned
  {
    more, s' := Deliver(calls, steps, s, u);
  }

  /** The first reply has been given to the module, and the worker is yet to clear its name. */
  ghost predicate FirstGiven(calls: seq<Call>, i: nat, s: State)
    requires i < |calls| && calls[i].RequestFile?
  {
    && s.cancelled && s.mod == Module(Idle, calls[..i + 1], calls[i + 1..])
    && s.to == ToSelect && s.from == FromClearing && s.loop == Receiving && s.inbox == []
    && |s.log.requests| == 1 && s.log.answers.Keys == {0} && CountRequests(s.log.sent) == 1 && !s.log.abandoned
  }

  lemma GiveFirst(calls: seq<Call>, i: nat) returns (steps: seq<Step>, s: State)
    requires i < |calls| && calls[i].RequestFile? && calls[i].name != ""
    ensures Leads(calls, steps, s) && FirstGiven(calls, i, s)
  {
    SplitAt(calls, i);
    steps, s := ComeTo(calls, i);
    steps, s := Offered(calls, steps, s, calls[i].name);
    steps, s := Then(calls, steps, s, GiveFile);
  }

  /** The second request's name is wiped. */
  lemma SecondTurnedAway(calls: seq<Call>, i: nat, j: nat) returns (steps: seq<Step>, s: State)
    requires i < j < |calls| && calls[i].RequestFile? && calls[i].name != "" && calls[j].RequestFile?
    ensures Leads(calls, steps, s) && TurnsAway(s) && !s.log.abandoned
  {
    steps, s := GiveFirst(calls, i);
    steps, s := SkipTo(calls, steps, s, i, j);
    steps, s := WipedAndAnswered(calls, steps, s, calls[j].name);
  }

  lemma WipedAndAnswered(calls: seq<Call>, steps: seq<Step>, s: State, n: string)
    returns (more: seq<Step>, s': State)
    requires Leads(calls, steps, s) && s.mod.pc == Idle && s.mod.todo != [] && s.mod.todo[0] == RequestFile(n)
    requires s.to == ToSelect && s.from == FromClearing && s.loop == Receiving && s.inbox == []
    requires |s.log.requests| == 1 && s.log.answers.Keys == {0} && CountRequests(s.log.sent) == 1 && !s.log.abandoned
    ensures Leads(calls, more, s') && TurnsAway(s') && !s'.log.abandoned
  {
    more, s' := AskedAndWiped(calls, steps, s, n);
    more, s' := AnswerTurnedAway(calls, more, s', Upload(n, Some([0]), 1));
  }

  lemma AskedAndWiped(calls: seq<Call>, steps: seq<Step>, s: State, n: string) returns (more: seq<Step>, s': State)
    requires Leads(calls, steps, s) && s.mod.pc == Idle && s.mod.todo != [] && s.mod.todo[0] == RequestFile(n)
    requires s.to == ToSelect && s.from == FromClearing && |s.log.requests| == 1
    ensures Leads(calls, more, s') && s'.loop == s.loop && s'.inbox == s.inbox && s'.from == FromSelect
    ensures s'.currentFile == "" && s'.log.requests == s.log.requests + [n] && s'.log.answers == s.log.answers
    ensures CountRequests(s'.log.sent) == CountRequests(s.log.sent) + 1 && s'.log.abandoned == s.log.abandoned
  {
    more, s' := Ask(calls, steps, s, n);
    more, s' := NameWiped(calls, more, s', n);
    CountSnoc(s.log.sent, FileRequest(n));
  }

  /** The name of a request that was given up is cleared after a file was sent. */
  lemma GivenUpTurnedAway(calls: seq<Call>, i: nat, j: nat) returns (steps: seq<Step>, s: State)
    requires i < j < |calls| && calls[i].RequestFile? && calls[i].name != "" && calls[j].SendFile?
    ensures Leads(calls, steps, s) && TurnsAway(s)
  {
    steps, s := GiveUpFirst(calls, i);
    steps, s := SkipTo(calls, steps, s, i, j);
    steps, s := ClearedAndAnswered(calls, steps, s, calls[i].name, calls[j].name, calls[j].data);
  }

  /** A request was given up before the worker recorded its name. */
  ghost predicate FirstForgone(calls: seq<Call>, i: nat, s: State)
    requires i < |calls| && calls[i].RequestFile?
  {
    && s.cancelled && s.mod == Module(Idle, calls[..i + 1], calls[i + 1..])
    && s.to == Naming(calls[i].name) && s.from == FromSelect && s.loop == Receiving && s.inbox == []
    && s.currentFile == "" && s.log.requests == [calls[i].name] && s.log.answers == map[] && s.log.sent == []
  }

  lemma GiveUpFirst(calls: seq<Call>, i: nat) returns (steps: seq<Step>, s: State)
    requires i < |calls| && calls[i].RequestFile?
    ensures Leads(calls, steps, s) && FirstForgone(calls, i, s)
  {
    SplitAt(calls, i);
    steps, s := ComeTo(calls, i);
    steps, s := Ask(calls, steps, s, calls[i].name);
    steps, s := GiveUp(calls, steps, s);
  }

  lemma ClearedAndAnswered(calls: seq<Call>, steps: seq<Step>, s: State, asked: string, name: string, data: Data)
    returns (more: seq<Step>, s': State)
    requires Leads(calls, steps, s) && s.mod.pc == Idle && s.mod.todo != [] && s.mod.todo[0] == SendFile(name, data)
    requires s.to == Naming(asked) && s.from == FromSelect && s.loop == Receiving && s.inbox == []
    requires s.currentFile == "" && s.log.requests == [asked] && s.log.answers == map[] && s.log.sent == []
    ensures Leads(calls, more, s') && TurnsAway(s')
  {
    more, s' := SentOver(calls, steps, s, asked, name, data);
    more, s' := Deliver(calls, more, s', Upload(asked, Some([0]), 0));
    more, s' := ClearedWhileJudging(calls, more, s');
  }

  lemma ClearedWhileJudging(calls: seq<Call>, steps: seq<Step>, s: State) returns (more: seq<Step>, s': State)
    requires Leads(calls, steps, s) && s.to == ToClearing
    requires s.from.Judging? && s.from.upload.Upload? && s.from.upload.content.Some?
    ensures Leads(calls, more, s') && TurnsAway(s')
  {
    more, s' := Then(calls, steps, s, ClearSent);
    assert s' == s.(currentFile := "", to := ToSelect);
  }

  lemma SentOver(calls: seq<Call>, steps: seq<Step>, s: State, asked: string, name: string, data: Data)
    returns (more: seq<Step>, s': State)
    requires Leads(calls, steps, s) && s.mod.pc == Idle && s.mod.todo != [] && s.mod.todo[0] == SendFile(name, data)
    requires s.to == Naming(asked) && s.currentFile == "" && s.log.sent == []
    ensures Leads(calls, more, s') && s'.to == ToClearing
    ensures s'.from == s.from && s'.loop == s.loop && s'.inbox == s.inbox
    ensures s'.log.requests == s.log.requests && s'.log.answers == s.log.answers && CountRequests(s'.log.sent) == 1
  {
    more, s' := NameOverwritten(calls, steps, s, asked, name, data);
    more, s' := FileSent(calls, more, s', data);
    CountSnoc([], FileRequest(asked));
    CountSnoc([FileRequest(asked)], File(asked, data));
    assert s'.log.sent == ([] + [FileRequest(asked)]) + [File(asked, data)];
  }

  lemma EarlyTurnedAway(calls: seq<Call>, i: nat, j: nat) returns (steps: seq<Step>, s: State)
    requires i < j < |calls| && calls[i].RequestFile? && MovesFile(calls[j])
    ensures Leads(calls, steps, s) && TurnsAway(s)
    ensures calls[j].RequestFile? ==> !s.log.abandoned
  {
    if calls[i].name == "" { steps, s := UnnamedTurnedAway(calls, i); }
    else if calls[j].RequestFile? { steps, s := SecondTurnedAway(calls, i, j); }
    else { steps, s := GivenUpTurnedAway(calls, i, j); }
  }

  /**
   A prompted client can have a reply with content turned away exactly by a module
   that requests a file without a name, or requests one and later requests or
   sends another.
   */
  lemma TurnedAwayExactly(calls: seq<Call>)
    ensures CanTurnAway(calls) <==> RequestsUnnamed(calls) || RequestsEarly(calls)
  {
    if i :| 0 <= i < |calls| && calls[i] == RequestFile("") {
      var steps, s := UnnamedTurnedAway(calls, i);
    } else if i, j :| 0 <= i < j < |calls| && calls[i].RequestFile? && MovesFile(calls[j]) {
      var steps, s := EarlyTurnedAway(calls, i, j);
    } else {
      forall steps | Path(Begin(calls), steps) && PromptedPath(Begin(calls), steps)
        ensures !TurnsAway(After(Begin(calls), steps))
      {
        AlwaysCalm(calls, steps);
        CalmAccepts(After(Begin(calls), steps));
      }
    }
  }

  // ------------------------------------------------------- with no request given up

  lemma {:induction false} PromptedIsHonest(calls: seq<Call>, steps: seq<Step>)
    requires Path(Begin(calls), steps) && PromptedPath(Begin(calls), steps)
    ensures HonestPath(Begin(calls), steps)
  {
    if steps != [] { PromptedIsHonest(calls, steps[..|steps| - 1]); }
  }

  /** A name is wiped only for a reply to an earlier request. */
  ghost predicate Preceded(pc: ModulePc, from: FromPc, log: Log)
  {
    && (from.FromClearing? && !log.stolen ==> |log.requests| >= 1 && (pc.AwaitingFile? ==> |log.requests| >= 2))
    && (log.wiped && !log.stolen ==> |log.requests| >= 2)
  }

  ghost predicate InSequence(s: State) { Preceded(s.mod.pc, s.from, s.log) }

  lemma StepInSequence(s: State, a: Step)
    requires Kept(s) && InSequence(s) && Enabled(s, a)
    ensures InSequence(Do(s, a))
  {
    if a.GiveFile? {
      assert |s.log.requests| >= 1;
    } else if a.TakeOutput? {
      assert |Do(s, a).log.requests| >= |s.log.requests|;
    } else {
      Elsewhere(s, a);
    }
  }

  /** What other steps do to the requests and to the clearing after a reply. */
  lemma Elsewhere(s: State, a: Step)
    requires Enabled(s, a) && !a.GiveFile? && !a.TakeOutput?
    ensures var s' := Do(s, a);
      && s'.log.requests == s.log.requests
      && (s'.mod.pc.AwaitingFile? ==> s'.mod.pc == s.mod.pc)
      && (s'.from.FromClearing? ==> s'.from == s.from || s'.log.stolen)
      && (s.log.stolen ==> s'.log.stolen)
      && (s'.log.wiped ==> s.log.wiped || (s.from.FromClearing? && s.mod.pc.AwaitingFile?))
  {
    if a.StartCall? { StartShape(s); }
    else if !ByModule(a) && !ByTo(a) { OthersKeep(s, a); ClearingComesFrom(s, a); }
  }

  lemma ClearingComesFrom(s: State, a: Step)
    requires Enabled(s, a) && !ByModule(a) && !ByTo(a)
    ensures Do(s, a).from.FromClearing? ==> Do(s, a).from == s.from || a.StealFile?
    ensures Do(s, a).log.wiped ==> s.log.wiped || (s.from.FromClearing? && s.mod.pc.AwaitingFile?)
  {
  }

  lemma {:induction false} AlwaysInSequence(calls: seq<Call>, steps: seq<Step>)
    requires Path(Begin(calls), steps) && PromptedPath(Begin(calls), steps)
    ensures Kept(After(Begin(calls), steps)) && InSequence(After(Begin(calls), steps))
  {
    if steps != [] {
      var front, a := steps[..|steps| - 1], steps[|steps| - 1];
      AlwaysInSequence(calls, front);
      StepKept(After(Begin(calls), front), a);
      StepInSequence(After(Begin(calls), front), a);
    }
  }

  lemma AskedInProgram(calls: seq<Call>, m: Module, requests: seq<string>)
    requires Programmed(m, requests) && m.done + Current(m.pc) + m.todo == calls
    ensures |requests| >= 2 ==> RequestsTwice(calls)
    ensures "" in requests ==> RequestsUnnamed(calls)
  {
    assert Past(m) <= calls;
    if |requests| >= 2 {
      var i, j := SubSeqPair(Asks(requests), Past(m), 0, 1);
      assert calls[i] == Asks(requests)[0] && calls[j] == Asks(requests)[1];
    }
    if "" in requests {
      var k :| 0 <= k < |requests| && requests[k] == "";
      var i := SubSeqOne(Asks(requests), Past(m), k);
      assert calls[i] == Asks(requests)[k];
    }
  }

  lemma TurnedAwayMeans(s: State)
    requires Held(s) && InSequence(s) && !s.log.abandoned && TurnsAway(s)
    ensures |s.log.requests| >= 2 || "" in s.log.requests
  {
    JudgedOnRecord(s);
    assert Flying(s)[0] == s.from.upload;
    FirstFlying(s);
  }

  /**
   And with no request given up: exactly by a module that requests a file without
   a name, or requests two.
   */
  lemma TurnedAwayWaitingExactly(calls: seq<Call>)
    ensures CanTurnAwayWaiting(calls) <==> RequestsUnnamed(calls) || RequestsTwice(calls)
  {
    if i :| 0 <= i < |calls| && calls[i] == RequestFile("") {
      var steps, s := UnnamedTurnedAway(calls, i);
    } else if i, j :| 0 <= i < j < |calls| && calls[i].RequestFile? && calls[j].RequestFile? {
      var steps, s := EarlyTurnedAway(calls, i, j);
    }
    if CanTurnAwayWaiting(calls) {
      var steps :|
        && Path(Begin(calls), steps) && PromptedPath(Begin(calls), steps)
        && TurnsAway(After(Begin(calls), steps)) && !After(Begin(calls), steps).log.abandoned;
      TurnedAwayTwice(calls, steps);
    }
  }

  lemma TurnedAwayTwice(calls: seq<Call>, steps: seq<Step>)
    requires Path(Begin(calls), steps) && PromptedPath(Begin(calls), steps)
    requires TurnsAway(After(Begin(calls), steps)) && !After(Begin(calls), steps).log.abandoned
    ensures RequestsUnnamed(calls) || RequestsTwice(calls)
  {
    var s := After(Begin(calls), steps);
    BeginHeld(calls);
    HeldAfter(Begin(calls), steps);
    AlwaysInSequence(calls, steps);
    PromptedIsHonest(calls, steps);
    AlwaysTraced(calls, steps);
    TurnedAwayMeans(s);
    AskedInProgram(calls, s.mod, s.log.requests);
  }
}

/** When the client's reply to a file request is accepted. */
module SessionVerdict {
  import opened Base
  import Err = ErrChannel
  import opened Session
  import opened SessionFiles
  import opened SessionSend

  /**
   As long as no request was given up: whose name the current file is. A stolen
   reply leaves the module waiting with nothing in the air, and a wiped name
   stays wiped as long as the module waits.
   */
  ghost predicate Recorded(pc: ModulePc, to: ToPc, from: FromPc, current: string, log: Log, flying: seq<InMsg>)
  {
    && (to.Naming? ==> pc.AwaitingFile? && to.name == pc.name)
    && (Asking(to) ==> pc.AwaitingFile? && pc.k !in log.answers)
    && (pc.AwaitingFile? && !log.stolen ==> !Filing(to))
    && (pc.AwaitingFile? && !to.Naming? && !log.wiped && !log.stolen ==> current == pc.name)
    && (log.wiped ==> pc.AwaitingFile? && !to.Naming? && current == "" && !from.GivingFile?)
    && (log.stolen ==> pc.AwaitingFile? && pc.k in log.answers && flying == [])
  }

  ghost predicate OnRecord(s: State)
  {
    && Recorded(s.mod.pc, s.to, s.from, s.currentFile, s.log, Flying(s))
    && Counted(s.to, s.log)
  }

  // -------------------------------------------------------------------- every step

  lemma StartOnRecord(s: State)
    requires OnRecord(s) && Enabled(s, StartCall)
    ensures OnRecord(Do(s, StartCall))
  {
    StartShape(s);
  }

  /** A file on its way to the module: its name stands, and it was not stolen. */
  lemma GivingStands(s: State)
    requires Kept(s) && OnRecord(s) && !s.log.abandoned && s.from.GivingFile?
    ensures s.mod.pc.AwaitingFile? && s.mod.pc.k in s.log.answers && !s.log.wiped && !s.log.stolen && !Asking(s.to)
    ensures Flying(s) == [s.from.upload]
  {
    GivingWaits(s);
    assert Flying(s)[0] == s.from.upload;
  }

  lemma ModuleOnRecord(s: State, a: Step)
    requires Kept(s) && OnRecord(s) && Enabled(s, a) && !s.log.abandoned
    requires a.SourceFails? || a.SetSendName? || a.ModuleSeesDone? || a.GiveStdin? || a.GiveFile?
    ensures !Do(s, a).log.abandoned ==> OnRecord(Do(s, a))
  {
    if a.GiveFile? { GivingStands(s); }
  }

  lemma TakeOnRecord(s: State, a: Step)
    requires Kept(s) && OnRecord(s) && Enabled(s, a) && (a.TakeOutput? || a.TakeFile?)
    ensures OnRecord(Do(s, a))
  {
    OtherFlying(s, a);
  }

  lemma ToOnRecord(s: State, a: Step)
    requires OnRecord(s) && Enabled(s, a) && ByTo(a)
    ensures OnRecord(Do(s, a))
  {
    OtherFlying(s, a);
    if a.SendSucceeds? { SentOnRecord(s); } else { assert Do(s, a).log == s.log; }
  }

  lemma SentOnRecord(s: State)
    requires OnRecord(s) && Enabled(s, SendSucceeds)
    ensures OnRecord(Do(s, SendSucceeds))
  {
    OtherFlying(s, SendSucceeds);
    var to' := if s.to.msg.File? then ToClearing else ToSelect;
    assert Do(s, SendSucceeds) == s.(to := to', log := s.log.(sent := s.log.sent + [s.to.msg]));
    SentCounted(s.to, to', s.log);
  }

  lemma StealOnRecord(s: State)
    requires Kept(s) && OnRecord(s) && Enabled(s, StealFile) && !s.log.abandoned
    ensures OnRecord(Do(s, StealFile))
  {
    GivingStands(s);
    GivenFlying(s, StealFile);
  }

  lemma ClearOnRecord(s: State)
    requires OnRecord(s) && Enabled(s, ClearGiven)
    ensures OnRecord(Do(s, ClearGiven))
  {
    FromFlying(s, ClearGiven);
  }

  lemma FromOnRecord(s: State, a: Step)
    requires OnRecord(s) && Enabled(s, a) && ByFrom(a) && !a.StealFile? && !a.ClearGiven?
    ensures OnRecord(Do(s, a))
  {
    OthersKeep(s, a);
    FromKeeps(s, a);
    FromFlying(s, a);
    GivesOnlyNamed(s, a);
  }

  /** The worker comes to give a file only if there is a current one. */
  lemma GivesOnlyNamed(s: State, a: Step)
    requires Enabled(s, a) && ByFrom(a)
    ensures Do(s, a).from.GivingFile? ==> s.currentFile != ""
  {
  }

  lemma LoopOnRecord(s: State, a: Step)
    requires OnRecord(s) && Enabled(s, a) && ByLoop(a)
    ensures OnRecord(Do(s, a))
  {
    LoopFlying(s, a);
  }

  lemma ClientOnRecord(s: State, m: InMsg)
    requires Kept(s) && OnRecord(s) && Prompted(s, ClientSends(m)) && !s.log.abandoned
    ensures OnRecord(Do(s, ClientSends(m)))
  {
    var s' := Do(s, ClientSends(m));
    SentFlying(s, m);
    assert s'.mod == s.mod && s'.to == s.to && s'.from == s.from && s'.currentFile == s.currentFile;
    if m.Upload? {
      ReplyIsNew(s, m);
      assert s'.log == s.log.(answers := s.log.answers[m.reply := m.content]);
    }
  }

  /** A reply comes while the module waits for it, to a request that the client was sent. */
  lemma ReplyIsNew(s: State, m: InMsg)
    requires Kept(s) && OnRecord(s) && Prompted(s, ClientSends(m)) && !s.log.abandoned && m.Upload?
    ensures s.mod.pc.AwaitingFile? && m.reply == s.mod.pc.k && m.reply < |s.log.requests|
    ensures !s.log.stolen && !Asking(s.to)
  {
  }

  lemma StepOnRecord(s: State, a: Step)
    requires Kept(s) && OnRecord(s) && Enabled(s, a) && Prompted(s, a) && !s.log.abandoned
    ensures !Do(s, a).log.abandoned ==> OnRecord(Do(s, a))
  {
    if a.StartCall? { StartOnRecord(s); }
    else if a.TakeOutput? || a.TakeFile? { TakeOnRecord(s, a); }
    else if ByModule(a) { ModuleOnRecord(s, a); }
    else if ByTo(a) { ToOnRecord(s, a); }
    else if a.StealFile? { StealOnRecord(s); }
    else if a.ClearGiven? { ClearOnRecord(s); }
    else if ByFrom(a) { FromOnRecord(s, a); }
    else if ByLoop(a) { LoopOnRecord(s, a); }
    else if a.ClientSends? { ClientOnRecord(s, a.m); }
  }

  // --------------------------------------------------------------- over every run

  /** What every run of a prompted client keeps, until a request is given up. */
  ghost predicate Held(s: State) { Kept(s) && (!s.log.abandoned ==> OnRecord(s)) }

  lemma StepHeld(s: State, a: Step)
    requires Held(s) && Enabled(s, a) && Prompted(s, a)
    ensures Held(Do(s, a))
  {
    StepKept(s, a);
    FlagsStay(s, a);
    if !s.log.abandoned { StepOnRecord(s, a); }
  }

  lemma {:induction false} HeldAfter(s: State, steps: seq<Step>)
    requires Held(s) && Path(s, steps) && PromptedPath(s, steps)
    ensures Held(After(s, steps))
  {
    if steps != [] {
      HeldAfter(s, steps[..|steps| - 1]);
      StepHeld(After(s, steps[..|steps| - 1]), steps[|steps| - 1]);
    }
  }

  lemma BeginHeld(calls: seq<Call>)
    ensures Held(Begin(calls))
  {
  }

  lemma JudgedOnRecord(s: State)
    requires Held(s) && !s.log.abandoned && Enabled(s, JudgeUpload)
    ensures var u := s.from.upload;
      DoJudge(s) == if s.log.wiped || u.path == "" || u.content.None? then EndFrom(s, Some(Err.BadFileTransfer))
                    else s.(from := GivingFile(u))
  {
    assert Flying(s)[0] == s.from.upload;
    assert s.from.upload in Flying(s);
  }

  /**
   In every interleaving with a client that replies only to requests it was sent,
   and no request given up: a reply is rejected exactly if the requested name is
   empty, the reply has no content, or the name was wiped; otherwise it is on
   its way to the module.
   */
  lemma JudgedExactly(calls: seq<Call>, steps: seq<Step>)
    requires Path(Begin(calls), steps) && PromptedPath(Begin(calls), steps)
    requires var s := After(Begin(calls), steps); !s.log.abandoned && Enabled(s, JudgeUpload)
    ensures var s := After(Begin(calls), steps);
      var u := s.from.upload;
      Do(s, JudgeUpload) == if s.log.wiped || u.path == "" || u.content.None? then EndFrom(s, Some(Err.BadFileTransfer))
                            else s.(from := GivingFile(u))
  {
    BeginHeld(calls);
    HeldAfter(Begin(calls), steps);
    JudgedOnRecord(After(Begin(calls), steps));
  }

  /** The current file is cleared for an earlier reply when the next request's name has already been recorded. */
  predicate Wipes(s: State, a: Step) { a.ClearGiven? && s.mod.pc.AwaitingFile? && !s.to.Naming? }

  predicate EverWiped(s: State, steps: seq<Step>)
    requires Path(s, steps)
    decreases |steps|
  {
    steps != [] && (EverWiped(s, steps[..|steps| - 1]) || Wipes(After(s, steps[..|steps| - 1]), steps[|steps| - 1]))
  }

  lemma WipeStep(s: State, a: Step)
    requires Enabled(s, a)
    ensures Do(s, a).log.wiped <==> s.log.wiped || Wipes(s, a)
  {
    if a.StartCall? { StartShape(s); }
  }

  /** A name was wiped exactly if such a clearing has happened. */
  lemma {:induction false} WipedExactly(calls: seq<Call>, steps: seq<Step>)
    requires Path(Begin(calls), steps)
    ensures After(Begin(calls), steps).log.wiped <==> EverWiped(Begin(calls), steps)
  {
    if steps != [] {
      WipedExactly(calls, steps[..|steps| - 1]);
      WipeStep(After(Begin(calls), steps[..|steps| - 1]), steps[|steps| - 1]);
    }
  }
}

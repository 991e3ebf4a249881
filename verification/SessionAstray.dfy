/** Which modules' messages can go astray on their way to the client. */
module SessionAstray {
  import opened Base
  import opened Session
  import opened SessionFiles
  import opened SessionSend
  import opened SessionMixup
  import SessionOrder

  /** In some interleaving with a prompted client, what was sent is not what the module handed over. */
  ghost predicate CanGoAstray(calls: seq<Call>)
  {
    exists steps :: Path(Begin(calls), steps) && PromptedPath(Begin(calls), steps) && Astray(After(Begin(calls), steps))
  }

  predicate Astray(s: State) { !(s.log.sent <= s.log.taken) }

  predicate NamedRequest(c: Call) { c.RequestFile? && c.name != "" }

  predicate NamedSend(c: Call) { c.SendFile? && c.name != "" }

  /** A request or a file without a name. */
  predicate Unnamed(c: Call) { (c.RequestFile? || c.SendFile?) && c.name == "" }

  /** The module requests a file by name, or does without a name in a request or a file before it sends a named one. */
  ghost predicate Risky(calls: seq<Call>)
  {
    || (exists i :: 0 <= i < |calls| && NamedRequest(calls[i]))
    || (exists i, j :: 0 <= i < j < |calls| && Unnamed(calls[i]) && NamedSend(calls[j]))
  }

  // -------------------------------------------------- otherwise nothing goes astray

  /** No named send is left to make. */
  predicate NoneNamed(m: Module)
  {
    (SendingFile(m.pc) ==> m.pc.name == "") && forall j :: 0 <= j < |m.todo| ==> !NamedSend(m.todo[j])
  }

  /** The module is in a request or a file without a name. */
  predicate InUnnamed(pc: ModulePc)
  {
    || (pc.Offering? && pc.call.RequestFile?)
    || pc.AwaitingFile?
    || (SendingFile(pc) && pc.name == "")
  }

  /** All requests are unnamed, and once something unnamed was begun, no named send is left. */
  ghost predicate Tame(m: Module)
  {
    && !Risky(m.todo)
    && (m.pc.Offering? && m.pc.call.RequestFile? ==> m.pc.call.name == "")
    && (m.pc.AwaitingFile? ==> m.pc.name == "")
    && (InUnnamed(m.pc) ==> NoneNamed(m))
  }

  /** Whatever may overwrite the current file writes the empty name, and then no other is left to lose. */
  ghost predicate Careful(m: Module, to: ToPc, current: string)
  {
    && Tame(m)
    && (m.pc.SendChecked? ==> current == "")
    && (m.pc.OfferingFile? ==> current == m.pc.name)
    && (Asking(to) ==> NoneNamed(m))
    && (to.Naming? ==> to.name == "")
    && (Filing(to) && current == "" ==> NoneNamed(m))
    && (Filing(to) && SendingFile(m.pc) ==> current == "")
  }

  ghost predicate Sure(s: State)
  {
    && Careful(s.mod, s.to, s.currentFile)
    && Delivered(s.to, s.currentFile, s.log)
    && (forall i :: 0 <= i < |s.log.requests| ==> s.log.requests[i] == "")
    && !s.from.GivingFile? && !s.from.FromClearing?
  }

  lemma StartTame(m: Module, m': Module)
    requires Tame(m) && m.pc.Idle? && m.todo != [] && m'.todo == m.todo[1..]
    requires m'.pc.Idle? || m'.pc.ReadingStdin? || m'.pc == Offering(m.todo[0])
          || (m.todo[0].SendFile? && m'.pc == SendChecked(m.todo[0].name, m.todo[0].data))
    requires m'.pc.Offering? ==> m.todo[0].Emit? || m.todo[0].RequestFile?
    ensures Tame(m')
    ensures NoneNamed(m) ==> NoneNamed(m')
  {
    assert forall i :: 0 <= i < |m.todo| - 1 ==> m.todo[1..][i] == m.todo[i + 1];
    if Unnamed(m.todo[0]) {
      assert forall j :: 0 < j < |m.todo| ==> !NamedSend(m.todo[j]);
    }
    assert !NamedRequest(m.todo[0]);
  }

  lemma StartSure(s: State)
    requires Sure(s) && Enabled(s, StartCall)
    ensures Sure(Do(s, StartCall))
  {
    StartShape(s);
    var m' := Do(s, StartCall).mod;
    StartTame(s.mod, m');
    assert m'.pc.SendChecked? ==> s.currentFile == "";
  }

  lemma ModuleSure(s: State, a: Step)
    requires Sure(s) && Enabled(s, a)
    requires a.SourceFails? || a.SetSendName? || a.ModuleSeesDone? || a.GiveStdin?
    ensures Sure(Do(s, a))
  {
  }

  lemma TakeSure(s: State)
    requires Sure(s) && Enabled(s, TakeOutput)
    ensures Sure(Do(s, TakeOutput))
  {
    assert s.log.sent + [] == s.log.sent;
  }

  lemma TakeFileSure(s: State)
    requires Sure(s) && Enabled(s, TakeFile)
    ensures Sure(Do(s, TakeFile))
  {
    assert s.log.sent + [] == s.log.sent;
  }

  lemma SentSure(s: State)
    requires Sure(s) && Enabled(s, SendSucceeds)
    ensures Sure(Do(s, SendSucceeds))
  {
    var to' := if s.to.msg.File? then ToClearing else ToSelect;
    assert Do(s, SendSucceeds) == s.(to := to', log := s.log.(sent := s.log.sent + [s.to.msg]));
    SentDelivered(s.to, to', s.currentFile, s.log);
  }

  lemma ToSure(s: State, a: Step)
    requires Sure(s) && Enabled(s, a) && ByTo(a) && !a.SendSucceeds?
    ensures Sure(Do(s, a))
  {
  }

  /** A reply to an unnamed request is turned away. */
  lemma NeverGives(s: State, a: Step)
    requires Kept(s) && Sure(s) && Enabled(s, a) && ByFrom(a)
    ensures !Do(s, a).from.GivingFile? && !Do(s, a).from.FromClearing? && Do(s, a).currentFile == s.currentFile
  {
    if a.JudgeUpload? {
      assert Flying(s)[0] == s.from.upload;
      assert s.from.upload in Flying(s);
    }
  }

  lemma FromSure(s: State, a: Step)
    requires Kept(s) && Sure(s) && Enabled(s, a) && ByFrom(a)
    ensures Sure(Do(s, a))
  {
    OthersKeep(s, a);
    NeverGives(s, a);
  }

  lemma RestSure(s: State, a: Step)
    requires Sure(s) && Enabled(s, a) && !ByModule(a) && !ByTo(a) && !ByFrom(a)
    ensures Sure(Do(s, a))
  {
    OthersKeep(s, a);
  }

  lemma StepSure(s: State, a: Step)
    requires Kept(s) && Sure(s) && Enabled(s, a)
    ensures Sure(Do(s, a))
  {
    if a.StartCall? { StartSure(s); }
    else if a.TakeOutput? { TakeSure(s); }
    else if a.TakeFile? { TakeFileSure(s); }
    else if ByModule(a) { ModuleSure(s, a); }
    else if a.SendSucceeds? { SentSure(s); }
    else if ByTo(a) { ToSure(s, a); }
    else if ByFrom(a) { FromSure(s, a); }
    else { RestSure(s, a); }
  }

  lemma {:induction false} AlwaysSure(calls: seq<Call>, steps: seq<Step>)
    requires !Risky(calls) && Path(Begin(calls), steps) && PromptedPath(Begin(calls), steps)
    ensures Kept(After(Begin(calls), steps)) && Sure(After(Begin(calls), steps))
  {
    if steps != [] {
      var front, a := steps[..|steps| - 1], steps[|steps| - 1];
      AlwaysSure(calls, front);
      StepKept(After(Begin(calls), front), a);
      StepSure(After(Begin(calls), front), a);
    }
  }

  // ------------------------------------------------------- otherwise something can

  /** A session cancelled at once that has come to call i, which is the module's next, and has done nothing yet. */
  ghost predicate ReadyAt(calls: seq<Call>, i: nat, s: State)
    requires i < |calls|
  {
    s == Begin([]).(mod := Module(Idle, calls[..i], calls[i..]), cancelled := true,
                    log := NOTHING.(dropped := s.log.dropped))
  }

  lemma ComeTo(calls: seq<Call>, i: nat) returns (steps: seq<Step>, s: State)
    requires i < |calls|
    ensures Leads(calls, steps, s) && ReadyAt(calls, i, s) && s.mod.todo != [] && s.mod.todo[0] == calls[i]
  {
    steps, s := SkippedTo(calls, i);
  }

  /** The other worker takes the reply to a named request and sends it back. */
  lemma NamedRequestAstray(calls: seq<Call>, i: nat) returns (steps: seq<Step>, s: State)
    requires i < |calls| && NamedRequest(calls[i])
    ensures Leads(calls, steps, s) && Astray(s)
  {
    var n := calls[i].name;
    steps, s := ComeTo(calls, i);
    steps, s := ReplyStolen(calls, steps, s, n);
    steps, s := FileSent(calls, steps, s, [0]);
  }

  lemma ReplyStolen(calls: seq<Call>, steps: seq<Step>, s: State, n: string) returns (more: seq<Step>, s': State)
    requires Leads(calls, steps, s) && n != ""
    requires s.mod.pc == Idle && s.mod.todo != [] && s.mod.todo[0] == RequestFile(n)
    requires s.to == ToSelect && s.from == FromSelect && s.loop == Receiving && s.inbox == []
    requires s.log == NOTHING.(dropped := s.log.dropped)
    ensures Leads(calls, more, s') && s'.to == GotFile([0])
    ensures s'.log.taken == [FileRequest(n)] && s'.log.sent == [FileRequest(n)]
  {
    more, s' := Ask(calls, steps, s, n);
    more, s' := Asked(calls, more, s', n);
    more, s' := Deliver(calls, more, s', Upload(n, Some([0]), 0));
    more, s' := Then(calls, more, s', JudgeUpload);
    more, s' := Then(calls, more, s', StealFile);
  }

  /** Past call i at teardown, with the worker as given, the current file unset, and these messages taken, none sent. */
  predicate PastCall(calls: seq<Call>, i: nat, s: State, to: ToPc, taken: seq<OutMsg>)
    requires i < |calls|
  {
    && s.cancelled && s.mod == Module(Idle, calls[..i + 1], calls[i + 1..])
    && s.to == to && s.currentFile == "" && s.log.taken == taken && s.log.sent == []
  }

  lemma UnnamedRequestPast(calls: seq<Call>, i: nat) returns (steps: seq<Step>, s: State)
    requires i < |calls| && calls[i] == RequestFile("")
    ensures Leads(calls, steps, s) && PastCall(calls, i, s, Naming(""), [FileRequest("")])
  {
    steps, s := ComeTo(calls, i);
    SplitAt(calls, i);
    steps, s := Ask(calls, steps, s, "");
    steps, s := GiveUp(calls, steps, s);
  }

  /** The name of a file is overwritten by an unnamed request that was given up. */
  lemma UnnamedRequestAstray(calls: seq<Call>, i: nat, j: nat) returns (steps: seq<Step>, s: State)
    requires i < j < |calls| && calls[i] == RequestFile("") && NamedSend(calls[j])
    ensures Leads(calls, steps, s) && Astray(s)
  {
    steps, s := UnnamedRequestPast(calls, i);
    steps, s := SkipTo(calls, steps, s, i, j);
    steps, s := OverwrittenSent(calls, steps, s, calls[j].name, calls[j].data);
  }

  lemma OverwrittenSent(calls: seq<Call>, steps: seq<Step>, s: State, name: string, data: Data)
    returns (more: seq<Step>, s': State)
    requires Leads(calls, steps, s) && name != "" && s.to == Naming("") && s.currentFile == ""
    requires s.mod.pc == Idle && s.mod.todo != [] && s.mod.todo[0] == SendFile(name, data)
    requires s.log.taken == [FileRequest("")] && s.log.sent == []
    ensures Leads(calls, more, s') && Astray(s')
  {
    more, s' := NameOverwritten(calls, steps, s, "", name, data);
    more, s' := FileSent(calls, more, s', data);
    assert s'.log.sent[1] == File("", data) && s'.log.taken[1] == File(name, data);
  }

  lemma UnnamedSendPast(calls: seq<Call>, i: nat) returns (steps: seq<Step>, s: State)
    requires i < |calls| && calls[i].SendFile? && calls[i].name == ""
    ensures Leads(calls, steps, s) && PastCall(calls, i, s, GotFile(calls[i].data), [File("", calls[i].data)])
  {
    steps, s := ComeTo(calls, i);
    SplitAt(calls, i);
    steps, s := UnnamedTaken(calls, steps, s, calls[i].data);
  }

  /** A file without a name is still in hand when the next one takes its place. */
  lemma UnnamedSendAstray(calls: seq<Call>, i: nat, j: nat) returns (steps: seq<Step>, s: State)
    requires i < j < |calls| && calls[i].SendFile? && calls[i].name == "" && NamedSend(calls[j])
    ensures Leads(calls, steps, s) && Astray(s)
  {
    steps, s := UnnamedSendPast(calls, i);
    steps, s := SkipTo(calls, steps, s, i, j);
    steps, s := ReplacedSent(calls, steps, s, calls[j].name, calls[j].data, calls[i].data);
  }

  lemma ReplacedSent(calls: seq<Call>, steps: seq<Step>, s: State, name: string, data: Data, first: Data)
    returns (more: seq<Step>, s': State)
    requires Leads(calls, steps, s) && name != "" && s.to == GotFile(first) && s.currentFile == ""
    requires s.mod.pc == Idle && s.mod.todo != [] && s.mod.todo[0] == SendFile(name, data)
    requires s.log.taken == [File("", first)] && s.log.sent == []
    ensures Leads(calls, more, s') && Astray(s')
  {
    more, s' := NameReplaced(calls, steps, s, name, data);
    more, s' := FileSent(calls, more, s', first);
    assert s'.log.sent[0] == File(name, first) && s'.log.taken[0] == File("", first);
  }

  lemma UnnamedTaken(calls: seq<Call>, steps: seq<Step>, s: State, data: Data) returns (more: seq<Step>, s': State)
    requires Leads(calls, steps, s) && s.mod.pc == Idle && s.mod.todo != [] && s.mod.todo[0] == SendFile("", data)
    requires s.to == ToSelect && s.currentFile == ""
    ensures Leads(calls, more, s')
    ensures s' == s.(mod := Module(Idle, s.mod.done + [SendFile("", data)], s.mod.todo[1..]), to := GotFile(data),
                     log := s.log.(taken := s.log.taken + [File("", data)]))
  {
    more, s' := Then(calls, steps, s, StartCall);
    assert s' == s.(mod := Module(SendChecked("", data), s.mod.done, s.mod.todo[1..]));
    more, s' := Then(calls, more, s', SetSendName);
    more, s' := Then(calls, more, s', TakeFile);
  }

  lemma NameReplaced(calls: seq<Call>, steps: seq<Step>, s: State, name: string, data: Data)
    returns (more: seq<Step>, s': State)
    requires Leads(calls, steps, s) && s.mod.pc == Idle && s.mod.todo != [] && s.mod.todo[0] == SendFile(name, data)
    requires s.currentFile == ""
    ensures Leads(calls, more, s')
    ensures s' == s.(mod := Module(OfferingFile(name, data), s.mod.done, s.mod.todo[1..]), currentFile := name)
  {
    more, s' := Then(calls, steps, s, StartCall);
    assert s' == s.(mod := Module(SendChecked(name, data), s.mod.done, s.mod.todo[1..]));
    more, s' := Then(calls, more, s', SetSendName);
  }

  lemma RiskyAstray(calls: seq<Call>) returns (steps: seq<Step>, s: State)
    requires Risky(calls)
    ensures Leads(calls, steps, s) && Astray(s)
  {
    if i :| 0 <= i < |calls| && NamedRequest(calls[i]) {
      steps, s := NamedRequestAstray(calls, i);
    } else {
      var i, j :| 0 <= i < j < |calls| && Unnamed(calls[i]) && NamedSend(calls[j]);
      if calls[i].RequestFile? {
        steps, s := UnnamedRequestAstray(calls, i, j);
      } else {
        steps, s := UnnamedSendAstray(calls, i, j);
      }
    }
  }

  /**
   What was sent can differ from what the module handed over exactly if the module
   requests a file by name, or leaves out the name of a request or a file before
   it sends a named one.
   */
  lemma AstrayExactly(calls: seq<Call>)
    ensures CanGoAstray(calls) <==> Risky(calls)
  {
    if Risky(calls) {
      var steps, s := RiskyAstray(calls);
    } else {
      forall steps | Path(Begin(calls), steps) && PromptedPath(Begin(calls), steps)
        ensures !Astray(After(Begin(calls), steps))
      {
        AlwaysSure(calls, steps);
      }
    }
  }

  /**
   So for every other module, in every interleaving with a prompted client, given
   up requests included: everything sent, followed by at most one message in the
   worker's hands, is what the module handed over, in its program order.
   */
  lemma OthersArrive(calls: seq<Call>, steps: seq<Step>)
    requires !Risky(calls) && Path(Begin(calls), steps) && PromptedPath(Begin(calls), steps)
    ensures var s := After(Begin(calls), steps);
      && s.log.sent + Hand(s.to, s.currentFile) == s.log.taken && |Hand(s.to, s.currentFile)| <= 1
      && SubSeq(s.log.taken, SessionOrder.Emitted(s.mod))
  {
    AlwaysSure(calls, steps);
    SessionOrder.AlwaysInOrder(calls, steps);
  }
}

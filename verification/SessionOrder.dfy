/** What reaches the client, and in what order. */
module SessionOrder {
  import opened Base
  import opened Session

  /** The messages for the client among the module's calls, in program order. */
  function Emits(calls: seq<Call>): (r: seq<OutMsg>)
  {
    if calls == [] then []
    else Emits(calls[..|calls| - 1]) + EmitOf(calls[|calls| - 1])
  }

  function EmitOf(call: Call): (r: seq<OutMsg>)
  {
    match call
    case Emit(kind, d) => [Output(kind, d)]
    case RequestFile(n) => [FileRequest(n)]
    case SendFile(n, d) => [File(n, d)]
    case ReadStdin => []
  }

  /**
   The messages the module has got past, in program order: those of its finished calls and of a file
   request being answered.
   */
  function Emitted(m: Module): (r: seq<OutMsg>)
  {
    Emits(m.done) + (if m.pc.AwaitingFile? then [FileRequest(m.pc.name)] else [])
  }

  /** What the module has still to hand over in the call it is in. */
  function Unhanded(pc: ModulePc): (r: seq<OutMsg>)
  {
    match pc
    case Offering(c) => EmitOf(c)
    case SendChecked(n, d) => [File(n, d)]
    case OfferingFile(n, d) => [File(n, d)]
    case _ => []
  }

  /** The messages that are not files. */
  function NonFiles(msgs: seq<OutMsg>): (r: seq<OutMsg>)
  {
    if msgs == [] then []
    else NonFiles(msgs[..|msgs| - 1]) + NonFile(msgs[|msgs| - 1])
  }

  function NonFile(msg: OutMsg): (r: seq<OutMsg>) { if msg.File? then [] else [msg] }

  lemma {:induction false} NonFilesConcat(a: seq<OutMsg>, b: seq<OutMsg>)
    ensures NonFiles(a + b) == NonFiles(a) + NonFiles(b)
  {
    if b == [] {
      assert a + b == a && NonFiles(a) + [] == NonFiles(a);
    } else {
      var front, last := b[..|b| - 1], b[|b| - 1];
      assert (a + b)[..|a + b| - 1] == a + front && (a + b)[|a + b| - 1] == last;
      NonFilesConcat(a, front);
      Regroup(NonFiles(a), NonFiles(front), NonFile(last));
    }
  }

  lemma NonFilesSnoc(a: seq<OutMsg>, m: OutMsg)
    ensures NonFiles(a + [m]) == NonFiles(a) + NonFile(m)
  {
    assert (a + [m])[..|a|] == a;
  }

  lemma NonFilesOne(m: OutMsg)
    ensures NonFiles([m]) == NonFile(m)
  {
    assert [m][..0] == [] && [] + NonFile(m) == NonFile(m);
  }

  /** A message other than a file that the worker has taken and not sent. */
  function InHand(to: ToPc): (r: seq<OutMsg>)
  {
    match to
    case Naming(n) => [FileRequest(n)]
    case Sending(m) => NonFile(m)
    case ToEnded(lost) => NonFiles(lost)
    case _ => []
  }

  /**
   The taken messages are the module's own in program order; those that are no files have all been
   sent or are in hand.
   */
  ghost predicate Ordered(m: Module, to: ToPc, cancelled: bool, taken: seq<OutMsg>, sent: seq<OutMsg>, dropped: bool)
  {
    && NonFiles(sent) + InHand(to) == NonFiles(taken)
    && SubSeq(taken, Emitted(m))
    && (!dropped ==> NonFiles(taken) == NonFiles(Emitted(m)))
    && (dropped ==> cancelled)
    && (m.pc.Offering? ==> m.pc.call.Emit? || m.pc.call.RequestFile?)
    && (to.ToEnded? ==> |to.lost| <= 1)
  }

  ghost predicate InOrder(s: State)
  {
    Ordered(s.mod, s.to, s.cancelled, s.log.taken, s.log.sent, s.log.dropped)
  }

  lemma EmitsSnoc(done: seq<Call>, call: Call)
    ensures Emits(done + [call]) == Emits(done) + EmitOf(call)
  {
    assert (done + [call])[..|done|] == done;
  }

  lemma SubSeqGrows(a: seq<OutMsg>, b: seq<OutMsg>, c: seq<OutMsg>)
    requires SubSeq(a, b)
    ensures SubSeq(a, b + c)
  {
    SubSeqAppend(a, b, [], c);
    assert a + [] == a;
  }

  lemma SubSeqBoth(a: seq<OutMsg>, b: seq<OutMsg>, c: seq<OutMsg>)
    requires SubSeq(a, b)
    ensures SubSeq(a + c, b + c)
  {
    SubSeqReflexive(c);
    SubSeqAppend(a, b, c, c);
  }

  /** A call that returns gets the module past what it had still to hand over. */
  lemma ReturnEmits(m: Module)
    ensures Emitted(Returns(m)) == Emitted(m) + Unhanded(m.pc)
  {
    if !m.pc.Idle? { EmitsSnoc(m.done, Current(m.pc)[0]); } else { assert m.done + [] == m.done; }
  }

  /** A call returns without handing anything over: a file that was not sent, an output that was dropped, or nothing. */
  lemma SkipOrdered(m: Module, to: ToPc, cancelled: bool, taken: seq<OutMsg>, sent: seq<OutMsg>, dropped: bool,
                    dropped': bool)
    requires Ordered(m, to, cancelled, taken, sent, dropped)
    requires dropped' == (dropped || m.pc.Offering?) && (dropped' ==> cancelled)
    ensures Ordered(Returns(m), to, cancelled, taken, sent, dropped')
  {
    ReturnEmits(m);
    SubSeqGrows(taken, Emitted(m), Unhanded(m.pc));
    NonFilesConcat(Emitted(m), Unhanded(m.pc));
    if !m.pc.Offering? { NoneUnhanded(m.pc, NonFiles(Emitted(m))); }
  }

  lemma NoneUnhanded(pc: ModulePc, msgs: seq<OutMsg>)
    requires !pc.Offering?
    ensures msgs + NonFiles(Unhanded(pc)) == msgs
  {
    assert |Unhanded(pc)| <= 1;
    if Unhanded(pc) != [] {
      NonFilesOne(Unhanded(pc)[0]);
      assert Unhanded(pc) == [Unhanded(pc)[0]];
    }
  }

  /** A message is handed over: the module is past it and the worker has it. */
  lemma HandOrdered(m: Module, m': Module, to': ToPc, cancelled: bool, taken: seq<OutMsg>, sent: seq<OutMsg>,
                    dropped: bool, msg: OutMsg)
    requires Ordered(m, ToSelect, cancelled, taken, sent, dropped)
    requires Emitted(m') == Emitted(m) + [msg] && !m'.pc.Offering?
    requires !to'.ToEnded? && InHand(to') == NonFile(msg)
    ensures Ordered(m', to', cancelled, taken + [msg], sent, dropped)
  {
    SubSeqBoth(taken, Emitted(m), [msg]);
    NonFilesSnoc(taken, msg);
    NonFilesSnoc(Emitted(m), msg);
    assert NonFiles(sent) + [] == NonFiles(sent);
  }

  lemma TakeInOrder(s: State)
    requires InOrder(s) && Enabled(s, TakeOutput)
    ensures InOrder(Do(s, TakeOutput))
  {
    var s' := Do(s, TakeOutput);
    var msg := EmitOf(s.mod.pc.call)[0];
    ReturnEmits(s.mod);
    assert Emitted(s'.mod) == Emitted(s.mod) + [msg] by {
      assert Emits(s.mod.done) + [] == Emits(s.mod.done);
    }
    HandOrdered(s.mod, s'.mod, s'.to, s.cancelled, s.log.taken, s.log.sent, s.log.dropped, msg);
  }

  lemma TakeFileInOrder(s: State)
    requires InOrder(s) && Enabled(s, TakeFile)
    ensures InOrder(Do(s, TakeFile))
  {
    var s' := Do(s, TakeFile);
    ReturnEmits(s.mod);
    HandOrdered(s.mod, s'.mod, s'.to, s.cancelled, s.log.taken, s.log.sent, s.log.dropped,
                File(s.mod.pc.name, s.mod.pc.data));
  }

  lemma ModuleInOrder(s: State, a: Step)
    requires InOrder(s) && Enabled(s, a) && (a.SourceFails? || a.ModuleSeesDone? || a.GiveStdin? || a.GiveFile?)
    ensures InOrder(Do(s, a))
  {
    SkipOrdered(s.mod, s.to, s.cancelled, s.log.taken, s.log.sent, s.log.dropped, Do(s, a).log.dropped);
  }

  lemma StartInOrder(s: State)
    requires InOrder(s) && Enabled(s, StartCall)
    ensures InOrder(Do(s, StartCall))
  {
    StartShape(s);
    var m, m' := s.mod, Do(s, StartCall).mod;
    if m'.pc.Idle? {
      var call := m.todo[0];
      var refused := m.(pc := SendChecked(call.name, call.data));
      SkipOrdered(refused, s.to, s.cancelled, s.log.taken, s.log.sent, s.log.dropped, s.log.dropped);
      assert Emitted(m') == Emitted(Returns(refused));
    }
  }

  lemma SentInOrder(s: State)
    requires InOrder(s) && Enabled(s, SendSucceeds)
    ensures InOrder(Do(s, SendSucceeds))
  {
    var to' := if s.to.msg.File? then ToClearing else ToSelect;
    assert Do(s, SendSucceeds) == s.(to := to', log := s.log.(sent := s.log.sent + [s.to.msg]));
    SentOrdered(s.mod, s.to.msg, to', s.cancelled, s.log.taken, s.log.sent, s.log.dropped);
  }

  lemma SentOrdered(m: Module, msg: OutMsg, to': ToPc, cancelled: bool, taken: seq<OutMsg>, sent: seq<OutMsg>,
                    dropped: bool)
    requires Ordered(m, Sending(msg), cancelled, taken, sent, dropped) && (to' == ToClearing || to' == ToSelect)
    ensures Ordered(m, to', cancelled, taken, sent + [msg], dropped)
  {
    NonFilesSnoc(sent, msg);
    var all := NonFiles(sent + [msg]);
    assert all + [] == all;
  }

  lemma ToInOrder(s: State, a: Step)
    requires InOrder(s) && Enabled(s, a) && ByTo(a) && !a.SendSucceeds?
    ensures InOrder(Do(s, a))
  {
    ToKeeps(s, a);
  }

  lemma ToKeeps(s: State, a: Step)
    requires Enabled(s, a) && ByTo(a) && !a.SendSucceeds?
    ensures var s' := Do(s, a);
      && s'.mod == s.mod && s'.log == s.log && s'.cancelled == s.cancelled
      && InHand(s'.to) == InHand(s.to) && (s'.to.ToEnded? ==> |s'.to.lost| <= 1)
  {
    if a.SendFails? { NonFilesOne(s.to.msg); }
  }

  lemma StepInOrder(s: State, a: Step)
    requires InOrder(s) && Enabled(s, a)
    ensures InOrder(Do(s, a))
  {
    if a.StartCall? { StartInOrder(s); }
    else if a.TakeOutput? { TakeInOrder(s); }
    else if a.TakeFile? { TakeFileInOrder(s); }
    else if ByModule(a) && !a.SetSendName? { ModuleInOrder(s, a); }
    else if a.SendSucceeds? { SentInOrder(s); }
    else if ByTo(a) { ToInOrder(s, a); }
    else if !a.SetSendName? { OthersInOrder(s, a); }
  }

  lemma OthersInOrder(s: State, a: Step)
    requires InOrder(s) && Enabled(s, a) && !ByModule(a) && !ByTo(a)
    ensures InOrder(Do(s, a))
  {
    OthersKeep(s, a);
    var s' := Do(s, a);
    assert InHand(s'.to) == InHand(s.to);
  }

  lemma {:induction false} AlwaysInOrder(calls: seq<Call>, steps: seq<Step>)
    requires Path(Begin(calls), steps)
    ensures InOrder(After(Begin(calls), steps))
    ensures var m := After(Begin(calls), steps).mod; m.done + Current(m.pc) + m.todo == calls
  {
    if steps != [] {
      var front, a := steps[..|steps| - 1], steps[|steps| - 1];
      AlwaysInOrder(calls, front);
      var s := After(Begin(calls), front);
      StepInOrder(s, a);
      StepKeepsProgram(s, a);
    }
  }

  /** No call is lost, repeated or reordered by the module itself. */
  lemma StepKeepsProgram(s: State, a: Step)
    requires Enabled(s, a)
    ensures var (m, m') := (s.mod, Do(s, a).mod);
      m'.done + Current(m'.pc) + m'.todo == m.done + Current(m.pc) + m.todo
  {
    if a.StartCall? {
      StartShape(s);
      StartKeepsProgram(s.mod, Do(s, a).mod);
    } else if !ByModule(a) && !ByTo(a) {
      OthersKeep(s, a);
    }
  }

  lemma StartKeepsProgram(m: Module, m': Module)
    requires m.pc.Idle? && m.todo != [] && m'.todo == m.todo[1..]
    requires m'.done + Current(m'.pc) == m.done + [m.todo[0]]
    ensures m'.done + Current(m'.pc) + m'.todo == m.done + Current(m.pc) + m.todo
  {
    Regroup(m.done, [m.todo[0]], m.todo[1..]);
    assert m.todo == [m.todo[0]] + m.todo[1..];
    assert m.done + [] == m.done;
  }

  /**
   In every interleaving: what the worker took is the module's messages in
   program order, across all its channels, with none invented or repeated; what
   the client was sent (files aside), followed by at most one message still or
   forever in the worker's hands, is what the worker took; and until the session
   is torn down, no print, output or file request is missing.
   */
  lemma ClientSeesProgramOrder(calls: seq<Call>, steps: seq<Step>)
    requires Path(Begin(calls), steps)
    ensures var s := After(Begin(calls), steps);
      && NonFiles(s.log.sent) + InHand(s.to) == NonFiles(s.log.taken) && |InHand(s.to)| <= 1
      && SubSeq(s.log.taken, Emitted(s.mod))
      && (!s.cancelled ==> NonFiles(s.log.taken) == NonFiles(Emitted(s.mod)))
      && s.mod.done + Current(s.mod.pc) + s.mod.todo == calls
  {
    AlwaysInOrder(calls, steps);
    NonFilesShort(After(Begin(calls), steps).to);
  }

  lemma NonFilesShort(to: ToPc)
    requires to.ToEnded? ==> |to.lost| <= 1
    ensures |InHand(to)| <= 1
  {
    match to
    case ToEnded(lost) => if lost != [] { NonFilesOne(lost[0]); assert lost == [lost[0]]; }
    case _ =>
  }
}

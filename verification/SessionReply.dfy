/** When the client's reply to a file request can still reach the module. */
module SessionReply {
  import opened Base
  import Err = ErrChannel
  import opened Session
  import opened SessionFiles
  import opened SessionSend
  import opened SessionVerdict

  /** The module waits for a file and the client has replied. */
  predicate Replied(s: State) { s.mod.pc.AwaitingFile? && s.mod.pc.k in s.log.answers }

  // ---------------------------------------------------------------- conservation

  /** The receive loop has received its last message. */
  predicate LoopOver(loop: LoopPc) { loop.LoopEnded? || (loop.Passing? && !loop.res.Message?) }

  predicate Behind(s: State) { !s.from.FromEnded? && !LoopOver(s.loop) }

  /** A reply is on its way: with the worker, or behind it with all that must pass it on still at work. */
  predicate OnItsWay(s: State)
  {
    InFrom(s.from) != [] || (Behind(s) && InLoop(s.loop) + Uploads(s.inbox) != [])
  }

  /** A reply that was not stolen is not lost as long as the worker and the receive loop go on. */
  ghost predicate Conserved(s: State)
  {
    Replied(s) && !s.log.stolen && Behind(s) ==> Flying(s) != []
  }

  lemma PassConserved(s: State)
    requires Conserved(s) && Enabled(s, PassResult)
    ensures Conserved(Do(s, PassResult))
  {
    OthersKeep(s, PassResult);
    var s' := DoPassResult(s);
    if Behind(s') {
      assert s.loop.res.Message? && InFrom(s.from) == [] && s'.inbox == s.inbox;
      assert InFrom(s'.from) == InLoop(s.loop) && InLoop(s'.loop) == [];
      var rest := InLoop(s.loop) + Uploads(s.inbox);
      assert Flying(s) == [] + rest && Flying(s') == InLoop(s.loop) + ([] + Uploads(s.inbox));
    }
  }

  lemma FromConserved(s: State, a: Step)
    requires Conserved(s) && Enabled(s, a) && ByFrom(a) && !a.PassResult?
    ensures Conserved(Do(s, a))
  {
    OthersKeep(s, a);
  }

  lemma LoopConserved(s: State, a: Step)
    requires Conserved(s) && Enabled(s, a) && ByLoop(a)
    ensures Conserved(Do(s, a))
  {
    OthersKeep(s, a);
    if a.ReceiveMessage? {
      var first := if s.inbox[0].Upload? then [s.inbox[0]] else [];
      assert Flying(s) == InFrom(s.from) + ([] + (first + Uploads(s.inbox[1..])));
    }
  }

  lemma ClientConserved(s: State, m: InMsg)
    requires Held(s) && Conserved(s) && Prompted(s, ClientSends(m)) && !s.log.abandoned
    ensures Conserved(Do(s, ClientSends(m)))
  {
    var s' := Do(s, ClientSends(m));
    SentFlying(s, m);
    assert s'.mod == s.mod && s'.from == s.from && s'.loop == s.loop && s'.log.stolen == s.log.stolen;
    if m.Upload? {
      assert |Flying(s')| > 0;
    } else {
      assert s'.log.answers == s.log.answers && Flying(s') == Flying(s);
    }
  }

  /** The module's own steps and toClientWorker's lose no reply: the module leaves its request, or nothing moves. */
  lemma QuietConserved(s: State, a: Step)
    requires Held(s) && Conserved(s) && Enabled(s, a) && !s.log.abandoned
    requires !ByFrom(a) && !ByLoop(a) && !a.ClientSends?
    ensures Conserved(Do(s, a))
  {
    QuietFrame(s, a);
    if Replied(Do(s, a)) {
      assert a.TakeOutput? ==> |s.log.requests| !in s.log.answers;
      OtherFlying(s, a);
    }
  }

  /** Such a step leaves the messages from the client where they are, unless the module takes one and goes on. */
  lemma QuietFrame(s: State, a: Step)
    requires Enabled(s, a) && !ByFrom(a) && !ByLoop(a) && !a.ClientSends?
    ensures var s' := Do(s, a);
      && s'.loop == s.loop && s'.inbox == s.inbox && s'.log.answers == s.log.answers
      && s'.log.stolen == s.log.stolen && s'.log.wiped == s.log.wiped
      && (s'.mod.pc.AwaitingFile? ==> s'.from == s.from)
      && (s'.mod.pc.AwaitingFile? && s'.mod.pc != s.mod.pc ==> a.TakeOutput? && s'.mod.pc.k == |s.log.requests|)
      && (s.mod.pc.AwaitingFile? && s'.mod.pc != s.mod.pc ==> a.GiveFile? || a.ModuleSeesDone?)
  {
    if a.StartCall? { StartShape(s); }
  }

  lemma StepConserved(s: State, a: Step)
    requires Held(s) && Conserved(s) && Enabled(s, a) && Prompted(s, a) && !s.log.abandoned
    ensures Conserved(Do(s, a))
  {
    if a.PassResult? { PassConserved(s); }
    else if ByFrom(a) { FromConserved(s, a); }
    else if ByLoop(a) { LoopConserved(s, a); }
    else if a.ClientSends? { ClientConserved(s, a.m); }
    else { QuietConserved(s, a); }
  }

  lemma {:induction false} AlwaysConserved(calls: seq<Call>, steps: seq<Step>)
    requires Path(Begin(calls), steps) && PromptedPath(Begin(calls), steps)
    ensures Held(After(Begin(calls), steps))
    ensures !After(Begin(calls), steps).log.abandoned ==> Conserved(After(Begin(calls), steps))
  {
    if steps == [] {
      BeginHeld(calls);
    } else {
      var front, a := steps[..|steps| - 1], steps[|steps| - 1];
      AlwaysConserved(calls, front);
      var s := After(Begin(calls), front);
      StepHeld(s, a);
      FlagsStay(s, a);
      if !s.log.abandoned { StepConserved(s, a); }
    }
  }

  /**
   In every interleaving with a prompted client and no request given up, once the
   client has replied to the request being waited on: the reply is on its way,
   unless it was stolen by the other worker, this worker has ended (having
   rejected it or not), or the receive loop was over before passing it on.
   */
  lemma ReplyLostExactly(calls: seq<Call>, steps: seq<Step>)
    requires Path(Begin(calls), steps) && PromptedPath(Begin(calls), steps)
    requires var s := After(Begin(calls), steps); !s.log.abandoned && Replied(s)
    ensures var s := After(Begin(calls), steps);
      !OnItsWay(s) <==> s.log.stolen || s.from.FromEnded? || (LoopOver(s.loop) && InFrom(s.from) == [])
  {
    AlwaysConserved(calls, steps);
    WayHome(After(Begin(calls), steps));
  }

  lemma WayHome(s: State)
    requires Held(s) && Conserved(s) && !s.log.abandoned && Replied(s)
    ensures !OnItsWay(s) <==> s.log.stolen || s.from.FromEnded? || (LoopOver(s.loop) && InFrom(s.from) == [])
  {
    var rest := InLoop(s.loop) + Uploads(s.inbox);
    assert Flying(s) == InFrom(s.from) + rest;
    assert InFrom(s.from) == [] ==> Flying(s) == rest;
    if s.log.stolen {
      assert |Flying(s)| == 0;
    }
  }

  // --------------------------------------------- whether the module can still get it

  /** The messages the worker has not been passed yet. */
  function Queue(s: State): (q: seq<InMsg>)
  {
    if LoopOver(s.loop) then []
    else (if s.loop.Passing? then [s.loop.res.m] else []) + s.inbox
  }

  /** The first message that is not just skipped. */
  function Front(q: seq<InMsg>): (m: Option<InMsg>)
  {
    if q == [] then None else if q[0].Other? then Front(q[1..]) else Some(q[0])
  }

  lemma {:induction false} FrontSnoc(q: seq<InMsg>, m: InMsg)
    ensures Front(q + [m]) == if Front(q).Some? then Front(q) else if m.Other? then None else Some(m)
  {
    if q == [] {
      assert q + [m] == [m];
    } else {
      FrontSnoc(q[1..], m);
      assert (q + [m])[0] == q[0] && (q + [m])[1..] == q[1..] + [m];
    }
  }

  /** The reply would pass: named, with content, and the name still on record. */
  predicate Passes(s: State)
    requires Replied(s)
  {
    !s.log.wiped && s.mod.pc.name != "" && s.log.answers[s.mod.pc.k].Some?
  }

  /** Nothing the worker must deal with first stands between the reply and the module. */
  predicate Answerable(s: State)
    requires Replied(s)
  {
    || s.from.GivingFile?
    || (&& Passes(s)
        && (s.from.Judging? || (s.from.FromSelect? && Front(Queue(s)).Some? && Front(Queue(s)).value.Upload?)))
  }

  /** Some continuation, with the request not given up, brings the worker to hand the reply over. */
  ghost predicate CanBeAnswered(s: State)
  {
    exists more :: Path(s, more) && PromptedPath(s, more) && Delivers(s, After(s, more))
  }

  predicate Delivers(s: State, s': State)
  {
    !s'.log.abandoned && s'.mod.pc == s.mod.pc && Enabled(s', GiveFile)
  }

  // ------------------------------------------------------------------- if it can be

  /** The next step on the reply's way. */
  function Forth(s: State): (a: Step)
  {
    if s.from.Judging? then JudgeUpload else if s.loop.Passing? then PassResult else ReceiveMessage
  }

  function Way(s: State): (n: nat)
  {
    4 * |s.inbox| + (if s.loop.Passing? then 3 else 0) + (if s.from.Judging? then 1 else 0)
  }

  ghost predicate Waits(s: State) { Held(s) && !s.log.abandoned && Replied(s) }

  /** The worker judges the reply being waited for. */
  lemma JudgesIt(s: State)
    requires Waits(s) && s.from.Judging?
    ensures Do(s, JudgeUpload) == if Passes(s) then s.(from := GivingFile(s.from.upload))
                                  else EndFrom(s, Some(Err.BadFileTransfer))
  {
    JudgedOnRecord(s);
    assert Flying(s)[0] == s.from.upload;
    assert s.from.upload in Flying(s);
  }

  lemma ForthGoes(s: State)
    requires Waits(s) && Answerable(s) && !s.from.GivingFile?
    ensures Enabled(s, Forth(s)) && Prompted(s, Forth(s))
    ensures var s' := Do(s, Forth(s)); s'.mod == s.mod && s'.log == s.log && Answerable(s') && Way(s') < Way(s)
  {
    if s.from.Judging? { JudgesIt(s); } else { ForthQueue(s); }
  }

  lemma ForthQueue(s: State)
    requires Replied(s) && Answerable(s) && s.from.FromSelect?
    ensures Enabled(s, Forth(s))
    ensures var s' := Do(s, Forth(s)); s'.mod == s.mod && s'.log == s.log && Answerable(s') && Way(s') < Way(s)
  {
    if s.loop.Passing? { PassQueue(s); PassKeeps(s); } else { ReceiveQueue(s); }
  }

  /** Passing a message on takes it off the queue. */
  lemma PassQueue(s: State)
    requires Enabled(s, PassResult) && s.loop.res.Message?
    ensures Queue(s) != [] && Queue(s)[0] == s.loop.res.m
    ensures Queue(DoPassResult(s)) == Queue(s)[1..]
  {
    assert Queue(s)[1..] == s.inbox && [] + s.inbox == s.inbox;
  }

  /** Receiving one leaves the queue as it is. */
  lemma ReceiveQueue(s: State)
    requires s.loop.Receiving?
    ensures Queue(s) == s.inbox
    ensures s.inbox != [] ==> Queue(Do(s, ReceiveMessage)) == Queue(s)
  {
    assert [] + s.inbox == s.inbox;
    if s.inbox != [] { assert [s.inbox[0]] + s.inbox[1..] == s.inbox; }
  }

  lemma PathCons(s: State, a: Step, more: seq<Step>)
    requires Enabled(s, a) && Prompted(s, a) && Path(Do(s, a), more) && PromptedPath(Do(s, a), more)
    ensures Path(s, [a] + more) && PromptedPath(s, [a] + more) && After(s, [a] + more) == After(Do(s, a), more)
  {
    if more == [] {
      assert [a] + more == [a] && [a][..0] == [];
    } else {
      var front, last := more[..|more| - 1], more[|more| - 1];
      PathCons(s, a, front);
      assert ([a] + more)[..|more|] == [a] + front && ([a] + more)[|more|] == last;
    }
  }

  lemma {:induction false} BringForth(s: State) returns (more: seq<Step>)
    requires Waits(s) && Answerable(s)
    ensures Path(s, more) && PromptedPath(s, more) && Delivers(s, After(s, more))
    decreases Way(s)
  {
    more := [];
    if !s.from.GivingFile? {
      var a := Forth(s);
      ForthGoes(s);
      StepHeld(s, a);
      var rest := BringForth(Do(s, a));
      PathCons(s, a, rest);
      more := [a] + rest;
    }
  }

  // ---------------------------------------------------------------- if it cannot be

  /** Still the same request, still with a reply, and still no way for it. */
  ghost predicate Barred(s: State, s': State)
  {
    s'.mod.pc == s.mod.pc && Replied(s') && !Answerable(s')
  }

  lemma FromBarred(s: State, a: Step)
    requires Waits(s) && !Answerable(s) && Enabled(s, a) && ByFrom(a)
    ensures Barred(s, Do(s, a))
  {
    OthersKeep(s, a);
    match a
    case JudgeUpload => JudgesIt(s);
    case PassResult => PassBarred(s);
    case ClearGiven => WipeStep(s, a);
    case _ => EndBarred(s, a);
  }

  lemma EndBarred(s: State, a: Step)
    requires Waits(s) && !Answerable(s) && Enabled(s, a) && (a.StealFile? || a.FromSeesDone? || a.DrainResult?)
    ensures Barred(s, Do(s, a))
  {
    OthersKeep(s, a);
  }

  lemma PassBarred(s: State)
    requires Waits(s) && !Answerable(s) && Enabled(s, PassResult)
    ensures Barred(s, DoPassResult(s))
  {
    PassKeeps(s);
    if s.loop.res.Message? { PassQueue(s); MessageBarred(s); }
  }

  lemma MessageBarred(s: State)
    requires Replied(s) && !Answerable(s) && Enabled(s, PassResult) && s.loop.res.Message?
    requires Queue(s) != [] && Queue(s)[0] == s.loop.res.m && Queue(DoPassResult(s)) == Queue(s)[1..]
    requires DoPassResult(s).mod == s.mod && DoPassResult(s).log == s.log
    ensures !Answerable(DoPassResult(s))
  {
  }

  lemma LoopBarred(s: State, a: Step)
    requires Waits(s) && !Answerable(s) && Enabled(s, a) && ByLoop(a)
    ensures Barred(s, Do(s, a))
  {
    OthersKeep(s, a);
    if a.ReceiveMessage? { ReceiveQueue(s); }
  }

  lemma ClientBarred(s: State, m: InMsg)
    requires Waits(s) && !Answerable(s) && Prompted(s, ClientSends(m))
    ensures Barred(s, Do(s, ClientSends(m)))
  {
    assert !m.Upload? by { if m.Upload? { ReplyIsNew(s, m); } }
    var s' := Do(s, ClientSends(m));
    FrontSnoc(Queue(s), m);
    if !LoopOver(s.loop) {
      Regroup(if s.loop.Passing? then [s.loop.res.m] else [], s.inbox, [m]);
      assert Queue(s') == Queue(s) + [m];
    }
  }

  lemma StepBarred(s: State, a: Step)
    requires Waits(s) && !Answerable(s) && Enabled(s, a) && Prompted(s, a) && !Do(s, a).log.abandoned
    ensures Barred(s, Do(s, a))
  {
    if ByFrom(a) { FromBarred(s, a); }
    else if ByLoop(a) { LoopBarred(s, a); }
    else if a.ClientSends? { ClientBarred(s, a.m); }
    else { QuietFrame(s, a); }
  }

  lemma {:induction false} AlwaysBarred(s: State, more: seq<Step>)
    requires Waits(s) && !Answerable(s) && Path(s, more) && PromptedPath(s, more) && !After(s, more).log.abandoned
    ensures Barred(s, After(s, more)) && Held(After(s, more))
  {
    if more != [] {
      var front, a := more[..|more| - 1], more[|more| - 1];
      FlagsStay(After(s, front), a);
      AlwaysBarred(s, front);
      StepHeld(After(s, front), a);
      StepBarred(After(s, front), a);
    }
  }

  /**
   Once the client has replied, whether the module can still be given the reply
   is decided: exactly if the worker already offers it, or it would pass and is
   with the worker, or is what an idle worker comes to next.
   */
  lemma AnswerableExactly(calls: seq<Call>, steps: seq<Step>)
    requires Path(Begin(calls), steps) && PromptedPath(Begin(calls), steps)
    requires var s := After(Begin(calls), steps); !s.log.abandoned && Replied(s)
    ensures var s := After(Begin(calls), steps); CanBeAnswered(s) <==> Answerable(s)
  {
    AlwaysConserved(calls, steps);
    Decided(After(Begin(calls), steps));
  }

  lemma Decided(s: State)
    requires Waits(s)
    ensures CanBeAnswered(s) <==> Answerable(s)
  {
    if Answerable(s) {
      var more := BringForth(s);
    } else {
      forall more | Path(s, more) && PromptedPath(s, more) ensures !Delivers(s, After(s, more)) {
        NeverDelivers(s, more);
      }
    }
  }

  lemma NeverDelivers(s: State, more: seq<Step>)
    requires Waits(s) && !Answerable(s) && Path(s, more) && PromptedPath(s, more)
    ensures !Delivers(s, After(s, more))
  {
    if !After(s, more).log.abandoned { AlwaysBarred(s, more); }
  }

  /**
   So input typed ahead of a reply keeps it from the module: the worker first
   offers the input to a module that is waiting for the file. Nothing was
   cancelled, stolen or wiped, and nothing but giving up ends the wait.
   */
  lemma InputBeforeReplyBlocks(a: string, b: string, typed: Data, content: Data) returns (steps: seq<Step>, s: State)
    requires a != ""
    ensures Leads([RequestFile(a), RequestFile(b)], steps, s) && !s.cancelled
    ensures !s.log.abandoned && !s.log.stolen && !s.log.wiped
    ensures Replied(s) && s.log.answers == map[0 := Some(content)] && !CanBeAnswered(s)
  {
    var calls := [RequestFile(a), RequestFile(b)];
    steps, s := FirstAsked(a, b);
    steps, s := InputOffered(calls, steps, s, typed);
    steps, s := Then(calls, steps, s, ClientSends(Upload(a, Some(content), 0)));
    BeginHeld(calls);
    HeldAfter(Begin(calls), steps);
    Decided(s);
  }

  lemma InputOffered(calls: seq<Call>, steps: seq<Step>, s: State, typed: Data) returns (more: seq<Step>, s': State)
    requires Leads(calls, steps, s) && s.loop == Receiving && s.inbox == [] && s.from == FromSelect
    ensures Leads(calls, more, s')
    ensures s' == s.(from := GivingStdin(typed), log := s.log.(typed := s.log.typed + [typed]))
  {
    more, s' := Then(calls, steps, s, ClientSends(Stdin(typed)));
    var sent := s.(log := s.log.(typed := s.log.typed + [typed]));
    assert s' == sent.(inbox := [Stdin(typed)]);
    more, s' := InputArrives(calls, more, s', typed);
    assert s' == sent.(from := GivingStdin(typed));
  }

  lemma InputArrives(calls: seq<Call>, steps: seq<Step>, s: State, typed: Data) returns (more: seq<Step>, s': State)
    requires Leads(calls, steps, s) && s.loop == Receiving && s.inbox == [Stdin(typed)] && s.from == FromSelect
    ensures Leads(calls, more, s') && s' == s.(from := GivingStdin(typed), inbox := [])
  {
    more, s' := Then(calls, steps, s, ReceiveMessage);
    assert s' == s.(loop := Passing(Message(Stdin(typed))), inbox := []);
    more, s' := Then(calls, more, s', PassResult);
  }
}

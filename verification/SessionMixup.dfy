/** Which modules can come to read the file of another of their requests. */
module SessionMixup {
  import opened Base
  import opened Session
  import opened SessionFiles
  import SessionOrder

  /** In some interleaving with an honest client a reader is not on the reply to its own request. */
  ghost predicate CanMixUp(calls: seq<Call>)
  {
    exists steps ::
      Path(Begin(calls), steps) && HonestPath(Begin(calls), steps) && MixedUp(After(Begin(calls), steps).log)
  }

  ghost predicate MixedUp(log: Log)
  {
    exists i :: 0 <= i < |log.readers| && !OnOwnReply(log.readers[i])
  }

  /** The module requests a file by name, and later another. */
  ghost predicate AsksTwice(calls: seq<Call>)
  {
    exists i, j :: 0 <= i < j < |calls| && calls[i].RequestFile? && calls[i].name != "" && calls[j].RequestFile?
  }

  // ------------------------------------------------ a mix-up takes two requests

  function Asks(requests: seq<string>): (r: seq<Call>)
    ensures |r| == |requests| && forall i :: 0 <= i < |r| ==> r[i] == RequestFile(requests[i])
  {
    seq(|requests|, i requires 0 <= i < |requests| => RequestFile(requests[i]))
  }

  /** The calls the module has got past, and the request it waits on. */
  function Past(m: Module): (r: seq<Call>) { m.done + (if m.pc.AwaitingFile? then [RequestFile(m.pc.name)] else []) }

  /** The requests made are calls of the program, in order. */
  ghost predicate Programmed(m: Module, requests: seq<string>) { SubSeq(Asks(requests), Past(m)) }

  /** Whatever is given or read was asked for by a name, and no later than the reader's request. */
  ghost predicate NamedGiven(from: FromPc, readers: seq<Opened>)
  {
    && (from.GivingFile? ==> from.upload.Upload? && from.upload.path != "")
    && (forall i :: 0 <= i < |readers| ==> GivenInTime(readers[i]))
  }

  predicate GivenInTime(r: Opened) { r.upload.Upload? && r.upload.path != "" && r.upload.reply <= r.k }

  ghost predicate Traced(s: State)
  {
    Kept(s) && Programmed(s.mod, s.log.requests) && NamedGiven(s.from, s.log.readers)
  }

  lemma PastGrows(m: Module, m': Module, requests: seq<string>, more: seq<Call>)
    requires Programmed(m, requests) && Past(m') == Past(m) + more
    ensures Programmed(m', requests)
  {
    SubSeqAppend(Asks(requests), Past(m), [], more);
    assert Asks(requests) + [] == Asks(requests);
  }

  lemma PastAsks(m: Module, m': Module, requests: seq<string>, name: string)
    requires Programmed(m, requests) && Past(m') == Past(m) + [RequestFile(name)]
    ensures Programmed(m', requests + [name])
  {
    SubSeqReflexive([RequestFile(name)]);
    SubSeqAppend(Asks(requests), Past(m), [RequestFile(name)], [RequestFile(name)]);
    assert Asks(requests + [name]) == Asks(requests) + [RequestFile(name)];
  }

  lemma StepProgrammed(s: State, a: Step)
    requires Kept(s) && Programmed(s.mod, s.log.requests) && Enabled(s, a)
    ensures Programmed(Do(s, a).mod, Do(s, a).log.requests)
  {
    if a.TakeOutput? && s.mod.pc.call.RequestFile? {
      assert Past(s.mod) == s.mod.done;
      PastAsks(s.mod, Do(s, a).mod, s.log.requests, s.mod.pc.call.name);
    } else {
      var more := PastMore(s, a);
      PastGrows(s.mod, Do(s, a).mod, s.log.requests, more);
    }
  }

  lemma PastMore(s: State, a: Step) returns (more: seq<Call>)
    requires Enabled(s, a) && !(a.TakeOutput? && s.mod.pc.call.RequestFile?)
    ensures Past(Do(s, a).mod) == Past(s.mod) + more && Do(s, a).log.requests == s.log.requests
  {
    var m, m' := s.mod, Do(s, a).mod;
    more := if m'.done != m.done && !m.pc.AwaitingFile? then m'.done[|m.done|..] else [];
    if a.StartCall? { StartShape(s); } else if !ByModule(a) && !ByTo(a) { OthersKeep(s, a); }
    if ByModule(a) && !a.StartCall? && !a.SetSendName? { ReturnPast(m); }
  }

  lemma ReturnPast(m: Module)
    ensures Past(Returns(m)) == m.done + Current(m.pc)
  {
  }

  lemma StepNamedGiven(s: State, a: Step)
    requires Kept(s) && NamedGiven(s.from, s.log.readers) && Enabled(s, a)
    ensures NamedGiven(Do(s, a).from, Do(s, a).log.readers)
  {
    if a.GiveFile? {
      assert Flying(s)[0] == s.from.upload;
      assert s.from.upload in Flying(s);
      assert GivenInTime(Opened(s.mod.pc.name, s.mod.pc.k, s.from.upload));
    } else {
      GivesNamed(s, a);
    }
  }

  lemma GivesNamed(s: State, a: Step)
    requires Sound(s) && Enabled(s, a) && !a.GiveFile?
    ensures Do(s, a).log.readers == s.log.readers
    ensures Do(s, a).from.GivingFile? ==>
      Do(s, a).from == s.from || (a.JudgeUpload? && Do(s, a).from.upload.Upload? && Do(s, a).from.upload.path != "")
  {
    if a.StartCall? { StartShape(s); } else if !ByModule(a) && !ByTo(a) { OthersKeep(s, a); }
  }

  lemma {:induction false} AlwaysTraced(calls: seq<Call>, steps: seq<Step>)
    requires Path(Begin(calls), steps) && HonestPath(Begin(calls), steps)
    ensures Traced(After(Begin(calls), steps))
    ensures var m := After(Begin(calls), steps).mod; m.done + Current(m.pc) + m.todo == calls
  {
    if steps != [] {
      var front, a := steps[..|steps| - 1], steps[|steps| - 1];
      AlwaysTraced(calls, front);
      var s := After(Begin(calls), front);
      StepKept(s, a);
      StepProgrammed(s, a);
      StepNamedGiven(s, a);
      SessionOrder.StepKeepsProgram(s, a);
    }
  }

  lemma {:induction false} SubSeqPair(a: seq<Call>, b: seq<Call>, x: nat, y: nat) returns (i: nat, j: nat)
    requires SubSeq(a, b) && x < y < |a|
    ensures i < j < |b| && b[i] == a[x] && b[j] == a[y]
    decreases |b|
  {
    if a[0] != b[0] {
      i, j := SubSeqPair(a, b[1..], x, y);
      i, j := i + 1, j + 1;
    } else if x > 0 {
      i, j := SubSeqPair(a[1..], b[1..], x - 1, y - 1);
      i, j := i + 1, j + 1;
    } else {
      j := SubSeqOne(a[1..], b[1..], y - 1);
      i, j := 0, j + 1;
    }
  }

  lemma {:induction false} SubSeqOne(a: seq<Call>, b: seq<Call>, y: nat) returns (j: nat)
    requires SubSeq(a, b) && y < |a|
    ensures j < |b| && b[j] == a[y]
    decreases |b|
  {
    if a[0] != b[0] {
      j := SubSeqOne(a, b[1..], y);
      j := j + 1;
    } else if y == 0 {
      j := 0;
    } else {
      j := SubSeqOne(a[1..], b[1..], y - 1);
      j := j + 1;
    }
  }

  lemma MixUpAsksTwice(calls: seq<Call>, steps: seq<Step>)
    requires Path(Begin(calls), steps) && HonestPath(Begin(calls), steps) && MixedUp(After(Begin(calls), steps).log)
    ensures AsksTwice(calls)
  {
    AlwaysTraced(calls, steps);
    var s := After(Begin(calls), steps);
    var n :| 0 <= n < |s.log.readers| && !OnOwnReply(s.log.readers[n]);
    var r := s.log.readers[n];
    assert GivenInTime(r) && Proper(s.log, r);
    TwoAsked(calls, s.mod, s.log.requests, r.upload.reply, r.k);
  }

  /** Two requests made are two calls of the program. */
  lemma TwoAsked(calls: seq<Call>, m: Module, requests: seq<string>, x: nat, y: nat)
    requires Programmed(m, requests) && x < y < |requests| && requests[x] != ""
    requires m.done + Current(m.pc) + m.todo == calls
    ensures AsksTwice(calls)
  {
    var i, j := SubSeqPair(Asks(requests), Past(m), x, y);
    assert Past(m) <= calls;
    assert calls[i] == Asks(requests)[x] && calls[j] == Asks(requests)[y];
  }

  // ------------------------------------------------ two requests can be mixed up

  /** At teardown the module gets past a call without anybody taking notice. */
  lemma SkipOne(calls: seq<Call>, steps: seq<Step>, s: State) returns (more: seq<Step>, s': State)
    requires Leads(calls, steps, s) && s.cancelled && s.mod.pc == Idle && s.mod.todo != []
    ensures Leads(calls, more, s')
    ensures s' == s.(mod := Module(Idle, s.mod.done + [s.mod.todo[0]], s.mod.todo[1..]),
                     log := s.log.(dropped := s'.log.dropped))
  {
    more, s' := Then(calls, steps, s, StartCall);
    StartShape(s);
    if s'.mod.pc.SendChecked? {
      more, s' := Then(calls, more, s', SourceFails);
    } else if !s'.mod.pc.Idle? {
      more, s' := Then(calls, more, s', ModuleSeesDone);
    }
  }

  lemma {:induction false} Skip(calls: seq<Call>, steps: seq<Step>, s: State, n: nat)
    returns (more: seq<Step>, s': State)
    requires Leads(calls, steps, s) && s.cancelled && s.mod.pc == Idle && n <= |s.mod.todo|
    ensures Leads(calls, more, s')
    ensures s' == s.(mod := Module(Idle, s.mod.done + s.mod.todo[..n], s.mod.todo[n..]),
                     log := s.log.(dropped := s'.log.dropped))
    decreases n
  {
    if n == 0 {
      more, s' := steps, s;
      assert s.mod.done + s.mod.todo[..0] == s.mod.done;
    } else {
      var s1: State;
      more, s1 := SkipOne(calls, steps, s);
      more, s' := Skip(calls, more, s1, n - 1);
      Regroup(s.mod.done, [s.mod.todo[0]], s.mod.todo[1..][..n - 1]);
      assert [s.mod.todo[0]] + s.mod.todo[1..][..n - 1] == s.mod.todo[..n];
    }
  }

  /** Past call i, the module comes to call j. */
  lemma SkipTo(calls: seq<Call>, steps: seq<Step>, s: State, i: nat, j: nat) returns (more: seq<Step>, s': State)
    requires Leads(calls, steps, s) && s.cancelled && i < j < |calls|
    requires s.mod == Module(Idle, calls[..i + 1], calls[i + 1..])
    ensures Leads(calls, more, s') && s'.mod.todo != [] && s'.mod.todo[0] == calls[j]
    ensures s' == s.(mod := Module(Idle, calls[..j], calls[j..]), log := s.log.(dropped := s'.log.dropped))
  {
    more, s' := Skip(calls, steps, s, j - i - 1);
    SkipSplit(calls, i, j);
  }

  lemma SkipSplit(calls: seq<Call>, i: nat, j: nat)
    requires i < j < |calls|
    ensures calls[..i + 1] + calls[i + 1..][..j - i - 1] == calls[..j]
    ensures calls[i + 1..][j - i - 1..] == calls[j..]
  {
  }

  /** A session cancelled at once comes to any call of the module with nothing else done. */
  lemma SkippedTo(calls: seq<Call>, i: nat) returns (steps: seq<Step>, s: State)
    requires i <= |calls|
    ensures Leads(calls, steps, s)
    ensures s == Begin([]).(mod := Module(Idle, calls[..i], calls[i..]), cancelled := true,
                            log := NOTHING.(dropped := s.log.dropped))
  {
    steps, s := Then(calls, [], Begin(calls), CancelParent);
    steps, s := Skip(calls, steps, s, i);
    assert [] + calls[..i] == calls[..i];
  }

  /** The first request, answered, and given up while the worker offers the reply. */
  lemma FirstGivenUp(calls: seq<Call>, i: nat) returns (steps: seq<Step>, s: State)
    requires i < |calls| && calls[i].RequestFile? && calls[i].name != ""
    ensures Leads(calls, steps, s) && s.cancelled && s.to == ToSelect
    ensures s.mod == Module(Idle, calls[..i + 1], calls[i + 1..])
    ensures s.from == GivingFile(Upload(calls[i].name, Some([0]), 0)) && |s.log.requests| == 1 && s.log.readers == []
  {
    var n := calls[i].name;
    SplitAt(calls, i);
    steps, s := SkippedTo(calls, i);
    steps, s := Offered(calls, steps, s, n);
    steps, s := GiveUp(calls, steps, s);
  }

  lemma SplitAt(calls: seq<Call>, i: nat)
    requires i < |calls|
    ensures calls[i..] != [] && calls[i..][0] == calls[i] && calls[i..][1..] == calls[i + 1..]
    ensures calls[..i] + [calls[i]] == calls[..i + 1]
  {
  }

  /** The module gives up the request it waits on. */
  lemma GiveUp(calls: seq<Call>, steps: seq<Step>, s: State) returns (more: seq<Step>, s': State)
    requires Leads(calls, steps, s) && s.cancelled && s.mod.pc.AwaitingFile?
    ensures Leads(calls, more, s')
    ensures s' == s.(mod := Module(Idle, s.mod.done + [RequestFile(s.mod.pc.name)], s.mod.todo),
                     log := s.log.(abandoned := true))
  {
    more, s' := Then(calls, steps, s, ModuleSeesDone);
  }

  /** The module's first request comes to the worker, answered. */
  lemma Offered(calls: seq<Call>, steps: seq<Step>, s: State, n: string) returns (more: seq<Step>, s': State)
    requires Leads(calls, steps, s) && n != ""
    requires s.mod.pc == Idle && s.mod.todo != [] && s.mod.todo[0] == RequestFile(n)
    requires s.to == ToSelect && s.from == FromSelect && s.loop == Receiving && s.inbox == []
    requires s.log.requests == [] && s.log.answers == map[]
    ensures Leads(calls, more, s') && s'.cancelled == s.cancelled
    ensures s'.mod == Module(AwaitingFile(n, 0), s.mod.done, s.mod.todo[1..]) && s'.to == ToSelect
    ensures s'.from == GivingFile(Upload(n, Some([0]), 0)) && s'.log.requests == [n] && s'.log.readers == s.log.readers
    ensures s'.loop == Receiving && s'.inbox == [] && s'.log.answers == map[0 := Some([0])]
    ensures CountRequests(s'.log.sent) == CountRequests(s.log.sent) + 1 && s'.log.abandoned == s.log.abandoned
  {
    more, s' := Ask(calls, steps, s, n);
    more, s' := Asked(calls, more, s', n);
    more, s' := Deliver(calls, more, s', Upload(n, Some([0]), 0));
    more, s' := Then(calls, more, s', JudgeUpload);
  }

  lemma Asked(calls: seq<Call>, steps: seq<Step>, s: State, n: string) returns (more: seq<Step>, s': State)
    requires Leads(calls, steps, s) && s.to == Naming(n)
    ensures Leads(calls, more, s')
    ensures s' == s.(to := ToSelect, currentFile := n, log := s.log.(sent := s.log.sent + [FileRequest(n)]))
    ensures CountRequests(s'.log.sent) == CountRequests(s.log.sent) + 1
  {
    more, s' := Then(calls, steps, s, SetRequestName);
    more, s' := Then(calls, more, s', SendSucceeds);
    CountSnoc(s.log.sent, FileRequest(n));
  }

  lemma AskingTwiceMixesUp(calls: seq<Call>, i: nat, j: nat) returns (steps: seq<Step>)
    requires i < j < |calls| && calls[i].RequestFile? && calls[i].name != "" && calls[j].RequestFile?
    ensures Path(Begin(calls), steps) && HonestPath(Begin(calls), steps) && MixedUp(After(Begin(calls), steps).log)
  {
    var s: State;
    steps, s := FirstGivenUp(calls, i);
    steps, s := SkipTo(calls, steps, s, i, j);
    steps, s := Ask(calls, steps, s, calls[j].name);
    steps, s := Then(calls, steps, s, GiveFile);
    assert !OnOwnReply(s.log.readers[0]);
  }

  /**
   A module can come to read the file of another of its requests exactly if it
   makes two, the earlier of them named: at teardown it may give up the first
   while the worker offers the reply, and be handed it for the second.
   */
  lemma MixUpExactly(calls: seq<Call>)
    ensures CanMixUp(calls) <==> AsksTwice(calls)
  {
    if CanMixUp(calls) {
      var steps :|
        Path(Begin(calls), steps) && HonestPath(Begin(calls), steps) && MixedUp(After(Begin(calls), steps).log);
      MixUpAsksTwice(calls, steps);
    }
    if AsksTwice(calls) {
      var i, j :| 0 <= i < j < |calls| && calls[i].RequestFile? && calls[i].name != "" && calls[j].RequestFile?;
      var steps := AskingTwiceMixesUp(calls, i, j);
    }
  }
}

/** What the client types reaches the module. */
module SessionStdin {
  import opened Base
  import opened Session
  import ChanReader

  // ----------------------------------------------------------------- on its way

  function StdinOf(m: InMsg): (r: seq<Data>) { if m.Stdin? then [m.data] else [] }

  function Typed(inbox: seq<InMsg>): (r: seq<Data>)
  {
    if inbox == [] then [] else StdinOf(inbox[0]) + Typed(inbox[1..])
  }

  function WithFrom(from: FromPc): (r: seq<Data>) { if from.GivingStdin? then [from.data] else [] }

  function WithLoop(loop: LoopPc): (r: seq<Data>)
  {
    if loop.Passing? && loop.res.Message? then StdinOf(loop.res.m) else []
  }

  lemma {:induction false} TypedSnoc(inbox: seq<InMsg>, m: InMsg)
    ensures Typed(inbox + [m]) == Typed(inbox) + StdinOf(m)
  {
    if inbox == [] {
      assert inbox + [m] == [m] && [m][1..] == [];
    } else {
      TypedSnoc(inbox[1..], m);
      assert (inbox + [m])[0] == inbox[0] && (inbox + [m])[1..] == inbox[1..] + [m];
      Regroup(StdinOf(inbox[0]), Typed(inbox[1..]), StdinOf(m));
    }
  }

  /** Nobody on the way has stopped passing things on. */
  predicate Flowing(from: FromPc, loop: LoopPc) { !from.FromEnded? && !loop.LoopEnded? }

  /**
   What was read, and what the worker is about to give, comes first of what was typed; while things
   flow, the rest is on its way.
   */
  ghost predicate Piped(from: FromPc, loop: LoopPc, inbox: seq<InMsg>, typed: seq<Data>, read: seq<Data>)
  {
    && read + WithFrom(from) <= typed
    && (Flowing(from, loop) ==> (read + WithFrom(from)) + (WithLoop(loop) + Typed(inbox)) == typed)
  }

  ghost predicate InPipe(s: State) { Piped(s.from, s.loop, s.inbox, s.log.typed, s.log.read) }

  // -------------------------------------------------------------------- every step

  lemma GivePiped(from: FromPc, loop: LoopPc, inbox: seq<InMsg>, typed: seq<Data>, read: seq<Data>)
    requires Piped(from, loop, inbox, typed, read) && from.GivingStdin?
    ensures Piped(FromSelect, loop, inbox, typed, read + [from.data])
  {
    assert (read + [from.data]) + [] == read + [from.data];
  }

  lemma PassPiped(loop: LoopPc, from': FromPc, loop': LoopPc, inbox: seq<InMsg>, typed: seq<Data>, read: seq<Data>)
    requires Piped(FromSelect, loop, inbox, typed, read) && loop.Passing?
    requires from'.FromEnded? || (WithFrom(from') == WithLoop(loop) && WithLoop(loop') == [])
    ensures Piped(from', loop', inbox, typed, read)
  {
    assert read + [] == read;
    Regroup(read, WithLoop(loop), Typed(inbox));
    assert [] + Typed(inbox) == Typed(inbox);
  }

  lemma PassInPipe(s: State)
    requires InPipe(s) && Enabled(s, PassResult)
    ensures InPipe(DoPassResult(s))
  {
    var s' := DoPassResult(s);
    PassPiped(s.loop, s'.from, s'.loop, s.inbox, s.log.typed, s.log.read);
  }

  /** The worker ends, or moves on with nothing from stdin in its hands. */
  lemma FromPiped(from: FromPc, from': FromPc, loop: LoopPc, loop': LoopPc, inbox: seq<InMsg>, typed: seq<Data>,
                   read: seq<Data>)
    requires Piped(from, loop, inbox, typed, read)
    requires from'.FromEnded? || (!from.FromEnded? && !from.GivingStdin? && WithFrom(from') == [] && loop' == loop)
    ensures Piped(from', loop', inbox, typed, read)
  {
    assert read + [] == read;
  }

  lemma FromInPipe(s: State, a: Step)
    requires InPipe(s) && Enabled(s, a) && ByFrom(a)
    ensures InPipe(Do(s, a))
  {
    if a.PassResult? {
      PassInPipe(s);
    } else {
      OthersKeep(s, a);
      var s' := Do(s, a);
      FromPiped(s.from, s'.from, s.loop, s'.loop, s.inbox, s.log.typed, s.log.read);
    }
  }

  lemma ReceivePiped(from: FromPc, inbox: seq<InMsg>, typed: seq<Data>, read: seq<Data>)
    requires Piped(from, Receiving, inbox, typed, read) && inbox != []
    ensures Piped(from, Passing(Message(inbox[0])), inbox[1..], typed, read)
  {
    assert [] + Typed(inbox) == Typed(inbox);
  }

  lemma LoopInPipe(s: State, a: Step)
    requires InPipe(s) && Enabled(s, a) && ByLoop(a)
    ensures InPipe(Do(s, a))
  {
    if a.ReceiveMessage? { ReceivePiped(s.from, s.inbox, s.log.typed, s.log.read); }
  }

  lemma TypePiped(from: FromPc, loop: LoopPc, inbox: seq<InMsg>, typed: seq<Data>, read: seq<Data>, m: InMsg)
    requires Piped(from, loop, inbox, typed, read)
    ensures Piped(from, loop, inbox + [m], typed + StdinOf(m), read)
  {
    TypedSnoc(inbox, m);
    Regroup(WithLoop(loop), Typed(inbox), StdinOf(m));
    Regroup(read + WithFrom(from), WithLoop(loop) + Typed(inbox), StdinOf(m));
  }

  lemma TypeInPipe(s: State, m: InMsg)
    requires InPipe(s)
    ensures InPipe(Do(s, ClientSends(m)))
  {
    TypePiped(s.from, s.loop, s.inbox, s.log.typed, s.log.read, m);
    assert s.log.typed + [] == s.log.typed;
  }

  lemma StepInPipe(s: State, a: Step)
    requires InPipe(s) && Enabled(s, a)
    ensures InPipe(Do(s, a))
  {
    if a.GiveStdin? { GivePiped(s.from, s.loop, s.inbox, s.log.typed, s.log.read); }
    else if a.GiveFile? { FromPiped(s.from, FromClearing, s.loop, s.loop, s.inbox, s.log.typed, s.log.read); }
    else if ByFrom(a) { FromInPipe(s, a); }
    else if ByLoop(a) { LoopInPipe(s, a); }
    else if a.ClientSends? { TypeInPipe(s, a.m); }
    else { RestKeeps(s, a); }
  }

  lemma RestKeeps(s: State, a: Step)
    requires Enabled(s, a) && !a.GiveStdin? && !a.GiveFile? && !ByFrom(a) && !ByLoop(a) && !a.ClientSends?
    ensures var s' := Do(s, a);
      && s'.from == s.from && s'.loop == s.loop && s'.inbox == s.inbox
      && s'.log.typed == s.log.typed && s'.log.read == s.log.read
  {
    if a.StartCall? { StartShape(s); }
  }

  lemma {:induction false} AlwaysInPipe(calls: seq<Call>, steps: seq<Step>)
    requires Path(Begin(calls), steps)
    ensures InPipe(After(Begin(calls), steps))
  {
    if steps != [] {
      AlwaysInPipe(calls, steps[..|steps| - 1]);
      StepInPipe(After(Begin(calls), steps[..|steps| - 1]), steps[|steps| - 1]);
    }
  }

  /**
   In every interleaving: what the module has read of stdin is a beginning of what
   the client typed, message by message; and until the worker or the receive loop
   ends, the rest is on its way, in order and complete.
   */
  lemma StdinArrivesInOrder(calls: seq<Call>, steps: seq<Step>)
    requires Path(Begin(calls), steps)
    ensures var s := After(Begin(calls), steps);
      && s.log.read <= s.log.typed
      && (Flowing(s.from, s.loop) ==>
            s.log.typed[|s.log.read|..] == WithFrom(s.from) + (WithLoop(s.loop) + Typed(s.inbox)))
  {
    AlwaysInPipe(calls, steps);
    var s := After(Begin(calls), steps);
    Regroup(s.log.read, WithFrom(s.from), WithLoop(s.loop) + Typed(s.inbox));
  }

  // --------------------------------------------------------------------- in bytes

  /** The stdin messages that a history of the reader's channel has delivered. */
  function Given(source: seq<ChanReader.Event>): (r: seq<Data>)
  {
    if source == [] then [] else (if source[0].Message? then [source[0].data] else []) + Given(source[1..])
  }

  lemma {:induction false} GivenBytes(source: seq<ChanReader.Event>)
    ensures ChanReader.Messages(source) == Flatten(Given(source))
  {
    if source != [] {
      GivenBytes(source[1..]);
      var rest := Given(source[1..]);
      if source[0].Message? { FlattenCons(source[0].data, rest); } else { assert [] + rest == rest; }
    }
  }

  lemma FlattenPrefix(a: seq<Data>, b: seq<Data>)
    requires a <= b
    ensures Flatten(a) <= Flatten(b)
  {
    FlattenConcat(a, b[|a|..]);
    assert b == a + b[|a|..];
  }

  lemma MessagesPrefix(source: seq<ChanReader.Event>, k: nat)
    requires k <= |source|
    ensures ChanReader.Messages(source[..k]) <= ChanReader.Messages(source)
  {
    ChanReader.MessagesConcat(source[..k], source[k..]);
    assert source == source[..k] + source[k..];
  }

  /**
   And in bytes: the module's stdin reader was delivered the messages read so far;
   whatever the sizes of its reads, what it returned and what it still buffers are
   together the beginning of the bytes the client typed.
   */
  lemma StdinBytesInOrder(calls: seq<Call>, steps: seq<Step>, source: seq<ChanReader.Event>, sizes: seq<nat>)
    requires Path(Begin(calls), steps) && Given(source) == After(Begin(calls), steps).log.read
    ensures var (out, r, _) := ChanReader.ReadMany(sizes, ChanReader.Reader([], source));
      out + r.buf <= Flatten(After(Begin(calls), steps).log.typed)
  {
    var log := After(Begin(calls), steps).log;
    StdinArrivesInOrder(calls, steps);
    ChanReader.ReadManyConserves(sizes, ChanReader.Reader([], source));
    var (out, r, _) := ChanReader.ReadMany(sizes, ChanReader.Reader([], source));
    var taken := source[..|source| - |r.source|];
    assert out + r.buf == [] + ChanReader.Messages(taken) == ChanReader.Messages(taken);
    MessagesPrefix(source, |taken|);
    GivenBytes(source);
    FlattenPrefix(log.read, log.typed);
  }
}

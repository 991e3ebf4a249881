/**
 The send/expect engine of the serial module (pkg/module/serial/engine.go) and
 the step loop that drives it (pkg/module/serial/serial.go).

 The port, the clock and the client are outside: what they do is a history
 handed to the engine up front, one entry for each time the engine asks. A
 history may end while the engine still waits; the outcome is then Pending.
 */
module Engine {
  import opened Base
  import opened EscapeFilter

  const MATCH_WINDOW := 64 * 1024

  // ---------------------------------------------------------------- patterns

  /**
   A compiled expression without anchors: the language it matches, and the end
   the matcher prefers for a match starting at the front of a text.
   */
  datatype Pattern = Pattern(lang: Data -> bool, pick: Data -> Option<nat>)

  ghost predicate PickIsMatch(p: Pattern, t: Data)
  {
    p.pick(t).Some? ==> p.pick(t).value <= |t| && p.lang(t[..p.pick(t).value])
  }

  ghost predicate PickWhenMatch(p: Pattern, t: Data, n: int)
  {
    0 <= n <= |t| && p.lang(t[..n]) ==> p.pick(t).Some?
  }

  /**
   A match can start at the front of a text iff some prefix is in the language, and the preferred
   one is such a prefix.
   */
  ghost predicate IsPattern(p: Pattern)
  {
    (forall t :: PickIsMatch(p, t)) && (forall t, n :: PickWhenMatch(p, t, n))
  }

  /** No match spans more than the window. */
  ghost predicate Windowed(p: Pattern)
  {
    forall w :: p.lang(w) ==> |w| <= MATCH_WINDOW
  }

  /** The leftmost match at or after position i of buf, as start and end. */
  function FindFrom(p: Pattern, buf: Data, i: nat): (r: Option<(nat, nat)>)
    requires IsPattern(p) && i <= |buf|
    ensures r.Some? ==> i <= r.value.0 <= |buf| && p.pick(buf[r.value.0..]).Some?
    ensures r.Some? ==> r.value.1 == r.value.0 + p.pick(buf[r.value.0..]).value <= |buf|
    ensures forall k :: i <= k <= |buf| && (r.Some? ==> k < r.value.0) ==> p.pick(buf[k..]).None?
    decreases |buf| - i
  {
    assert PickIsMatch(p, buf[i..]);
    if p.pick(buf[i..]).Some? then Some((i, i + p.pick(buf[i..]).value))
    else if i == |buf| then None
    else FindFrom(p, buf, i + 1)
  }

  function Find(p: Pattern, buf: Data): (r: Option<(nat, nat)>)
    requires IsPattern(p)
  {
    FindFrom(p, buf, 0)
  }

  // ------------------------------------------------------------------ histories

  /** One turn of a reading loop: the context is found done, or a read returns. */
  datatype Turn = CtxDone | Read(data: Data, failed: bool, sinkOk: bool)

  /** One port write: it fails, or accepts some of the bytes. */
  datatype Accept = Accepts(n: nat) | Refuses

  datatype Outcome = Done | Cancelled | PortFailed | SinkFailed | Pending

  /** A port read never returns more than one chunk. */
  predicate Sized(turns: seq<Turn>)
  {
    forall i :: 0 <= i < |turns| && turns[i].Read? ==> |turns[i].data| <= READ_CHUNK
  }

  /** The non-empty reads of a history. */
  function Chunks(turns: seq<Turn>): (r: seq<Data>)
  {
    if turns == [] then []
    else (if turns[0].Read? && turns[0].data != [] then [turns[0].data] else []) + Chunks(turns[1..])
  }

  lemma {:induction false} ChunksConcat(a: seq<Turn>, b: seq<Turn>)
    ensures Chunks(a + b) == Chunks(a) + Chunks(b)
  {
    if a == [] {
      assert a + b == b;
    } else {
      ChunksConcat(a[1..], b);
      assert (a + b)[1..] == a[1..] + b;
      var first := if a[0].Read? && a[0].data != [] then [a[0].data] else [];
      Regroup(first, Chunks(a[1..]), Chunks(b));
    }
  }

  // ------------------------------------------------------------------- engine

  /** What the engine remembers, what it has forwarded and written, and the history still to come. */
  datatype State = State(buf: Data, rem: Data, sink: Data, written: Data,
                         turns: seq<Turn>, accepts: seq<Accept>, sleeps: seq<bool>)

  function Cap(buf: Data): (r: Data)
  {
    if |buf| > MATCH_WINDOW then buf[|buf| - MATCH_WINDOW..] else buf
  }

  datatype Turned = Stop(s: State, out: Outcome) | Go(s: State)

  /** One turn of the expect loop. With trim false it is the turn of an engine that never shortens its buffer. */
  function ExpectTurn(trim: bool, filter: bool, p: Pattern, s: State): (r: Turned)
    requires IsPattern(p)
  {
    var m := Find(p, s.buf);
    if m.Some? then Stop(s.(buf := s.buf[m.value.1..]), Done)
    else
      var s1 := if trim then s.(buf := Cap(s.buf)) else s;
      if s.turns == [] then Stop(s1, Pending)
      else
        var s2 := s1.(turns := s.turns[1..]);
        match s.turns[0]
        case CtxDone => Stop(s2, Cancelled)
        case Read(data, failed, sinkOk) =>
          if data != [] then
            var (out, rem) := Clean(filter, s.rem, data);
            var s3 := s2.(rem := rem);
            if out == [] then Go(s3)
            else if !sinkOk then Stop(s3, SinkFailed)
            else Go(s3.(sink := s3.sink + out, buf := s3.buf + out))
          else if failed then Stop(s2, PortFailed)
          else Go(s2)
  }

  function Expect(trim: bool, filter: bool, p: Pattern, s: State): (r: (State, Outcome))
    requires IsPattern(p)
    decreases |s.turns|
  {
    match ExpectTurn(trim, filter, p, s)
    case Stop(s', out) => (s', out)
    case Go(s') => Expect(trim, filter, p, s')
  }

  /** Forwarding without matching, until the context is done; swallow ends a failed read quietly. */
  function Pump(filter: bool, swallow: bool, s: State): (r: (State, Outcome))
    decreases |s.turns|
  {
    if s.turns == [] then (s, Pending)
    else
      var s1 := s.(turns := s.turns[1..]);
      match s.turns[0]
      case CtxDone => (s1, Done)
      case Read(data, failed, sinkOk) =>
        var (out, rem) := if data != [] then Clean(filter, s.rem, data) else ([], s.rem);
        var s2 := s1.(rem := rem);
        if out != [] && !sinkOk then (s2, SinkFailed)
        else
          var s3 := s2.(sink := s2.sink + out);
          if failed then (s3, if swallow then Done else PortFailed) else Pump(filter, swallow, s3)
  }

  /** Writing a payload over short writes; only a complete write resets the match buffer. */
  function Write(payload: Data, s: State): (r: (State, Outcome))
    decreases |s.accepts|
  {
    if payload == [] then (s.(buf := []), Done)
    else if s.accepts == [] then (s, Pending)
    else
      var s1 := s.(accepts := s.accepts[1..]);
      match s.accepts[0]
      case Refuses => (s1, PortFailed)
      case Accepts(k) =>
        var n := if k <= |payload| then k else |payload|;
        Write(payload[n..], s1.(written := s.written + payload[..n]))
  }

  datatype Step = ExpectStep(p: Pattern) | SendStep(payload: Data)

  ghost predicate IsScript(steps: seq<Step>)
  {
    forall i :: 0 <= i < |steps| && steps[i].ExpectStep? ==> IsPattern(steps[i].p)
  }

  ghost predicate WindowedScript(steps: seq<Step>)
  {
    forall i :: 0 <= i < |steps| && steps[i].ExpectStep? ==> Windowed(steps[i].p)
  }

  /** One step: an expect, or a pause (which the deadline may interrupt) followed by a send. */
  function DoStep(trim: bool, filter: bool, step: Step, s: State): (r: (State, Outcome))
    requires step.ExpectStep? ==> IsPattern(step.p)
  {
    match step
    case ExpectStep(p) => Expect(trim, filter, p, s)
    case SendStep(payload) =>
      if s.sleeps == [] then (s, Pending)
      else
        var s1 := s.(sleeps := s.sleeps[1..]);
        if s.sleeps[0] then Write(payload, s1) else (s1, Cancelled)
  }

  /** The steps in order, stopping at the first that does not succeed; the count is of completed steps. */
  function DoSteps(trim: bool, filter: bool, steps: seq<Step>, s: State): (r: (State, Outcome, nat))
    requires IsScript(steps)
    ensures r.2 <= |steps| && (r.2 == |steps| <==> r.1 == Done)
  {
    if steps == [] then (s, Done, 0)
    else
      var (s1, out) := DoStep(trim, filter, steps[0], s);
      if out != Done then (s1, out, 0)
      else
        var r := DoSteps(trim, filter, steps[1..], s1);
        (r.0, r.1, r.2 + 1)
  }

  /** The whole module run after the port was opened: monitor mode, or the script and a closing drain. */
  function RunScript(trim: bool, filter: bool, steps: seq<Step>, s: State): (r: (State, Outcome, nat))
    requires IsScript(steps)
  {
    if steps == [] then
      var (s1, out) := Pump(filter, false, s);
      (s1, out, 0)
    else
      var r := DoSteps(trim, filter, steps, s);
      if r.1 == Done && steps[|steps| - 1].SendStep? then
        var (s1, out) := Pump(filter, true, r.0);
        (s1, out, r.2)
      else r
  }

  // ----------------------------------------------- trimming never changes a match

  /** No match of p lies in text with a start before d. */
  ghost predicate Barren(p: Pattern, text: Data, d: int)
  {
    forall i, j :: 0 <= i <= j <= |text| && i < d ==> !p.lang(text[i..j])
  }

  /** full is kept with something before it that no match of p, now or later, can start in. */
  ghost predicate Trails(p: Pattern, full: Data, kept: Data)
  {
    && |kept| <= |full| && full[|full| - |kept|..] == kept
    && (|kept| < |full| ==> |kept| >= MATCH_WINDOW)
    && Barren(p, full, |full| - |kept|)
  }

  /** While nothing matches, the discarded front stays barren when more text arrives. */
  lemma TrailsGrows(p: Pattern, full: Data, kept: Data, more: Data)
    requires Windowed(p) && Trails(p, full, kept)
    ensures Trails(p, full + more, kept + more)
  {
    var full', kept' := full + more, kept + more;
    var d := |full| - |kept|;
    forall i, j | 0 <= i <= j <= |full'| && i < d
      ensures !p.lang(full'[i..j])
    {
      if j <= |full| {
        assert full'[i..j] == full[i..j];
      } else {
        assert |full'[i..j]| > MATCH_WINDOW;
      }
    }
    assert full'[d..] == full[d..] + more;
  }

  /** Once nothing matches, all of full but its last window can be discarded. */
  lemma TrailsCaps(p: Pattern, full: Data, kept: Data)
    requires IsPattern(p) && Trails(p, full, kept) && Find(p, full).None?
    ensures Trails(p, full, Cap(kept))
  {
    forall i, j | 0 <= i <= j <= |full|
      ensures !p.lang(full[i..j])
    {
      assert full[i..][..j - i] == full[i..j];
      assert PickWhenMatch(p, full[i..], j - i);
      assert p.pick(full[i..]).None?;
    }
    assert Cap(kept) == full[|full| - |Cap(kept)|..];
  }

  lemma BarrenFront(p: Pattern, full: Data, d: nat, i: nat)
    requires IsPattern(p) && Barren(p, full, d) && i < d <= |full|
    ensures p.pick(full[i..]).None?
  {
    var t := full[i..];
    assert PickIsMatch(p, t);
    assert forall n :: 0 <= n <= |t| ==> t[..n] == full[i..i + n];
  }

  lemma {:induction false} FindShift(p: Pattern, full: Data, d: nat, i: nat)
    requires IsPattern(p) && d + i <= |full|
    ensures var (a, b) := (FindFrom(p, full, d + i), FindFrom(p, full[d..], i));
      a.Some? == b.Some? && (a.Some? ==> a.value.0 == d + b.value.0 && a.value.1 == d + b.value.1)
    decreases |full| - i
  {
    assert full[d..][i..] == full[d + i..];
    if d + i < |full| { FindShift(p, full, d, i + 1); }
  }

  lemma {:induction false} FindSkips(p: Pattern, full: Data, d: nat, i: nat)
    requires IsPattern(p) && Barren(p, full, d) && i <= d <= |full|
    ensures FindFrom(p, full, i) == FindFrom(p, full, d)
    decreases d - i
  {
    if i < d {
      BarrenFront(p, full, d, i);
      FindSkips(p, full, d, i + 1);
    }
  }

  /** Searching the kept text finds what searching the full text finds. */
  lemma FindTrailing(p: Pattern, full: Data, kept: Data)
    requires IsPattern(p) && Trails(p, full, kept)
    ensures Find(p, full).None? == Find(p, kept).None?
    ensures Find(p, full).Some? ==>
      var (fullEnd, keptEnd) := (Find(p, full).value.1, Find(p, kept).value.1);
      fullEnd <= |full| && keptEnd <= |kept| && full[fullEnd..] == kept[keptEnd..]
  {
    var d := |full| - |kept|;
    FindSkips(p, full, d, 0);
    FindShift(p, full, d, 0);
    if Find(p, full).Some? {
      DropTwice(full, d, Find(p, kept).value.1);
    }
  }

  lemma DropTwice(s: Data, d: nat, e: nat)
    requires d + e <= |s|
    ensures s[d..][e..] == s[d + e..]
  {
  }

  /** Two ends of an expect that differ in nothing but text no match can start in. */
  ghost predicate SameEnd(p: Pattern, e: (State, Outcome), r: (State, Outcome))
  {
    && e.1 == r.1
    && r.0 == e.0.(buf := r.0.buf)
    && (e.1 == Done ==> r.0.buf == e.0.buf)
    && (e.1 != Done ==> Trails(p, r.0.buf, e.0.buf))
  }

  /** A turn that goes on appends the same text to both buffers and does everything else alike. */
  lemma TurnGrows(filter: bool, p: Pattern, s: State, full: Data) returns (more: Data)
    requires IsPattern(p) && Find(p, s.buf).None? && Find(p, full).None?
    requires ExpectTurn(true, filter, p, s).Go?
    ensures ExpectTurn(true, filter, p, s).s.buf == Cap(s.buf) + more
    ensures ExpectTurn(false, filter, p, s.(buf := full))
         == Go(ExpectTurn(true, filter, p, s).s.(buf := full + more))
  {
    var t := s.turns[0];
    more := if t.data != [] then Clean(filter, s.rem, t.data).0 else [];
    assert full + [] == full && Cap(s.buf) + [] == Cap(s.buf);
  }

  lemma TurnStops(filter: bool, p: Pattern, s: State, full: Data)
    requires IsPattern(p) && Trails(p, full, s.buf)
    requires ExpectTurn(true, filter, p, s).Stop?
    ensures var (e, r) := (ExpectTurn(true, filter, p, s), ExpectTurn(false, filter, p, s.(buf := full)));
      r.Stop? && SameEnd(p, (e.s, e.out), (r.s, r.out))
  {
    FindTrailing(p, full, s.buf);
    if Find(p, full).None? { TrailsCaps(p, full, s.buf); }
  }

  lemma ExpectGoes(trim: bool, filter: bool, p: Pattern, s: State, s': State)
    requires IsPattern(p) && ExpectTurn(trim, filter, p, s) == Go(s')
    ensures |s'.turns| < |s.turns|
    ensures Expect(trim, filter, p, s) == Expect(trim, filter, p, s')
  {
  }

  /** One expect: the trimming engine stops at the same turn, forwards the same bytes and leaves the same leftover. */
  lemma {:induction false} ExpectTrimInvisible(filter: bool, p: Pattern, s: State, full: Data)
    requires IsPattern(p) && Windowed(p) && Trails(p, full, s.buf)
    ensures SameEnd(p, Expect(true, filter, p, s), Expect(false, filter, p, s.(buf := full)))
    decreases |s.turns|
  {
    var e := ExpectTurn(true, filter, p, s);
    if e.Stop? {
      TurnStops(filter, p, s, full);
    } else {
      FindTrailing(p, full, s.buf);
      TrailsCaps(p, full, s.buf);
      var more := TurnGrows(filter, p, s, full);
      TrailsGrows(p, full, Cap(s.buf), more);
      var r := e.s.(buf := full + more);
      ExpectGoes(true, filter, p, s, e.s);
      ExpectGoes(false, filter, p, s.(buf := full), r);
      ExpectTrimInvisible(filter, p, e.s, full + more);
      assert Expect(true, filter, p, s) == Expect(true, filter, p, e.s);
      assert Expect(false, filter, p, s.(buf := full)) == Expect(false, filter, p, r);
    }
  }

  lemma TrailsItself(p: Pattern, buf: Data)
    ensures Trails(p, buf, buf)
  {
  }

  lemma {:induction false} StepsTrimInvisible(filter: bool, steps: seq<Step>, s: State)
    requires IsScript(steps) && WindowedScript(steps)
    ensures var (e, r) := (DoSteps(true, filter, steps, s), DoSteps(false, filter, steps, s));
      && e.1 == r.1 && e.2 == r.2
      && r.0 == e.0.(buf := r.0.buf)
      && (e.1 == Done ==> r.0 == e.0)
  {
    if steps != [] {
      if steps[0].ExpectStep? {
        TrailsItself(steps[0].p, s.buf);
        ExpectTrimInvisible(filter, steps[0].p, s, s.buf);
        assert s.(buf := s.buf) == s;
      }
      var (s1, out) := DoStep(true, filter, steps[0], s);
      if out == Done { StepsTrimInvisible(filter, steps[1..], s1); }
    }
  }

  /**
   For every script and every history: trimming changes neither the outcome,
   nor the step it stops at, nor what was read, forwarded and written by then,
   nor (when the script completes) the leftover text.
   */
  lemma ScriptTrimInvisible(filter: bool, steps: seq<Step>, s: State)
    requires IsScript(steps) && WindowedScript(steps)
    ensures var (e, r) := (RunScript(true, filter, steps, s), RunScript(false, filter, steps, s));
      && e.1 == r.1 && e.2 == r.2
      && r.0 == e.0.(buf := r.0.buf)
      && (e.1 == Done ==> r.0 == e.0)
  {
    StepsTrimInvisible(filter, steps, s);
  }

  // ------------------------------------------------------------ memory stays bounded

  /** The most the engine holds at the top of a turn. */
  ghost predicate Bounded(s: State)
  {
    |s.buf| <= MATCH_WINDOW + READ_CHUNK && Carried(s.rem) && Sized(s.turns)
  }

  /** Every state at the top of a turn of one expect. */
  ghost function Tops(filter: bool, p: Pattern, s: State): (r: seq<State>)
    requires IsPattern(p)
    decreases |s.turns|
  {
    [s] + match ExpectTurn(true, filter, p, s)
          case Stop(_, _) => []
          case Go(s') => Tops(filter, p, s')
  }

  /** Every state at the top of a turn of the forwarding loop. */
  ghost function PumpTops(filter: bool, s: State): (r: seq<State>)
    decreases |s.turns|
  {
    [s]
    + if s.turns == [] || s.turns[0] == CtxDone then []
      else
        var t := s.turns[0];
        var (out, rem) := if t.data != [] then Clean(filter, s.rem, t.data) else ([], s.rem);
        if (out != [] && !t.sinkOk) || t.failed then []
        else PumpTops(filter, s.(turns := s.turns[1..], rem := rem, sink := s.sink + out))
  }

  ghost function StepTops(filter: bool, step: Step, s: State): (r: seq<State>)
    requires step.ExpectStep? ==> IsPattern(step.p)
  {
    match step
    case ExpectStep(p) => Tops(filter, p, s)
    case SendStep(_) => [s]
  }

  ghost function StepsTops(filter: bool, steps: seq<Step>, s: State): (r: seq<State>)
    requires IsScript(steps)
  {
    if steps == [] then [s]
    else
      var (s1, out) := DoStep(true, filter, steps[0], s);
      StepTops(filter, steps[0], s) + if out == Done then StepsTops(filter, steps[1..], s1) else []
  }

  /** Every state a script passes through at the top of a turn or the beginning of a send. */
  ghost function ScriptTops(filter: bool, steps: seq<Step>, s: State): (r: seq<State>)
    requires IsScript(steps)
  {
    if steps == [] then PumpTops(filter, s)
    else
      var (s1, out, _) := DoSteps(true, filter, steps, s);
      StepsTops(filter, steps, s) + if out == Done && steps[|steps| - 1].SendStep? then PumpTops(filter, s1) else []
  }

  ghost predicate AllBounded(states: seq<State>) { forall t :: t in states ==> Bounded(t) }

  lemma TurnBounded(filter: bool, p: Pattern, s: State)
    requires IsPattern(p) && Bounded(s)
    ensures Bounded(ExpectTurn(true, filter, p, s).s)
  {
    if s.turns != [] {
      assert forall i :: 0 <= i < |s.turns| - 1 ==> s.turns[1..][i] == s.turns[i + 1];
      if s.turns[0].Read? { CleanFromChunkAlone(filter, s.rem, s.turns[0].data); }
    }
  }

  /** At no moment of an expect does the buffer exceed the window and one chunk, or the remainder its limit. */
  lemma {:induction false} ExpectBounded(filter: bool, p: Pattern, s: State)
    requires IsPattern(p) && Bounded(s)
    ensures Bounded(Expect(true, filter, p, s).0)
    ensures AllBounded(Tops(filter, p, s))
    decreases |s.turns|
  {
    TurnBounded(filter, p, s);
    var r := ExpectTurn(true, filter, p, s);
    if r.Go? { ExpectBounded(filter, p, r.s); }
  }

  lemma {:induction false} PumpBounded(filter: bool, swallow: bool, s: State)
    requires Bounded(s)
    ensures Bounded(Pump(filter, swallow, s).0)
    ensures AllBounded(PumpTops(filter, s))
    decreases |s.turns|
  {
    if s.turns != [] && s.turns[0].Read? {
      var t := s.turns[0];
      CleanFromChunkAlone(filter, s.rem, t.data);
      var (out, rem) := if t.data != [] then Clean(filter, s.rem, t.data) else ([], s.rem);
      if !(out != [] && !t.sinkOk) && !t.failed {
        PumpBounded(filter, swallow, s.(turns := s.turns[1..], rem := rem, sink := s.sink + out));
      }
    }
  }

  lemma {:induction false} WriteKeeps(payload: Data, s: State)
    ensures var (s', out) := Write(payload, s);
      && s'.rem == s.rem && s'.sink == s.sink && s'.turns == s.turns && s'.sleeps == s.sleeps
      && (out == Done ==> s'.buf == [] && s'.written == s.written + payload)
      && (out != Done ==> s'.buf == s.buf && s.written <= s'.written < s.written + payload)
    decreases |s.accepts|
  {
    if payload != [] && s.accepts != [] && s.accepts[0].Accepts? {
      var n := if s.accepts[0].n <= |payload| then s.accepts[0].n else |payload|;
      var s1 := s.(accepts := s.accepts[1..], written := s.written + payload[..n]);
      WriteKeeps(payload[n..], s1);
      assert s1.written + payload[n..] == s.written + payload;
    }
  }

  lemma StepBounded(filter: bool, step: Step, s: State)
    requires step.ExpectStep? ==> IsPattern(step.p)
    requires Bounded(s)
    ensures Bounded(DoStep(true, filter, step, s).0)
    ensures AllBounded(StepTops(filter, step, s))
  {
    match step
    case ExpectStep(p) => ExpectBounded(filter, p, s);
    case SendStep(payload) =>
      if s.sleeps != [] && s.sleeps[0] { WriteKeeps(payload, s.(sleeps := s.sleeps[1..])); }
  }

  /** The bounds hold at every turn of every step. */
  lemma {:induction false} StepsBounded(filter: bool, steps: seq<Step>, s: State)
    requires IsScript(steps) && Bounded(s)
    ensures Bounded(DoSteps(true, filter, steps, s).0)
    ensures AllBounded(StepsTops(filter, steps, s))
  {
    if steps != [] {
      StepBounded(filter, steps[0], s);
      var (s1, out) := DoStep(true, filter, steps[0], s);
      if out == Done { StepsBounded(filter, steps[1..], s1); }
    }
  }

  /**
   Over a whole script, closing drain or monitor mode included, every state at the top of a turn is
   within the bounds.
   */
  lemma ScriptBounded(filter: bool, steps: seq<Step>, s: State)
    requires IsScript(steps) && Bounded(s)
    ensures Bounded(RunScript(true, filter, steps, s).0)
    ensures AllBounded(ScriptTops(filter, steps, s))
  {
    StepsBounded(filter, steps, s);
    PumpBounded(filter, false, s);
    PumpBounded(filter, true, DoSteps(true, filter, steps, s).0);
  }

  // ------------------------------------------------ every cleaned byte is forwarded once

  /** s' is s after reading the turns took, having forwarded exactly what the filter let through of them. */
  ghost predicate Forwarded(filter: bool, s: State, took: seq<Turn>, s': State)
  {
    && s.turns == took + s'.turns
    && s'.sink == s.sink + CleanAll(filter, s.rem, Chunks(took)).0
    && s'.rem == CleanAll(filter, s.rem, Chunks(took)).1
  }

  lemma ForwardedNothing(filter: bool, s: State, s': State)
    requires s'.turns == s.turns && s'.sink == s.sink && s'.rem == s.rem
    ensures Forwarded(filter, s, [], s')
  {
    assert [] + s.turns == s.turns;
  }

  lemma ReadsJoin(filter: bool, rem: Data, x: seq<Turn>, y: seq<Turn>)
    ensures var left := CleanAll(filter, rem, Chunks(x)).1;
      && CleanAll(filter, rem, Chunks(x + y)).0
         == CleanAll(filter, rem, Chunks(x)).0 + CleanAll(filter, left, Chunks(y)).0
      && CleanAll(filter, rem, Chunks(x + y)).1 == CleanAll(filter, left, Chunks(y)).1
  {
    ChunksConcat(x, y);
    CleanAllConcat(filter, rem, Chunks(x), Chunks(y));
  }

  lemma ForwardedTransitive(filter: bool, a: State, x: seq<Turn>, b: State, y: seq<Turn>, c: State)
    requires Forwarded(filter, a, x, b) && Forwarded(filter, b, y, c)
    ensures Forwarded(filter, a, x + y, c)
  {
    Regroup(x, y, c.turns);
    ReadsJoin(filter, a.rem, x, y);
    Regroup(a.sink, CleanAll(filter, a.rem, Chunks(x)).0, CleanAll(filter, b.rem, Chunks(y)).0);
  }

  /** The visible text of one turn, and the remainder after it. */
  function TurnText(filter: bool, rem: Data, t: Turn): (r: (Data, Data))
  {
    if t.Read? && t.data != [] then Clean(filter, rem, t.data) else ([], rem)
  }

  lemma OneTurn(filter: bool, rem: Data, t: Turn)
    ensures CleanAll(filter, rem, Chunks([t])).0 == TurnText(filter, rem, t).0
    ensures CleanAll(filter, rem, Chunks([t])).1 == TurnText(filter, rem, t).1
  {
    assert [t][1..] == [];
    if t.Read? && t.data != [] {
      assert Chunks([t]) == [t.data];
      assert [t.data][..0] == [];
    } else {
      assert Chunks([t]) == [];
    }
  }

  /** Reading one turn: what one more chunk (or none) adds. */
  lemma ForwardedTurn(filter: bool, s: State, s': State)
    requires s.turns != [] && s'.turns == s.turns[1..]
    requires var (out, rem) := TurnText(filter, s.rem, s.turns[0]); s'.sink == s.sink + out && s'.rem == rem
    ensures Forwarded(filter, s, [s.turns[0]], s')
  {
    OneTurn(filter, s.rem, s.turns[0]);
    assert s.turns == [s.turns[0]] + s.turns[1..];
  }

  /** Unless the sink fails, a turn reads nothing and forwards nothing, or reads one turn and forwards its text. */
  lemma TurnEffect(trim: bool, filter: bool, p: Pattern, s: State)
    requires IsPattern(p)
    ensures var r := ExpectTurn(trim, filter, p, s);
      r.Go? || r.out != SinkFailed ==>
        if |r.s.turns| == |s.turns| then r.s.turns == s.turns && r.s.sink == s.sink && r.s.rem == s.rem
        else
          && s.turns != [] && r.s.turns == s.turns[1..]
          && r.s.sink == s.sink + TurnText(filter, s.rem, s.turns[0]).0
          && r.s.rem == TurnText(filter, s.rem, s.turns[0]).1
  {
    assert s.sink + [] == s.sink;
  }

  /** A turn of the expect loop forwards what it reads, whether it stops there or goes on. */
  lemma TurnForwards(trim: bool, filter: bool, p: Pattern, s: State) returns (took: seq<Turn>)
    requires IsPattern(p)
    ensures var r := ExpectTurn(trim, filter, p, s);
      r.Go? || r.out != SinkFailed ==> Forwarded(filter, s, took, r.s)
  {
    TurnEffect(trim, filter, p, s);
    var r := ExpectTurn(trim, filter, p, s);
    took := if |r.s.turns| == |s.turns| || s.turns == [] then [] else [s.turns[0]];
    if r.Go? || r.out != SinkFailed {
      if took == [] { ForwardedNothing(filter, s, r.s); } else { ForwardedTurn(filter, s, r.s); }
    }
  }

  lemma {:induction false} ExpectForwards(trim: bool, filter: bool, p: Pattern, s: State) returns (took: seq<Turn>)
    requires IsPattern(p)
    ensures var (s', out) := Expect(trim, filter, p, s); out != SinkFailed ==> Forwarded(filter, s, took, s')
    decreases |s.turns|
  {
    var r := ExpectTurn(trim, filter, p, s);
    took := TurnForwards(trim, filter, p, s);
    if r.Go? {
      var more := ExpectForwards(trim, filter, p, r.s);
      ExpectGoes(trim, filter, p, s, r.s);
      var e := Expect(trim, filter, p, r.s);
      if e.1 != SinkFailed { ForwardedTransitive(filter, s, took, r.s, more, e.0); }
      took := took + more;
    }
  }

  lemma {:induction false} PumpForwards(filter: bool, swallow: bool, s: State) returns (took: seq<Turn>)
    ensures var (s', out) := Pump(filter, swallow, s); out != SinkFailed ==> Forwarded(filter, s, took, s')
    decreases |s.turns|
  {
    var e := Pump(filter, swallow, s);
    took := [];
    if s.turns == [] {
      ForwardedNothing(filter, s, s);
    } else {
      var t := s.turns[0];
      var (out, rem) := TurnText(filter, s.rem, t);
      var s1 := s.(turns := s.turns[1..], rem := rem, sink := s.sink + out);
      assert s.sink + [] == s.sink;
      ForwardedTurn(filter, s, s1);
      took := [t];
      if t.Read? && (out == [] || t.sinkOk) && !t.failed {
        var more := PumpForwards(filter, swallow, s1);
        assert e == Pump(filter, swallow, s1);
        if e.1 != SinkFailed { ForwardedTransitive(filter, s, took, s1, more, e.0); }
        took := took + more;
      }
    }
  }

  lemma StepForwards(trim: bool, filter: bool, step: Step, s: State) returns (took: seq<Turn>)
    requires step.ExpectStep? ==> IsPattern(step.p)
    ensures var (s', out) := DoStep(trim, filter, step, s); out != SinkFailed ==> Forwarded(filter, s, took, s')
  {
    match step
    case ExpectStep(p) => took := ExpectForwards(trim, filter, p, s);
    case SendStep(payload) =>
      took := [];
      if s.sleeps != [] && s.sleeps[0] { WriteKeeps(payload, s.(sleeps := s.sleeps[1..])); }
      ForwardedNothing(filter, s, DoStep(trim, filter, step, s).0);
  }

  lemma {:induction false} StepsForward(trim: bool, filter: bool, steps: seq<Step>, s: State)
    returns (took: seq<Turn>)
    requires IsScript(steps)
    ensures var r := DoSteps(trim, filter, steps, s); r.1 != SinkFailed ==> Forwarded(filter, s, took, r.0)
  {
    if steps == [] {
      took := [];
      ForwardedNothing(filter, s, s);
    } else {
      var (s1, out) := DoStep(trim, filter, steps[0], s);
      took := StepForwards(trim, filter, steps[0], s);
      if out == Done {
        var more := StepsForward(trim, filter, steps[1..], s1);
        var r := DoSteps(trim, filter, steps, s);
        if r.1 != SinkFailed { ForwardedTransitive(filter, s, took, s1, more, r.0); }
        took := took + more;
      }
    }
  }

  lemma ScriptForwards(trim: bool, filter: bool, steps: seq<Step>, s: State) returns (took: seq<Turn>)
    requires IsScript(steps)
    ensures var r := RunScript(trim, filter, steps, s); r.1 != SinkFailed ==> Forwarded(filter, s, took, r.0)
  {
    if steps == [] {
      took := PumpForwards(filter, false, s);
    } else {
      took := StepsForward(trim, filter, steps, s);
      var r := DoSteps(trim, filter, steps, s);
      if r.1 == Done && steps[|steps| - 1].SendStep? {
        var more := PumpForwards(filter, true, r.0);
        var e := RunScript(trim, filter, steps, s);
        if e.1 != SinkFailed { ForwardedTransitive(filter, s, took, r.0, more, e.0); }
        took := took + more;
      }
    }
  }

  /** The non-empty reads made between s and s'. */
  function ReadBetween(s: State, s': State): (r: seq<Data>)
  {
    if |s'.turns| <= |s.turns| then Chunks(s.turns[..|s.turns| - |s'.turns|]) else []
  }

  /**
   From a fresh engine, the client receives exactly the visible text of everything
   the port delivered, filtered as one stream, whatever the script and the cuts were.
   */
  lemma ScriptOutputIsVisibleText(steps: seq<Step>, s: State)
    requires IsScript(steps) && s.rem == [] && s.sink == []
    requires RunScript(true, true, steps, s).1 != SinkFailed
    requires NeverOverflows(ReadBetween(s, RunScript(true, true, steps, s).0))
    ensures var end := RunScript(true, true, steps, s).0;
      end.sink == Strip(Flatten(ReadBetween(s, end))).0
  {
    var end := RunScript(true, true, steps, s).0;
    var took := ScriptForwards(true, true, steps, s);
    assert s.turns[..|s.turns| - |end.turns|] == took;
    ChunkingInvisible(ReadBetween(s, end));
    assert end.sink == [] + CleanAll(true, [], ReadBetween(s, end)).0;
  }
}

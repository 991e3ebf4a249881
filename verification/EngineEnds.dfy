/** Why the engine's loops end, told from what the port, the context and the client did. */
module EngineEnds {
  import opened Base
  import opened EscapeFilter
  import opened Engine
  import opened EngineMeaning

  // ------------------------------------------------------------ the turns that end

  /** The port failed and delivered nothing; a read that delivers nothing without failing is a timeout. */
  predicate FailedRead(t: Turn) { t.Read? && t.data == [] && t.failed }

  /** There is visible text to forward and the client does not take it. */
  predicate SinkRefuses(filter: bool, rem: Data, t: Turn)
  {
    t.Read? && !t.sinkOk && TurnText(filter, rem, t).0 != []
  }

  predicate EndsExpect(filter: bool, rem: Data, t: Turn)
  {
    t.CtxDone? || FailedRead(t) || SinkRefuses(filter, rem, t)
  }

  /**
   An expect that took n turns: none but the last of them could end it, the kind
   of the last is the outcome, and if that is no such turn, the expect found its
   match or the history is used up.
   */
  ghost predicate ExpectWhy(filter: bool, s: State, n: int, out: Outcome)
  {
    && 0 <= n <= |s.turns|
    && (forall i :: 0 <= i < n - 1 ==> !EndsExpect(filter, RemAfter(filter, s, i), s.turns[i]))
    && (out == Cancelled <==> n > 0 && s.turns[n - 1].CtxDone?)
    && (out == PortFailed <==> n > 0 && FailedRead(s.turns[n - 1]))
    && (out == SinkFailed <==> n > 0 && SinkRefuses(filter, RemAfter(filter, s, n - 1), s.turns[n - 1]))
    && (out == Pending ==> n == |s.turns|)
  }

  /** The filter carries after one turn and j more what it carries after j + 1. */
  lemma RemShift(filter: bool, s: State, s1: State, j: nat)
    requires s.turns != [] && s1.turns == s.turns[1..] && j <= |s1.turns|
    requires s1.rem == TurnText(filter, s.rem, s.turns[0]).1
    ensures RemAfter(filter, s, j + 1) == RemAfter(filter, s1, j)
  {
    var x, y := [s.turns[0]], s1.turns[..j];
    assert s.turns[..j + 1] == x + y;
    OneTurn(filter, s.rem, s.turns[0]);
    ReadsJoin(filter, s.rem, x, y);
  }

  lemma StopWhy(filter: bool, p: Pattern, s: State)
    requires IsPattern(p) && ExpectTurn(true, filter, p, s).Stop?
    ensures var r := ExpectTurn(true, filter, p, s); ExpectWhy(filter, s, Took(s, r.s), r.out)
  {
    SeenNothing(filter, s);
  }

  lemma GoWhy(filter: bool, p: Pattern, s: State)
    requires IsPattern(p) && ExpectTurn(true, filter, p, s).Go?
    ensures s.turns != [] && !EndsExpect(filter, s.rem, s.turns[0])
  {
  }

  lemma ShiftWhy(filter: bool, s: State, s1: State, n: int, out: Outcome)
    requires s.turns != [] && s1.turns == s.turns[1..] && s1.rem == TurnText(filter, s.rem, s.turns[0]).1
    requires !EndsExpect(filter, s.rem, s.turns[0]) && ExpectWhy(filter, s1, n, out)
    ensures ExpectWhy(filter, s, n + 1, out)
  {
    forall i | 0 <= i < n ensures !EndsExpect(filter, RemAfter(filter, s, i), s.turns[i]) {
      if i == 0 { SeenNothing(filter, s); } else { ShiftNotEnds(filter, s, s1, n, out, i); }
    }
    if n > 0 { RemShift(filter, s, s1, n - 1); } else { SeenNothing(filter, s); }
  }

  lemma ShiftNotEnds(filter: bool, s: State, s1: State, n: int, out: Outcome, i: int)
    requires s.turns != [] && s1.turns == s.turns[1..] && s1.rem == TurnText(filter, s.rem, s.turns[0]).1
    requires ExpectWhy(filter, s1, n, out) && 0 < i < n
    ensures !EndsExpect(filter, RemAfter(filter, s, i), s.turns[i])
  {
    RemShift(filter, s, s1, i - 1);
    assert !EndsExpect(filter, RemAfter(filter, s1, i - 1), s1.turns[i - 1]);
  }

  /**
   Every expect, whatever the pattern: it is cancelled exactly at a done context,
   fails exactly at a failed read or a refused text, and waits out everything
   else, read timeouts included.
   */
  lemma {:induction false} WhyExpectEnds(filter: bool, p: Pattern, s: State)
    requires IsPattern(p)
    ensures var (s', out) := Expect(true, filter, p, s); ExpectWhy(filter, s, Took(s, s'), out)
    decreases |s.turns|
  {
    var r := ExpectTurn(true, filter, p, s);
    if r.Stop? {
      StopWhy(filter, p, s);
    } else {
      TurnGoes(filter, p, s);
      GoWhy(filter, p, s);
      ExpectGoes(true, filter, p, s, r.s);
      WhyExpectEnds(filter, p, r.s);
      var e := Expect(true, filter, p, r.s);
      ShiftWhy(filter, s, r.s, Took(r.s, e.0), e.1);
    }
  }

  // -------------------------------------------------------------- the forwarding loop

  /**
   A forwarding loop ends at a done context, at any failed read once its bytes are forwarded, or at
   a refused text.
   */
  predicate EndsPump(filter: bool, rem: Data, t: Turn)
  {
    t.CtxDone? || (t.Read? && t.failed) || SinkRefuses(filter, rem, t)
  }

  ghost predicate PumpWhy(filter: bool, swallow: bool, s: State, n: int, out: Outcome)
  {
    && 0 <= n <= |s.turns| && out != Cancelled
    && (forall i :: 0 <= i < n - 1 ==> !EndsPump(filter, RemAfter(filter, s, i), s.turns[i]))
    && (out == Pending <==> n == |s.turns| && (n == 0 || !EndsPump(filter, RemAfter(filter, s, n - 1), s.turns[n - 1])))
    && (n > 0 && out != Pending ==>
          PumpLast(swallow, SinkRefuses(filter, RemAfter(filter, s, n - 1), s.turns[n - 1]), s.turns[n - 1], out))
    && (n == 0 ==> out == Pending)
  }

  /** What the last turn makes the outcome. */
  predicate PumpLast(swallow: bool, refused: bool, t: Turn, out: Outcome)
  {
    && (out == SinkFailed <==> refused)
    && (out == Done <==> !refused && (t.CtxDone? || (swallow && t.failed)))
    && (out == PortFailed <==> !refused && t.Read? && t.failed && !swallow)
  }

  lemma ShiftPumpWhy(filter: bool, swallow: bool, s: State, s1: State, n: int, out: Outcome)
    requires s.turns != [] && s1.turns == s.turns[1..] && s1.rem == TurnText(filter, s.rem, s.turns[0]).1
    requires !EndsPump(filter, s.rem, s.turns[0]) && PumpWhy(filter, swallow, s1, n, out)
    ensures PumpWhy(filter, swallow, s, n + 1, out)
  {
    forall i | 0 <= i < n ensures !EndsPump(filter, RemAfter(filter, s, i), s.turns[i]) {
      if i == 0 { SeenNothing(filter, s); } else {
        RemShift(filter, s, s1, i - 1);
        assert !EndsPump(filter, RemAfter(filter, s1, i - 1), s1.turns[i - 1]);
      }
    }
    if n > 0 { RemShift(filter, s, s1, n - 1); } else { SeenNothing(filter, s); }
  }

  /**
   Monitor mode and the drain: only a done context, a failed read or a refused
   text ends them; a done context is a success, a failed read is one exactly if
   it is to be swallowed.
   */
  lemma {:induction false} WhyPumpEnds(filter: bool, swallow: bool, s: State)
    ensures var (s', out) := Pump(filter, swallow, s); PumpWhy(filter, swallow, s, Took(s, s'), out)
    decreases |s.turns|
  {
    if s.turns == [] || EndsPump(filter, s.rem, s.turns[0]) {
      PumpStopWhy(filter, swallow, s);
    } else {
      var s1 := PumpGoes(filter, swallow, s);
      WhyPumpEnds(filter, swallow, s1);
      var e := Pump(filter, swallow, s1);
      ShiftPumpWhy(filter, swallow, s, s1, Took(s1, e.0), e.1);
    }
  }

  lemma PumpStopWhy(filter: bool, swallow: bool, s: State)
    requires s.turns == [] || EndsPump(filter, s.rem, s.turns[0])
    ensures var (s', out) := Pump(filter, swallow, s); PumpWhy(filter, swallow, s, Took(s, s'), out)
  {
    SeenNothing(filter, s);
  }

  lemma PumpGoes(filter: bool, swallow: bool, s: State) returns (s1: State)
    requires s.turns != [] && !EndsPump(filter, s.rem, s.turns[0])
    ensures s1.turns == s.turns[1..] && s1.rem == TurnText(filter, s.rem, s.turns[0]).1
    ensures Pump(filter, swallow, s) == Pump(filter, swallow, s1)
  {
    var (out, rem) := TurnText(filter, s.rem, s.turns[0]);
    s1 := s.(turns := s.turns[1..], rem := rem, sink := s.sink + out);
  }

  // ------------------------------------------------------------------------- a send

  /** How many port writes a send took. */
  function Wrote(s: State, s': State): (n: int) { |s.accepts| - |s'.accepts| }

  /**
   A send fails exactly at a refused write, and goes on over every short one, even of nothing, until
   all is written.
   */
  lemma {:induction false} WhyWriteEnds(payload: Data, s: State)
    ensures var (s', out) := Write(payload, s);
      var n := Wrote(s, s');
      && 0 <= n <= |s.accepts| && s'.accepts == s.accepts[n..]
      && (out == Done || out == PortFailed || out == Pending)
      && (forall i :: 0 <= i < n - 1 ==> s.accepts[i].Accepts?)
      && (out == PortFailed <==> n > 0 && s.accepts[n - 1].Refuses?)
      && (out == Pending ==> n == |s.accepts|)
    decreases |s.accepts|
  {
    if payload != [] && s.accepts != [] && s.accepts[0].Accepts? {
      var n := if s.accepts[0].n <= |payload| then s.accepts[0].n else |payload|;
      WhyWriteEnds(payload[n..], s.(accepts := s.accepts[1..], written := s.written + payload[..n]));
    }
  }

  /** The pause before a send takes one turn of the timer; a deadline in it ends the step with nothing written. */
  lemma PausedSend(trim: bool, filter: bool, payload: Data, s: State)
    requires s.sleeps != []
    ensures var (s', out) := DoStep(trim, filter, SendStep(payload), s);
      && s'.sleeps == s.sleeps[1..]
      && (!s.sleeps[0] ==> out == Cancelled && s' == s.(sleeps := s.sleeps[1..]))
      && (s.sleeps[0] ==> (out == Done <==> s'.written == s.written + payload))
      && (s.sleeps[0] ==> out != Cancelled)
  {
    var s1 := s.(sleeps := s.sleeps[1..]);
    WriteKeeps(payload, s1);
    WhyWriteEnds(payload, s1);
  }

  // --------------------------------------------------------------------- the script

  /**
   A script stops at the first step that does not succeed, and ends as that step does, from where
   the steps before it led.
   */
  lemma {:induction false} StepsStopAt(trim: bool, filter: bool, steps: seq<Step>, s: State)
    requires IsScript(steps)
    ensures var r := DoSteps(trim, filter, steps, s);
      var before := DoSteps(trim, filter, steps[..r.2], s);
      && before.1 == Done
      && (r.2 == |steps| ==> before.0 == r.0)
      && (r.2 < |steps| ==> DoStep(trim, filter, steps[r.2], before.0) == (r.0, r.1))
  {
    if steps != [] {
      var (s1, out) := DoStep(trim, filter, steps[0], s);
      if out == Done {
        StepsStopAt(trim, filter, steps[1..], s1);
        var k := DoSteps(trim, filter, steps[1..], s1).2;
        assert steps[..k + 1][0] == steps[0] && steps[..k + 1][1..] == steps[1..][..k];
      } else {
        assert steps[..0] == [];
      }
    }
  }

  /**
   The whole run: without steps it forwards until the context is done; it drains
   exactly after a script that completed with a send, and the drain's failed
   reads do not fail it; after anything else it reads nothing more.
   */
  lemma WhyScriptEnds(filter: bool, steps: seq<Step>, s: State)
    requires IsScript(steps)
    ensures var r := RunScript(true, filter, steps, s);
      var d := DoSteps(true, filter, steps, s);
      && (steps == [] ==> PumpWhy(filter, false, s, Took(s, r.0), r.1))
      && (steps != [] && d.1 == Done && steps[|steps| - 1].SendStep? ==>
            PumpWhy(filter, true, d.0, Took(d.0, r.0), r.1) && r.1 != PortFailed)
      && (steps != [] && !(d.1 == Done && steps[|steps| - 1].SendStep?) ==> r == d)
      && r.2 == d.2
  {
    WhyPumpEnds(filter, false, s);
    WhyPumpEnds(filter, true, DoSteps(true, filter, steps, s).0);
  }

  // ------------------------------------------------------------- escapes that are kept

  /** Without the filter every byte passes as it is. */
  lemma {:induction false} KeptIsRaw(rem: Data, chunks: seq<Data>)
    ensures CleanAll(false, rem, chunks) == (Flatten(chunks), rem)
  {
    if chunks != [] { KeptIsRaw(rem, chunks[..|chunks| - 1]); }
  }

  /** So an engine that keeps escapes forwards exactly what the port delivered. */
  lemma KeptOutputIsAll(steps: seq<Step>, s: State)
    requires IsScript(steps) && s.sink == [] && RunScript(true, false, steps, s).1 != SinkFailed
    ensures var end := RunScript(true, false, steps, s).0; end.sink == Flatten(ReadBetween(s, end))
  {
    var end := RunScript(true, false, steps, s).0;
    var took := ScriptForwards(true, false, steps, s);
    assert s.turns[..|s.turns| - |end.turns|] == took;
    KeptIsRaw(s.rem, Chunks(took));
    assert end.sink == [] + Flatten(Chunks(took));
  }
}

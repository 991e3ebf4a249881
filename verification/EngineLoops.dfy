/** The engine as the object the serial module drives: its fields, and the loops that update them. */
module EngineLoops {
  import opened Base
  import opened EscapeFilter
  import opened Engine

  class SerialEngine {
    const filter: bool
    var buf: Data
    var remainder: Data
    // What has reached the client and the port.
    var sink: Data
    var written: Data
    // What the port, the context and the pacing timer are going to do.
    var turns: seq<Turn>
    var accepts: seq<Accept>
    var sleeps: seq<bool>

    function View(): (s: State)
      reads this
    {
      State(buf, remainder, sink, written, turns, accepts, sleeps)
    }

    /** The memory bounds. */
    ghost predicate Valid()
      reads this
    {
      Bounded(View())
    }

    constructor (filter: bool, turns: seq<Turn>, accepts: seq<Accept>, sleeps: seq<bool>)
      requires Sized(turns)
      ensures Valid() && this.filter == filter
      ensures View() == State([], [], [], [], turns, accepts, sleeps)
    {
      this.filter := filter;
      buf, remainder, sink, written := [], [], [], [];
      this.turns, this.accepts, this.sleeps := turns, accepts, sleeps;
    }

    method CleanChunk(chunk: Data) returns (out: Data)
      modifies this`remainder
      ensures out == Clean(filter, old(remainder), chunk).0
      ensures remainder == Clean(filter, old(remainder), chunk).1
    {
      if !filter {
        return chunk;
      }
      var data := chunk;
      assert [] + chunk == chunk;
      if |remainder| > 0 {
        data := remainder + chunk;
        remainder := [];
      }
      out, remainder := StripEscapes(data);
      if |remainder| > MAX_REMAINDER {
        remainder := [];
      }
    }

    method CapBuffer()
      modifies this`buf
      ensures buf == Cap(old(buf)) && |buf| <= MATCH_WINDOW
    {
      if |buf| > MATCH_WINDOW {
        buf := buf[|buf| - MATCH_WINDOW..];
      }
    }

    method ReadUntil(p: Pattern) returns (out: Outcome)
      requires Valid() && IsPattern(p)
      modifies this
      ensures Valid() && (View(), out) == Expect(true, filter, p, old(View()))
    {
      while true
        invariant Valid()
        invariant Expect(true, filter, p, View()) == Expect(true, filter, p, old(View()))
        decreases |turns|
      {
        ghost var top := View();
        ghost var turned := ExpectTurn(true, filter, p, top);
        TurnBounded(filter, p, top);
        assert turned.Go? ==> Expect(true, filter, p, top) == Expect(true, filter, p, turned.s);
        var m := Find(p, buf);
        if m.Some? {
          buf := buf[m.value.1..];
          return Done;
        }
        CapBuffer();
        if turns == [] {
          return Pending;
        }
        var turn := turns[0];
        turns := turns[1..];
        if turn.CtxDone? {
          return Cancelled;
        }
        if turn.data != [] {
          var clean := CleanChunk(turn.data);
          if clean != [] {
            if !turn.sinkOk {
              return SinkFailed;
            }
            sink := sink + clean;
            buf := buf + clean;
          }
        } else if turn.failed {
          return PortFailed;
        }
        assert View() == turned.s;
      }
    }

    method PumpUntilDone(swallowReadErr: bool) returns (out: Outcome)
      requires Valid()
      modifies this
      ensures Valid() && (View(), out) == Pump(filter, swallowReadErr, old(View()))
    {
      PumpBounded(filter, swallowReadErr, View());
      ghost var end := Pump(filter, swallowReadErr, View());
      while true
        invariant Pump(filter, swallowReadErr, View()) == end
        decreases |turns|
      {
        if turns == [] {
          return Pending;
        }
        var turn := turns[0];
        turns := turns[1..];
        if turn.CtxDone? {
          return Done;
        }
        if turn.data != [] {
          var clean := CleanChunk(turn.data);
          if clean != [] {
            if !turn.sinkOk {
              return SinkFailed;
            }
            sink := sink + clean;
          }
        }
        assert sink + [] == sink;
        if turn.failed {
          return if swallowReadErr then Done else PortFailed;
        }
      }
    }

    method WriteAll(data: Data) returns (out: Outcome)
      modifies this
      ensures (View(), out) == Write(data, old(View()))
      ensures out == Done ==> buf == [] && written == old(written) + data
      ensures out != Done ==> buf == old(buf)
    {
      WriteKeeps(data, View());
      var payload := data;
      while |payload| > 0
        invariant Write(payload, View()) == Write(data, old(View()))
        decreases |accepts|
      {
        if accepts == [] {
          return Pending;
        }
        var accept := accepts[0];
        accepts := accepts[1..];
        if accept.Refuses? {
          return PortFailed;
        }
        var n := if accept.n <= |payload| then accept.n else |payload|;
        written := written + payload[..n];
        payload := payload[n..];
      }
      buf := [];
      return Done;
    }

    method PerformStep(step: Step) returns (out: Outcome)
      requires Valid() && (step.ExpectStep? ==> IsPattern(step.p))
      modifies this
      ensures Valid() && (View(), out) == DoStep(true, filter, step, old(View()))
    {
      StepBounded(filter, step, View());
      match step {
        case ExpectStep(p) =>
          out := ReadUntil(p);
        case SendStep(payload) =>
          if sleeps == [] {
            return Pending;
          }
          var slept := sleeps[0];
          sleeps := sleeps[1..];
          if !slept {
            return Cancelled;
          }
          out := WriteAll(payload);
      }
    }

    /** The step loop: how many steps completed, and how the run ended. */
    method RunSteps(steps: seq<Step>) returns (out: Outcome, completed: nat)
      requires Valid() && IsScript(steps)
      modifies this
      ensures Valid()
      ensures (View(), out, completed) == RunScript(true, filter, steps, old(View()))
    {
      if |steps| == 0 {
        out := PumpUntilDone(false);
        return out, 0;
      }
      ghost var end := DoSteps(true, filter, steps, View());
      assert steps[0..] == steps;
      completed := 0;
      while completed < |steps|
        invariant 0 <= completed <= |steps|
        invariant Valid()
        invariant StepsLeft(true, filter, steps, completed, View()) == end
      {
        StepsUnfold(true, filter, steps, completed, View());
        out := PerformStep(steps[completed]);
        if out != Done {
          return;
        }
        completed := completed + 1;
      }
      out := Done;
      if steps[|steps| - 1].SendStep? {
        out := PumpUntilDone(true);
      }
    }
  }

  /** The result of the whole script, seen from the point where `completed` steps are behind. */
  ghost function StepsLeft(trim: bool, filter: bool, steps: seq<Step>, completed: nat, s: State)
    : (r: (State, Outcome, nat))
    requires completed <= |steps| && IsScript(steps)
  {
    var r := DoSteps(trim, filter, steps[completed..], s);
    (r.0, r.1, r.2 + completed)
  }

  lemma StepsUnfold(trim: bool, filter: bool, steps: seq<Step>, completed: nat, s: State)
    requires completed < |steps| && IsScript(steps)
    ensures var (s1, out) := DoStep(trim, filter, steps[completed], s);
      StepsLeft(trim, filter, steps, completed, s)
      == if out != Done then (s1, out, completed) else StepsLeft(trim, filter, steps, completed + 1, s1)
  {
    var rest := steps[completed..];
    assert rest[0] == steps[completed] && rest[1..] == steps[completed + 1..];
  }
}

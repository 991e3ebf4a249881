/** What a script means for the text the port delivers and the bytes it is sent, said without the engine's buffer. */
module EngineMeaning {
  import opened Base
  import opened EscapeFilter
  import opened Engine

  // ------------------------------------------------------------- what is matched

  /** The leftover of earlier steps followed by the visible text of the next j turns. */
  function Seen(filter: bool, s: State, j: nat): (text: Data)
    requires j <= |s.turns|
  {
    s.buf + CleanAll(filter, s.rem, Chunks(s.turns[..j])).0
  }

  /** The partial sequence the filter carries after j turns. */
  function RemAfter(filter: bool, s: State, j: nat): (rem: Data)
    requires j <= |s.turns|
  {
    CleanAll(filter, s.rem, Chunks(s.turns[..j])).1
  }

  /**
   What an expect can still look at after j turns: the last window of the text before the last of
   them, and its text.
   */
  function Reach(filter: bool, s: State, j: nat): (text: Data)
    requires j <= |s.turns|
  {
    if j == 0 then s.buf
    else Cap(Seen(filter, s, j - 1)) + TurnText(filter, RemAfter(filter, s, j - 1), s.turns[j - 1]).0
  }

  /** Where in the text seen the reach begins. */
  function Horizon(filter: bool, s: State, j: nat): (at: nat)
    requires j <= |s.turns|
  {
    if j == 0 || |Seen(filter, s, j - 1)| <= MATCH_WINDOW then 0 else |Seen(filter, s, j - 1)| - MATCH_WINDOW
  }

  /** How many turns an expect took. */
  function Took(s: State, s': State): (n: int) { |s.turns| - |s'.turns| }

  /**
   An expect that ended as e took turns as long as its reach held no match, and
   succeeded exactly if the reach then holds one, leaving what follows the
   leftmost match in it.
   */
  ghost predicate FirstInReach(filter: bool, p: Pattern, s: State, e: (State, Outcome))
    requires IsPattern(p)
  {
    && 0 <= Took(s, e.0) <= |s.turns|
    && (forall j :: 0 <= j < Took(s, e.0) ==> Find(p, Reach(filter, s, j)).None?)
    && (e.1 != SinkFailed ==>
          var m := Find(p, Reach(filter, s, Took(s, e.0)));
          (e.1 == Done <==> m.Some?) && (e.1 == Done ==> e.0.buf == Reach(filter, s, Took(s, e.0))[m.value.1..]))
  }

  /** The same of the whole text seen. */
  ghost predicate FirstMatch(filter: bool, p: Pattern, s: State, e: (State, Outcome))
    requires IsPattern(p)
  {
    && 0 <= Took(s, e.0) <= |s.turns|
    && (forall j :: 0 <= j < Took(s, e.0) ==> Find(p, Seen(filter, s, j)).None?)
    && (e.1 != SinkFailed ==>
          var m := Find(p, Seen(filter, s, Took(s, e.0)));
          (e.1 == Done <==> m.Some?) && (e.1 == Done ==> e.0.buf == Seen(filter, s, Took(s, e.0))[m.value.1..]))
  }

  lemma SeenNothing(filter: bool, s: State)
    ensures Seen(filter, s, 0) == s.buf && RemAfter(filter, s, 0) == s.rem
  {
    assert s.turns[..0] == [] && s.buf + [] == s.buf;
  }

  /** One turn more adds its text. */
  lemma SeenNext(filter: bool, s: State, j: nat)
    requires j < |s.turns|
    ensures var (out, rem) := TurnText(filter, RemAfter(filter, s, j), s.turns[j]);
      Seen(filter, s, j + 1) == Seen(filter, s, j) + out && RemAfter(filter, s, j + 1) == rem
  {
    var x, y := s.turns[..j], [s.turns[j]];
    assert s.turns[..j + 1] == x + y;
    OneTurn(filter, RemAfter(filter, s, j), s.turns[j]);
    ReadsJoin(filter, s.rem, x, y);
    Regroup(s.buf, CleanAll(filter, s.rem, Chunks(x)).0, TurnText(filter, RemAfter(filter, s, j), s.turns[j]).0);
  }

  lemma CapAppend(a: Data, x: Data)
    ensures Cap(Cap(a) + x) == Cap(a + x)
  {
  }

  /** A shortened text has no match if the whole one has none. */
  lemma CapNone(p: Pattern, buf: Data)
    requires IsPattern(p) && Find(p, buf).None?
    ensures Find(p, Cap(buf)).None?
  {
    var kept, d := Cap(buf), |buf| - |Cap(buf)|;
    forall k | 0 <= k <= |kept| ensures p.pick(kept[k..]).None? {
      assert kept[k..] == buf[d + k..];
    }
  }

  /** s1 is s after a turn that goes on. */
  ghost predicate Turned(filter: bool, s: State, s1: State)
  {
    && s.turns != [] && s1.turns == s.turns[1..]
    && s1.buf == Cap(s.buf) + TurnText(filter, s.rem, s.turns[0]).0
    && s1.rem == TurnText(filter, s.rem, s.turns[0]).1
  }

  lemma TurnGoes(filter: bool, p: Pattern, s: State)
    requires IsPattern(p) && ExpectTurn(true, filter, p, s).Go?
    ensures Turned(filter, s, ExpectTurn(true, filter, p, s).s) && Find(p, s.buf).None?
  {
    assert Cap(s.buf) + [] == Cap(s.buf);
  }

  /** What the filter does after one turn and j more is what it does after j + 1. */
  lemma CleanShift(filter: bool, s: State, s1: State, j: nat)
    requires Turned(filter, s, s1) && j <= |s1.turns|
    ensures CleanAll(filter, s.rem, Chunks(s.turns[..j + 1])).0
         == TurnText(filter, s.rem, s.turns[0]).0 + CleanAll(filter, s1.rem, Chunks(s1.turns[..j])).0
    ensures RemAfter(filter, s, j + 1) == RemAfter(filter, s1, j)
  {
    var x, y := [s.turns[0]], s1.turns[..j];
    assert s.turns[..j + 1] == x + y;
    OneTurn(filter, s.rem, s.turns[0]);
    ReadsJoin(filter, s.rem, x, y);
  }

  /** What is in reach after one turn and j more is what is in reach after j + 1. */
  lemma ReachShift(filter: bool, s: State, s1: State, j: nat)
    requires Turned(filter, s, s1) && j <= |s1.turns|
    ensures Reach(filter, s1, j) == Reach(filter, s, j + 1)
  {
    SeenNothing(filter, s);
    if j > 0 {
      CleanShift(filter, s, s1, j - 1);
      var (out, more) := (TurnText(filter, s.rem, s.turns[0]).0, CleanAll(filter, s1.rem, Chunks(s1.turns[..j - 1])).0);
      Regroup(Cap(s.buf), out, more);
      CapAppend(s.buf, out + more);
      assert Cap(Seen(filter, s1, j - 1)) == Cap(Seen(filter, s, j));
    }
  }

  lemma TurnStopsInReach(filter: bool, p: Pattern, s: State)
    requires IsPattern(p) && ExpectTurn(true, filter, p, s).Stop?
    ensures var r := ExpectTurn(true, filter, p, s); FirstInReach(filter, p, s, (r.s, r.out))
  {
    var r := ExpectTurn(true, filter, p, s);
    if Took(s, r.s) == 1 && r.out != SinkFailed {
      SeenNothing(filter, s);
      CapNone(p, s.buf);
      assert Cap(s.buf) + [] == Cap(s.buf);
      assert Reach(filter, s, 1) == Cap(s.buf);
    }
  }

  lemma ReachShiftFirst(filter: bool, p: Pattern, s: State, s1: State, e: (State, Outcome))
    requires IsPattern(p) && Turned(filter, s, s1) && Find(p, s.buf).None? && FirstInReach(filter, p, s1, e)
    ensures FirstInReach(filter, p, s, e)
  {
    var n := Took(s1, e.0);
    forall j | 0 <= j < n + 1 ensures Find(p, Reach(filter, s, j)).None? {
      if j > 0 { ReachShift(filter, s, s1, j - 1); }
    }
    ReachShift(filter, s, s1, n);
  }

  /** Every expect, whatever the pattern: it stops at the first turn after which a match is in reach. */
  lemma {:induction false} ExpectFindsInReach(filter: bool, p: Pattern, s: State)
    requires IsPattern(p)
    ensures FirstInReach(filter, p, s, Expect(true, filter, p, s))
    decreases |s.turns|
  {
    var r := ExpectTurn(true, filter, p, s);
    if r.Stop? {
      TurnStopsInReach(filter, p, s);
    } else {
      TurnGoes(filter, p, s);
      ExpectGoes(true, filter, p, s, r.s);
      ExpectFindsInReach(filter, p, r.s);
      ReachShiftFirst(filter, p, s, r.s, Expect(true, filter, p, r.s));
    }
  }

  // --------------------------------------------------- the reach, in the text seen

  lemma ReachIsTail(filter: bool, s: State, j: nat)
    requires j <= |s.turns|
    ensures Horizon(filter, s, j) <= |Seen(filter, s, j)|
    ensures Reach(filter, s, j) == Seen(filter, s, j)[Horizon(filter, s, j)..]
  {
    if j == 0 { SeenNothing(filter, s); } else { SeenNext(filter, s, j - 1); }
  }

  ghost predicate Occurs(p: Pattern, text: Data, from: nat)
  {
    exists a, b :: from <= a <= b <= |text| && p.lang(text[a..b])
  }

  lemma FindExactly(p: Pattern, text: Data)
    requires IsPattern(p)
    ensures Find(p, text).Some? <==> Occurs(p, text, 0)
  {
    if Find(p, text).Some? {
      var a, b := Find(p, text).value.0, Find(p, text).value.1;
      assert PickIsMatch(p, text[a..]);
      assert text[a..][..b - a] == text[a..b];
    }
    if a, b :| 0 <= a <= b <= |text| && p.lang(text[a..b]) {
      assert text[a..][..b - a] == text[a..b];
      assert PickWhenMatch(p, text[a..], b - a);
    }
  }

  lemma OccursInTail(p: Pattern, text: Data, d: nat)
    requires d <= |text|
    ensures Occurs(p, text[d..], 0) <==> Occurs(p, text, d)
  {
    if a, b :| 0 <= a <= b <= |text[d..]| && p.lang(text[d..][a..b]) {
      assert text[d..][a..b] == text[d + a..d + b];
    }
    if a, b :| d <= a <= b <= |text| && p.lang(text[a..b]) {
      assert text[d..][a - d..b - d] == text[a..b];
    }
  }

  /**
   Exactly what an expect can find, for every pattern: after j turns a match is
   found if and only if one lies in the text seen that begins no more than a
   window before the last of these turns.
   */
  lemma FoundExactly(filter: bool, p: Pattern, s: State, j: nat)
    requires IsPattern(p) && j <= |s.turns|
    ensures Find(p, Reach(filter, s, j)).Some? <==> Occurs(p, Seen(filter, s, j), Horizon(filter, s, j))
  {
    ReachIsTail(filter, s, j);
    FindExactly(p, Reach(filter, s, j));
    OccursInTail(p, Seen(filter, s, j), Horizon(filter, s, j));
  }

  /** A pattern that matches one literal text only. */
  function Literal(w: Data): (p: Pattern)
    ensures IsPattern(p)
  {
    Pattern((x: Data) => x == w, (t: Data) => if |w| <= |t| && t[..|w|] == w then Some(|w|) else None)
  }

  /** For a literal of any length: found exactly when it stands in the text, from the horizon on. */
  lemma LiteralFoundExactly(filter: bool, w: Data, s: State, j: nat)
    requires j <= |s.turns|
    ensures Find(Literal(w), Reach(filter, s, j)).Some?
       <==> exists a :: Horizon(filter, s, j) <= a && StandsAt(w, Seen(filter, s, j), a)
  {
    FoundExactly(filter, Literal(w), s, j);
    LiteralOccurs(w, Seen(filter, s, j), Horizon(filter, s, j));
  }

  predicate StandsAt(w: Data, text: Data, a: nat) { a + |w| <= |text| && text[a..a + |w|] == w }

  lemma LiteralOccurs(w: Data, text: Data, from: nat)
    ensures Occurs(Literal(w), text, from) <==> exists a :: from <= a && StandsAt(w, text, a)
  {
    if a, b :| from <= a <= b <= |text| && Literal(w).lang(text[a..b]) {
      assert StandsAt(w, text, a);
    }
    if a :| from <= a && StandsAt(w, text, a) {
      assert Literal(w).lang(text[a..a + |w|]);
    }
  }

  // ------------------------------------------- for patterns within the window, all

  lemma NoneSeen(filter: bool, p: Pattern, s: State, j: nat)
    requires IsPattern(p) && Windowed(p) && j < |s.turns| && Find(p, Seen(filter, s, j)).None?
    ensures Trails(p, Seen(filter, s, j + 1), Reach(filter, s, j + 1))
  {
    var text := Seen(filter, s, j);
    TrailsItself(p, text);
    TrailsCaps(p, text, text);
    TrailsGrows(p, text, Cap(text), TurnText(filter, RemAfter(filter, s, j), s.turns[j]).0);
    SeenNext(filter, s, j);
  }

  lemma SameWithinReach(filter: bool, p: Pattern, s: State, j: nat)
    requires IsPattern(p) && j <= |s.turns| && Trails(p, Seen(filter, s, j), Reach(filter, s, j))
    ensures var (m, r) := (Find(p, Seen(filter, s, j)), Find(p, Reach(filter, s, j)));
      m.None? == r.None? && (m.Some? ==> Seen(filter, s, j)[m.value.1..] == Reach(filter, s, j)[r.value.1..])
  {
    FindTrailing(p, Seen(filter, s, j), Reach(filter, s, j));
  }

  ghost predicate NoneInReach(filter: bool, p: Pattern, s: State, j: nat)
    requires IsPattern(p) && j <= |s.turns|
  {
    j == 0 || (NoneInReach(filter, p, s, j - 1) && Find(p, Reach(filter, s, j - 1)).None?)
  }

  lemma {:induction false} NoneThenNone(filter: bool, p: Pattern, s: State, j: nat)
    requires IsPattern(p) && j <= |s.turns| && forall k :: 0 <= k < j ==> Find(p, Reach(filter, s, k)).None?
    ensures NoneInReach(filter, p, s, j)
  {
    if j > 0 { NoneThenNone(filter, p, s, j - 1); }
  }

  /** As long as nothing was in reach, what fell out of reach is where no match can start. */
  lemma {:induction false} ReachSuffices(filter: bool, p: Pattern, s: State, j: nat)
    requires IsPattern(p) && Windowed(p) && j <= |s.turns| && NoneInReach(filter, p, s, j)
    ensures Trails(p, Seen(filter, s, j), Reach(filter, s, j))
  {
    if j == 0 { ReachAtFirst(filter, p, s); }
    else {
      ReachSuffices(filter, p, s, j - 1);
      ReachStep(filter, p, s, j - 1);
    }
  }

  lemma ReachAtFirst(filter: bool, p: Pattern, s: State)
    ensures Trails(p, Seen(filter, s, 0), Reach(filter, s, 0))
  {
    SeenNothing(filter, s);
    TrailsItself(p, s.buf);
  }

  lemma ReachStep(filter: bool, p: Pattern, s: State, j: nat)
    requires IsPattern(p) && Windowed(p) && j < |s.turns|
    requires Trails(p, Seen(filter, s, j), Reach(filter, s, j)) && Find(p, Reach(filter, s, j)).None?
    ensures Trails(p, Seen(filter, s, j + 1), Reach(filter, s, j + 1))
  {
    SameWithinReach(filter, p, s, j);
    NoneSeen(filter, p, s, j);
  }

  /**
   For patterns within the window the reach is as good as the whole text: an
   expect succeeds at the first read after which the text seen contains a match,
   takes the leftmost one, and leaves exactly what follows it.
   */
  lemma ExpectFindsFirstMatch(filter: bool, p: Pattern, s: State)
    requires IsPattern(p) && Windowed(p)
    ensures FirstMatch(filter, p, s, Expect(true, filter, p, s))
  {
    ExpectFindsInReach(filter, p, s);
    var n := Took(s, Expect(true, filter, p, s).0);
    forall j | 0 <= j <= n
      ensures Trails(p, Seen(filter, s, j), Reach(filter, s, j))
      ensures j < n ==> Find(p, Seen(filter, s, j)).None?
    {
      NoneThenNone(filter, p, s, j);
      ReachSuffices(filter, p, s, j);
      SameWithinReach(filter, p, s, j);
    }
    SameWithinReach(filter, p, s, n);
  }

  // -------------------------------------------------- which patterns match at all

  /** An engine as it is made, before a history of reads. */
  function Fresh(turns: seq<Turn>): (s: State) { State([], [], [], [], turns, [], []) }

  /** Reads that all succeed and deliver something. */
  predicate Feeding(turns: seq<Turn>)
  {
    forall i :: 0 <= i < |turns| ==> turns[i].Read? && turns[i].data != [] && !turns[i].failed && turns[i].sinkOk
  }

  /** Fed so, an expect succeeds or uses up all the reads. */
  lemma {:induction false} FedToTheEnd(filter: bool, p: Pattern, s: State)
    requires IsPattern(p) && Feeding(s.turns)
    ensures var (s', out) := Expect(true, filter, p, s); out == Done || (out == Pending && s'.turns == [])
    decreases |s.turns|
  {
    var r := ExpectTurn(true, filter, p, s);
    if r.Go? {
      assert forall i :: 0 <= i < |s.turns| - 1 ==> s.turns[1..][i] == s.turns[i + 1];
      ExpectGoes(true, filter, p, s, r.s);
      FedToTheEnd(filter, p, r.s);
    }
  }

  /** The text byte by byte. */
  function Drip(w: Data): (turns: seq<Turn>)
    ensures |turns| == |w| && Feeding(turns)
  {
    if w == [] then [] else Drip(w[..|w| - 1]) + [Read([w[|w| - 1]], false, true)]
  }

  /** The text byte by byte, but for the last read's worth of it in one read. */
  function Feed(w: Data): (turns: seq<Turn>)
    ensures Feeding(turns)
  {
    if w == [] then []
    else
      var k := LastRead(w);
      Drip(w[..k]) + [Read(w[k..], false, true)]
  }

  /** Where the last read's worth of a text begins. */
  function LastRead(w: Data): (k: nat)
    ensures k <= |w| && |w[k..]| <= READ_CHUNK && (w != [] ==> w[k..] != [])
    ensures |w| <= MATCH_WINDOW + READ_CHUNK ==> k <= MATCH_WINDOW
  {
    if |w| <= READ_CHUNK then 0 else |w| - READ_CHUNK
  }

  lemma {:induction false} PlainStrip(data: Data)
    requires ESC !in data
    ensures Strip(data) == (data, [])
  {
    if data != [] {
      PlainStrip(data[1..]);
      assert data == [data[0]] + data[1..];
    }
  }

  lemma PlainTurn(filter: bool, t: Turn)
    requires t.Read? && (filter ==> ESC !in t.data)
    ensures TurnText(filter, [], t) == (t.data, [])
  {
    assert [] + t.data == t.data;
    if filter { PlainStrip(t.data); }
  }

  /** Plain text fed byte by byte is seen as it is. */
  lemma {:induction false} DripSeen(filter: bool, w: Data, more: seq<Turn>)
    requires filter ==> ESC !in w
    ensures Seen(filter, Fresh(Drip(w) + more), |w|) == w && RemAfter(filter, Fresh(Drip(w) + more), |w|) == []
  {
    var s := Fresh(Drip(w) + more);
    if w == [] {
      SeenNothing(filter, s);
    } else {
      var front, last := w[..|w| - 1], Read([w[|w| - 1]], false, true);
      DripSeen(filter, front, [last] + more);
      assert Drip(w) + more == Drip(front) + ([last] + more);
      assert s.turns[|front|] == last;
      SeenNext(filter, s, |front|);
      PlainTurn(filter, last);
      assert w == front + last.data;
    }
  }

  /** Fed so, a text of up to a window and a read comes to be in reach as a whole. */
  lemma FeedInReach(filter: bool, w: Data)
    requires |w| <= MATCH_WINDOW + READ_CHUNK && (filter ==> ESC !in w)
    ensures Sized(Feed(w)) && Reach(filter, Fresh(Feed(w)), |Feed(w)|) == w
  {
    if w != [] {
      var a, b := w[..LastRead(w)], w[LastRead(w)..];
      assert Feed(w) == Drip(a) + [Read(b, false, true)];
      DripThenRead(filter, a, b);
      assert w == a + b;
    }
  }

  lemma DripThenRead(filter: bool, a: Data, b: Data)
    requires |a| <= MATCH_WINDOW && 0 < |b| <= READ_CHUNK && (filter ==> ESC !in a && ESC !in b)
    ensures Sized(Drip(a) + [Read(b, false, true)])
    ensures Reach(filter, Fresh(Drip(a) + [Read(b, false, true)]), |a| + 1) == a + b
  {
    var last := Read(b, false, true);
    DripSized(a);
    SizedSnoc(Drip(a), last);
    DripSeen(filter, a, [last]);
    ReachOfPlain(filter, Fresh(Drip(a) + [last]), |a|);
  }

  lemma SizedSnoc(turns: seq<Turn>, t: Turn)
    requires Sized(turns) && (t.Read? ==> |t.data| <= READ_CHUNK)
    ensures Sized(turns + [t])
  {
  }

  lemma ReachOfPlain(filter: bool, s: State, j: nat)
    requires j < |s.turns| && RemAfter(filter, s, j) == [] && |Seen(filter, s, j)| <= MATCH_WINDOW
    requires s.turns[j].Read? && (filter ==> ESC !in s.turns[j].data)
    ensures Reach(filter, s, j + 1) == Seen(filter, s, j) + s.turns[j].data
  {
    PlainTurn(filter, s.turns[j]);
  }

  lemma {:induction false} DripSized(w: Data)
    ensures Sized(Drip(w))
  {
    if w != [] {
      DripSized(w[..|w| - 1]);
      SizedSnoc(Drip(w[..|w| - 1]), Read([w[|w| - 1]], false, true));
    }
  }

  /** Whatever a fresh engine has in reach is short, and plain if it filters. */
  lemma {:induction false} FreshReach(filter: bool, turns: seq<Turn>, j: nat)
    requires Sized(turns) && j <= |turns|
    ensures Carried(RemAfter(filter, Fresh(turns), j))
    ensures filter ==> ESC !in Seen(filter, Fresh(turns), j)
    ensures |Reach(filter, Fresh(turns), j)| <= MATCH_WINDOW + READ_CHUNK
  {
    var s := Fresh(turns);
    if j == 0 {
      SeenNothing(filter, s);
    } else {
      FreshReach(filter, turns, j - 1);
      SeenNext(filter, s, j - 1);
      if turns[j - 1].Read? { CleanFromChunkAlone(filter, RemAfter(filter, s, j - 1), turns[j - 1].data); }
    }
  }

  /** Some history of reads makes an expect of p succeed on a fresh engine. */
  ghost predicate Matchable(filter: bool, p: Pattern)
    requires IsPattern(p)
  {
    exists turns :: Sized(turns) && Expect(true, filter, p, Fresh(turns)).1 == Done
  }

  /** A text a match may have: no longer than a window and a read, and plain if escapes are filtered. */
  predicate Short(filter: bool, w: Data)
  {
    |w| <= MATCH_WINDOW + READ_CHUNK && (filter ==> ESC !in w)
  }

  /** A text of the pattern's that is short enough is matched, if it is fed so as to be in reach. */
  lemma LongMatchSucceeds(filter: bool, p: Pattern, w: Data)
    requires IsPattern(p) && p.lang(w) && Short(filter, w)
    ensures Sized(Feed(w)) && Expect(true, filter, p, Fresh(Feed(w))).1 == Done
  {
    var s := Fresh(Feed(w));
    FeedInReach(filter, w);
    FedToTheEnd(filter, p, s);
    ExpectFindsInReach(filter, p, s);
    FindExactly(p, w);
    assert w[0..|w|] == w;
    assert Occurs(p, w, 0);
  }

  /** What a fresh engine matched is a text of the pattern's, and a short one. */
  lemma MatchIsShort(filter: bool, p: Pattern, turns: seq<Turn>) returns (w: Data)
    requires IsPattern(p) && Sized(turns) && Expect(true, filter, p, Fresh(turns)).1 == Done
    ensures p.lang(w) && Short(filter, w)
  {
    var s := Fresh(turns);
    ExpectFindsInReach(filter, p, s);
    var n := Took(s, Expect(true, filter, p, s).0);
    FreshReach(filter, turns, n);
    ReachIsTail(filter, s, n);
    FindExactly(p, Reach(filter, s, n));
    w := OccurrenceIn(p, Reach(filter, s, n));
  }

  lemma OccurrenceIn(p: Pattern, text: Data) returns (w: Data)
    requires Occurs(p, text, 0)
    ensures p.lang(w) && |w| <= |text| && forall b :: b in w ==> b in text
  {
    var a, b :| 0 <= a <= b <= |text| && p.lang(text[a..b]);
    w := text[a..b];
  }

  /**
   Which patterns can ever match, exactly: not those that match some text within
   the window, as the comment has it, but those that match some text of up to the
   window and one read.
   */
  lemma MatchableExactly(filter: bool, p: Pattern)
    requires IsPattern(p)
    ensures Matchable(filter, p) <==> exists w :: p.lang(w) && Short(filter, w)
  {
    if Matchable(filter, p) {
      var turns :| Sized(turns) && Expect(true, filter, p, Fresh(turns)).1 == Done;
      var w := MatchIsShort(filter, p, turns);
    }
    if w :| p.lang(w) && Short(filter, w) {
      LongMatchSucceeds(filter, p, w);
    }
  }

  // ------------------------------------------------------------- what is written

  /** The payloads of the sends, in order. */
  function Payloads(steps: seq<Step>): (r: Data)
  {
    if steps == [] then []
    else PayloadOf(steps[0]) + Payloads(steps[1..])
  }

  function PayloadOf(step: Step): (r: Data) { if step.SendStep? then step.payload else [] }

  lemma {:induction false} ExpectWritesNothing(trim: bool, filter: bool, p: Pattern, s: State)
    requires IsPattern(p)
    ensures Expect(trim, filter, p, s).0.written == s.written
    decreases |s.turns|
  {
    var r := ExpectTurn(trim, filter, p, s);
    if r.Go? { ExpectWritesNothing(trim, filter, p, r.s); }
  }

  lemma StepWrites(trim: bool, filter: bool, step: Step, s: State)
    requires step.ExpectStep? ==> IsPattern(step.p)
    ensures var (s', out) := DoStep(trim, filter, step, s);
      && s.written <= s'.written <= s.written + PayloadOf(step)
      && (out == Done ==> s'.written == s.written + PayloadOf(step))
  {
    match step
    case ExpectStep(p) =>
      ExpectWritesNothing(trim, filter, p, s);
      assert s.written + [] == s.written;
    case SendStep(payload) =>
      if s.sleeps != [] && s.sleeps[0] { WriteKeeps(payload, s.(sleeps := s.sleeps[1..])); }
  }

  /** Of the steps, the sends among the first k were written whole and the next one at most in part. */
  ghost predicate Wrote(before: Data, steps: seq<Step>, k: nat, after: Data)
    requires k <= |steps|
  {
    && before + Payloads(steps[..k]) <= after
    && (k == |steps| ==> after == before + Payloads(steps))
    && (k < |steps| ==> after <= before + Payloads(steps[..k]) + PayloadOf(steps[k]))
  }

  lemma WroteOneMore(before: Data, steps: seq<Step>, k: nat, after: Data)
    requires steps != [] && k < |steps| && Wrote(before + PayloadOf(steps[0]), steps[1..], k, after)
    ensures Wrote(before, steps, k + 1, after)
  {
    PayloadsFirst(before, steps, k + 1);
    PayloadsFirst(before, steps, |steps|);
    assert steps[1..][..|steps| - 1] == steps[1..] && steps[..|steps|] == steps;
  }

  lemma PayloadsFirst(written: Data, steps: seq<Step>, k: nat)
    requires 0 < k <= |steps|
    ensures written + Payloads(steps[..k]) == (written + PayloadOf(steps[0])) + Payloads(steps[1..][..k - 1])
  {
    assert steps[..k][1..] == steps[1..][..k - 1];
    Regroup(written, PayloadOf(steps[0]), Payloads(steps[1..][..k - 1]));
  }

  /**
   The port receives the payloads of the completed sends, whole, once and in
   order, and at most a beginning of the one that was interrupted.
   */
  lemma {:induction false} StepsWrite(trim: bool, filter: bool, steps: seq<Step>, s: State)
    requires IsScript(steps)
    ensures var r := DoSteps(trim, filter, steps, s); Wrote(s.written, steps, r.2, r.0.written)
  {
    assert steps[..0] == [] && s.written + [] == s.written;
    if steps != [] {
      StepWrites(trim, filter, steps[0], s);
      var (s1, out) := DoStep(trim, filter, steps[0], s);
      if out == Done {
        StepsWrite(trim, filter, steps[1..], s1);
        var r := DoSteps(trim, filter, steps[1..], s1);
        WroteOneMore(s.written, steps, r.2, r.0.written);
      }
    }
  }

  lemma {:induction false} PumpWritesNothing(filter: bool, swallow: bool, s: State)
    ensures Pump(filter, swallow, s).0.written == s.written
    decreases |s.turns|
  {
    if s.turns != [] && s.turns[0].Read? {
      var t := s.turns[0];
      var (out, rem) := TurnText(filter, s.rem, t);
      if !(out != [] && !t.sinkOk) && !t.failed {
        PumpWritesNothing(filter, swallow, s.(turns := s.turns[1..], rem := rem, sink := s.sink + out));
      }
    }
  }

  /** A run that completes has written the payloads of all its sends, and nothing else. */
  lemma ScriptWrites(trim: bool, filter: bool, steps: seq<Step>, s: State)
    requires IsScript(steps) && RunScript(trim, filter, steps, s).1 == Done
    ensures RunScript(trim, filter, steps, s).0.written == s.written + Payloads(steps)
  {
    if steps == [] {
      PumpWritesNothing(filter, false, s);
      assert s.written + [] == s.written;
    } else {
      StepsWrite(trim, filter, steps, s);
      PumpWritesNothing(filter, true, DoSteps(trim, filter, steps, s).0);
    }
  }
}

/**
 The terminal-escape filter of the serial module (pkg/module/serial/engine.go).

 The grammar below is the filter's own: what counts as one escape sequence, as
 a statement about the bytes of the sequence and the bytes that follow it.
 The scanning loops are proved against it, and the properties of filtering a
 stream in chunks are proved about the function the loops compute.
 */
module EscapeFilter {
  import opened Base

  const ESC: Byte := 0x1b
  const ST: Byte := 0x9c
  const BEL: Byte := 0x07
  const BACKSLASH: Byte := 0x5c
  const BRACKET: Byte := 0x5b
  const OSC: Byte := 0x5d
  const READ_CHUNK := 4096
  const MAX_REMAINDER := 4 * READ_CHUNK

  // ---------------------------------------------------------------- grammar

  predicate IsParam(b: Byte) { 0x30 <= b <= 0x3f }
  predicate IsInter(b: Byte) { 0x20 <= b <= 0x2f }
  predicate IsFinal(b: Byte) { 0x40 <= b <= 0x7e }

  /** DCS (P), OSC (]), SOS (X), PM (^) and APC (_) open a control string. */
  predicate IsIntroducer(b: Byte) { b == 0x50 || b == OSC || b == 0x58 || b == 0x5e || b == 0x5f }

  /** "ESC [", then parameter bytes up to p, then intermediate bytes. */
  predicate CsiShape(s: Data, p: nat)
  {
    && 2 <= p <= |s|
    && s[0] == ESC && s[1] == BRACKET
    && (forall k :: 2 <= k < p ==> IsParam(s[k]))
    && (forall k :: p <= k < |s| ==> IsInter(s[k]))
  }

  ghost predicate CsiTerminated(s: Data)
  {
    |s| >= 3 && IsFinal(s[|s| - 1]) && HasCsiShape(s[..|s| - 1])
  }

  ghost predicate HasCsiShape(s: Data) { exists p :: CsiShape(s, p) }

  /** A control sequence cut short by a byte that can neither extend nor end it; that byte is not part of it. */
  ghost predicate CsiAborted(s: Data, next: Byte)
  {
    && !IsFinal(next) && !IsInter(next)
    && exists p :: CsiShape(s, p) && (p == |s| ==> !IsParam(next))
  }

  /** How many bytes of s at position k end a control string: 0, 1 (ST, or BEL for an OSC) or 2 ("ESC \"). */
  function TerminatorAt(s: Data, k: nat): (n: nat)
    requires 2 <= k < |s|
  {
    if s[k] == ST || (s[1] == OSC && s[k] == BEL) then 1
    else if s[k] == ESC && k + 1 < |s| && s[k + 1] == BACKSLASH then 2
    else 0
  }

  predicate StringOpen(s: Data, upto: nat)
    requires upto <= |s|
  {
    && |s| >= 2 && s[0] == ESC && IsIntroducer(s[1])
    && (forall k :: 2 <= k < upto ==> TerminatorAt(s, k) == 0)
  }

  ghost predicate StringTerminated(s: Data)
  {
    exists k :: 2 <= k < |s| && StringOpen(s, k) && TerminatorAt(s, k) > 0 && k + TerminatorAt(s, k) == |s|
  }

  predicate TwoByte(s: Data)
  {
    |s| == 2 && s[0] == ESC && !IsIntroducer(s[1]) && s[1] != BRACKET
  }

  /** s is one whole escape sequence when rest follows it. */
  ghost predicate Complete(s: Data, rest: Data)
  {
    TwoByte(s) || CsiTerminated(s) || (rest != [] && CsiAborted(s, rest[0])) || StringTerminated(s)
  }

  /** s is the beginning of an escape sequence whose end has not been read. */
  ghost predicate Partial(s: Data)
  {
    s == [ESC] || HasCsiShape(s) || StringOpen(s, |s|)
  }

  datatype Token = Plain(b: Byte) | Sequence(bytes: Data)

  /** data reads, left to right, as the tokens followed by a partial sequence (or nothing). */
  ghost predicate Segmented(data: Data, tokens: seq<Token>, tail: Data)
    decreases |tokens|
  {
    if tokens == [] then data == tail && (tail == [] || Partial(tail))
    else match tokens[0]
      case Plain(b) => data != [] && data[0] == b && b != ESC && Segmented(data[1..], tokens[1..], tail)
      case Sequence(q) =>
        0 < |q| <= |data| && q == data[..|q|] && Complete(q, data[|q|..]) && Segmented(data[|q|..], tokens[1..], tail)
  }

  /** The visible bytes of a segmentation. */
  function Text(tokens: seq<Token>): (r: Data)
  {
    if tokens == [] then []
    else match tokens[0]
      case Plain(b) => [b] + Text(tokens[1..])
      case Sequence(_) => Text(tokens[1..])
  }

  // ------------------------------------------------- the grammar is deterministic

  function ParamsEnd(s: Data, k: nat): (p: nat)
    requires k <= |s|
    ensures k <= p <= |s| && (p < |s| ==> !IsParam(s[p]))
    ensures forall i :: k <= i < p ==> IsParam(s[i])
    decreases |s| - k
  {
    if k < |s| && IsParam(s[k]) then ParamsEnd(s, k + 1) else k
  }

  function IntersEnd(s: Data, k: nat): (p: nat)
    requires k <= |s|
    ensures k <= p <= |s| && (p < |s| ==> !IsInter(s[p]))
    ensures forall i :: k <= i < p ==> IsInter(s[i])
    decreases |s| - k
  {
    if k < |s| && IsInter(s[k]) then IntersEnd(s, k + 1) else k
  }

  /** The first position at or after k where a terminator begins, or |s|. */
  function FirstTerminator(s: Data, k: nat): (p: nat)
    requires 2 <= k <= |s|
    ensures k <= p <= |s| && (p < |s| ==> TerminatorAt(s, p) > 0)
    ensures forall i :: k <= i < p ==> TerminatorAt(s, i) == 0
    decreases |s| - k
  {
    if k < |s| && TerminatorAt(s, k) == 0 then FirstTerminator(s, k + 1) else k
  }

  lemma {:induction false} ParamsEndAt(s: Data, k: nat, p: nat)
    requires k <= p <= |s| && (p < |s| ==> !IsParam(s[p]))
    requires forall i :: k <= i < p ==> IsParam(s[i])
    ensures ParamsEnd(s, k) == p
    decreases p - k
  {
    if k < p { ParamsEndAt(s, k + 1, p); }
  }

  lemma {:induction false} IntersEndAt(s: Data, k: nat, p: nat)
    requires k <= p <= |s| && (p < |s| ==> !IsInter(s[p]))
    requires forall i :: k <= i < p ==> IsInter(s[i])
    ensures IntersEnd(s, k) == p
    decreases p - k
  {
    if k < p { IntersEndAt(s, k + 1, p); }
  }

  /** The length of the complete sequence at the front of s, 0 if there is none. */
  function SeqLen(s: Data): (n: nat)
    requires s != [] && s[0] == ESC
    ensures n <= |s| && n != 1
  {
    if |s| < 2 then 0
    else if IsIntroducer(s[1]) then
      var k := FirstTerminator(s, 2);
      if k == |s| then 0 else k + TerminatorAt(s, k)
    else if s[1] == BRACKET then
      var k := IntersEnd(s, ParamsEnd(s, 2));
      if k == |s| then 0 else if IsFinal(s[k]) then k + 1 else k
    else 2
  }

  lemma SeqLenComplete(s: Data)
    requires s != [] && s[0] == ESC
    ensures SeqLen(s) > 0 ==> Complete(s[..SeqLen(s)], s[SeqLen(s)..])
    ensures SeqLen(s) == 0 ==> Partial(s)
  {
    var n := SeqLen(s);
    if |s| >= 2 && s[1] == BRACKET {
      var p := ParamsEnd(s, 2);
      var k := IntersEnd(s, p);
      assert CsiShape(s[..k], p);
      if k < |s| && IsFinal(s[k]) {
        assert s[..n][..n - 1] == s[..k];
      } else if k == |s| {
        assert s[..k] == s;
      }
    } else if |s| >= 2 && IsIntroducer(s[1]) {
      var k := FirstTerminator(s, 2);
      if k < |s| {
        var t := s[..n];
        assert TerminatorAt(t, k) == TerminatorAt(s, k);
        assert forall i :: 2 <= i < k ==> TerminatorAt(t, i) <= TerminatorAt(s, i);
        assert StringOpen(t, k);
      }
    }
  }

  lemma CsiLen(s: Data, n: nat)
    requires 0 < n <= |s|
    requires CsiTerminated(s[..n]) || (n < |s| && CsiAborted(s[..n], s[n]))
    ensures s[0] == ESC && SeqLen(s) == n
  {
    var t := s[..n];
    if CsiTerminated(t) {
      var body := t[..n - 1];
      var p :| CsiShape(body, p);
      assert forall i :: 0 <= i < n - 1 ==> body[i] == s[i];
      assert t[n - 1] == s[n - 1];
      ParamsEndAt(s, 2, p);
      IntersEndAt(s, p, n - 1);
    } else {
      var p :| CsiShape(t, p) && (p == |t| ==> !IsParam(s[n]));
      ParamsEndAt(s, 2, p);
      IntersEndAt(s, p, n);
    }
  }

  lemma StringLen(s: Data, n: nat)
    requires 0 < n <= |s| && StringTerminated(s[..n])
    ensures s[0] == ESC && SeqLen(s) == n
  {
    var t := s[..n];
    var k :| 2 <= k < |t| && StringOpen(t, k) && TerminatorAt(t, k) > 0 && k + TerminatorAt(t, k) == |t|;
    assert TerminatorAt(s, k) == TerminatorAt(t, k);
    forall i | 2 <= i < k ensures TerminatorAt(s, i) == 0 {
      assert TerminatorAt(t, i) == 0;
    }
    assert FirstTerminator(s, 2) == k;
  }

  /** Being the complete sequence at the front determines its length: SeqLen is the only candidate. */
  lemma CompleteLen(s: Data, n: nat)
    requires 0 < n <= |s| && Complete(s[..n], s[n..])
    ensures s[0] == ESC && SeqLen(s) == n
  {
    var t := s[..n];
    if CsiTerminated(t) || (n < |s| && CsiAborted(t, s[n])) {
      CsiLen(s, n);
    } else if StringTerminated(t) {
      StringLen(s, n);
    } else {
      assert n < |s| ==> s[n..][0] == s[n];
      assert TwoByte(t);
    }
  }

  lemma PartialLen(s: Data)
    requires Partial(s)
    ensures s != [] && s[0] == ESC && SeqLen(s) == 0
  {
    if HasCsiShape(s) {
      var p :| CsiShape(s, p);
      ParamsEndAt(s, 2, p);
      IntersEndAt(s, p, |s|);
    } else if StringOpen(s, |s|) {
      assert FirstTerminator(s, 2) == |s|;
    }
  }

  // ---------------------------------------------------------- filtering a text

  /** The visible text of data and the partial sequence it ends in. */
  function Strip(data: Data): (r: (Data, Data))
    decreases |data|
  {
    if data == [] then ([], [])
    else if data[0] != ESC then
      var r := Strip(data[1..]);
      ([data[0]] + r.0, r.1)
    else if SeqLen(data) == 0 then ([], data)
    else Strip(data[SeqLen(data)..])
  }

  /** Every segmentation of data is the one Strip follows. */
  lemma {:induction false} StripOfSegmentation(data: Data, tokens: seq<Token>, tail: Data)
    requires Segmented(data, tokens, tail)
    ensures Strip(data) == (Text(tokens), tail)
    decreases |tokens|
  {
    if tokens == [] {
      if tail != [] { PartialLen(tail); }
    } else {
      match tokens[0]
      case Plain(_) => StripOfSegmentation(data[1..], tokens[1..], tail);
      case Sequence(q) =>
        CompleteLen(data, |q|);
        StripOfSegmentation(data[|q|..], tokens[1..], tail);
    }
  }

  lemma {:induction false} SegmentationExists(data: Data) returns (tokens: seq<Token>)
    ensures Segmented(data, tokens, Strip(data).1)
    decreases |data|
  {
    if data == [] {
      tokens := [];
    } else if data[0] != ESC {
      var rest := SegmentationExists(data[1..]);
      tokens := [Plain(data[0])] + rest;
      assert tokens[1..] == rest;
    } else {
      SeqLenComplete(data);
      var n := SeqLen(data);
      if n == 0 {
        tokens := [];
      } else {
        var rest := SegmentationExists(data[n..]);
        tokens := [Sequence(data[..n])] + rest;
        assert tokens[1..] == rest;
      }
    }
  }

  /** Two segmentations of the same data are equal. */
  lemma {:induction false} SegmentationUnique(data: Data, a: seq<Token>, x: Data, b: seq<Token>, y: Data)
    requires Segmented(data, a, x) && Segmented(data, b, y)
    ensures a == b && x == y
    decreases |data|
  {
    StripOfSegmentation(data, a, x);
    StripOfSegmentation(data, b, y);
    if x == data {
      NoTokens(data, a, x);
      NoTokens(data, b, x);
    } else {
      var n := FirstToken(data, a, x);
      var m := FirstToken(data, b, y);
      SegmentationUnique(data[n..], a[1..], x, b[1..], y);
      assert a == [a[0]] + a[1..] && b == [b[0]] + b[1..];
    }
  }

  lemma FirstToken(data: Data, tokens: seq<Token>, tail: Data) returns (n: nat)
    requires Segmented(data, tokens, tail) && tail != data
    ensures 0 < n <= |data| && tokens != [] && Segmented(data[n..], tokens[1..], tail)
    ensures n == if data[0] == ESC then SeqLen(data) else 1
    ensures tokens[0] == if data[0] == ESC then Sequence(data[..n]) else Plain(data[0])
  {
    if tokens[0].Plain? {
      n := 1;
    } else {
      n := |tokens[0].bytes|;
      CompleteLen(data, n);
    }
  }

  lemma NoTokens(data: Data, tokens: seq<Token>, tail: Data)
    requires Segmented(data, tokens, tail) && tail == data
    ensures tokens == []
  {
    SegmentedLength(data, tokens, tail);
  }

  lemma {:induction false} SegmentedLength(data: Data, tokens: seq<Token>, tail: Data)
    requires Segmented(data, tokens, tail)
    ensures |data| >= |tail| + |tokens|
    decreases |tokens|
  {
    if tokens != [] {
      match tokens[0]
      case Plain(_) => SegmentedLength(data[1..], tokens[1..], tail);
      case Sequence(q) => SegmentedLength(data[|q|..], tokens[1..], tail);
    }
  }

  /** The filtered text has no ESC, comes from data in order, and leaves a partial sequence or nothing. */
  lemma {:induction false} StripShape(data: Data)
    ensures ESC !in Strip(data).0
    ensures SubSeq(Strip(data).0, data)
    ensures Strip(data).1 == [] || Partial(Strip(data).1)
    ensures |Strip(data).0| + |Strip(data).1| <= |data|
    decreases |data|
  {
    if data != [] {
      if data[0] != ESC {
        StripShape(data[1..]);
        assert Strip(data).0[1..] == Strip(data[1..]).0;
      } else {
        SeqLenComplete(data);
        var n := SeqLen(data);
        if n > 0 {
          StripShape(data[n..]);
          SubSeqPrepend(Strip(data[n..]).0, data[..n], data[n..]);
          assert data == data[..n] + data[n..];
        }
      }
    }
  }

  /** Filtering a, then the carried remainder together with b, is filtering a + b at once. */
  lemma {:induction false} StripAppend(a: Data, b: Data)
    ensures Strip(a + b).0 == Strip(a).0 + Strip(Strip(a).1 + b).0
    ensures Strip(a + b).1 == Strip(Strip(a).1 + b).1
    decreases |a|
  {
    if a == [] {
      assert a + b == b;
    } else if a[0] != ESC {
      StripAppend(a[1..], b);
      assert (a + b)[1..] == a[1..] + b;
      Regroup([a[0]], Strip(a[1..]).0, Strip(Strip(a).1 + b).0);
    } else {
      SeqLenComplete(a);
      var n := SeqLen(a);
      if n > 0 {
        assert (a + b)[..n] == a[..n] && (a + b)[n..] == a[n..] + b;
        CompleteLen(a + b, n);
        StripAppend(a[n..], b);
      }
    }
  }

  /** A sequence completed by new bytes ends in them: the carried part is never scanned as text again. */
  lemma CompletionReachesPastPartial(rem: Data, chunk: Data)
    requires Partial(rem)
    ensures rem[0] == ESC
    ensures SeqLen(rem + chunk) == 0 || SeqLen(rem + chunk) >= |rem|
  {
    PartialLen(rem);
    var s := rem + chunk;
    SeqLenComplete(s);
    var n := SeqLen(s);
    if 0 < n < |rem| {
      assert s[..n] == rem[..n];
      assert s[n..][0] == rem[n..][0];
      assert Complete(rem[..n], rem[n..]);
      CompleteLen(rem, n);
    }
  }

  // --------------------------------------------------------- the sequences, in bytes

  predicate Within(s: Data, lo: Byte, hi: Byte) { forall i :: 0 <= i < |s| ==> lo <= s[i] <= hi }

  /** What a complete sequence at the front leaves is what follows it. */
  lemma Removed(q: Data, rest: Data)
    requires q != [] && Complete(q, rest)
    ensures Strip(q + rest) == Strip(rest)
  {
    assert (q + rest)[..|q|] == q && (q + rest)[|q|..] == rest;
    CompleteLen(q + rest, |q|);
  }

  lemma CsiBytes(params: Data, inters: Data)
    requires Within(params, 0x30, 0x3f) && Within(inters, 0x20, 0x2f)
    ensures CsiShape(([0x1b, 0x5b] + params) + inters, 2 + |params|)
  {
  }

  /** "ESC [", parameters, intermediates and a final byte: removed. */
  lemma CsiRemoved(params: Data, inters: Data, final: Byte, rest: Data)
    requires Within(params, 0x30, 0x3f) && Within(inters, 0x20, 0x2f) && 0x40 <= final <= 0x7e
    ensures Strip(((([0x1b, 0x5b] + params) + inters) + [final]) + rest) == Strip(rest)
  {
    var body := ([0x1b, 0x5b] + params) + inters;
    CsiBytes(params, inters);
    assert (body + [final])[..|body|] == body;
    assert CsiTerminated(body + [final]);
    Removed(body + [final], rest);
  }

  /** Without the final byte it is carried. */
  lemma CsiCarried(params: Data, inters: Data)
    requires Within(params, 0x30, 0x3f) && Within(inters, 0x20, 0x2f)
    ensures var s := ([0x1b, 0x5b] + params) + inters; Strip(s) == ([], s)
  {
    CsiBytes(params, inters);
    PartialLen(([0x1b, 0x5b] + params) + inters);
  }

  /** A byte that fits nowhere aborts it: what came before is removed, and the byte is read anew. */
  lemma CsiBroken(params: Data, inters: Data, next: Byte, rest: Data)
    requires Within(params, 0x30, 0x3f) && Within(inters, 0x20, 0x2f)
    requires next < 0x20 || next > 0x7e || (0x30 <= next <= 0x3f && inters != [])
    ensures Strip((([0x1b, 0x5b] + params) + inters) + ([next] + rest)) == Strip([next] + rest)
  {
    var body := ([0x1b, 0x5b] + params) + inters;
    CsiBytes(params, inters);
    assert CsiAborted(body, next);
    Removed(body, [next] + rest);
  }

  /** DCS, OSC, SOS, PM and APC. */
  predicate OpensString(kind: Byte) { kind in {0x50 as Byte, 0x5d, 0x58, 0x5e, 0x5f} }

  /** Nothing in the body ends the string or may begin to: no ESC, no ST, and in an OSC no BEL. */
  predicate StringBody(kind: Byte, body: Data)
  {
    forall i :: 0 <= i < |body| ==> body[i] != 0x1b && body[i] != 0x9c && (kind == 0x5d ==> body[i] != 0x07)
  }

  predicate EndsString(kind: Byte, end: Data)
  {
    end == [0x9c] || end == [0x1b, 0x5c] || (kind == 0x5d && end == [0x07])
  }

  /** A control string is removed up to ST, "ESC \", or for an OSC BEL. */
  lemma StringRemoved(kind: Byte, body: Data, end: Data, rest: Data)
    requires OpensString(kind) && StringBody(kind, body) && EndsString(kind, end)
    ensures Strip((([0x1b, kind] + body) + end) + rest) == Strip(rest)
  {
    var s := ([0x1b, kind] + body) + end;
    var k := 2 + |body|;
    assert forall i :: 2 <= i < k ==> s[i] == body[i - 2];
    assert StringOpen(s, k) && TerminatorAt(s, k) == |end|;
    Removed(s, rest);
  }

  /** Without its end it is carried, however long, a BEL in it included if it is no OSC. */
  lemma StringCarried(kind: Byte, body: Data)
    requires OpensString(kind) && StringBody(kind, body)
    ensures var s := [0x1b, kind] + body; Strip(s) == ([], s)
  {
    var s := [0x1b, kind] + body;
    assert forall i :: 2 <= i < |s| ==> s[i] == body[i - 2];
    assert StringOpen(s, |s|);
    PartialLen(s);
  }

  /** ESC and any other byte: the two are removed and nothing more, so "ESC ( B" leaves a B. */
  lemma TwoRemoved(b: Byte, rest: Data)
    requires !OpensString(b) && b != 0x5b
    ensures Strip([0x1b, b] + rest) == Strip(rest)
  {
    assert TwoByte([0x1b, b]);
    Removed([0x1b, b], rest);
  }

  /** A byte that is no ESC passes. */
  lemma PlainPasses(b: Byte, rest: Data)
    requires b != 0x1b
    ensures Strip([b] + rest) == ([b] + Strip(rest).0, Strip(rest).1)
  {
    assert ([b] + rest)[1..] == rest;
  }

  // ------------------------------------------------------- filtering in chunks

  /** One call of the filter: the text it lets through and the remainder it then carries. */
  function Clean(filter: bool, rem: Data, chunk: Data): (r: (Data, Data))
  {
    if !filter then (chunk, rem)
    else
      var (out, left) := Strip(rem + chunk);
      (out, if |left| > MAX_REMAINDER then [] else left)
  }

  /** What a filter can be carrying between calls. */
  ghost predicate Carried(rem: Data)
  {
    (rem == [] || Partial(rem)) && |rem| <= MAX_REMAINDER
  }

  /** Carried bytes never resurface: the text let through is part of the new chunk alone. */
  lemma CleanFromChunkAlone(filter: bool, rem: Data, chunk: Data)
    requires Carried(rem)
    ensures SubSeq(Clean(filter, rem, chunk).0, chunk)
    ensures |Clean(filter, rem, chunk).0| <= |chunk|
    ensures Carried(Clean(filter, rem, chunk).1)
    ensures filter ==> ESC !in Clean(filter, rem, chunk).0
  {
    if !filter {
      SubSeqReflexive(chunk);
    } else {
      StripShape(rem + chunk);
      if rem == [] {
        assert rem + chunk == chunk;
      } else {
        CompletionReachesPastPartial(rem, chunk);
        var n := SeqLen(rem + chunk);
        if n > 0 {
          var k := n - |rem|;
          assert (rem + chunk)[n..] == chunk[k..];
          StripShape(chunk[k..]);
          SubSeqPrepend(Strip(chunk[k..]).0, chunk[..k], chunk[k..]);
          assert chunk == chunk[..k] + chunk[k..];
        }
      }
      SubSeqLength(Clean(filter, rem, chunk).0, chunk);
    }
  }

  /** The filter applied to a sequence of chunks, starting from a carried remainder. */
  function CleanAll(filter: bool, rem: Data, chunks: seq<Data>): (r: (Data, Data))
  {
    if chunks == [] then ([], rem)
    else
      var (out, left) := CleanAll(filter, rem, chunks[..|chunks| - 1]);
      var (more, left') := Clean(filter, left, chunks[|chunks| - 1]);
      (out + more, left')
  }

  /** At no chunk boundary does the unfinished sequence exceed what the filter is willing to carry. */
  predicate NeverOverflows(chunks: seq<Data>)
  {
    forall k :: 0 <= k <= |chunks| ==> |Strip(Flatten(chunks[..k])).1| <= MAX_REMAINDER
  }

  /** Filtering chunk by chunk is filtering the whole stream at once, however it was cut. */
  lemma {:induction false} ChunkingInvisible(chunks: seq<Data>)
    requires NeverOverflows(chunks)
    ensures CleanAll(true, [], chunks) == Strip(Flatten(chunks))
  {
    if chunks != [] {
      var front, last := chunks[..|chunks| - 1], chunks[|chunks| - 1];
      assert forall k :: 0 <= k <= |front| ==> chunks[..k] == front[..k];
      ChunkingInvisible(front);
      StripAppend(Flatten(front), last);
      assert chunks[..|chunks|] == chunks;
    }
  }

  /** Exactly: every prefix of the stream is filtered as if it had come in one piece iff no boundary overflows. */
  lemma ChunkingInvisibleIff(chunks: seq<Data>)
    ensures (forall k :: 0 <= k <= |chunks| ==> CleanAll(true, [], chunks[..k]) == Strip(Flatten(chunks[..k])))
       <==> NeverOverflows(chunks)
  {
    if NeverOverflows(chunks) {
      forall k | 0 <= k <= |chunks| ensures CleanAll(true, [], chunks[..k]) == Strip(Flatten(chunks[..k])) {
        assert forall j :: 0 <= j <= k ==> chunks[..k][..j] == chunks[..j];
        ChunkingInvisible(chunks[..k]);
      }
    }
  }

  /** The same as a statement about the grammar: the chunked output is the text of the one segmentation. */
  lemma ChunkedOutputIsSegmentedText(chunks: seq<Data>, tokens: seq<Token>, tail: Data)
    requires NeverOverflows(chunks)
    requires Segmented(Flatten(chunks), tokens, tail)
    ensures CleanAll(true, [], chunks) == (Text(tokens), tail)
    ensures ESC !in Text(tokens)
  {
    ChunkingInvisible(chunks);
    StripOfSegmentation(Flatten(chunks), tokens, tail);
    StripShape(Flatten(chunks));
  }

  lemma {:induction false} CleanAllConcat(filter: bool, rem: Data, a: seq<Data>, b: seq<Data>)
    ensures CleanAll(filter, rem, a + b).0
         == CleanAll(filter, rem, a).0 + CleanAll(filter, CleanAll(filter, rem, a).1, b).0
    ensures CleanAll(filter, rem, a + b).1 == CleanAll(filter, CleanAll(filter, rem, a).1, b).1
  {
    if b == [] {
      assert a + b == a;
    } else {
      var front := b[..|b| - 1];
      CleanAllConcat(filter, rem, a, front);
      assert (a + b)[..|a + b| - 1] == a + front;
      assert (a + b)[|a + b| - 1] == b[|b| - 1];
    }
  }

  // ------------------------------------------------------------ the scanning loops

  /** The last byte of the control sequence at escIdx, -1 if it is not finished within data. */
  method CsiEnd(data: Data, escIdx: nat) returns (end: int)
    requires escIdx + 1 < |data| && data[escIdx] == ESC && data[escIdx + 1] == BRACKET
    ensures -1 <= end < |data|
    ensures end < 0 ==> Partial(data[escIdx..])
    ensures end >= 0 ==> end > escIdx && Complete(data[escIdx..end + 1], data[end + 1..])
  {
    var pos := escIdx + 2;
    while pos < |data| && IsParam(data[pos])
      invariant escIdx + 2 <= pos <= |data|
      invariant forall k :: escIdx + 2 <= k < pos ==> IsParam(data[k])
    {
      pos := pos + 1;
    }
    ghost var p := pos - escIdx;
    while pos < |data| && IsInter(data[pos])
      invariant escIdx + p <= pos <= |data|
      invariant forall k :: escIdx + p <= k < pos ==> IsInter(data[k])
      invariant pos == escIdx + p ==> pos == |data| || !IsParam(data[pos])
    {
      pos := pos + 1;
    }
    CsiEndsAt(data, escIdx, escIdx + p, pos);
    if pos >= |data| {
      return -1;
    }
    if !IsFinal(data[pos]) {
      return pos - 1;
    }
    return pos;
  }

  lemma CsiEndsAt(data: Data, escIdx: nat, p: nat, pos: nat)
    requires escIdx + 2 <= p <= pos <= |data| && data[escIdx] == ESC && data[escIdx + 1] == BRACKET
    requires forall k :: escIdx + 2 <= k < p ==> IsParam(data[k])
    requires forall k :: p <= k < pos ==> IsInter(data[k])
    requires pos < |data| ==> !IsInter(data[pos]) && (pos == p ==> !IsParam(data[pos]))
    ensures pos == |data| ==> Partial(data[escIdx..])
    ensures pos < |data| && IsFinal(data[pos]) ==> Complete(data[escIdx..pos + 1], data[pos + 1..])
    ensures pos < |data| && !IsFinal(data[pos]) ==> Complete(data[escIdx..pos], data[pos..])
  {
    var body := data[escIdx..pos];
    assert forall k :: 0 <= k < |body| ==> body[k] == data[escIdx + k];
    assert CsiShape(body, p - escIdx);
    if pos == |data| {
      assert body == data[escIdx..];
    } else if IsFinal(data[pos]) {
      var whole := data[escIdx..pos + 1];
      assert whole[..|whole| - 1] == body;
      assert CsiTerminated(whole);
    } else {
      assert CsiAborted(body, data[pos]);
      assert data[pos..][0] == data[pos];
    }
  }

  /** The last byte of the control string at escIdx, -1 if it is not finished within data. */
  method StringSeqEnd(data: Data, escIdx: nat) returns (end: int)
    requires escIdx + 1 < |data| && data[escIdx] == ESC && IsIntroducer(data[escIdx + 1])
    ensures -1 <= end < |data|
    ensures end < 0 ==> Partial(data[escIdx..])
    ensures end >= 0 ==> end > escIdx && Complete(data[escIdx..end + 1], data[end + 1..])
  {
    var osc := data[escIdx + 1] == OSC;
    ghost var s := data[escIdx..];
    var pos := escIdx + 2;
    while pos < |data|
      invariant escIdx + 2 <= pos <= |data|
      invariant StringOpen(s, pos - escIdx)
    {
      if data[pos] == ST || (osc && data[pos] == BEL) {
        StringEndsAt(data, escIdx, pos);
        return pos;
      }
      if data[pos] == ESC {
        if pos + 1 >= |data| {
          return -1;
        }
        if data[pos + 1] == BACKSLASH {
          StringEndsAt(data, escIdx, pos);
          return pos + 1;
        }
      }
      pos := pos + 1;
    }
    return -1;
  }

  lemma StringEndsAt(data: Data, escIdx: nat, pos: nat)
    requires escIdx + 2 <= pos < |data|
    requires StringOpen(data[escIdx..], pos - escIdx) && TerminatorAt(data[escIdx..], pos - escIdx) > 0
    ensures var n := TerminatorAt(data[escIdx..], pos - escIdx);
      pos + n <= |data| && Complete(data[escIdx..pos + n], data[pos + n..])
  {
    var s := data[escIdx..];
    var k := pos - escIdx;
    var n := TerminatorAt(s, k);
    assert FirstTerminator(s, 2) == k;
    SeqLenComplete(s);
    assert s[..k + n] == data[escIdx..pos + n] && s[k + n..] == data[pos + n..];
  }

  /** The last byte of the escape sequence at escIdx, -1 if it is not finished within data. */
  method SeqEnd(data: Data, escIdx: nat) returns (end: int)
    requires escIdx < |data| && data[escIdx] == ESC
    ensures -1 <= end < |data|
    ensures end < 0 ==> Partial(data[escIdx..])
    ensures end >= 0 ==> end > escIdx && Complete(data[escIdx..end + 1], data[end + 1..])
  {
    if escIdx + 1 >= |data| {
      assert data[escIdx..] == [ESC];
      return -1;
    }
    if IsIntroducer(data[escIdx + 1]) {
      end := StringSeqEnd(data, escIdx);
    } else if data[escIdx + 1] == BRACKET {
      end := CsiEnd(data, escIdx);
    } else {
      assert TwoByte(data[escIdx..escIdx + 2]);
      end := escIdx + 1;
    }
  }

  /** result is what filtering data yields before position idx. */
  ghost predicate Stripping(data: Data, idx: nat, result: Data)
    requires idx <= |data|
  {
    Strip(data).0 == result + Strip(data[idx..]).0 && Strip(data).1 == Strip(data[idx..]).1
  }

  lemma StripStarts(data: Data)
    ensures Stripping(data, 0, [])
  {
    assert data[0..] == data && [] + Strip(data).0 == Strip(data).0;
  }

  lemma StripOneByte(data: Data, idx: nat, result: Data)
    requires idx < |data| && data[idx] != ESC && Stripping(data, idx, result)
    ensures Stripping(data, idx + 1, result + [data[idx]])
  {
    assert data[idx..][1..] == data[idx + 1..];
    Regroup(result, [data[idx]], Strip(data[idx + 1..]).0);
  }

  lemma StripOneSequence(data: Data, idx: nat, next: nat, result: Data)
    requires idx < next <= |data| && Complete(data[idx..next], data[next..]) && Stripping(data, idx, result)
    ensures Stripping(data, next, result)
  {
    var rest, n := data[idx..], next - idx;
    assert rest[..n] == data[idx..next];
    assert rest[n..] == data[next..];
    CompleteLen(rest, n);
  }

  lemma StripEnds(data: Data, idx: nat, result: Data)
    requires idx <= |data| && Stripping(data, idx, result) && (idx == |data| || Partial(data[idx..]))
    ensures Strip(data) == (result, data[idx..])
  {
    if idx < |data| { PartialLen(data[idx..]); }
    assert result + [] == result;
  }

  /** Removes the escape sequences of data, left to right, and hands back an unfinished one. */
  method StripEscapes(data: Data) returns (result: Data, remainder: Data)
    ensures result == Strip(data).0 && remainder == Strip(data).1
  {
    result, remainder := [], [];
    var idx := 0;
    StripStarts(data);
    while idx < |data|
      invariant 0 <= idx <= |data| && remainder == []
      invariant Stripping(data, idx, result)
    {
      if data[idx] != ESC {
        StripOneByte(data, idx, result);
        result := result + [data[idx]];
        idx := idx + 1;
      } else {
        var end := SeqEnd(data, idx);
        if end < 0 {
          StripEnds(data, idx, result);
          remainder := data[idx..];
          return;
        }
        StripOneSequence(data, idx, end + 1, result);
        idx := end + 1;
      }
    }
    StripEnds(data, idx, result);
  }
}

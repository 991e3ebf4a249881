/**
 Reading bytes from a channel of byte slices (internal/chanio/chanio.go).

 A source is the history of what the reader's selects find: messages, and
 Finished where the source channel or the done channel is found closed. A
 source that runs out means the reader is still blocked.
 */
module ChanReader {
  import opened Base

  datatype Event = Message(data: Data) | Finished

  datatype End = Ok | Eof | Blocked

  /** What the reader holds back, and what its channel will still deliver. */
  datatype Reader = Reader(buf: Data, source: seq<Event>)

  function Min(a: nat, b: nat): (m: nat) { if a <= b then a else b }

  /** Waiting on the channel with head already placed in the caller's slice; empty messages are skipped. */
  function Receive(want: nat, head: Data, source: seq<Event>): (r: (Data, Reader, End))
    requires |head| < want
  {
    if source == [] then (head, Reader([], []), Blocked)
    else match source[0]
      case Finished => (head, Reader([], source[1..]), Eof)
      case Message(m) =>
        var n := Min(want - |head|, |m|);
        if |head| + n == 0 then Receive(want, head, source[1..])
        else (head + m[..n], Reader(m[n..], source[1..]), Ok)
  }

  /** One Read of up to want bytes. */
  function Read(want: nat, r: Reader): (res: (Data, Reader, End))
  {
    if |r.buf| >= want then (r.buf[..want], Reader(r.buf[want..], r.source), Ok)
    else Receive(want, r.buf, r.source)
  }

  function Messages(source: seq<Event>): (r: Data)
  {
    if source == [] then []
    else (match source[0] case Message(m) => m case Finished => []) + Messages(source[1..])
  }

  lemma {:induction false} MessagesConcat(a: seq<Event>, b: seq<Event>)
    ensures Messages(a + b) == Messages(a) + Messages(b)
  {
    if a == [] {
      assert a + b == b;
    } else {
      MessagesConcat(a[1..], b);
      assert (a + b)[0] == a[0] && (a + b)[1..] == a[1..] + b;
      Regroup(match a[0] case Message(m) => m case Finished => [], Messages(a[1..]), Messages(b));
    }
  }

  /** out was taken from r, leaving r': nothing lost, nothing invented, order kept. */
  ghost predicate Took(r: Reader, out: Data, r': Reader)
  {
    && |r'.source| <= |r.source|
    && r'.source == r.source[|r.source| - |r'.source|..]
    && out + r'.buf == r.buf + Messages(r.source[..|r.source| - |r'.source|])
  }

  lemma TookTransitive(a: Reader, x: Data, b: Reader, y: Data, c: Reader)
    requires Took(a, x, b) && Took(b, y, c)
    ensures Took(a, x + y, c)
  {
    var i, j := |a.source| - |b.source|, |b.source| - |c.source|;
    var p, q := a.source[..i], b.source[..j];
    assert a.source[..i + j] == p + q;
    assert c.source == a.source[i + j..];
    MessagesConcat(p, q);
    calc {
      (x + y) + c.buf;
      { Regroup(x, y, c.buf); }
      x + (b.buf + Messages(q));
      { Regroup(x, b.buf, Messages(q)); }
      (a.buf + Messages(p)) + Messages(q);
      { Regroup(a.buf, Messages(p), Messages(q)); }
      a.buf + Messages(p + q);
    }
  }

  lemma {:induction false} ReceiveConserves(want: nat, head: Data, source: seq<Event>)
    requires |head| < want
    ensures var (out, r', end) := Receive(want, head, source);
      && Took(Reader(head, source), out, r')
      && |out| <= want
      && (end == Ok ==> out != [])
      && (end != Ok ==> r'.buf == [])
  {
    if source != [] {
      var one := source[..1];
      assert one[1..] == [] && one == [source[0]];
      match source[0] {
        case Finished =>
          assert Messages(one) == [] + Messages([]);
          assert head + [] == head;
        case Message(m) =>
          assert Messages(one) == m + Messages([]) == m;
          var n := Min(want - |head|, |m|);
          if |head| + n == 0 {
            assert m == [];
            ReceiveConserves(want, head, source[1..]);
            var (out, r', end) := Receive(want, head, source);
            assert Took(Reader(head, source), [], Reader(head, source[1..]));
            TookTransitive(Reader(head, source), [], Reader(head, source[1..]), out, r');
            assert [] + out == out;
          } else {
            Regroup(head, m[..n], m[n..]);
            assert m[..n] + m[n..] == m;
          }
      }
    } else {
      assert head + [] == head && source[..0] == [];
    }
  }

  /** Each Read: bytes conserved in order, never (0, nil) for a non-empty request, nothing held back at the end. */
  lemma ReadConserves(want: nat, r: Reader)
    ensures var (out, r', end) := Read(want, r);
      && Took(r, out, r')
      && |out| <= want
      && (end == Ok && want > 0 ==> out != [])
      && (end != Ok ==> r'.buf == [])
  {
    if |r.buf| >= want {
      assert r.source[..0] == [];
      assert r.buf[..want] + r.buf[want..] == r.buf + [];
    } else {
      ReceiveConserves(want, r.buf, r.source);
    }
  }

  /** The consumed part of the source has the channel closed, or the reader torn down, at its end and nowhere else. */
  predicate FinishesLast(took: seq<Event>)
  {
    took != [] && took[|took| - 1].Finished? && NoneFinished(took[..|took| - 1])
  }

  predicate NoneFinished(events: seq<Event>) { forall i :: 0 <= i < |events| ==> events[i].Message? }

  /** Why a Read that left r' ended as it did. */
  ghost predicate ReadWhy(want: nat, r: Reader, out: Data, r': Reader, end: End)
  {
    && |r'.source| <= |r.source|
    && var took := r.source[..|r.source| - |r'.source|];
       && (end == Ok ==> NoneFinished(took) && (|out| == want || r'.buf == []))
       && (end == Eof ==> FinishesLast(took))
       && (end == Blocked ==> NoneFinished(took) && r'.source == [])
       && (|r.buf| >= want ==> end == Ok && r'.source == r.source)
  }

  lemma {:induction false} ReceiveEnds(want: nat, head: Data, source: seq<Event>)
    requires |head| < want
    ensures var (out, r', end) := Receive(want, head, source); ReadWhy(want, Reader(head, source), out, r', end)
  {
    if source != [] && source[0].Message? && |head| + Min(want - |head|, |source[0].data|) == 0 {
      ReceiveEnds(want, head, source[1..]);
      var (out, r', end) := Receive(want, head, source[1..]);
      ReceiveSkips(want, head, source, out, r', end);
    }
  }

  lemma ReceiveSkips(want: nat, head: Data, source: seq<Event>, out: Data, r': Reader, end: End)
    requires source != [] && source[0].Message? && |head| < want
    requires ReadWhy(want, Reader(head, source[1..]), out, r', end)
    ensures ReadWhy(want, Reader(head, source), out, r', end)
  {
    var rest := source[1..][..|source| - 1 - |r'.source|];
    var took := source[..|source| - |r'.source|];
    assert took == [source[0]] + rest;
    if rest != [] { assert took[..|took| - 1] == [source[0]] + rest[..|rest| - 1]; }
  }

  /**
   A Read ends at EOF exactly when it comes to the close, blocks only when there
   is nothing more, is short only if it leaves nothing buffered, and does not wait
   for the channel at all if the buffer has enough.
   */
  lemma ReadEnds(want: nat, r: Reader)
    ensures var (out, r', end) := Read(want, r); ReadWhy(want, r, out, r', end)
  {
    if |r.buf| < want { ReceiveEnds(want, r.buf, r.source); }
  }

  /** Reads of the given sizes, one after another, up to the first that does not deliver. */
  function ReadMany(sizes: seq<nat>, r: Reader): (res: (Data, Reader, End))
  {
    if sizes == [] then ([], r, Ok)
    else
      var (out, r1, end) := Read(sizes[0], r);
      if end != Ok then (out, r1, end)
      else
        var rest := ReadMany(sizes[1..], r1);
        (out + rest.0, rest.1, rest.2)
  }

  /**
   Over any sequence of reads, what was returned and what is still buffered is the old buffer and
   the messages consumed.
   */
  lemma {:induction false} ReadManyConserves(sizes: seq<nat>, r: Reader)
    ensures Took(r, ReadMany(sizes, r).0, ReadMany(sizes, r).1)
    ensures ReadMany(sizes, r).2 != Ok ==> ReadMany(sizes, r).1.buf == []
  {
    if sizes == [] {
      assert r.source[..0] == [] && [] + r.buf == r.buf + [];
    } else {
      ReadConserves(sizes[0], r);
      var (out, r1, end) := Read(sizes[0], r);
      if end == Ok {
        ReadManyConserves(sizes[1..], r1);
        var rest := ReadMany(sizes[1..], r1);
        TookTransitive(r, out, r1, rest.0, rest.1);
      }
    }
  }

  /** A channel that carries the given messages and is then closed. */
  function Closed(messages: seq<Data>): (r: seq<Event>)
  {
    if messages == [] then [Finished] else [Message(messages[0])] + Closed(messages[1..])
  }

  lemma {:induction false} ClosedMessages(messages: seq<Data>)
    ensures Messages(Closed(messages)) == Flatten(messages)
  {
    if messages != [] {
      ClosedMessages(messages[1..]);
      FlattenCons(messages[0], messages[1..]);
      assert messages == [messages[0]] + messages[1..];
      assert Closed(messages)[1..] == Closed(messages[1..]);
    } else {
      assert Messages([Finished]) == [] + Messages([]);
    }
  }

  /** Reading from a closed channel never blocks: it delivers, leaving a closed channel, or consumes the end. */
  lemma {:induction false} ReceiveFromClosed(want: nat, head: Data, messages: seq<Data>) returns (left: seq<Data>)
    requires |head| < want
    ensures var (_, r', end) := Receive(want, head, Closed(messages));
      end != Blocked && r'.source == if end == Ok then Closed(left) else []
  {
    left := messages;
    if messages != [] {
      assert Closed(messages)[1..] == Closed(messages[1..]);
      left := messages[1..];
      if |head| + Min(want - |head|, |messages[0]|) == 0 {
        left := ReceiveFromClosed(want, head, messages[1..]);
      }
    }
  }

  lemma {:induction false} ReadManyFromClosed(sizes: seq<nat>, buf: Data, messages: seq<Data>)
    ensures var (_, r', end) := ReadMany(sizes, Reader(buf, Closed(messages)));
      end != Blocked && (end == Eof ==> r'.source == [])
  {
    if sizes != [] {
      var left := messages;
      if |buf| < sizes[0] { left := ReceiveFromClosed(sizes[0], buf, messages); }
      var (_, r1, end) := Read(sizes[0], Reader(buf, Closed(messages)));
      if end == Ok { ReadManyFromClosed(sizes[1..], r1.buf, left); }
    }
  }

  /** Every reader of a closed channel that reads until the end gets the whole stream, whatever its read sizes. */
  lemma ReadToEofIsWholeStream(sizes: seq<nat>, buf: Data, messages: seq<Data>)
    requires ReadMany(sizes, Reader(buf, Closed(messages))).2 == Eof
    ensures ReadMany(sizes, Reader(buf, Closed(messages))).0 == buf + Flatten(messages)
  {
    var r := Reader(buf, Closed(messages));
    var (out, r', end) := ReadMany(sizes, r);
    ReadManyConserves(sizes, r);
    ReadManyFromClosed(sizes, buf, messages);
    ClosedMessages(messages);
    assert r.source[..|r.source|] == r.source;
    assert out + [] == out;
  }

  predicate Positive(sizes: seq<nat>) { forall i :: 0 <= i < |sizes| ==> sizes[i] > 0 }

  /** And that end comes: more non-empty reads than there are bytes cannot all deliver, nor any of them block. */
  lemma ReadToEofEnds(sizes: seq<nat>, buf: Data, messages: seq<Data>)
    requires Positive(sizes) && |sizes| > |buf| + |Flatten(messages)|
    ensures ReadMany(sizes, Reader(buf, Closed(messages))).2 == Eof
  {
    var r := Reader(buf, Closed(messages));
    ReadManyFromClosed(sizes, buf, messages);
    ReadManyConserves(sizes, r);
    ClosedMessages(messages);
    if ReadMany(sizes, r).2 == Ok {
      DeliveredAtLeast(sizes, r);
      MessagesOfPrefix(r.source, |r.source| - |ReadMany(sizes, r).1.source|);
    }
  }

  lemma MessagesOfPrefix(source: seq<Event>, k: nat)
    requires k <= |source|
    ensures |Messages(source[..k])| <= |Messages(source)|
  {
    MessagesConcat(source[..k], source[k..]);
    assert source == source[..k] + source[k..];
  }

  lemma {:induction false} DeliveredAtLeast(sizes: seq<nat>, r: Reader)
    requires Positive(sizes) && ReadMany(sizes, r).2 == Ok
    ensures |ReadMany(sizes, r).0| >= |sizes|
  {
    if sizes != [] {
      ReadConserves(sizes[0], r);
      DeliveredAtLeast(sizes[1..], Read(sizes[0], r).1);
    }
  }

  // ------------------------------------------------------------- the reader object

  class ChannelReader {
    var buf: Data
    var source: seq<Event>

    function View(): (r: Reader)
      reads this
    {
      Reader(buf, source)
    }

    constructor (source: seq<Event>)
      ensures View() == Reader([], source)
    {
      buf := [];
      this.source := source;
    }

    /** Fills the front of bytes and says how much of it counts. */
    method ReadInto(bytes: array<Byte>) returns (n: nat, end: End)
      modifies this, bytes
      ensures n <= bytes.Length
      ensures (bytes[..n], View(), end) == Read(bytes.Length, old(View()))
      ensures bytes[n..] == old(bytes[n..])
      ensures end == Ok && bytes.Length > 0 ==> n > 0
    {
      ReadConserves(bytes.Length, View());
      if |buf| >= bytes.Length {
        n := CopyInto(bytes, 0, buf);
        buf := buf[n..];
        return n, Ok;
      }
      var nBuf := 0;
      if |buf| > 0 {
        nBuf := CopyInto(bytes, 0, buf);
        buf := buf[nBuf..];
      }
      ghost var filled := bytes[..];
      assert filled[..nBuf] == old(buf) && filled[nBuf..] == old(bytes[nBuf..]);
      n, end := FillFromChannel(bytes, nBuf);
      assert bytes[n..] == filled[nBuf..][n - nBuf..] == old(bytes[nBuf..])[n - nBuf..];
    }

    /** The waiting part of Read: the first nBuf bytes are already in place. */
    method FillFromChannel(bytes: array<Byte>, nBuf: nat) returns (n: nat, end: End)
      requires nBuf < bytes.Length && buf == []
      modifies this, bytes
      ensures nBuf <= n <= bytes.Length
      ensures (bytes[..n], View(), end) == Receive(bytes.Length, old(bytes[..nBuf]), old(source))
      ensures bytes[n..] == old(bytes[n..])
    {
      while true
        invariant buf == [] && bytes[..] == old(bytes[..])
        invariant Receive(bytes.Length, bytes[..nBuf], source) == Receive(bytes.Length, old(bytes[..nBuf]), old(source))
        decreases |source|
      {
        if source == [] {
          return nBuf, Blocked;
        }
        var event := source[0];
        source := source[1..];
        if event.Finished? {
          return nBuf, Eof;
        }
        var nChan := CopyInto(bytes, nBuf, event.data);
        if nChan < |event.data| {
          buf := buf + event.data[nChan..];
        }
        if nBuf + nChan == 0 {
          assert bytes[..] == bytes[nBuf + nChan..];
          continue;
        }
        assert bytes[..nBuf + nChan] == bytes[..nBuf] + bytes[nBuf..nBuf + nChan];
        assert buf == event.data[nChan..];
        return nBuf + nChan, Ok;
      }
    }
  }

  /** copy(bytes[at..], data): as many bytes as fit. */
  method CopyInto(bytes: array<Byte>, at: nat, data: Data) returns (n: nat)
    requires at <= bytes.Length
    modifies bytes
    ensures n == Min(bytes.Length - at, |data|)
    ensures bytes[..at] == old(bytes[..at])
    ensures bytes[at..at + n] == data[..n]
    ensures bytes[at + n..] == old(bytes[at + n..])
  {
    n := Min(bytes.Length - at, |data|);
    forall i | 0 <= i < n {
      bytes[at + i] := data[i];
    }
    assert forall i :: 0 <= i < n ==> bytes[at..at + n][i] == bytes[at + i] == data[i];
  }
}

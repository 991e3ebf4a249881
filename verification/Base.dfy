/** Values shared by every component: bytes, options, and sequences of sequences. */
module Base {

  newtype Byte = x: int | 0 <= x < 256

  type Data = seq<Byte>

  datatype Option<+T> = None | Some(value: T)

  /** The concatenation of all parts, in order. */
  function Flatten<T>(parts: seq<seq<T>>): (r: seq<T>)
  {
    if parts == [] then [] else Flatten(parts[..|parts| - 1]) + parts[|parts| - 1]
  }

  lemma Regroup<T>(a: seq<T>, b: seq<T>, c: seq<T>)
    ensures (a + b) + c == a + (b + c)
  {
  }

  lemma {:induction false} FlattenConcat<T>(a: seq<seq<T>>, b: seq<seq<T>>)
    ensures Flatten(a + b) == Flatten(a) + Flatten(b)
  {
    if b == [] {
      assert a + b == a;
    } else {
      var front, last := b[..|b| - 1], b[|b| - 1];
      assert (a + b)[..|a + b| - 1] == a + front;
      FlattenConcat(a, front);
      Regroup(Flatten(a), Flatten(front), last);
    }
  }

  lemma FlattenCons<T>(x: seq<T>, rest: seq<seq<T>>)
    ensures Flatten([x] + rest) == x + Flatten(rest)
  {
    FlattenConcat([x], rest);
    assert [x][..0] == [];
    assert Flatten([x]) == [] + x;
  }

  /** `a` can be obtained from `b` by deleting elements. */
  predicate SubSeq<T(==)>(a: seq<T>, b: seq<T>)
  {
    a == [] || (b != [] && (if a[0] == b[0] then SubSeq(a[1..], b[1..]) else SubSeq(a, b[1..])))
  }

  lemma {:induction false} SubSeqLength<T>(a: seq<T>, b: seq<T>)
    requires SubSeq(a, b)
    ensures |a| <= |b|
    decreases |b|
  {
    if a != [] {
      if a[0] == b[0] { SubSeqLength(a[1..], b[1..]); } else { SubSeqLength(a, b[1..]); }
    }
  }

  /** Matching greedily loses nothing: a shorter pattern still fits. */
  lemma {:induction false} SubSeqTail<T>(a: seq<T>, b: seq<T>)
    requires a != [] && SubSeq(a, b)
    ensures SubSeq(a[1..], b)
    decreases |b|, 0
  {
    if a[0] == b[0] {
      SubSeqDrop(a[1..], b[1..], b[0]);
      assert b == [b[0]] + b[1..];
    } else {
      SubSeqTail(a, b[1..]);
      SubSeqDrop(a[1..], b[1..], b[0]);
      assert b == [b[0]] + b[1..];
    }
  }

  /** A longer text still contains the subsequence. */
  lemma {:induction false} SubSeqDrop<T>(a: seq<T>, b: seq<T>, x: T)
    requires SubSeq(a, b)
    ensures SubSeq(a, [x] + b)
    decreases |b|, 1
  {
    var xb := [x] + b;
    assert xb[1..] == b;
    if a != [] && a[0] == x {
      SubSeqTail(a, b);
    }
  }

  lemma {:induction false} SubSeqPrepend<T>(a: seq<T>, p: seq<T>, b: seq<T>)
    requires SubSeq(a, b)
    ensures SubSeq(a, p + b)
  {
    if p == [] {
      assert p + b == b;
    } else {
      SubSeqPrepend(a, p[1..], b);
      SubSeqDrop(a, p[1..] + b, p[0]);
      assert p + b == [p[0]] + (p[1..] + b);
    }
  }

  lemma {:induction false} SubSeqAppend<T>(a: seq<T>, b: seq<T>, c: seq<T>, d: seq<T>)
    requires SubSeq(a, b) && SubSeq(c, d)
    ensures SubSeq(a + c, b + d)
    decreases |b|
  {
    if a == [] {
      assert a + c == c;
      SubSeqPrepend(c, b, d);
    } else {
      assert (b + d)[1..] == b[1..] + d;
      if a[0] == b[0] {
        SubSeqAppend(a[1..], b[1..], c, d);
        assert (a + c)[1..] == a[1..] + c;
      } else {
        SubSeqAppend(a, b[1..], c, d);
      }
    }
  }

  lemma {:induction false} SubSeqReflexive<T>(a: seq<T>)
    ensures SubSeq(a, a)
  {
    if a != [] { SubSeqReflexive(a[1..]); }
  }
}

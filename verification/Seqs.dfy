/** Facts about concatenation that hold for sequences of anything. */
module Seqs {

  lemma AppendCancel<T>(a: seq<T>, x: seq<T>, b: seq<T>, y: seq<T>)
    requires |a| == |b| && a + x == b + y
    ensures a == b && x == y
  {
    assert a == (a + x)[..|a|] && b == (b + y)[..|b|];
    assert x == (a + x)[|a|..] && y == (b + y)[|b|..];
  }

  lemma TaggedCancel<T>(h: seq<T>, a: seq<T>, x: seq<T>, k: seq<T>, b: seq<T>, y: seq<T>)
    requires |h| == |k| && h + a + x == k + b + y
    ensures h == k && a + x == b + y
  {
    assert h + a + x == h + (a + x) && k + b + y == k + (b + y);
    AppendCancel(h, a + x, k, b + y);
  }

  lemma Middle<T>(pre: seq<T>, mid: seq<T>, rest: seq<T>)
    ensures (pre + mid + rest)[|pre|..|pre| + |mid|] == mid
  {
  }

  lemma Assoc<T>(a: seq<T>, b: seq<T>, c: seq<T>)
    ensures a + b + c == a + (b + c)
  {
  }

  lemma DropPrefix<T>(a: seq<T>, b: seq<T>)
    ensures (a + b)[|a|..] == b && (a + b)[..|a|] == a
  {
  }
}

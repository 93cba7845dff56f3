/** Order-preserving sub-sequences: the relation between a list and what a
    single forward pass over it can keep. */
module Sequences {

  /** `xs` can be obtained from `ys` by deleting elements, keeping the order
      of the ones that remain. Each element of `ys` is used at most once. */
  predicate Subseq<T(==)>(xs: seq<T>, ys: seq<T>)
    decreases |ys|
  {
    if xs == [] then true
    else if ys == [] then false
    else (xs[0] == ys[0] && Subseq(xs[1..], ys[1..])) || Subseq(xs, ys[1..])
  }

  /** A suffix splits at any later position. */
  lemma SuffixSplit<T>(s: seq<T>, i: nat, j: nat)
    requires i <= j <= |s|
    ensures s[i..] == s[i..j] + s[j..]
  {
  }

  lemma SubseqNil<T>(ys: seq<T>)
    ensures Subseq([], ys)
  {
  }

  lemma {:induction false} SubseqRefl<T>(xs: seq<T>)
    ensures Subseq(xs, xs)
    decreases |xs|
  {
    if xs != [] {
      SubseqRefl(xs[1..]);
    }
  }

  /** Prepending elements to the larger sequence keeps the relation. */
  lemma {:induction false} SubseqPrepend<T>(xs: seq<T>, pre: seq<T>, ys: seq<T>)
    requires Subseq(xs, ys)
    ensures Subseq(xs, pre + ys)
    decreases |pre|
  {
    if pre != [] {
      SubseqPrepend(xs, pre[1..], ys);
      assert (pre + ys)[1..] == pre[1..] + ys;
    } else {
      assert pre + ys == ys;
    }
  }

  /** Sub-sequences of consecutive pieces concatenate to a sub-sequence of
      the concatenated pieces. */
  lemma {:induction false} SubseqConcat<T>(a: seq<T>, x: seq<T>, b: seq<T>, y: seq<T>)
    requires Subseq(a, x) && Subseq(b, y)
    ensures Subseq(a + b, x + y)
    decreases |x|
  {
    if a == [] {
      assert a + b == b;
      SubseqPrepend(b, x, y);
    } else {
      assert x != [];
      assert (x + y)[1..] == x[1..] + y;
      if a[0] == x[0] && Subseq(a[1..], x[1..]) {
        SubseqConcat(a[1..], x[1..], b, y);
        assert (a + b)[1..] == a[1..] + b;
      } else {
        SubseqConcat(a, x[1..], b, y);
      }
    }
  }

  /** Every element of a sub-sequence occurs in the larger sequence. */
  lemma {:induction false} SubseqMember<T>(xs: seq<T>, ys: seq<T>, v: T)
    requires Subseq(xs, ys) && v in xs
    ensures v in ys
    decreases |ys|
  {
    assert xs != [] && ys != [];
    if xs[0] == ys[0] && Subseq(xs[1..], ys[1..]) {
      if v != xs[0] {
        assert v in xs[1..];
        SubseqMember(xs[1..], ys[1..], v);
      }
    } else {
      SubseqMember(xs, ys[1..], v);
    }
  }
}

/** Sequence helpers: list flattening and order-preserving filtering. */
module Seqs {

  /** `[item for sub in ss for item in sub]`. */
  function Flatten<T>(ss: seq<seq<T>>): seq<T>
  {
    if ss == [] then [] else ss[0] + Flatten(ss[1..])
  }

  lemma {:induction false} FlattenAppend<T>(a: seq<seq<T>>, b: seq<seq<T>>)
    ensures Flatten(a + b) == Flatten(a) + Flatten(b)
  {
    if a == [] {
      assert a + b == b;
    } else {
      assert (a + b)[1..] == a[1..] + b;
      FlattenAppend(a[1..], b);
    }
  }

  /** The elements of `xs` that satisfy `p`, in their original order (a boolean mask on a frame). */
  function Filter<T>(xs: seq<T>, p: T -> bool): (r: seq<T>)
    ensures |r| <= |xs|
    ensures forall x :: x in r ==> x in xs && p(x)
    ensures forall i :: 0 <= i < |xs| && p(xs[i]) ==> xs[i] in r
  {
    if xs == [] then []
    else (if p(xs[0]) then [xs[0]] else []) + Filter(xs[1..], p)
  }

  /** Filtering distributes over concatenation: together with the one-element case this pins
      down the relative order of the kept elements. */
  lemma {:induction false} FilterAppend<T>(xs: seq<T>, ys: seq<T>, p: T -> bool)
    ensures Filter(xs + ys, p) == Filter(xs, p) + Filter(ys, p)
  {
    if xs == [] {
      assert xs + ys == ys;
    } else {
      assert (xs + ys)[1..] == xs[1..] + ys;
      FilterAppend(xs[1..], ys, p);
    }
  }

  /** A filter keeps everything exactly when every element passes. */
  lemma {:induction false} FilterKeepsAll<T>(xs: seq<T>, p: T -> bool)
    ensures (Filter(xs, p) == xs) <==> (forall i :: 0 <= i < |xs| ==> p(xs[i]))
  {
    if xs != [] {
      FilterKeepsAll(xs[1..], p);
      if !p(xs[0]) {
        assert |Filter(xs, p)| < |xs|;
      }
    }
  }

  /** `outs[i]` belongs to `ins[i]`: one output per input, in input order. */
  ghost predicate Aligned<T, U>(outs: seq<U>, ins: seq<T>, f: T -> U)
  {
    |outs| == |ins| && forall i :: 0 <= i < |ins| ==> outs[i] == f(ins[i])
  }

  /** Reassembling per-chunk outputs, each aligned with its chunk, gives outputs aligned with the
      reassembled inputs: chunk boundaries do not disturb the per-item correspondence. */
  lemma {:induction false} FlattenAligned<T, U>(outs: seq<seq<U>>, ins: seq<seq<T>>, f: T -> U)
    requires |outs| == |ins|
    requires forall k :: 0 <= k < |ins| ==> Aligned(outs[k], ins[k], f)
    ensures Aligned(Flatten(outs), Flatten(ins), f)
  {
    if ins != [] {
      FlattenAligned(outs[1..], ins[1..], f);
      var a, b := outs[0], Flatten(outs[1..]);
      var c, d := ins[0], Flatten(ins[1..]);
      assert Aligned(a, c, f) && Aligned(b, d, f);
      forall i | 0 <= i < |c| + |d|
        ensures (a + b)[i] == f((c + d)[i])
      {
        if i < |c| {
          assert (a + b)[i] == a[i] && (c + d)[i] == c[i];
        } else {
          assert (a + b)[i] == b[i - |c|] && (c + d)[i] == d[i - |c|];
        }
      }
    }
  }
}

/** Concatenating the outputs of a step applied to each element of a sequence, in order. */
module Seqs {

  /** `f(xs[0]) + f(xs[1]) + ...`: what a `for` loop that appends `f(x)` for each `x` produces. */
  function Flatten<T, U>(f: T -> seq<U>, xs: seq<T>): seq<U>
  {
    if xs == [] then [] else f(xs[0]) + Flatten(f, xs[1..])
  }

  lemma {:induction false} FlattenAppend<T, U>(f: T -> seq<U>, xs: seq<T>, ys: seq<T>)
    ensures Flatten(f, xs + ys) == Flatten(f, xs) + Flatten(f, ys)
  {
    if xs == [] {
      assert xs + ys == ys;
    } else {
      assert (xs + ys)[1..] == xs[1..] + ys;
      FlattenAppend(f, xs[1..], ys);
    }
  }

  /** Element `i` contributes exactly `f(xs[i])`, between the output of the elements before and after it. */
  lemma FlattenAt<T, U>(f: T -> seq<U>, xs: seq<T>, i: nat)
    requires i < |xs|
    ensures Flatten(f, xs) == Flatten(f, xs[..i]) + f(xs[i]) + Flatten(f, xs[i + 1..])
  {
    assert xs == xs[..i + 1] + xs[i + 1..];
    FlattenAppend(f, xs[..i + 1], xs[i + 1..]);
    FlattenSnoc(f, xs, i);
  }

  /** Extending the processed prefix by one element appends that element's output. */
  lemma FlattenSnoc<T, U>(f: T -> seq<U>, xs: seq<T>, i: nat)
    requires i < |xs|
    ensures Flatten(f, xs[..i + 1]) == Flatten(f, xs[..i]) + f(xs[i])
  {
    assert xs[..i + 1] == xs[..i] + [xs[i]];
    FlattenAppend(f, xs[..i], [xs[i]]);
    assert [xs[i]][1..] == [];
  }

  lemma {:induction false} FlattenMember<T, U>(f: T -> seq<U>, xs: seq<T>, u: U)
    ensures u in Flatten(f, xs) <==> exists i :: 0 <= i < |xs| && u in f(xs[i])
  {
    if xs != [] {
      FlattenMember(f, xs[1..], u);
      if u in Flatten(f, xs[1..]) {
        var i :| 0 <= i < |xs[1..]| && u in f(xs[1..][i]);
        assert u in f(xs[i + 1]);
      }
      if exists i :: 0 <= i < |xs| && u in f(xs[i]) {
        var i :| 0 <= i < |xs| && u in f(xs[i]);
        if i > 0 {
          assert xs[1..][i - 1] == xs[i];
        }
      }
    }
  }

  /** The three parts of a concatenation are recovered by slicing at their lengths. */
  lemma ConcatSlices<T>(a: seq<T>, b: seq<T>, c: seq<T>)
    ensures (a + b + c)[..|a|] == a
    ensures (a + b + c)[|a|..|a| + |b|] == b
    ensures (a + b + c)[|a| + |b|..] == c
  {
    var s := a + b + c;
    assert s[..|a|] == a by {
      forall i | 0 <= i < |a| ensures s[..|a|][i] == a[i] { }
    }
    assert s[|a|..|a| + |b|] == b by {
      forall i | 0 <= i < |b| ensures s[|a|..|a| + |b|][i] == b[i] { }
    }
    assert s[|a| + |b|..] == c by {
      forall i | 0 <= i < |c| ensures s[|a| + |b|..][i] == c[i] { }
    }
  }

  lemma AppendAssoc<T>(a: seq<T>, b: seq<T>, c: seq<T>)
    ensures a + (b + c) == (a + b) + c
  {
  }

  lemma AppendAssoc5<T>(a: seq<T>, b: seq<T>, c: seq<T>, d: seq<T>, e: seq<T>)
    ensures a + (b + (c + (d + e))) == a + b + c + d + e
  {
    AppendAssoc(c, d, e);
    AppendAssoc(b, c + d, e);
    AppendAssoc(b, c, d);
    AppendAssoc(a, b + c + d, e);
    AppendAssoc(a, b + c, d);
    AppendAssoc(a, b, c);
  }
}

// Sequence and counter helpers shared by the components.
module Seqs {
  /** The counter map after one more event of type t. */
  function Bump(m: map<string, nat>, t: string): (r: map<string, nat>)
    ensures r.Keys == m.Keys + {t}
    ensures r[t] == (if t in m then m[t] else 0) + 1
    ensures forall k :: k in m && k != t ==> r[k] == m[k]
  {
    m[t := (if t in m then m[t] else 0) + 1]
  }

  /** The concatenation of a sequence of batches, in order. */
  function Flatten<T>(bs: seq<seq<T>>): (r: seq<T>)
    ensures bs == [] ==> r == []
  {
    if bs == [] then [] else Flatten(bs[..|bs| - 1]) + bs[|bs| - 1]
  }

  lemma {:induction false} FlattenAppend<T>(a: seq<seq<T>>, b: seq<seq<T>>)
    ensures Flatten(a + b) == Flatten(a) + Flatten(b)
    decreases |b|
  {
    if b == [] {
      assert a + b == a;
    } else {
      assert (a + b)[..|a + b| - 1] == a + b[..|b| - 1];
      FlattenAppend(a, b[..|b| - 1]);
    }
  }

  /** Flattening a batch followed by more batches. */
  lemma FlattenCons<T>(b: seq<T>, rest: seq<seq<T>>)
    ensures Flatten([b] + rest) == b + Flatten(rest)
  {
    FlattenAppend([b], rest);
    assert Flatten([b]) == b by { assert [b][..0] == []; }
  }

  /** A log extended by `q` keeps its old entries as a prefix, followed by `q`. */
  lemma AppendedParts<T>(s0: seq<T>, q: seq<T>)
    ensures |s0| <= |s0 + q| && (s0 + q)[..|s0|] == s0 && (s0 + q)[|s0|..] == q
  {
  }

  /** Moving the head of a queue to the end of a log keeps log and queue together. */
  lemma MoveHead<T>(s: seq<T>, q: seq<T>)
    requires q != []
    ensures s + [q[0]] + q[1..] == s + q
  {
    assert [q[0]] + q[1..] == q;
  }

  /** Prefixes chain: what `s2` adds beyond `s0` is what `s1` added, then what `s2` added beyond `s1`. */
  lemma SliceChain<T>(s0: seq<T>, s1: seq<T>, s2: seq<T>)
    requires |s0| <= |s1| && s1[..|s0|] == s0
    requires |s1| <= |s2| && s2[..|s1|] == s1
    ensures |s0| <= |s2| && s2[..|s0|] == s0 && s2[|s0|..] == s1[|s0|..] + s2[|s1|..]
  {
    assert s1 == s0 + s1[|s0|..];
    assert s2 == s1 + s2[|s1|..];
  }

  /**
   * `r` extends `a` first by `f` and then by more; flattening what follows `a` flattens `f`, then
   * the rest.
   */
  lemma FlattenAfter<T>(a: seq<seq<T>>, f: seq<seq<T>>, r: seq<seq<T>>)
    requires |a + f| <= |r| && r[..|a + f|] == a + f
    ensures |a| <= |r| && Flatten(r[|a|..]) == Flatten(f) + Flatten(r[|a + f|..])
  {
    SuffixSplit(a, f, r);
    FlattenAppend(f, r[|a + f|..]);
  }

  /** Equal sequences with a common prefix agree after it. */
  lemma CancelPrefix<T>(a: seq<T>, b: seq<T>, c: seq<T>)
    requires a + b == a + c
    ensures b == c
  {
    assert b == (a + b)[|a|..];
  }

  /** When a log grew from `s0` and its flattening grew by `x`, the new entries flatten to `x`. */
  lemma FlattenNew<T>(s0: seq<seq<T>>, s: seq<seq<T>>, x: seq<T>)
    requires |s0| <= |s| && s[..|s0|] == s0 && Flatten(s) == Flatten(s0) + x
    ensures Flatten(s[|s0|..]) == x
  {
    assert s == s0 + s[|s0|..];
    FlattenAppend(s0, s[|s0|..]);
    CancelPrefix(Flatten(s0), Flatten(s[|s0|..]), x);
  }

  lemma ConcatAssoc4<T>(a: seq<T>, b: seq<T>, c: seq<T>, d: seq<T>)
    ensures a + b + c + d == a + (b + c + d)
  {
  }

  /** The batches a flush of `c` queues flatten back to `c`. */
  lemma FlattenFlushed<T>(c: seq<T>)
    ensures Flatten(if c == [] then [] else [c]) == c
  {
    if c != [] {
      assert [c][..0] == [];
    }
  }

  /** What follows a prefix `a` of `r` that continues with `f`. */
  lemma SuffixSplit<T>(a: seq<T>, f: seq<T>, r: seq<T>)
    requires |a + f| <= |r| && r[..|a + f|] == a + f
    ensures r[|a|..] == f + r[|a + f|..]
  {
    assert r == r[..|a + f|] + r[|a + f|..];
  }

  lemma ConcatAssoc<T>(a: seq<T>, b: seq<T>, c: seq<T>)
    ensures a + (b + c) == a + b + c
  {
  }

  /** The elements of `xs` whose flag in `keep` is set, in order. */
  function Filter<T>(xs: seq<T>, keep: seq<bool>): (r: seq<T>)
    requires |keep| == |xs|
    ensures |r| <= |xs|
  {
    if xs == [] then []
    else Filter(xs[..|xs| - 1], keep[..|keep| - 1]) + (if keep[|keep| - 1] then [xs[|xs| - 1]] else [])
  }

  lemma {:induction false} FilterContains<T>(xs: seq<T>, keep: seq<bool>, i: nat)
    requires |keep| == |xs| && i < |xs| && keep[i]
    ensures xs[i] in Filter(xs, keep)
    decreases |xs|
  {
    if i < |xs| - 1 {
      FilterContains(xs[..|xs| - 1], keep[..|keep| - 1], i);
    }
  }

  lemma {:induction false} FilterMembers<T>(xs: seq<T>, keep: seq<bool>, x: T)
    requires |keep| == |xs| && x in Filter(xs, keep)
    ensures exists i :: 0 <= i < |xs| && keep[i] && xs[i] == x
    decreases |xs|
  {
    if x !in Filter(xs[..|xs| - 1], keep[..|keep| - 1]) {
      assert keep[|xs| - 1] && xs[|xs| - 1] == x;
    } else {
      FilterMembers(xs[..|xs| - 1], keep[..|keep| - 1], x);
      var i :| 0 <= i < |xs| - 1 && keep[..|keep| - 1][i] && xs[..|xs| - 1][i] == x;
      assert keep[i] && xs[i] == x;
    }
  }

  lemma {:induction false} FilterAll<T>(xs: seq<T>, keep: seq<bool>)
    requires |keep| == |xs| && forall i :: 0 <= i < |keep| ==> keep[i]
    ensures Filter(xs, keep) == xs
    decreases |xs|
  {
    if xs != [] {
      FilterAll(xs[..|xs| - 1], keep[..|keep| - 1]);
    }
  }

  lemma {:induction false} FilterSnoc<T>(xs: seq<T>, keep: seq<bool>, x: T, k: bool)
    requires |keep| == |xs|
    ensures Filter(xs + [x], keep + [k]) == Filter(xs, keep) + (if k then [x] else [])
  {
    assert (xs + [x])[..|xs|] == xs;
    assert (keep + [k])[..|keep|] == keep;
  }
}

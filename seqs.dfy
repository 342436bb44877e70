/** Flattening and filtering of sequences, with the facts the walkers need. */
module Seqs {

  /** `list(itertools.chain.from_iterable(ss))`. */
  function Concat<T>(ss: seq<seq<T>>): seq<T> {
    if ss == [] then [] else ss[0] + Concat(ss[1..])
  }

  lemma {:induction false} ConcatAppend<T>(a: seq<seq<T>>, b: seq<seq<T>>)
    ensures Concat(a + b) == Concat(a) + Concat(b)
  {
    if a == [] {
      assert a + b == b;
    } else {
      assert (a + b)[0] == a[0];
      assert (a + b)[1..] == a[1..] + b;
      ConcatAppend(a[1..], b);
      assert Concat(a + b) == a[0] + (Concat(a[1..]) + Concat(b));
    }
  }

  /** The total length of the pieces. */
  function SumLengths<T>(ss: seq<seq<T>>): nat {
    if ss == [] then 0 else |ss[0]| + SumLengths(ss[1..])
  }

  lemma {:induction false} ConcatLength<T>(ss: seq<seq<T>>)
    ensures |Concat(ss)| == SumLengths(ss)
  {
    if ss != [] {
      ConcatLength(ss[1..]);
    }
  }

  /** The elements of `s` that satisfy `f`, in their order. */
  function Filter<T>(f: T -> bool, s: seq<T>): (r: seq<T>)
    ensures |r| <= |s|
    ensures forall i | 0 <= i < |r| :: f(r[i]) && r[i] in s
  {
    if s == [] then [] else (if f(s[0]) then [s[0]] else []) + Filter(f, s[1..])
  }

  lemma {:induction false} FilterAppend<T>(f: T -> bool, a: seq<T>, b: seq<T>)
    ensures Filter(f, a + b) == Filter(f, a) + Filter(f, b)
  {
    if a == [] {
      assert a + b == b;
    } else {
      var h := if f(a[0]) then [a[0]] else [];
      assert (a + b)[0] == a[0];
      assert (a + b)[1..] == a[1..] + b;
      FilterAppend(f, a[1..], b);
      assert Filter(f, a + b) == h + (Filter(f, a[1..]) + Filter(f, b));
    }
  }

  /** Every element of `s` that satisfies `f` is kept. */
  lemma {:induction false} FilterKeeps<T>(f: T -> bool, s: seq<T>, x: T)
    requires x in s && f(x)
    ensures x in Filter(f, s)
  {
    if s[0] != x {
      FilterKeeps(f, s[1..], x);
    }
  }

  /** Filtering keeps everything exactly when every element satisfies `f`. */
  lemma {:induction false} FilterAll<T>(f: T -> bool, s: seq<T>)
    ensures (Filter(f, s) == s) <==> (forall i | 0 <= i < |s| :: f(s[i]))
    ensures (|Filter(f, s)| == |s|) <==> (forall i | 0 <= i < |s| :: f(s[i]))
  {
    if s != [] {
      FilterAll(f, s[1..]);
      if !f(s[0]) {
        assert |Filter(f, s)| < |s|;
      } else {
        assert forall i | 1 <= i < |s| :: s[i] == s[1..][i - 1];
      }
    }
  }
}

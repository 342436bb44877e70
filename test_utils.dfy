/**
  The comparison the unit tests use for generated code: two multi-line
  strings are equal when, after stripping the whole strings, they have the
  same number of lines and corresponding lines are equal once stripped. The
  assertions report the first difference as an `AssertionError`.
*/
module TestUtils {
  import opened Wrappers
  import opened Strings

  /** An argument of an `AssertionError`: a string or a list of strings. */
  datatype Arg = Text(text: string) | Texts(texts: seq<string>)

  /** `AssertionError(message, *args)`. */
  datatype AssertionFailure = AssertionFailure(message: string, args: seq<Arg>)

  /** `s.strip().split('\n')`. */
  function Lines(s: string): (lines: seq<string>)
    ensures |lines| >= 1
  {
    Split(Strip(s), '\n')
  }

  /** Whether two lines are equal once stripped. */
  predicate LinesMatch(line1: string, line2: string) {
    Strip(line1) == Strip(line2)
  }

  /** Two line lists of the same length whose corresponding lines match. */
  predicate LinesEqual(lines1: seq<string>, lines2: seq<string>) {
    |lines1| == |lines2| && forall i | 0 <= i < |lines1| :: LinesMatch(lines1[i], lines2[i])
  }

  /** Line `k` is the first pair of lines that do not match. */
  predicate FirstMismatch(lines1: seq<string>, lines2: seq<string>, k: nat)
    requires k < |lines1| == |lines2|
  {
    !LinesMatch(lines1[k], lines2[k]) && forall j | 0 <= j < k :: LinesMatch(lines1[j], lines2[j])
  }

  /** What `assertCodesEqual` accepts. */
  predicate CodesEqual(string1: string, string2: string) {
    LinesEqual(Lines(string1), Lines(string2))
  }

  /** Every code of the list, stripped. */
  function StripAll(list: seq<string>): (codes: seq<string>)
    ensures |codes| == |list|
  {
    seq(|list|, i requires 0 <= i < |list| => Strip(list[i]))
  }

  /** Two code lists of the same length whose corresponding codes are equal. */
  predicate PairwiseCodesEqual(codes1: seq<string>, codes2: seq<string>) {
    |codes1| == |codes2| && forall i | 0 <= i < |codes1| :: CodesEqual(codes1[i], codes2[i])
  }

  /** What `assertListofCodesEqual` accepts: the codes, each stripped first, pair up equal. */
  predicate ListOfCodesEqual(list1: seq<string>, list2: seq<string>) {
    PairwiseCodesEqual(StripAll(list1), StripAll(list2))
  }

  /**
    The loop of `assertCodesEqual` over lines of equal count: the index of
    the first pair that does not match, or none when all match.
  */
  method FindMismatch(lines1: seq<string>, lines2: seq<string>) returns (k: Option<nat>)
    requires |lines1| == |lines2|
    ensures k.None? <==> LinesEqual(lines1, lines2)
    ensures k.Some? ==> k.value < |lines1| && FirstMismatch(lines1, lines2, k.value)
  {
    var i := 0;
    while i < |lines1|
      invariant 0 <= i <= |lines1|
      invariant forall j | 0 <= j < i :: LinesMatch(lines1[j], lines2[j])
    {
      if !LinesMatch(lines1[i], lines2[i]) {
        assert FirstMismatch(lines1, lines2, i);
        assert !LinesEqual(lines1, lines2);
        return Some(i);
      }
      i := i + 1;
    }
    assert LinesEqual(lines1, lines2);
    return None;
  }

  /**
    `assertCodesEqual(string1, string2)`: no failure exactly when the codes
    are equal; otherwise the line counts differ, or the first pair of lines
    that differ is reported as written.
  */
  method AssertCodesEqual(string1: string, string2: string) returns (failure: Option<AssertionFailure>)
    ensures failure.None? <==> CodesEqual(string1, string2)
    ensures |Lines(string1)| != |Lines(string2)| ==>
      failure == Some(AssertionFailure("Strings have different number of lines", [Text(string1), Text(string2)]))
    ensures |Lines(string1)| == |Lines(string2)| && failure.Some? ==>
      exists k | 0 <= k < |Lines(string1)| ::
        && FirstMismatch(Lines(string1), Lines(string2), k)
        && failure == Some(AssertionFailure("String lines are not equal",
                                            [Text(Lines(string1)[k]), Text(Lines(string2)[k])]))
  {
    var lines1 := Lines(string1);
    var lines2 := Lines(string2);
    if |lines1| != |lines2| {
      return Some(AssertionFailure("Strings have different number of lines", [Text(string1), Text(string2)]));
    }
    var k := FindMismatch(lines1, lines2);
    if k.Some? {
      failure := Some(AssertionFailure("String lines are not equal", [Text(lines1[k.value]), Text(lines2[k.value])]));
    } else {
      failure := None;
    }
  }

  /**
    `assertCodesEqual` as the list loop sees it: only whether it failed. The
    loop reasons about this outcome alone, without the failure's message.
  */
  method CodesOutcome(string1: string, string2: string) returns (failure: Option<AssertionFailure>)
    ensures failure.None? <==> CodesEqual(string1, string2)
  {
    failure := AssertCodesEqual(string1, string2);
  }

  /**
    The loop of `assertListofCodesEqual` over lists of equal length: the
    failure of the first pair of codes that are not equal, or none.
  */
  method CompareCodes(codes1: seq<string>, codes2: seq<string>) returns (failure: Option<AssertionFailure>)
    requires |codes1| == |codes2|
    ensures failure.None? <==> PairwiseCodesEqual(codes1, codes2)
  {
    var i := 0;
    while i < |codes1|
      invariant 0 <= i <= |codes1|
      invariant forall j | 0 <= j < i :: CodesEqual(codes1[j], codes2[j])
    {
      failure := CodesOutcome(codes1[i], codes2[i]);
      if failure.Some? {
        return;
      }
      i := i + 1;
    }
    return None;
  }

  /**
    `assertListofCodesEqual(list1, list2)`: no failure exactly when the
    lists have the same length and corresponding codes are equal; a length
    difference is reported with both lists.
  */
  method AssertListOfCodesEqual(list1: seq<string>, list2: seq<string>) returns (failure: Option<AssertionFailure>)
    ensures failure.None? <==> ListOfCodesEqual(list1, list2)
    ensures |list1| != |list2| ==>
      failure == Some(AssertionFailure("Lists have different lengths", [Texts(list1), Texts(list2)]))
  {
    if |list1| != |list2| {
      return Some(AssertionFailure("Lists have different lengths", [Texts(list1), Texts(list2)]));
    }
    failure := CompareCodes(StripAll(list1), StripAll(list2));
  }

  // ---------------------------------------------------------------------------
  // Properties of the comparison

  /** Different line counts never compare equal. */
  lemma DifferentLineCounts(string1: string, string2: string)
    requires |Lines(string1)| != |Lines(string2)|
    ensures !CodesEqual(string1, string2)
  {
  }

  /** The comparison is an equivalence: reflexive, symmetric and transitive. */
  lemma CodesEqualIsEquivalence(a: string, b: string, c: string)
    ensures CodesEqual(a, a)
    ensures CodesEqual(a, b) ==> CodesEqual(b, a)
    ensures CodesEqual(a, b) && CodesEqual(b, c) ==> CodesEqual(a, c)
  {
  }

  /** The outcome depends only on the stripped lines. */
  lemma {:induction false} OnlyStrippedLinesMatter(a: string, a': string, b: string)
    requires |Lines(a)| == |Lines(a')|
    requires forall i | 0 <= i < |Lines(a)| :: Strip(Lines(a)[i]) == Strip(Lines(a')[i])
    ensures CodesEqual(a, b) <==> CodesEqual(a', b)
  {
  }

  /** Whitespace before or after a line never changes whether it matches. */
  lemma {:induction false} PaddingIgnored(line1: string, line2: string, before: string, after: string)
    requires forall i | 0 <= i < |before| :: before[i] in WHITESPACE
    requires forall i | 0 <= i < |after| :: after[i] in WHITESPACE
    ensures LinesMatch(before + line1 + after, line2) <==> LinesMatch(line1, line2)
  {
    StripPadded(line1, before, after);
  }

  /**
    Stripping each code first, as `assertListofCodesEqual` does, changes
    nothing: the lists compare equal exactly when the codes pair up equal.
  */
  lemma ListComparesCodes(list1: seq<string>, list2: seq<string>)
    ensures ListOfCodesEqual(list1, list2) <==>
      |list1| == |list2| && forall i | 0 <= i < |list1| :: CodesEqual(list1[i], list2[i])
  {
    if |list1| == |list2| {
      var codes1, codes2 := StripAll(list1), StripAll(list2);
      forall i | 0 <= i < |list1|
        ensures CodesEqual(codes1[i], codes2[i]) == CodesEqual(list1[i], list2[i])
      {
        StripIdempotent(list1[i]);
        StripIdempotent(list2[i]);
        assert Lines(codes1[i]) == Lines(list1[i]);
        assert Lines(codes2[i]) == Lines(list2[i]);
      }
    }
  }

  // ---------------------------------------------------------------------------
  // Facts about `strip()`

  lemma {:induction false} StripIdempotent(s: string)
    ensures Strip(Strip(s)) == Strip(s)
  {
    var t := LStrip(s, WHITESPACE);
    var r := RStrip(t, WHITESPACE);
    assert LStrip(r, WHITESPACE) == r by {
      if r != [] {
        assert r[0] == t[0];
      }
    }
    assert RStrip(r, WHITESPACE) == r;
  }

  /** Leading characters of the set are dropped whatever follows them. */
  lemma {:induction false} LStripSkips(p: string, x: string, cs: set<char>)
    requires forall i | 0 <= i < |p| :: p[i] in cs
    ensures LStrip(p + x, cs) == LStrip(x, cs)
  {
    if p != [] {
      assert (p + x)[0] == p[0];
      assert (p + x)[1..] == p[1..] + x;
      LStripSkips(p[1..], x, cs);
    } else {
      assert p + x == x;
    }
  }

  /** Trailing characters of the set are dropped whatever precedes them. */
  lemma {:induction false} RStripSkips(x: string, q: string, cs: set<char>)
    requires forall i | 0 <= i < |q| :: q[i] in cs
    ensures RStrip(x + q, cs) == RStrip(x, cs)
  {
    if q != [] {
      assert (x + q)[|x + q| - 1] == q[|q| - 1];
      assert (x + q)[..|x + q| - 1] == x + q[..|q| - 1];
      RStripSkips(x, q[..|q| - 1], cs);
    } else {
      assert x + q == x;
    }
  }

  /** Left-stripping a concatenation: the second part is reached only if the first strips to nothing. */
  lemma {:induction false} LStripConcat(l: string, q: string, cs: set<char>)
    ensures LStrip(l + q, cs) == if LStrip(l, cs) == [] then LStrip(q, cs) else LStrip(l, cs) + q
  {
    if l == [] {
      assert l + q == q;
    } else if l[0] in cs {
      assert (l + q)[1..] == l[1..] + q;
      LStripConcat(l[1..], q, cs);
    }
  }

  lemma StripPadded(l: string, p: string, q: string)
    requires forall i | 0 <= i < |p| :: p[i] in WHITESPACE
    requires forall i | 0 <= i < |q| :: q[i] in WHITESPACE
    ensures Strip(p + l + q) == Strip(l)
  {
    assert p + l + q == p + (l + q);
    LStripSkips(p, l + q, WHITESPACE);
    LStripConcat(l, q, WHITESPACE);
    if LStrip(l, WHITESPACE) == [] {
      LStripSkips(q, [], WHITESPACE);
      assert q + [] == q;
    } else {
      RStripSkips(LStrip(l, WHITESPACE), q, WHITESPACE);
    }
  }
}

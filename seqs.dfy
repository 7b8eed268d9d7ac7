/** Sequence operations that the panels use: `Array.prototype.filter` and its positional form. */
module Seqs {

  /** `s.filter(p)`: the elements satisfying p, in their original order. */
  function Filter<T>(p: T -> bool, s: seq<T>): seq<T>
  {
    if s == [] then [] else (if p(s[0]) then [s[0]] else []) + Filter(p, s[1..])
  }

  /** An element is kept exactly when it is in the input and passes the predicate. */
  lemma {:induction false} FilterMembership<T>(p: T -> bool, s: seq<T>)
    ensures forall x :: x in Filter(p, s) <==> x in s && p(x)
  {
    if s != [] {
      FilterMembership(p, s[1..]);
      assert s == [s[0]] + s[1..];
    }
  }

  /** A kept element comes from the input and passes the predicate. */
  lemma FilterKept<T>(p: T -> bool, s: seq<T>, x: T)
    requires x in Filter(p, s)
    ensures x in s && p(x)
  {
    FilterMembership(p, s);
  }

  /** Filtering distributes over concatenation, so relative order is preserved. */
  lemma {:induction false} FilterAppend<T>(p: T -> bool, a: seq<T>, b: seq<T>)
    ensures Filter(p, a + b) == Filter(p, a) + Filter(p, b)
  {
    if a == [] {
      assert a + b == b;
    } else {
      var head := if p(a[0]) then [a[0]] else [];
      assert (a + b)[0] == a[0];
      assert (a + b)[1..] == a[1..] + b;
      FilterAppend(p, a[1..], b);
      calc {
        Filter(p, a + b);
        head + Filter(p, a[1..] + b);
        head + (Filter(p, a[1..]) + Filter(p, b));
        (head + Filter(p, a[1..])) + Filter(p, b);
        Filter(p, a) + Filter(p, b);
      }
    }
  }

  /** Filtering never lengthens a sequence. */
  lemma {:induction false} FilterShorter<T>(p: T -> bool, s: seq<T>)
    ensures |Filter(p, s)| <= |s|
  {
    if s != [] {
      FilterShorter(p, s[1..]);
    }
  }

  /** A sequence whose every element passes is left as it is. */
  lemma {:induction false} FilterKeepsAll<T>(p: T -> bool, s: seq<T>)
    requires forall i :: 0 <= i < |s| ==> p(s[i])
    ensures Filter(p, s) == s
  {
    if s != [] {
      FilterKeepsAll(p, s[1..]);
      assert s == [s[0]] + s[1..];
    }
  }

  /** Every element of a filtered sequence passes the predicate. */
  lemma {:induction false} FilterAllPass<T>(p: T -> bool, s: seq<T>)
    ensures forall i :: 0 <= i < |Filter(p, s)| ==> p(Filter(p, s)[i])
  {
    forall i | 0 <= i < |Filter(p, s)|
      ensures p(Filter(p, s)[i])
    {
      FilterKept(p, s, Filter(p, s)[i]);
    }
  }

  /** Filtering twice with the same predicate gives the same result as filtering once. */
  lemma {:induction false} FilterIdempotent<T>(p: T -> bool, s: seq<T>)
    ensures Filter(p, Filter(p, s)) == Filter(p, s)
  {
    FilterAllPass(p, s);
    FilterKeepsAll(p, Filter(p, s));
  }

  /** `s.filter((_, k) => k !== i)`: the sequence without position i. */
  function DropIndex<T>(s: seq<T>, i: int): seq<T>
  {
    if s == [] then [] else (if i == 0 then [] else [s[0]]) + DropIndex(s[1..], i - 1)
  }

  /**
   * The positional filter splices position i out when i is an index of s, and
   * returns s itself when it is not.
   */
  lemma {:induction false} DropIndexSplice<T>(s: seq<T>, i: int)
    ensures DropIndex(s, i) == if 0 <= i < |s| then s[..i] + s[i + 1..] else s
  {
    if s == [] {
    } else if i == 0 {
      DropIndexSplice(s[1..], -1);
      assert s[..0] + s[1..] == s[1..];
    } else {
      DropIndexSplice(s[1..], i - 1);
      if 0 < i < |s| {
        assert s[1..][..i - 1] == s[1..i];
        assert s[1..][i..] == s[i + 1..];
        assert [s[0]] + (s[1..i] + s[i + 1..]) == s[..i] + s[i + 1..];
      } else {
        assert [s[0]] + s[1..] == s;
      }
    }
  }
}

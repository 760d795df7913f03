/** Sequence helpers: a Rust `Vec` used as a stack keeps its top at the end. */
module Seqs {
  /** The top of a stack: what `last()` and `pop()` see. */
  function Last<T>(s: seq<T>): T
    requires s != []
  {
    s[|s| - 1]
  }

  /** The stack after one `pop()`. */
  function Init<T>(s: seq<T>): seq<T>
    requires s != []
  {
    s[..|s| - 1]
  }

  /** The elements of s in the order repeated `pop()` calls return them. */
  function Reverse<T>(s: seq<T>): (r: seq<T>)
    ensures |r| == |s|
  {
    if s == [] then [] else [Last(s)] + Reverse(Init(s))
  }

  /** The elements of s that satisfy p, in order. */
  function Filter<T>(p: T -> bool, s: seq<T>): (r: seq<T>)
    ensures |r| <= |s|
    ensures forall i :: 0 <= i < |r| ==> p(r[i])
  {
    if s == [] then [] else (if p(s[0]) then [s[0]] else []) + Filter(p, s[1..])
  }

  lemma FilterSingle<T>(p: T -> bool, x: T)
    ensures Filter(p, [x]) == if p(x) then [x] else []
  {
    assert [x][1..] == [];
  }

  lemma {:induction false} FilterAppend<T>(p: T -> bool, a: seq<T>, b: seq<T>)
    ensures Filter(p, a + b) == Filter(p, a) + Filter(p, b)
  {
    if a == [] {
      assert a + b == b;
    } else {
      assert (a + b)[1..] == a[1..] + b;
      FilterAppend(p, a[1..], b);
    }
  }

  /** An element that fails p adds nothing to the filtered tail. */
  lemma FilterSkip<T>(p: T -> bool, s: seq<T>, x: T)
    requires !p(x)
    ensures Filter(p, s + [x]) == Filter(p, s)
  {
    FilterAppend(p, s, [x]);
    FilterSingle(p, x);
    assert Filter(p, s) + [] == Filter(p, s);
  }

  /** Swapping one element that fails p for another leaves a count over
      the filtered sequence unchanged. */
  lemma FilterSwapMultiset<T>(p: T -> bool, a: multiset<T>, b: multiset<T>, s: seq<T>, x: T, y: T)
    requires !p(x) && !p(y)
    requires a + multiset(Filter(p, s + [x])) == b
    ensures a + multiset(Filter(p, s)) == b + multiset(Filter(p, [y]))
  {
    FilterSkip(p, s, x);
    FilterSingle(p, y);
  }

  lemma ConcatAssociative<T>(a: seq<T>, b: seq<T>, c: seq<T>)
    ensures a + (b + c) == a + b + c
  {
  }

  /** Two counting steps compose: what one step adds and what the next adds
      together make up the count of their concatenation. */
  lemma MultisetChain<T>(total: multiset<T>, mid: multiset<T>, start: multiset<T>, x: seq<T>, y: seq<T>)
    requires total == mid + multiset(y) && mid == start + multiset(x)
    ensures total == start + multiset(x + y)
  {
  }

  lemma {:induction false} FilterNone<T>(p: T -> bool, s: seq<T>)
    requires forall i :: 0 <= i < |s| ==> !p(s[i])
    ensures Filter(p, s) == []
  {
    if s != [] {
      FilterNone(p, s[1..]);
    }
  }

  lemma {:induction false} FilterAll<T>(p: T -> bool, s: seq<T>)
    requires forall i :: 0 <= i < |s| ==> p(s[i])
    ensures Filter(p, s) == s
  {
    if s != [] {
      FilterAll(p, s[1..]);
    }
  }

  lemma {:induction false} ReverseMultiset<T>(s: seq<T>)
    ensures multiset(Reverse(s)) == multiset(s)
  {
    if s != [] {
      ReverseMultiset(Init(s));
      assert s == Init(s) + [Last(s)];
    }
  }

  lemma {:induction false} FilterReverseMultiset<T>(p: T -> bool, s: seq<T>)
    ensures multiset(Filter(p, Reverse(s))) == multiset(Filter(p, s))
  {
    if s != [] {
      FilterReverseMultiset(p, Init(s));
      FilterAppend(p, [Last(s)], Reverse(Init(s)));
      assert s == Init(s) + [Last(s)];
      FilterAppend(p, Init(s), [Last(s)]);
    }
  }

  lemma ReverseElements<T>(s: seq<T>, x: T)
    ensures x in Reverse(s) <==> x in s
  {
    ReverseMultiset(s);
    assert x in multiset(Reverse(s)) <==> x in multiset(s);
  }

  /* Regroupings of short sequence displays, for worked examples. */

  lemma Cons3<T>(a: T, b: T, c: T, rest: seq<T>)
    ensures [a, b, c] + rest == [a] + ([b] + ([c] + rest))
  {
  }

  lemma Snoc2<T>(s: seq<T>, a: T, b: T)
    ensures s + [a] + [b] == s + [a, b]
  {
  }

  lemma Snoc3<T>(s: seq<T>, a: T, b: T, c: T)
    ensures s + [a] + [b] + [c] == s + [a, b, c]
  {
  }

  lemma Reverse1<T>(a: T)
    ensures Reverse([a]) == [a]
  {
    assert Init([a]) == [];
  }

  lemma Reverse2<T>(a: T, b: T)
    ensures Reverse([a, b]) == [b, a]
  {
    assert Init([a, b]) == [a];
    Reverse1(a);
  }

  lemma StackShape<T>(a: T, b: T, c: T, d: T)
    ensures [a, b, c] + [d] == [a] + [b] + [c, d]
  {
  }

  lemma Nine<T>(a: T, b: T, c: T, d: T, e: T, f: T, g: T, h: T, i: T, rest: seq<T>)
    ensures [a, b, c, d, e, f, g, h, i] + rest == [a, b, c] + ([d, e, f] + ([g, h, i] + rest))
  {
  }

  lemma Six<T>(a: T, b: T, c: T, d: T, e: T, f: T)
    ensures [a] + [b, c] + [d, e, f] == [a, b, c, d, e, f]
  {
  }

  lemma Eleven<T>(a: T, b: T, c: T, d: T, e: T, f: T, g: T, h: T, i: T, j: T, k: T)
    ensures [a, b, c, d, e, f] + [g, h, i] + [j, k] == [a, b, c, d, e, f, g, h, i, j, k]
  {
  }
}

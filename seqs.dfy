/** `Array.prototype.filter` and the SQL `WHERE` over a list of rows, both
    modelled as keeping, in order, the elements that satisfy a predicate. */
module Seqs {

  /** `s.filter(p)`: the elements of `s` satisfying `p`, in their order. */
  function Keep<T(!new)>(s: seq<T>, p: T -> bool): (r: seq<T>)
    ensures |r| <= |s|
    ensures forall x :: x in r <==> x in s && p(x)
  {
    if s == [] then [] else (if p(s[0]) then [s[0]] else []) + Keep(s[1..], p)
  }

  /** Filtering a concatenation filters each part. */
  lemma {:induction false} KeepConcat<T(!new)>(a: seq<T>, b: seq<T>, p: T -> bool)
    ensures Keep(a + b, p) == Keep(a, p) + Keep(b, p)
  {
    if a != [] {
      assert (a + b)[0] == a[0];
      assert (a + b)[1..] == a[1..] + b;
      KeepConcat(a[1..], b, p);
      var head := if p(a[0]) then [a[0]] else [];
      assert Keep(a + b, p) == head + Keep(a[1..] + b, p);
      assert Keep(a, p) == head + Keep(a[1..], p);
    } else {
      assert a + b == b;
    }
  }

  /** Filtering keeps every element exactly as often as the input has it,
      if it satisfies the predicate, and never otherwise. */
  lemma {:induction false} KeepMultiset<T(!new)>(s: seq<T>, p: T -> bool, x: T)
    ensures multiset(Keep(s, p))[x] == if p(x) then multiset(s)[x] else 0
  {
    if s != [] {
      KeepMultiset(s[1..], p, x);
      assert s == [s[0]] + s[1..];
    }
  }

  /** Two predicates that agree on the elements give the same filter. */
  lemma {:induction false} KeepCongruent<T(!new)>(s: seq<T>, p: T -> bool, q: T -> bool)
    requires forall x :: x in s ==> p(x) == q(x)
    ensures Keep(s, p) == Keep(s, q)
  {
    if s != [] {
      assert s[0] in s;
      assert forall x :: x in s[1..] ==> x in s;
      KeepCongruent(s[1..], p, q);
    }
  }

  /** A filter that every element passes changes nothing. */
  lemma {:induction false} KeepAll<T(!new)>(s: seq<T>, p: T -> bool)
    requires forall x :: x in s ==> p(x)
    ensures Keep(s, p) == s
  {
    if s != [] {
      assert s[0] in s;
      assert forall x :: x in s[1..] ==> x in s;
      KeepAll(s[1..], p);
    }
  }

  /** A filter that no element passes leaves nothing. */
  lemma {:induction false} KeepNone<T(!new)>(s: seq<T>, p: T -> bool)
    requires forall x :: x in s ==> !p(x)
    ensures Keep(s, p) == []
  {
    if s != [] {
      assert s[0] in s;
      assert forall x :: x in s[1..] ==> x in s;
      KeepNone(s[1..], p);
    }
  }

  /** Filtering twice with the same predicate is filtering once. */
  lemma {:induction false} KeepIdempotent<T(!new)>(s: seq<T>, p: T -> bool)
    ensures Keep(Keep(s, p), p) == Keep(s, p)
  {
    KeepAll(Keep(s, p), p);
  }

  /** Replacing one element by another with the same standing under `p`
      changes the filter only at that element. */
  lemma {:induction false} KeepUpdateOutside<T(!new)>(s: seq<T>, i: nat, y: T, p: T -> bool)
    requires i < |s|
    requires !p(s[i]) && !p(y)
    ensures Keep(s[i := y], p) == Keep(s, p)
  {
    if i == 0 {
      assert s[i := y][1..] == s[1..];
    } else {
      assert s[i := y][0] == s[0];
      assert s[i := y][1..] == s[1..][i - 1 := y];
      KeepUpdateOutside(s[1..], i - 1, y, p);
    }
  }

  /** Filtering by `q` after a filter `p` that every `q`-element passes is
      filtering by `q` alone. */
  lemma {:induction false} KeepNarrower<T(!new)>(s: seq<T>, p: T -> bool, q: T -> bool)
    requires forall x :: q(x) ==> p(x)
    ensures Keep(Keep(s, p), q) == Keep(s, q)
  {
    if s != [] {
      KeepNarrower(s[1..], p, q);
      if p(s[0]) {
        assert Keep(s, p) == [s[0]] + Keep(s[1..], p);
        KeepConcat([s[0]], Keep(s[1..], p), q);
        assert Keep([s[0]], q) == (if q(s[0]) then [s[0]] else []) + Keep([s[0]][1..], q);
      } else {
        assert Keep(s, p) == Keep(s[1..], p);
      }
    }
  }

  /** Filtering removes as many elements as the complementary filter keeps. */
  lemma {:induction false} KeepComplement<T(!new)>(s: seq<T>, p: T -> bool)
    ensures |Keep(s, p)| + |Keep(s, x => !p(x))| == |s|
  {
    if s != [] {
      KeepComplement(s[1..], p);
    }
  }
}

/** `Array.prototype.filter` and the facts about it that the list views rely
    on: the result is an order-preserving sublist of the input that keeps
    exactly the elements the predicate accepts, each as often as it occurs. */
module Lists {

  /** `r` can be obtained from `s` by deleting elements, keeping the order of
      the rest. */
  ghost predicate Sublist<T(!new)>(r: seq<T>, s: seq<T>)
    decreases |s|
  {
    if s == [] then r == []
    else (r != [] && r[0] == s[0] && Sublist(r[1..], s[1..])) || Sublist(r, s[1..])
  }

  /** `s.filter(p)`. */
  function Filter<T(!new)>(s: seq<T>, p: T -> bool): (r: seq<T>)
    ensures |r| <= |s|
    ensures Sublist(r, s)
    ensures forall x :: x in r ==> x in s && p(x)
    ensures forall x :: x in s ==> (x in r <==> p(x))
    ensures forall x :: multiset(r)[x] == if p(x) then multiset(s)[x] else 0
  {
    if s == [] then []
    else
      assert s == [s[0]] + s[1..];
      if p(s[0]) then [s[0]] + Filter(s[1..], p)
      else Filter(s[1..], p)
  }

  /** Filtering with a predicate that accepts everything changes nothing. */
  lemma {:induction false} FilterAll<T(!new)>(s: seq<T>, p: T -> bool)
    requires forall x :: x in s ==> p(x)
    ensures Filter(s, p) == s
  {
    if s != [] {
      FilterAll(s[1..], p);
    }
  }

  /** Filtering with two predicates that split a third one into disjoint parts
      splits the third one's result: the two lengths add up. */
  lemma {:induction false} FilterSplit<T(!new)>(s: seq<T>, p: T -> bool, a: T -> bool, b: T -> bool)
    requires forall x :: x in s ==> (p(x) <==> a(x) || b(x))
    requires forall x :: x in s ==> !(a(x) && b(x))
    ensures |Filter(s, a)| + |Filter(s, b)| == |Filter(s, p)|
  {
    if s != [] {
      FilterSplit(s[1..], p, a, b);
    }
  }

  /** Two predicates that agree on every element of `s` filter it alike. */
  lemma {:induction false} FilterCongruent<T(!new)>(s: seq<T>, p: T -> bool, q: T -> bool)
    requires forall x :: x in s ==> (p(x) <==> q(x))
    ensures Filter(s, p) == Filter(s, q)
  {
    if s != [] {
      FilterCongruent(s[1..], p, q);
    }
  }

  /** Filtering twice is filtering once with the conjunction. */
  lemma {:induction false} FilterFilter<T(!new)>(s: seq<T>, p: T -> bool, q: T -> bool, pq: T -> bool)
    requires forall x :: x in s ==> (pq(x) <==> p(x) && q(x))
    ensures Filter(Filter(s, p), q) == Filter(s, pq)
  {
    if s != [] {
      FilterFilter(s[1..], p, q, pq);
    }
  }
}

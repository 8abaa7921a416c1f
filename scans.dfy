/** The left-to-right scans that every query of the ledger is built from, stated once
    over sequences: sums, counts, index filters, seeded extrema with first-occurrence
    arg-extrema, and sortedness. Each is defined on the prefix `s[..|s|-1]` so that a
    `for` loop's invariant after `i` steps is the same function of `s[..i]`. */
module Scans {

  /** Sum of the elements, added left to right. */
  function Sum(s: seq<real>): real
  {
    if s == [] then 0.0 else Sum(s[..|s| - 1]) + s[|s| - 1]
  }

  /** Number of elements satisfying `p`. */
  function Count<T>(s: seq<T>, p: T -> bool): (c: nat)
    ensures c <= |s|
  {
    if s == [] then 0
    else Count(s[..|s| - 1], p) + (if p(s[|s| - 1]) then 1 else 0)
  }

  /** A count is zero exactly when no element satisfies `p`, and the full length
      exactly when every element does. */
  lemma {:induction false} CountNoneOrAll<T>(s: seq<T>, p: T -> bool)
    ensures Count(s, p) == 0 <==> forall i :: 0 <= i < |s| ==> !p(s[i])
    ensures Count(s, p) == |s| <==> forall i :: 0 <= i < |s| ==> p(s[i])
  {
    if s != [] {
      CountNoneOrAll(s[..|s| - 1], p);
    }
  }

  /** The positions of the elements satisfying `p`, in increasing order. */
  function IndicesWhere<T>(s: seq<T>, p: T -> bool): (r: seq<int>)
    ensures |r| == Count(s, p)
  {
    if s == [] then []
    else IndicesWhere(s[..|s| - 1], p) + (if p(s[|s| - 1]) then [|s| - 1] else [])
  }

  /** The filter holds exactly the positions satisfying `p`, each once, strictly
      increasing. */
  lemma {:induction false} IndicesWhereExactly<T>(s: seq<T>, p: T -> bool)
    ensures forall j :: 0 <= j < |IndicesWhere(s, p)| ==>
              0 <= IndicesWhere(s, p)[j] < |s| && p(s[IndicesWhere(s, p)[j]])
    ensures forall j, k :: 0 <= j < k < |IndicesWhere(s, p)| ==>
              IndicesWhere(s, p)[j] < IndicesWhere(s, p)[k]
    ensures forall i :: 0 <= i < |s| ==> (i in IndicesWhere(s, p) <==> p(s[i]))
  {
    if s != [] {
      var s' := s[..|s| - 1];
      IndicesWhereExactly(s', p);
      assert forall i :: 0 <= i < |s'| ==> s'[i] == s[i];
    }
  }

  /** The running minimum of a scan started at `seed` that replaces it on a strictly
      smaller element. */
  function MinFrom(seed: real, s: seq<real>): real
  {
    if s == [] then seed
    else
      var m' := MinFrom(seed, s[..|s| - 1]);
      if s[|s| - 1] < m' then s[|s| - 1] else m'
  }

  /** The running maximum of a scan started at `seed` that replaces it on a strictly
      larger element. */
  function MaxFrom(seed: real, s: seq<real>): real
  {
    if s == [] then seed
    else
      var m' := MaxFrom(seed, s[..|s| - 1]);
      if s[|s| - 1] > m' then s[|s| - 1] else m'
  }

  /** The index the minimum scan last updated at. */
  function ArgMinFrom(seed: real, s: seq<real>): (k: int)
    ensures -1 <= k < |s|
  {
    if s == [] then -1
    else if s[|s| - 1] < MinFrom(seed, s[..|s| - 1]) then |s| - 1
    else ArgMinFrom(seed, s[..|s| - 1])
  }

  /** The index the maximum scan last updated at. */
  function ArgMaxFrom(seed: real, s: seq<real>): (k: int)
    ensures -1 <= k < |s|
  {
    if s == [] then -1
    else if s[|s| - 1] > MaxFrom(seed, s[..|s| - 1]) then |s| - 1
    else ArgMaxFrom(seed, s[..|s| - 1])
  }

  /** The minimum scan yields the least of the seed and the elements. */
  lemma {:induction false} MinFromIsLeast(seed: real, s: seq<real>)
    ensures MinFrom(seed, s) <= seed && forall i :: 0 <= i < |s| ==> MinFrom(seed, s) <= s[i]
    ensures MinFrom(seed, s) == seed || exists i :: 0 <= i < |s| && s[i] == MinFrom(seed, s)
  {
    if s != [] {
      MinFromIsLeast(seed, s[..|s| - 1]);
    }
  }

  /** The maximum scan yields the greatest of the seed and the elements. */
  lemma {:induction false} MaxFromIsGreatest(seed: real, s: seq<real>)
    ensures MaxFrom(seed, s) >= seed && forall i :: 0 <= i < |s| ==> s[i] <= MaxFrom(seed, s)
    ensures MaxFrom(seed, s) == seed || exists i :: 0 <= i < |s| && s[i] == MaxFrom(seed, s)
  {
    if s != [] {
      MaxFromIsGreatest(seed, s[..|s| - 1]);
    }
  }

  /** The minimum scan's index is the FIRST position of the least element when that
      element is below `seed`, and -1 exactly when nothing is below `seed`. */
  lemma {:induction false} ArgMinFromIsFirstLeast(seed: real, s: seq<real>)
    ensures var k := ArgMinFrom(seed, s);
            && (k == -1 <==> forall i :: 0 <= i < |s| ==> seed <= s[i])
            && (k != -1 ==> s[k] < seed && (forall i :: 0 <= i < |s| ==> s[k] <= s[i])
                            && (forall i :: 0 <= i < k ==> s[k] < s[i]))
            && MinFrom(seed, s) == if k == -1 then seed else s[k]
  {
    if s != [] {
      ArgMinFromIsFirstLeast(seed, s[..|s| - 1]);
    }
  }

  /** The maximum scan's index is the FIRST position of the greatest element when
      that element is above `seed`, and -1 exactly when nothing is above `seed`. */
  lemma {:induction false} ArgMaxFromIsFirstGreatest(seed: real, s: seq<real>)
    ensures var k := ArgMaxFrom(seed, s);
            && (k == -1 <==> forall i :: 0 <= i < |s| ==> s[i] <= seed)
            && (k != -1 ==> s[k] > seed && (forall i :: 0 <= i < |s| ==> s[i] <= s[k])
                            && (forall i :: 0 <= i < k ==> s[i] < s[k]))
            && MaxFrom(seed, s) == if k == -1 then seed else s[k]
  {
    if s != [] {
      ArgMaxFromIsFirstGreatest(seed, s[..|s| - 1]);
    }
  }

  /** One more step of a left-to-right minimum scan and of its index. */
  lemma MinStep(seed: real, s: seq<real>, i: nat)
    requires i < |s|
    ensures var m := MinFrom(seed, s[..i]);
            && MinFrom(seed, s[..i + 1]) == (if s[i] < m then s[i] else m)
            && ArgMinFrom(seed, s[..i + 1]) == (if s[i] < m then i else ArgMinFrom(seed, s[..i]))
  {
    assert s[..i + 1][..i] == s[..i];
  }

  /** One more step of a left-to-right maximum scan and of its index. */
  lemma MaxStep(seed: real, s: seq<real>, i: nat)
    requires i < |s|
    ensures var m := MaxFrom(seed, s[..i]);
            && MaxFrom(seed, s[..i + 1]) == (if s[i] > m then s[i] else m)
            && ArgMaxFrom(seed, s[..i + 1]) == (if s[i] > m then i else ArgMaxFrom(seed, s[..i]))
  {
    assert s[..i + 1][..i] == s[..i];
  }

  /** One more step of a left-to-right count or filter over `s`. */
  lemma PrefixStep<T>(s: seq<T>, p: T -> bool, i: nat)
    requires i < |s|
    ensures Count(s[..i + 1], p) == Count(s[..i], p) + (if p(s[i]) then 1 else 0)
    ensures IndicesWhere(s[..i + 1], p) == IndicesWhere(s[..i], p) + (if p(s[i]) then [i] else [])
  {
    assert s[..i + 1][..i] == s[..i];
  }

  /** Non-decreasing order. */
  predicate Sorted(s: seq<real>)
  {
    forall i, j :: 0 <= i < j < |s| ==> s[i] <= s[j]
  }

  /** A sum lies between length times any lower bound and length times any upper bound. */
  lemma {:induction false} SumBetween(s: seq<real>, lo: real, hi: real)
    requires forall i :: 0 <= i < |s| ==> lo <= s[i] <= hi
    ensures |s| as real * lo <= Sum(s) <= |s| as real * hi
  {
    if s != [] {
      SumBetween(s[..|s| - 1], lo, hi);
    }
  }

  /** A sequence of `n` copies of `x` sums to `n * x`. */
  lemma {:induction false} SumConstant(s: seq<real>, x: real)
    requires forall i :: 0 <= i < |s| ==> s[i] == x
    ensures Sum(s) == |s| as real * x
  {
    if s != [] {
      SumConstant(s[..|s| - 1], x);
    }
  }

  /** Overwriting one element changes a sum by the difference of the two values. */
  lemma {:induction false} SumUpdate(s: seq<real>, k: nat, x: real)
    requires k < |s|
    ensures Sum(s[k := x]) == Sum(s) - s[k] + x
  {
    if k < |s| - 1 {
      SumUpdate(s[..|s| - 1], k, x);
      assert s[k := x][..|s| - 1] == s[..|s| - 1][k := x];
    } else {
      assert s[k := x][..|s| - 1] == s[..|s| - 1];
    }
  }

  /** Counting is monotone along prefixes. */
  lemma {:induction false} CountPrefix<T>(s: seq<T>, p: T -> bool, i: nat)
    requires i <= |s|
    ensures Count(s[..i], p) <= Count(s, p)
    decreases |s|
  {
    if i < |s| {
      CountPrefix(s[..|s| - 1], p, i);
      assert s[..|s| - 1][..i] == s[..i];
    } else {
      assert s[..i] == s;
    }
  }

  /** When `p` and `q` never hold together and one of them always holds, their
      counts add up to the length. */
  lemma {:induction false} CountComplement<T>(s: seq<T>, p: T -> bool, q: T -> bool)
    requires forall x :: p(x) <==> !q(x)
    ensures Count(s, p) + Count(s, q) == |s|
  {
    if s != [] {
      CountComplement(s[..|s| - 1], p, q);
    }
  }

  /** Overwriting one element changes a count by at most the two elements concerned. */
  lemma {:induction false} CountUpdate<T>(s: seq<T>, p: T -> bool, k: nat, x: T)
    requires k < |s|
    ensures Count(s[k := x], p) + (if p(s[k]) then 1 else 0)
         == Count(s, p) + (if p(x) then 1 else 0)
  {
    if k < |s| - 1 {
      CountUpdate(s[..|s| - 1], p, k, x);
      assert s[k := x][..|s| - 1] == s[..|s| - 1][k := x];
    } else {
      assert s[k := x][..|s| - 1] == s[..|s| - 1];
    }
  }
}

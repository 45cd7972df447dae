/** The array operations the pages build their views with: `filter`, `find` and `map`. */
module Seqs {
  import opened Wrappers

  /** `a` is obtained from `b` by deleting elements, keeping the order of the rest. */
  ghost predicate IsSubsequence<T>(a: seq<T>, b: seq<T>)
    decreases |b|
  {
    |a| == 0 || (|b| > 0 && ((a[0] == b[0] && IsSubsequence(a[1..], b[1..])) || IsSubsequence(a, b[1..])))
  }

  /** `xs.filter(p)`: the elements satisfying `p`, in their original order. */
  function Filter<T>(xs: seq<T>, p: T -> bool): (r: seq<T>)
    ensures |r| <= |xs|
    ensures forall i :: 0 <= i < |r| ==> r[i] in xs && p(r[i])
    ensures forall i :: 0 <= i < |xs| && p(xs[i]) ==> xs[i] in r
    ensures IsSubsequence(r, xs)
    ensures forall i :: 0 <= i < |xs| ==> multiset(r)[xs[i]] == if p(xs[i]) then multiset(xs)[xs[i]] else 0
  {
    if xs == [] then []
    else
      var rest := Filter(xs[1..], p);
      var r := if p(xs[0]) then [xs[0]] + rest else rest;
      CountsStep(xs, xs[1..], p, rest, r);
      r
  }

  /** What `Filter` promises of the tail's filter carries over to the whole sequence. */
  lemma CountsStep<T>(xs: seq<T>, tail: seq<T>, p: T -> bool, rest: seq<T>, r: seq<T>)
    requires xs != [] && tail == xs[1..] && r == if p(xs[0]) then [xs[0]] + rest else rest
    requires |rest| <= |tail|
    requires forall i :: 0 <= i < |rest| ==> rest[i] in tail && p(rest[i])
    requires forall i :: 0 <= i < |tail| && p(tail[i]) ==> tail[i] in rest
    requires forall i :: 0 <= i < |tail| ==> multiset(rest)[tail[i]] == if p(tail[i]) then multiset(tail)[tail[i]] else 0
    ensures |r| <= |xs|
    ensures forall i :: 0 <= i < |r| ==> r[i] in xs && p(r[i])
    ensures forall i :: 0 <= i < |xs| && p(xs[i]) ==> xs[i] in r
    ensures forall i :: 0 <= i < |xs| ==> multiset(r)[xs[i]] == if p(xs[i]) then multiset(xs)[xs[i]] else 0
  {
    assert xs == [xs[0]] + tail;
    assert multiset(xs) == multiset{xs[0]} + multiset(tail);
    if xs[0] !in tail {
      assert xs[0] !in rest;
    }
    forall i | 0 <= i < |r|
      ensures r[i] in xs && p(r[i])
    {
      if p(xs[0]) && i > 0 {
        assert r[i] == rest[i - 1];
      }
    }
    forall i | 0 <= i < |xs|
      ensures (p(xs[i]) ==> xs[i] in r) && multiset(r)[xs[i]] == if p(xs[i]) then multiset(xs)[xs[i]] else 0
    {
      if i > 0 {
        assert xs[i] == tail[i - 1];
      } else if xs[0] in tail {
        var j :| 0 <= j < |tail| && tail[j] == xs[0];
      }
    }
  }

  /** One step of a filter: the head is kept iff it passes. */
  lemma FilterCons<T>(xs: seq<T>, p: T -> bool)
    requires xs != []
    ensures Filter(xs, p) == if p(xs[0]) then [xs[0]] + Filter(xs[1..], p) else Filter(xs[1..], p)
  {
  }

  /** Filtering distributes over concatenation. */
  lemma {:induction false} FilterAppend<T>(xs: seq<T>, ys: seq<T>, p: T -> bool)
    ensures Filter(xs + ys, p) == Filter(xs, p) + Filter(ys, p)
  {
    if xs == [] {
      assert xs + ys == ys;
    } else {
      assert (xs + ys)[1..] == xs[1..] + ys;
      FilterAppend(xs[1..], ys, p);
    }
  }

  /** A filter whose predicate holds of every element keeps the whole sequence. */
  lemma {:induction false} FilterAll<T>(xs: seq<T>, p: T -> bool)
    requires forall i :: 0 <= i < |xs| ==> p(xs[i])
    ensures Filter(xs, p) == xs
  {
    if xs != [] {
      FilterAll(xs[1..], p);
    }
  }

  /** Three predicates that hold of every element exactly one at a time split its filters' lengths. */
  lemma {:induction false} FilterPartition<T>(xs: seq<T>, p: T -> bool, q: T -> bool, s: T -> bool)
    requires forall i :: 0 <= i < |xs| ==> (if p(xs[i]) then 1 else 0) + (if q(xs[i]) then 1 else 0) + (if s(xs[i]) then 1 else 0) == 1
    ensures |Filter(xs, p)| + |Filter(xs, q)| + |Filter(xs, s)| == |xs|
  {
    if xs != [] {
      FilterPartition(xs[1..], p, q, s);
    }
  }

  /** Replacing the element at `k` changes the count of a filter by what the old and the new element contribute. */
  lemma ReplaceCount<T>(xs: seq<T>, k: nat, y: T, p: T -> bool)
    requires k < |xs|
    ensures |Filter(xs[..k] + [y] + xs[k + 1..], p)| + (if p(xs[k]) then 1 else 0)
         == |Filter(xs, p)| + (if p(y) then 1 else 0)
  {
    assert xs == xs[..k] + [xs[k]] + xs[k + 1..];
    FilterAppend(xs[..k] + [y], xs[k + 1..], p);
    FilterAppend(xs[..k], [y], p);
    FilterAppend(xs[..k] + [xs[k]], xs[k + 1..], p);
    FilterAppend(xs[..k], [xs[k]], p);
    assert Filter([y], p) == if p(y) then [y] else [];
    assert Filter([xs[k]], p) == if p(xs[k]) then [xs[k]] else [];
  }

  /** `xs.find(p)`: the first element satisfying `p`, if any. */
  function Find<T>(xs: seq<T>, p: T -> bool): (r: Option<T>)
    ensures r.None? <==> forall i :: 0 <= i < |xs| ==> !p(xs[i])
    ensures r.Some? ==> exists i :: 0 <= i < |xs| && xs[i] == r.value && p(xs[i]) && forall j :: 0 <= j < i ==> !p(xs[j])
  {
    if xs == [] then None
    else if p(xs[0]) then Some(xs[0])
    else
      var r := Find(xs[1..], p);
      assert r.Some? ==> exists i :: 1 <= i < |xs| && xs[i] == r.value && p(xs[i]) && forall j :: 0 <= j < i ==> !p(xs[j]) by {
        if r.Some? {
          var i :| 0 <= i < |xs[1..]| && xs[1..][i] == r.value && p(xs[1..][i]) && forall j :: 0 <= j < i ==> !p(xs[1..][j]);
          assert xs[i + 1] == r.value && p(xs[i + 1]);
          assert forall j :: 0 <= j < i + 1 ==> !p(xs[j]) by {
            forall j | 0 <= j < i + 1 ensures !p(xs[j]) {
              if j > 0 { assert xs[j] == xs[1..][j - 1]; }
            }
          }
        }
      }
      r
  }

  /** The first index whose element satisfies `p` is the element `Find` returns. */
  lemma FindFirst<T>(xs: seq<T>, p: T -> bool, k: nat)
    requires k < |xs| && p(xs[k]) && forall j :: 0 <= j < k ==> !p(xs[j])
    ensures Find(xs, p) == Some(xs[k])
  {
    var r := Find(xs, p);
    var i :| 0 <= i < |xs| && xs[i] == r.value && p(xs[i]) && forall j :: 0 <= j < i ==> !p(xs[j]);
    assert i == k;
  }

  /** Two tests that agree everywhere find the same element. */
  lemma {:induction false} FindAgrees<T>(xs: seq<T>, p: T -> bool, q: T -> bool)
    requires forall x :: p(x) == q(x)
    ensures Find(xs, p) == Find(xs, q)
  {
    if xs != [] {
      FindAgrees(xs[1..], p, q);
    }
  }

  /** `xs.map(x => p(x) ? f(x) : x)`: rewrite the matching elements in place. */
  function MapIf<T>(xs: seq<T>, p: T -> bool, f: T -> T): (r: seq<T>)
    ensures |r| == |xs|
    ensures forall i :: 0 <= i < |xs| ==> r[i] == if p(xs[i]) then f(xs[i]) else xs[i]
  {
    if xs == [] then []
    else [if p(xs[0]) then f(xs[0]) else xs[0]] + MapIf(xs[1..], p, f)
  }

  /** When only the element at `k` matches, rewriting the matches rewrites that one element. */
  lemma MapIfOnlyAt<T>(xs: seq<T>, p: T -> bool, f: T -> T, k: nat)
    requires k < |xs| && p(xs[k])
    requires forall i :: 0 <= i < |xs| && i != k ==> !p(xs[i])
    ensures MapIf(xs, p, f) == xs[..k] + [f(xs[k])] + xs[k + 1..]
  {
    var r, s := MapIf(xs, p, f), xs[..k] + [f(xs[k])] + xs[k + 1..];
    assert |r| == |s|;
    forall i | 0 <= i < |r| ensures r[i] == s[i] {
    }
  }

  /** `xs.map(f)`. */
  function Map<T, U>(xs: seq<T>, f: T -> U): (r: seq<U>)
    ensures |r| == |xs|
    ensures forall i :: 0 <= i < |xs| ==> r[i] == f(xs[i])
  {
    if xs == [] then [] else [f(xs[0])] + Map(xs[1..], f)
  }

  /** Filtering the images is mapping the elements whose image passes. */
  lemma {:induction false} FilterMap<T, U>(xs: seq<T>, f: T -> U, p: U -> bool, q: T -> bool)
    requires forall x :: q(x) == p(f(x))
    ensures Filter(Map(xs, f), p) == Map(Filter(xs, q), f)
  {
    if xs != [] {
      assert Map(xs, f)[1..] == Map(xs[1..], f);
      FilterMap(xs[1..], f, p, q);
    }
  }

  /** Mapping distributes over concatenation. */
  lemma {:induction false} MapAppend<T, U>(xs: seq<T>, ys: seq<T>, f: T -> U)
    ensures Map(xs + ys, f) == Map(xs, f) + Map(ys, f)
  {
    if xs == [] {
      assert xs + ys == ys;
    } else {
      assert (xs + ys)[1..] == xs[1..] + ys;
      MapAppend(xs[1..], ys, f);
    }
  }
}

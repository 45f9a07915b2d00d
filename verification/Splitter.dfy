/** The greedy splitter of the export (`splitFiles`, model/move/cursor.go:48-67), seen as a
    function on the sequence of document sizes, and what it guarantees about every part. */
module Splitter {

  function Sum(sizes: seq<nat>): nat {
    if sizes == [] then 0 else sizes[0] + Sum(sizes[1..])
  }

  function NonEmpty(sizes: seq<nat>): nat {
    if sizes == [] then 0 else (if sizes[0] > 0 then 1 else 0) + NonEmpty(sizes[1..])
  }

  /** A document opens a new part when it exceeds a budget already started. */
  predicate Opens(partsSize: int, remaining: int, size: nat) {
    size > remaining && remaining != partsSize
  }

  function Next(partsSize: int, remaining: int, size: nat): int {
    (if Opens(partsSize, remaining, size) then partsSize else remaining) - size
  }

  /** The indices, counted from `at`, where a new part starts. */
  function Cuts(partsSize: int, remaining: int, sizes: seq<nat>, at: nat): seq<nat>
    decreases |sizes|
  {
    if sizes == [] then []
    else if Opens(partsSize, remaining, sizes[0]) then
      [at] + Cuts(partsSize, Next(partsSize, remaining, sizes[0]), sizes[1..], at + 1)
    else
      Cuts(partsSize, Next(partsSize, remaining, sizes[0]), sizes[1..], at + 1)
  }

  /** The budget left in the last part. */
  function After(partsSize: int, remaining: int, sizes: seq<nat>): int
    decreases |sizes|
  {
    if sizes == [] then remaining
    else After(partsSize, Next(partsSize, remaining, sizes[0]), sizes[1..])
  }

  predicate Ascending(cuts: seq<nat>, lo: nat, hi: nat) {
    && (forall k :: 0 <= k < |cuts| ==> lo <= cuts[k] < hi)
    && (forall j, k :: 0 <= j < k < |cuts| ==> cuts[j] < cuts[k])
  }

  lemma {:induction false} CutsAscend(partsSize: int, remaining: int, sizes: seq<nat>, at: nat)
    ensures Ascending(Cuts(partsSize, remaining, sizes, at), at, at + |sizes|)
    decreases |sizes|
  {
    if sizes != [] {
      CutsAscend(partsSize, Next(partsSize, remaining, sizes[0]), sizes[1..], at + 1);
    }
  }

  /** Carrying the budget over a seam is splitting the two lists as one. */
  lemma {:induction false} Seam(partsSize: int, remaining: int, a: seq<nat>, b: seq<nat>, at: nat)
    ensures Cuts(partsSize, remaining, a + b, at)
         == Cuts(partsSize, remaining, a, at) + Cuts(partsSize, After(partsSize, remaining, a), b, at + |a|)
    ensures After(partsSize, remaining, a + b) == After(partsSize, After(partsSize, remaining, a), b)
    decreases |a|
  {
    if a == [] {
      assert a + b == b;
    } else {
      assert (a + b)[0] == a[0] && (a + b)[1..] == a[1..] + b;
      Seam(partsSize, Next(partsSize, remaining, a[0]), a[1..], b, at + 1);
    }
  }

  lemma {:induction false} Shift(partsSize: int, remaining: int, sizes: seq<nat>, at: nat, d: nat)
    ensures |Cuts(partsSize, remaining, sizes, at + d)| == |Cuts(partsSize, remaining, sizes, at)|
    ensures forall k :: 0 <= k < |Cuts(partsSize, remaining, sizes, at)| ==>
              Cuts(partsSize, remaining, sizes, at + d)[k] == Cuts(partsSize, remaining, sizes, at)[k] + d
    decreases |sizes|
  {
    if sizes != [] {
      Shift(partsSize, Next(partsSize, remaining, sizes[0]), sizes[1..], at + 1, d);
    }
  }

  lemma {:induction false} SumAppend(a: seq<nat>, b: seq<nat>)
    ensures Sum(a + b) == Sum(a) + Sum(b)
    ensures NonEmpty(a + b) == NonEmpty(a) + NonEmpty(b)
    decreases |a|
  {
    if a == [] {
      assert a + b == b;
    } else {
      assert (a + b)[0] == a[0] && (a + b)[1..] == a[1..] + b;
      SumAppend(a[1..], b);
    }
  }

  lemma {:induction false} NoBytes(sizes: seq<nat>)
    ensures Sum(sizes) == 0 <==> NonEmpty(sizes) == 0
    decreases |sizes|
  {
    if sizes != [] {
      NoBytes(sizes[1..]);
    }
  }

  lemma SumSnoc(sizes: seq<nat>, p: nat, i: nat)
    requires p <= i < |sizes|
    ensures Sum(sizes[p..i + 1]) == Sum(sizes[p..i]) + sizes[i]
    ensures NonEmpty(sizes[p..i + 1]) == NonEmpty(sizes[p..i]) + (if sizes[i] > 0 then 1 else 0)
  {
    assert sizes[p..i + 1] == sizes[p..i] + [sizes[i]];
    SumAppend(sizes[p..i], [sizes[i]]);
  }

  /** A part within its budget, or made oversized by its only non-empty document. */
  predicate Fits(partsSize: int, sizes: seq<nat>) {
    Sum(sizes) <= partsSize || NonEmpty(sizes) == 1
  }

  /** The k-th part when the first one starts at `p`. */
  function Start(p: nat, cuts: seq<nat>, k: nat): nat
    requires k <= |cuts|
  {
    if k == 0 then p else cuts[k - 1]
  }

  function End(n: nat, cuts: seq<nat>, k: nat): nat
    requires k <= |cuts|
  {
    if k < |cuts| then cuts[k] else n
  }

  /** The sizes of the documents of the k-th part. */
  function PartAt(sizes: seq<nat>, cuts: seq<nat>, k: nat): seq<nat>
    requires Ascending(cuts, 0, |sizes|) && k <= |cuts|
  {
    sizes[Start(0, cuts, k)..End(|sizes|, cuts, k)]
  }

  /** Every part from `p` on fits, and together they are at most half empty. */
  ghost predicate Balanced(partsSize: int, sizes: seq<nat>, p: nat, cuts: seq<nat>)
    requires p <= |sizes|
    requires Ascending(cuts, p, |sizes|)
  {
    && (forall k :: 0 <= k <= |cuts| ==> Fits(partsSize, sizes[Start(p, cuts, k)..End(|sizes|, cuts, k)]))
    && (|cuts| > 0 ==> p < |sizes| && |cuts| * partsSize < 2 * Sum(sizes[p..]) - sizes[p])
  }

  /** A document that opens no part keeps the current one within its budget. */
  lemma StillFits(partsSize: nat, sizes: seq<nat>, p: nat, i: nat, remaining: int)
    requires p <= i < |sizes|
    requires remaining == partsSize - Sum(sizes[p..i])
    requires !Opens(partsSize, remaining, sizes[i])
    ensures remaining - sizes[i] == partsSize - Sum(sizes[p..i + 1])
    ensures Fits(partsSize, sizes[p..i + 1])
  {
    SumSnoc(sizes, p, i);
    NoBytes(sizes[p..i]);
  }

  /** The state of the splitter before document i, the current part having started at p. */
  lemma {:induction false} GreedyFrom(partsSize: nat, sizes: seq<nat>, p: nat, i: nat, remaining: int)
    requires p <= i <= |sizes|
    requires remaining == partsSize - Sum(sizes[p..i])
    requires Fits(partsSize, sizes[p..i])
    ensures Ascending(Cuts(partsSize, remaining, sizes[i..], i), p, |sizes|)
    ensures Balanced(partsSize, sizes, p, Cuts(partsSize, remaining, sizes[i..], i))
    decreases |sizes| - i
  {
    if i == |sizes| {
      assert Cuts(partsSize, remaining, sizes[i..], i) == [];
    } else if Opens(partsSize, remaining, sizes[i]) {
      NewPart(partsSize, sizes, p, i, remaining);
    } else {
      StillFits(partsSize, sizes, p, i, remaining);
      assert sizes[i..][1..] == sizes[i + 1..];
      assert Cuts(partsSize, remaining, sizes[i..], i)
          == Cuts(partsSize, remaining - sizes[i], sizes[i + 1..], i + 1);
      GreedyFrom(partsSize, sizes, p, i + 1, remaining - sizes[i]);
    }
  }

  /** The case of GreedyFrom where document i opens a part. */
  lemma {:induction false} NewPart(partsSize: nat, sizes: seq<nat>, p: nat, i: nat, remaining: int)
    requires p <= i < |sizes|
    requires remaining == partsSize - Sum(sizes[p..i])
    requires Fits(partsSize, sizes[p..i])
    requires Opens(partsSize, remaining, sizes[i])
    ensures Ascending(Cuts(partsSize, remaining, sizes[i..], i), p, |sizes|)
    ensures Balanced(partsSize, sizes, p, Cuts(partsSize, remaining, sizes[i..], i))
    decreases |sizes| - i, 0
  {
    var later := Cuts(partsSize, partsSize - sizes[i], sizes[i + 1..], i + 1);
    var cuts := [i] + later;
    assert sizes[i..][1..] == sizes[i + 1..];
    assert Cuts(partsSize, remaining, sizes[i..], i) == cuts;
    CutsAscend(partsSize, remaining, sizes[i..], i);
    assert sizes[i..i + 1] == [sizes[i]];
    GreedyFrom(partsSize, sizes, i, i + 1, partsSize - sizes[i]);
    forall k | 0 <= k <= |cuts|
      ensures Fits(partsSize, sizes[Start(p, cuts, k)..End(|sizes|, cuts, k)])
    {
      if k > 0 {
        assert Start(p, cuts, k) == Start(i, later, k - 1) && End(|sizes|, cuts, k) == End(|sizes|, later, k - 1);
      }
    }
    HalfFull(partsSize, sizes, p, i, |later|);
  }

  /** Why the parts are at most half empty: a part and the first document of the next one
      exceed the budget together. */
  lemma HalfFull(partsSize: nat, sizes: seq<nat>, p: nat, i: nat, n: nat)
    requires p <= i < |sizes| && Sum(sizes[p..i]) > 0
    requires Sum(sizes[p..i]) + sizes[i] > partsSize
    requires n > 0 ==> n * partsSize < 2 * Sum(sizes[i..]) - sizes[i]
    ensures (n + 1) * partsSize < 2 * Sum(sizes[p..]) - sizes[p]
  {
    assert sizes[p..] == sizes[p..i] + sizes[i..];
    SumAppend(sizes[p..i], sizes[i..]);
    assert p < i;
    assert sizes[p..i][0] == sizes[p] && sizes[i..][0] == sizes[i];
    assert (n + 1) * partsSize == n * partsSize + partsSize;
  }

  /** The whole run: every part holds at most partsSize bytes or exactly one non-empty
      document, and n cuts need more than n / 2 full parts of data. */
  lemma Greedy(partsSize: nat, sizes: seq<nat>)
    ensures Ascending(Cuts(partsSize, partsSize, sizes, 0), 0, |sizes|)
    ensures var cuts := Cuts(partsSize, partsSize, sizes, 0);
            && (forall k :: 0 <= k <= |cuts| ==> Fits(partsSize, PartAt(sizes, cuts, k)))
            && (|cuts| > 0 ==> |cuts| * partsSize < 2 * Sum(sizes))
  {
    GreedyFrom(partsSize, sizes, 0, 0, partsSize);
    assert sizes[0..] == sizes;
  }

  /** The budget stays within a signed 64-bit integer when the sizes do. */
  lemma {:induction false} BudgetBounds(partsSize: nat, remaining: int, sizes: seq<nat>, max: nat)
    requires forall k :: 0 <= k < |sizes| ==> sizes[k] <= max
    requires 0 - max <= remaining <= partsSize
    ensures 0 - max <= After(partsSize, remaining, sizes) <= partsSize
    decreases |sizes|
  {
    if sizes != [] {
      BudgetBounds(partsSize, Next(partsSize, remaining, sizes[0]), sizes[1..], max);
    }
  }
}

/** Where the greedy splitter cuts, said without its budget: a part is closed by the first
    document that its bytes leave no room for, and by no other one. */
module SplitterExact {
  import opened Splitter

  /** The document i would make the part that starts at `from` too large. */
  predicate TooLarge(partsSize: int, sizes: seq<nat>, from: nat, i: nat)
    requires from <= i < |sizes|
  {
    Sum(sizes[from..i]) > 0 && Sum(sizes[from..i + 1]) > partsSize
  }

  /** No document after the first one, and before `end`, is too large for the part. */
  predicate AllFit(partsSize: int, sizes: seq<nat>, from: nat, end: nat)
    requires end <= |sizes|
  {
    forall i :: from < i < end ==> !TooLarge(partsSize, sizes, from, i)
  }

  /** The part that starts at `from` ends at the first document too large for it, and so do the
      next ones. */
  predicate CutAtFirst(partsSize: int, sizes: seq<nat>, from: nat, cuts: seq<nat>)
    decreases |cuts|
  {
    if cuts == [] then AllFit(partsSize, sizes, from, |sizes|)
    else
      && from < cuts[0] < |sizes| && AllFit(partsSize, sizes, from, cuts[0])
      && TooLarge(partsSize, sizes, from, cuts[0]) && CutAtFirst(partsSize, sizes, cuts[0], cuts[1..])
  }

  /** The code's test on the budget is that. */
  lemma OpensIff(partsSize: nat, sizes: seq<nat>, from: nat, i: nat, remaining: int)
    requires from <= i < |sizes| && remaining == partsSize - Sum(sizes[from..i])
    ensures Opens(partsSize, remaining, sizes[i]) <==> TooLarge(partsSize, sizes, from, i)
    ensures remaining - sizes[i] == partsSize - Sum(sizes[from..i + 1])
  {
    SumSnoc(sizes, from, i);
  }

  lemma CutsStep(partsSize: nat, sizes: seq<nat>, i: nat, remaining: int)
    requires i < |sizes|
    ensures Cuts(partsSize, remaining, sizes[i..], i)
         == if Opens(partsSize, remaining, sizes[i]) then [i] + Cuts(partsSize, partsSize - sizes[i], sizes[i + 1..], i + 1)
            else Cuts(partsSize, remaining - sizes[i], sizes[i + 1..], i + 1)
    ensures sizes[i..i + 1] == [sizes[i]] && Sum(sizes[i..i + 1]) == sizes[i]
  {
    assert sizes[i..][1..] == sizes[i + 1..];
    assert sizes[i..i + 1] == [sizes[i]];
  }

  /** From document i on, the part having started at `from` and nothing having been too large. */
  lemma {:induction false} CutsFrom(partsSize: nat, sizes: seq<nat>, from: nat, i: nat, remaining: int)
    requires from <= i <= |sizes| && remaining == partsSize - Sum(sizes[from..i])
    requires AllFit(partsSize, sizes, from, i)
    ensures CutAtFirst(partsSize, sizes, from, Cuts(partsSize, remaining, sizes[i..], i))
    decreases |sizes| - i
  {
    if i < |sizes| {
      OpensIff(partsSize, sizes, from, i, remaining);
      CutsStep(partsSize, sizes, i, remaining);
      if Opens(partsSize, remaining, sizes[i]) {
        assert from != i;
        var later := Cuts(partsSize, partsSize - sizes[i], sizes[i + 1..], i + 1);
        CutsFrom(partsSize, sizes, i, i + 1, partsSize - sizes[i]);
        assert ([i] + later)[1..] == later;
      } else {
        CutsFrom(partsSize, sizes, from, i + 1, remaining - sizes[i]);
      }
    }
  }

  lemma {:induction false} OnlyCuts(partsSize: nat, sizes: seq<nat>, from: nat, i: nat, remaining: int, cuts: seq<nat>)
    requires from <= i <= |sizes| && remaining == partsSize - Sum(sizes[from..i])
    requires CutAtFirst(partsSize, sizes, from, cuts) && (cuts == [] || i <= cuts[0])
    ensures cuts == Cuts(partsSize, remaining, sizes[i..], i)
    decreases |sizes| - i
  {
    if i < |sizes| {
      OpensIff(partsSize, sizes, from, i, remaining);
      CutsStep(partsSize, sizes, i, remaining);
      if cuts != [] && cuts[0] == i {
        OnlyCuts(partsSize, sizes, i, i + 1, partsSize - sizes[i], cuts[1..]);
        assert cuts == [i] + cuts[1..];
      } else {
        assert sizes[i..i] == [];
        OnlyCuts(partsSize, sizes, from, i + 1, remaining - sizes[i], cuts);
      }
    }
  }

  /** The splitter cuts at the first document that each part has no room for, and nowhere else:
      this is the only way to cut with that property. */
  lemma CutsExactly(partsSize: nat, sizes: seq<nat>, cuts: seq<nat>)
    ensures cuts == Cuts(partsSize, partsSize, sizes, 0) <==> CutAtFirst(partsSize, sizes, 0, cuts)
  {
    assert sizes[0..] == sizes && sizes[0..0] == [];
    CutsFrom(partsSize, sizes, 0, 0, partsSize);
    if CutAtFirst(partsSize, sizes, 0, cuts) {
      OnlyCuts(partsSize, sizes, 0, 0, partsSize, cuts);
    }
  }

  /** The same of the k-th part: the document that ends it leaves it non-empty and is too large,
      and every document inside of it either follows empty ones only or fits. */
  lemma {:induction false} PartEnds(partsSize: nat, sizes: seq<nat>, from: nat, cuts: seq<nat>, k: nat)
    requires CutAtFirst(partsSize, sizes, from, cuts) && from <= |sizes| && k <= |cuts|
    ensures var start, end := Start(from, cuts, k), End(|sizes|, cuts, k);
            && start <= end <= |sizes|
            && (k < |cuts| ==> end < |sizes| && Sum(sizes[start..end]) > 0 && Sum(sizes[start..end + 1]) > partsSize)
            && (forall i :: start < i < end ==> Sum(sizes[start..i]) == 0 || Sum(sizes[start..i + 1]) <= partsSize)
    decreases k
  {
    if k > 0 {
      PartEnds(partsSize, sizes, cuts[0], cuts[1..], k - 1);
      assert Start(cuts[0], cuts[1..], k - 1) == Start(from, cuts, k);
      assert End(|sizes|, cuts[1..], k - 1) == End(|sizes|, cuts, k);
    } else {
      forall i | from < i < End(|sizes|, cuts, 0)
        ensures Sum(sizes[from..i]) == 0 || Sum(sizes[from..i + 1]) <= partsSize
      {
        assert !TooLarge(partsSize, sizes, from, i);
      }
    }
  }

  lemma PartIsFull(partsSize: nat, sizes: seq<nat>, k: nat)
    requires k <= |Cuts(partsSize, partsSize, sizes, 0)|
    ensures var cuts := Cuts(partsSize, partsSize, sizes, 0);
            var start, end := Start(0, cuts, k), End(|sizes|, cuts, k);
            && start <= end <= |sizes|
            && (k < |cuts| ==> end < |sizes| && Sum(sizes[start..end]) > 0 && Sum(sizes[start..end + 1]) > partsSize)
            && (forall i :: start < i < end ==> Sum(sizes[start..i]) == 0 || Sum(sizes[start..i + 1]) <= partsSize)
  {
    CutsExactly(partsSize, sizes, Cuts(partsSize, partsSize, sizes, 0));
    PartEnds(partsSize, sizes, 0, Cuts(partsSize, partsSize, sizes, 0), k);
  }

  /** In particular, what fits in one part is not cut. */
  lemma OnePart(partsSize: nat, sizes: seq<nat>)
    requires Sum(sizes) <= partsSize
    ensures Cuts(partsSize, partsSize, sizes, 0) == []
  {
    forall i | 0 < i < |sizes| ensures !TooLarge(partsSize, sizes, 0, i) {
      assert sizes == sizes[0..i + 1] + sizes[i + 1..];
      SumAppend(sizes[0..i + 1], sizes[i + 1..]);
    }
    CutsExactly(partsSize, sizes, []);
  }

  /** The cuts of the files and those of the versions, after the files' in the concatenation. */
  lemma CutsOfSeam(partsSize: nat, files: seq<nat>, versions: seq<nat>)
    ensures Cuts(partsSize, partsSize, files + versions, 0)
         == Cuts(partsSize, partsSize, files, 0)
            + Shifted(Cuts(partsSize, After(partsSize, partsSize, files), versions, 0), |files|)
    ensures Ascending(Cuts(partsSize, partsSize, files, 0), 0, |files|)
  {
    Seam(partsSize, partsSize, files, versions, 0);
    Shift(partsSize, After(partsSize, partsSize, files), versions, 0, |files|);
    CutsAscend(partsSize, partsSize, files, 0);
  }

  /** The cuts of an export, across the seam between its files and its versions: cutting the files
      at fc and the versions at vc is right only when each part, of files, of versions or of both,
      ends at the first document it has no room for. */
  lemma ExportCutsExactly(partsSize: nat, files: seq<nat>, versions: seq<nat>, fc: seq<nat>, vc: seq<nat>)
    requires forall k :: 0 <= k < |fc| ==> fc[k] < |files|
    ensures fc == Cuts(partsSize, partsSize, files, 0)
         && vc == Cuts(partsSize, After(partsSize, partsSize, files), versions, 0)
       <==> CutAtFirst(partsSize, files + versions, 0, fc + Shifted(vc, |files|))
  {
    CutsOfSeam(partsSize, files, versions);
    CutsExactly(partsSize, files + versions, fc + Shifted(vc, |files|));
    if fc + Shifted(vc, |files|) == Cuts(partsSize, partsSize, files + versions, 0) {
      SameHalves(fc + Shifted(vc, |files|), fc, vc, Cuts(partsSize, partsSize, files, 0),
                 Cuts(partsSize, After(partsSize, partsSize, files), versions, 0), |files|);
    }
  }

  function Shifted(cuts: seq<nat>, d: nat): (r: seq<nat>)
    ensures |r| == |cuts|
  {
    seq(|cuts|, k requires 0 <= k < |cuts| => cuts[k] + d)
  }

  lemma Halves(s: seq<nat>, a: seq<nat>, b: seq<nat>, n: nat)
    requires s == a + Shifted(b, n) && forall k :: 0 <= k < |a| ==> a[k] < n
    ensures forall k :: 0 <= k < |a| ==> s[k] < n
    ensures |a| < |s| ==> s[|a|] >= n
    ensures |s| == |a| + |b| && a == s[..|a|]
    ensures forall k :: 0 <= k < |b| ==> b[k] == s[|a| + k] - n
  {
  }

  lemma SameHalves(s: seq<nat>, a: seq<nat>, b: seq<nat>, c: seq<nat>, d: seq<nat>, n: nat)
    requires s == a + Shifted(b, n) && s == c + Shifted(d, n)
    requires forall k :: 0 <= k < |a| ==> a[k] < n
    requires forall k :: 0 <= k < |c| ==> c[k] < n
    ensures a == c && b == d
  {
    Halves(s, a, b, n);
    Halves(s, c, d, n);
  }
}

/** The sizes of the parts, on the snapshot the cursors were computed from. */
module ExportSizes {
  import opened Text
  import opened AllDocs
  import opened Splitter
  import opened Export
  import opened ExportParts

  function IDs(docs: seq<Row>): (ids: seq<string>)
    ensures |ids| == |docs|
    ensures forall i :: 0 <= i < |ids| ==> ids[i] == docs[i].id
  {
    seq(|docs|, i requires 0 <= i < |docs| => docs[i].id)
  }

  function Sizes(docs: seq<Row>): (sizes: seq<nat>)
    ensures |sizes| == |docs|
    ensures forall i :: 0 <= i < |sizes| ==> sizes[i] == docs[i].size
  {
    seq(|docs|, i requires 0 <= i < |docs| => docs[i].size)
  }

  /** The files (or the versions) of a snapshot. */
  function Docs(rows: seq<Row>, filesOnly: bool): seq<Row> {
    Pick(rows, Part("", MAX_STRING, filesOnly))
  }

  // ---------------------------------------------------------------- the size maps

  /** The map `exportFiles` fills while walking the documents. */
  function SizeMap(docs: seq<Row>): map<string, nat> {
    if docs == [] then map[] else SizeMap(docs[1..])[docs[0].id := docs[0].size]
  }

  lemma {:induction false} SizeMapKeys(docs: seq<Row>, id: string)
    ensures id in SizeMap(docs) <==> id in IDs(docs)
    decreases |docs|
  {
    if docs != [] {
      SizeMapKeys(docs[1..], id);
      assert IDs(docs) == [docs[0].id] + IDs(docs[1..]);
    }
  }

  lemma {:induction false} SizeMapAt(docs: seq<Row>, i: int)
    requires Snapshot(docs) && 0 <= i < |docs|
    ensures docs[i].id in SizeMap(docs) && SizeMap(docs)[docs[i].id] == docs[i].size
    decreases |docs|
  {
    if i > 0 {
      LessAsymmetric(docs[0].id, docs[i].id);
      SizeMapAt(docs[1..], i - 1);
    }
  }

  lemma SizeMapHas(docs: seq<Row>)
    requires Snapshot(docs)
    ensures forall id :: id in SizeMap(docs) <==> id in IDs(docs)
    ensures forall i :: 0 <= i < |docs| ==> docs[i].id in SizeMap(docs) && SizeMap(docs)[docs[i].id] == docs[i].size
  {
    forall id ensures id in SizeMap(docs) <==> id in IDs(docs) {
      SizeMapKeys(docs, id);
    }
    forall i | 0 <= i < |docs| ensures docs[i].id in SizeMap(docs) && SizeMap(docs)[docs[i].id] == docs[i].size {
      SizeMapAt(docs, i);
    }
  }

  /** The IDs and sizes that the splitter sees are those of the documents, in ID order. */
  lemma SplitInput(docs: seq<Row>, ids: seq<string>)
    requires Snapshot(docs) && SortedKeys(ids, SizeMap(docs))
    ensures ids == IDs(docs)
    ensures forall id :: id in ids ==> id in SizeMap(docs)
    ensures SizesOf(ids, SizeMap(docs)) == Sizes(docs)
  {
    SizeMapHas(docs);
    forall id ensures id in ids <==> id in IDs(docs) {
      assert id in ids <==> id in (set x | x in ids);
    }
    SortedKeysUnique(ids, IDs(docs));
  }

  // ---------------------------------------------------------------- parts as slices

  /** In a sorted list, the documents between two of its IDs are a slice. */
  lemma SliceOfDocs(docs: seq<Row>, filesOnly: bool, lo: string, hi: string, a: nat, b: nat)
    requires Snapshot(docs) && a <= b <= |docs|
    requires forall i :: 0 <= i < |docs| ==> Part("", MAX_STRING, filesOnly).Accepts(docs[i])
    requires (lo == "" && a == 0) || (a < |docs| && lo == docs[a].id)
    requires (hi == MAX_STRING && b == |docs|) || (b < |docs| && hi == docs[b].id)
    ensures Pick(docs, Part(lo, hi, filesOnly)) == docs[a..b]
  {
    var q := Part(lo, hi, filesOnly);
    forall i | 0 <= i < |docs| ensures q.Accepts(docs[i]) <==> a <= i < b {
      InSlice(docs, filesOnly, lo, hi, a, b, i);
    }
    SliceOfPick(docs, q, a, b);
  }

  lemma InSlice(docs: seq<Row>, filesOnly: bool, lo: string, hi: string, a: nat, b: nat, i: nat)
    requires Snapshot(docs) && a <= b <= |docs| && i < |docs|
    requires Part("", MAX_STRING, filesOnly).Accepts(docs[i])
    requires (lo == "" && a == 0) || (a < |docs| && lo == docs[a].id)
    requires (hi == MAX_STRING && b == |docs|) || (b < |docs| && hi == docs[b].id)
    ensures Part(lo, hi, filesOnly).Accepts(docs[i]) <==> a <= i < b
  {
    if i < a {
      LessAsymmetric(docs[i].id, docs[a].id);
    }
    if b <= i {
      if b == i {
        LessIrreflexive(docs[i].id);
      } else {
        LessAsymmetric(docs[b].id, docs[i].id);
      }
    }
  }

  lemma SliceOfPick(docs: seq<Row>, q: Query, a: nat, b: nat)
    requires a <= b <= |docs|
    requires forall i :: 0 <= i < |docs| ==> (q.Accepts(docs[i]) <==> a <= i < b)
    ensures Pick(docs, q) == docs[a..b]
  {
    assert docs == docs[..a] + (docs[a..b] + docs[b..]);
    PickAppend(docs[..a], docs[a..b] + docs[b..], q);
    PickAppend(docs[a..b], docs[b..], q);
    PickNothing(docs[..a], q);
    PickAll(docs[a..b], q);
    PickNothing(docs[b..], q);
  }

  /** The part of a snapshot is the part of its documents. */
  lemma PartOfDocs(rows: seq<Row>, filesOnly: bool, lo: string, hi: string)
    requires Snapshot(rows) && AtMost(hi, MAX_STRING)
    ensures Pick(rows, Part(lo, hi, filesOnly)) == Pick(Docs(rows, filesOnly), Part(lo, hi, filesOnly))
  {
    forall r | r in rows
      ensures Part(lo, hi, filesOnly).Accepts(r)
           == (Part("", MAX_STRING, filesOnly).Accepts(r) && Part(lo, hi, filesOnly).Accepts(r))
    {
      if Less(r.id, hi) && hi != MAX_STRING {
        LessTransitive(r.id, hi, MAX_STRING);
      }
    }
    PickTwice(rows, Part("", MAX_STRING, filesOnly), Part(lo, hi, filesOnly), Part(lo, hi, filesOnly));
  }

  lemma DocsAccepted(rows: seq<Row>, filesOnly: bool)
    requires Snapshot(rows)
    ensures Snapshot(Docs(rows, filesOnly))
    ensures forall i :: 0 <= i < |Docs(rows, filesOnly)| ==>
              Part("", MAX_STRING, filesOnly).Accepts(Docs(rows, filesOnly)[i])
  {
    var q := Part("", MAX_STRING, filesOnly);
    PickSnapshot(rows, q);
    forall i | 0 <= i < |Docs(rows, filesOnly)| ensures q.Accepts(Docs(rows, filesOnly)[i]) {
      PickIn(rows, q, i);
    }
  }

  lemma CutIDsOfDocs(rows: seq<Row>, filesOnly: bool, cuts: seq<nat>)
    requires Snapshot(rows) && Ascending(cuts, 0, |Docs(rows, filesOnly)|)
    ensures CutIDs(AtCuts(IDs(Docs(rows, filesOnly)), cuts))
  {
    DocsAccepted(rows, filesOnly);
  }

  /** The k-th part among the documents of one doctype. */
  lemma DocsOfPart(rows: seq<Row>, filesOnly: bool, cuts: seq<nat>, k: nat)
    requires Snapshot(rows) && Ascending(cuts, 0, |Docs(rows, filesOnly)|) && k <= |cuts|
    ensures Start(0, cuts, k) <= End(|Docs(rows, filesOnly)|, cuts, k) <= |Docs(rows, filesOnly)|
    ensures var docs := Docs(rows, filesOnly);
            var ids := AtCuts(IDs(docs), cuts);
            Pick(rows, Part(From(ids, k), UpTo(ids, k), filesOnly))
            == docs[Start(0, cuts, k)..End(|docs|, cuts, k)]
  {
    var docs := Docs(rows, filesOnly);
    var ids := AtCuts(IDs(docs), cuts);
    DocsAccepted(rows, filesOnly);
    CutIDsOfDocs(rows, filesOnly, cuts);
    PartOfDocs(rows, filesOnly, From(ids, k), UpTo(ids, k));
    SliceOfDocs(docs, filesOnly, From(ids, k), UpTo(ids, k), Start(0, cuts, k), End(|docs|, cuts, k));
  }

  // ---------------------------------------------------------------- both doctypes

  ghost function FCuts(partsSize: nat, files: seq<Row>): seq<nat> {
    Cuts(partsSize, partsSize, Sizes(files), 0)
  }

  ghost function VCuts(partsSize: nat, files: seq<Row>, versions: seq<Row>): seq<nat> {
    Cuts(partsSize, After(partsSize, partsSize, Sizes(files)), Sizes(versions), 0)
  }

  /** The cursors `exportFiles` computes from a snapshot. */
  ghost function CursorsOf(partsSize: nat, files: seq<Row>, versions: seq<Row>): seq<string> {
    PartsCursors(partsSize, IDs(files), Sizes(files), IDs(versions), Sizes(versions))
  }

  /** The documents of the k-th part: first its files, then its versions. */
  ghost function PartDocs(frows: seq<Row>, vrows: seq<Row>, cursors: seq<string>, k: nat): Result<seq<Row>>
    requires k <= |cursors|
  {
    match ParseCursor(cursors, PartString(cursors, k))
    case InvalidCursor => InvalidCursor
    case Ok(start) => Concat(FilesOfPart(frows, cursors, start), VersionsOfPart(vrows, cursors, start))
  }

  /** Where the cuts are in the files followed by the versions. */
  lemma CutsOfBoth(partsSize: nat, files: seq<Row>, versions: seq<Row>)
    ensures Ascending(FCuts(partsSize, files), 0, |files|)
    ensures Ascending(VCuts(partsSize, files, versions), 0, |versions|)
    ensures Ascending(Cuts(partsSize, partsSize, Sizes(files) + Sizes(versions), 0), 0, |files| + |versions|)
    ensures var both := Cuts(partsSize, partsSize, Sizes(files) + Sizes(versions), 0);
            var fc, vc := FCuts(partsSize, files), VCuts(partsSize, files, versions);
            && |both| == |fc| + |vc|
            && (forall k :: 0 <= k < |fc| ==> both[k] == fc[k])
            && (forall k :: 0 <= k < |vc| ==> both[|fc| + k] == |files| + vc[k])
  {
    var remaining := After(partsSize, partsSize, Sizes(files));
    CutsAscend(partsSize, partsSize, Sizes(files), 0);
    CutsAscend(partsSize, remaining, Sizes(versions), 0);
    CutsAscend(partsSize, partsSize, Sizes(files) + Sizes(versions), 0);
    Seam(partsSize, partsSize, Sizes(files), Sizes(versions), 0);
    Shift(partsSize, remaining, Sizes(versions), 0, |files|);
  }

  /** Cutting a concatenation: the slice of the k-th part is made of a slice of each half. */
  lemma SliceOfBoth(f: seq<nat>, v: seq<nat>, fc: seq<nat>, vc: seq<nat>, both: seq<nat>, k: nat)
    requires Ascending(fc, 0, |f|) && Ascending(vc, 0, |v|)
    requires |both| == |fc| + |vc| && k <= |both|
    requires forall i :: 0 <= i < |fc| ==> both[i] == fc[i]
    requires forall i :: 0 <= i < |vc| ==> both[|fc| + i] == |f| + vc[i]
    ensures Start(0, both, k) <= End(|f + v|, both, k) <= |f + v|
    ensures k < |fc| ==>
              (f + v)[Start(0, both, k)..End(|f + v|, both, k)] == f[Start(0, fc, k)..End(|f|, fc, k)]
    ensures k == |fc| ==>
              (f + v)[Start(0, both, k)..End(|f + v|, both, k)] == f[Start(0, fc, k)..] + v[..End(|v|, vc, 0)]
    ensures k > |fc| ==>
              (f + v)[Start(0, both, k)..End(|f + v|, both, k)]
              == v[Start(0, vc, k - |fc|)..End(|v|, vc, k - |fc|)]
  {
    if |fc| <= k < |both| {
      assert both[k] == both[|fc| + (k - |fc|)] == |f| + vc[k - |fc|];
    }
    if |fc| < k {
      assert both[k - 1] == both[|fc| + (k - 1 - |fc|)] == |f| + vc[k - 1 - |fc|];
    }
  }

  function FileSlice(files: seq<Row>, fc: seq<nat>, k: nat): seq<Row>
    requires Ascending(fc, 0, |files|)
  {
    if k <= |fc| then files[Start(0, fc, k)..End(|files|, fc, k)] else []
  }

  function VersionSlice(versions: seq<Row>, vc: seq<nat>, first: nat, k: nat): seq<Row>
    requires Ascending(vc, 0, |versions|) && k <= first + |vc|
  {
    if k < first then [] else versions[Start(0, vc, k - first)..End(|versions|, vc, k - first)]
  }

  /** The listings of the k-th part are beginnings of a slice of the files and one of the versions. */
  lemma FilesWithin(rows: seq<Row>, fc: seq<nat>, vids: seq<string>, k: nat) returns (docs: seq<Row>)
    requires Snapshot(rows) && Ascending(fc, 0, |Docs(rows, true)|) && CutIDs(vids) && k <= |fc| + |vids|
    ensures var fids := AtCuts(IDs(Docs(rows, true)), fc);
            FilesOfPart(rows, AllCursors(fids, vids), PartCursor(fids, vids, k)) == Ok(docs)
    ensures docs <= FileSlice(Docs(rows, true), fc, k)
  {
    var fids := AtCuts(IDs(Docs(rows, true)), fc);
    CutIDsOfDocs(rows, true, fc);
    FilesOfOnePart(rows, fids, vids, k);
    if k <= |fc| {
      docs := Listed(rows, From(fids, k), UpTo(fids, k), true);
      OneRange(rows, fids, true, k);
      DocsOfPart(rows, true, fc, k);
    } else {
      docs := [];
    }
  }

  lemma VersionsWithin(rows: seq<Row>, fids: seq<string>, vc: seq<nat>, k: nat) returns (docs: seq<Row>)
    requires Snapshot(rows) && Ascending(vc, 0, |Docs(rows, false)|) && CutIDs(fids) && k <= |fids| + |vc|
    ensures var vids := AtCuts(IDs(Docs(rows, false)), vc);
            VersionsOfPart(rows, AllCursors(fids, vids), PartCursor(fids, vids, k)) == Ok(docs)
    ensures docs <= VersionSlice(Docs(rows, false), vc, |fids|, k)
  {
    var vids := AtCuts(IDs(Docs(rows, false)), vc);
    CutIDsOfDocs(rows, false, vc);
    VersionsOfOnePart(rows, fids, vids, k);
    if k >= |fids| {
      docs := Listed(rows, From(vids, k - |fids|), UpTo(vids, k - |fids|), false);
      OneRange(rows, vids, false, k - |fids|);
      DocsOfPart(rows, false, vc, k - |fids|);
    } else {
      docs := [];
    }
  }

  lemma PartWithin(frows: seq<Row>, vrows: seq<Row>, fc: seq<nat>, vc: seq<nat>, k: nat)
    returns (files: seq<Row>, versions: seq<Row>)
    requires Snapshot(frows) && Ascending(fc, 0, |Docs(frows, true)|)
    requires Snapshot(vrows) && Ascending(vc, 0, |Docs(vrows, false)|) && k <= |fc| + |vc|
    ensures files <= FileSlice(Docs(frows, true), fc, k)
    ensures versions <= VersionSlice(Docs(vrows, false), vc, |fc|, k)
    ensures var cursors := AllCursors(AtCuts(IDs(Docs(frows, true)), fc), AtCuts(IDs(Docs(vrows, false)), vc));
            PartDocs(frows, vrows, cursors, k) == Ok(files + versions)
  {
    var fids, vids := AtCuts(IDs(Docs(frows, true)), fc), AtCuts(IDs(Docs(vrows, false)), vc);
    CutIDsOfDocs(frows, true, fc);
    CutIDsOfDocs(vrows, false, vc);
    CursorRoundTrip(fids, vids, k);
    files := FilesWithin(frows, fc, vids, k);
    versions := VersionsWithin(vrows, fids, vc, k);
  }

  // ---------------------------------------------------------------- sizes

  lemma SizesOfSlice(docs: seq<Row>, a: nat, b: nat)
    requires a <= b <= |docs|
    ensures Sizes(docs[a..b]) == Sizes(docs)[a..b]
  {
  }

  /** The sizes of the two slices of the k-th part are the k-th slice of all the sizes. */
  lemma SlicesAgree(files: seq<Row>, versions: seq<Row>, fc: seq<nat>, vc: seq<nat>, both: seq<nat>, k: nat)
    requires Ascending(fc, 0, |files|) && Ascending(vc, 0, |versions|)
    requires |both| == |fc| + |vc| && k <= |both|
    requires forall i :: 0 <= i < |fc| ==> both[i] == fc[i]
    requires forall i :: 0 <= i < |vc| ==> both[|fc| + i] == |files| + vc[i]
    requires Ascending(both, 0, |Sizes(files) + Sizes(versions)|)
    ensures Sizes(FileSlice(files, fc, k)) + Sizes(VersionSlice(versions, vc, |fc|, k))
         == PartAt(Sizes(files) + Sizes(versions), both, k)
  {
    SliceOfBoth(Sizes(files), Sizes(versions), fc, vc, both, k);
    if k < |fc| {
      SizesOfSlice(files, Start(0, fc, k), End(|files|, fc, k));
      assert Sizes([]) == [];
    } else if k == |fc| {
      SizesOfSlice(files, Start(0, fc, k), |files|);
      SizesOfSlice(versions, 0, End(|versions|, vc, 0));
      assert Sizes(files)[Start(0, fc, k)..] == Sizes(files)[Start(0, fc, k)..|files|];
    } else {
      SizesOfSlice(versions, Start(0, vc, k - |fc|), End(|versions|, vc, k - |fc|));
      assert Sizes([]) == [];
    }
  }

  lemma BeginningSizes(docs: seq<Row>, all: seq<Row>)
    requires docs <= all
    ensures Sum(Sizes(docs)) <= Sum(Sizes(all)) && NonEmpty(Sizes(docs)) <= NonEmpty(Sizes(all))
  {
    assert all == docs + all[|docs|..];
    assert Sizes(all) == Sizes(docs) + Sizes(all[|docs|..]);
    SumAppend(Sizes(docs), Sizes(all[|docs|..]));
  }

  /** Listing less of a part that fits cannot make it too large. */
  lemma StillFitsWithin(partsSize: nat, f: seq<Row>, fs: seq<Row>, v: seq<Row>, vs: seq<Row>)
    requires f <= fs && v <= vs && Fits(partsSize, Sizes(fs) + Sizes(vs))
    ensures Fits(partsSize, Sizes(f + v))
  {
    BeginningSizes(f, fs);
    BeginningSizes(v, vs);
    SumAppend(Sizes(fs), Sizes(vs));
    SumAppend(Sizes(f), Sizes(v));
    assert Sizes(f + v) == Sizes(f) + Sizes(v);
    NoBytes(Sizes(f + v));
  }

  lemma SliceFits(partsSize: nat, files: seq<Row>, versions: seq<Row>, k: nat)
    requires k <= |CursorsOf(partsSize, files, versions)|
    ensures var fc, vc := FCuts(partsSize, files), VCuts(partsSize, files, versions);
            && Ascending(fc, 0, |files|) && Ascending(vc, 0, |versions|) && k <= |fc| + |vc|
            && Fits(partsSize, Sizes(FileSlice(files, fc, k)) + Sizes(VersionSlice(versions, vc, |fc|, k)))
  {
    var both := Cuts(partsSize, partsSize, Sizes(files) + Sizes(versions), 0);
    CutsOfBoth(partsSize, files, versions);
    Greedy(partsSize, Sizes(files) + Sizes(versions));
    SlicesAgree(files, versions, FCuts(partsSize, files), VCuts(partsSize, files, versions), both, k);
  }

  /** Every part of an export, listed rightly or not, holds at most PartsSize bytes unless it
      contains exactly one non-empty document. */
  lemma PartSizes(partsSize: nat, frows: seq<Row>, vrows: seq<Row>, k: nat)
    requires Snapshot(frows) && Snapshot(vrows)
    requires k <= |CursorsOf(partsSize, Docs(frows, true), Docs(vrows, false))|
    ensures var part := PartDocs(frows, vrows, CursorsOf(partsSize, Docs(frows, true), Docs(vrows, false)), k);
            part.Ok? && Fits(partsSize, Sizes(part.value))
  {
    var files, versions := Docs(frows, true), Docs(vrows, false);
    var fc, vc := FCuts(partsSize, files), VCuts(partsSize, files, versions);
    SliceFits(partsSize, files, versions, k);
    var f, v := PartWithin(frows, vrows, fc, vc, k);
    StillFitsWithin(partsSize, f, FileSlice(files, fc, k), v, VersionSlice(versions, vc, |fc|, k));
  }

  /** And n cursors mean more than n * PartsSize / 2 bytes of data. */
  lemma PartCount(partsSize: nat, frows: seq<Row>, vrows: seq<Row>)
    ensures var files, versions := Docs(frows, true), Docs(vrows, false);
            var n := |CursorsOf(partsSize, files, versions)|;
            n > 0 ==> n * partsSize < 2 * Sum(Sizes(files) + Sizes(versions))
  {
    var files, versions := Docs(frows, true), Docs(vrows, false);
    CutsOfBoth(partsSize, files, versions);
    Greedy(partsSize, Sizes(files) + Sizes(versions));
  }
}

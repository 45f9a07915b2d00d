/** What the parts of an export are, all together: an exact partition of the files and of the
    versions, made of parts of bounded size. */
module ExportParts {
  import opened Text
  import opened AllDocs
  import opened Splitter
  import opened Export

  // ---------------------------------------------------------------- cursors

  /** The IDs where parts start, for one doctype. */
  predicate CutIDs(cuts: seq<string>) {
    && Increasing(cuts)
    && forall k :: 0 <= k < |cuts| ==> cuts[k] != "" && Less(cuts[k], MAX_STRING)
  }

  /** The string a client uses to ask for the k-th part. */
  function PartString(cursors: seq<string>, k: nat): string
    requires k <= |cursors|
  {
    if k == 0 then "" else cursors[k - 1]
  }

  function PartCursor(fcuts: seq<string>, vcuts: seq<string>, k: nat): Cursor
    requires k <= |fcuts| + |vcuts|
  {
    if k == 0 then Cursor(0, FILES, "")
    else if k <= |fcuts| then Cursor(k, FILES, fcuts[k - 1])
    else Cursor(k, VERSIONS, vcuts[k - 1 - |fcuts|])
  }

  lemma GluedDiffer(d: string, i: string, e: string, j: string)
    requires '/' !in d && '/' !in e && (d != e || i != j)
    ensures Cursor(0, d, i).String() != Cursor(0, e, j).String()
  {
    ParseOfString(0, d, i);
    ParseOfString(0, e, j);
  }

  lemma StringOfPart(fcuts: seq<string>, vcuts: seq<string>, k: nat)
    requires 0 < k <= |fcuts| + |vcuts|
    ensures AllCursors(fcuts, vcuts)[k - 1] == PartCursor(fcuts, vcuts, k).String() != ""
    ensures '/' !in PartCursor(fcuts, vcuts, k).doctype
  {
    var c := PartCursor(fcuts, vcuts, k);
    assert AllCursors(fcuts, vcuts)[k - 1] == c.String();
    assert |c.String()| > |c.doctype|;
  }

  lemma IDsDiffer(cuts: seq<string>, i: nat, j: nat)
    requires CutIDs(cuts) && i < j < |cuts|
    ensures cuts[i] != cuts[j]
  {
    LessAsymmetric(cuts[i], cuts[j]);
  }

  predicate Distinct(cursors: seq<string>) {
    forall i, j :: 0 <= i < j < |cursors| ==> cursors[i] != cursors[j]
  }

  lemma CursorsDistinct(fcuts: seq<string>, vcuts: seq<string>)
    requires CutIDs(fcuts) && CutIDs(vcuts)
    ensures Distinct(AllCursors(fcuts, vcuts))
  {
    var cursors := AllCursors(fcuts, vcuts);
    forall i, j | 0 <= i < j < |cursors| ensures cursors[i] != cursors[j] {
      TwoCursors(fcuts, vcuts, i, j);
    }
  }

  lemma TwoCursors(fcuts: seq<string>, vcuts: seq<string>, i: nat, j: nat)
    requires CutIDs(fcuts) && CutIDs(vcuts)
    requires i < j < |fcuts| + |vcuts|
    ensures AllCursors(fcuts, vcuts)[i] != AllCursors(fcuts, vcuts)[j]
  {
    var a, b := PartCursor(fcuts, vcuts, i + 1), PartCursor(fcuts, vcuts, j + 1);
    StringOfPart(fcuts, vcuts, i + 1);
    StringOfPart(fcuts, vcuts, j + 1);
    if j < |fcuts| {
      IDsDiffer(fcuts, i, j);
    } else if |fcuts| <= i {
      IDsDiffer(vcuts, i - |fcuts|, j - |fcuts|);
    } else {
      assert |FILES| != |VERSIONS|;
    }
    GluedDiffer(a.doctype, a.id, b.doctype, b.id);
  }

  lemma {:induction false} FindsOwn(cursors: seq<string>, k: nat, i: nat)
    requires Distinct(cursors) && i <= k < |cursors|
    ensures FindCursor(cursors, cursors[k], i) == ParseNumbered(k + 1, cursors[k])
    decreases k - i
  {
    if i < k {
      FindsOwn(cursors, k, i + 1);
    }
  }

  /** Every emitted cursor string parses back to its own part number, doctype and ID. */
  lemma CursorRoundTrip(fcuts: seq<string>, vcuts: seq<string>, k: nat)
    requires CutIDs(fcuts) && CutIDs(vcuts) && k <= |fcuts| + |vcuts|
    ensures var cursors := AllCursors(fcuts, vcuts);
            ParseCursor(cursors, PartString(cursors, k)) == Ok(PartCursor(fcuts, vcuts, k))
  {
    if k > 0 {
      var c := PartCursor(fcuts, vcuts, k);
      CursorsDistinct(fcuts, vcuts);
      FindsOwn(AllCursors(fcuts, vcuts), k - 1, 0);
      StringOfPart(fcuts, vcuts, k);
      ParseOfString(k, c.doctype, c.id);
    }
  }

  lemma EndOfPart(fcuts: seq<string>, vcuts: seq<string>, k: nat)
    requires CutIDs(fcuts) && CutIDs(vcuts) && k <= |fcuts| + |vcuts|
    ensures EndCursor(AllCursors(fcuts, vcuts), k)
         == Ok(if k < |fcuts| + |vcuts| then PartCursor(fcuts, vcuts, k + 1) else Cursor(0, "", ""))
  {
    if k < |fcuts| + |vcuts| {
      var c := PartCursor(fcuts, vcuts, k + 1);
      StringOfPart(fcuts, vcuts, k + 1);
      ParseOfString(k + 1, c.doctype, c.id);
    }
  }

  // ---------------------------------------------------------------- partition

  lemma {:induction false} PartSplit(rows: seq<Row>, a: string, b: string, c: string, filesOnly: bool)
    requires Snapshot(rows) && AtMost(a, b) && AtMost(b, c)
    ensures Pick(rows, Part(a, b, filesOnly)) + Pick(rows, Part(b, c, filesOnly))
         == Pick(rows, Part(a, c, filesOnly))
    decreases |rows|
  {
    if rows != [] {
      var tail := rows[1..];
      SliceSnapshot(rows, 1, |rows|);
      PartSplit(tail, a, b, c, filesOnly);
      HeadSplit(rows[0], a, b, c, filesOnly);
      if AtMost(b, rows[0].id) {
        NothingBefore(rows, a, b, filesOnly);
      }
      HeadFirst(rows[0], Pick(tail, Part(a, b, filesOnly)), Pick(tail, Part(b, c, filesOnly)),
                Part(a, b, filesOnly).Accepts(rows[0]), Part(b, c, filesOnly).Accepts(rows[0]));
    }
  }

  function Prepend(takes: bool, r: Row, rest: seq<Row>): seq<Row> {
    if takes then [r] + rest else rest
  }

  /** Adding a first row that one of two selections takes, when the other one takes nothing
      before it. */
  lemma HeadFirst(r: Row, x: seq<Row>, y: seq<Row>, first: bool, second: bool)
    requires !(first && second) && (second ==> x == [])
    ensures Prepend(first, r, x) + Prepend(second, r, y) == Prepend(first || second, r, x + y)
  {
  }

  lemma HeadSplit(r: Row, a: string, b: string, c: string, filesOnly: bool)
    requires AtMost(a, b) && AtMost(b, c)
    ensures AtMost(b, r.id) ==>
              && !Part(a, b, filesOnly).Accepts(r)
              && Part(b, c, filesOnly).Accepts(r) == Part(a, c, filesOnly).Accepts(r)
    ensures !AtMost(b, r.id) ==>
              && !Part(b, c, filesOnly).Accepts(r)
              && Part(a, b, filesOnly).Accepts(r) == Part(a, c, filesOnly).Accepts(r)
  {
    BoundTrans(a, b, c, r.id);
  }

  lemma NothingBefore(rows: seq<Row>, a: string, b: string, filesOnly: bool)
    requires Snapshot(rows) && rows != [] && AtMost(b, rows[0].id)
    ensures Pick(rows[1..], Part(a, b, filesOnly)) == []
  {
    forall r | r in rows[1..] ensures !Less(r.id, b) {
      if b != rows[0].id {
        LessTransitive(b, rows[0].id, r.id);
      }
      LessAsymmetric(b, r.id);
    }
    PickNothing(rows[1..], Part(a, b, filesOnly));
  }

  lemma BoundTrans(a: string, b: string, c: string, id: string)
    requires AtMost(a, b) && AtMost(b, c)
    ensures Less(id, b) <==> !AtMost(b, id)
    ensures Less(id, b) ==> Less(id, c)
    ensures AtMost(b, id) ==> AtMost(a, id)
  {
    LessTotal(id, b);
    if Less(id, b) {
      LessAsymmetric(id, b);
      if b != c {
        LessTransitive(id, b, c);
      }
    }
    if AtMost(b, id) && a != b && b != id {
      LessTransitive(a, b, id);
    }
  }

  /** The listings of the parts from the k-th on, one after the other. */
  function AllFiles(rows: seq<Row>, cursors: seq<string>, k: nat): Result<seq<Row>>
    requires k <= |cursors| + 1
    decreases |cursors| + 1 - k
  {
    if k > |cursors| then Ok([]) else
    match ParseCursor(cursors, PartString(cursors, k))
    case InvalidCursor => InvalidCursor
    case Ok(start) => Concat(FilesOfPart(rows, cursors, start), AllFiles(rows, cursors, k + 1))
  }

  function AllVersions(rows: seq<Row>, cursors: seq<string>, k: nat): Result<seq<Row>>
    requires k <= |cursors| + 1
    decreases |cursors| + 1 - k
  {
    if k > |cursors| then Ok([]) else
    match ParseCursor(cursors, PartString(cursors, k))
    case InvalidCursor => InvalidCursor
    case Ok(start) => Concat(VersionsOfPart(rows, cursors, start), AllVersions(rows, cursors, k + 1))
  }

  lemma ConcatNil(x: seq<Row>)
    ensures Concat(Ok(x), Ok([])) == Ok(x) == Concat(Ok([]), Ok(x))
  {
    assert x + [] == x && [] + x == x;
  }

  function Concat(a: Result<seq<Row>>, b: Result<seq<Row>>): Result<seq<Row>> {
    if a.Ok? && b.Ok? then Ok(a.value + b.value) else InvalidCursor
  }

  /** The bounds of the k-th part among the files, then among the versions. */
  function From(cuts: seq<string>, k: nat): string
    requires k <= |cuts|
  {
    if k == 0 then "" else cuts[k - 1]
  }

  function UpTo(cuts: seq<string>, k: nat): string
    requires k <= |cuts|
  {
    if k < |cuts| then cuts[k] else MAX_STRING
  }

  lemma BoundsOrdered(cuts: seq<string>, k: nat)
    requires CutIDs(cuts) && k <= |cuts|
    ensures AtMost(From(cuts, k), UpTo(cuts, k)) && AtMost(UpTo(cuts, k), MAX_STRING) && UpTo(cuts, k) != ""
  {
  }

  lemma FilesOfOnePart(rows: seq<Row>, fcuts: seq<string>, vcuts: seq<string>, k: nat)
    requires CutIDs(fcuts) && CutIDs(vcuts) && k <= |fcuts| + |vcuts|
    ensures FilesOfPart(rows, AllCursors(fcuts, vcuts), PartCursor(fcuts, vcuts, k))
         == Ok(if k <= |fcuts| then Listed(rows, From(fcuts, k), UpTo(fcuts, k), true) else [])
  {
    if k <= |fcuts| {
      EndOfPart(fcuts, vcuts, k);
    }
  }

  lemma VersionsOfOnePart(rows: seq<Row>, fcuts: seq<string>, vcuts: seq<string>, k: nat)
    requires CutIDs(fcuts) && CutIDs(vcuts) && k <= |fcuts| + |vcuts|
    ensures VersionsOfPart(rows, AllCursors(fcuts, vcuts), PartCursor(fcuts, vcuts, k))
         == Ok(if k < |fcuts| then [] else
               Listed(rows, From(vcuts, k - |fcuts|), UpTo(vcuts, k - |fcuts|), false))
  {
    EndOfPart(fcuts, vcuts, k);
  }

  /** Whether the listing of the j-th range of a doctype is right. */
  predicate RangeReached(rows: seq<Row>, cuts: seq<string>, filesOnly: bool, j: nat)
    requires j <= |cuts|
  {
    Reaches(rows, From(cuts, j), UpTo(cuts, j), filesOnly)
  }

  predicate AllReached(rows: seq<Row>, cuts: seq<string>, filesOnly: bool, j: nat) {
    forall i :: j <= i <= |cuts| ==> RangeReached(rows, cuts, filesOnly, i)
  }

  /** The listings of the ranges of a doctype from the j-th on, and what they should be. */
  function ListedFrom(rows: seq<Row>, cuts: seq<string>, filesOnly: bool, j: nat): seq<Row>
    decreases |cuts| + 1 - j
  {
    if j > |cuts| then [] else
    Listed(rows, From(cuts, j), UpTo(cuts, j), filesOnly) + ListedFrom(rows, cuts, filesOnly, j + 1)
  }

  function Left(rows: seq<Row>, cuts: seq<string>, filesOnly: bool, j: nat): seq<Row> {
    if j > |cuts| then [] else Pick(rows, Part(From(cuts, j), MAX_STRING, filesOnly))
  }

  lemma LeftSplit(rows: seq<Row>, cuts: seq<string>, filesOnly: bool, j: nat)
    requires Snapshot(rows) && CutIDs(cuts) && j <= |cuts|
    ensures Left(rows, cuts, filesOnly, j)
         == Pick(rows, Part(From(cuts, j), UpTo(cuts, j), filesOnly)) + Left(rows, cuts, filesOnly, j + 1)
  {
    if j < |cuts| {
      BoundsOrdered(cuts, j);
      PartSplit(rows, From(cuts, j), UpTo(cuts, j), MAX_STRING, filesOnly);
    }
  }

  lemma TwoBeginnings(a: seq<Row>, x: seq<Row>, b: seq<Row>, y: seq<Row>)
    requires a <= x && |b| <= |y|
    ensures |a + b| <= |x + y| && (a + b == x + y <==> a == x && b == y)
  {
    if a + b == x + y {
      assert |a| == |x|;
      assert b == (a + b)[|a|..] == (x + y)[|x|..] == y;
    }
  }

  lemma OneRange(rows: seq<Row>, cuts: seq<string>, filesOnly: bool, j: nat)
    requires Snapshot(rows) && CutIDs(cuts) && j <= |cuts|
    ensures var listed := Listed(rows, From(cuts, j), UpTo(cuts, j), filesOnly);
            var part := Pick(rows, Part(From(cuts, j), UpTo(cuts, j), filesOnly));
            listed <= part && (listed == part <==> RangeReached(rows, cuts, filesOnly, j))
  {
    BoundsOrdered(cuts, j);
    ListedBegins(rows, From(cuts, j), UpTo(cuts, j), filesOnly);
    ListedIff(rows, From(cuts, j), UpTo(cuts, j), filesOnly);
  }

  lemma ReachedStep(rows: seq<Row>, cuts: seq<string>, filesOnly: bool, j: nat)
    requires j <= |cuts|
    ensures AllReached(rows, cuts, filesOnly, j)
       <==> RangeReached(rows, cuts, filesOnly, j) && AllReached(rows, cuts, filesOnly, j + 1)
  {
    forall i | AllReached(rows, cuts, filesOnly, j + 1) && RangeReached(rows, cuts, filesOnly, j) && j <= i <= |cuts|
      ensures RangeReached(rows, cuts, filesOnly, i)
    {
      assert i == j || j + 1 <= i;
    }
  }

  /** The listings from the j-th range on are all that is left exactly when each one is right. */
  ghost predicate RightIff(rows: seq<Row>, cuts: seq<string>, filesOnly: bool, j: nat) {
    && |ListedFrom(rows, cuts, filesOnly, j)| <= |Left(rows, cuts, filesOnly, j)|
    && (ListedFrom(rows, cuts, filesOnly, j) == Left(rows, cuts, filesOnly, j) <==> AllReached(rows, cuts, filesOnly, j))
  }

  lemma {:induction false} ListedFromIff(rows: seq<Row>, cuts: seq<string>, filesOnly: bool, j: nat)
    requires Snapshot(rows) && CutIDs(cuts) && j <= |cuts| + 1
    ensures RightIff(rows, cuts, filesOnly, j)
    decreases |cuts| + 1 - j
  {
    if j <= |cuts| {
      ListedFromIff(rows, cuts, filesOnly, j + 1);
      ListedFromStep(rows, cuts, filesOnly, j);
    }
  }

  lemma ListedFromStep(rows: seq<Row>, cuts: seq<string>, filesOnly: bool, j: nat)
    requires Snapshot(rows) && CutIDs(cuts) && j <= |cuts| && RightIff(rows, cuts, filesOnly, j + 1)
    ensures RightIff(rows, cuts, filesOnly, j)
  {
    LeftSplit(rows, cuts, filesOnly, j);
    OneRange(rows, cuts, filesOnly, j);
    ReachedStep(rows, cuts, filesOnly, j);
    TwoBeginnings(Listed(rows, From(cuts, j), UpTo(cuts, j), filesOnly),
                  Pick(rows, Part(From(cuts, j), UpTo(cuts, j), filesOnly)),
                  ListedFrom(rows, cuts, filesOnly, j + 1), Left(rows, cuts, filesOnly, j + 1));
  }

  lemma {:induction false} FilesFrom(rows: seq<Row>, fcuts: seq<string>, vcuts: seq<string>, k: nat)
    requires CutIDs(fcuts) && CutIDs(vcuts) && k <= |fcuts| + |vcuts| + 1
    ensures AllFiles(rows, AllCursors(fcuts, vcuts), k) == Ok(ListedFrom(rows, fcuts, true, k))
    decreases |fcuts| + |vcuts| + 1 - k
  {
    if k <= |fcuts| + |vcuts| {
      FilesFrom(rows, fcuts, vcuts, k + 1);
      CursorRoundTrip(fcuts, vcuts, k);
      FilesHere(rows, fcuts, vcuts, k);
    }
  }

  lemma FilesHere(rows: seq<Row>, fcuts: seq<string>, vcuts: seq<string>, k: nat)
    requires CutIDs(fcuts) && CutIDs(vcuts) && k <= |fcuts| + |vcuts|
    ensures Concat(FilesOfPart(rows, AllCursors(fcuts, vcuts), PartCursor(fcuts, vcuts, k)),
                   Ok(ListedFrom(rows, fcuts, true, k + 1)))
         == Ok(ListedFrom(rows, fcuts, true, k))
  {
    FilesOfOnePart(rows, fcuts, vcuts, k);
    if k <= |fcuts| {
      ListedStep(rows, fcuts, true, k);
    } else {
      ConcatNil([]);
    }
  }

  function FirstVersions(fcuts: seq<string>, k: nat): nat {
    if k <= |fcuts| then 0 else k - |fcuts|
  }

  lemma {:induction false} VersionsFrom(rows: seq<Row>, fcuts: seq<string>, vcuts: seq<string>, k: nat)
    requires CutIDs(fcuts) && CutIDs(vcuts) && k <= |fcuts| + |vcuts| + 1
    ensures AllVersions(rows, AllCursors(fcuts, vcuts), k)
         == Ok(ListedFrom(rows, vcuts, false, FirstVersions(fcuts, k)))
    decreases |fcuts| + |vcuts| + 1 - k
  {
    if k <= |fcuts| + |vcuts| {
      VersionsFrom(rows, fcuts, vcuts, k + 1);
      CursorRoundTrip(fcuts, vcuts, k);
      VersionsHere(rows, fcuts, vcuts, k);
    }
  }

  lemma VersionsHere(rows: seq<Row>, fcuts: seq<string>, vcuts: seq<string>, k: nat)
    requires CutIDs(fcuts) && CutIDs(vcuts) && k <= |fcuts| + |vcuts|
    ensures Concat(VersionsOfPart(rows, AllCursors(fcuts, vcuts), PartCursor(fcuts, vcuts, k)),
                   Ok(ListedFrom(rows, vcuts, false, FirstVersions(fcuts, k + 1))))
         == Ok(ListedFrom(rows, vcuts, false, FirstVersions(fcuts, k)))
  {
    VersionsOfOnePart(rows, fcuts, vcuts, k);
    if k < |fcuts| {
      ConcatNil(ListedFrom(rows, vcuts, false, 0));
    } else {
      ListedStep(rows, vcuts, false, k - |fcuts|);
    }
  }

  lemma ListedStep(rows: seq<Row>, cuts: seq<string>, filesOnly: bool, j: nat)
    requires j <= |cuts|
    ensures Concat(Ok(Listed(rows, From(cuts, j), UpTo(cuts, j), filesOnly)), Ok(ListedFrom(rows, cuts, filesOnly, j + 1)))
         == Ok(ListedFrom(rows, cuts, filesOnly, j))
  {
  }

  /** Every document of a doctype, once and in ID order. */
  ghost predicate ListsAll(rows: seq<Row>, filesOnly: bool, docs: seq<Row>) {
    && Snapshot(docs)
    && forall r :: r in docs <==> r in rows && !r.design && (filesOnly ==> r.isFile) && Less(r.id, MAX_STRING)
  }

  /** Listing the part "" and then every cursor, whatever snapshot the cursors were computed
      from, yields each file of the snapshot exactly once in ID order if and only if every range
      of files between two cursors has fewer design documents than a page, or no file after one. */
  lemma FilesPartition(rows: seq<Row>, fcuts: seq<string>, vcuts: seq<string>)
    requires Snapshot(rows) && CutIDs(fcuts) && CutIDs(vcuts)
    ensures var files := AllFiles(rows, AllCursors(fcuts, vcuts), 0);
            files.Ok? && (ListsAll(rows, true, files.value) <==> AllReached(rows, fcuts, true, 0))
  {
    FilesFrom(rows, fcuts, vcuts, 0);
    ListsAllIff(rows, fcuts, true);
  }

  /** The same for versions. */
  lemma VersionsPartition(rows: seq<Row>, fcuts: seq<string>, vcuts: seq<string>)
    requires Snapshot(rows) && CutIDs(fcuts) && CutIDs(vcuts)
    ensures var versions := AllVersions(rows, AllCursors(fcuts, vcuts), 0);
            versions.Ok? && (ListsAll(rows, false, versions.value) <==> AllReached(rows, vcuts, false, 0))
  {
    VersionsFrom(rows, fcuts, vcuts, 0);
    ListsAllIff(rows, vcuts, false);
  }

  lemma ListsAllIff(rows: seq<Row>, cuts: seq<string>, filesOnly: bool)
    requires Snapshot(rows) && CutIDs(cuts)
    ensures ListsAll(rows, filesOnly, ListedFrom(rows, cuts, filesOnly, 0)) <==> AllReached(rows, cuts, filesOnly, 0)
  {
    var docs, all := ListedFrom(rows, cuts, filesOnly, 0), Pick(rows, Part("", MAX_STRING, filesOnly));
    ListedFromIff(rows, cuts, filesOnly, 0);
    PickExactly(rows, filesOnly);
    if ListsAll(rows, filesOnly, docs) {
      SameSnapshot(docs, all);
    }
  }

  /** Two snapshots with the same rows are equal. */
  lemma {:induction false} SameSnapshot(a: seq<Row>, b: seq<Row>)
    requires Snapshot(a) && Snapshot(b) && forall r :: r in a <==> r in b
    ensures a == b
    decreases |a|
  {
    assert forall i :: 0 <= i < |a| ==> a[i] in b;
    assert forall i :: 0 <= i < |b| ==> b[i] in a;
    if a != [] {
      FirstRow(a, b);
      FirstRow(b, a);
      if a[0] != b[0] {
        LessAsymmetric(a[0].id, b[0].id);
      }
      RowsOfTail(a);
      RowsOfTail(b);
      SameSnapshot(a[1..], b[1..]);
      assert a == [a[0]] + a[1..] && b == [b[0]] + b[1..];
    }
  }

  lemma FirstRow(a: seq<Row>, b: seq<Row>)
    requires Snapshot(b) && a != [] && b != [] && a[0] in b
    ensures a[0] == b[0] || Less(b[0].id, a[0].id)
  {
    var i :| 0 <= i < |b| && b[i] == a[0];
  }

  lemma RowsOfTail(a: seq<Row>)
    requires Snapshot(a) && a != []
    ensures Snapshot(a[1..]) && forall r :: r in a[1..] <==> r in a && r != a[0]
  {
    forall r | r in a && r != a[0] ensures r in a[1..] {
      var i :| 0 <= i < |a| && a[i] == r;
      assert a[1..][i - 1] == r;
    }
    forall r | r in a[1..] ensures r != a[0] {
      var i :| 0 <= i < |a| - 1 && a[1..][i] == r;
      LessAsymmetric(a[0].id, a[i + 1].id);
    }
  }

  /** In particular, fewer design documents than a page in the whole database. */
  lemma FewDesigns(rows: seq<Row>, cuts: seq<string>, filesOnly: bool)
    requires DesignCount(rows) < 1000
    ensures AllReached(rows, cuts, filesOnly, 0)
  {
    forall i | 0 <= i <= |cuts| ensures RangeReached(rows, cuts, filesOnly, i) {
      FewDesignsReach(rows, From(cuts, i), UpTo(cuts, i), filesOnly);
    }
  }

  /** And a database whose export loses its only file: a page of design documents sort before it. */
  lemma CrowdedExport()
    ensures Snapshot(Crowded(PAGE)) && AllFiles(Crowded(PAGE), AllCursors([], []), 0) == Ok([])
    ensures !ListsAll(Crowded(PAGE), true, [])
  {
    assert Less("b", MAX_STRING) && Less("a", MAX_STRING);
    CrowdedListing(MAX_STRING);
    FilesFrom(Crowded(PAGE), [], [], 0);
    assert ListedFrom(Crowded(PAGE), [], true, 1) == [];
    assert Crowded(PAGE)[PAGE] in Crowded(PAGE);
  }

  lemma PickExactly(rows: seq<Row>, filesOnly: bool)
    requires Snapshot(rows)
    ensures ListsAll(rows, filesOnly, Pick(rows, Part("", MAX_STRING, filesOnly)))
  {
    var q := Part("", MAX_STRING, filesOnly);
    var docs := Pick(rows, q);
    PickSnapshot(rows, q);
    forall r | r in docs ensures r in rows && q.Accepts(r) {
      var i :| 0 <= i < |docs| && docs[i] == r;
      PickIn(rows, q, i);
    }
    forall r | r in rows && q.Accepts(r) ensures r in docs {
      PickHas(rows, q, r);
    }
  }
}

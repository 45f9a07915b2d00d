/** The export of an instance in parts (model/move): cursors are computed by splitting the
    files and then their old versions into parts of a given size, kept as strings, and each
    part is listed later from the two cursors that delimit it.

    The theorems: the parts are an exact partition of the files and of the versions of any
    snapshot, even one taken after the cursors were computed, if and only if each listing
    reaches the end of its range (FilesPartition, VersionsPartition); and on the snapshot the
    cursors come from, every part holds at most PartsSize bytes or exactly one non-empty
    document, across the seam too (PartSizes). */
module Export {
  import opened Text
  import opened AllDocs
  import opened Splitter
  import opened Numbers

  const FILES := "io.cozy.files"
  const VERSIONS := "io.cozy.files.versions"
  const MAX_STRING := "\U{10FFFF}"

  datatype Result<T> = Ok(value: T) | InvalidCursor

  datatype Cursor = Cursor(number: nat, doctype: string, id: string) {
    function String(): string {
      doctype + "/" + id
    }
  }

  // ---------------------------------------------------------------- cursors as strings

  function ParseNumbered(number: nat, s: string): Result<Cursor> {
    var parts := SplitN2(s, '/');
    if |parts| != 2 then InvalidCursor else Ok(Cursor(number, parts[0], parts[1]))
  }

  /** The search of `ParseCursor` through the cursors of the export document. */
  function FindCursor(cursors: seq<string>, s: string, i: nat): Result<Cursor>
    requires i <= |cursors|
    decreases |cursors| - i
  {
    if i == |cursors| then InvalidCursor
    else if cursors[i] == s then ParseNumbered(i + 1, s)
    else FindCursor(cursors, s, i + 1)
  }

  function ParseCursor(cursors: seq<string>, s: string): Result<Cursor> {
    if s == "" then Ok(Cursor(0, FILES, "")) else FindCursor(cursors, s, 0)
  }

  lemma ParseOfString(number: nat, doctype: string, id: string)
    requires '/' !in doctype
    ensures ParseNumbered(number, Cursor(0, doctype, id).String()) == Ok(Cursor(number, doctype, id))
  {
    assert doctype + "/" + id == doctype + ['/'] + id;
    SplitOfGlued(doctype, '/', id);
  }

  /** A cursor string outside the list is refused, and no other one is. */
  lemma {:induction false} ParseRefuses(cursors: seq<string>, s: string)
    requires forall i :: 0 <= i < |cursors| ==> '/' in cursors[i]
    ensures ParseCursor(cursors, s).InvalidCursor? <==> s != "" && s !in cursors
  {
    if s != "" {
      FindRefuses(cursors, s, 0);
    }
  }

  lemma {:induction false} FindRefuses(cursors: seq<string>, s: string, i: nat)
    requires i <= |cursors|
    requires forall j :: 0 <= j < |cursors| ==> '/' in cursors[j]
    ensures FindCursor(cursors, s, i).InvalidCursor? <==> s !in cursors[i..]
    decreases |cursors| - i
  {
    if i < |cursors| && cursors[i] != s {
      FindRefuses(cursors, s, i + 1);
      assert cursors[i..] == [cursors[i]] + cursors[i + 1..];
    }
  }

  // ---------------------------------------------------------------- splitting

  ghost predicate SortedKeys(ids: seq<string>, sizes: map<string, nat>) {
    Increasing(ids) && (set id | id in ids) == sizes.Keys
  }

  ghost function SizesOf(ids: seq<string>, sizes: map<string, nat>): (s: seq<nat>)
    requires forall id :: id in ids ==> id in sizes
    ensures |s| == |ids|
  {
    seq(|ids|, i requires 0 <= i < |ids| => assert ids[i] in ids; sizes[ids[i]])
  }

  /** The strings kept for the cuts of one doctype. */
  function CursorStrings(doctype: string, ids: seq<string>): (s: seq<string>)
    ensures |s| == |ids|
    ensures forall k :: 0 <= k < |s| ==> s[k] == Cursor(0, doctype, ids[k]).String()
  {
    seq(|ids|, k requires 0 <= k < |ids| => Cursor(0, doctype, ids[k]).String())
  }

  ghost function AtCuts(ids: seq<string>, cuts: seq<nat>): (s: seq<string>)
    requires Ascending(cuts, 0, |ids|)
    ensures |s| == |cuts|
    ensures forall k :: 0 <= k < |s| ==> s[k] == ids[cuts[k]]
  {
    seq(|cuts|, k requires 0 <= k < |cuts| => ids[cuts[k]])
  }

  /** `sort.Strings` on the keys of the size map, whatever the order they come in. */
  method SortIDs(sizes: map<string, nat>) returns (ids: seq<string>)
    ensures SortedKeys(ids, sizes)
  {
    ids := [];
    var left := sizes.Keys;
    while left != {}
      invariant Increasing(ids)
      invariant left !! (set id | id in ids)
      invariant left + (set id | id in ids) == sizes.Keys
      decreases |left|
    {
      var id :| id in left;
      ids := Insert(ids, id);
      left := left - {id};
    }
  }

  method Insert(ids: seq<string>, id: string) returns (r: seq<string>)
    requires Increasing(ids) && id !in ids
    ensures Increasing(r)
    ensures (set x | x in r) == (set x | x in ids) + {id}
  {
    var i := 0;
    while i < |ids| && Less(ids[i], id)
      invariant 0 <= i <= |ids|
      invariant forall j :: 0 <= j < i ==> Less(ids[j], id)
    {
      i := i + 1;
    }
    r := ids[..i] + [id] + ids[i..];
    forall j | i <= j < |ids| ensures Less(id, ids[j]) {
      LessTotal(id, ids[i]);
      assert ids[i] in ids;
      if j > i {
        LessTransitive(id, ids[i], ids[j]);
      }
    }
    assert forall x :: x in r <==> x in ids || x == id by {
      assert ids == ids[..i] + ids[i..];
    }
  }

  /** Sorting leaves no choice: the cursors do not depend on the iteration order of the map. */
  lemma {:induction false} SortedKeysUnique(a: seq<string>, b: seq<string>)
    requires Increasing(a) && Increasing(b)
    requires forall id :: id in a <==> id in b
    ensures a == b
    decreases |a|
  {
    if a == [] {
      if b != [] {
        SameHead(b, a);
      }
    } else {
      SameHead(a, b);
      TailKeys(a);
      TailKeys(b);
      SortedKeysUnique(a[1..], b[1..]);
      assert a == [a[0]] + a[1..] && b == [b[0]] + b[1..];
    }
  }

  lemma TailKeys(a: seq<string>)
    requires Increasing(a) && a != []
    ensures forall id :: id in a[1..] <==> id in a && id != a[0]
  {
    LessIrreflexive(a[0]);
    assert a == [a[0]] + a[1..];
    forall id | id in a[1..] ensures id != a[0] {
      var i :| 0 <= i < |a[1..]| && a[1..][i] == id;
      assert Less(a[0], a[i + 1]);
    }
  }

  lemma SameHead(a: seq<string>, b: seq<string>)
    requires Increasing(a) && Increasing(b) && a != []
    requires forall id :: id in a <==> id in b
    ensures b != [] && a[0] == b[0]
  {
    assert a[0] in b;
    assert b[0] in a;
    if a[0] != b[0] {
      var i :| 0 <= i < |a| && a[i] == b[0];
      var j :| 0 <= j < |b| && b[j] == a[0];
      LessAsymmetric(a[0], b[0]);
    }
  }

  /** The cursors that `splitFiles` appends from some ID on. */
  function CursorsFrom(partsSize: int, remaining: int, ids: seq<string>, sizes: map<string, nat>,
                       doctype: string): seq<string>
    requires forall id :: id in ids ==> id in sizes
    decreases |ids|
  {
    if ids == [] then [] else
    assert ids[0] in ids;
    var size := sizes[ids[0]];
    var rest := CursorsFrom(partsSize, Next(partsSize, remaining, size), ids[1..], sizes, doctype);
    if Opens(partsSize, remaining, size) then [Cursor(0, doctype, ids[0]).String()] + rest else rest
  }

  lemma {:induction false} CursorsAtCuts(partsSize: int, remaining: int, ids: seq<string>,
                                         sizes: map<string, nat>, doctype: string)
    requires forall id :: id in ids ==> id in sizes
    ensures Ascending(Cuts(partsSize, remaining, SizesOf(ids, sizes), 0), 0, |ids|)
    ensures CursorsFrom(partsSize, remaining, ids, sizes, doctype)
         == CursorStrings(doctype, AtCuts(ids, Cuts(partsSize, remaining, SizesOf(ids, sizes), 0)))
    decreases |ids|
  {
    CutsAscend(partsSize, remaining, SizesOf(ids, sizes), 0);
    if ids != [] {
      assert ids[0] in ids;
      var next := Next(partsSize, remaining, sizes[ids[0]]);
      CursorsAtCuts(partsSize, next, ids[1..], sizes, doctype);
      CutsOfTail(partsSize, remaining, ids, sizes);
      var later := CursorsFrom(partsSize, next, ids[1..], sizes, doctype);
      var all := CursorStrings(doctype, AtCuts(ids, Cuts(partsSize, remaining, SizesOf(ids, sizes), 0)));
      if Opens(partsSize, remaining, sizes[ids[0]]) {
        assert all == [Cursor(0, doctype, ids[0]).String()] + later;
      } else {
        assert all == later;
      }
    }
  }

  /** The cuts of a list of documents, from those of its tail. */
  lemma CutsOfTail(partsSize: int, remaining: int, ids: seq<string>, sizes: map<string, nat>)
    requires forall id :: id in ids ==> id in sizes
    requires ids != []
    ensures ids[0] in sizes
    ensures var cuts := Cuts(partsSize, remaining, SizesOf(ids, sizes), 0);
            var later := Cuts(partsSize, Next(partsSize, remaining, sizes[ids[0]]), SizesOf(ids[1..], sizes), 0);
            var n := if Opens(partsSize, remaining, sizes[ids[0]]) then 1 else 0;
            && |cuts| == n + |later|
            && (n == 1 ==> cuts[0] == 0)
            && (forall k :: 0 <= k < |later| ==> cuts[n + k] == later[k] + 1)
  {
    assert ids[0] in ids;
    var s := SizesOf(ids, sizes);
    assert s[1..] == SizesOf(ids[1..], sizes);
    Shift(partsSize, Next(partsSize, remaining, s[0]), s[1..], 0, 1);
  }

  /** The loop of `splitFiles` over the sorted IDs. */
  method SplitSorted(partsSize: nat, budget: int, ids: seq<string>, sizesByID: map<string, nat>, doctype: string)
    returns (cursors: seq<string>, remaining: int)
    requires partsSize <= MAX_INT64 && -MAX_INT64 <= budget <= partsSize
    requires forall id :: id in sizesByID ==> sizesByID[id] <= MAX_INT64
    requires forall id :: id in ids ==> id in sizesByID
    ensures cursors == CursorsFrom(partsSize, budget, ids, sizesByID, doctype)
    ensures remaining == After(partsSize, budget, SizesOf(ids, sizesByID))
    ensures -MAX_INT64 <= remaining <= partsSize
  {
    ghost var sizes := SizesOf(ids, sizesByID);
    remaining := budget;
    cursors := [];
    for i := 0 to |ids|
      invariant -MAX_INT64 <= remaining <= partsSize
      invariant CursorsFrom(partsSize, budget, ids, sizesByID, doctype)
             == cursors + CursorsFrom(partsSize, remaining, ids[i..], sizesByID, doctype)
      invariant After(partsSize, budget, sizes) == After(partsSize, remaining, sizes[i..])
    {
      var size := sizesByID[ids[i]];
      assert sizes[i..][0] == size && sizes[i..][1..] == sizes[i + 1..];
      assert ids[i..][0] == ids[i] && ids[i..][1..] == ids[i + 1..];
      ghost var next := Next(partsSize, remaining, size);
      assert After(partsSize, remaining, sizes[i..]) == After(partsSize, next, sizes[i + 1..]);
      if size > remaining && remaining != partsSize {
        remaining := partsSize;
        cursors := cursors + [Cursor(0, doctype, ids[i]).String()];
      }
      remaining := remaining - size;
      assert remaining == next;
    }
  }

  /** `splitFiles`. The ghost result is the sorted list of IDs the loop runs over. */
  method SplitFiles(partsSize: nat, budget: int, sizesByID: map<string, nat>, doctype: string)
    returns (cursors: seq<string>, remaining: int, ghost ids: seq<string>)
    requires partsSize <= MAX_INT64 && -MAX_INT64 <= budget <= partsSize
    requires forall id :: id in sizesByID ==> sizesByID[id] <= MAX_INT64
    ensures SortedKeys(ids, sizesByID) && forall id :: id in ids ==> id in sizesByID
    ensures remaining == After(partsSize, budget, SizesOf(ids, sizesByID))
    ensures Ascending(Cuts(partsSize, budget, SizesOf(ids, sizesByID), 0), 0, |ids|)
    ensures cursors == CursorStrings(doctype, AtCuts(ids, Cuts(partsSize, budget, SizesOf(ids, sizesByID), 0)))
    ensures -MAX_INT64 <= remaining <= partsSize
  {
    var sorted := SortIDs(sizesByID);
    ids := sorted;
    forall id | id in ids ensures id in sizesByID {
      assert id in (set x | x in ids);
    }
    cursors, remaining := SplitSorted(partsSize, budget, sorted, sizesByID, doctype);
    CursorsAtCuts(partsSize, budget, ids, sizesByID, doctype);
  }

  /** The export document, as far as the splitting is concerned. */
  class ExportDoc {
    const partsSize: nat
    var partsCursors: seq<string>

    constructor (partsSize: nat)
      ensures this.partsSize == partsSize && partsCursors == []
    {
      this.partsSize := partsSize;
      partsCursors := [];
    }

    /** `exportFiles`, once the sizes have been collected: the budget left by the files is
        carried over to the versions. */
    method ExportFiles(filesizes: map<string, nat>, versionsizes: map<string, nat>)
      returns (ghost fids: seq<string>, ghost vids: seq<string>)
      requires partsSize <= MAX_INT64
      requires forall id :: id in filesizes ==> filesizes[id] <= MAX_INT64
      requires forall id :: id in versionsizes ==> versionsizes[id] <= MAX_INT64
      modifies this
      ensures SortedKeys(fids, filesizes) && SortedKeys(vids, versionsizes)
      ensures forall id :: id in fids ==> id in filesizes
      ensures forall id :: id in vids ==> id in versionsizes
      ensures |SizesOf(fids, filesizes)| == |fids| && |SizesOf(vids, versionsizes)| == |vids|
      ensures partsCursors == PartsCursors(partsSize, fids, SizesOf(fids, filesizes), vids, SizesOf(vids, versionsizes))
    {
      var remaining: int := partsSize;
      var cursors;
      cursors, remaining, fids := SplitFiles(partsSize, remaining, filesizes, FILES);
      partsCursors := cursors;
      cursors, remaining, vids := SplitFiles(partsSize, remaining, versionsizes, VERSIONS);
      if |cursors| > 0 {
        partsCursors := partsCursors + cursors;
      }
    }
  }

  ghost function FileCuts(partsSize: nat, fids: seq<string>, fsizes: seq<nat>): seq<string>
    requires |fids| == |fsizes|
  {
    CutsAscend(partsSize, partsSize, fsizes, 0);
    AtCuts(fids, Cuts(partsSize, partsSize, fsizes, 0))
  }

  ghost function VersionCuts(partsSize: nat, fsizes: seq<nat>, vids: seq<string>, vsizes: seq<nat>): seq<string>
    requires |vids| == |vsizes|
  {
    var remaining := After(partsSize, partsSize, fsizes);
    CutsAscend(partsSize, remaining, vsizes, 0);
    AtCuts(vids, Cuts(partsSize, remaining, vsizes, 0))
  }

  ghost function PartsCursors(partsSize: nat, fids: seq<string>, fsizes: seq<nat>,
                              vids: seq<string>, vsizes: seq<nat>): seq<string>
    requires |fids| == |fsizes| && |vids| == |vsizes|
  {
    AllCursors(FileCuts(partsSize, fids, fsizes), VersionCuts(partsSize, fsizes, vids, vsizes))
  }

  function AllCursors(fcuts: seq<string>, vcuts: seq<string>): seq<string> {
    CursorStrings(FILES, fcuts) + CursorStrings(VERSIONS, vcuts)
  }

  // ---------------------------------------------------------------- listing a part

  /** The cursor after the one of number `number`, or Go's zero Cursor at the end. */
  function EndCursor(cursors: seq<string>, number: nat): Result<Cursor> {
    if number < |cursors| then ParseNumbered(number + 1, cursors[number]) else Ok(Cursor(0, "", ""))
  }

  /** What `listFilesFromCursor` returns. */
  function FilesOfPart(rows: seq<Row>, cursors: seq<string>, start: Cursor): Result<seq<Row>> {
    if start.doctype != FILES then Ok([]) else
    match EndCursor(cursors, start.number)
    case InvalidCursor => InvalidCursor
    case Ok(end) => Ok(Listed(rows, start.id, if end.doctype != FILES then MAX_STRING else end.id, true))
  }

  /** What `listVersionsFromCursor` returns. */
  function VersionsOfPart(rows: seq<Row>, cursors: seq<string>, start: Cursor): Result<seq<Row>> {
    match EndCursor(cursors, start.number)
    case InvalidCursor => InvalidCursor
    case Ok(end) =>
      if end.doctype == FILES then Ok([]) else
      Ok(Listed(rows, if start.doctype != VERSIONS then "" else start.id,
                if end.doctype == "" then MAX_STRING else end.id, false))
  }

  method ListFilesFromCursor(rows: seq<Row>, cursors: seq<string>, start: Cursor) returns (r: Result<seq<Row>>)
    requires Snapshot(rows)
    requires EndCursor(cursors, start.number).Ok? ==>
               EndCursor(cursors, start.number).value.doctype == FILES ==>
                 EndCursor(cursors, start.number).value.id != ""
    ensures r == FilesOfPart(rows, cursors, start)
    ensures r.InvalidCursor? <==>
              start.doctype == "io.cozy.files" && start.number < |cursors| && '/' !in cursors[start.number]
  {
    if start.doctype != FILES {
      return Ok([]);
    }
    var end := Cursor(0, "", "");
    if start.number < |cursors| {
      var c := ParseNumbered(start.number + 1, cursors[start.number]);
      if c.InvalidCursor? {
        return InvalidCursor;
      }
      end := c.value;
    }
    if end.doctype != FILES {
      end := Cursor(|cursors|, FILES, MAX_STRING);
    }
    var files := ListRange(rows, start.id, end.id, true);
    r := Ok(files);
  }

  method ListVersionsFromCursor(rows: seq<Row>, cursors: seq<string>, from: Cursor) returns (r: Result<seq<Row>>)
    requires Snapshot(rows)
    requires EndCursor(cursors, from.number).Ok? ==>
               EndCursor(cursors, from.number).value.doctype !in [FILES, ""] ==>
                 EndCursor(cursors, from.number).value.id != ""
    ensures r == VersionsOfPart(rows, cursors, from)
    ensures r.InvalidCursor? <==> from.number < |cursors| && '/' !in cursors[from.number]
  {
    var start, end := from, Cursor(0, "", "");
    if start.number < |cursors| {
      var c := ParseNumbered(start.number + 1, cursors[start.number]);
      if c.InvalidCursor? {
        return InvalidCursor;
      }
      end := c.value;
    }
    if end.doctype == FILES {
      return Ok([]);
    } else if end.doctype == "" {
      end := Cursor(|cursors|, VERSIONS, MAX_STRING);
    }
    if start.doctype != VERSIONS {
      start := Cursor(start.number, VERSIONS, "");
    }
    var versions := ListRange(rows, start.id, end.id, false);
    r := Ok(versions);
  }
}

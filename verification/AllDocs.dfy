/** CouchDB's `_all_docs` as `getAllDocs` exposes it (pkg/couchdb/bulk.go), and the paged loop
    that `listFilesFromCursor` and `listVersionsFromCursor` run over it (model/move/cursor.go).

    A snapshot of a database is the sequence of its rows in ID order. `getAllDocs` asks for a
    page of rows and only then throws the design documents away, so a page can come back
    shorter than its limit, or even empty, before the end of the range. */
module AllDocs {
  import opened Text

  /** What the export reads of a row: directories share the files database, and the design
      documents are those whose ID starts with `_design` (see Snapshot). */
  datatype Row = Row(id: string, isFile: bool, size: nat, design: bool)

  const PAGE: nat := 1000
  const DESIGN := "_design"

  /** CouchDB never stores an empty ID, and an ID only once. */
  predicate Snapshot(rows: seq<Row>) {
    && (forall i :: 0 <= i < |rows| ==> rows[i].id != "")
    && (forall i :: 0 <= i < |rows| ==> rows[i].design == HasPrefix(rows[i].id, DESIGN))
    && (forall i, j :: 0 <= i < j < |rows| ==> Less(rows[i].id, rows[j].id))
  }

  /** The row selections used by the scan and by its specification. */
  datatype Query =
    | Scan(lo: string, hi: string)                      // startkey and endkey, both inclusive, "" when unset
    | Documents                                         // what is not a design document
    | Kept(end: string, filesOnly: bool)                // what a lister keeps from its pages
    | Part(from: string, upTo: string, filesOnly: bool) // the documents with from <= ID < upTo
  {
    predicate Accepts(r: Row) {
      match this
      case Scan(lo, hi) => (lo == "" || AtMost(lo, r.id)) && (hi == "" || AtMost(r.id, hi))
      case Documents => !r.design
      case Kept(end, filesOnly) => !r.design && r.id != end && (filesOnly ==> r.isFile)
      case Part(from, upTo, filesOnly) =>
        !r.design && AtMost(from, r.id) && Less(r.id, upTo) && (filesOnly ==> r.isFile)
    }
  }

  function Pick(rows: seq<Row>, q: Query): seq<Row> {
    if rows == [] then []
    else if q.Accepts(rows[0]) then [rows[0]] + Pick(rows[1..], q)
    else Pick(rows[1..], q)
  }

  datatype Request = Request(startKey: string, endKey: string, limit: nat, skip: nat)

  function GetAllDocs(rows: seq<Row>, req: Request): seq<Row> {
    var hits := Pick(rows, Scan(req.startKey, req.endKey));
    var rest := if req.skip <= |hits| then hits[req.skip..] else [];
    Pick(if req.limit == 0 || |rest| <= req.limit then rest else rest[..req.limit], Documents)
  }

  // ---------------------------------------------------------------- selections

  lemma {:induction false} PickAppend(a: seq<Row>, b: seq<Row>, q: Query)
    ensures Pick(a + b, q) == Pick(a, q) + Pick(b, q)
    decreases |a|
  {
    if a == [] {
      assert a + b == b;
    } else {
      assert (a + b)[0] == a[0] && (a + b)[1..] == a[1..] + b;
      PickAppend(a[1..], b, q);
      if q.Accepts(a[0]) {
        assert [a[0]] + (Pick(a[1..], q) + Pick(b, q)) == ([a[0]] + Pick(a[1..], q)) + Pick(b, q);
      }
    }
  }

  lemma {:induction false} PickCongruent(rows: seq<Row>, p: Query, q: Query)
    requires forall r :: r in rows ==> p.Accepts(r) == q.Accepts(r)
    ensures Pick(rows, p) == Pick(rows, q)
    decreases |rows|
  {
    if rows != [] {
      assert rows[0] in rows;
      PickCongruent(rows[1..], p, q);
    }
  }

  lemma {:induction false} PickNothing(rows: seq<Row>, q: Query)
    requires forall r :: r in rows ==> !q.Accepts(r)
    ensures Pick(rows, q) == []
    decreases |rows|
  {
    if rows != [] {
      assert rows[0] in rows;
      PickNothing(rows[1..], q);
    }
  }

  lemma {:induction false} PickAll(rows: seq<Row>, q: Query)
    requires forall i :: 0 <= i < |rows| ==> q.Accepts(rows[i])
    ensures Pick(rows, q) == rows
    decreases |rows|
  {
    if rows != [] {
      PickAll(rows[1..], q);
    }
  }

  lemma {:induction false} PickTwice(rows: seq<Row>, p: Query, q: Query, both: Query)
    requires forall r :: r in rows ==> both.Accepts(r) == (p.Accepts(r) && q.Accepts(r))
    ensures Pick(Pick(rows, p), q) == Pick(rows, both)
    decreases |rows|
  {
    if rows != [] {
      assert rows[0] in rows;
      PickTwice(rows[1..], p, q, both);
      if p.Accepts(rows[0]) {
        assert Pick(rows, p)[0] == rows[0] && Pick(rows, p)[1..] == Pick(rows[1..], p);
      }
    }
  }

  lemma {:induction false} PickIn(rows: seq<Row>, q: Query, i: nat)
    requires i < |Pick(rows, q)|
    ensures Pick(rows, q)[i] in rows && q.Accepts(Pick(rows, q)[i])
    decreases |rows|
  {
    if !q.Accepts(rows[0]) {
      PickIn(rows[1..], q, i);
    } else if i > 0 {
      PickIn(rows[1..], q, i - 1);
    }
  }

  lemma {:induction false} PickHas(rows: seq<Row>, q: Query, r: Row)
    requires r in rows && q.Accepts(r)
    ensures r in Pick(rows, q)
    decreases |rows|
  {
    if rows[0] != r {
      PickHas(rows[1..], q, r);
    }
  }

  lemma {:induction false} PickSnapshot(rows: seq<Row>, q: Query)
    requires Snapshot(rows)
    ensures Snapshot(Pick(rows, q))
    decreases |rows|
  {
    if rows != [] {
      var rest := Pick(rows[1..], q);
      PickSnapshot(rows[1..], q);
      forall i | 0 <= i < |rest| ensures Less(rows[0].id, rest[i].id) {
        PickIn(rows[1..], q, i);
      }
    }
  }

  lemma SliceSnapshot(rows: seq<Row>, a: nat, b: nat)
    requires Snapshot(rows) && a <= b <= |rows|
    ensures Snapshot(rows[a..b])
  {
  }

  // ---------------------------------------------------------------- paging

  /** Restarting a scan at one of its own rows yields the rows from there on. */
  lemma {:induction false} Rescan(rows: seq<Row>, lo: string, hi: string, p: nat)
    requires Snapshot(rows)
    requires p < |Pick(rows, Scan(lo, hi))|
    ensures Pick(rows, Scan(Pick(rows, Scan(lo, hi))[p].id, hi)) == Pick(rows, Scan(lo, hi))[p..]
    decreases |rows|
  {
    var hits := Pick(rows, Scan(lo, hi));
    var rest := Pick(rows[1..], Scan(lo, hi));
    var key := hits[p].id;
    if Scan(lo, hi).Accepts(rows[0]) && p == 0 {
      assert hits == [rows[0]] + rest;
      forall r | r in rows[1..] ensures Scan(lo, hi).Accepts(r) == Scan(key, hi).Accepts(r) {
        if lo != "" && lo != key {
          LessTransitive(lo, key, r.id);
        }
      }
      PickCongruent(rows[1..], Scan(lo, hi), Scan(key, hi));
    } else {
      var q := if Scan(lo, hi).Accepts(rows[0]) then p - 1 else p;
      assert hits[p] == rest[q] && hits[p..] == rest[q..];
      Rescan(rows[1..], lo, hi, q);
      PickIn(rows[1..], Scan(lo, hi), q);
      LessAsymmetric(rows[0].id, key);
    }
  }

  /** One past the last ordinary row of range[pos..end], or pos when there is none. */
  function LastOrdinary(range: seq<Row>, pos: nat, end: nat): (last: nat)
    requires pos <= end <= |range|
    ensures pos <= last <= end
    ensures last > pos ==> !range[last - 1].design
    ensures forall i :: last <= i < end ==> range[i].design
    decreases end
  {
    if end == pos then pos
    else if range[end - 1].design then LastOrdinary(range, pos, end - 1)
    else end
  }

  function PageEnd(range: seq<Row>, pos: nat): (end: nat)
    requires pos <= |range|
    ensures pos <= end <= |range|
  {
    if pos + PAGE <= |range| then pos + PAGE else |range|
  }

  /** The position in the range where the paged loop gives up: the first page without any
      ordinary row, as every other page moves on to just after its last ordinary row. */
  function ScanEnd(range: seq<Row>, pos: nat): (end: nat)
    requires pos <= |range|
    ensures pos <= end <= |range|
    decreases |range| - pos
  {
    var last := LastOrdinary(range, pos, PageEnd(range, pos));
    if last == pos then pos else ScanEnd(range, last)
  }

  /** What the paged loop returns over a range of rows. */
  function Listed(rows: seq<Row>, startID: string, endID: string, filesOnly: bool): seq<Row> {
    var range := Pick(rows, Scan(startID, endID));
    Pick(range[..ScanEnd(range, 0)], Kept(endID, filesOnly))
  }

  lemma {:induction false} PageResults(range: seq<Row>, pos: nat, end: nat)
    requires pos <= end <= |range|
    ensures var results := Pick(range[pos..end], Documents);
            var last := LastOrdinary(range, pos, end);
            && results == Pick(range[pos..last], Documents)
            && (|results| == 0 <==> last == pos)
            && (|results| > 0 ==> results[|results| - 1] == range[last - 1])
    decreases end
  {
    if end > pos {
      PickLast(range, pos, end);
      if range[end - 1].design {
        PageResults(range, pos, end - 1);
      }
    }
  }

  /** The last row of a page is in its results unless it is a design document. */
  lemma PickLast(range: seq<Row>, pos: nat, end: nat)
    requires pos < end <= |range|
    ensures Pick(range[pos..end], Documents)
         == Pick(range[pos..end - 1], Documents) + (if range[end - 1].design then [] else [range[end - 1]])
  {
    assert range[pos..end] == range[pos..end - 1] + [range[end - 1]];
    PickAppend(range[pos..end - 1], [range[end - 1]], Documents);
  }

  /** The request of a page at position `pos` of the range reads exactly that page. */
  lemma PageRequest(rows: seq<Row>, startID: string, endID: string, pos: nat, req: Request)
    requires Snapshot(rows)
    requires pos <= |Pick(rows, Scan(startID, endID))|
    requires pos == 0 ==> req == Request(startID, endID, PAGE, 0)
    requires pos > 0 ==> req == Request(Pick(rows, Scan(startID, endID))[pos - 1].id, endID, PAGE, 1)
    ensures var range := Pick(rows, Scan(startID, endID));
            GetAllDocs(rows, req) == Pick(range[pos..PageEnd(range, pos)], Documents)
  {
    var range := Pick(rows, Scan(startID, endID));
    var hits := Pick(rows, Scan(req.startKey, req.endKey));
    if pos > 0 {
      Rescan(rows, startID, endID, pos - 1);
      assert range[pos - 1..][1..] == range[pos..];
    } else {
      assert range[0..] == range;
    }
    assert req.skip <= |hits| && hits[req.skip..] == range[pos..];
    if pos + PAGE <= |range| {
      assert range[pos..][..PAGE] == range[pos..pos + PAGE];
      assert |range[pos..]| <= PAGE ==> range[pos..] == range[pos..pos + PAGE];
    } else {
      assert range[pos..] == range[pos..|range|];
    }
  }

  /** The row with the end ID can only be the last one of the range, hence of its page. */
  lemma EndIsLast(range: seq<Row>, endID: string, pos: nat, end: nat, i: nat)
    requires Snapshot(range) && pos <= end <= |range|
    requires forall k :: 0 <= k < |range| ==> AtMost(range[k].id, endID)
    requires i < |Pick(range[pos..end], Documents)| && Pick(range[pos..end], Documents)[i].id == endID
    ensures i == |Pick(range[pos..end], Documents)| - 1
    ensures end == |range| && end > pos && !range[end - 1].design
  {
    var page := range[pos..end];
    var results := Pick(page, Documents);
    SliceSnapshot(range, pos, end);
    PickIn(page, Documents, i);
    var at :| 0 <= at < |page| && page[at] == results[i];
    if pos + at < |range| - 1 {
      LessAsymmetric(range[pos + at].id, range[pos + at + 1].id);
    }
    if i < |results| - 1 {
      PickSnapshot(page, Documents);
      PickIn(page, Documents, i + 1);
      LessAsymmetric(results[i].id, results[i + 1].id);
    }
  }

  lemma RangeBounds(rows: seq<Row>, startID: string, endID: string)
    requires Snapshot(rows) && endID != ""
    ensures var range := Pick(rows, Scan(startID, endID));
            Snapshot(range) && forall k :: 0 <= k < |range| ==> AtMost(range[k].id, endID)
  {
    var range := Pick(rows, Scan(startID, endID));
    PickSnapshot(rows, Scan(startID, endID));
    forall k | 0 <= k < |range| ensures AtMost(range[k].id, endID) {
      PickIn(rows, Scan(startID, endID), k);
    }
  }

  /** The inner loop over one page: stop at the end ID, skip directories. */
  method Collect(results: seq<Row>, endID: string, filesOnly: bool, docs: seq<Row>)
    returns (collected: seq<Row>, ended: bool)
    requires forall i :: 0 <= i < |results| ==> !results[i].design
    ensures ended <==> exists i :: 0 <= i < |results| && results[i].id == endID
    ensures !ended ==> collected == docs + Pick(results, Kept(endID, filesOnly))
    ensures ended ==> exists i :: 0 <= i < |results| && results[i].id == endID
                                  && collected == docs + Pick(results[..i], Kept(endID, filesOnly))
  {
    collected, ended := docs, false;
    for i := 0 to |results|
      invariant forall j :: 0 <= j < i ==> results[j].id != endID
      invariant collected == docs + Pick(results[..i], Kept(endID, filesOnly))
    {
      if results[i].id == endID {
        return collected, true;
      }
      assert results[..i + 1] == results[..i] + [results[i]];
      PickAppend(results[..i], [results[i]], Kept(endID, filesOnly));
      if filesOnly ==> results[i].isFile {
        collected := collected + [results[i]];
      }
    }
    assert results[..|results|] == results;
  }

  /** A page whose last ordinary row precedes `last` contributes what its results contribute. */
  lemma PageKept(range: seq<Row>, pos: nat, last: nat, endID: string, filesOnly: bool)
    requires pos <= last <= |range|
    ensures Pick(range[..last], Kept(endID, filesOnly))
         == Pick(range[..pos], Kept(endID, filesOnly))
          + Pick(Pick(range[pos..last], Documents), Kept(endID, filesOnly))
  {
    assert range[..last] == range[..pos] + range[pos..last];
    PickAppend(range[..pos], range[pos..last], Kept(endID, filesOnly));
    PickTwice(range[pos..last], Documents, Kept(endID, filesOnly), Kept(endID, filesOnly));
  }

  /** Stopping at the end ID loses nothing: it is the last row, and it is not kept anyway. */
  lemma StoppedAtEnd(range: seq<Row>, endID: string, filesOnly: bool, pos: nat, i: nat)
    requires Snapshot(range) && pos <= |range|
    requires forall k :: 0 <= k < |range| ==> AtMost(range[k].id, endID)
    requires var results := Pick(range[pos..PageEnd(range, pos)], Documents);
             i < |results| && results[i].id == endID
    ensures var results := Pick(range[pos..PageEnd(range, pos)], Documents);
            Pick(range[..ScanEnd(range, pos)], Kept(endID, filesOnly))
            == Pick(range[..pos], Kept(endID, filesOnly)) + Pick(results[..i], Kept(endID, filesOnly))
  {
    var end := PageEnd(range, pos);
    var results := Pick(range[pos..end], Documents);
    var last := LastOrdinary(range, pos, end);
    PageResults(range, pos, end);
    EndIsLast(range, endID, pos, end, i);
    PageKept(range, pos, last, endID, filesOnly);
    assert results == results[..i] + [results[i]];
    PickAppend(results[..i], [results[i]], Kept(endID, filesOnly));
    assert Pick([results[i]], Kept(endID, filesOnly)) == [];
  }

  /** One iteration: the page at `pos` ends just after its last ordinary row. */
  lemma PageFacts(rows: seq<Row>, startID: string, endID: string, pos: nat, req: Request)
    requires Snapshot(rows)
    requires pos <= |Pick(rows, Scan(startID, endID))|
    requires pos == 0 ==> req == Request(startID, endID, PAGE, 0)
    requires pos > 0 ==> req == Request(Pick(rows, Scan(startID, endID))[pos - 1].id, endID, PAGE, 1)
    ensures var range := Pick(rows, Scan(startID, endID));
            var results := GetAllDocs(rows, req);
            var last := LastOrdinary(range, pos, PageEnd(range, pos));
            && results == Pick(range[pos..PageEnd(range, pos)], Documents)
            && results == Pick(range[pos..last], Documents)
            && (forall i :: 0 <= i < |results| ==> !results[i].design)
            && (|results| == 0 <==> last == pos)
            && (|results| > 0 ==> results[|results| - 1] == range[last - 1])
  {
    var range := Pick(rows, Scan(startID, endID));
    PageRequest(rows, startID, endID, pos, req);
    PageResults(range, pos, PageEnd(range, pos));
    AllOrdinary(range[pos..PageEnd(range, pos)]);
  }

  lemma AllOrdinary(page: seq<Row>)
    ensures forall i :: 0 <= i < |Pick(page, Documents)| ==> !Pick(page, Documents)[i].design
  {
    forall i | 0 <= i < |Pick(page, Documents)| ensures !Pick(page, Documents)[i].design {
      PickIn(page, Documents, i);
    }
  }

  /** Where the loop stands when `docs` holds what it kept of the rows before `pos`. */
  ghost predicate Paging(range: seq<Row>, startID: string, endID: string, filesOnly: bool,
                         pos: nat, req: Request, docs: seq<Row>)
  {
    && pos <= |range|
    && (pos == 0 ==> req == Request(startID, endID, PAGE, 0))
    && (pos > 0 ==> req == Request(range[pos - 1].id, endID, PAGE, 1))
    && ScanEnd(range, pos) == ScanEnd(range, 0)
    && docs == Pick(range[..pos], Kept(endID, filesOnly))
  }

  /** One turn of the loop shared by `listFilesFromCursor` and `listVersionsFromCursor`: the
      next page restarts at the last document of this one and skips it. */
  method ReadPage(rows: seq<Row>, startID: string, endID: string, filesOnly: bool,
                  ghost pos: nat, req: Request, docs: seq<Row>)
    returns (docs': seq<Row>, req': Request, ghost pos': nat, done: bool)
    requires Snapshot(rows) && endID != ""
    requires Paging(Pick(rows, Scan(startID, endID)), startID, endID, filesOnly, pos, req, docs)
    ensures done ==> docs' == Listed(rows, startID, endID, filesOnly)
    ensures !done ==> pos < pos'
    ensures !done ==> Paging(Pick(rows, Scan(startID, endID)), startID, endID, filesOnly, pos', req', docs')
  {
    ghost var range := Pick(rows, Scan(startID, endID));
    var results := GetAllDocs(rows, req);
    PageFacts(rows, startID, endID, pos, req);
    docs', req', pos', done := docs, req, pos, true;
    if |results| == 0 {
      return;
    }
    var collected, ended := Collect(results, endID, filesOnly, docs);
    docs' := collected;
    if ended {
      ghost var i :| 0 <= i < |results| && results[i].id == endID
                  && collected == docs + Pick(results[..i], Kept(endID, filesOnly));
      RangeBounds(rows, startID, endID);
      StoppedAtEnd(range, endID, filesOnly, pos, i);
      return;
    }
    pos', done := LastOrdinary(range, pos, PageEnd(range, pos)), false;
    PageKept(range, pos, pos', endID, filesOnly);
    req' := Request(results[|results| - 1].id, endID, PAGE, 1);
  }

  /** The loop shared by `listFilesFromCursor` and `listVersionsFromCursor`. */
  method ListRange(rows: seq<Row>, startID: string, endID: string, filesOnly: bool)
    returns (docs: seq<Row>)
    requires Snapshot(rows) && endID != ""
    ensures docs == Listed(rows, startID, endID, filesOnly)
  {
    ghost var range := Pick(rows, Scan(startID, endID));
    ghost var pos: nat := 0;
    var done := false;
    var req := Request(startID, endID, PAGE, 0);
    docs := [];
    while !done
      invariant !done ==> Paging(range, startID, endID, filesOnly, pos, req, docs)
      invariant done ==> docs == Listed(rows, startID, endID, filesOnly)
      decreases !done, |range| - pos
    {
      docs, req, pos, done := ReadPage(rows, startID, endID, filesOnly, pos, req, docs);
    }
  }

  // ---------------------------------------------------------------- completeness

  function DesignCount(rows: seq<Row>): nat {
    if rows == [] then 0 else (if rows[0].design then 1 else 0) + DesignCount(rows[1..])
  }

  lemma {:induction false} DesignCountAppend(a: seq<Row>, b: seq<Row>)
    ensures DesignCount(a + b) == DesignCount(a) + DesignCount(b)
    decreases |a|
  {
    if a == [] {
      assert a + b == b;
    } else {
      assert (a + b)[0] == a[0] && (a + b)[1..] == a[1..] + b;
      DesignCountAppend(a[1..], b);
    }
  }

  lemma {:induction false} DesignCountAll(a: seq<Row>)
    requires forall i :: 0 <= i < |a| ==> a[i].design
    ensures DesignCount(a) == |a|
    decreases |a|
  {
    if a != [] {
      DesignCountAll(a[1..]);
    }
  }

  lemma {:induction false} DesignCountNone(a: seq<Row>)
    requires forall i :: 0 <= i < |a| ==> !a[i].design
    ensures DesignCount(a) == 0
    decreases |a|
  {
    if a != [] {
      DesignCountNone(a[1..]);
    }
  }

  lemma DesignCountSlice(range: seq<Row>, a: nat, b: nat)
    requires a <= b <= |range|
    ensures DesignCount(range[a..b]) <= DesignCount(range)
  {
    assert range == range[..a] + (range[a..b] + range[b..]);
    DesignCountAppend(range[..a], range[a..b] + range[b..]);
    DesignCountAppend(range[a..b], range[b..]);
  }

  /** The loop stops at a page of design documents only. */
  lemma {:induction false} StopPage(range: seq<Row>, pos: nat)
    requires pos <= |range|
    ensures var stop := ScanEnd(range, pos);
            forall i :: stop <= i < PageEnd(range, stop) ==> range[i].design
    decreases |range| - pos
  {
    var last := LastOrdinary(range, pos, PageEnd(range, pos));
    if last != pos {
      StopPage(range, last);
    }
  }

  /** A full page of consecutive design documents cannot be crossed. */
  lemma {:induction false} CannotCross(range: seq<Row>, pos: nat, a: nat)
    requires pos <= a && a + PAGE <= |range|
    requires forall i :: a <= i < a + PAGE ==> range[i].design
    ensures ScanEnd(range, pos) <= a
    decreases |range| - pos
  {
    var last := LastOrdinary(range, pos, PageEnd(range, pos));
    if last != pos {
      assert last <= a;
      CannotCross(range, last, a);
    }
  }

  /** Design documents are consecutive in a snapshot. */
  lemma DesignContiguous(range: seq<Row>, i: nat, j: nat, k: nat)
    requires Snapshot(range)
    requires i < j < k < |range| && range[i].design && range[k].design
    ensures range[j].design
  {
    PrefixIsContiguous(DESIGN, range[i].id, range[j].id, range[k].id);
  }

  function FirstDesign(range: seq<Row>, from: nat): (a: nat)
    requires from <= |range|
    ensures from <= a <= |range|
    ensures forall i :: from <= i < a ==> !range[i].design
    ensures a < |range| ==> range[a].design
    decreases |range| - from
  {
    if from == |range| || range[from].design then from else FirstDesign(range, from + 1)
  }

  function AfterDesigns(range: seq<Row>, upTo: nat): (b: nat)
    requires upTo <= |range|
    ensures b <= upTo
    ensures forall i :: b <= i < upTo ==> !range[i].design
    ensures b > 0 ==> range[b - 1].design
  {
    if upTo == 0 || range[upTo - 1].design then upTo else AfterDesigns(range, upTo - 1)
  }

  /** The design documents of a snapshot form one block. */
  lemma DesignBlock(range: seq<Row>) returns (a: nat, b: nat)
    requires Snapshot(range) && DesignCount(range) > 0
    ensures a < b <= |range| && b - a == DesignCount(range)
    ensures forall i :: 0 <= i < |range| ==> (range[i].design <==> a <= i < b)
  {
    a, b := FirstDesign(range, 0), AfterDesigns(range, |range|);
    if a >= b {
      DesignCountNone(range);
    }
    BlockIsDesign(range, a, b);
    CountBlock(range, a, b);
  }

  lemma CountBlock(range: seq<Row>, a: nat, b: nat)
    requires a <= b <= |range|
    requires forall i :: 0 <= i < |range| ==> (range[i].design <==> a <= i < b)
    ensures DesignCount(range) == b - a
  {
    assert range == range[..a] + (range[a..b] + range[b..]);
    DesignCountAppend(range[..a], range[a..b] + range[b..]);
    DesignCountAppend(range[a..b], range[b..]);
    DesignCountNone(range[..a]);
    DesignCountAll(range[a..b]);
    DesignCountNone(range[b..]);
  }

  lemma BlockIsDesign(range: seq<Row>, a: nat, b: nat)
    requires Snapshot(range) && a < b <= |range| && range[a].design && range[b - 1].design
    ensures forall i :: a <= i < b ==> range[i].design
  {
    forall i | a < i < b - 1 ensures range[i].design {
      DesignContiguous(range, a, i, b - 1);
    }
  }

  /** An ordinary row is only missed behind a full page of design documents. */
  lemma MissedScan(range: seq<Row>, j: nat)
    requires ScanEnd(range, 0) <= j < |range| && !range[j].design
    ensures DesignCount(range) >= PAGE && ScanEnd(range, 0) < j && range[ScanEnd(range, 0)].design
  {
    var stop := ScanEnd(range, 0);
    StopPage(range, 0);
    var end := PageEnd(range, stop);
    assert end == stop + PAGE && end <= j && range[stop].design;
    DesignCountAll(range[stop..end]);
    DesignCountSlice(range, stop, end);
  }

  /** Behind a full page of design documents, everything is missed. */
  lemma BlockedScan(range: seq<Row>, i: nat)
    requires Snapshot(range) && DesignCount(range) >= PAGE && i < |range| && range[i].design
    ensures ScanEnd(range, 0) <= i
  {
    var a, b := DesignBlock(range);
    CannotCross(range, 0, a);
  }

  lemma {:induction false} DesignCountPick(rows: seq<Row>, q: Query)
    ensures DesignCount(Pick(rows, q)) <= DesignCount(rows)
    decreases |rows|
  {
    if rows != [] {
      DesignCountPick(rows[1..], q);
      if q.Accepts(rows[0]) {
        assert Pick(rows, q)[0] == rows[0] && Pick(rows, q)[1..] == Pick(rows[1..], q);
      }
    }
  }

  // ---------------------------------------------------------------- when a listing is right

  /** Nothing that the lister keeps sorts after a design document. */
  predicate KeptFirst(range: seq<Row>, kept: Query) {
    forall i, j :: 0 <= i < j < |range| && range[i].design ==> !kept.Accepts(range[j])
  }

  /** The condition on a range, on the rows that a single request without limit would return. */
  predicate Reaches(rows: seq<Row>, startID: string, endID: string, filesOnly: bool) {
    var range := Pick(rows, Scan(startID, endID));
    DesignCount(range) < PAGE || KeptFirst(range, Kept(endID, filesOnly))
  }

  /** The part of a database is what the lister would keep of the whole range. */
  lemma PartOfRange(rows: seq<Row>, startID: string, endID: string, filesOnly: bool)
    requires Snapshot(rows) && endID != ""
    ensures Pick(rows, Part(startID, endID, filesOnly)) == Pick(Pick(rows, Scan(startID, endID)), Kept(endID, filesOnly))
  {
    forall r | r in rows
      ensures Part(startID, endID, filesOnly).Accepts(r)
           == (Scan(startID, endID).Accepts(r) && Kept(endID, filesOnly).Accepts(r))
    {
      LessIrreflexive(endID);
      var i :| 0 <= i < |rows| && rows[i] == r;
      assert Less("", r.id);
    }
    PickTwice(rows, Scan(startID, endID), Kept(endID, filesOnly), Part(startID, endID, filesOnly));
  }

  /** What the loop keeps, then what it misses, is the part. */
  lemma ListedThenMissed(rows: seq<Row>, startID: string, endID: string, filesOnly: bool)
    requires Snapshot(rows) && endID != ""
    ensures var range := Pick(rows, Scan(startID, endID));
            Listed(rows, startID, endID, filesOnly) + Pick(range[ScanEnd(range, 0)..], Kept(endID, filesOnly))
            == Pick(rows, Part(startID, endID, filesOnly))
  {
    var range := Pick(rows, Scan(startID, endID));
    var stop := ScanEnd(range, 0);
    PartOfRange(rows, startID, endID, filesOnly);
    assert range == range[..stop] + range[stop..];
    PickAppend(range[..stop], range[stop..], Kept(endID, filesOnly));
  }

  lemma NothingMissed(range: seq<Row>, kept: Query)
    requires kept.Kept? && (DesignCount(range) < PAGE || KeptFirst(range, kept))
    ensures Pick(range[ScanEnd(range, 0)..], kept) == []
  {
    var stop := ScanEnd(range, 0);
    forall r | r in range[stop..] ensures !kept.Accepts(r) {
      var j :| stop <= j < |range| && range[j] == r;
      if !r.design {
        MissedScan(range, j);
      }
    }
    PickNothing(range[stop..], kept);
  }

  lemma SomethingMissed(range: seq<Row>, kept: Query)
    requires Snapshot(range) && DesignCount(range) >= PAGE && !KeptFirst(range, kept)
    ensures Pick(range[ScanEnd(range, 0)..], kept) != []
  {
    var i, j :| 0 <= i < j < |range| && range[i].design && kept.Accepts(range[j]);
    BlockedScan(range, i);
    MissedAt(range, ScanEnd(range, 0), kept, j);
  }

  lemma MissedAt(range: seq<Row>, stop: nat, kept: Query, j: nat)
    requires stop <= j < |range| && kept.Accepts(range[j])
    ensures Pick(range[stop..], kept) != []
  {
    assert range[j] == range[stop..][j - stop];
    PickHas(range[stop..], kept, range[j]);
  }

  /** A listing is the part of its range, directories and the end ID left out, exactly when the
      design documents of the range are fewer than a page or nothing to keep sorts after one. */
  lemma ListedIff(rows: seq<Row>, startID: string, endID: string, filesOnly: bool)
    requires Snapshot(rows) && endID != ""
    ensures Listed(rows, startID, endID, filesOnly) == Pick(rows, Part(startID, endID, filesOnly))
       <==> Reaches(rows, startID, endID, filesOnly)
  {
    var range := Pick(rows, Scan(startID, endID));
    ListedThenMissed(rows, startID, endID, filesOnly);
    if Reaches(rows, startID, endID, filesOnly) {
      NothingMissed(range, Kept(endID, filesOnly));
    } else {
      PickSnapshot(rows, Scan(startID, endID));
      SomethingMissed(range, Kept(endID, filesOnly));
    }
  }

  /** What is in a part: the rows of documents that are not design ones, are files when only files
      are listed, and have an ID between the two, the last one excluded. */
  lemma InPart(rows: seq<Row>, lo: string, hi: string, filesOnly: bool, r: Row)
    ensures r in Pick(rows, Part(lo, hi, filesOnly)) <==>
              r in rows && !r.design && (filesOnly ==> r.isFile) && (lo == r.id || Less(lo, r.id)) && Less(r.id, hi)
  {
    if r in rows && Part(lo, hi, filesOnly).Accepts(r) {
      PickHas(rows, Part(lo, hi, filesOnly), r);
    }
    if r in Pick(rows, Part(lo, hi, filesOnly)) {
      var i :| 0 <= i < |Pick(rows, Part(lo, hi, filesOnly))| && Pick(rows, Part(lo, hi, filesOnly))[i] == r;
      PickIn(rows, Part(lo, hi, filesOnly), i);
    }
  }

  /** In any case a listing is a beginning of the part. */
  lemma ListedBegins(rows: seq<Row>, startID: string, endID: string, filesOnly: bool)
    requires Snapshot(rows) && endID != ""
    ensures Listed(rows, startID, endID, filesOnly) <= Pick(rows, Part(startID, endID, filesOnly))
  {
    ListedThenMissed(rows, startID, endID, filesOnly);
  }

  /** Fewer design documents than a page in the whole database make every listing right. */
  lemma FewDesignsReach(rows: seq<Row>, startID: string, endID: string, filesOnly: bool)
    requires DesignCount(rows) < 1000
    ensures Reaches(rows, startID, endID, filesOnly)
  {
    DesignCountPick(rows, Scan(startID, endID));
  }

  // ---------------------------------------------------------------- a database that is not listed

  function Xs(n: nat): (s: string)
    ensures |s| == n && forall i :: 0 <= i < n ==> s[i] == 'x'
  {
    seq(n, _ => 'x')
  }

  lemma {:induction false} LongerIsLess(p: string, q: string)
    requires |p| < |q| && q[..|p|] == p
    ensures Less(p, q)
    decreases |p|
  {
    if p != "" {
      assert q[1..][..|p| - 1] == p[1..];
      LongerIsLess(p[1..], q[1..]);
    }
  }

  /** Any number of design documents, before one file. */
  function Crowded(n: nat): (rows: seq<Row>)
    ensures |rows| == n + 1 && rows[n] == Row("a", true, 1, false)
    ensures forall i :: 0 <= i < n ==> rows[i] == Row(DESIGN + Xs(i), false, 0, true)
  {
    seq(n, i requires 0 <= i < n => Row(DESIGN + Xs(i), false, 0, true)) + [Row("a", true, 1, false)]
  }

  lemma CrowdedSnapshot(n: nat)
    ensures Snapshot(Crowded(n))
  {
    var rows := Crowded(n);
    assert !HasPrefix("a", DESIGN);
    forall i, j | 0 <= i < j < |rows| ensures Less(rows[i].id, rows[j].id) {
      if j < n {
        assert (DESIGN + Xs(j))[..|DESIGN + Xs(i)|] == DESIGN + Xs(i);
        LongerIsLess(DESIGN + Xs(i), DESIGN + Xs(j));
      } else {
        assert (DESIGN + Xs(i))[0] == '_';
      }
    }
  }

  /** The listing of the whole of such a database: nothing, with a page of design documents. */
  lemma CrowdedListing(endID: string)
    requires Less("b", endID)
    ensures Snapshot(Crowded(PAGE)) && !Reaches(Crowded(PAGE), "", endID, true)
    ensures Crowded(PAGE)[PAGE] in Pick(Crowded(PAGE), Part("", endID, true))
    ensures Listed(Crowded(PAGE), "", endID, true) == []
  {
    var rows := Crowded(PAGE);
    CrowdedSnapshot(PAGE);
    forall i | 0 <= i < |rows| ensures Scan("", endID).Accepts(rows[i]) {
      if Less(rows[i].id, "b") {
        LessTransitive(rows[i].id, "b", endID);
      }
    }
    PickAll(rows, Scan("", endID));
    CountBlock(rows, 0, PAGE);
    BlockedScan(rows, 0);
    assert rows[0].design && rows[PAGE] in rows;
    LessAsymmetric("b", endID);
    assert Less("a", "b") && Less("", "a");
    LessTransitive("a", "b", endID);
    LessAsymmetric("a", endID);
    PickHas(rows, Part("", endID, true), rows[PAGE]);
  }
}

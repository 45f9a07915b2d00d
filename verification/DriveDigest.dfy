/** The digests of a window (model/driveactivity/flush.go:78-218): the tallies of each member are
    summed under the top folders, those directly under the root of the drive, and the digests are
    published before the window is dropped.

    The virtual file system is two lookups, by ID and by path, which answer the same thing
    throughout one flush. */
module DriveDigest {
  import opened Text
  import opened DriveActivity
  import opened Sums

  datatype Dir = Dir(id: string, path: string)

  datatype Lookup = Found(dir: Dir) | Missing | Failed

  datatype FS = FS(find: string -> Lookup, findPath: string -> Lookup)

  datatype Digest = Digest(member: string, top: Dir, tally: Tally) {
    function DigestKey(): Key { Key(member, top.id) }
  }

  // ---------------------------------------------------------------- top folders

  /** The top folder a folder is under: none when it has left the drive. */
  datatype Top = Under(dir: Dir) | Outside | Unknown

  /** The answer of `topOf` without its cache, which starts with the root. */
  function TopOf(fs: FS, rootID: string, root: Dir, folder: string): Top {
    if folder == rootID then Under(root) else
    match fs.find(folder)
    case Missing => Outside
    case Failed => Unknown
    case Found(dir) =>
      if !HasPrefix(dir.path, root.path + "/") then Outside else
      var name := SplitN2(dir.path[|root.path| + 1..], '/')[0];
      var topPath := root.path + "/" + name;
      if topPath == dir.path then Under(dir) else
      match fs.findPath(topPath)
      case Found(top) => Under(top)
      case Missing => Unknown
      case Failed => Unknown
  }

  predicate IsChild(root: Dir, top: Dir) {
    HasPrefix(top.path, root.path + "/") && '/' !in top.path[|root.path| + 1..]
  }

  predicate Inside(dir: Dir, top: Dir) {
    dir.path == top.path || HasPrefix(dir.path, top.path + "/")
  }

  /** The top folder is a child of the root, and the folder is inside of it. */
  lemma TopIsChild(fs: FS, rootID: string, root: Dir, folder: string)
    requires forall p :: fs.findPath(p).Found? ==> fs.findPath(p).dir.path == p
    requires TopOf(fs, rootID, root, folder).Under? && folder != rootID
    ensures var top := TopOf(fs, rootID, root, folder).dir;
            IsChild(root, top) && fs.find(folder).Found? && Inside(fs.find(folder).dir, top)
  {
    var dir, top := fs.find(folder).dir, TopOf(fs, rootID, root, folder).dir;
    var rel := dir.path[|root.path| + 1..];
    var parts := SplitN2(rel, '/');
    assert dir.path == root.path + "/" + rel;
    assert top.path == root.path + "/" + parts[0];
    assert top.path[|root.path| + 1..] == parts[0];
    if |parts| == 2 {
      assert dir.path == (top.path + "/") + parts[1];
    }
  }

  /** There is only one such folder path. */
  lemma OnlyOneTop(root: Dir, dir: Dir, top: Dir, other: Dir)
    requires IsChild(root, top) && IsChild(root, other) && Inside(dir, top) && Inside(dir, other)
    ensures top.path == other.path
  {
    TopName(root, dir, top);
    TopName(root, dir, other);
  }

  lemma TopName(root: Dir, dir: Dir, top: Dir)
    requires IsChild(root, top) && Inside(dir, top)
    ensures |root.path| < |dir.path| && top.path == root.path + "/" + SplitN2(dir.path[|root.path| + 1..], '/')[0]
  {
    var n := |root.path| + 1;
    var name, rel := top.path[n..], dir.path[n..];
    assert top.path == root.path + "/" + name;
    if dir.path != top.path {
      var rest := dir.path[|top.path| + 1..];
      assert dir.path == top.path + "/" + rest;
      assert rel == name + ['/'] + rest;
      SplitOfGlued(name, '/', rest);
    }
  }

  /** A path directly under the root. */
  predicate ChildPath(root: Dir, p: string) {
    HasPrefix(p, root.path + "/") && '/' !in p[|root.path| + 1..]
  }

  /** The changes made in a folder count for this top folder: the root for itself; the folder for
      itself when it is directly under the root; else what is found at the path, directly under the
      root, that the folder is below. */
  ghost predicate Placed(fs: FS, rootID: string, root: Dir, folder: string, top: Dir) {
    || (folder == rootID && top == root)
    || (&& folder != rootID && fs.find(folder).Found?
        && exists p :: ChildPath(root, p) && PlacedAt(fs, fs.find(folder).dir, p, top))
  }

  predicate PlacedAt(fs: FS, dir: Dir, p: string, top: Dir) {
    if dir.path == p then top == dir else HasPrefix(dir.path, p + "/") && fs.findPath(p) == Found(top)
  }

  /** The folder is gone, or has left the drive. */
  predicate LeftDrive(fs: FS, rootID: string, root: Dir, folder: string) {
    && folder != rootID
    && (fs.find(folder).Missing? || (fs.find(folder).Found? && !HasPrefix(fs.find(folder).dir.path, root.path + "/")))
  }

  /** Nobody can tell where the folder is, or what is above it. */
  ghost predicate Unplaceable(fs: FS, rootID: string, root: Dir, folder: string) {
    && folder != rootID
    && (|| fs.find(folder).Failed?
        || (&& fs.find(folder).Found?
            && exists p :: ChildPath(root, p) && HasPrefix(fs.find(folder).dir.path, p + "/") && !fs.findPath(p).Found?))
  }

  predicate AtOrBelow(dir: Dir, p: string) {
    dir.path == p || HasPrefix(dir.path, p + "/")
  }

  function ChildName(root: Dir, dir: Dir): string
    requires HasPrefix(dir.path, root.path + "/")
  {
    root.path + "/" + SplitN2(dir.path[|root.path| + 1..], '/')[0]
  }

  /** There is one such path above a folder of the drive. */
  lemma ChildAbove(root: Dir, dir: Dir)
    requires HasPrefix(dir.path, root.path + "/")
    ensures ChildPath(root, ChildName(root, dir)) && AtOrBelow(dir, ChildName(root, dir))
  {
    var rel := dir.path[|root.path| + 1..];
    var parts := SplitN2(rel, '/');
    var p := root.path + "/" + parts[0];
    assert dir.path == root.path + "/" + rel && p[|root.path| + 1..] == parts[0];
    if |parts| == 2 {
      assert dir.path == (p + "/") + parts[1];
    }
  }

  lemma OnlyChildAbove(root: Dir, dir: Dir, p: string)
    requires HasPrefix(dir.path, root.path + "/") && ChildPath(root, p) && AtOrBelow(dir, p)
    ensures p == ChildName(root, dir)
  {
    TopName(root, dir, Dir("", p));
  }

  /** And none above a folder that is not in the drive. */
  lemma NoChildAbove(root: Dir, dir: Dir, p: string)
    requires !HasPrefix(dir.path, root.path + "/")
    ensures !(ChildPath(root, p) && AtOrBelow(dir, p))
  {
    assert HasPrefix(dir.path, p + "/") ==> dir.path[..|p|] == (p + "/")[..|p|] == p;
    assert HasPrefix(dir.path, p) && |p| > |root.path| ==> dir.path[..|root.path| + 1] == p[..|root.path| + 1];
  }

  /** The code computes that place. */
  lemma PlacedIff(fs: FS, rootID: string, root: Dir, folder: string)
    ensures forall top :: TopOf(fs, rootID, root, folder) == Under(top) <==> Placed(fs, rootID, root, folder, top)
    ensures TopOf(fs, rootID, root, folder).Outside? <==> LeftDrive(fs, rootID, root, folder)
    ensures TopOf(fs, rootID, root, folder).Unknown? <==> Unplaceable(fs, rootID, root, folder)
  {
    if folder != rootID && fs.find(folder).Found? {
      var dir := fs.find(folder).dir;
      if HasPrefix(dir.path, root.path + "/") {
        ChildAbove(root, dir);
        forall p | ChildPath(root, p) && AtOrBelow(dir, p) ensures p == ChildName(root, dir) {
          OnlyChildAbove(root, dir, p);
        }
      } else {
        forall p ensures !(ChildPath(root, p) && AtOrBelow(dir, p)) {
          NoChildAbove(root, dir, p);
        }
      }
    }
  }

  // ---------------------------------------------------------------- what grouping must give

  function CountedIf(counted: bool, t: Tally, kind: Kind): nat {
    if counted then t.Of(kind) else 0
  }

  /** The part of a tally that counts for a digest. */
  function Share(topOf: string -> Top, kind: Kind, dk: Key): (Key, Tally) -> nat {
    (k: Key, t: Tally) => CountedIf(Belongs(topOf, k, dk), t, kind)
  }

  predicate Belongs(topOf: string -> Top, k: Key, dk: Key) {
    k.member == dk.member && topOf(k.folder).Under? && topOf(k.folder).dir.id == dk.folder
  }

  /** The part of a tally that counts in some digest. */
  function InDrive(topOf: string -> Top, kind: Kind): (Key, Tally) -> nat {
    (k: Key, t: Tally) => CountedIf(topOf(k.folder).Under?, t, kind)
  }

  ghost predicate HasDigest(digests: seq<Digest>, dk: Key) {
    exists i :: 0 <= i < |digests| && digests[i].DigestKey() == dk
  }

  ghost predicate HasSource(topOf: string -> Top, counts: map<Key, Tally>, d: Digest) {
    exists k :: k in counts && k.member == d.member && topOf(k.folder) == Under(d.top)
  }

  ghost predicate OnePerKey(digests: seq<Digest>) {
    forall i, j :: 0 <= i < j < |digests| ==> digests[i].DigestKey() != digests[j].DigestKey()
  }

  ghost predicate Summed(topOf: string -> Top, counts: map<Key, Tally>, d: Digest) {
    forall kind :: d.tally.Of(kind) == Total(counts, Share(topOf, kind, d.DigestKey()))
  }

  ghost predicate FewSamples(t: Tally) {
    |t.samples| <= MAX_SAMPLES && forall i, j :: 0 <= i < j < |t.samples| ==> t.samples[i] != t.samples[j]
  }

  /** One digest for each member and top folder with counts, and in it the sum of those counts. */
  ghost predicate Grouped(topOf: string -> Top, counts: map<Key, Tally>, digests: seq<Digest>) {
    && OnePerKey(digests)
    && (forall i :: 0 <= i < |digests| ==> Summed(topOf, counts, digests[i]))
    && (forall i :: 0 <= i < |digests| ==> HasSource(topOf, counts, digests[i]) && FewSamples(digests[i].tally))
    && (forall k :: k in counts && topOf(k.folder).Under? ==> HasDigest(digests, Key(k.member, topOf(k.folder).dir.id)))
  }

  function Sum(digests: seq<Digest>, kind: Kind): nat {
    if digests == [] then 0 else Sum(digests[..|digests| - 1], kind) + digests[|digests| - 1].tally.Of(kind)
  }

  /** The result does not depend on the order of the visit, up to the samples and the order of
      the digests. */
  lemma GroupedUnique(topOf: string -> Top, counts: map<Key, Tally>, digests: seq<Digest>, others: seq<Digest>, i: int)
    requires Grouped(topOf, counts, digests) && Grouped(topOf, counts, others) && 0 <= i < |digests|
    ensures exists j :: 0 <= j < |others| && others[j].DigestKey() == digests[i].DigestKey()
                        && forall kind :: others[j].tally.Of(kind) == digests[i].tally.Of(kind)
  {
    var d := digests[i];
    var k :| k in counts && k.member == d.member && topOf(k.folder) == Under(d.top);
    assert HasDigest(others, d.DigestKey());
    var j :| 0 <= j < |others| && others[j].DigestKey() == d.DigestKey();
    assert Summed(topOf, counts, others[j]) && Summed(topOf, counts, d);
    forall kind ensures others[j].tally.Of(kind) == d.tally.Of(kind) {
    }
  }

  // ---------------------------------------------------------------- one tally more

  lemma {:induction false} TotalZero(counts: map<Key, Tally>, w: (Key, Tally) -> nat)
    requires forall k :: k in counts ==> w(k, counts[k]) == 0
    ensures Total(counts, w) == 0
    decreases |counts|
  {
    if counts != map[] {
      var k :| k in counts;
      assert (counts - {k}).Keys == counts.Keys - {k};
      TotalZero(counts - {k}, w);
      TotalRemove(counts, k, w);
    }
  }

  lemma TotalMore(counts: map<Key, Tally>, k: Key, t: Tally, w: (Key, Tally) -> nat)
    requires k !in counts
    ensures Total(counts[k := t], w) == w(k, t) + Total(counts, w)
  {
    TotalUpdate(counts, k, t, w);
    assert counts - {k} == counts;
  }

  function Plus(t: Tally, u: Tally): Tally {
    Sampled(t.(created := t.created + u.created, updated := t.updated + u.updated, deleted := t.deleted + u.deleted),
            u.samples)
  }

  function Sampled(t: Tally, names: seq<string>): Tally {
    if names == [] then t else Sampled(t, names[..|names| - 1]).Sample(names[|names| - 1])
  }

  lemma {:induction false} SampledKeeps(t: Tally, names: seq<string>)
    requires FewSamples(t)
    ensures FewSamples(Sampled(t, names)) && forall kind :: Sampled(t, names).Of(kind) == t.Of(kind)
    decreases |names|
  {
    if names != [] {
      SampledKeeps(t, names[..|names| - 1]);
    }
  }

  lemma PlusOf(t: Tally, u: Tally, kind: Kind)
    requires FewSamples(t)
    ensures FewSamples(Plus(t, u)) && Plus(t, u).Of(kind) == t.Of(kind) + u.Of(kind)
  {
    var sum := t.(created := t.created + u.created, updated := t.updated + u.updated, deleted := t.deleted + u.deleted);
    SampledKeeps(sum, u.samples);
    assert sum.Of(kind) == t.Of(kind) + u.Of(kind);
  }

  /** A digest that the tally does not belong to stays right. */
  lemma SummedElsewhere(topOf: string -> Top, counts: map<Key, Tally>, k: Key, t: Tally, d: Digest)
    requires k !in counts && Summed(topOf, counts, d) && !Belongs(topOf, k, d.DigestKey())
    ensures Summed(topOf, counts[k := t], d)
  {
    forall kind ensures d.tally.Of(kind) == Total(counts[k := t], Share(topOf, kind, d.DigestKey())) {
      TotalMore(counts, k, t, Share(topOf, kind, d.DigestKey()));
    }
  }

  lemma SummedHere(topOf: string -> Top, counts: map<Key, Tally>, k: Key, t: Tally, d: Digest)
    requires k !in counts && Summed(topOf, counts, d) && Belongs(topOf, k, d.DigestKey()) && FewSamples(d.tally)
    ensures Summed(topOf, counts[k := t], d.(tally := Plus(d.tally, t))) && FewSamples(Plus(d.tally, t))
  {
    var d' := d.(tally := Plus(d.tally, t));
    PlusOf(d.tally, t, Created);
    forall kind ensures d'.tally.Of(kind) == Total(counts[k := t], Share(topOf, kind, d'.DigestKey())) {
      TotalMore(counts, k, t, Share(topOf, kind, d.DigestKey()));
      PlusOf(d.tally, t, kind);
    }
  }

  lemma SummedFirst(topOf: string -> Top, counts: map<Key, Tally>, d: Digest)
    requires d.tally == NOTHING && forall k :: k in counts ==> !Belongs(topOf, k, d.DigestKey())
    ensures Summed(topOf, counts, d)
  {
    forall kind ensures Total(counts, Share(topOf, kind, d.DigestKey())) == 0 {
      TotalZero(counts, Share(topOf, kind, d.DigestKey()));
    }
  }

  lemma SourceKept(topOf: string -> Top, counts: map<Key, Tally>, k: Key, t: Tally, d: Digest)
    requires HasSource(topOf, counts, d)
    ensures HasSource(topOf, counts[k := t], d)
  {
    var j :| j in counts && j.member == d.member && topOf(j.folder) == Under(d.top);
    assert j in counts[k := t];
  }

  /** A tally out of the drive changes nothing. */
  lemma GroupedOutside(topOf: string -> Top, counts: map<Key, Tally>, digests: seq<Digest>, k: Key, t: Tally)
    requires Grouped(topOf, counts, digests) && k !in counts && !topOf(k.folder).Under?
    ensures Grouped(topOf, counts[k := t], digests)
  {
    forall i | 0 <= i < |digests|
      ensures Summed(topOf, counts[k := t], digests[i]) && HasSource(topOf, counts[k := t], digests[i])
    {
      SummedElsewhere(topOf, counts, k, t, digests[i]);
      SourceKept(topOf, counts, k, t, digests[i]);
    }
  }

  lemma DigestsKept(digests: seq<Digest>, i: int, d: Digest, dk: Key)
    requires 0 <= i < |digests| && d.DigestKey() == digests[i].DigestKey() && HasDigest(digests, dk)
    ensures HasDigest(digests[i := d], dk)
  {
    var j :| 0 <= j < |digests| && digests[j].DigestKey() == dk;
    assert digests[i := d][j].DigestKey() == dk;
  }

  lemma GroupedInto(topOf: string -> Top, counts: map<Key, Tally>, digests: seq<Digest>, k: Key, t: Tally, i: int)
    requires Grouped(topOf, counts, digests) && k !in counts && 0 <= i < |digests|
    requires Belongs(topOf, k, digests[i].DigestKey())
    ensures Grouped(topOf, counts[k := t], digests[i := digests[i].(tally := Plus(digests[i].tally, t))])
  {
    var d := digests[i].(tally := Plus(digests[i].tally, t));
    var after := digests[i := d];
    SummedHere(topOf, counts, k, t, digests[i]);
    forall j | 0 <= j < |after|
      ensures Summed(topOf, counts[k := t], after[j]) && HasSource(topOf, counts[k := t], after[j])
      ensures FewSamples(after[j].tally) && after[j].DigestKey() == digests[j].DigestKey()
    {
      SourceKept(topOf, counts, k, t, digests[j]);
      if j != i {
        assert digests[j].DigestKey() != digests[i].DigestKey();
        SummedElsewhere(topOf, counts, k, t, digests[j]);
      } else {
        SourceSame(topOf, counts[k := t], digests[i], d);
      }
    }
    forall j | j in counts[k := t] && topOf(j.folder).Under?
      ensures HasDigest(after, Key(j.member, topOf(j.folder).dir.id))
    {
      if j == k {
        assert digests[i].DigestKey() == Key(k.member, topOf(k.folder).dir.id);
        assert HasDigest(digests, Key(k.member, topOf(k.folder).dir.id));
      }
      DigestsKept(digests, i, d, Key(j.member, topOf(j.folder).dir.id));
    }
  }

  lemma SourceSame(topOf: string -> Top, counts: map<Key, Tally>, d: Digest, d': Digest)
    requires HasSource(topOf, counts, d) && d'.member == d.member && d'.top == d.top
    ensures HasSource(topOf, counts, d')
  {
  }

  /** A new digest, still empty: the tally that it is for is then added to it. */
  ghost predicate Opened(topOf: string -> Top, counts: map<Key, Tally>, digests: seq<Digest>, d: Digest) {
    d.tally == NOTHING && !HasDigest(digests, d.DigestKey()) && Grouped(topOf, counts, digests)
  }

  lemma NewDigest(topOf: string -> Top, counts: map<Key, Tally>, digests: seq<Digest>, k: Key, t: Tally, d: Digest)
    requires Opened(topOf, counts, digests, d) && k !in counts
    requires topOf(k.folder) == Under(d.top) && k.member == d.member
    ensures Grouped(topOf, counts[k := t], digests + [d.(tally := Plus(NOTHING, t))])
  {
    var filled := d.(tally := Plus(NOTHING, t));
    var after := digests + [filled];
    forall j | j in counts ensures !Belongs(topOf, j, d.DigestKey()) {
      assert topOf(j.folder).Under? ==> HasDigest(digests, Key(j.member, topOf(j.folder).dir.id));
    }
    SummedFirst(topOf, counts, d);
    SummedHere(topOf, counts, k, t, d);
    forall j | 0 <= j < |digests|
      ensures Summed(topOf, counts[k := t], digests[j]) && HasSource(topOf, counts[k := t], digests[j])
      ensures digests[j].DigestKey() != filled.DigestKey()
    {
      SummedElsewhere(topOf, counts, k, t, digests[j]);
      SourceKept(topOf, counts, k, t, digests[j]);
    }
    assert k in counts[k := t] && HasSource(topOf, counts[k := t], filled);
    HasDigestAfter(digests, filled);
  }

  lemma HasDigestAfter(digests: seq<Digest>, d: Digest)
    ensures HasDigest(digests + [d], d.DigestKey())
    ensures forall dk :: HasDigest(digests, dk) ==> HasDigest(digests + [d], dk)
  {
    assert (digests + [d])[|digests|] == d;
    forall dk | HasDigest(digests, dk) ensures HasDigest(digests + [d], dk) {
      var i :| 0 <= i < |digests| && digests[i].DigestKey() == dk;
      assert (digests + [d])[i].DigestKey() == dk;
    }
  }

  // ---------------------------------------------------------------- conservation

  lemma {:induction false} SumInto(digests: seq<Digest>, i: int, d: Digest, kind: Kind)
    requires 0 <= i < |digests| && d.tally.Of(kind) >= digests[i].tally.Of(kind)
    ensures Sum(digests[i := d], kind) == Sum(digests, kind) + (d.tally.Of(kind) - digests[i].tally.Of(kind))
    decreases |digests|
  {
    var n := |digests| - 1;
    if i < n {
      SumInto(digests[..n], i, d, kind);
      assert digests[i := d][..n] == digests[..n][i := d];
    } else {
      assert digests[i := d][..n] == digests[..n];
    }
  }

  ghost predicate Conserved(topOf: string -> Top, counts: map<Key, Tally>, digests: seq<Digest>) {
    forall kind :: Sum(digests, kind) == Total(counts, InDrive(topOf, kind))
  }

  lemma ConservedOutside(topOf: string -> Top, counts: map<Key, Tally>, digests: seq<Digest>, k: Key, t: Tally)
    requires Conserved(topOf, counts, digests) && k !in counts && !topOf(k.folder).Under?
    ensures Conserved(topOf, counts[k := t], digests)
  {
    forall kind ensures Sum(digests, kind) == Total(counts[k := t], InDrive(topOf, kind)) {
      TotalMore(counts, k, t, InDrive(topOf, kind));
    }
  }

  lemma ConservedInto(topOf: string -> Top, counts: map<Key, Tally>, digests: seq<Digest>, k: Key, t: Tally, i: int)
    requires Conserved(topOf, counts, digests) && k !in counts && topOf(k.folder).Under?
    requires 0 <= i < |digests| && FewSamples(digests[i].tally)
    ensures Conserved(topOf, counts[k := t], digests[i := digests[i].(tally := Plus(digests[i].tally, t))])
  {
    var d := digests[i].(tally := Plus(digests[i].tally, t));
    forall kind ensures Sum(digests[i := d], kind) == Total(counts[k := t], InDrive(topOf, kind)) {
      TotalMore(counts, k, t, InDrive(topOf, kind));
      PlusOf(digests[i].tally, t, kind);
      SumInto(digests, i, d, kind);
    }
  }

  lemma ConservedNew(topOf: string -> Top, counts: map<Key, Tally>, digests: seq<Digest>, k: Key, t: Tally, d: Digest)
    requires Conserved(topOf, counts, digests) && k !in counts && topOf(k.folder).Under? && d.tally == Plus(NOTHING, t)
    ensures Conserved(topOf, counts[k := t], digests + [d])
  {
    forall kind ensures Sum(digests + [d], kind) == Total(counts[k := t], InDrive(topOf, kind)) {
      TotalMore(counts, k, t, InDrive(topOf, kind));
      PlusOf(NOTHING, t, kind);
      assert (digests + [d])[..|digests|] == digests;
    }
  }

  // ---------------------------------------------------------------- group

  /** `topOf` with its cache. */
  method CachedTop(fs: FS, rootID: string, root: Dir, tops: map<string, Top>, folder: string)
    returns (top: Top, tops': map<string, Top>)
    requires forall f :: f in tops ==> tops[f] == TopOf(fs, rootID, root, f)
    requires rootID in tops
    ensures top == TopOf(fs, rootID, root, folder)
    ensures forall f :: f in tops' ==> tops'[f] == TopOf(fs, rootID, root, f)
    ensures rootID in tops'
  {
    if folder in tops {
      return tops[folder], tops;
    }
    var looked := fs.find(folder);
    if looked.Missing? {
      return Outside, tops[folder := Outside];
    }
    if looked.Failed? {
      return Unknown, tops;
    }
    var dir := looked.dir;
    if !HasPrefix(dir.path, root.path + "/") {
      return Outside, tops[folder := Outside];
    }
    var name := SplitN2(dir.path[|root.path| + 1..], '/')[0];
    var found := dir;
    if root.path + "/" + name != dir.path {
      var lookedTop := fs.findPath(root.path + "/" + name);
      if !lookedTop.Found? {
        return Unknown, tops;
      }
      found := lookedTop.dir;
    }
    return Under(found), tops[folder := Under(found)];
  }

  // ---------------------------------------------------------------- samples

  /** The names given in a digest: at most five, each of them from a tally that counts in it, and
      all of these when there are fewer than five. */
  ghost predicate SamplesGiven(topOf: string -> Top, counts: map<Key, Tally>, d: Digest) {
    && |d.tally.samples| <= 5
    && (forall name :: name in d.tally.samples ==> NamedBy(topOf, counts, d.DigestKey(), name))
    && (|d.tally.samples| < 5 ==>
          forall k, name :: k in counts && Belongs(topOf, k, d.DigestKey()) && name in counts[k].samples ==> name in d.tally.samples)
  }

  ghost predicate NamedBy(topOf: string -> Top, counts: map<Key, Tally>, dk: Key, name: string) {
    exists k :: k in counts && Belongs(topOf, k, dk) && name in counts[k].samples
  }

  ghost predicate AllSamples(topOf: string -> Top, counts: map<Key, Tally>, digests: seq<Digest>) {
    forall i :: 0 <= i < |digests| ==> SamplesGiven(topOf, counts, digests[i])
  }

  lemma {:induction false} SampledNames(t: Tally, names: seq<string>)
    requires |t.samples| <= 5
    ensures |t.samples| <= |Sampled(t, names).samples| <= 5
    ensures forall name :: name in t.samples ==> name in Sampled(t, names).samples
    ensures forall name :: name in Sampled(t, names).samples ==> name in t.samples || name in names
    ensures |Sampled(t, names).samples| < 5 ==> forall name :: name in names ==> name in Sampled(t, names).samples
    decreases |names|
  {
    if names != [] {
      var n := |names| - 1;
      SampledNames(t, names[..n]);
      assert names == names[..n] + [names[n]];
    }
  }

  lemma NamedByMore(topOf: string -> Top, counts: map<Key, Tally>, k: Key, t: Tally, dk: Key, name: string)
    requires k !in counts
    ensures NamedBy(topOf, counts[k := t], dk, name)
       <==> NamedBy(topOf, counts, dk, name) || (Belongs(topOf, k, dk) && name in t.samples)
  {
    if NamedBy(topOf, counts, dk, name) {
      var j :| j in counts && Belongs(topOf, j, dk) && name in counts[j].samples;
      assert j in counts[k := t] && counts[k := t][j] == counts[j];
    }
    if Belongs(topOf, k, dk) && name in t.samples {
      assert k in counts[k := t];
    }
  }

  lemma SamplesElsewhere(topOf: string -> Top, counts: map<Key, Tally>, k: Key, t: Tally, d: Digest)
    requires k !in counts && SamplesGiven(topOf, counts, d) && !Belongs(topOf, k, d.DigestKey())
    ensures SamplesGiven(topOf, counts[k := t], d)
  {
    forall name | name in d.tally.samples ensures NamedBy(topOf, counts[k := t], d.DigestKey(), name) {
      NamedByMore(topOf, counts, k, t, d.DigestKey(), name);
    }
  }

  lemma SamplesHere(topOf: string -> Top, counts: map<Key, Tally>, k: Key, t: Tally, d: Digest)
    requires k !in counts && SamplesGiven(topOf, counts, d) && Belongs(topOf, k, d.DigestKey())
    ensures SamplesGiven(topOf, counts[k := t], d.(tally := Plus(d.tally, t)))
  {
    var sum := d.tally.(created := d.tally.created + t.created, updated := d.tally.updated + t.updated,
                        deleted := d.tally.deleted + t.deleted);
    SampledNames(sum, t.samples);
    forall name | name in Plus(d.tally, t).samples ensures NamedBy(topOf, counts[k := t], d.DigestKey(), name) {
      NamedByMore(topOf, counts, k, t, d.DigestKey(), name);
    }
  }

  lemma SamplesInto(topOf: string -> Top, counts: map<Key, Tally>, digests: seq<Digest>, k: Key, t: Tally, i: int)
    requires AllSamples(topOf, counts, digests) && OnePerKey(digests) && k !in counts
    requires 0 <= i < |digests| && Belongs(topOf, k, digests[i].DigestKey())
    ensures AllSamples(topOf, counts[k := t], digests[i := digests[i].(tally := Plus(digests[i].tally, t))])
  {
    var after := digests[i := digests[i].(tally := Plus(digests[i].tally, t))];
    forall j | 0 <= j < |after| ensures SamplesGiven(topOf, counts[k := t], after[j]) {
      if j == i {
        SamplesHere(topOf, counts, k, t, digests[i]);
      } else {
        assert digests[i].DigestKey() != digests[j].DigestKey();
        SamplesElsewhere(topOf, counts, k, t, digests[j]);
      }
    }
  }

  /** A tally that is in the digests of none, or in a new one. */
  lemma SamplesKept(topOf: string -> Top, counts: map<Key, Tally>, digests: seq<Digest>, k: Key, t: Tally)
    requires AllSamples(topOf, counts, digests) && k !in counts
    requires topOf(k.folder).Under? ==> !HasDigest(digests, Key(k.member, topOf(k.folder).dir.id))
    ensures AllSamples(topOf, counts[k := t], digests)
  {
    forall j | 0 <= j < |digests| ensures SamplesGiven(topOf, counts[k := t], digests[j]) {
      SamplesElsewhere(topOf, counts, k, t, digests[j]);
    }
  }

  lemma SamplesNew(topOf: string -> Top, counts: map<Key, Tally>, digests: seq<Digest>, k: Key, t: Tally, d: Digest)
    requires Grouped(topOf, counts, digests) && AllSamples(topOf, counts, digests) && k !in counts
    requires !HasDigest(digests, d.DigestKey()) && topOf(k.folder) == Under(d.top) && k.member == d.member
    requires d.tally == Plus(NOTHING, t)
    ensures AllSamples(topOf, counts[k := t], digests + [d])
  {
    SamplesKept(topOf, counts, digests, k, t);
    forall j | j in counts ensures !Belongs(topOf, j, d.DigestKey()) {
      assert topOf(j.folder).Under? ==> HasDigest(digests, Key(j.member, topOf(j.folder).dir.id));
    }
    SamplesHere(topOf, counts, k, t, d.(tally := NOTHING));
  }

  /** The place of the digest of each member and top folder. */
  ghost predicate Indexed(byTop: map<Key, nat>, digests: seq<Digest>) {
    && (forall dk :: dk in byTop ==> byTop[dk] < |digests| && digests[byTop[dk]].DigestKey() == dk)
    && (forall i :: 0 <= i < |digests| ==> digests[i].DigestKey() in byTop)
  }

  lemma MoreInto(topOf: string -> Top, counts: map<Key, Tally>, byTop: map<Key, nat>, digests: seq<Digest>, k: Key, t: Tally, i: int)
    requires Progress(topOf, counts, byTop, digests) && k !in counts
    requires 0 <= i < |digests| && Belongs(topOf, k, digests[i].DigestKey())
    ensures Progress(topOf, counts[k := t], byTop, digests[i := digests[i].(tally := Plus(digests[i].tally, t))])
  {
    GroupedInto(topOf, counts, digests, k, t, i);
    ConservedInto(topOf, counts, digests, k, t, i);
    SamplesInto(topOf, counts, digests, k, t, i);
  }

  lemma OneMore(topOf: string -> Top, counts: map<Key, Tally>, byTop: map<Key, nat>, digests: seq<Digest>, k: Key, t: Tally, d: Digest)
    requires Progress(topOf, counts, byTop, digests) && k !in counts
    requires topOf(k.folder) == Under(d.top) && k.member == d.member && d.tally == Plus(NOTHING, t)
    requires d.DigestKey() !in byTop
    ensures Progress(topOf, counts[k := t], byTop[d.DigestKey() := |digests|], digests + [d])
  {
    NewDigest(topOf, counts, digests, k, t, d.(tally := NOTHING));
    ConservedNew(topOf, counts, digests, k, t, d);
    SamplesNew(topOf, counts, digests, k, t, d);
  }

  /** The body of the loop of `group` for a tally that is in the drive. */
  method AddTally(ghost topOf: string -> Top, ghost counts: map<Key, Tally>, byTop: map<Key, nat>, digests: seq<Digest>,
                  k: Key, t: Tally, top: Dir)
    returns (byTop': map<Key, nat>, digests': seq<Digest>)
    requires Progress(topOf, counts, byTop, digests)
    requires k !in counts && topOf(k.folder) == Under(top)
    ensures Progress(topOf, counts[k := t], byTop', digests')
  {
    var dk := Key(k.member, top.id);
    if dk in byTop {
      var i := byTop[dk];
      MoreInto(topOf, counts, byTop, digests, k, t, i);
      byTop', digests' := byTop, digests[i := digests[i].(tally := Plus(digests[i].tally, t))];
    } else {
      var d := Digest(k.member, top, Plus(NOTHING, t));
      OneMore(topOf, counts, byTop, digests, k, t, d);
      byTop', digests' := byTop[dk := |digests|], digests + [d];
    }
  }

  datatype GroupResult = Digests(digests: seq<Digest>) | Error

  ghost predicate SomeUnknown(topOf: string -> Top, counts: map<Key, Tally>) {
    exists k :: k in counts && topOf(k.folder).Unknown?
  }

  /** One round of the loop of `group`. */
  method GroupOne(ghost topOf: string -> Top, ghost counts: map<Key, Tally>, byTop: map<Key, nat>, digests: seq<Digest>,
                  k: Key, t: Tally, top: Top)
    returns (byTop': map<Key, nat>, digests': seq<Digest>)
    requires Progress(topOf, counts, byTop, digests)
    requires k !in counts && topOf(k.folder) == top && !top.Unknown?
    ensures Progress(topOf, counts[k := t], byTop', digests')
  {
    if top.Under? {
      byTop', digests' := AddTally(topOf, counts, byTop, digests, k, t, top.dir);
    } else {
      GroupedOutside(topOf, counts, digests, k, t);
      ConservedOutside(topOf, counts, digests, k, t);
      SamplesKept(topOf, counts, digests, k, t);
      byTop', digests' := byTop, digests;
    }
  }

  ghost predicate Progress(topOf: string -> Top, counts: map<Key, Tally>, byTop: map<Key, nat>, digests: seq<Digest>) {
    && Grouped(topOf, counts, digests) && Conserved(topOf, counts, digests) && AllSamples(topOf, counts, digests)
    && Indexed(byTop, digests)
  }

  // ---------------------------------------------------------------- what it means

  /** A tally of this member counts in the digest of this top folder. */
  ghost predicate CountsIn(fs: FS, rootID: string, root: Dir, k: Key, member: string, topID: string) {
    k.member == member && exists top :: Placed(fs, rootID, root, k.folder, top) && top.id == topID
  }

  ghost function PlacedShare(fs: FS, rootID: string, root: Dir, kind: Kind, member: string, topID: string): (Key, Tally) -> nat {
    (k: Key, t: Tally) => CountedIf(CountsIn(fs, rootID, root, k, member, topID), t, kind)
  }

  lemma {:induction false} TotalEqual(counts: map<Key, Tally>, v: (Key, Tally) -> nat, w: (Key, Tally) -> nat)
    requires forall k, t :: v(k, t) == w(k, t)
    ensures Total(counts, v) == Total(counts, w)
    decreases |counts|
  {
    if counts != map[] {
      var k :| k in counts;
      assert (counts - {k}).Keys == counts.Keys - {k};
      TotalEqual(counts - {k}, v, w);
      TotalRemove(counts, k, v);
      TotalRemove(counts, k, w);
    }
  }

  lemma BelongsIff(fs: FS, rootID: string, root: Dir, k: Key, member: string, topID: string)
    ensures Belongs((f: string) => TopOf(fs, rootID, root, f), k, Key(member, topID))
       <==> CountsIn(fs, rootID, root, k, member, topID)
  {
    PlacedIff(fs, rootID, root, k.folder);
  }

  /** The digests count what was changed in the folders placed under their top folder; there is one
      for each of these, and none without a change. */
  ghost predicate CountsPlaced(fs: FS, rootID: string, root: Dir, counts: map<Key, Tally>, digests: seq<Digest>) {
    && (forall i, kind :: 0 <= i < |digests| ==>
          digests[i].tally.Of(kind) == Total(counts, PlacedShare(fs, rootID, root, kind, digests[i].member, digests[i].top.id)))
    && (forall k, top :: k in counts && Placed(fs, rootID, root, k.folder, top) ==> HasDigest(digests, Key(k.member, top.id)))
    && (forall i :: 0 <= i < |digests| ==> HasChange(fs, rootID, root, counts, digests[i]))
  }

  ghost predicate HasChange(fs: FS, rootID: string, root: Dir, counts: map<Key, Tally>, d: Digest) {
    exists k :: k in counts && k.member == d.member && Placed(fs, rootID, root, k.folder, d.top)
  }

  lemma SourcePlaced(fs: FS, rootID: string, root: Dir, counts: map<Key, Tally>, d: Digest)
    requires HasSource((f: string) => TopOf(fs, rootID, root, f), counts, d)
    ensures HasChange(fs, rootID, root, counts, d)
  {
    var topOf := (f: string) => TopOf(fs, rootID, root, f);
    var k :| k in counts && k.member == d.member && topOf(k.folder) == Under(d.top);
    PlacedIff(fs, rootID, root, k.folder);
  }

  lemma SumsPlaced(fs: FS, rootID: string, root: Dir, counts: map<Key, Tally>, d: Digest, kind: Kind)
    requires Summed((f: string) => TopOf(fs, rootID, root, f), counts, d)
    ensures d.tally.Of(kind) == Total(counts, PlacedShare(fs, rootID, root, kind, d.member, d.top.id))
  {
    var v := Share((f: string) => TopOf(fs, rootID, root, f), kind, d.DigestKey());
    var w := PlacedShare(fs, rootID, root, kind, d.member, d.top.id);
    forall k, t ensures v(k, t) == w(k, t) {
      BelongsIff(fs, rootID, root, k, d.member, d.top.id);
    }
    TotalEqual(counts, v, w);
  }

  lemma GroupedPlaced(fs: FS, rootID: string, root: Dir, counts: map<Key, Tally>, digests: seq<Digest>)
    requires Grouped((f: string) => TopOf(fs, rootID, root, f), counts, digests)
    ensures CountsPlaced(fs, rootID, root, counts, digests)
  {
    var topOf := (f: string) => TopOf(fs, rootID, root, f);
    forall i, kind | 0 <= i < |digests|
      ensures digests[i].tally.Of(kind) == Total(counts, PlacedShare(fs, rootID, root, kind, digests[i].member, digests[i].top.id))
    {
      SumsPlaced(fs, rootID, root, counts, digests[i], kind);
    }
    forall k, top | k in counts && Placed(fs, rootID, root, k.folder, top) ensures HasDigest(digests, Key(k.member, top.id)) {
      PlacedIff(fs, rootID, root, k.folder);
      assert topOf(k.folder) == Under(top);
    }
    forall i | 0 <= i < |digests| ensures HasChange(fs, rootID, root, counts, digests[i]) {
      SourcePlaced(fs, rootID, root, counts, digests[i]);
    }
  }

  /** What `group` answers for the changes of one member in one folder: a change made in the root
      itself, or in a folder of the drive, is in a digest; the others are in none. */
  lemma WhereCounted(fs: FS, rootID: string, root: Dir, counts: map<Key, Tally>, digests: seq<Digest>, k: Key)
    requires CountsPlaced(fs, rootID, root, counts, digests) && k in counts && !Unplaceable(fs, rootID, root, k.folder)
    ensures k.folder == rootID ==> HasDigest(digests, Key(k.member, root.id))
    ensures k.folder != rootID && fs.find(k.folder).Found? ==>
              forall p :: ChildPath(root, p) ==>
                (fs.find(k.folder).dir.path == p ==> HasDigest(digests, Key(k.member, fs.find(k.folder).dir.id)))
                && (HasPrefix(fs.find(k.folder).dir.path, p + "/") ==>
                      fs.findPath(p).Found? && HasDigest(digests, Key(k.member, fs.findPath(p).dir.id)))
    ensures (forall member, topID :: !CountsIn(fs, rootID, root, k, member, topID))
       <==> k.folder != rootID
            && (fs.find(k.folder).Missing? || !HasPrefix(fs.find(k.folder).dir.path, root.path + "/"))
  {
    PlacedIff(fs, rootID, root, k.folder);
    if k.folder == rootID {
      assert Placed(fs, rootID, root, k.folder, root);
    } else if fs.find(k.folder).Found? {
      forall p | ChildPath(root, p)
        ensures fs.find(k.folder).dir.path == p ==> HasDigest(digests, Key(k.member, fs.find(k.folder).dir.id))
        ensures HasPrefix(fs.find(k.folder).dir.path, p + "/") ==>
                  fs.findPath(p).Found? && HasDigest(digests, Key(k.member, fs.findPath(p).dir.id))
      {
        CountedBelow(fs, rootID, root, counts, digests, k, p);
      }
    }
    CountedIff(fs, rootID, root, k);
  }

  lemma CountedBelow(fs: FS, rootID: string, root: Dir, counts: map<Key, Tally>, digests: seq<Digest>, k: Key, p: string)
    requires CountsPlaced(fs, rootID, root, counts, digests) && k in counts && !Unplaceable(fs, rootID, root, k.folder)
    requires k.folder != rootID && fs.find(k.folder).Found? && ChildPath(root, p)
    ensures fs.find(k.folder).dir.path == p ==> HasDigest(digests, Key(k.member, fs.find(k.folder).dir.id))
    ensures HasPrefix(fs.find(k.folder).dir.path, p + "/") ==>
              fs.findPath(p).Found? && HasDigest(digests, Key(k.member, fs.findPath(p).dir.id))
  {
    var dir := fs.find(k.folder).dir;
    if dir.path == p {
      assert PlacedAt(fs, dir, p, dir);
      assert Placed(fs, rootID, root, k.folder, dir);
    } else if HasPrefix(dir.path, p + "/") {
      assert fs.findPath(p).Found?;
      assert PlacedAt(fs, dir, p, fs.findPath(p).dir);
      assert Placed(fs, rootID, root, k.folder, fs.findPath(p).dir);
    }
  }

  lemma CountedIff(fs: FS, rootID: string, root: Dir, k: Key)
    requires !Unplaceable(fs, rootID, root, k.folder)
    ensures (forall member, topID :: !CountsIn(fs, rootID, root, k, member, topID)) <==> LeftDrive(fs, rootID, root, k.folder)
  {
    PlacedIff(fs, rootID, root, k.folder);
    var t := TopOf(fs, rootID, root, k.folder);
    if t.Under? {
      assert Placed(fs, rootID, root, k.folder, t.dir);
      assert CountsIn(fs, rootID, root, k, k.member, t.dir.id);
    }
  }

  /** The loop of `group`: it fails exactly when the top folder of a tally cannot be found. */
  method GroupUnder(fs: FS, rootID: string, root: Dir, counts: map<Key, Tally>) returns (r: GroupResult)
    ensures var topOf := (f: string) => TopOf(fs, rootID, root, f);
            if SomeUnknown(topOf, counts) then r == Error
            else && r.Digests? && Grouped(topOf, counts, r.digests) && Conserved(topOf, counts, r.digests)
                 && AllSamples(topOf, counts, r.digests)
    ensures r.Error? <==> exists k :: k in counts && Unplaceable(fs, rootID, root, k.folder)
    ensures r.Digests? ==> CountsPlaced(fs, rootID, root, counts, r.digests)
  {
    ghost var topOf := (f: string) => TopOf(fs, rootID, root, f);
    var tops: map<string, Top> := map[rootID := Under(root)];
    var byTop: map<Key, nat>, digests: seq<Digest> := map[], [];
    var left := counts.Keys;
    ghost var read: map<Key, Tally> := map[];
    while left != {}
      invariant forall k :: k in left ==> k in counts && k !in read
      invariant forall k :: k in counts && k !in left ==> k in read
      invariant forall k :: k in read ==> k in counts && read[k] == counts[k] && !topOf(k.folder).Unknown?
      invariant rootID in tops && forall f :: f in tops ==> tops[f] == TopOf(fs, rootID, root, f)
      invariant Progress(topOf, read, byTop, digests)
      decreases |left|
    {
      var k :| k in left;
      var top;
      top, tops := CachedTop(fs, rootID, root, tops, k.folder);
      if top.Unknown? {
        assert topOf(k.folder).Unknown?;
        PlacedIff(fs, rootID, root, k.folder);
        return Error;
      }
      byTop, digests := GroupOne(topOf, read, byTop, digests, k, counts[k], top);
      read := read[k := counts[k]];
      left := left - {k};
    }
    assert read == counts;
    forall k | k in counts ensures !Unplaceable(fs, rootID, root, k.folder) {
      PlacedIff(fs, rootID, root, k.folder);
    }
    GroupedPlaced(fs, rootID, root, counts, digests);
    r := Digests(digests);
  }

  /** `group`: a drive whose root is gone has no digest. */
  method Group(fs: FS, rootID: string, counts: map<Key, Tally>) returns (r: GroupResult)
    ensures fs.find(rootID).Missing? ==> r == Digests([])
    ensures fs.find(rootID).Failed? ==> r == Error
    ensures fs.find(rootID).Found? ==>
              var topOf := (f: string) => TopOf(fs, rootID, fs.find(rootID).dir, f);
              if SomeUnknown(topOf, counts) then r == Error
              else && r.Digests? && Grouped(topOf, counts, r.digests) && Conserved(topOf, counts, r.digests)
                   && AllSamples(topOf, counts, r.digests)
    ensures fs.find(rootID).Found? ==> (r.Error? <==> exists k :: k in counts && Unplaceable(fs, rootID, fs.find(rootID).dir, k.folder))
    ensures fs.find(rootID).Found? && r.Digests? ==> CountsPlaced(fs, rootID, fs.find(rootID).dir, counts, r.digests)
  {
    var root := fs.find(rootID);
    if root.Missing? {
      return Digests([]);
    }
    if root.Failed? {
      return Error;
    }
    r := GroupUnder(fs, rootID, root.dir, counts);
  }
}

/** The flush of a window (model/driveactivity/flush.go:78-149): what is published, counted in
    changes, and what is left for a retry. */
module DriveFlush {
  import opened Options
  import opened DriveActivity
  import opened DriveDigest
  import opened Sums

  // ---------------------------------------------------------------- from commands to digests

  /** The changes of one kind that count for a digest: those of its member, in a folder under its
      top folder, both without newline. */
  function AddedUnder(topOf: string -> Top, cmds: seq<Cmd>, kind: Kind, dk: Key): nat {
    if cmds == [] then 0 else
    var last := cmds[|cmds| - 1];
    AddedUnder(topOf, cmds[..|cmds| - 1], kind, dk)
    + if last.Incr? && last.c.kind == kind && Clean(KeyOf(last.c)) && Belongs(topOf, KeyOf(last.c), dk) then 1 else 0
  }

  /** The tallies of the commands without newline, and without samples. */
  function TalliesOf(cmds: seq<Cmd>): map<Key, Tally> {
    if cmds == [] then map[] else
    WithCmd(TalliesOf(cmds[..|cmds| - 1]), cmds[|cmds| - 1])
  }

  function At(counts: map<Key, Tally>, k: Key): Tally {
    if k in counts then counts[k] else NOTHING
  }

  function WithCmd(counts: map<Key, Tally>, cmd: Cmd): map<Key, Tally> {
    if !Clean(KeyOf(cmd.c)) then counts else
    var t := At(counts, KeyOf(cmd.c));
    counts[KeyOf(cmd.c) := if cmd.Incr? then t.Count(Named(cmd.c.kind), 1) else t]
  }

  function One(cmd: Cmd, k: Key, kind: Kind): nat {
    if cmd.Incr? && KeyOf(cmd.c) == k && cmd.c.kind == kind then 1 else 0
  }

  lemma WithCmdAt(counts: map<Key, Tally>, cmd: Cmd, k: Key, kind: Kind)
    requires Clean(k)
    ensures At(WithCmd(counts, cmd), k).Of(kind) == At(counts, k).Of(kind) + One(cmd, k, kind)
  {
    if cmd.Incr? && Clean(KeyOf(cmd.c)) {
      CountOf(At(counts, KeyOf(cmd.c)), Named(cmd.c.kind), 1, kind);
      if Named(cmd.c.kind) == Named(kind) {
        NamedApart(cmd.c.kind, kind);
      }
    }
  }

  lemma {:induction false} TalliesOfAt(cmds: seq<Cmd>, k: Key, kind: Kind)
    requires Clean(k)
    ensures At(TalliesOf(cmds), k).Of(kind) == Added(cmds, k, kind)
    decreases |cmds|
  {
    if cmds != [] {
      var n := |cmds| - 1;
      TalliesOfAt(cmds[..n], k, kind);
      WithCmdAt(TalliesOf(cmds[..n]), cmds[n], k, kind);
    }
  }

  lemma {:induction false} TalliesOfKeys(cmds: seq<Cmd>, k: Key)
    ensures k in TalliesOf(cmds) <==> Clean(k) && ChangedBy(cmds, k)
    decreases |cmds|
  {
    if cmds != [] {
      TalliesOfKeys(cmds[..|cmds| - 1], k);
      ChangedByMore(cmds, k);
    }
  }

  lemma {:induction false} TotalSame(m: map<Key, Tally>, m': map<Key, Tally>, w: (Key, Tally) -> nat)
    requires m'.Keys <= m.Keys
    requires forall k :: k in m ==> w(k, m[k]) == if k in m' then w(k, m'[k]) else 0
    ensures Total(m, w) == Total(m', w)
    decreases |m|
  {
    if m == map[] {
      assert m' == map[];
    } else {
      var k :| k in m;
      assert (m - {k}).Keys == m.Keys - {k} && (m' - {k}).Keys == m'.Keys - {k};
      TotalSame(m - {k}, m' - {k}, w);
      TotalRemove(m, k, w);
      if k in m' {
        TotalRemove(m', k, w);
      } else {
        assert m' - {k} == m';
      }
    }
  }

  lemma TotalWithCmd(topOf: string -> Top, counts: map<Key, Tally>, cmd: Cmd, kind: Kind, dk: Key)
    ensures Total(WithCmd(counts, cmd), Share(topOf, kind, dk)) == Total(counts, Share(topOf, kind, dk))
            + if cmd.Incr? && cmd.c.kind == kind && Clean(KeyOf(cmd.c)) && Belongs(topOf, KeyOf(cmd.c), dk) then 1 else 0
  {
    var k, w := KeyOf(cmd.c), Share(topOf, kind, dk);
    if !Clean(k) {
      return;
    }
    TotalUpdate(counts, k, WithCmd(counts, cmd)[k], w);
    WithCmdAt(counts, cmd, k, kind);
    if k in counts {
      TotalRemove(counts, k, w);
    } else {
      assert counts - {k} == counts;
    }
  }

  lemma {:induction false} TotalOfTallies(topOf: string -> Top, cmds: seq<Cmd>, kind: Kind, dk: Key)
    ensures Total(TalliesOf(cmds), Share(topOf, kind, dk)) == AddedUnder(topOf, cmds, kind, dk)
    decreases |cmds|
  {
    if cmds != [] {
      var n := |cmds| - 1;
      TotalOfTallies(topOf, cmds[..n], kind, dk);
      TotalWithCmd(topOf, TalliesOf(cmds[..n]), cmds[n], kind, dk);
    }
  }

  lemma SameShare(topOf: string -> Top, cmds: seq<Cmd>, t: Tally, kind: Kind, dk: Key, k: Key)
    requires Clean(k) && CountsOf(cmds, k, t)
    ensures var w := Share(topOf, kind, dk);
            w(k, t) == if k in TalliesOf(cmds) then w(k, TalliesOf(cmds)[k]) else 0
  {
    TalliesOfAt(cmds, k, kind);
  }

  /** From the change to the digest: each digest counts exactly the changes that its member made
      in folders that are, at the time of the flush, under its top folder. */
  lemma DigestExact(topOf: string -> Top, cmds: seq<Cmd>, counts: map<Key, Tally>, d: Digest, kind: Kind)
    requires Parsed(HashOf(cmds), counts) && Summed(topOf, counts, d)
    ensures d.tally.Of(kind) == AddedUnder(topOf, cmds, kind, d.DigestKey())
  {
    TakeExact(cmds, counts);
    SumExact(topOf, cmds, counts, kind, d.DigestKey());
  }

  lemma SumExact(topOf: string -> Top, cmds: seq<Cmd>, counts: map<Key, Tally>, kind: Kind, dk: Key)
    requires forall k :: Clean(k) && ChangedBy(cmds, k) ==> k in counts
    requires forall k :: k in counts ==> Clean(k) && CountsOf(cmds, k, counts[k])
    ensures Total(counts, Share(topOf, kind, dk)) == AddedUnder(topOf, cmds, kind, dk)
  {
    var ideal, w := TalliesOf(cmds), Share(topOf, kind, dk);
    forall k | k in ideal ensures k in counts {
      TalliesOfKeys(cmds, k);
    }
    forall k | k in counts ensures w(k, counts[k]) == if k in ideal then w(k, ideal[k]) else 0 {
      SameShare(topOf, cmds, counts[k], kind, dk, k);
    }
    TotalSame(counts, ideal, w);
    TotalOfTallies(topOf, cmds, kind, dk);
  }

  // ---------------------------------------------------------------- flush

  datatype Sharing = Reports(rootID: Option<string>) | Silent | LookupFailed

  ghost predicate Exact(fs: FS, rootID: string, cmds: seq<Cmd>, published: seq<Digest>) {
    fs.find(rootID).Found? ==>
      var topOf := (f: string) => TopOf(fs, rootID, fs.find(rootID).dir, f);
      forall i, kind :: 0 <= i < |published| ==>
        published[i].tally.Of(kind) == AddedUnder(topOf, cmds, kind, published[i].DigestKey())
  }

  lemma GroupedExact(fs: FS, rootID: string, cmds: seq<Cmd>, counts: map<Key, Tally>, digests: seq<Digest>)
    requires Parsed(HashOf(cmds), counts) && fs.find(rootID).Found?
    requires Grouped((f: string) => TopOf(fs, rootID, fs.find(rootID).dir, f), counts, digests)
    ensures Exact(fs, rootID, cmds, digests)
  {
    var topOf := (f: string) => TopOf(fs, rootID, fs.find(rootID).dir, f);
    forall i, kind | 0 <= i < |digests|
      ensures digests[i].tally.Of(kind) == AddedUnder(topOf, cmds, kind, digests[i].DigestKey())
    {
      DigestExact(topOf, cmds, counts, digests[i], kind);
    }
  }

  ghost predicate Complete(fs: FS, rootID: string, counts: map<Key, Tally>, published: seq<Digest>) {
    fs.find(rootID).Found? ==> Grouped((f: string) => TopOf(fs, rootID, fs.find(rootID).dir, f), counts, published)
  }

  /** The digests to publish, by member and top folder. */
  ghost function DigestKeys(fs: FS, rootID: string, root: Dir, keys: set<Key>): set<Key> {
    set k | k in keys && TopOf(fs, rootID, root, k.folder).Under? :: Key(k.member, TopOf(fs, rootID, root, k.folder).dir.id)
  }

  ghost predicate AllPlaced(fs: FS, rootID: string, root: Dir, keys: set<Key>) {
    forall k :: k in keys ==> !Unplaceable(fs, rootID, root, k.folder)
  }

  /** Everything there is to publish can be: the root is gone, or each folder could be placed and the
      broker accepts an event for each digest. */
  ghost predicate Publishable(fs: FS, rootID: string, keys: set<Key>, sent: nat) {
    || fs.find(rootID).Missing?
    || (&& fs.find(rootID).Found? && AllPlaced(fs, rootID, fs.find(rootID).dir, keys)
        && |DigestKeys(fs, rootID, fs.find(rootID).dir, keys)| <= sent)
  }

  /** How many digests are published. */
  ghost function PublishedCount(fs: FS, rootID: string, keys: set<Key>, sent: nat): nat {
    if !fs.find(rootID).Found? || !AllPlaced(fs, rootID, fs.find(rootID).dir, keys) then 0 else
    var n := |DigestKeys(fs, rootID, fs.find(rootID).dir, keys)|;
    if sent < n then sent else n
  }

  lemma {:induction false} KeysCounted(digests: seq<Digest>)
    requires OnePerKey(digests)
    ensures |set i | 0 <= i < |digests| :: digests[i].DigestKey()| == |digests|
    decreases |digests|
  {
    if digests != [] {
      var n := |digests| - 1;
      KeysCounted(digests[..n]);
      var before := set i | 0 <= i < n :: digests[..n][i].DigestKey();
      assert (set i | 0 <= i < |digests| :: digests[i].DigestKey()) == before + {digests[n].DigestKey()};
    }
  }

  lemma DigestsCounted(fs: FS, rootID: string, root: Dir, counts: map<Key, Tally>, digests: seq<Digest>)
    requires Grouped((f: string) => TopOf(fs, rootID, root, f), counts, digests)
    ensures |digests| == |DigestKeys(fs, rootID, root, counts.Keys)|
  {
    var topOf := (f: string) => TopOf(fs, rootID, root, f);
    var keys := set i | 0 <= i < |digests| :: digests[i].DigestKey();
    KeysCounted(digests);
    forall i | 0 <= i < |digests| ensures digests[i].DigestKey() in DigestKeys(fs, rootID, root, counts.Keys) {
      assert HasSource(topOf, counts, digests[i]);
      var k :| k in counts && k.member == digests[i].member && topOf(k.folder) == Under(digests[i].top);
      assert k in counts.Keys;
    }
    forall k | k in counts && topOf(k.folder).Under? ensures Key(k.member, topOf(k.folder).dir.id) in keys {
      assert HasDigest(digests, Key(k.member, topOf(k.folder).dir.id));
    }
    assert keys == DigestKeys(fs, rootID, root, counts.Keys);
  }

  lemma GroupPublished(fs: FS, rootID: string, cmds: seq<Cmd>, counts: map<Key, Tally>, digests: seq<Digest>)
    requires Parsed(HashOf(cmds), counts) && fs.find(rootID).Found?
    requires Grouped((f: string) => TopOf(fs, rootID, fs.find(rootID).dir, f), counts, digests)
    requires forall k :: k in counts ==> !Unplaceable(fs, rootID, fs.find(rootID).dir, k.folder)
    ensures Exact(fs, rootID, cmds, digests) && OnePerKey(digests) && Complete(fs, rootID, counts, digests)
    ensures forall sent: nat :: Publishable(fs, rootID, counts.Keys, sent) <==> |digests| <= sent
    ensures forall sent: nat :: PublishedCount(fs, rootID, counts.Keys, sent) == if sent < |digests| then sent else |digests|
  {
    GroupedExact(fs, rootID, cmds, counts, digests);
    DigestsCounted(fs, rootID, fs.find(rootID).dir, counts, digests);
  }

  /** `publish`; `sent` is how many events the broker accepts. */
  method Publish(ghost cmds: seq<Cmd>, counts: map<Key, Tally>, rootID: string, fs: FS, sent: nat)
    returns (ok: bool, published: seq<Digest>)
    requires Parsed(HashOf(cmds), counts)
    ensures published != [] ==> fs.find(rootID).Found?
    ensures Exact(fs, rootID, cmds, published)
    ensures ok ==> Complete(fs, rootID, counts, published)
    ensures OnePerKey(published)
    ensures ok <==> Publishable(fs, rootID, counts.Keys, sent)
    ensures |published| == PublishedCount(fs, rootID, counts.Keys, sent)
  {
    var r := Group(fs, rootID, counts);
    if r.Error? {
      return false, [];
    }
    if fs.find(rootID).Found? {
      GroupPublished(fs, rootID, cmds, counts, r.digests);
    }
    if sent < |r.digests| {
      return false, r.digests[..sent];
    }
    return true, r.digests;
  }

  /** The members and folders that the fields of the window are read as. */
  ghost function ReadKeys(cmds: seq<Cmd>): set<Key> {
    if cmds == [] then {} else
    var e := Decode(FieldOf(cmds[|cmds| - 1]));
    if e.Some? then ReadKeys(cmds[..|cmds| - 1]) + {e.value.k} else ReadKeys(cmds[..|cmds| - 1])
  }

  lemma {:induction false} ReadKeysIff(cmds: seq<Cmd>, k: Key)
    ensures k in ReadKeys(cmds) <==> SomeReadAs(cmds, k)
    decreases |cmds|
  {
    if cmds != [] {
      ReadKeysIff(cmds[..|cmds| - 1], k);
    }
  }

  lemma TalliedKeys(cmds: seq<Cmd>, counts: map<Key, Tally>)
    requires Parsed(HashOf(cmds), counts)
    ensures counts.Keys == ReadKeys(cmds)
  {
    forall k ensures k in counts <==> k in ReadKeys(cmds) {
      MentionedIff(cmds, k);
      ReadKeysIff(cmds, k);
    }
  }

  /** `flush`: the window is dropped only once everything is published, so that a retry starts
      from the same counts. */
  method Flush(st: Store, w: Window, sharing: Sharing, fs: FS, sent: nat) returns (ok: bool, published: seq<Digest>)
    requires st.Valid()
    modifies st
    ensures st.Valid() && st.log == if ok then old(st.log) - {w} else old(st.log)
    ensures published != [] ==> sharing.Reports? && sharing.rootID.Some?
    ensures sharing.Reports? && sharing.rootID.Some? ==>
              Exact(fs, sharing.rootID.value, old(st.Log(w)), published)
    ensures ok && sharing.Reports? && sharing.rootID.Some? ==>
              exists counts :: Parsed(HashOf(old(st.Log(w))), counts)
                               && (counts == map[] || Complete(fs, sharing.rootID.value, counts, published))
    ensures OnePerKey(published)
    ensures ok <==> || ReadKeys(old(st.Log(w))) == {} || sharing.Silent? || (sharing.Reports? && sharing.rootID.None?)
                    || (sharing.Reports? && Publishable(fs, sharing.rootID.value, ReadKeys(old(st.Log(w))), sent))
    ensures |published| == if sharing.Reports? && sharing.rootID.Some?
                           then PublishedCount(fs, sharing.rootID.value, ReadKeys(old(st.Log(w))), sent) else 0
  {
    published := [];
    var counts := st.Take(w);
    TalliedKeys(st.Log(w), counts);
    if |counts| > 0 {
      if sharing.LookupFailed? {
        return false, [];
      }
      if sharing.Reports? && sharing.rootID.Some? {
        ok, published := Publish(st.Log(w), counts, sharing.rootID.value, fs, sent);
        if !ok {
          return;
        }
      }
    }
    st.Drop(w);
    ok := true;
  }
}

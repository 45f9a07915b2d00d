/** The activity counts of a shared drive (model/driveactivity/store.go): each change made by a
    member increments a field of the redis hash of the open window, and at the end of the window
    the fields are parsed back into one tally per member and folder.

    A field is the member, the folder and what is counted, separated by newlines. The values of
    the hash are numbers here; redis writes them in decimal. */
module DriveActivity {
  import opened Options
  import opened Text

  const MAX_SAMPLES := 5

  datatype Kind = Created | Updated | Deleted

  datatype Change = Change(member: string, folder: string, kind: Kind, name: string)

  /** A member and the folder holding the files they changed. */
  datatype Key = Key(member: string, folder: string)

  datatype Tally = Tally(created: nat, updated: nat, deleted: nat, samples: seq<string>) {
    function Of(kind: Kind): nat {
      match kind
      case Created => created
      case Updated => updated
      case Deleted => deleted
    }

    /** `tally.count` for what a field counts; anything but the three kinds is ignored. */
    function Count(what: string, n: nat): Tally {
      if what == Named(Created) then this.(created := created + n)
      else if what == Named(Updated) then this.(updated := updated + n)
      else if what == Named(Deleted) then this.(deleted := deleted + n)
      else this
    }

    /** `tally.sample`. */
    function Sample(name: string): Tally {
      if |samples| < MAX_SAMPLES && name !in samples then this.(samples := samples + [name]) else this
    }
  }

  const NOTHING := Tally(0, 0, 0, [])

  function Named(kind: Kind): string {
    match kind
    case Created => "created"
    case Updated => "updated"
    case Deleted => "deleted"
  }

  type Hash = map<string, nat>

  // ---------------------------------------------------------------- fields

  const SAMPLE := "sample\n"

  function Field(k: Key, what: string): string {
    k.member + ['\n'] + (k.folder + ['\n'] + what)
  }

  function KeyOf(c: Change): Key { Key(c.member, c.folder) }

  function CountField(c: Change): string { Field(KeyOf(c), Named(c.kind)) }

  function SampleField(c: Change): string { Field(KeyOf(c), SAMPLE + c.name) }

  /** What a field is about: `strings.SplitN(field, "\n", 3)`, ignoring shorter fields. */
  datatype Entry = Entry(k: Key, what: string)

  function Decode(field: string): Option<Entry> {
    var parts := SplitN2(field, '\n');
    if |parts| == 1 then None else
    var rest := SplitN2(parts[1], '\n');
    if |rest| == 1 then None else
    Some(Entry(Key(parts[0], rest[0]), rest[1]))
  }

  predicate Clean(k: Key) {
    '\n' !in k.member && '\n' !in k.folder
  }

  /** A field is read as what it was written for exactly when neither the member nor the folder
      has a newline in it; what is counted may have some, as file names do. */
  lemma DecodeIff(k: Key, what: string)
    ensures Decode(Field(k, what)) == Some(Entry(k, what)) <==> Clean(k)
  {
    if Clean(k) {
      SplitOfGlued(k.member, '\n', k.folder + ['\n'] + what);
      SplitOfGlued(k.folder, '\n', what);
    }
  }

  /** Nothing else is read that way. */
  lemma DecodedField(field: string)
    requires Decode(field).Some?
    ensures var e := Decode(field).value; Clean(e.k) && field == Field(e.k, e.what)
  {
  }

  lemma DifferentFields(k: Key, what: string, k': Key, what': string)
    requires Clean(k) && Clean(k') && Field(k, what) == Field(k', what')
    ensures k == k' && what == what'
  {
    DecodeIff(k, what);
    DecodeIff(k', what');
  }

  lemma NamedApart(kind: Kind, other: Kind)
    requires Named(kind) == Named(other)
    ensures kind == other
  {
    assert Named(kind)[0] == Named(other)[0];
  }

  lemma NotASample(kind: Kind, name: string)
    ensures Named(kind) != SAMPLE + name
  {
    assert (SAMPLE + name)[0] == 's';
  }

  // ---------------------------------------------------------------- what parsing must give

  function Value(h: Hash, k: Key, kind: Kind): nat {
    if Field(k, Named(kind)) in h then h[Field(k, Named(kind))] else 0
  }

  ghost predicate Mentions(h: Hash, k: Key) {
    exists f :: f in h && Decode(f).Some? && Decode(f).value.k == k
  }

  predicate Stored(h: Hash, k: Key, name: string) {
    Field(k, SAMPLE + name) in h
  }

  /** At most five of the stored names, all different, and all of them when there are fewer. */
  ghost predicate SamplesOf(h: Hash, k: Key, samples: seq<string>) {
    && |samples| <= MAX_SAMPLES
    && (forall i, j :: 0 <= i < j < |samples| ==> samples[i] != samples[j])
    && (forall i :: 0 <= i < |samples| ==> Stored(h, k, samples[i]))
    && (|samples| < MAX_SAMPLES ==> forall name :: Stored(h, k, name) ==> name in samples)
  }

  ghost predicate Tallies(h: Hash, k: Key, t: Tally) {
    && (forall kind :: t.Of(kind) == Value(h, k, kind))
    && SamplesOf(h, k, t.samples)
  }

  /** The tallies hold, for each member and folder mentioned, the values of the hash. */
  ghost predicate Parsed(h: Hash, counts: map<Key, Tally>) {
    && (forall k :: k in counts <==> Mentions(h, k))
    && (forall k :: k in counts ==> Tallies(h, k, counts[k]))
  }

  // ---------------------------------------------------------------- parseCounts

  /** One field more, in the tally of its member and folder. */
  function Tallied(t: Tally, what: string, value: nat): Tally {
    if HasPrefix(what, SAMPLE) then t.Sample(what[|SAMPLE|..]) else t.Count(what, value)
  }

  function WithField(counts: map<Key, Tally>, field: string, value: nat): map<Key, Tally> {
    match Decode(field)
    case None => counts
    case Some(e) =>
      counts[e.k := Tallied(if e.k in counts then counts[e.k] else NOTHING, e.what, value)]
  }

  lemma OtherKey(h: Hash, field: string, value: nat, k: Key, t: Tally)
    requires field !in h && Clean(k) && Tallies(h, k, t)
    requires Decode(field).Some? ==> Decode(field).value.k != k
    ensures Tallies(h[field := value], k, t)
  {
    assert forall what :: Field(k, what) != field by {
      forall what ensures Field(k, what) != field {
        DecodeIff(k, what);
      }
    }
  }

  lemma CountOf(t: Tally, what: string, n: nat, kind: Kind)
    ensures t.Count(what, n).Of(kind) == t.Of(kind) + if what == Named(kind) then n else 0
  {
    if other: Kind :| what == Named(other) && other != kind && what == Named(kind) {
      NamedApart(other, kind);
    }
  }

  lemma CountedField(h: Hash, k: Key, what: string, value: nat, t: Tally)
    requires Clean(k) && Field(k, what) !in h && Tallies(h, k, t) && !HasPrefix(what, SAMPLE)
    ensures Tallies(h[Field(k, what) := value], k, t.Count(what, value))
  {
    var h' := h[Field(k, what) := value];
    forall kind ensures t.Count(what, value).Of(kind) == t.Of(kind) + if what == Named(kind) then value else 0 {
      CountOf(t, what, value, kind);
    }
    forall kind ensures t.Count(what, value).Of(kind) == Value(h', k, kind) {
      if Field(k, Named(kind)) == Field(k, what) {
        DifferentFields(k, Named(kind), k, what);
      }
    }
    forall name ensures Stored(h', k, name) <==> Stored(h, k, name) {
      if Field(k, SAMPLE + name) == Field(k, what) {
        DifferentFields(k, SAMPLE + name, k, what);
      }
    }
  }

  lemma SampledField(h: Hash, k: Key, name: string, value: nat, t: Tally)
    requires Clean(k) && !Stored(h, k, name) && Tallies(h, k, t)
    ensures Tallies(h[Field(k, SAMPLE + name) := value], k, t.Sample(name))
  {
    var h' := h[Field(k, SAMPLE + name) := value];
    forall kind ensures Value(h', k, kind) == Value(h, k, kind) {
      if Field(k, SAMPLE + name) == Field(k, Named(kind)) {
        DifferentFields(k, SAMPLE + name, k, Named(kind));
        NotASample(kind, name);
      }
    }
    forall other ensures Stored(h', k, other) <==> other == name || Stored(h, k, other) {
      if Field(k, SAMPLE + other) == Field(k, SAMPLE + name) {
        DifferentFields(k, SAMPLE + other, k, SAMPLE + name);
        assert other == (SAMPLE + other)[|SAMPLE|..] == name;
      }
    }
    assert name !in t.samples;
  }

  lemma FirstMention(h: Hash, k: Key)
    requires Clean(k) && !Mentions(h, k)
    ensures Tallies(h, k, NOTHING)
  {
    forall what ensures Field(k, what) !in h {
      DecodeIff(k, what);
    }
  }

  lemma ParsedStep(h: Hash, counts: map<Key, Tally>, field: string, value: nat)
    requires Parsed(h, counts) && field !in h
    ensures Parsed(h[field := value], WithField(counts, field, value))
  {
    var h', after := h[field := value], WithField(counts, field, value);
    forall k ensures k in after <==> Mentions(h', k) {
      MentionsMore(h, field, value, k);
    }
    forall k | k in after ensures Tallies(h', k, after[k]) {
      if Decode(field).Some? && Decode(field).value.k == k {
        TalliedStep(h, counts, field, value);
      } else {
        MentionedClean(h, k);
        OtherKey(h, field, value, k, counts[k]);
      }
    }
  }

  lemma MentionedClean(h: Hash, k: Key)
    requires Mentions(h, k)
    ensures Clean(k)
  {
    var f :| f in h && Decode(f).Some? && Decode(f).value.k == k;
    DecodedField(f);
  }

  lemma TalliedStep(h: Hash, counts: map<Key, Tally>, field: string, value: nat)
    requires Parsed(h, counts) && field !in h && Decode(field).Some?
    ensures var k := Decode(field).value.k; Tallies(h[field := value], k, WithField(counts, field, value)[k])
  {
    var e := Decode(field).value;
    DecodedField(field);
    var t := if e.k in counts then counts[e.k] else NOTHING;
    if e.k !in counts {
      FirstMention(h, e.k);
    }
    if HasPrefix(e.what, SAMPLE) {
      assert e.what == SAMPLE + e.what[|SAMPLE|..];
      SampledField(h, e.k, e.what[|SAMPLE|..], value, t);
    } else {
      CountedField(h, e.k, e.what, value, t);
    }
  }

  /** `parseCounts`, whatever the order of the fields. */
  method ParseCounts(fields: Hash) returns (counts: map<Key, Tally>)
    ensures Parsed(fields, counts)
  {
    counts := map[];
    var left := fields.Keys;
    ghost var read: Hash := map[];
    assert Parsed(read, counts);
    while left != {}
      invariant forall f :: f in left ==> f in fields && f !in read
      invariant forall f :: f in fields && f !in left ==> f in read
      invariant forall f :: f in read ==> f in fields && read[f] == fields[f]
      invariant Parsed(read, counts)
      decreases |left|
    {
      var field :| field in left;
      ParsedStep(read, counts, field, fields[field]);
      counts := WithField(counts, field, fields[field]);
      read := read[field := fields[field]];
      left := left - {field};
    }
    assert read == fields;
  }

  // ---------------------------------------------------------------- the hash of a window

  /** The redis commands `add` sends for a change. Those of concurrent calls interleave. */
  datatype Cmd = Incr(c: Change) | Sample(c: Change)

  function Apply(h: Hash, cmd: Cmd): Hash {
    match cmd
    case Incr(c) => h[CountField(c) := 1 + if CountField(c) in h then h[CountField(c)] else 0]
    case Sample(c) => h[SampleField(c) := 1]
  }

  /** What is counted by a command, and the field it writes. */
  function What(cmd: Cmd): string {
    if cmd.Incr? then Named(cmd.c.kind) else SAMPLE + cmd.c.name
  }

  function FieldOf(cmd: Cmd): string { Field(KeyOf(cmd.c), What(cmd)) }

  function HashOf(cmds: seq<Cmd>): Hash {
    if cmds == [] then map[] else Apply(HashOf(cmds[..|cmds| - 1]), cmds[|cmds| - 1])
  }

  lemma HashMore(cmds: seq<Cmd>, cmd: Cmd)
    ensures HashOf(cmds + [cmd]) == Apply(HashOf(cmds), cmd)
  {
    assert (cmds + [cmd])[..|cmds|] == cmds;
  }

  /** The changes of one kind made by a member in a folder. */
  function Added(cmds: seq<Cmd>, k: Key, kind: Kind): nat {
    if cmds == [] then 0 else
    var last := cmds[|cmds| - 1];
    Added(cmds[..|cmds| - 1], k, kind) + if last.Incr? && KeyOf(last.c) == k && last.c.kind == kind then 1 else 0
  }

  ghost predicate AllClean(cmds: seq<Cmd>) {
    forall i :: 0 <= i < |cmds| ==> Clean(KeyOf(cmds[i].c))
  }

  lemma {:induction false} ValueIsAdded(cmds: seq<Cmd>, k: Key, kind: Kind)
    requires Clean(k)
    ensures Value(HashOf(cmds), k, kind) == Added(cmds, k, kind)
    decreases |cmds|
  {
    if cmds != [] {
      var n := |cmds| - 1;
      ValueIsAdded(cmds[..n], k, kind);
      ApplyValue(HashOf(cmds[..n]), cmds[n], k, kind);
    }
  }

  lemma ApplyValue(h: Hash, cmd: Cmd, k: Key, kind: Kind)
    requires Clean(k)
    ensures Value(Apply(h, cmd), k, kind) ==
            Value(h, k, kind) + if cmd.Incr? && KeyOf(cmd.c) == k && cmd.c.kind == kind then 1 else 0
  {
    if FieldOf(cmd) == Field(k, Named(kind)) {
      NamedClean(kind);
      OnlyCleanFields(KeyOf(cmd.c), What(cmd), k, Named(kind));
      if cmd.Sample? {
        NotASample(kind, cmd.c.name);
      } else {
        NamedApart(cmd.c.kind, kind);
      }
    }
  }

  function Newlines(s: string): nat {
    if s == "" then 0 else (if s[0] == '\n' then 1 else 0) + Newlines(s[1..])
  }

  lemma {:induction false} NewlinesAppend(a: string, b: string)
    ensures Newlines(a + b) == Newlines(a) + Newlines(b)
    decreases |a|
  {
    if a == "" {
      assert a + b == b;
    } else {
      assert (a + b)[1..] == a[1..] + b;
      NewlinesAppend(a[1..], b);
    }
  }

  lemma {:induction false} NoNewlines(s: string)
    ensures Newlines(s) == 0 <==> '\n' !in s
    decreases |s|
  {
    if s != "" {
      NoNewlines(s[1..]);
      assert s == [s[0]] + s[1..];
    }
  }

  lemma FieldNewlines(k: Key, what: string)
    ensures Newlines(Field(k, what)) == Newlines(k.member) + Newlines(k.folder) + Newlines(what) + 2
  {
    NewlinesAppend(k.member + ['\n'], k.folder + ['\n'] + what);
    NewlinesAppend(k.member, ['\n']);
    NewlinesAppend(k.folder + ['\n'], what);
    NewlinesAppend(k.folder, ['\n']);
    assert Newlines(['\n']) == 1;
    assert Field(k, what) == (k.member + ['\n']) + (k.folder + ['\n'] + what);
  }

  /** A field of three parts without newline is written for them only. */
  lemma OnlyCleanFields(k': Key, what': string, k: Key, what: string)
    requires Clean(k) && '\n' !in what && Field(k', what') == Field(k, what)
    ensures k' == k && what' == what
  {
    FieldNewlines(k', what');
    FieldNewlines(k, what);
    NoNewlines(k.member);
    NoNewlines(k.folder);
    NoNewlines(what);
    NoNewlines(k'.member);
    NoNewlines(k'.folder);
    DifferentFields(k', what', k, what);
  }

  lemma NamedClean(kind: Kind)
    ensures '\n' !in Named(kind)
  {
  }

  ghost predicate ChangedBy(cmds: seq<Cmd>, k: Key) {
    exists i :: 0 <= i < |cmds| && KeyOf(cmds[i].c) == k
  }

  /** The names stored for a member and folder are names of files they changed there. */
  lemma {:induction false} StoredNames(cmds: seq<Cmd>, k: Key, name: string)
    requires AllClean(cmds) && Clean(k) && Stored(HashOf(cmds), k, name)
    ensures exists i :: 0 <= i < |cmds| && KeyOf(cmds[i].c) == k && cmds[i].c.name == name
    decreases |cmds|
  {
    var n := |cmds| - 1;
    var k', what := KeyOf(cmds[n].c), if cmds[n].Incr? then Named(cmds[n].c.kind) else SAMPLE + cmds[n].c.name;
    if Field(k', what) == Field(k, SAMPLE + name) {
      DifferentFields(k', what, k, SAMPLE + name);
      NotASample(cmds[n].c.kind, name);
      assert name == what[|SAMPLE|..] == cmds[n].c.name;
    } else {
      StoredNames(cmds[..n], k, name);
      var i :| 0 <= i < n && KeyOf(cmds[..n][i].c) == k && cmds[..n][i].c.name == name;
      assert KeyOf(cmds[i].c) == k && cmds[i].c.name == name;
    }
  }

  lemma ChangedByMore(cmds: seq<Cmd>, k: Key)
    requires cmds != []
    ensures ChangedBy(cmds, k) <==> ChangedBy(cmds[..|cmds| - 1], k) || KeyOf(cmds[|cmds| - 1].c) == k
  {
    if ChangedBy(cmds[..|cmds| - 1], k) {
      var i :| 0 <= i < |cmds| - 1 && KeyOf(cmds[..|cmds| - 1][i].c) == k;
      assert KeyOf(cmds[i].c) == k;
    }
  }

  lemma MentionsMore(h: Hash, f: string, v: nat, k: Key)
    ensures Mentions(h[f := v], k) <==> Mentions(h, k) || (Decode(f).Some? && Decode(f).value.k == k)
  {
    if Mentions(h, k) {
      var g :| g in h && Decode(g).Some? && Decode(g).value.k == k;
      assert g in h[f := v];
    }
    if Decode(f).Some? && Decode(f).value.k == k {
      assert f in h[f := v];
    }
  }

  predicate ReadAs(cmd: Cmd, k: Key) {
    Decode(FieldOf(cmd)).Some? && Decode(FieldOf(cmd)).value.k == k
  }

  predicate SomeReadAs(cmds: seq<Cmd>, k: Key) {
    cmds != [] && (SomeReadAs(cmds[..|cmds| - 1], k) || ReadAs(cmds[|cmds| - 1], k))
  }

  lemma {:induction false} ReadAsChanged(cmds: seq<Cmd>, k: Key)
    ensures Clean(k) && ChangedBy(cmds, k) ==> SomeReadAs(cmds, k)
    ensures AllClean(cmds) && SomeReadAs(cmds, k) ==> ChangedBy(cmds, k)
    decreases |cmds|
  {
    if cmds != [] {
      ReadAsChanged(cmds[..|cmds| - 1], k);
      ChangedByMore(cmds, k);
      CleanReadAs(cmds[|cmds| - 1], k);
    }
  }

  lemma {:induction false} MentionedIff(cmds: seq<Cmd>, k: Key)
    ensures Mentions(HashOf(cmds), k) <==> SomeReadAs(cmds, k)
    decreases |cmds|
  {
    if cmds != [] {
      var n := |cmds| - 1;
      MentionedIff(cmds[..n], k);
      MentionsMore(HashOf(cmds[..n]), FieldOf(cmds[n]), Apply(HashOf(cmds[..n]), cmds[n])[FieldOf(cmds[n])], k);
    }
  }

  lemma CleanReadAs(cmd: Cmd, k: Key)
    ensures Clean(KeyOf(cmd.c)) ==> (ReadAs(cmd, k) <==> KeyOf(cmd.c) == k)
    ensures ReadAs(cmd, k) ==> Clean(k)
  {
    DecodeIff(KeyOf(cmd.c), What(cmd));
  }

  ghost predicate NameOf(cmds: seq<Cmd>, k: Key, name: string) {
    exists i :: 0 <= i < |cmds| && KeyOf(cmds[i].c) == k && cmds[i].c.name == name
  }

  ghost predicate CountsOf(cmds: seq<Cmd>, k: Key, t: Tally) {
    forall kind :: t.Of(kind) == Added(cmds, k, kind)
  }

  ghost predicate SamplesNamed(cmds: seq<Cmd>, k: Key, t: Tally) {
    forall i :: 0 <= i < |t.samples| ==> NameOf(cmds, k, t.samples[i])
  }

  /** Whatever the interleaving of the commands, and whatever the changes, taking the window gives
      each member and folder exactly the number of its changes of each kind; it tallies all those
      that have changes, and no others, if and only if no member or folder has a newline, and then
      the samples are names of their files. */
  lemma TakeExact(cmds: seq<Cmd>, counts: map<Key, Tally>)
    requires Parsed(HashOf(cmds), counts)
    ensures forall k :: k in counts ==> Clean(k) && CountsOf(cmds, k, counts[k])
    ensures forall k :: Clean(k) && ChangedBy(cmds, k) ==> k in counts
    ensures (forall k :: k in counts <==> ChangedBy(cmds, k)) <==> AllClean(cmds)
    ensures AllClean(cmds) ==> forall k :: k in counts ==> SamplesNamed(cmds, k, counts[k])
  {
    forall k | k in counts ensures Clean(k) && CountsOf(cmds, k, counts[k]) {
      MentionedClean(HashOf(cmds), k);
      forall kind ensures counts[k].Of(kind) == Added(cmds, k, kind) {
        ValueIsAdded(cmds, k, kind);
      }
    }
    forall k | Clean(k) && ChangedBy(cmds, k) ensures k in counts {
      ChangedTallied(cmds, k);
    }
    KeysIff(cmds, counts);
    if AllClean(cmds) {
      forall k | k in counts ensures SamplesNamed(cmds, k, counts[k]) {
        forall i | 0 <= i < |counts[k].samples| ensures NameOf(cmds, k, counts[k].samples[i]) {
          StoredNames(cmds, k, counts[k].samples[i]);
        }
      }
    }
  }

  lemma ChangedTallied(cmds: seq<Cmd>, k: Key)
    requires Clean(k) && ChangedBy(cmds, k)
    ensures Mentions(HashOf(cmds), k)
  {
    ReadAsChanged(cmds, k);
    MentionedIff(cmds, k);
  }

  lemma KeysIff(cmds: seq<Cmd>, counts: map<Key, Tally>)
    requires forall k :: k in counts <==> Mentions(HashOf(cmds), k)
    ensures (forall k :: k in counts <==> ChangedBy(cmds, k)) <==> AllClean(cmds)
  {
    if AllClean(cmds) {
      forall k ensures k in counts <==> ChangedBy(cmds, k) {
        MentionedIff(cmds, k);
        ReadAsChanged(cmds, k);
      }
    } else {
      var i :| 0 <= i < |cmds| && !Clean(KeyOf(cmds[i].c));
      var k := KeyOf(cmds[i].c);
      assert ChangedBy(cmds, k);
      if k in counts {
        MentionedClean(HashOf(cmds), k);
      }
    }
  }

  // ---------------------------------------------------------------- the store

  datatype Window = Window(drive: string, start: string)

  /** The outcome of `add`: the window and whether this change opened it. */
  datatype Outcome = Counted(window: string, opening: bool) | Lost

  class Store {
    var open: map<string, string>       // the open window of each drive
    var hashes: map<Window, Hash>
    ghost var log: map<Window, seq<Cmd>>     // the commands received since the window was dropped
    ghost var announced: set<Window>         // the windows that a call reported as opened

    ghost predicate Valid()
      reads this
    {
      && hashes.Keys == log.Keys
      && (forall w :: w in log ==> log[w] != [] && hashes[w] == HashOf(log[w]) && w in announced)
      && (forall d :: d in open ==> Window(d, open[d]) in announced)
    }

    ghost function Log(w: Window): seq<Cmd>
      reads this
    {
      if w in log then log[w] else []
    }

    constructor ()
      ensures Valid() && log == map[] && open == map[] && announced == {}
    {
      open, hashes, log, announced := map[], map[], map[], {};
    }

    /** The end of a window is the expiry of its key. */
    method Expire(drive: string)
      requires Valid()
      modifies this`open
      ensures Valid() && open == old(open) - {drive}
    {
      open := open - {drive};
    }

    method Send(w: Window, cmd: Cmd)
      requires Valid() && w in announced
      modifies this`hashes, this`log
      ensures Valid() && log == old(log)[w := old(Log(w)) + [cmd]]
    {
      ghost var before := Log(w);
      var h := Apply(if w in hashes then hashes[w] else map[], cmd);
      HashMore(before, cmd);
      assert h == HashOf(before + [cmd]);
      hashes, log := hashes[w := h], log[w := before + [cmd]];
    }

    /** SETNX, then GET when another call opened the window; its key may expire in between. */
    method OpenWindow(drive: string, start: string, expires: bool) returns (window: Option<string>, opening: bool)
      requires Valid()
      modifies this`open, this`announced
      ensures Valid() && opening == (drive !in old(open))
      ensures window == if opening then Some(start) else if expires then None else Some(old(open)[drive])
      ensures announced == old(announced) + if opening then {Window(drive, start)} else {}
      ensures window.Some? ==> open == old(open)[drive := window.value]
    {
      opening := drive !in open;
      if opening {
        open := open[drive := start];
        announced := announced + {Window(drive, start)};
      } else if expires {
        open := open - {drive};
        return None, false;
      }
      window := Some(open[drive]);
    }

    /** HINCRBY answers the new count. */
    method Increment(w: Window, c: Change) returns (n: nat)
      requires Valid() && w in announced
      modifies this`hashes, this`log
      ensures Valid() && log == old(log)[w := old(Log(w)) + [Incr(c)]]
      ensures n == old(NextCount(w, c))
    {
      var h := if w in hashes then hashes[w] else map[];
      n := Apply(h, Incr(c))[CountField(c)];
      Send(w, Incr(c));
    }

    /** HINCRBY, then HSET when the count is small. */
    method Record(w: Window, c: Change)
      requires Valid() && w in announced
      modifies this`hashes, this`log
      ensures Valid()
      ensures log == old(log)[w := old(Log(w)) + Sent(c, old(NextCount(w, c)))]
    {
      ghost var before := Log(w);
      var n := Increment(w, c);
      SentInTurn(before, c, n);
      if n <= MAX_SAMPLES {
        Send(w, Cmd.Sample(c));
      }
    }

    ghost function NextCount(w: Window, c: Change): nat
      reads this
    {
      1 + Value(HashOf(Log(w)), KeyOf(c), c.kind)
    }

    /** `add`: the change is counted in the window returned and nowhere else; the call that
        opened the window says so, and is the one that schedules its flush. */
    method Add(drive: string, c: Change, start: string, expires: bool) returns (r: Outcome)
      requires Valid()
      modifies this
      ensures Valid()
      ensures r.Lost? <==> drive in old(open) && expires
      ensures r.Lost? ==> log == old(log) && announced == old(announced)
      ensures r.Counted? ==>
                && r.opening == (drive !in old(open))
                && r.window == (if drive in old(open) then old(open)[drive] else start)
                && open == old(open)[drive := r.window]
                && announced == old(announced) + if r.opening then {Window(drive, r.window)} else {}
      ensures r.Counted? ==>
                var w := Window(drive, r.window);
                log == old(log)[w := old(Log(w)) + Sent(c, old(NextCount(w, c)))]
    {
      var window, opening := OpenWindow(drive, start, expires);
      if window.None? {
        return Lost;
      }
      Record(Window(drive, window.value), c);
      r := Counted(window.value, opening);
    }

    /** `take`: it changes nothing, so taking again gives the same counts. */
    method Take(w: Window) returns (counts: map<Key, Tally>)
      requires Valid()
      ensures Parsed(HashOf(Log(w)), counts)
    {
      counts := ParseCounts(if w in hashes then hashes[w] else map[]);
    }

    method Drop(w: Window)
      requires Valid()
      modifies this`hashes, this`log
      ensures Valid() && log == old(log) - {w}
    {
      hashes, log := hashes - {w}, log - {w};
    }
  }

  /** The commands of one call of `add`, for the n-th change of its kind. */
  function Sent(c: Change, n: nat): seq<Cmd> {
    if n <= MAX_SAMPLES then [Incr(c), Sample(c)] else [Incr(c)]
  }

  lemma SentInTurn(before: seq<Cmd>, c: Change, n: nat)
    ensures before + Sent(c, n) == if n <= MAX_SAMPLES then before + [Incr(c)] + [Sample(c)] else before + [Incr(c)]
  {
  }

  // ---------------------------------------------------------------- the names kept

  /** The log of a window that receives these changes one after the other. */
  function LogOf(changes: seq<Change>): seq<Cmd> {
    if changes == [] then [] else
    var log, c := LogOf(changes[..|changes| - 1]), changes[|changes| - 1];
    log + Sent(c, 1 + Added(log, KeyOf(c), c.kind))
  }

  function Times(changes: seq<Change>, k: Key, kind: Kind): nat {
    if changes == [] then 0 else
    var c := changes[|changes| - 1];
    Times(changes[..|changes| - 1], k, kind) + if KeyOf(c) == k && c.kind == kind then 1 else 0
  }

  lemma AddedMore(log: seq<Cmd>, cmd: Cmd, k: Key, kind: Kind)
    ensures Added(log + [cmd], k, kind)
         == Added(log, k, kind) + if cmd.Incr? && KeyOf(cmd.c) == k && cmd.c.kind == kind then 1 else 0
  {
    assert (log + [cmd])[..|log|] == log;
  }

  lemma {:induction false} AddedInLog(changes: seq<Change>, k: Key, kind: Kind)
    ensures Added(LogOf(changes), k, kind) == Times(changes, k, kind)
    decreases |changes|
  {
    if changes != [] {
      var log, c := LogOf(changes[..|changes| - 1]), changes[|changes| - 1];
      var n := 1 + Added(log, KeyOf(c), c.kind);
      AddedInLog(changes[..|changes| - 1], k, kind);
      SentInTurn(log, c, n);
      AddedMore(log, Incr(c), k, kind);
      AddedMore(log + [Incr(c)], Cmd.Sample(c), k, kind);
    }
  }

  lemma {:induction false} SampleIsStored(cmds: seq<Cmd>, c: Change)
    requires Cmd.Sample(c) in cmds
    ensures Stored(HashOf(cmds), KeyOf(c), c.name)
    decreases |cmds|
  {
    var n := |cmds| - 1;
    if cmds[n] != Cmd.Sample(c) {
      SampleIsStored(cmds[..n], c);
    }
  }

  /** The names of the first five changes of each kind, by one member in one folder, are kept. */
  lemma {:induction false} FirstFiveNamed(changes: seq<Change>, i: nat)
    requires i < |changes|
    ensures Times(changes[..i], KeyOf(changes[i]), changes[i].kind) < 5 ==>
              Cmd.Sample(changes[i]) in LogOf(changes)
              && Stored(HashOf(LogOf(changes)), KeyOf(changes[i]), changes[i].name)
    decreases |changes|
  {
    var n := |changes| - 1;
    var log := LogOf(changes[..n]);
    if Times(changes[..i], KeyOf(changes[i]), changes[i].kind) < 5 {
      if i < n {
        assert changes[..n][..i] == changes[..i];
        FirstFiveNamed(changes[..n], i);
      } else {
        AddedInLog(changes[..n], KeyOf(changes[n]), changes[n].kind);
      }
      SampleIsStored(LogOf(changes), changes[i]);
    }
  }

  /** A change of a kind already counted five times leaves the log with one command more. */
  lemma OthersNotNamed(changes: seq<Change>, c: Change)
    requires Times(changes, KeyOf(c), c.kind) >= 5
    ensures LogOf(changes + [c]) == LogOf(changes) + [Incr(c)]
  {
    assert (changes + [c])[..|changes|] == changes;
    AddedInLog(changes, KeyOf(c), c.kind);
  }
}

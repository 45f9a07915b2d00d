/** Platform banners (model/banner): the pure part of `Merge`, `Materialize` and of the commands
    a backend sends, and the store they update in place under the per-instance lock.

    Times are integers of nanoseconds since the Unix epoch; Go's zero time is a constant apart.
    A map from locales to wording gives "" for a missing locale, as in Go.

    A document is what CouchDB gives back: an empty title or text of a command is left out of its
    JSON, and read as a nil map, which `changed` does not take for an empty one. */
module Banner {
  import opened Options

  const ZERO_TIME := -62135596800 * 1_000_000_000
  const EPOCH := 0
  const NS := 1_000_000_000

  const DEFAULT_LOCALE := "en"
  const SURFACE_BANNER := "banner"
  const SURFACE_MODAL := "modal"
  const STACK_AUTHOR := "stack"
  const DOCTYPE_VERSION := "1"
  const METADATA_VERSION := 1
  const TRIGGER_COMMAND := "banner.command"

  type Localized = map<string, string>

  /** A map that may be nil. */
  datatype Wordings = Nil | Wordings(entries: Localized)

  datatype CTA = CTA(caption: string, url: string)
  datatype CommandCTA = CommandCTA(captions: Localized, url: string)
  datatype Source = Source(trigger: string, at: int)
  datatype Metadata = Metadata(docTypeVersion: string, metadataVersion: int, createdAt: int,
                               createdByApp: string, updatedAt: int)

  datatype Command = Command(
    category: string, orgID: string, workplaceFqdn: string, eventID: string,
    revision: int, timestamp: int, clear: bool,
    bannerID: string, severity: string, surface: string, title: Wordings, text: Wordings,
    cta: Option<CommandCTA>, secondaryCTA: Option<CommandCTA>,
    dismissible: bool, priority: int, startsAt: Option<int>, endsAt: Option<int>)

  /** An io.cozy.banners document; `rev` counts its writes, as CouchDB's revision does. */
  datatype Banner = Banner(
    rev: nat, bannerID: string, category: string, severity: string, surface: string,
    title: string, text: string, lang: string, cta: Option<CTA>, secondaryCTA: Option<CTA>,
    dismissible: bool, dismissedAt: Option<int>, priority: int,
    startsAt: Option<int>, endsAt: Option<int>, source: Source,
    revision: int, eventID: string, cleared: bool, accepted: Option<Command>, metadata: Option<Metadata>)

  // ---------------------------------------------------------------- commands

  function Wording(l: Localized, locale: string): string {
    if locale in l then l[locale] else ""
  }

  /** The entries of a map, none when it is nil. */
  function Entries(w: Wordings): Localized {
    if w.Nil? then map[] else w.entries
  }

  function Say(w: Wordings, locale: string): string {
    Wording(Entries(w), locale)
  }

  function Lang(locale: string): string {
    if locale == "" then DEFAULT_LOCALE else locale
  }

  predicate Labelled(c: Option<CommandCTA>, locale: string) {
    c.None? || Wording(c.value.captions, locale) != ""
  }

  predicate Complete(cmd: Command, locale: string) {
    && Say(cmd.text, locale) != ""
    && (|Entries(cmd.title)| > 0 ==> Say(cmd.title, locale) != "")
    && Labelled(cmd.cta, locale) && Labelled(cmd.secondaryCTA, locale)
  }

  function Locale(cmd: Command, instanceLocale: string): string {
    if Complete(cmd, Lang(instanceLocale)) then Lang(instanceLocale) else DEFAULT_LOCALE
  }

  function PickCTA(c: Option<CommandCTA>, locale: string): Option<CTA> {
    if c.None? then None else Some(CTA(Wording(c.value.captions, locale), c.value.url))
  }

  /** `Command.banner`: the localized banner, or the expired tombstone of a clear. */
  function BannerOf(cmd: Command, instanceLocale: string): Banner {
    var source := Source(TRIGGER_COMMAND, cmd.timestamp * NS);
    if cmd.clear then
      Banner(0, "", cmd.category, "", "", "", "", "", None, None, false, None, 0,
             None, Some(EPOCH), source, cmd.revision, cmd.eventID, true, None, None)
    else
      var locale := Locale(cmd, instanceLocale);
      Banner(0, cmd.bannerID, cmd.category, cmd.severity, cmd.surface,
             Say(cmd.title, locale), Say(cmd.text, locale), locale,
             PickCTA(cmd.cta, locale), PickCTA(cmd.secondaryCTA, locale),
             cmd.dismissible, None, cmd.priority, cmd.startsAt, cmd.endsAt, source,
             cmd.revision, cmd.eventID, false, Some(cmd), None)
  }

  // ---------------------------------------------------------------- materialization

  /** Whether the stored dismissal and start belong to the occurrence of the fresh banner. */
  predicate SameOccurrence(made: Banner, stored: Banner) {
    !stored.cleared && !made.cleared && stored.bannerID == made.bannerID
  }

  /** The start carried forward must not invert a window that ends before it. */
  predicate CarriesStart(made: Banner, stored: Banner) {
    && SameOccurrence(made, stored)
    && made.startsAt.None? && stored.startsAt.Some?
    && (made.endsAt.None? || stored.startsAt.value < made.endsAt.value)
  }

  function Merge(made: Banner, stored: Option<Banner>): Banner {
    match stored
    case None => made
    case Some(s) =>
      made.(rev := s.rev,
             dismissedAt := if SameOccurrence(made, s) then s.dismissedAt else made.dismissedAt,
             startsAt := if CarriesStart(made, s) then s.startsAt else made.startsAt,
             metadata := if s.metadata.Some? then s.metadata else made.metadata)
  }

  function EnsureEscapable(b: Banner): Banner {
    if b.surface == SURFACE_MODAL && b.cta.None? && !b.dismissible then b.(dismissible := true) else b
  }

  function Stamp(b: Banner, now: int): Banner {
    var m := if b.metadata.Some? then b.metadata.value else Metadata("", METADATA_VERSION, now, "", now);
    b.(metadata := Some(Metadata(DOCTYPE_VERSION,
                                 if m.metadataVersion == 0 then METADATA_VERSION else m.metadataVersion,
                                 if m.createdAt == ZERO_TIME then now else m.createdAt,
                                 STACK_AUTHOR, now)))
  }

  // ---------------------------------------------------------------- what is stored

  function SavedWordings(w: Wordings): Wordings {
    if Entries(w) == map[] then Nil else w
  }

  /** A command as its JSON is read back. */
  function Saved(cmd: Option<Command>): Option<Command> {
    if cmd.None? then None
    else Some(cmd.value.(title := SavedWordings(cmd.value.title), text := SavedWordings(cmd.value.text)))
  }

  /** Whether the user may close the banner, its own way or because nothing else closes it. */
  predicate Closable(b: Banner) {
    b.dismissible || (b.surface == SURFACE_MODAL && b.cta.None?)
  }

  /** The start: what is stated, else what is carried from the stored occurrence, else when it
      was decided, else now. */
  function StartOf(stored: Option<Banner>, made: Banner, now: int): int {
    if made.startsAt.Some? then made.startsAt.value
    else if stored.Some? && CarriesStart(made, stored.value) then stored.value.startsAt.value
    else if made.source.at != ZERO_TIME then made.source.at
    else now
  }

  /** The dismissal: none for what cannot be closed, else that of the stored occurrence if it is
      the same one. */
  function DismissalOf(stored: Option<Banner>, made: Banner): Option<int> {
    if !Closable(made) then None
    else if stored.Some? && SameOccurrence(made, stored.value) then stored.value.dismissedAt
    else made.dismissedAt
  }

  /** The metadata: the date of creation is kept from the stored document, or from the made one,
      and the rest is that of the stack. */
  function MetadataOf(stored: Option<Banner>, made: Banner, now: int): Metadata {
    var origin := if stored.Some? && stored.value.metadata.Some? then stored.value.metadata else made.metadata;
    Metadata(DOCTYPE_VERSION,
             if origin.Some? && origin.value.metadataVersion != 0 then origin.value.metadataVersion else METADATA_VERSION,
             if origin.Some? && origin.value.createdAt != ZERO_TIME then origin.value.createdAt else now,
             STACK_AUTHOR, now)
  }

  /** The document `Materialize` would write. */
  function Prepared(stored: Option<Banner>, category: string, made: Banner, now: int): Banner {
    made.(rev := if stored.Some? then stored.value.rev else made.rev,
          category := category,
          startsAt := Some(StartOf(stored, made, now)),
          dismissible := Closable(made),
          dismissedAt := DismissalOf(stored, made),
          metadata := Some(MetadataOf(stored, made, now)))
  }

  predicate StampChanged(made: Option<Metadata>, stored: Option<Metadata>) {
    if made.None? || stored.None? then made.None? != stored.None? else
    || made.value.createdByApp != stored.value.createdByApp
    || made.value.docTypeVersion != stored.value.docTypeVersion
    || made.value.metadataVersion != stored.value.metadataVersion
  }

  predicate Changed(made: Banner, stored: Banner) {
    || made.revision != stored.revision || made.dismissedAt != stored.dismissedAt
    || made.eventID != stored.eventID || made.cleared != stored.cleared
    || made.accepted != stored.accepted || made.bannerID != stored.bannerID
    || made.category != stored.category || made.severity != stored.severity
    || made.surface != stored.surface || made.title != stored.title || made.text != stored.text
    || made.lang != stored.lang || made.priority != stored.priority
    || made.dismissible != stored.dismissible || made.startsAt != stored.startsAt
    || made.endsAt != stored.endsAt || made.cta != stored.cta
    || made.secondaryCTA != stored.secondaryCTA || StampChanged(made.metadata, stored.metadata)
  }

  /** The stored document after `Materialize`: deleted when the rule produces nothing, left
      alone when nothing changed, written otherwise. */
  function Materialized(stored: Option<Banner>, category: string, made: Option<Banner>, now: int): Option<Banner> {
    if made.None? then None else
    var b := Prepared(stored, category, made.value, now);
    if stored.None? then Some(b.(rev := 1, accepted := Saved(b.accepted)))
    else if !Changed(b, stored.value) then stored
    else Some(b.(rev := stored.value.rev + 1, accepted := Saved(b.accepted)))
  }

  /** `applyTo`, for an instance that accepts the category. */
  function Applied(stored: Option<Banner>, cmd: Command, locale: string, now: int): Option<Banner> {
    if stored.Some? && cmd.revision <= stored.value.revision then stored
    else Materialized(stored, cmd.category, Some(BannerOf(cmd, locale)), now)
  }

  /** The turn of `refreshCommandsAt` for one document. */
  function Refreshed(stored: Option<Banner>, category: string, locale: string, now: int): Option<Banner> {
    if stored.None? || stored.value.cleared || stored.value.accepted.None? then stored
    else Materialized(stored, category, Some(BannerOf(stored.value.accepted.value, locale)), now)
  }

  // ---------------------------------------------------------------- what a command asks to show

  /** The text of a title or of a message in one language, "" when there is none. */
  predicate SaidIn(text: string, w: Wordings, lang: string) {
    text == if w.Wordings? && lang in w.entries then w.entries[lang] else ""
  }

  predicate HasWording(l: Localized, lang: string) {
    lang in l && l[lang] != ""
  }

  /** The command has its text in this language, its title if it has one, and its labels. */
  predicate CompleteIn(cmd: Command, lang: string) {
    && cmd.text.Wordings? && HasWording(cmd.text.entries, lang)
    && (cmd.title.Wordings? && cmd.title.entries != map[] ==> HasWording(cmd.title.entries, lang))
    && (cmd.cta.Some? ==> HasWording(cmd.cta.value.captions, lang))
    && (cmd.secondaryCTA.Some? ==> HasWording(cmd.secondaryCTA.value.captions, lang))
  }

  predicate ActionIn(a: Option<CTA>, c: Option<CommandCTA>, lang: string) {
    && (a.Some? <==> c.Some?)
    && (a.Some? ==> a.value.url == c.value.url)
    && (a.Some? ==> a.value.caption == if lang in c.value.captions then c.value.captions[lang] else "")
  }

  /** The document shows the command, all of it in this language. */
  predicate ShownIn(b: Banner, cmd: Command, lang: string) {
    && b.lang == lang && SaidIn(b.title, cmd.title, lang) && SaidIn(b.text, cmd.text, lang)
    && ActionIn(b.cta, cmd.cta, lang) && ActionIn(b.secondaryCTA, cmd.secondaryCTA, lang)
    && b.bannerID == cmd.bannerID && b.severity == cmd.severity && b.surface == cmd.surface
    && b.priority == cmd.priority && b.revision == cmd.revision && b.eventID == cmd.eventID
    && (b.dismissible <==> cmd.dismissible || (cmd.surface == "modal" && cmd.cta.None?))
    && b.endsAt == cmd.endsAt && b.startsAt.Some? && (cmd.startsAt.Some? ==> b.startsAt == cmd.startsAt)
    && !b.cleared
  }

  /** The document is the expired tombstone of the command, which shows nothing. */
  predicate TombstoneOf(b: Banner, cmd: Command) {
    && b.cleared && b.revision == cmd.revision && b.eventID == cmd.eventID && b.endsAt == Some(0)
    && b.bannerID == "" && b.severity == "" && b.surface == "" && b.title == "" && b.text == "" && b.lang == ""
    && b.cta.None? && b.secondaryCTA.None? && !b.dismissible && b.priority == 0
    && b.startsAt.Some?
  }

  /** What the document of a command must be for an instance in this language: the whole of it in
      that language when the command is complete in it, and the whole of it in English otherwise. */
  predicate Shows(b: Banner, cmd: Command, locale: string) {
    && (cmd.clear ==> TombstoneOf(b, cmd))
    && (!cmd.clear && locale != "" && CompleteIn(cmd, locale) ==> ShownIn(b, cmd, locale))
    && (!cmd.clear && (locale == "" || !CompleteIn(cmd, locale)) ==> ShownIn(b, cmd, "en"))
  }

  lemma CompleteIff(cmd: Command, lang: string)
    ensures Complete(cmd, lang) <==> CompleteIn(cmd, lang)
  {
    assert cmd.title.Wordings? ==> (|cmd.title.entries| > 0 <==> cmd.title.entries != map[]);
  }

  lemma LocaleShown(cmd: Command, locale: string)
    ensures locale != "" && CompleteIn(cmd, locale) ==> Locale(cmd, locale) == locale
    ensures locale == "" || !CompleteIn(cmd, locale) ==> Locale(cmd, locale) == "en"
  {
    CompleteIff(cmd, locale);
  }

  lemma PreparedShows(stored: Option<Banner>, category: string, cmd: Command, locale: string, now: int)
    ensures Shows(Prepared(stored, category, BannerOf(cmd, locale), now), cmd, locale)
  {
    LocaleShown(cmd, locale);
  }

  /** What is not compared is not shown. */
  lemma UnchangedShows(b: Banner, stored: Banner, cmd: Command, locale: string)
    requires !Changed(b, stored) && Shows(b, cmd, locale)
    ensures Shows(stored, cmd, locale)
  {
  }

  lemma MaterializedShows(stored: Option<Banner>, category: string, cmd: Command, locale: string, now: int)
    ensures var b := Materialized(stored, category, Some(BannerOf(cmd, locale)), now);
            b.Some? && Shows(b.value, cmd, locale)
  {
    var b := Prepared(stored, category, BannerOf(cmd, locale), now);
    PreparedShows(stored, category, cmd, locale, now);
    if stored.Some? && !Changed(b, stored.value) {
      UnchangedShows(b, stored.value, cmd, locale);
    }
  }

  // ---------------------------------------------------------------- the store

  /** The field updates of `Materialize` on the merged banner: each field ends with the value
      that the stored document, the made one and the time give it. */
  method Prepare(stored: Option<Banner>, category: string, made: Banner, now: int) returns (merged: Banner)
    ensures merged == Prepared(stored, category, made, now)
  {
    merged := Merge(made, stored).(category := category);
    if merged.startsAt.None? {
      var at := merged.source.at;
      if at == ZERO_TIME {
        at := now;
      }
      merged := merged.(startsAt := Some(at));
    }
    merged := EnsureEscapable(merged);
    if !merged.dismissible {
      merged := merged.(dismissedAt := None);
    }
    merged := Stamp(merged, now);
  }

  datatype Settings = Settings(enabled: bool, categories: set<string>) {
    predicate Allows(category: string) {
      "*" in categories || category in categories
    }
  }

  function Lookup(docs: map<string, Banner>, category: string): Option<Banner> {
    if category in docs then Some(docs[category]) else None
  }

  /** The banners of one instance, one document per category. */
  class Store {
    var docs: map<string, Banner>

    constructor ()
      ensures docs == map[]
    {
      docs := map[];
    }

    ghost predicate Valid()
      reads this
    {
      forall c :: c in docs ==> docs[c].category == c
    }

    /** `Materialize`: read the stored document, then create, update or delete it. */
    method Materialize(category: string, made: Option<Banner>, now: int)
      requires Valid()
      modifies this
      ensures Valid()
      ensures Lookup(docs, category) == Materialized(old(Lookup(docs, category)), category, made, now)
      ensures docs - {category} == old(docs) - {category}
    {
      var stored := Lookup(docs, category);
      if made.None? {
        docs := docs - {category};
        return;
      }
      var merged := Prepare(stored, category, made.value, now);
      if stored.None? {
        docs := docs[category := merged.(rev := 1, accepted := Saved(merged.accepted))];
      } else if Changed(merged, stored.value) {
        docs := docs[category := merged.(rev := stored.value.rev + 1, accepted := Saved(merged.accepted))];
      }
    }

    method ApplyTo(cmd: Command, settings: Settings, locale: string, now: int)
      requires Valid()
      modifies this
      ensures Valid()
      ensures Lookup(docs, cmd.category)
           == if settings.enabled && settings.Allows(cmd.category)
              then Applied(old(Lookup(docs, cmd.category)), cmd, locale, now) else old(Lookup(docs, cmd.category))
      ensures settings.enabled && ("*" in settings.categories || cmd.category in settings.categories)
              && (cmd.category in old(docs) ==> old(docs)[cmd.category].revision < cmd.revision) ==>
                && cmd.category in docs && Shows(docs[cmd.category], cmd, locale)
                && docs[cmd.category].source == Source("banner.command", cmd.timestamp * 1_000_000_000)
      ensures !settings.enabled || !("*" in settings.categories || cmd.category in settings.categories) ==> docs == old(docs)
      ensures cmd.category in old(docs) && cmd.revision <= old(docs)[cmd.category].revision ==> docs == old(docs)
      ensures docs - {cmd.category} == old(docs) - {cmd.category}
    {
      if !settings.enabled || !settings.Allows(cmd.category) {
        return;
      }
      var stored := Lookup(docs, cmd.category);
      if stored.Some? && cmd.revision <= stored.value.revision {
        return;
      }
      Materialize(cmd.category, Some(BannerOf(cmd, locale)), now);
      MaterializedShows(stored, cmd.category, cmd, locale, now);
    }

    /** `refreshCommandsAt`: every retained command is materialized again, in any order. */
    method RefreshCommandsAt(settings: Settings, locale: string, now: int)
      requires Valid()
      modifies this
      ensures Valid()
      ensures forall c :: Lookup(docs, c)
                       == if settings.enabled && settings.Allows(c)
                          then Refreshed(old(Lookup(docs, c)), c, locale, now) else old(Lookup(docs, c))
      ensures settings.enabled ==>
                forall c :: c in old(docs) && ("*" in settings.categories || c in settings.categories)
                            && !old(docs)[c].cleared && old(docs)[c].accepted.Some? ==>
                  c in docs && Shows(docs[c], old(docs)[c].accepted.value, locale)
    {
      if !settings.enabled {
        return;
      }
      var states := docs;
      var left := states.Keys;
      while left != {}
        invariant Valid() && left <= states.Keys
        invariant forall c :: c in left ==> Lookup(docs, c) == Lookup(states, c)
        invariant forall c :: c !in left ==>
                    Lookup(docs, c) == if settings.Allows(c) then Refreshed(Lookup(states, c), c, locale, now)
                                       else Lookup(states, c)
        decreases |left|
      {
        var category :| category in left;
        var state := states[category];
        ghost var before := docs;
        if !state.cleared && state.accepted.Some? && settings.Allows(state.category) {
          Materialize(state.category, Some(BannerOf(state.accepted.value, locale)), now);
          forall c | c != category ensures Lookup(docs, c) == Lookup(before, c) {
            assert c in docs <==> c in docs - {category};
            assert c in before <==> c in before - {category};
            assert c in docs ==> docs[c] == (docs - {category})[c];
            assert c in before ==> before[c] == (before - {category})[c];
          }
        }
        left := left - {category};
      }
      forall c | c in states && ("*" in settings.categories || c in settings.categories)
                 && !states[c].cleared && states[c].accepted.Some?
        ensures c in docs && Shows(docs[c], states[c].accepted.value, locale)
      {
        MaterializedShows(Some(states[c]), c, states[c].accepted.value, locale, now);
        assert Lookup(docs, c) == Refreshed(Lookup(states, c), c, locale, now);
      }
    }

    /** The client write when the user closes a banner. */
    method Dismiss(category: string, at: int)
      requires Valid() && category in docs
      modifies this
      ensures Valid()
      ensures docs == old(docs)[category := Dismissed(old(docs)[category], at)]
    {
      docs := docs[category := Dismissed(docs[category], at)];
    }
  }

  function Dismissed(b: Banner, at: int): Banner {
    b.(dismissedAt := Some(at), rev := b.rev + 1)
  }
}

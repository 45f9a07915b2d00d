/** Valid banner commands (model/banner/command.go:76-93,200-357): what the boundary rejects, and
    what the documents made of the commands it lets through look like.

    Texts are counted in characters, which stand for the bytes of the code. Whether a URL is an
    absolute https one, and how long the JSON of a command is, are parameters. */
module BannerCommands {
  import opened Options
  import opened Text
  import opened Banner
  import opened BannerRuns

  const QUOTA := "quota"
  const SEVERITIES := {"info", "warning", "error"}
  const MAX_LABEL := 128
  const MAX_TITLE := 256
  const MAX_TEXT := 1024
  const MAX_URL := 2048
  const MAX_PRIORITY := 1000
  const MAX_EVENT_ID := 256
  const MAX_ORG_ID := 256
  const MAX_LOCALE := 35
  const MAX_LOCALES := 32
  const MAX_BYTES := 256 * 1024

  /** The years 0 to 9999, in seconds. */
  const FIRST_SECOND := -62167219200
  const LAST_SECOND := 253402300799

  datatype Boundary = Boundary(https: string -> bool, size: Command -> nat)

  // ---------------------------------------------------------------- formats

  predicate Lower(c: char) { 'a' <= c <= 'z' }

  predicate LowerDigit(c: char) { Lower(c) || '0' <= c <= '9' }

  predicate Alnum(c: char) { LowerDigit(c) || 'A' <= c <= 'Z' }

  predicate CategoryFormat(s: string) {
    1 <= |s| <= 32 && Lower(s[0]) && forall i :: 0 <= i < |s| ==> LowerDigit(s[i]) || s[i] == '-'
  }

  predicate BannerIDFormat(s: string) {
    1 <= |s| <= 64 && forall i :: 0 <= i < |s| ==> LowerDigit(s[i]) || s[i] == '.' || s[i] == '-'
  }

  predicate TargetFormat(s: string) {
    && 1 <= |s| <= 255 && Alnum(s[0]) && Alnum(s[|s| - 1])
    && forall i :: 0 <= i < |s| ==> Alnum(s[i]) || s[i] == '.' || s[i] == '-'
  }

  predicate Trimmed(s: string) {
    s == "" || (!IsSpace(s[0]) && !IsSpace(s[|s| - 1]))
  }

  predicate InRange(t: Option<int>) {
    t.None? || FIRST_SECOND * NS <= t.value < (LAST_SECOND + 1) * NS
  }

  // ---------------------------------------------------------------- validation

  predicate GoodLocalized(l: Localized, max: nat) {
    |l| <= MAX_LOCALES && forall k :: k in l ==> 1 <= |k| <= MAX_LOCALE && |l[k]| <= max
  }

  predicate GoodCTA(b: Boundary, c: Option<CommandCTA>) {
    c.None? || (|c.value.url| <= MAX_URL && b.https(c.value.url) && GoodLocalized(c.value.captions, MAX_LABEL))
  }

  predicate NoPresentation(cmd: Command) {
    && cmd.bannerID == "" && cmd.severity == "" && cmd.surface == "" && |Entries(cmd.title)| == 0 && |Entries(cmd.text)| == 0
    && cmd.cta.None? && cmd.secondaryCTA.None? && !cmd.dismissible && cmd.priority == 0
    && cmd.startsAt.None? && cmd.endsAt.None?
  }

  /** `Localized.validate`, whatever the order of the locales. */
  method ValidateLocalized(l: Localized, max: nat) returns (ok: bool)
    ensures ok <==> GoodLocalized(l, max)
  {
    if |l| > MAX_LOCALES {
      return false;
    }
    var left := l.Keys;
    while left != {}
      invariant left <= l.Keys
      invariant forall k :: k in l && k !in left ==> 1 <= |k| <= MAX_LOCALE && |l[k]| <= max
      decreases |left|
    {
      var k :| k in left;
      if |k| == 0 || |k| > MAX_LOCALE || |l[k]| > max {
        return false;
      }
      left := left - {k};
    }
    ok := true;
  }

  method ValidateCTA(b: Boundary, c: Option<CommandCTA>) returns (ok: bool)
    ensures ok <==> GoodCTA(b, c)
  {
    if c.None? {
      return true;
    }
    if |c.value.url| > MAX_URL || !b.https(c.value.url) {
      return false;
    }
    ok := ValidateLocalized(c.value.captions, MAX_LABEL);
  }

  /** What both kinds of commands must have. */
  predicate GoodEnvelope(cmd: Command) {
    && CategoryFormat(cmd.category) && cmd.category != QUOTA
    && (cmd.orgID == "" <==> cmd.workplaceFqdn != "")
    && (cmd.orgID != "" ==> |cmd.orgID| <= MAX_ORG_ID && Trimmed(cmd.orgID))
    && (cmd.workplaceFqdn != "" ==> TargetFormat(cmd.workplaceFqdn))
    && cmd.revision > 0 && 0 < cmd.timestamp <= LAST_SECOND && |cmd.eventID| <= MAX_EVENT_ID
  }

  predicate GoodBanner(b: Boundary, cmd: Command) {
    && BannerIDFormat(cmd.bannerID) && cmd.severity in SEVERITIES
    && (cmd.surface == SURFACE_BANNER || cmd.surface == SURFACE_MODAL)
    && 0 <= cmd.priority <= MAX_PRIORITY && InRange(cmd.startsAt) && InRange(cmd.endsAt)
    && (cmd.startsAt.Some? && cmd.endsAt.Some? ==> cmd.startsAt.value < cmd.endsAt.value)
    && (cmd.secondaryCTA.Some? ==> cmd.cta.Some?)
    && GoodLocalized(Entries(cmd.text), MAX_TEXT) && GoodLocalized(Entries(cmd.title), MAX_TITLE)
    && GoodCTA(b, cmd.cta) && GoodCTA(b, cmd.secondaryCTA)
    && Complete(cmd, DEFAULT_LOCALE) && b.size(cmd) <= MAX_BYTES
  }

  predicate Valid(b: Boundary, cmd: Command) {
    GoodEnvelope(cmd) && if cmd.clear then NoPresentation(cmd) else GoodBanner(b, cmd)
  }

  method ValidateEnvelope(cmd: Command) returns (ok: bool)
    ensures ok <==> GoodEnvelope(cmd)
  {
    if !CategoryFormat(cmd.category) || cmd.category == QUOTA {
      return false;
    }
    if (cmd.orgID == "") == (cmd.workplaceFqdn == "") {
      return false;
    }
    if cmd.orgID != "" && (|cmd.orgID| > MAX_ORG_ID || !Trimmed(cmd.orgID)) {
      return false;
    }
    if cmd.workplaceFqdn != "" && !TargetFormat(cmd.workplaceFqdn) {
      return false;
    }
    if cmd.revision <= 0 || cmd.timestamp <= 0 || cmd.timestamp > LAST_SECOND {
      return false;
    }
    ok := |cmd.eventID| <= MAX_EVENT_ID;
  }

  /** `validate`. */
  method Validate(b: Boundary, cmd: Command) returns (ok: bool)
    ensures ok <==> Valid(b, cmd)
  {
    ok := ValidateEnvelope(cmd);
    if !ok || cmd.clear {
      return ok && NoPresentation(cmd);
    }
    if !BannerIDFormat(cmd.bannerID) || cmd.severity !in SEVERITIES
       || (cmd.surface != SURFACE_BANNER && cmd.surface != SURFACE_MODAL) {
      return false;
    }
    if cmd.priority < 0 || cmd.priority > MAX_PRIORITY || !InRange(cmd.startsAt) || !InRange(cmd.endsAt) {
      return false;
    }
    if cmd.startsAt.Some? && cmd.endsAt.Some? && cmd.startsAt.value >= cmd.endsAt.value {
      return false;
    }
    if cmd.secondaryCTA.Some? && cmd.cta.None? {
      return false;
    }
    var text := ValidateLocalized(Entries(cmd.text), MAX_TEXT);
    var title := ValidateLocalized(Entries(cmd.title), MAX_TITLE);
    var cta := ValidateCTA(b, cmd.cta);
    var secondary := ValidateCTA(b, cmd.secondaryCTA);
    ok := text && title && cta && secondary && Complete(cmd, DEFAULT_LOCALE) && b.size(cmd) <= MAX_BYTES;
  }

  // ---------------------------------------------------------------- what is valid, written out

  /** `^[a-z][a-z0-9-]{0,31}$`. */
  lemma CategoryIs(s: string)
    ensures CategoryFormat(s) <==>
              && s != "" && 'a' <= s[0] <= 'z' && |s[1..]| <= 31
              && forall c :: c in s[1..] ==> 'a' <= c <= 'z' || '0' <= c <= '9' || c == '-'
  {
    assert s != "" ==> s == [s[0]] + s[1..];
    if s != "" && 'a' <= s[0] <= 'z' && forall c :: c in s[1..] ==> LowerDigit(c) || c == '-' {
      forall i | 0 <= i < |s| ensures LowerDigit(s[i]) || s[i] == '-' {
        assert i > 0 ==> s[i] in s[1..];
      }
    }
  }

  /** `^[a-z0-9.-]{1,64}$`. */
  lemma BannerIDIs(s: string)
    ensures BannerIDFormat(s) <==>
              1 <= |s| <= 64 && forall c :: c in s ==> 'a' <= c <= 'z' || '0' <= c <= '9' || c == '.' || c == '-'
  {
    if forall c :: c in s ==> LowerDigit(c) || c == '.' || c == '-' {
      forall i | 0 <= i < |s| ensures LowerDigit(s[i]) || s[i] == '.' || s[i] == '-' {
        assert s[i] in s;
      }
    }
  }

  /** `^[A-Za-z0-9]([A-Za-z0-9.-]{0,253}[A-Za-z0-9])?$`. */
  lemma TargetIs(s: string)
    ensures TargetFormat(s) <==>
              && s != "" && ('a' <= s[0] <= 'z' || 'A' <= s[0] <= 'Z' || '0' <= s[0] <= '9')
              && (|s| > 1 ==>
                    var mid, last := s[1..|s| - 1], s[|s| - 1];
                    && |mid| <= 253 && ('a' <= last <= 'z' || 'A' <= last <= 'Z' || '0' <= last <= '9')
                    && forall c :: c in mid ==>
                         'a' <= c <= 'z' || 'A' <= c <= 'Z' || '0' <= c <= '9' || c == '.' || c == '-')
  {
    if |s| > 1 && Alnum(s[0]) && Alnum(s[|s| - 1]) {
      var mid := s[1..|s| - 1];
      assert forall i :: 0 < i < |s| - 1 ==> s[i] == mid[i - 1];
      if forall c :: c in mid ==> Alnum(c) || c == '.' || c == '-' {
        forall i | 0 <= i < |s| ensures Alnum(s[i]) || s[i] == '.' || s[i] == '-' {
          assert 0 < i < |s| - 1 ==> s[i] in mid;
        }
      }
    }
  }

  /** Wording in at most 32 languages, each named in 1 to 35 bytes, with at most `max` bytes in each. */
  predicate WordsWithin(l: Localized, max: nat) {
    |l| <= 32 && forall k :: k in l ==> 1 <= |k| <= 35 && |l[k]| <= max
  }

  predicate ActionWithin(b: Boundary, c: Option<CommandCTA>) {
    c.Some? ==> |c.value.url| <= 2048 && b.https(c.value.url) && WordsWithin(c.value.captions, 128)
  }

  predicate InCalendar(t: Option<int>) {
    t.Some? ==> -62167219200 * 1_000_000_000 <= t.value < 253402300800 * 1_000_000_000
  }

  predicate EnvelopeBounds(cmd: Command) {
    && CategoryFormat(cmd.category) && cmd.category != "quota" && cmd.revision >= 1
    && 1 <= cmd.timestamp <= 253402300799 && |cmd.eventID| <= 256
    && (|| (cmd.workplaceFqdn == "" && cmd.orgID != "" && |cmd.orgID| <= 256
            && !IsSpace(cmd.orgID[0]) && !IsSpace(cmd.orgID[|cmd.orgID| - 1]))
        || (cmd.orgID == "" && TargetFormat(cmd.workplaceFqdn)))
  }

  lemma EnvelopeIff(cmd: Command)
    ensures GoodEnvelope(cmd) <==> EnvelopeBounds(cmd)
  {
  }

  predicate BannerBounds(b: Boundary, cmd: Command) {
    && BannerIDFormat(cmd.bannerID) && (cmd.severity == "info" || cmd.severity == "warning" || cmd.severity == "error")
    && (cmd.surface == "banner" || cmd.surface == "modal") && 0 <= cmd.priority <= 1000
    && CompleteIn(cmd, "en") && WordsWithin(Entries(cmd.text), 1024) && WordsWithin(Entries(cmd.title), 256)
    && (cmd.cta.None? ==> cmd.secondaryCTA.None?) && ActionWithin(b, cmd.cta) && ActionWithin(b, cmd.secondaryCTA)
    && InCalendar(cmd.startsAt) && InCalendar(cmd.endsAt)
    && (cmd.startsAt.Some? && cmd.endsAt.Some? ==> cmd.startsAt.value < cmd.endsAt.value)
    && b.size(cmd) <= 262144
  }

  lemma BannerIff(b: Boundary, cmd: Command)
    ensures GoodBanner(b, cmd) <==> BannerBounds(b, cmd)
  {
    CompleteIff(cmd, "en");
    SameBounds(b, cmd);
  }

  lemma SameBounds(b: Boundary, cmd: Command)
    ensures GoodLocalized(Entries(cmd.text), MAX_TEXT) <==> WordsWithin(Entries(cmd.text), 1024)
    ensures GoodLocalized(Entries(cmd.title), MAX_TITLE) <==> WordsWithin(Entries(cmd.title), 256)
    ensures GoodCTA(b, cmd.cta) <==> ActionWithin(b, cmd.cta)
    ensures GoodCTA(b, cmd.secondaryCTA) <==> ActionWithin(b, cmd.secondaryCTA)
    ensures InRange(cmd.startsAt) && InRange(cmd.endsAt) <==> InCalendar(cmd.startsAt) && InCalendar(cmd.endsAt)
  {
  }

  /** What is valid, with the bounds written out: a clear says nothing to present, and a banner can
      be presented in English at least. */
  lemma ValidIff(b: Boundary, cmd: Command)
    ensures Valid(b, cmd) <==>
              && EnvelopeBounds(cmd)
              && (cmd.clear ==>
                    && cmd.bannerID == "" && cmd.severity == "" && cmd.surface == ""
                    && Entries(cmd.title) == map[] && Entries(cmd.text) == map[]
                    && cmd.cta.None? && cmd.secondaryCTA.None? && !cmd.dismissible && cmd.priority == 0
                    && cmd.startsAt.None? && cmd.endsAt.None?)
              && (!cmd.clear ==> BannerBounds(b, cmd))
  {
    EnvelopeIff(cmd);
    BannerIff(b, cmd);
    assert |Entries(cmd.title)| == 0 <==> Entries(cmd.title) == map[];
    assert |Entries(cmd.text)| == 0 <==> Entries(cmd.text) == map[];
  }

  // ---------------------------------------------------------------- the documents of valid commands

  /** The whole wording of the document is that of the command in one language, and none of it
      is missing. */
  ghost predicate InOneLanguage(b: Banner, cmd: Command, lang: string) {
    && b.lang == lang && CompleteIn(cmd, lang)
    && b.text == Say(cmd.text, lang) && b.text != ""
    && b.title == Say(cmd.title, lang) && (b.title == "" <==> |Entries(cmd.title)| == 0)
    && (b.cta.Some? <==> cmd.cta.Some?)
    && (b.cta.Some? ==> b.cta.value.caption == Wording(cmd.cta.value.captions, lang) && b.cta.value.caption != "")
    && (b.secondaryCTA.Some? <==> cmd.secondaryCTA.Some?)
    && (b.secondaryCTA.Some? ==>
          b.secondaryCTA.value.caption == Wording(cmd.secondaryCTA.value.captions, lang)
          && b.secondaryCTA.value.caption != "")
  }

  /** A valid command is shown in the language of the instance when it is complete in it, and in
      English otherwise: never in a mix of both. */
  lemma OneLanguage(b: Boundary, cmd: Command, locale: string)
    requires Valid(b, cmd) && !cmd.clear
    ensures InOneLanguage(BannerOf(cmd, locale), cmd, if locale != "" && CompleteIn(cmd, locale) then locale else "en")
  {
    LocaleShown(cmd, locale);
    CompleteIff(cmd, "en");
    assert |Entries(cmd.title)| == 0 ==> Entries(cmd.title) == map[];
  }

  ghost predicate Delivered(steps: seq<Step>, cmd: Command) {
    exists i :: 0 <= i < |steps| && steps[i].Deliver? && steps[i].cmd == cmd
  }

  /** What holds of a stored document in every run of valid commands: either it is a tombstone,
      or it is in one language, that of the instance if the command is complete in it, offers no secondary action alone, and can be left. */
  ghost predicate Presentable(stored: Banner, cmd: Command, shown: string) {
    && stored.cleared == cmd.clear && stored.revision == cmd.revision
    && (cmd.clear ==> stored.endsAt == Some(EPOCH) && stored.text == "" && stored.accepted.None?)
    && (!cmd.clear ==>
          && Saved(stored.accepted) == Saved(Some(cmd))
          && InOneLanguage(stored, cmd, if shown != "" && CompleteIn(cmd, shown) then shown else "en")
          && (stored.secondaryCTA.Some? ==> stored.cta.Some?)
          && (stored.surface == SURFACE_MODAL ==> stored.cta.Some? || stored.dismissible))
  }

  lemma StoredFields(cmd: Command, locale: string, stored: Banner)
    requires Presentation(stored) == Expected(cmd, locale)
    ensures stored.cleared == cmd.clear && stored.revision == cmd.revision
    ensures cmd.clear ==> stored.endsAt == Some(EPOCH) && stored.text == "" && stored.accepted.None?
    ensures !cmd.clear ==>
              && Saved(stored.accepted) == Saved(Some(cmd)) && stored.surface == cmd.surface
              && stored.cta.Some? == cmd.cta.Some?
              && (stored.surface == SURFACE_MODAL && stored.cta.None? ==> stored.dismissible)
  {
    var e, made := Presentation(stored), EnsureEscapable(BannerOf(cmd, locale));
    assert e.cleared == stored.cleared && e.revision == stored.revision && e.endsAt == stored.endsAt;
    assert e.text == stored.text && e.accepted == Saved(stored.accepted) && e.surface == stored.surface;
    assert e.cta == stored.cta && e.dismissible == stored.dismissible;
  }

  lemma SameWording(b: Banner, made: Banner, cmd: Command, lang: string)
    requires Presentation(b) == Presentation(EnsureEscapable(made)) && InOneLanguage(made, cmd, lang)
    ensures InOneLanguage(b, cmd, lang)
  {
    var e := EnsureEscapable(made);
    assert Presentation(b).lang == b.lang && Presentation(b).text == b.text && Presentation(b).title == b.title;
    assert Presentation(b).cta == b.cta && Presentation(b).secondaryCTA == b.secondaryCTA;
    assert e.lang == made.lang && e.text == made.text && e.title == made.title;
    assert e.cta == made.cta && e.secondaryCTA == made.secondaryCTA;
  }

  lemma PresentsPresentably(b: Boundary, cmd: Command, shown: string, stored: Banner)
    requires Presentation(stored) == Expected(cmd, shown) && Valid(b, cmd)
    ensures Presentable(stored, cmd, shown)
  {
    StoredFields(cmd, shown, stored);
    if !cmd.clear {
      OneLanguage(b, cmd, shown);
      SameWording(stored, BannerOf(cmd, shown), cmd, if shown != "" && CompleteIn(cmd, shown) then shown else "en");
    }
  }

  /** Over any run of valid commands, the stored document is always presentable, as that of one
      of the commands delivered. */
  lemma AlwaysPresentable(b: Boundary, category: string, locale: string, steps: seq<Step>)
    requires OfCategory(steps, category)
    requires forall i :: 0 <= i < |steps| && steps[i].Deliver? ==> Valid(b, steps[i].cmd)
    ensures var s := Run(State(None, locale, locale), category, steps);
            s.stored.Some? ==> exists cmd :: Delivered(steps, cmd) && Presentable(s.stored.value, cmd, s.shown)
  {
    var s := Run(State(None, locale, locale), category, steps);
    Converges(category, locale, steps);
    if s.stored.Some? {
      var i :| 0 <= i < |steps| && steps[i].Deliver?
               && Presentation(s.stored.value) == Expected(steps[i].cmd, s.shown);
      PresentsPresentably(b, steps[i].cmd, s.shown, s.stored.value);
      assert Delivered(steps, steps[i].cmd);
    }
  }

  // ---------------------------------------------------------------- windows

  predicate Inverted(b: Banner) {
    b.startsAt.Some? && b.endsAt.Some? && b.endsAt.value <= b.startsAt.value
  }

  /** A valid command makes a document whose window is inverted exactly when it states an end
      that is not after its own decision time, no start, and none can be carried forward. */
  lemma InvertedIff(b: Boundary, stored: Option<Banner>, cmd: Command, locale: string, now: int)
    requires Valid(b, cmd) && !cmd.clear
    ensures var made := BannerOf(cmd, locale);
            Inverted(Prepared(stored, cmd.category, made, now)) <==>
              && cmd.startsAt.None? && cmd.endsAt.Some? && cmd.endsAt.value <= cmd.timestamp * NS
              && !(&& stored.Some? && !stored.value.cleared && stored.value.bannerID == cmd.bannerID
                   && stored.value.startsAt.Some? && stored.value.startsAt.value < cmd.endsAt.value)
  {
  }
}

/** Banner commands over whole runs: deliveries in any order and with duplicates, language
    changes and refreshes, and dismissals by the user. The per-instance lock makes each of them
    one step. The settings of the instance allow the category throughout. */
module BannerRuns {
  import opened Options
  import opened Banner

  /** The document of one category and the language of the instance; `shown` is the language of
      the instance when a command was last accepted or refreshed. */
  datatype State = State(stored: Option<Banner>, locale: string, shown: string)

  datatype Step =
    | Deliver(cmd: Command, now: int)
    | Refresh(now: int)
    | Language(locale: string)
    | Dismiss(at: int)

  predicate Accepts(stored: Option<Banner>, cmd: Command) {
    stored.None? || cmd.revision > stored.value.revision
  }

  function Next(s: State, category: string, step: Step): State {
    match step
    case Deliver(cmd, now) =>
      s.(stored := Applied(s.stored, cmd, s.locale, now), shown := if Accepts(s.stored, cmd) then s.locale else s.shown)
    case Refresh(now) => s.(stored := Refreshed(s.stored, category, s.locale, now), shown := s.locale)
    case Language(locale) => s.(locale := locale)
    case Dismiss(at) => if s.stored.None? then s else s.(stored := Some(Dismissed(s.stored.value, at)))
  }

  function Run(s: State, category: string, steps: seq<Step>): State
    decreases |steps|
  {
    if steps == [] then s else Run(Next(s, category, steps[0]), category, steps[1..])
  }

  predicate OfCategory(steps: seq<Step>, category: string) {
    forall i :: 0 <= i < |steps| && steps[i].Deliver? ==> steps[i].cmd.category == category
  }

  // ---------------------------------------------------------------- the reference

  /** The command that must win: the first one delivered with the highest revision. */
  function Winner(best: Option<Command>, steps: seq<Step>): Option<Command>
    decreases |steps|
  {
    if steps == [] then best else
    Winner(if steps[0].Deliver? then Better(best, steps[0].cmd) else best, steps[1..])
  }

  function Better(best: Option<Command>, cmd: Command): Option<Command> {
    if best.None? || cmd.revision > best.value.revision then Some(cmd) else best
  }

  /** A document as it is stored, without what depends on the moment and on the user. */
  function Presentation(b: Banner): Banner {
    b.(rev := 0, startsAt := None, dismissedAt := None, metadata := None, accepted := Saved(b.accepted))
  }

  function Expected(cmd: Command, locale: string): Banner {
    Presentation(EnsureEscapable(BannerOf(cmd, locale)))
  }

  /** A refresh starts from the command as it was read back. */
  lemma SavedTwice(cmd: Option<Command>)
    ensures Saved(Saved(cmd)) == Saved(cmd)
  {
  }

  lemma SavedPresents(cmd: Command, locale: string)
    requires !cmd.clear
    ensures Expected(Saved(Some(cmd)).value, locale) == Expected(cmd, locale)
  {
    var saved := Saved(Some(cmd)).value;
    SavedTwice(Some(cmd));
    assert forall l :: Say(saved.title, l) == Say(cmd.title, l) && Say(saved.text, l) == Say(cmd.text, l);
    assert forall l :: Complete(saved, l) == Complete(cmd, l);
  }

  /** The stored document presents the winning command. */
  predicate Presents(s: State, category: string, best: Option<Command>) {
    match best
    case None => s.stored.None?
    case Some(cmd) =>
      && cmd.category == category && s.stored.Some? && Presentation(s.stored.value) == Expected(cmd, s.shown)
      && Shows(s.stored.value, cmd, s.shown)
  }

  // ---------------------------------------------------------------- convergence

  lemma PreparedPresentation(stored: Option<Banner>, category: string, made: Banner, now: int)
    requires made.category == category
    ensures Presentation(Prepared(stored, category, made, now)) == Presentation(EnsureEscapable(made))
  {
  }

  /** The fast path changes nothing that is presented, as the source of a command is fixed. */
  lemma UnchangedPresentation(b: Banner, stored: Banner)
    requires !Changed(b, stored) && b.source == stored.source
    ensures Presentation(b) == Presentation(stored)
  {
  }

  lemma MaterializedPresents(stored: Option<Banner>, category: string, made: Banner, now: int)
    requires made.category == category
    requires stored.Some? ==> stored.value.revision != made.revision || stored.value.source == made.source
    ensures var result := Materialized(stored, category, Some(made), now);
            result.Some? && Presentation(result.value) == Presentation(EnsureEscapable(made))
  {
    var b := Prepared(stored, category, made, now);
    PreparedPresentation(stored, category, made, now);
    if stored.Some? && !Changed(b, stored.value) {
      UnchangedPresentation(b, stored.value);
    }
  }

  /** The retained command is the winning one, as it was read back. */
  lemma RetainedCommand(stored: Banner, best: Command, shown: string)
    requires Presentation(stored) == Expected(best, shown) && !stored.cleared && stored.accepted.Some?
    ensures !best.clear && Saved(stored.accepted) == Saved(Some(best)) && !stored.accepted.value.clear
    ensures stored.accepted.value.category == best.category && stored.category == best.category
    ensures stored.revision == best.revision && stored.source == BannerOf(stored.accepted.value, shown).source
  {
    assert Presentation(stored).accepted == Saved(stored.accepted);
    assert Presentation(stored).cleared == stored.cleared && Presentation(stored).category == stored.category;
    assert Presentation(stored).revision == stored.revision && Presentation(stored).source == stored.source;
  }

  lemma SavedShows(b: Banner, a: Command, c: Command, locale: string)
    requires Saved(Some(a)) == Saved(Some(c)) && Shows(b, a, locale)
    ensures Shows(b, c, locale)
  {
    SameEntries(a.title, c.title);
    SameEntries(a.text, c.text);
    CompleteIff(a, locale);
    CompleteIff(c, locale);
  }

  lemma SameEntries(a: Wordings, b: Wordings)
    requires SavedWordings(a) == SavedWordings(b)
    ensures Entries(a) == Entries(b)
    ensures forall text, lang :: SaidIn(text, a, lang) <==> SaidIn(text, b, lang)
  {
  }

  lemma SameWhenSaved(a: Command, b: Command, locale: string)
    requires Saved(Some(a)) == Saved(Some(b)) && !a.clear && !b.clear
    ensures Expected(a, locale) == Expected(b, locale)
  {
    SavedPresents(a, locale);
    SavedPresents(b, locale);
  }

  lemma RefreshPresents(s: State, category: string, now: int, best: Option<Command>)
    requires Presents(s, category, best)
    ensures Presents(Next(s, category, Refresh(now)), category, best)
  {
    if s.stored.Some? && !s.stored.value.cleared && s.stored.value.accepted.Some? {
      var cmd := s.stored.value.accepted.value;
      RetainedCommand(s.stored.value, best.value, s.shown);
      SameWhenSaved(cmd, best.value, s.locale);
      MaterializedPresents(s.stored, category, BannerOf(cmd, s.locale), now);
      MaterializedShows(s.stored, category, cmd, s.locale, now);
      SavedShows(Next(s, category, Refresh(now)).stored.value, cmd, best.value, s.locale);
    } else if s.stored.Some? {
      TombstonePresents(s, category, best);
    }
  }

  /** The presentation of a tombstone is in no language. */
  lemma TombstonePresents(s: State, category: string, best: Option<Command>)
    requires Presents(s, category, best) && s.stored.Some?
    requires s.stored.value.cleared || s.stored.value.accepted.None?
    ensures Expected(best.value, s.shown) == Expected(best.value, s.locale)
    ensures Shows(s.stored.value, best.value, s.locale)
  {
    assert Presentation(s.stored.value).accepted == Saved(s.stored.value.accepted);
  }

  lemma StepPresents(s: State, category: string, step: Step, best: Option<Command>)
    requires Presents(s, category, best)
    requires step.Deliver? ==> step.cmd.category == category
    ensures Presents(Next(s, category, step), category, if step.Deliver? then Better(best, step.cmd) else best)
  {
    match step
    case Deliver(cmd, now) =>
      if Accepts(s.stored, cmd) {
        MaterializedPresents(s.stored, category, BannerOf(cmd, s.locale), now);
        MaterializedShows(s.stored, category, cmd, s.locale, now);
      }
    case Refresh(now) => RefreshPresents(s, category, now, best);
    case Language(locale) =>
    case Dismiss(at) =>
  }

  lemma {:induction false} RunPresents(s: State, category: string, steps: seq<Step>, best: Option<Command>)
    requires Presents(s, category, best) && OfCategory(steps, category)
    ensures Presents(Run(s, category, steps), category, Winner(best, steps))
    decreases |steps|
  {
    if steps != [] {
      StepPresents(s, category, steps[0], best);
      RunPresents(Next(s, category, steps[0]), category, steps[1..],
                  if steps[0].Deliver? then Better(best, steps[0].cmd) else best);
    }
  }

  /** The winner has the highest revision of all the commands delivered, and comes before any
      other one of that revision. */
  lemma {:induction false} WinnerIsFirstMax(best: Option<Command>, steps: seq<Step>)
    ensures best.Some? ==> Winner(best, steps).Some? && Winner(best, steps).value.revision >= best.value.revision
    ensures forall i :: 0 <= i < |steps| && steps[i].Deliver? ==>
              Winner(best, steps).Some? && steps[i].cmd.revision <= Winner(best, steps).value.revision
    ensures Winner(best, steps) == best
            || exists i :: 0 <= i < |steps| && steps[i].Deliver? && Winner(best, steps) == Some(steps[i].cmd)
                 && (best.Some? ==> best.value.revision < steps[i].cmd.revision)
                 && forall j :: 0 <= j < i && steps[j].Deliver? ==> steps[j].cmd.revision < steps[i].cmd.revision
    decreases |steps|
  {
    if steps != [] {
      var best1 := if steps[0].Deliver? then Better(best, steps[0].cmd) else best;
      var rest := steps[1..];
      WinnerIsFirstMax(best1, rest);
      forall i | 0 <= i < |steps| && steps[i].Deliver?
        ensures Winner(best, steps).Some? && steps[i].cmd.revision <= Winner(best, steps).value.revision
      {
        if i > 0 {
          assert rest[i - 1] == steps[i];
        }
      }
      if Winner(best1, rest) != best1 {
        var i :| 0 <= i < |rest| && rest[i].Deliver? && Winner(best1, rest) == Some(rest[i].cmd)
              && (best1.Some? ==> best1.value.revision < rest[i].cmd.revision)
              && forall j :: 0 <= j < i && rest[j].Deliver? ==> rest[j].cmd.revision < rest[i].cmd.revision;
        assert steps[i + 1] == rest[i];
        forall j | 0 <= j < i + 1 && steps[j].Deliver? ensures steps[j].cmd.revision < steps[i + 1].cmd.revision {
          if j > 0 {
            assert steps[j] == rest[j - 1];
          }
        }
      } else if best1 != best {
        assert steps[0].Deliver? && Winner(best, steps) == Some(steps[0].cmd);
      }
    }
  }

  /** Convergence: whatever the order, the duplicates, the dismissals and the refreshes, the
      stored document is the winning command in the language of its last write. */
  lemma Converges(category: string, locale: string, steps: seq<Step>)
    requires OfCategory(steps, category)
    ensures var s := Run(State(None, locale, locale), category, steps);
            && (s.stored.Some? <==> exists i :: 0 <= i < |steps| && steps[i].Deliver?)
            && (s.stored.Some? ==>
                  exists i :: 0 <= i < |steps| && steps[i].Deliver?
                    && Presentation(s.stored.value) == Expected(steps[i].cmd, s.shown)
                    && Shows(s.stored.value, steps[i].cmd, s.shown) && s.stored.value.category == category
                    && s.stored.value.source == Source("banner.command", steps[i].cmd.timestamp * 1_000_000_000)
                    && s.stored.value.revision == steps[i].cmd.revision
                    && (forall j :: 0 <= j < |steps| && steps[j].Deliver? ==>
                          steps[j].cmd.revision <= steps[i].cmd.revision)
                    && (forall j :: 0 <= j < i && steps[j].Deliver? ==>
                          steps[j].cmd.revision < steps[i].cmd.revision))
  {
    var s := Run(State(None, locale, locale), category, steps);
    RunPresents(State(None, locale, locale), category, steps, None);
    WinnerIsFirstMax(None, steps);
    if s.stored.Some? {
      var p := Presentation(s.stored.value);
      assert s.stored.value.revision == p.revision && s.stored.value.source == p.source && s.stored.value.category == p.category;
    }
  }

  // ---------------------------------------------------------------- tombstones

  predicate IsCleared(stored: Option<Banner>, revision: int) {
    stored.Some? && stored.value.cleared && stored.value.endsAt == Some(EPOCH) && stored.value.revision == revision
  }

  lemma ClearTakes(s: State, category: string, cmd: Command, now: int)
    requires cmd.clear && Accepts(s.stored, cmd)
    ensures IsCleared(Next(s, category, Deliver(cmd, now)).stored, cmd.revision)
  {
  }

  /** A clear holds, expired, until a command of a higher revision is applied: late commands,
      refreshes, language changes and dismissals never revive it. */
  lemma {:induction false} StaysCleared(s: State, category: string, steps: seq<Step>, revision: int)
    requires IsCleared(s.stored, revision)
    requires forall i :: 0 <= i < |steps| && steps[i].Deliver? ==> steps[i].cmd.revision <= revision
    ensures IsCleared(Run(s, category, steps).stored, revision)
    decreases |steps|
  {
    if steps != [] {
      StaysCleared(Next(s, category, steps[0]), category, steps[1..], revision);
    }
  }

  // ---------------------------------------------------------------- idempotence

  /** The start of the document does not move with the time of a later evaluation: it is stated,
      carried from the stored document, the time of a decision, or it is now, which the next
      evaluation will carry because the end is after it. */
  predicate SettledStart(stored: Option<Banner>, made: Banner, now: int) {
    || made.startsAt.Some? || made.source.at != ZERO_TIME
    || (stored.Some? && CarriesStart(made, stored.value))
    || (!made.cleared && (made.endsAt.None? || now < made.endsAt.value))
  }

  /** What was read from CouchDB. */
  predicate ReadBack(stored: Option<Banner>) {
    stored.Some? ==> stored.value.accepted == Saved(stored.value.accepted)
  }

  /** Materializing the same banner twice: the second run writes nothing exactly when no time has
      passed or the start is settled, and the command is retained as it would be read back. */
  lemma IdempotentIff(stored: Option<Banner>, category: string, made: Banner, now: int, later: int)
    requires ReadBack(stored)
    ensures var once := Materialized(stored, category, Some(made), now);
            Materialized(once, category, Some(made), later) == once
            <==> made.accepted == Saved(made.accepted) && (SettledStart(stored, made, now) || later == now)
  {
    var once := Materialized(stored, category, Some(made), now);
    OnceIsPrepared(stored, category, made, now);
    StartOnce(stored, category, made, now);
    PreparedTwice(once.value, category, made, later);
    StartTwice(stored, category, made, now, later);
  }

  /** What a materialized document has in common with the document that was to be written. */
  predicate Matches(b: Banner, category: string, made: Banner) {
    && b.revision == made.revision && b.eventID == made.eventID && b.cleared == made.cleared
    && b.bannerID == made.bannerID && b.category == category
    && b.severity == made.severity && b.surface == made.surface && b.title == made.title
    && b.text == made.text && b.lang == made.lang && b.priority == made.priority
    && b.dismissible == Closable(made) && b.endsAt == made.endsAt
    && b.cta == made.cta && b.secondaryCTA == made.secondaryCTA && b.startsAt.Some?
    && (made.startsAt.Some? ==> b.startsAt == made.startsAt)
    && (!b.dismissible ==> b.dismissedAt.None?)
    && (made.cleared && b.dismissible ==> b.dismissedAt == made.dismissedAt)
    && b.metadata.Some? && b.metadata.value.createdByApp == STACK_AUTHOR
    && b.metadata.value.docTypeVersion == DOCTYPE_VERSION && b.metadata.value.metadataVersion != 0
  }

  lemma OnceIsPrepared(stored: Option<Banner>, category: string, made: Banner, now: int)
    ensures var once := Materialized(stored, category, Some(made), now);
            && once.Some? && Matches(once.value, category, made)
            && (ReadBack(stored) ==> once.value.accepted == Saved(made.accepted))
  {
    var b := Prepared(stored, category, made, now);
    PreparedMatches(stored, category, made, now);
    if stored.Some? && !Changed(b, stored.value) {
      UnchangedMatches(b, stored.value, category, made);
    }
  }

  lemma PreparedMatches(stored: Option<Banner>, category: string, made: Banner, now: int)
    ensures Matches(Prepared(stored, category, made, now), category, made)
  {
  }

  lemma UnchangedMatches(b: Banner, stored: Banner, category: string, made: Banner)
    requires !Changed(b, stored) && Matches(b, category, made)
    ensures Matches(stored, category, made)
  {
  }

  /** What a document keeps from the stored one, and when it starts: the stored dismissal and, when
      no start is stated and the end allows it, the stored start, for the same occurrence only; the
      date of creation always. */
  lemma OccurrenceKept(stored: Banner, category: string, made: Banner, now: int)
    requires made.dismissedAt.None? && made.metadata.None?
    ensures var b := Materialized(Some(stored), category, Some(made), now);
            var same := !stored.cleared && !made.cleared && stored.bannerID == made.bannerID;
            var carried := same && stored.startsAt.Some?
                           && (made.endsAt.Some? ==> stored.startsAt.value < made.endsAt.value);
            && b.Some?
            && b.value.dismissedAt == (if same && (made.dismissible || (made.surface == "modal" && made.cta.None?))
                                       then stored.dismissedAt else None)
            && (made.startsAt.Some? ==> b.value.startsAt == made.startsAt)
            && (made.startsAt.None? && carried ==> b.value.startsAt == stored.startsAt)
            && (made.startsAt.None? && !carried && made.source.at != ZERO_TIME ==> b.value.startsAt == Some(made.source.at))
            && (made.startsAt.None? && !carried && made.source.at == ZERO_TIME ==> b.value.startsAt == Some(now))
            && b.value.metadata.Some?
            && (stored.metadata.Some? && stored.metadata.value.createdAt != ZERO_TIME ==>
                  b.value.metadata.value.createdAt == stored.metadata.value.createdAt)
            && (b.value == stored
                || (b.value.rev == stored.rev + 1 && b.value.metadata.value.updatedAt == now
                    && b.value.metadata.value.createdByApp == "stack" && b.value.metadata.value.docTypeVersion == "1"))
  {
  }

  /** A new document starts when the banner says, or when it was decided, or now. */
  lemma OccurrenceBegins(category: string, made: Banner, now: int)
    requires made.dismissedAt.None? && made.metadata.None?
    ensures var b := Materialized(None, category, Some(made), now);
            && b.Some? && b.value.rev == 1 && b.value.dismissedAt.None?
            && (made.startsAt.Some? ==> b.value.startsAt == made.startsAt)
            && (made.startsAt.None? && made.source.at != ZERO_TIME ==> b.value.startsAt == Some(made.source.at))
            && (made.startsAt.None? && made.source.at == ZERO_TIME ==> b.value.startsAt == Some(now))
            && b.value.metadata == Some(Metadata("1", 1, now, "stack", now))
  {
  }

  /** Over a document that matches, only the start and the retained command can change. */
  lemma PreparedTwice(b: Banner, category: string, made: Banner, later: int)
    requires Matches(b, category, made)
    ensures Changed(Prepared(Some(b), category, made, later), b)
       <==> Some(StartOf(Some(b), made, later)) != b.startsAt || made.accepted != b.accepted
  {
  }

  lemma StartOnce(stored: Option<Banner>, category: string, made: Banner, now: int)
    ensures var once := Materialized(stored, category, Some(made), now);
            once.Some? && once.value.startsAt == Some(StartOf(stored, made, now))
  {
  }

  /** When the start computed again is the same. */
  lemma StartTwice(stored: Option<Banner>, category: string, made: Banner, now: int, later: int)
    requires Materialized(stored, category, Some(made), now).Some?
    requires Matches(Materialized(stored, category, Some(made), now).value, category, made)
    requires Materialized(stored, category, Some(made), now).value.startsAt == Some(StartOf(stored, made, now))
    ensures StartOf(Materialized(stored, category, Some(made), now), made, later) == StartOf(stored, made, now)
       <==> SettledStart(stored, made, now) || later == now
  {
  }

  /** A rule that ended before it was evaluated, without a decision time: it is written again at
      each evaluation. */
  lemma NotIdempotent(rule: Banner, category: string, now: int, later: int)
    requires rule.startsAt.None? && rule.source.at == ZERO_TIME && rule.accepted.None?
    requires rule.endsAt == Some(now) && now < later
    ensures var once := Materialized(None, category, Some(rule), now);
            Materialized(once, category, Some(rule), later) != once
  {
    IdempotentIff(None, category, rule, now, later);
  }

  /** A command has a decision time: materializing it twice writes once, exactly when its title
      and text are not empty maps, which are read back as nil. */
  lemma CommandIdempotentIff(stored: Option<Banner>, cmd: Command, locale: string, now: int, later: int)
    requires ReadBack(stored) && cmd.timestamp > 0
    ensures var made := BannerOf(cmd, locale);
            var once := Materialized(stored, cmd.category, Some(made), now);
            Materialized(once, cmd.category, Some(made), later) == once
            <==> cmd.clear || (cmd.title != Wordings(map[]) && cmd.text != Wordings(map[]))
  {
    IdempotentIff(stored, cmd.category, BannerOf(cmd, locale), now, later);
    assert Wordings(Entries(cmd.title)) == Wordings(map[]) ==> Entries(cmd.title) == map[];
  }

  /** What the stack does with commands is idempotent without that condition: a second delivery is
      stopped by the revision, */
  lemma DeliveredTwice(stored: Option<Banner>, cmd: Command, locale: string, other: string, now: int, later: int)
    ensures var once := Applied(stored, cmd, locale, now);
            Applied(once, cmd, other, later) == once
  {
    if !(stored.Some? && cmd.revision <= stored.value.revision) {
      OnceIsPrepared(stored, cmd.category, BannerOf(cmd, locale), now);
    }
  }

  /** and a second refresh starts from what was read back. */
  lemma RefreshedTwice(stored: Option<Banner>, category: string, locale: string, now: int, later: int)
    requires ReadBack(stored)
    requires stored.Some? && stored.value.accepted.Some? ==> stored.value.accepted.value.timestamp > 0
    ensures var once := Refreshed(stored, category, locale, now);
            Refreshed(once, category, locale, later) == once
  {
    if stored.Some? && !stored.value.cleared && stored.value.accepted.Some? {
      var cmd := stored.value.accepted.value;
      var made := BannerOf(cmd, locale);
      OnceIsPrepared(stored, category, made, now);
      if !cmd.clear {
        IdempotentIff(stored, category, made, now, later);
      }
    }
  }

  /** A rule without a window, evaluated again on the same state at a later time. */
  lemma RuleIdempotent(stored: Option<Banner>, category: string, rule: Banner, now: int, later: int)
    requires rule.startsAt.None? && rule.endsAt.None? && !rule.cleared && rule.accepted.None? && ReadBack(stored)
    ensures var first := rule.(source := rule.source.(at := now));
            var second := rule.(source := rule.source.(at := later));
            var once := Materialized(stored, category, Some(first), now);
            Materialized(once, category, Some(second), later) == once
  {
    var first := rule.(source := rule.source.(at := now));
    var second := rule.(source := rule.source.(at := later));
    OnceIsPrepared(stored, category, first, now);
    PreparedTwice(Materialized(stored, category, Some(first), now).value, category, second, later);
  }

  // ---------------------------------------------------------------- dismissals

  /** A version of the dismissed occurrence that the user may still close. */
  predicate KeepsDismissal(id: string, made: Option<Banner>) {
    made.Some? && made.value.bannerID == id && !made.value.cleared && Closable(made.value)
  }

  /** Successive evaluations, each with its time; one that produces nothing deletes the document. */
  type Versions = seq<(Option<Banner>, int)>

  function MaterializeAll(stored: Option<Banner>, category: string, versions: Versions): Option<Banner>
    decreases |versions|
  {
    if versions == [] then stored else
    MaterializeAll(Materialized(stored, category, versions[0].0, versions[0].1), category, versions[1..])
  }

  predicate Undismissed(versions: Versions) {
    forall i :: 0 <= i < |versions| && versions[i].0.Some? ==> versions[i].0.value.dismissedAt.None?
  }

  /** A dismissal survives exactly the runs made of such versions only; a new occurrence, a clear,
      a version that cannot be dismissed, or an evaluation that produces nothing loses it for good. */
  lemma {:induction false} DismissalSurvivesIff(stored: Banner, category: string, versions: Versions, at: int)
    requires stored.dismissedAt == Some(at) && !stored.cleared && Undismissed(versions)
    ensures var last := MaterializeAll(Some(stored), category, versions);
            if forall i :: 0 <= i < |versions| ==> KeepsDismissal(stored.bannerID, versions[i].0)
            then last.Some? && last.value.dismissedAt == Some(at)
            else last.Some? ==> last.value.dismissedAt.None?
    decreases |versions|
  {
    if versions != [] {
      var next := Materialized(Some(stored), category, versions[0].0, versions[0].1);
      if versions[0].0.Some? {
        OnceIsPrepared(Some(stored), category, versions[0].0.value, versions[0].1);
        DismissalStep(stored, category, versions[0].0.value, versions[0].1);
      }
      assert forall i :: 0 < i < |versions| ==> versions[i] == versions[1..][i - 1];
      if KeepsDismissal(stored.bannerID, versions[0].0) {
        DismissalSurvivesIff(next.value, category, versions[1..], at);
      } else {
        StaysUndismissed(next, category, versions[1..]);
      }
    }
  }

  lemma DismissalStep(stored: Banner, category: string, made: Banner, now: int)
    requires !stored.cleared && made.dismissedAt.None?
    ensures var next := Materialized(Some(stored), category, Some(made), now);
            && next.Some?
            && next.value.dismissedAt == if KeepsDismissal(stored.bannerID, Some(made)) then stored.dismissedAt else None
  {
    var b := Prepared(Some(stored), category, made, now);
    assert b.dismissedAt == if KeepsDismissal(stored.bannerID, Some(made)) then stored.dismissedAt else None;
  }

  lemma {:induction false} StaysUndismissed(stored: Option<Banner>, category: string, versions: Versions)
    requires (stored.Some? ==> stored.value.dismissedAt.None?) && Undismissed(versions)
    ensures var last := MaterializeAll(stored, category, versions);
            last.Some? ==> last.value.dismissedAt.None?
    decreases |versions|
  {
    if versions != [] {
      var next := Materialized(stored, category, versions[0].0, versions[0].1);
      StaysUndismissed(next, category, versions[1..]);
    }
  }

  /** A stored modal always offers something to click or a way to close it. */
  lemma AlwaysEscapable(stored: Option<Banner>, category: string, made: Banner, now: int)
    ensures var b := Materialized(stored, category, Some(made), now);
            b.Some? && (b.value.surface == SURFACE_MODAL ==> b.value.cta.Some? || b.value.dismissible)
  {
    OnceIsPrepared(stored, category, made, now);
  }
}

/** The periodic triggers (model/job/periodic_parser.go): their argument, such as "on monday
    between 8am and 6pm", is parsed to a specification, and a time is drawn that satisfies it. */
module Periodic {
  import opened Options
  import opened Text
  import opened Numbers

  datatype Frequency = Monthly | Weekly | Daily | Hourly

  datatype Spec = Spec(frequency: Frequency, daysOfMonth: seq<int>, daysOfWeek: seq<int>,
                       afterHour: int, beforeHour: int)

  const ALL_MONTH: seq<int> := [1, 2, 3, 4, 5, 6, 7, 8, 9, 10, 11, 12, 13, 14, 15, 16, 17, 18, 19, 20,
                                21, 22, 23, 24, 25, 26, 27, 28]
  const ALL_WEEK: seq<int> := [0, 1, 2, 3, 4, 5, 6]

  function NewSpec(f: Frequency): Spec {
    Spec(f, ALL_MONTH, ALL_WEEK, 0, 24)
  }

  // ---------------------------------------------------------------- words

  function ParseDayOfMonth(day: string): Option<int> {
    match Atoi(day)
    case None => None
    case Some(d) => if d <= 0 || d > 31 then None else Some(d)
  }

  const SHORT := ["sun", "mon", "tue", "wed", "thu", "fri", "sat"]
  const LONG := ["sunday", "monday", "tuesday", "wednesday", "thursday", "friday", "saturday"]

  function ParseDayOfWeek(day: string): (d: Option<int>)
    ensures d.Some? ==> 0 <= d.value < 7 && day in [SHORT[d.value], LONG[d.value]]
  {
    if day == "sun" || day == "sunday" then Some(0)
    else if day == "mon" || day == "monday" then Some(1)
    else if day == "tue" || day == "tuesday" then Some(2)
    else if day == "wed" || day == "wednesday" then Some(3)
    else if day == "thu" || day == "thursday" then Some(4)
    else if day == "fri" || day == "friday" then Some(5)
    else if day == "sat" || day == "saturday" then Some(6)
    else None
  }

  predicate EndsWith(s: string, suffix: string) {
    |suffix| <= |s| && s[|s| - |suffix|..] == suffix
  }

  function ParseHour(hour: string): Option<int> {
    if EndsWith(hour, "am") then HourOf(hour[..|hour| - 2], 0)
    else if EndsWith(hour, "pm") then HourOf(hour[..|hour| - 2], 12)
    else None
  }

  function HourOf(h: string, half: int): Option<int> {
    match Atoi(h)
    case None => None
    case Some(n) => if n <= 0 || n > 12 then None else if n == 12 then Some(half) else Some(n + half)
  }

  // ---------------------------------------------------------------- days

  function Interval(from: int, to: int): (days: seq<int>)
    ensures |days| == if from <= to then to - from + 1 else 0
    ensures forall i :: 0 <= i < |days| ==> days[i] == from + i
  {
    if from <= to then seq(to - from + 1, i => from + i) else []
  }

  function MonthPart(part: string): Option<seq<int>> {
    if '-' !in part then
      match ParseDayOfMonth(part)
      case None => None
      case Some(d) => Some([d])
    else
      var ends := SplitN2(part, '-');
      var from, to := ParseDayOfMonth(ends[0]), ParseDayOfMonth(ends[1]);
      if from.None? || to.None? || from.value >= to.value then None
      else Some(Interval(from.value, to.value))
  }

  function Mod7(days: seq<int>): (r: seq<int>)
    ensures |r| == |days| && forall i :: 0 <= i < |r| ==> r[i] == days[i] % 7
  {
    seq(|days|, i requires 0 <= i < |days| => days[i] % 7)
  }

  /** The days from one to another, over the end of the week if need be. */
  function Cyclic(from: int, to: int): seq<int> {
    Mod7(Interval(from, if from > to then to + 7 else to))
  }

  function WeekPart(part: string): Option<seq<int>> {
    if '-' in part then
      var ends := SplitN2(part, '-');
      var from, to := ParseDayOfWeek(ends[0]), ParseDayOfWeek(ends[1]);
      if from.None? || to.None? || from.value == to.value then None
      else Some(Cyclic(from.value, to.value))
    else if part == "weekday" then Some([1, 2, 3, 4, 5])
    else if part == "weekend" then Some([0, 6])
    else
      match ParseDayOfWeek(part)
      case None => None
      case Some(d) => Some([d])
  }

  /** The days of all the parts, when each is right. */
  function Days(parse: string -> Option<seq<int>>, parts: seq<string>): Option<seq<int>> {
    if parts == [] then Some([]) else
    var before, last := Days(parse, parts[..|parts| - 1]), parse(parts[|parts| - 1]);
    if before.None? || last.None? then None else Some(before.value + last.value)
  }

  lemma {:induction false} DaysNone(parse: string -> Option<seq<int>>, parts: seq<string>, i: nat)
    requires i <= |parts| && Days(parse, parts[..i]).None?
    ensures Days(parse, parts).None?
    decreases |parts| - i
  {
    if i < |parts| {
      assert parts[..i + 1][..i] == parts[..i];
      DaysNone(parse, parts, i + 1);
    } else {
      assert parts[..i] == parts;
    }
  }

  lemma DaysOneMore(parse: string -> Option<seq<int>>, parts: seq<string>, i: nat)
    requires i < |parts|
    ensures var before, part := Days(parse, parts[..i]), parse(parts[i]);
            Days(parse, parts[..i + 1]) == if before.None? || part.None? then None else Some(before.value + part.value)
  {
    assert parts[..i + 1][..i] == parts[..i];
  }

  method Range(days: seq<int>, from: int, to: int) returns (r: seq<int>)
    requires from <= to
    ensures r == days + Interval(from, to)
  {
    r := days;
    var i := from;
    while i <= to
      invariant from <= i <= to + 1
      invariant r == days + Interval(from, i - 1)
    {
      r := r + [i];
      i := i + 1;
    }
  }

  method WeekRange(days: seq<int>, from: int, to: int) returns (r: seq<int>)
    requires from <= to
    ensures r == days + Mod7(Interval(from, to))
  {
    r := days;
    var i := from;
    while i <= to
      invariant from <= i <= to + 1
      invariant r == days + Mod7(Interval(from, i - 1))
    {
      r := r + [i % 7];
      i := i + 1;
    }
  }

  method ParseDaysOfMonth(field: string) returns (r: Option<seq<int>>)
    ensures r == Days(MonthPart, Split(field, ','))
  {
    var days, parts := [], Split(field, ',');
    for i := 0 to |parts|
      invariant Days(MonthPart, parts[..i]) == Some(days)
    {
      var part := parts[i];
      DaysOneMore(MonthPart, parts, i);
      if '-' in part {
        var ends := SplitN2(part, '-');
        var from, to := ParseDayOfMonth(ends[0]), ParseDayOfMonth(ends[1]);
        if from.None? || to.None? || from.value >= to.value {
          DaysNone(MonthPart, parts, i + 1);
          return None;
        }
        days := Range(days, from.value, to.value);
      } else {
        var d := ParseDayOfMonth(part);
        if d.None? {
          DaysNone(MonthPart, parts, i + 1);
          return None;
        }
        days := days + [d.value];
      }
    }
    assert parts[..|parts|] == parts;
    r := Some(days);
  }

  method ParseDaysOfWeek(field: string) returns (r: Option<seq<int>>)
    ensures r == Days(WeekPart, Split(field, ','))
  {
    var days, parts := [], Split(field, ',');
    for i := 0 to |parts|
      invariant Days(WeekPart, parts[..i]) == Some(days)
    {
      var part := parts[i];
      DaysOneMore(WeekPart, parts, i);
      if '-' in part {
        var ends := SplitN2(part, '-');
        var from, to := ParseDayOfWeek(ends[0]), ParseDayOfWeek(ends[1]);
        if from.None? || to.None? || from.value == to.value {
          DaysNone(WeekPart, parts, i + 1);
          return None;
        }
        days := WeekRange(days, from.value, if from.value > to.value then to.value + 7 else to.value);
      } else if part == "weekday" {
        days := days + [1, 2, 3, 4, 5];
      } else if part == "weekend" {
        days := days + [0, 6];
      } else {
        var d := ParseDayOfWeek(part);
        if d.None? {
          DaysNone(WeekPart, parts, i + 1);
          return None;
        }
        days := days + [d.value];
      }
    }
    assert parts[..|parts|] == parts;
    r := Some(days);
  }

  // ---------------------------------------------------------------- clauses

  /** What one clause does to the specification, and how many fields it takes. */
  function Clause(spec: Spec, fields: seq<string>): (r: Option<(Spec, nat)>)
    requires fields != []
    ensures r.Some? ==> 0 < r.value.1 <= |fields|
  {
    if |fields| == 1 then None
    else if fields[0] == "on" then
      if fields[1] == "the" then
        if spec.frequency != Monthly || |fields| == 2 then None else
        match Days(MonthPart, Split(fields[2], ','))
        case None => None
        case Some(days) => Some((spec.(daysOfMonth := days), 3))
      else if spec.frequency != Weekly then None
      else
        match Days(WeekPart, Split(fields[1], ','))
        case None => None
        case Some(days) => Some((spec.(daysOfWeek := days), 2))
    else if fields[0] == "before" || fields[0] == "and" then
      match ParseHour(fields[1])
      case None => None
      case Some(hour) => Some((spec.(beforeHour := if hour == 0 then 24 else hour), 2))
    else if fields[0] == "after" || fields[0] == "between" then
      match ParseHour(fields[1])
      case None => None
      case Some(hour) => Some((spec.(afterHour := hour), 2))
    else None
  }

  function ParseFrom(spec: Spec, fields: seq<string>): Option<Spec>
    decreases |fields|
  {
    if fields == [] then if spec.afterHour >= spec.beforeHour then None else Some(spec)
    else
      match Clause(spec, fields)
      case None => None
      case Some((after, n)) => ParseFrom(after, fields[n..])
  }

  /** What a text is parsed to. */
  function Parsed(frequency: Frequency, periodic: string): Option<Spec> {
    ParseFrom(NewSpec(frequency), Fields(periodic))
  }

  method ParseDays(spec: Spec, fields: seq<string>) returns (r: Option<(Spec, nat)>)
    requires |fields| > 1 && fields[0] == "on"
    ensures r == Clause(spec, fields)
  {
    if fields[1] == "the" {
      if spec.frequency != Monthly || |fields| == 2 {
        return None;
      }
      var dom := ParseDaysOfMonth(fields[2]);
      return if dom.None? then None else Some((spec.(daysOfMonth := dom.value), 3));
    }
    if spec.frequency != Weekly {
      return None;
    }
    var dow := ParseDaysOfWeek(fields[1]);
    return if dow.None? then None else Some((spec.(daysOfWeek := dow.value), 2));
  }

  method ParseHours(spec: Spec, fields: seq<string>) returns (r: Option<(Spec, nat)>)
    requires |fields| > 1 && fields[0] != "on"
    ensures r == Clause(spec, fields)
  {
    if fields[0] == "before" || fields[0] == "and" {
      var hour := ParseHour(fields[1]);
      if hour.None? {
        return None;
      }
      return Some((spec.(beforeHour := if hour.value == 0 then 24 else hour.value), 2));
    }
    if fields[0] == "after" || fields[0] == "between" {
      var hour := ParseHour(fields[1]);
      return if hour.None? then None else Some((spec.(afterHour := hour.value), 2));
    }
    return None;
  }

  /** One round of the loop of `Parse`. */
  method ParseClause(spec: Spec, fields: seq<string>) returns (r: Option<(Spec, nat)>)
    requires fields != []
    ensures r == Clause(spec, fields)
  {
    if |fields| == 1 {
      return None;
    }
    if fields[0] == "on" {
      r := ParseDays(spec, fields);
    } else {
      r := ParseHours(spec, fields);
    }
  }

  /** `Parse`. */
  method Parse(frequency: Frequency, periodic: string) returns (r: Option<Spec>)
    ensures r == Parsed(frequency, periodic)
    ensures r.Some? ==> Valid(r.value) && r.value.frequency == frequency
  {
    var fields, spec := Fields(periodic), NewSpec(frequency);
    ParseValid(spec, fields);
    while |fields| > 0
      invariant Parsed(frequency, periodic) == ParseFrom(spec, fields)
      decreases |fields|
    {
      var clause := ParseClause(spec, fields);
      if clause.None? {
        return None;
      }
      spec, fields := clause.value.0, fields[clause.value.1..];
    }
    if spec.afterHour >= spec.beforeHour {
      return None;
    }
    r := Some(spec);
  }

  // ---------------------------------------------------------------- accepted specifications

  predicate Within(days: seq<int>, low: int, high: int) {
    days != [] && forall i :: 0 <= i < |days| ==> low <= days[i] <= high
  }

  predicate GoodDays(spec: Spec) {
    Within(spec.daysOfMonth, 1, 31) && Within(spec.daysOfWeek, 0, 6)
  }

  predicate Valid(spec: Spec) {
    GoodDays(spec) && 0 <= spec.afterHour < spec.beforeHour <= 24
  }

  lemma {:induction false} DaysWithin(parse: string -> Option<seq<int>>, parts: seq<string>, low: int, high: int)
    requires parts != [] && Days(parse, parts).Some?
    requires forall p :: parse(p).Some? ==> Within(parse(p).value, low, high)
    ensures Within(Days(parse, parts).value, low, high)
    decreases |parts|
  {
    if |parts| > 1 {
      DaysWithin(parse, parts[..|parts| - 1], low, high);
    }
  }

  /** A range of days of the week is the cyclic interval between its ends: going on from the
      first one, the days up to the last one. */
  lemma CyclicDays(from: int, to: int, d: int)
    requires 0 <= from < 7 && 0 <= to < 7 && 0 <= d < 7
    ensures d in Cyclic(from, to) <==> (d - from) % 7 <= (to - from) % 7
    ensures Within(Cyclic(from, to), 0, 6)
  {
    var end := if from > to then to + 7 else to;
    var days := Cyclic(from, to);
    Offset(from, to, end - from);
    forall i | 0 <= i < |days| ensures 0 <= days[i] < 7 && (days[i] == d <==> i == (d - from) % 7) {
      Offset(from, d, i);
    }
    if (d - from) % 7 <= (to - from) % 7 {
      assert days[(d - from) % 7] == d;
    }
  }

  lemma Offset(from: int, d: int, i: int)
    requires 0 <= from < 7 && 0 <= d < 7 && 0 <= i < 7
    ensures (from + i) % 7 == d <==> i == (d - from) % 7
  {
    assert (from + i) % 7 == if from + i < 7 then from + i else from + i - 7;
    assert (d - from) % 7 == if d < from then d - from + 7 else d - from;
  }

  lemma PartsWithin(p: string)
    ensures MonthPart(p).Some? ==> Within(MonthPart(p).value, 1, 31)
    ensures WeekPart(p).Some? ==> Within(WeekPart(p).value, 0, 6)
  {
    if WeekPart(p).Some? && '-' in p {
      var ends := SplitN2(p, '-');
      CyclicDays(ParseDayOfWeek(ends[0]).value, ParseDayOfWeek(ends[1]).value, 0);
    }
  }

  ghost predicate Sound(spec: Spec) {
    GoodDays(spec) && 0 <= spec.afterHour < 24 && 0 < spec.beforeHour <= 24
    && (spec.frequency != Monthly ==> spec.daysOfMonth == ALL_MONTH)
    && (spec.frequency != Weekly ==> spec.daysOfWeek == ALL_WEEK)
  }

  lemma HourWithin(hour: string)
    ensures ParseHour(hour).Some? ==> 0 <= ParseHour(hour).value < 24
  {
  }

  lemma ClauseSound(spec: Spec, fields: seq<string>)
    requires fields != [] && Sound(spec) && Clause(spec, fields).Some?
    ensures Sound(Clause(spec, fields).value.0) && Clause(spec, fields).value.0.frequency == spec.frequency
  {
    if fields[0] == "on" {
      forall p {
        PartsWithin(p);
      }
      if fields[1] == "the" {
        DaysWithin(MonthPart, Split(fields[2], ','), 1, 31);
      } else {
        DaysWithin(WeekPart, Split(fields[1], ','), 0, 6);
      }
    } else {
      HourWithin(fields[1]);
    }
  }

  /** An accepted specification has days, all in range, and a non-empty range of hours. */
  lemma {:induction false} ParseValid(spec: Spec, fields: seq<string>)
    requires Sound(spec)
    ensures ParseFrom(spec, fields).Some? ==>
              var r := ParseFrom(spec, fields).value; Valid(r) && Sound(r) && r.frequency == spec.frequency
    decreases |fields|
  {
    if fields != [] && Clause(spec, fields).Some? {
      ClauseSound(spec, fields);
      ParseValid(Clause(spec, fields).value.0, fields[Clause(spec, fields).value.1..]);
    }
  }

  // ---------------------------------------------------------------- every specification has a text

  function HourText(h: int): string
    requires 0 <= h < 24
  {
    Itoa(HourNumber(h)) + if h < 12 then "am" else "pm"
  }

  function HourNumber(h: int): nat
    requires 0 <= h < 24
  {
    if h == 0 || h == 12 then 12 else if h < 12 then h else h - 12
  }

  lemma HourRoundTrip(h: int)
    requires 0 <= h < 24
    ensures ParseHour(HourText(h)) == Some(h)
  {
    AtoiOfItoa(HourNumber(h));
    HalfDay(Itoa(HourNumber(h)), HourNumber(h));
  }

  lemma HalfDay(digits: string, n: int)
    requires 0 < n <= 12 && Atoi(digits) == Some(n)
    ensures ParseHour(digits + "am") == Some(if n == 12 then 0 else n)
    ensures ParseHour(digits + "pm") == Some(if n == 12 then 12 else n + 12)
  {
    HourSuffix(digits, "am");
    HourSuffix(digits, "pm");
  }

  lemma HourSuffix(digits: string, half: string)
    requires half == "am" || half == "pm"
    ensures var text := digits + half; EndsWith(text, half) && text[..|text| - 2] == digits
    ensures "am" != "pm" && forall other :: |other| == 2 && EndsWith(digits + half, other) ==> other == half
  {
    assert "am"[0] == 'a' && "pm"[0] == 'p';
  }

  lemma HourWord(h: int)
    requires 0 <= h < 24
    ensures IsWord(HourText(h))
  {
    var digits := Itoa(HourNumber(h));
    forall i | 0 <= i < |HourText(h)| ensures !IsSpace(HourText(h)[i]) {
      if i < |digits| {
        assert IsDigit(digits[i]);
      } else {
        assert HourText(h)[i] in "apm";
      }
    }
  }

  function DayTexts(text: int -> string, days: seq<int>): (r: seq<string>)
    ensures |r| == |days| && forall i :: 0 <= i < |r| ==> r[i] == text(days[i])
  {
    seq(|days|, i requires 0 <= i < |days| => text(days[i]))
  }

  function MonthText(d: int): string { if d < 0 then "" else Itoa(d) }

  function WeekText(d: int): string { if 0 <= d < 7 then SHORT[d] else "" }

  lemma MonthPartOf(d: int)
    requires 1 <= d <= 31
    ensures MonthPart(MonthText(d)) == Some([d])
    ensures MonthText(d) != "" && forall c :: c in MonthText(d) ==> IsDigit(c)
  {
    AtoiOfItoa(d);
  }

  lemma WeekPartOf(d: int)
    requires 0 <= d <= 6
    ensures WeekPart(WeekText(d)) == Some([d])
    ensures WeekText(d) != "" && forall c :: c in WeekText(d) ==> 'a' <= c <= 'z'
  {
    assert |WeekText(d)| == 3 && |"weekday"| == 7 && |"weekend"| == 7;
  }

  lemma {:induction false} DaysOfTexts(parse: string -> Option<seq<int>>, text: int -> string, days: seq<int>)
    requires forall i :: 0 <= i < |days| ==> parse(text(days[i])) == Some([days[i]])
    ensures Days(parse, DayTexts(text, days)) == Some(days)
    decreases |days|
  {
    if days != [] {
      var n := |days| - 1;
      DaysOfTexts(parse, text, days[..n]);
      assert DayTexts(text, days)[..n] == DayTexts(text, days[..n]);
      assert days == days[..n] + [days[n]];
    }
  }

  predicate PlainWord(w: string) {
    w != "" && forall c :: c in w ==> IsDigit(c) || 'a' <= c <= 'z'
  }

  lemma {:induction false} JoinedWord(words: seq<string>)
    requires words != [] && forall i :: 0 <= i < |words| ==> PlainWord(words[i])
    ensures Join(words, ",") != "" && forall c :: c in Join(words, ",") ==> c == ',' || IsDigit(c) || 'a' <= c <= 'z'
    decreases |words|
  {
    assert PlainWord(words[0]);
    if |words| > 1 {
      JoinedWord(words[1..]);
    }
  }

  /** A list of days written with commas is one word, and is read back. */
  lemma ListRoundTrip(parse: string -> Option<seq<int>>, text: int -> string, days: seq<int>)
    requires days != []
    requires forall i :: 0 <= i < |days| ==> parse(text(days[i])) == Some([days[i]]) && PlainWord(text(days[i]))
    ensures IsWord(Join(DayTexts(text, days), ","))
    ensures Days(parse, Split(Join(DayTexts(text, days), ","), ',')) == Some(days)
  {
    var words := DayTexts(text, days);
    forall i | 0 <= i < |words| ensures PlainWord(words[i]) && ',' !in words[i] {
      assert words[i] == text(days[i]);
      NoComma(words[i]);
    }
    ListWord(words);
    SplitOfJoin(words, ',');
    DaysOfTexts(parse, text, days);
  }

  lemma NoComma(w: string)
    requires PlainWord(w)
    ensures ',' !in w
  {
  }

  lemma ListWord(words: seq<string>)
    requires words != [] && forall i :: 0 <= i < |words| ==> PlainWord(words[i])
    ensures IsWord(Join(words, ","))
  {
    JoinedWord(words);
    var field := Join(words, ",");
    forall i | 0 <= i < |field| ensures !IsSpace(field[i]) {
      NoSpace(field[i]);
    }
  }

  lemma NoSpace(c: char)
    requires c == ',' || IsDigit(c) || 'a' <= c <= 'z'
    ensures !IsSpace(c)
  {
  }

  function DaysField(spec: Spec): string {
    if spec.frequency == Monthly then Join(DayTexts(MonthText, spec.daysOfMonth), ",")
    else Join(DayTexts(WeekText, spec.daysOfWeek), ",")
  }

  function HourWords(spec: Spec): seq<string>
    requires Valid(spec)
  {
    ["between", HourText(spec.afterHour), "and", HourText(spec.beforeHour % 24)]
  }

  /** The specification as words. */
  function Words(spec: Spec): seq<string>
    requires Valid(spec)
  {
    match spec.frequency
    case Monthly => ["on", "the", DaysField(spec)] + HourWords(spec)
    case Weekly => ["on", DaysField(spec)] + HourWords(spec)
    case Daily => HourWords(spec)
    case Hourly => HourWords(spec)
  }

  lemma AfterClause(spec: Spec, h: int, words: seq<string>)
    requires |words| >= 2 && words[0] == "between" && ParseHour(words[1]) == Some(h)
    ensures Clause(spec, words) == Some((spec.(afterHour := h), 2))
  {
    assert |"between"| == 7 && |"before"| == 6 && |"and"| == 3 && |"on"| == 2;
  }

  lemma BeforeClause(spec: Spec, h: int, words: seq<string>)
    requires |words| >= 2 && words[0] == "and" && ParseHour(words[1]) == Some(h)
    ensures Clause(spec, words) == Some((spec.(beforeHour := if h == 0 then 24 else h), 2))
  {
    assert |"and"| == 3 && |"on"| == 2;
  }

  lemma LastClause(spec: Spec, before: Spec, words: seq<string>)
    requires Valid(spec) && before.(beforeHour := spec.beforeHour) == spec
    requires |words| == 2 && words[0] == "and" && ParseHour(words[1]) == Some(spec.beforeHour % 24)
    ensures ParseFrom(before, words) == Some(spec)
  {
    BeforeClause(before, spec.beforeHour % 24, words);
    OneClause(before, words, spec, 2);
    assert words[2..] == [];
  }

  lemma TwoClauses(spec: Spec, before: Spec, words: seq<string>)
    requires Valid(spec) && before.(afterHour := spec.afterHour, beforeHour := spec.beforeHour) == spec
    requires |words| == 4 && words[0] == "between" && words[2] == "and"
    requires ParseHour(words[1]) == Some(spec.afterHour) && ParseHour(words[3]) == Some(spec.beforeHour % 24)
    ensures ParseFrom(before, words) == Some(spec)
  {
    var middle := before.(afterHour := spec.afterHour);
    AfterClause(before, spec.afterHour, words);
    OneClause(before, words, middle, 2);
    LastClause(spec, middle, words[2..]);
  }

  lemma OneClause(spec: Spec, words: seq<string>, after: Spec, n: nat)
    requires words != [] && n <= |words| && Clause(spec, words) == Some((after, n))
    ensures ParseFrom(spec, words) == ParseFrom(after, words[n..])
  {
  }

  lemma HourClauses(spec: Spec, before: Spec)
    requires Valid(spec) && before.(afterHour := spec.afterHour, beforeHour := spec.beforeHour) == spec
    ensures ParseFrom(before, HourWords(spec)) == Some(spec)
  {
    HourRoundTrip(spec.afterHour);
    HourRoundTrip(spec.beforeHour % 24);
    TwoClauses(spec, before, HourWords(spec));
  }

  /** What the parser can return: a list of days is the default one unless the frequency is of
      its kind. */
  predicate Expressible(spec: Spec) {
    && Valid(spec)
    && (spec.frequency != Monthly ==> spec.daysOfMonth == ALL_MONTH)
    && (spec.frequency != Weekly ==> spec.daysOfWeek == ALL_WEEK)
  }

  lemma MonthList(days: seq<int>)
    requires Within(days, 1, 31)
    ensures var field := Join(DayTexts(MonthText, days), ",");
            IsWord(field) && Days(MonthPart, Split(field, ',')) == Some(days)
  {
    forall i | 0 <= i < |days| ensures MonthPart(MonthText(days[i])) == Some([days[i]]) && PlainWord(MonthText(days[i])) {
      MonthPartOf(days[i]);
    }
    ListRoundTrip(MonthPart, MonthText, days);
  }

  lemma WeekList(days: seq<int>)
    requires Within(days, 0, 6)
    ensures var field := Join(DayTexts(WeekText, days), ",");
            IsWord(field) && field != "the" && Days(WeekPart, Split(field, ',')) == Some(days)
  {
    forall i | 0 <= i < |days| ensures WeekPart(WeekText(days[i])) == Some([days[i]]) && PlainWord(WeekText(days[i])) {
      WeekPartOf(days[i]);
    }
    ListRoundTrip(WeekPart, WeekText, days);
    TheIsNoDay();
  }

  lemma TheIsNoDay()
    ensures Days(WeekPart, Split("the", ',')) == None
  {
    assert ',' !in "the" && '-' !in "the";
    assert Split("the", ',') == ["the"];
    assert "the"[0] == 't' && "the"[1] == 'h' && "the"[2] == 'e';
    assert WeekPart("the") == None;
    assert ["the"][..0] == [];
  }

  /** The words of a specification are parsed back to it. */
  lemma WordsRoundTrip(spec: Spec)
    requires Expressible(spec)
    ensures ParseFrom(NewSpec(spec.frequency), Words(spec)) == Some(spec)
  {
    var words, start := Words(spec), NewSpec(spec.frequency);
    match spec.frequency
    case Monthly =>
      MonthList(spec.daysOfMonth);
      var before := start.(daysOfMonth := spec.daysOfMonth);
      assert Clause(start, words) == Some((before, 3));
      assert words[3..] == HourWords(spec);
      HourClauses(spec, before);
    case Weekly =>
      WeekList(spec.daysOfWeek);
      var before := start.(daysOfWeek := spec.daysOfWeek);
      assert Clause(start, words) == Some((before, 2));
      assert words[2..] == HourWords(spec);
      HourClauses(spec, before);
    case Daily => HourClauses(spec, start);
    case Hourly => HourClauses(spec, start);
  }

  lemma Keywords()
    ensures IsWord("on") && IsWord("the") && IsWord("between") && IsWord("and")
  {
  }

  lemma DaysFieldWord(spec: Spec)
    requires Valid(spec)
    ensures spec.frequency == Monthly || spec.frequency == Weekly ==> IsWord(DaysField(spec))
  {
    if spec.frequency == Monthly {
      MonthList(spec.daysOfMonth);
    } else {
      WeekList(spec.daysOfWeek);
    }
  }

  lemma WordsAreWords(spec: Spec, i: int)
    requires Valid(spec) && 0 <= i < |Words(spec)|
    ensures IsWord(Words(spec)[i])
  {
    Keywords();
    HourWord(spec.afterHour);
    HourWord(spec.beforeHour % 24);
    DaysFieldWord(spec);
    var w := Words(spec)[i];
    assert w in HourWords(spec) || w == "on" || w == "the" || w == DaysField(spec);
  }

  lemma ParsedExpressible(f: Frequency, text: string)
    ensures Parsed(f, text).Some? ==> Expressible(Parsed(f, text).value)
  {
    ParseValid(NewSpec(f), Fields(text));
  }

  function Written(spec: Spec): string
    requires Valid(spec)
  {
    Join(Words(spec), " ")
  }

  lemma WrittenRoundTrip(spec: Spec)
    requires Expressible(spec)
    ensures Parsed(spec.frequency, Written(spec)) == Some(spec)
  {
    forall i | 0 <= i < |Words(spec)| ensures IsWord(Words(spec)[i]) {
      WordsAreWords(spec, i);
    }
    FieldsOfJoin(Words(spec));
    WordsRoundTrip(spec);
  }

  /** The specifications that some text is parsed to are exactly the valid ones whose other list
      of days is the default one. */
  lemma ParsedIff(spec: Spec)
    ensures (exists text :: Parsed(spec.frequency, text) == Some(spec)) <==> Expressible(spec)
  {
    if Expressible(spec) {
      WrittenRoundTrip(spec);
    }
    if text :| Parsed(spec.frequency, text) == Some(spec) {
      ParsedExpressible(spec.frequency, text);
    }
  }

  // ---------------------------------------------------------------- drawing a time

  /** A line of a crontab; None is a star. */
  datatype Crontab = Crontab(second: int, minute: int, hour: Option<int>, dom: Option<int>, dow: Option<int>)

  /** The n-th number drawn, below a bound, from a generator with a given seed. */
  type Generator = (nat, nat) -> nat

  ghost predicate Draws(rnd: Generator) {
    forall i, n :: n > 0 ==> rnd(i, n) < n
  }

  predicate Satisfies(spec: Spec, c: Crontab) {
    && 0 <= c.second < 60 && 0 <= c.minute < 60
    && (c.hour.None? <==> spec.frequency == Hourly)
    && (c.hour.Some? ==> spec.afterHour <= c.hour.value < spec.beforeHour)
    && (c.dom.Some? <==> spec.frequency == Monthly)
    && (c.dom.Some? ==> c.dom.value in spec.daysOfMonth)
    && (c.dow.Some? <==> spec.frequency == Weekly)
    && (c.dow.Some? ==> c.dow.value in spec.daysOfWeek)
  }

  /** `ToRandomCrontab`, up to the text. */
  function RandomCrontab(spec: Spec, rnd: Generator): (c: Crontab)
    requires Valid(spec) && Draws(rnd)
    ensures Satisfies(spec, c)
  {
    var second, minute := rnd(0, 60), rnd(1, 60);
    var hour := spec.afterHour + rnd(2, spec.beforeHour - spec.afterHour);
    match spec.frequency
    case Monthly => Crontab(second, minute, Some(hour), Some(spec.daysOfMonth[rnd(3, |spec.daysOfMonth|)]), None)
    case Weekly => Crontab(second, minute, Some(hour), None, Some(spec.daysOfWeek[rnd(3, |spec.daysOfWeek|)]))
    case Hourly => Crontab(second, minute, None, None, None)
    case Daily => Crontab(second, minute, Some(hour), None, None)
  }

  /** Every time that satisfies the specification can be drawn. */
  lemma EveryTimeDrawn(spec: Spec, c: Crontab) returns (rnd: Generator)
    requires Valid(spec) && Satisfies(spec, c)
    ensures Draws(rnd) && RandomCrontab(spec, rnd) == c
  {
    var hour := if c.hour.Some? then c.hour.value - spec.afterHour else 0;
    var day := 0;
    if c.dom.Some? {
      day :| 0 <= day < |spec.daysOfMonth| && spec.daysOfMonth[day] == c.dom.value;
    } else if c.dow.Some? {
      day :| 0 <= day < |spec.daysOfWeek| && spec.daysOfWeek[day] == c.dow.value;
    }
    rnd := (i: nat, n: nat) =>
      var x: nat := if i == 0 then c.second else if i == 1 then c.minute else if i == 2 then hour else day;
      if x < n then x else 0;
  }

  function Star(n: Option<int>): string {
    if n.None? || n.value < 0 then "*" else Itoa(n.value)
  }

  /** The words of the line: second, minute, hour, day of the month, month and day of the week. */
  function CrontabWords(c: Crontab): seq<string> {
    [Star(Some(c.second)), Star(Some(c.minute)), Star(c.hour), Star(c.dom), "*", Star(c.dow)]
  }

  /** The text that `ToRandomCrontab` returns. */
  function CrontabText(c: Crontab): string {
    Join(CrontabWords(c), " ")
  }

  lemma NotANumber(s: string)
    requires s != "" && s[0] != '+' && s[0] != '-' && !IsDigit(s[0])
    ensures Atoi(s) == None
  {
    assert Unsigned(s) == s && !AllDigits(s);
  }

  lemma StarReads(n: Option<int>)
    requires Small(n)
    ensures Atoi(Star(n)) == n
  {
    if n.Some? {
      AtoiOfItoa(n.value);
    } else {
      NotANumber("*");
    }
  }

  lemma StarIsWord(n: Option<int>)
    ensures IsWord(Star(n))
  {
    if n.Some? && n.value >= 0 {
      forall i | 0 <= i < |Itoa(n.value)| ensures !IsSpace(Itoa(n.value)[i]) {
        assert IsDigit(Itoa(n.value)[i]);
      }
    }
  }

  lemma WordOfCrontab(c: Crontab, i: int)
    requires 0 <= i < 6
    ensures IsWord(CrontabWords(c)[i])
  {
    StarIsWord(if i == 0 then Some(c.second) else if i == 1 then Some(c.minute) else if i == 2 then c.hour
               else if i == 3 then c.dom else if i == 4 then None else c.dow);
  }

  predicate Small(n: Option<int>) {
    n.Some? ==> 0 <= n.value <= MAX_INT64
  }

  predicate AllSmall(c: Crontab) {
    Small(Some(c.second)) && Small(Some(c.minute)) && Small(c.hour) && Small(c.dom) && Small(c.dow)
  }

  lemma CrontabFields(c: Crontab)
    ensures Fields(CrontabText(c)) == CrontabWords(c)
  {
    forall i | 0 <= i < |CrontabWords(c)| ensures IsWord(CrontabWords(c)[i]) {
      WordOfCrontab(c, i);
    }
    FieldsOfJoin(CrontabWords(c));
  }

  /** What the cron library reads in six words. */
  function ReadCrontab(words: seq<string>): Option<Crontab>
    requires |words| == 6
  {
    if Atoi(words[0]).None? || Atoi(words[1]).None? || words[4] != "*" then None
    else Some(Crontab(Atoi(words[0]).value, Atoi(words[1]).value, Atoi(words[2]), Atoi(words[3]), Atoi(words[5])))
  }

  lemma CrontabRead(c: Crontab)
    requires AllSmall(c)
    ensures ReadCrontab(CrontabWords(c)) == Some(c)
  {
    StarReads(Some(c.second));
    StarReads(Some(c.minute));
    StarReads(c.hour);
    StarReads(c.dom);
    StarReads(c.dow);
  }

  /** The text is read back word by word: what is drawn is what the cron library gets. */
  lemma CrontabReads(spec: Spec, rnd: Generator)
    requires Valid(spec) && Draws(rnd)
    ensures var c := RandomCrontab(spec, rnd);
            |Fields(CrontabText(c))| == 6 && ReadCrontab(Fields(CrontabText(c))) == Some(c)
  {
    var c := RandomCrontab(spec, rnd);
    DrawnSmall(spec, c);
    CrontabFields(c);
    CrontabRead(c);
  }

  lemma DrawnSmall(spec: Spec, c: Crontab)
    requires Valid(spec) && Satisfies(spec, c)
    ensures AllSmall(c)
  {
  }
}

/** What the words of a periodic trigger mean (model/job/periodic_parser.go:50-250): the names of
    the days, the ranges, the hours, and the keywords that introduce them. */
module PeriodicWords {
  import opened Options
  import opened Text
  import opened Numbers
  import opened Periodic

  // ---------------------------------------------------------------- days

  /** The days from Sunday to Saturday, by their three first letters or by their whole name. */
  lemma DayNames(d: int)
    requires 0 <= d < 7
    ensures ParseDayOfWeek(["sun", "mon", "tue", "wed", "thu", "fri", "sat"][d]) == Some(d)
    ensures ParseDayOfWeek(["sunday", "monday", "tuesday", "wednesday", "thursday", "friday", "saturday"][d]) == Some(d)
  {
    ShortName(d);
    LongName(d);
  }

  lemma ShortName(d: int)
    requires 0 <= d < 7
    ensures ParseDayOfWeek(SHORT[d]) == Some(d)
  {
    assert "sun"[1] == 'u' && "sat"[1] == 'a' && "tue"[1] == 'u' && "thu"[1] == 'h';
    assert forall i :: 0 <= i < 7 ==> |SHORT[i]| == 3;
  }

  lemma LongName(d: int)
    requires 0 <= d < 7
    ensures ParseDayOfWeek(LONG[d]) == Some(d)
  {
    assert "sunday"[1] == 'u' && "saturday"[1] == 'a' && "tuesday"[1] == 'u' && "thursday"[1] == 'h';
  }

  /** The working days and the week-end. */
  lemma WeekWords()
    ensures WeekPart("weekday") == Some([1, 2, 3, 4, 5])
    ensures WeekPart("weekend") == Some([0, 6])
  {
    assert "weekday"[5] == 'a' && "weekend"[5] == 'n';
  }

  /** A range of days of the week goes from one to another; one day is not a range. */
  lemma WeekRangeText(from: string, to: string)
    requires ParseDayOfWeek(from).Some? && ParseDayOfWeek(to).Some?
    ensures var a, b := ParseDayOfWeek(from).value, ParseDayOfWeek(to).value;
            WeekPart(from + "-" + to) == if a == b then None else Some(Cyclic(a, b))
  {
    NoDash(from);
    SplitOfGlued(from, '-', to);
    assert from + "-" + to == from + ['-'] + to;
  }

  /** It goes over the end of the week if need be. */
  lemma InCyclic(a: int, b: int)
    requires 0 <= a < 7 && 0 <= b < 7
    ensures forall d :: d in Cyclic(a, b) <==> 0 <= d < 7 && (d - a) % 7 <= (b - a) % 7
  {
    forall d ensures d in Cyclic(a, b) <==> 0 <= d < 7 && (d - a) % 7 <= (b - a) % 7 {
      if 0 <= d < 7 {
        CyclicDays(a, b, d);
      }
    }
  }

  lemma NoDash(day: string)
    requires ParseDayOfWeek(day).Some?
    ensures '-' !in day
  {
    var d := ParseDayOfWeek(day).value;
    assert day == SHORT[d] || day == LONG[d];
  }

  lemma MonthRangeText(a: nat, b: nat)
    requires 1 <= a <= 31 && 1 <= b <= 31
    ensures MonthPart(Itoa(a) + "-" + Itoa(b)) == if a >= b then None else Some(Interval(a, b))
  {
    AtoiOfItoa(a);
    AtoiOfItoa(b);
    assert forall c :: c in Itoa(a) ==> IsDigit(c);
    SplitOfGlued(Itoa(a), '-', Itoa(b));
    assert Itoa(a) + "-" + Itoa(b) == Itoa(a) + ['-'] + Itoa(b);
  }

  /** A range of days of the month, which must go forward. */
  lemma MonthRangeIs(a: nat, b: nat)
    requires 1 <= a <= 31 && 1 <= b <= 31
    ensures MonthPart(Itoa(a) + "-" + Itoa(b)).Some? <==> a < b
    ensures a < b ==> forall d :: d in MonthPart(Itoa(a) + "-" + Itoa(b)).value <==> a <= d <= b
  {
    MonthRangeText(a, b);
    forall d | a <= d <= b ensures d in Interval(a, b) {
      assert Interval(a, b)[d - a] == d;
    }
  }

  // ---------------------------------------------------------------- hours

  /** Twelve hours of the morning and twelve of the afternoon, twelve o'clock coming first. */
  lemma HourIs(digits: string, n: int)
    requires Atoi(digits) == Some(n)
    ensures ParseHour(digits + "am") == if 1 <= n <= 11 then Some(n) else if n == 12 then Some(0) else None
    ensures ParseHour(digits + "pm") == if 1 <= n <= 11 then Some(n + 12) else if n == 12 then Some(12) else None
  {
    HourSuffix(digits, "am");
    HourSuffix(digits, "pm");
  }

  /** Nothing else is an hour. */
  lemma NoOtherHour(hour: string)
    requires ParseHour(hour).Some?
    ensures exists digits :: Atoi(digits).Some? && (hour == digits + "am" || hour == digits + "pm")
  {
    var digits := hour[..|hour| - 2];
    assert Atoi(digits).Some? && (hour == digits + "am" || hour == digits + "pm");
  }

  // ---------------------------------------------------------------- keywords

  /** "before" and "and" set the end of the range of hours, midnight being that of the day. */
  lemma BeforeMeans(spec: Spec, word: string, hour: string, rest: seq<string>)
    requires word == "before" || word == "and"
    ensures Clause(spec, [word, hour] + rest)
         == match ParseHour(hour) case None => None case Some(h) => Some((spec.(beforeHour := if h == 0 then 24 else h), 2))
  {
    assert word[0] != 'o';
  }

  /** "after" and "between" set its beginning. */
  lemma AfterMeans(spec: Spec, word: string, hour: string, rest: seq<string>)
    requires word == "after" || word == "between"
    ensures Clause(spec, [word, hour] + rest)
         == match ParseHour(hour) case None => None case Some(h) => Some((spec.(afterHour := h), 2))
  {
    assert |"before"| == 6 && |"and"| == 3 && |"on"| == 2 && |word| != 6 && |word| != 3 && |word| != 2;
  }

  /** "on the" sets the days of a monthly trigger, and "on" those of a weekly one. */
  lemma OnMeans(spec: Spec, days: string, rest: seq<string>)
    ensures Clause(spec, ["on", "the", days] + rest)
         == if spec.frequency != Monthly || Days(MonthPart, Split(days, ',')).None? then None
            else Some((spec.(daysOfMonth := Days(MonthPart, Split(days, ',')).value), 3))
    ensures days != "the" ==>
              Clause(spec, ["on", days] + rest)
              == if spec.frequency != Weekly || Days(WeekPart, Split(days, ',')).None? then None
                 else Some((spec.(daysOfWeek := Days(WeekPart, Split(days, ',')).value), 2))
  {
  }

  /** A keyword alone is refused, and so is any other word. */
  lemma OtherwiseRefused(spec: Spec, fields: seq<string>)
    requires fields != []
    ensures Clause(spec, fields).Some? ==> |fields| >= 2
    ensures fields[0] !in ["on", "before", "and", "after", "between"] ==> Clause(spec, fields).None?
  {
    var words := ["on", "before", "and", "after", "between"];
    assert words[0] in words && words[1] in words && words[2] in words && words[3] in words && words[4] in words;
  }

  /** Without any word: the days that every month has, all the days of the week, at any hour. */
  lemma NothingSaid(f: Frequency)
    ensures Parsed(f, "").Some?
    ensures var spec := Parsed(f, "").value;
            && spec.frequency == f && spec.afterHour == 0 && spec.beforeHour == 24
            && (forall d :: d in spec.daysOfMonth <==> 1 <= d <= 28)
            && (forall d :: d in spec.daysOfWeek <==> 0 <= d <= 6)
  {
    assert Fields("") == [];
    assert forall i :: 0 <= i < 28 ==> ALL_MONTH[i] == i + 1;
    forall d | 1 <= d <= 28 ensures d in ALL_MONTH {
      assert ALL_MONTH[d - 1] == d;
    }
  }
}

/**
 * The board's week identity (`getWeekId` and `getWeekRange`, written out twice in the
 * repository, once in the week-rollover handler and once in the seed handler): the week runs
 * Monday to Sunday in UTC, its id is the ISO date of its Monday and its label names its Monday
 * and Sunday.
 */
module WeekIdentity {
  import opened Calendar

  /**
   * A week label. The text is rendered by `toLocaleDateString` ("Feb 3 - Feb 9"); the model
   * keeps the two UTC days the text is rendered from. `Unlabelled` is the empty label of a
   * board that was never rolled over or seeded.
   */
  datatype WeekLabel = Unlabelled | Span(monday: int, sunday: int)

  /** `getWeekId`: the ISO date of the Monday of the UTC week holding `now`. */
  function WeekId(now: Timestamp): string {
    IsoDate(CivilFromDays(MondayOf(DayOf(now))))
  }

  /** `getWeekRange`: the Monday of the UTC week holding `now`, and that Monday plus six days. */
  function WeekRange(now: Timestamp): (w: WeekLabel)
    ensures w.Span? && w.sunday == w.monday + 6
    ensures Weekday(w.monday) == 1 && Weekday(w.sunday) == 0
    ensures w.monday <= DayOf(now) <= w.sunday
  {
    var monday := MondayOf(DayOf(now));
    WeekdayAdd(monday, 6);
    Span(monday, monday + 6)
  }

  /**
   * The week id of an instant whose week's Monday a JavaScript `Date` can still hold reads back
   * as a date that is a Monday, at most six days before the instant's day, and is the same Monday
   * as the label's. (`getWeekId` keeps the time of day while stepping back, and since the range
   * limit is a whole number of days, the stepped-back instant is in range exactly when the
   * Monday's midnight is.)
   */
  lemma WeekIdNamesMonday(now: Timestamp)
    requires -MAX_TIME <= MondayOf(DayOf(now)) * MS_PER_DAY && now <= MAX_TIME
    ensures ParseIsoDate(WeekId(now)).Some?
    ensures var dt := ParseIsoDate(WeekId(now)).value;
      && ValidDate(dt)
      && DaysFromCivil(dt) == WeekRange(now).monday
      && Weekday(DaysFromCivil(dt)) == 1
      && DaysFromCivil(dt) <= DayOf(now) <= DaysFromCivil(dt) + 6
  {
    var monday := MondayOf(DayOf(now));
    YearOfValidDay(monday);
    IsoDateRoundTrip(CivilFromDays(monday));
  }

  /**
   * The first instant a `Date` can hold falls on a Tuesday, so in its first partial week the
   * Monday that `getWeekId` steps back to lies before the range and `toISOString` throws.
   */
  lemma FirstWeekOutOfRange()
    ensures Weekday(DayOf(-MAX_TIME)) == 2
    ensures forall now :: -MAX_TIME <= now < -MAX_TIME + 6 * MS_PER_DAY ==>
      MondayOf(DayOf(now)) * MS_PER_DAY < -MAX_TIME
  {
    assert DayOf(-MAX_TIME) == -100000000;
    forall now | -MAX_TIME <= now < -MAX_TIME + 6 * MS_PER_DAY
      ensures MondayOf(DayOf(now)) * MS_PER_DAY < -MAX_TIME
    {
      var day := DayOf(now);
      assert -100000000 <= day < -100000000 + 6;
      MondayUnique(-100000001, day);
    }
  }

  /** Two instants whose days lie in the same Monday-to-Sunday week get the same id and label. */
  lemma SameWeekSameId(t1: Timestamp, t2: Timestamp)
    requires WeekRange(t1).monday <= DayOf(t2) <= WeekRange(t1).sunday
    ensures WeekId(t2) == WeekId(t1) && WeekRange(t2) == WeekRange(t1)
  {
    SameWeek(DayOf(t1), DayOf(t2));
  }
}

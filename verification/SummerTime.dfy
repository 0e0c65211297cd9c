/**
 Czech civil time from UTC. Days are counted as date.toordinal does: day 1 is
 1 January of year 1, a Monday. An instant is a number of seconds from day 0.
 */
module SummerTime {
  const HOUR := 3600
  const DAY := 86400

  predicate IsLeap(y: int) {
    y % 4 == 0 && (y % 100 != 0 || y % 400 == 0)
  }

  function YearLength(y: int): int {
    if IsLeap(y) then 366 else 365
  }

  /** The ordinal of the last day before year y. */
  function DaysBefore(y: int): int {
    365 * (y - 1) + (y - 1) / 4 - (y - 1) / 100 + (y - 1) / 400
  }

  /** Days of the year before the given month, 1 to 12. */
  function DaysBeforeMonth(y: int, month: int): int
    requires 1 <= month <= 12
  {
    [0, 31, 59, 90, 120, 151, 181, 212, 243, 273, 304, 334][month - 1] + if month > 2 && IsLeap(y) then 1 else 0
  }

  function Ordinal(y: int, month: int, day: int): int
    requires 1 <= month <= 12
  {
    DaysBefore(y) + DaysBeforeMonth(y, month) + day
  }

  /** 0 for Monday to 6 for Sunday. */
  function Weekday(ordinal: int): int {
    (ordinal + 6) % 7
  }

  /** The year of a day: found by stepping through the years from a given one. */
  function YearFrom(ordinal: int, y: int): (r: int)
    requires DaysBefore(y) < ordinal
    ensures y <= r && DaysBefore(r) < ordinal <= DaysBefore(r + 1)
    decreases ordinal - DaysBefore(y)
  {
    NextYear(y);
    if ordinal <= DaysBefore(y + 1) then y else YearFrom(ordinal, y + 1)
  }

  function YearOf(ordinal: int): (r: int)
    requires ordinal >= 1
    ensures r >= 1 && DaysBefore(r) < ordinal <= DaysBefore(r + 1)
  {
    YearFrom(ordinal, 1)
  }

  /** _last_sunday: back from the last day of the month, by its weekday. */
  function LastSunday(y: int, month: int): int
    requires 1 <= month < 12
  {
    var day := Ordinal(y, month + 1, 1) - 1;
    day - (Weekday(day) + 1) % 7
  }

  function SummerStart(y: int): int {
    LastSunday(y, 3) * DAY + HOUR
  }

  function SummerEnd(y: int): int {
    LastSunday(y, 10) * DAY + HOUR
  }

  /** Hours between civil time and UTC at an instant. */
  function Offset(utc: int): int
    requires utc >= DAY
  {
    var y := YearOf(utc / DAY);
    if SummerStart(y) <= utc < SummerEnd(y) then 2 else 1
  }

  /** czech_local_datetime_from_utc, as seconds of the civil calendar. */
  function Local(utc: int): int
    requires utc >= DAY
  {
    utc + Offset(utc) * HOUR
  }

  // ---- The calendar ----

  /** Consecutive years join without gap or overlap. */
  lemma NextYear(y: int)
    ensures DaysBefore(y + 1) == DaysBefore(y) + YearLength(y)
  {
    FourStep(y);
    HundredStep(y);
    FourHundredStep(y);
    Multiples(y);
  }

  lemma FourStep(y: int)
    ensures y / 4 == (y - 1) / 4 + if y % 4 == 0 then 1 else 0
  {
  }

  lemma HundredStep(y: int)
    ensures y / 100 == (y - 1) / 100 + if y % 100 == 0 then 1 else 0
  {
  }

  lemma FourHundredStep(y: int)
    ensures y / 400 == (y - 1) / 400 + if y % 400 == 0 then 1 else 0
  {
  }

  lemma Multiples(y: int)
    ensures y % 400 == 0 ==> y % 100 == 0
    ensures y % 100 == 0 ==> y % 4 == 0
  {
    if y % 400 == 0 { HundredTimes(y, 4 * (y / 400)); }
    if y % 100 == 0 { FourTimes(y, 25 * (y / 100)); }
  }

  lemma HundredTimes(y: int, k: int)
    requires y == 100 * k
    ensures y % 100 == 0
  {
  }

  lemma FourTimes(y: int, k: int)
    requires y == 4 * k
    ensures y % 4 == 0
  {
  }

  lemma {:induction false} DaysGrow(y: int, z: int)
    requires y <= z
    ensures DaysBefore(y) <= DaysBefore(z)
    decreases z - y
  {
    if y < z {
      NextYear(y);
      DaysGrow(y + 1, z);
    }
  }

  lemma YearIsUnique(ordinal: int, y: int)
    requires ordinal >= 1 && DaysBefore(y) < ordinal <= DaysBefore(y + 1)
    ensures YearOf(ordinal) == y
  {
    var r := YearOf(ordinal);
    if r < y { DaysGrow(r + 1, y); }
    if r > y { DaysGrow(y + 1, r); }
  }

  // ---- Articles 2 and 3 of Directive 2000/84/EC ----

  /** The day is a Sunday of the month and the month has no later one. */
  predicate IsLastSundayOf(ordinal: int, y: int, month: int)
    requires 1 <= month < 12
  {
    && Weekday(ordinal) == 6
    && Ordinal(y, month, 1) <= ordinal < Ordinal(y, month + 1, 1)
    && forall d :: ordinal < d < Ordinal(y, month + 1, 1) ==> Weekday(d) != 6
  }

  lemma BackToSunday(day: int)
    ensures var s := day - (Weekday(day) + 1) % 7;
            Weekday(s) == 6 && day - 7 < s <= day && forall d :: s < d <= day ==> Weekday(d) != 6
  {
  }

  /** _last_sunday is the last Sunday of March and of October, one of the days 25 to 31. */
  lemma LastSundayIsLast(y: int, month: int)
    requires month == 3 || month == 10
    ensures IsLastSundayOf(LastSunday(y, month), y, month)
    ensures Ordinal(y, month, 25) <= LastSunday(y, month) <= Ordinal(y, month, 31)
  {
    var day := Ordinal(y, month + 1, 1) - 1;
    BackToSunday(day);
    assert day == Ordinal(y, month, 31);
  }

  /** Both changes fall well inside their year. */
  lemma ChangesInsideYear(y: int)
    ensures DaysBefore(y) + 80 < LastSunday(y, 3) < LastSunday(y, 10) - 200
    ensures LastSunday(y, 10) < DaysBefore(y + 1) - 50
  {
    LastSundayIsLast(y, 3);
    LastSundayIsLast(y, 10);
    NextYear(y);
  }

  /** The offset of an instant, told from any year whose days contain or adjoin it. */
  lemma OffsetNear(utc: int, y: int)
    requires utc >= DAY && y >= 1
    requires (DaysBefore(y) + 1) * DAY - 2 * HOUR <= utc < (DaysBefore(y + 1) + 1) * DAY
    ensures Offset(utc) == if SummerStart(y) <= utc < SummerEnd(y) then 2 else 1
  {
    ChangesInsideYear(y);
    if utc < (DaysBefore(y) + 1) * DAY {
      var day := utc / DAY;
      assert day == DaysBefore(y);
      NextYear(y - 1);
      ChangesInsideYear(y - 1);
      YearIsUnique(day, y - 1);
    } else {
      YearIsUnique(utc / DAY, y);
    }
  }

  /** How a civil time relates to the changes of its year. */
  datatype Kind = Once | Skipped | Twice

  function KindBetween(local: int, march: int, october: int): Kind {
    if march * DAY + 2 * HOUR <= local < march * DAY + 3 * HOUR then Skipped
    else if october * DAY + 2 * HOUR <= local < october * DAY + 3 * HOUR then Twice
    else Once
  }

  /** The instants that read as a civil time are an hour or two before it, and nowhere else. */
  lemma PreimagesAreNear(utc: int, local: int)
    requires utc >= DAY && Local(utc) == local
    ensures utc == local - HOUR || utc == local - 2 * HOUR
  {
  }

  predicate InSummer(utc: int, march: int, october: int) {
    march * DAY + HOUR <= utc < october * DAY + HOUR
  }

  lemma PreimageCases(local: int, march: int, october: int)
    requires march < october
    ensures var early, late := InSummer(local - 2 * HOUR, march, october), !InSummer(local - HOUR, march, october);
            match KindBetween(local, march, october)
            case Skipped => !early && !late
            case Twice => early && late
            case Once => early != late
  {
  }

  /** The instant that lies the given hours before a civil time reads as that civil time. */
  predicate Reads(local: int, hours: int)
    requires 1 <= hours <= 2 && local >= DAY + 2 * HOUR
  {
    Local(local - hours * HOUR) == local
  }

  lemma OffsetBefore(local: int, hours: int, y: int, march: int, october: int)
    requires 1 <= hours <= 2 && local >= DAY + 2 * HOUR && y == YearOf(local / DAY)
    requires march == LastSunday(y, 3) && october == LastSunday(y, 10)
    ensures Offset(local - hours * HOUR) == if InSummer(local - hours * HOUR, march, october) then 2 else 1
  {
    OffsetNear(local - hours * HOUR, y);
  }

  lemma ReadsIff(local: int, hours: int)
    requires 1 <= hours <= 2 && local >= DAY + 2 * HOUR
    ensures Reads(local, hours) <==> Offset(local - hours * HOUR) == hours
  {
  }

  lemma ReadsAs(local: int, march: int, october: int)
    requires local >= DAY + 2 * HOUR
    requires march == LastSunday(YearOf(local / DAY), 3) && october == LastSunday(YearOf(local / DAY), 10)
    ensures Reads(local, 2) <==> InSummer(local - 2 * HOUR, march, october)
    ensures Reads(local, 1) <==> !InSummer(local - HOUR, march, october)
  {
    ReadsEarly(local, march, october);
    ReadsLate(local, march, october);
  }

  lemma ReadsEarly(local: int, march: int, october: int)
    requires local >= DAY + 2 * HOUR
    requires march == LastSunday(YearOf(local / DAY), 3) && october == LastSunday(YearOf(local / DAY), 10)
    ensures Reads(local, 2) <==> InSummer(local - 2 * HOUR, march, october)
  {
    ReadsIff(local, 2);
    OffsetBefore(local, 2, YearOf(local / DAY), march, october);
  }

  lemma ReadsLate(local: int, march: int, october: int)
    requires local >= DAY + 2 * HOUR
    requires march == LastSunday(YearOf(local / DAY), 3) && october == LastSunday(YearOf(local / DAY), 10)
    ensures Reads(local, 1) <==> !InSummer(local - HOUR, march, october)
  {
    ReadsIff(local, 1);
    OffsetBefore(local, 1, YearOf(local / DAY), march, october);
  }

  /**
   Every civil time comes from exactly one instant, except that the hour from
   02:00 on the March Sunday comes from none and the hour from 02:00 on the
   October Sunday from two.
   */
  lemma CivilTimePreimages(local: int, march: int, october: int)
    requires local >= DAY + 2 * HOUR
    requires march == LastSunday(YearOf(local / DAY), 3) && october == LastSunday(YearOf(local / DAY), 10)
    ensures match KindBetween(local, march, october)
            case Skipped => !Reads(local, 2) && !Reads(local, 1)
            case Twice => Reads(local, 2) && Reads(local, 1)
            case Once => Reads(local, 2) != Reads(local, 1)
  {
    ReadsAs(local, march, october);
    MarchBeforeOctober(YearOf(local / DAY), march, october);
    PreimageCases(local, march, october);
  }

  predicate IsInstantOf(utc: int, local: int) {
    utc >= DAY && Local(utc) == local
  }

  ghost predicate IsOnlyInstant(one: int, local: int) {
    forall utc :: IsInstantOf(utc, local) <==> utc == one
  }

  /** The instants of a civil time, all of them. */
  lemma InstantsOfCivilTime(local: int, march: int, october: int)
    requires local >= DAY + 2 * HOUR
    requires march == LastSunday(YearOf(local / DAY), 3) && october == LastSunday(YearOf(local / DAY), 10)
    ensures match KindBetween(local, march, october)
            case Skipped => forall utc :: !IsInstantOf(utc, local)
            case Twice => forall utc :: IsInstantOf(utc, local) <==> utc == local - HOUR || utc == local - 2 * HOUR
            case Once => exists one :: IsOnlyInstant(one, local)
  {
    CivilTimePreimages(local, march, october);
    forall utc ensures IsInstantOf(utc, local) <==>
        (utc == local - HOUR && Reads(local, 1)) || (utc == local - 2 * HOUR && Reads(local, 2))
    {
      OnlyReads(utc, local);
    }
    if KindBetween(local, march, october) == Once {
      var one := if Reads(local, 1) then local - HOUR else local - 2 * HOUR;
      assert IsOnlyInstant(one, local);
    }
  }

  lemma OnlyReads(utc: int, local: int)
    requires local >= DAY + 2 * HOUR
    ensures IsInstantOf(utc, local) <==>
            (utc == local - HOUR && Reads(local, 1)) || (utc == local - 2 * HOUR && Reads(local, 2))
  {
    if IsInstantOf(utc, local) { PreimagesAreNear(utc, local); }
  }

  lemma MarchBeforeOctober(y: int, march: int, october: int)
    requires march == LastSunday(y, 3) && october == LastSunday(y, 10)
    ensures march < october
  {
    ChangesInsideYear(y);
  }
}

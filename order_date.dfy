/*
 * The `order_date` value mutation dbv_151 (bin/dbsv-update.php:1042-1048,
 * 1054-1063) computes for every log from its `date` and its `date_created`:
 * a log whose date carries a time, or lies after its creation, is ordered at
 * its date; a date-only log is ordered at its creation time when it was
 * created that same day, and otherwise at 23:59:58 of its day.
 *
 * A DATETIME 'YYYY-MM-DD hh:mm:ss' is modelled as a day number and the
 * second of that day: LEFT(x, 10) is the day, RIGHT(x, 8) = '00:00:00' is
 * second 0, and CONCAT(LEFT(x, 11), '23:59:58') is second 86398 of x's day.
 */
module OrderDate {

  datatype DateTime = DateTime(day: int, second: int)

  const SecondsPerDay := 86400
  const Midnight := 0
  const LateEvening := 23 * 3600 + 59 * 60 + 58

  predicate Valid(t: DateTime) {
    0 <= t.second < SecondsPerDay
  }

  /** a < b in time (and in DATETIME string comparison). */
  predicate Before(a: DateTime, b: DateTime) {
    a.day < b.day || (a.day == b.day && a.second < b.second)
  }

  predicate NotAfter(a: DateTime, b: DateTime) {
    !Before(b, a)
  }

  /** The ordering date of a log with the given `date` and `date_created`. */
  function OrderDate(date: DateTime, created: DateTime): (r: DateTime)
    ensures r.day == date.day
    ensures NotAfter(date, r)
    ensures Valid(date) && Valid(created) ==> Valid(r)
  {
    if date.second != Midnight || Before(created, date) then date
    else if created.day == date.day then created
    else DateTime(date.day, LateEvening)
  }

  /** A log whose date has a time of day, or lies after its creation, keeps
      its date; a date-only log created later never sorts after its creation. */
  lemma OrderDateCases(date: DateTime, created: DateTime)
    ensures date.second != Midnight || Before(created, date) ==> OrderDate(date, created) == date
    ensures date.second == Midnight && NotAfter(date, created) ==>
              NotAfter(OrderDate(date, created), created)
    ensures date.second == Midnight && NotAfter(date, created) && created.day != date.day ==>
              OrderDate(date, created) == DateTime(date.day, LateEvening)
  {
  }

  /** Logs of different days keep the order of their days. */
  lemma OrderDateKeepsDays(d1: DateTime, c1: DateTime, d2: DateTime, c2: DateTime)
    requires d1.day < d2.day
    ensures Before(OrderDate(d1, c1), OrderDate(d2, c2))
  {
  }
}

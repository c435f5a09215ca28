/** Classification of a visit day against today. Both sides are calendar
    days: the pages set every date to local midnight before comparing, so a
    day number is all that matters. */
module Days {

  /** A calendar day, counted in days. */
  type Day = int

  datatype Bucket = Past | Today | Future

  /** `isPast`: the visit day lies strictly before today. */
  predicate IsPast(visit: Day, today: Day) {
    visit < today
  }

  /** `isToday`: the visit day is today; never also past. */
  predicate IsToday(visit: Day, today: Day)
    ensures IsToday(visit, today) ==> !IsPast(visit, today)
  {
    visit == today
  }

  /** The three temporal buckets, agreeing with the page predicates. */
  function Classify(visit: Day, today: Day): (b: Bucket)
    ensures b == Past <==> IsPast(visit, today)
    ensures b == Today <==> IsToday(visit, today)
    ensures b == Future <==> today < visit
  {
    if visit < today then Past
    else if visit == today then Today
    else Future
  }

  /** The dashboard's "Upcoming" list takes today together with the future. */
  predicate InUpcomingList(visit: Day, today: Day)
    ensures InUpcomingList(visit, today) <==> Classify(visit, today) != Past
  {
    !IsPast(visit, today)
  }
}

/** Review eligibility on the place page (`evaluateReviewEligibility`): a
    visitor may write a review once a paid booking for this place lies in the
    past; a booking for today or later shows the "after your visit" hint. */
module PlaceReview {
  import opened Js
  import opened Days
  import opened Bookings
  import opened Ui

  /** The auth context as the page reads it: the token and the user's role. */
  datatype Session = Session(token: Option<string>, role: Option<string>)

  /** `token && user?.role === "Visitor"`. */
  predicate IsVisitor(s: Session) {
    Truthy(s.token) && s.role == Some("Visitor")
  }

  datatype ReviewFlags = ReviewFlags(canWriteReview: bool, hasUpcomingBooking: bool)

  const NoFlags := ReviewFlags(false, false)

  /** `b.placeId === pid || b.place?.placeId === pid`. */
  predicate ForPlace(b: Booking, pid: int) {
    b.placeId == pid || (b.place.Some? && b.place.value.placeId == Some(pid))
  }

  /** The visitor's bookings for this place, in their order. */
  function Mine(bs: seq<Booking>, pid: int): (r: seq<Booking>)
    ensures forall b :: b in r <==> b in bs && ForPlace(b, pid)
  {
    if bs == [] then []
    else (if ForPlace(bs[0], pid) then [bs[0]] else []) + Mine(bs[1..], pid)
  }

  /** `some(b => b.paymentConfirmed && visit < today)`. */
  function AnyPaidPast(bs: seq<Booking>, today: Day): (r: bool)
    ensures r <==> exists b :: b in bs && b.paymentConfirmed && IsPast(b.visitDay, today)
  {
    if bs == [] then false
    else
      assert forall b :: b in bs <==> b == bs[0] || b in bs[1..];
      (bs[0].paymentConfirmed && IsPast(bs[0].visitDay, today)) || AnyPaidPast(bs[1..], today)
  }

  /** `some(b => visit >= today)`: payment plays no part. */
  function AnyNotPast(bs: seq<Booking>, today: Day): (r: bool)
    ensures r <==> exists b :: b in bs && !IsPast(b.visitDay, today)
  {
    if bs == [] then false
    else
      assert forall b :: b in bs <==> b == bs[0] || b in bs[1..];
      !IsPast(bs[0].visitDay, today) || AnyNotPast(bs[1..], today)
  }

  /** One run of `evaluateReviewEligibility`. `prev` are the flags before the
      run; `fetched` is the answer of `GET /Bookings/my`. Without a visitor
      session both flags drop; a failed fetch keeps the flags as they were. */
  function Evaluate(session: Session, prev: ReviewFlags, fetched: Response<seq<Booking>>, pid: int, today: Day)
    : (f: ReviewFlags)
    ensures !IsVisitor(session) ==> f == NoFlags
    ensures IsVisitor(session) && fetched.Fail? ==> f == prev
    ensures IsVisitor(session) && fetched.Ok? ==>
      (f.canWriteReview <==>
        exists b :: b in fetched.value && ForPlace(b, pid) && b.paymentConfirmed && IsPast(b.visitDay, today))
    ensures IsVisitor(session) && fetched.Ok? ==>
      (f.hasUpcomingBooking <==>
        (!f.canWriteReview && exists b :: b in fetched.value && ForPlace(b, pid) && !IsPast(b.visitDay, today)))
  {
    if !IsVisitor(session) then NoFlags
    else match fetched
      case Fail(_) => prev
      case Ok(bookings) =>
        var mine := Mine(bookings, pid);
        var eligible := AnyPaidPast(mine, today);
        var upcoming := AnyNotPast(mine, today);
        ReviewFlags(eligible, upcoming && !eligible)
  }

  /** What the page shows under "Reviews". */
  datatype Affordance = WriteReviewButton | AfterVisitHint | NoAffordance

  /** `token && canWriteReview` shows the button; `token && hasUpcomingBooking
      && !canWriteReview` shows the hint; the two never show together. */
  function Shown(session: Session, f: ReviewFlags): (a: Affordance)
    ensures a == WriteReviewButton <==> Truthy(session.token) && f.canWriteReview
    ensures a == AfterVisitHint <==> Truthy(session.token) && f.hasUpcomingBooking && !f.canWriteReview
  {
    if Truthy(session.token) && f.canWriteReview then WriteReviewButton
    else if Truthy(session.token) && f.hasUpcomingBooking && !f.canWriteReview then AfterVisitHint
    else NoAffordance
  }

  /** After a successful fetch the page offers exactly one of: the review
      button (a paid booking in the past), the hint (otherwise, a booking
      today or later), or nothing. */
  lemma AffordanceFromBookings(session: Session, prev: ReviewFlags, bs: seq<Booking>, pid: int, today: Day)
    requires IsVisitor(session)
    ensures var a := Shown(session, Evaluate(session, prev, Ok(bs), pid, today));
      && (a == WriteReviewButton <==>
            exists b :: b in bs && ForPlace(b, pid) && b.paymentConfirmed && b.visitDay < today)
      && (a == AfterVisitHint <==>
            (forall b :: b in bs && ForPlace(b, pid) && b.paymentConfirmed ==> today <= b.visitDay)
            && exists b :: b in bs && ForPlace(b, pid) && today <= b.visitDay)
  {
  }

  /** Signed out or not a visitor: neither the button nor the hint. */
  lemma NonVisitorSeesNothing(session: Session, prev: ReviewFlags, fetched: Response<seq<Booking>>, pid: int, today: Day)
    requires !IsVisitor(session)
    ensures Shown(session, Evaluate(session, prev, fetched, pid, today)) == NoAffordance
  {
  }
}

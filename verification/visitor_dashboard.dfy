/** The visitor's "My Bookings" page: `load` splits the bookings into the
    Upcoming list (today and later) and the Past list, and each card gets its
    own "Pay Now" and "Write Review" handlers. */
module VisitorDashboard {
  import opened Js
  import opened Days
  import opened Bookings
  import opened Ui
  import BookingCard
  import PlaceReview

  /** The bookings that go to the Upcoming list, in input order. */
  function UpcomingOf(bs: seq<Booking>, today: Day): (r: seq<Booking>)
    ensures forall b :: b in r <==> b in bs && !IsPast(b.visitDay, today)
  {
    if bs == [] then []
    else (if !IsPast(bs[0].visitDay, today) then [bs[0]] else []) + UpcomingOf(bs[1..], today)
  }

  /** The bookings that go to the Past list, in input order. */
  function PastOf(bs: seq<Booking>, today: Day): (r: seq<Booking>)
    ensures forall b :: b in r <==> b in bs && IsPast(b.visitDay, today)
  {
    if bs == [] then []
    else (if IsPast(bs[0].visitDay, today) then [bs[0]] else []) + PastOf(bs[1..], today)
  }

  /** Every booking lands in exactly one list, as often as it occurs. */
  lemma {:induction false} ListsPartition(bs: seq<Booking>, today: Day)
    ensures multiset(UpcomingOf(bs, today)) + multiset(PastOf(bs, today)) == multiset(bs)
  {
    if bs != [] {
      ListsPartition(bs[1..], today);
      assert bs == [bs[0]] + bs[1..];
    }
  }

  lemma {:induction false} UpcomingSnoc(bs: seq<Booking>, b: Booking, today: Day)
    ensures UpcomingOf(bs + [b], today) == UpcomingOf(bs, today) + (if IsPast(b.visitDay, today) then [] else [b])
  {
    if bs == [] {
      assert [] + [b] == [b];
    } else {
      var head := if IsPast(bs[0].visitDay, today) then [] else [bs[0]];
      assert (bs + [b])[0] == bs[0];
      assert (bs + [b])[1..] == bs[1..] + [b];
      UpcomingSnoc(bs[1..], b, today);
      var tail := if IsPast(b.visitDay, today) then [] else [b];
      calc {
        UpcomingOf(bs + [b], today);
        head + UpcomingOf(bs[1..] + [b], today);
        head + (UpcomingOf(bs[1..], today) + tail);
        (head + UpcomingOf(bs[1..], today)) + tail;
        UpcomingOf(bs, today) + tail;
      }
    }
  }

  lemma {:induction false} PastSnoc(bs: seq<Booking>, b: Booking, today: Day)
    ensures PastOf(bs + [b], today) == PastOf(bs, today) + (if IsPast(b.visitDay, today) then [b] else [])
  {
    if bs == [] {
      assert [] + [b] == [b];
    } else {
      var head := if IsPast(bs[0].visitDay, today) then [bs[0]] else [];
      assert (bs + [b])[0] == bs[0];
      assert (bs + [b])[1..] == bs[1..] + [b];
      PastSnoc(bs[1..], b, today);
      assert PastOf(bs + [b], today) == head + PastOf(bs[1..] + [b], today);
    }
  }

  /** The `for` loop of `load`, pushing each booking onto one of two lists. */
  method Split(data: seq<Booking>, today: Day) returns (up: seq<Booking>, pa: seq<Booking>)
    ensures up == UpcomingOf(data, today)
    ensures pa == PastOf(data, today)
  {
    up, pa := [], [];
    var i := 0;
    while i < |data|
      invariant 0 <= i <= |data|
      invariant up == UpcomingOf(data[..i], today)
      invariant pa == PastOf(data[..i], today)
    {
      var b := data[i];
      UpcomingSnoc(data[..i], b, today);
      PastSnoc(data[..i], b, today);
      assert data[..i + 1] == data[..i] + [b];
      if IsPast(b.visitDay, today) {
        pa := pa + [b];
      } else {
        up := up + [b]; // includes today and the future
      }
      i := i + 1;
    }
    assert data[..|data|] == data;
  }

  /** `load`: on success both lists are replaced; a 401 logs out and goes to
      the login page; any other failure is only logged and the lists stay. */
  function Load(fetched: Response<seq<Booking>>, today: Day): (effs: seq<Effect>)
    ensures fetched.Ok? ==> effs == [ShowBookings(UpcomingOf(fetched.value, today), PastOf(fetched.value, today))]
    ensures fetched.Fail? ==> forall f :: f in effs ==> !f.ShowBookings?
    ensures Logout in effs <==> fetched.Fail? && Unauthorized(fetched.error)
    ensures fetched.Fail? && Unauthorized(fetched.error) ==> effs == [Logout, Navigate(LoginPath)]
    ensures fetched.Fail? && !Unauthorized(fetched.error) ==> effs == [LogError]
  {
    match fetched
    case Ok(data) => [ShowBookings(UpcomingOf(data, today), PastOf(data, today))]
    case Fail(e) => Guard(e, [LogError])
  }

  datatype ListKind = UpcomingList | PastList

  /** The handlers a card is given: `onPayNow` only in the Upcoming list;
      `onWriteReview` for a paid booking that is today (Upcoming list) or
      past (Past list). */
  datatype Handlers = Handlers(payNow: bool, review: bool)

  function CardHandlers(kind: ListKind, b: Booking, today: Day): (h: Handlers)
    ensures h.payNow <==> kind == UpcomingList
    ensures kind == UpcomingList ==> (h.review <==> IsToday(b.visitDay, today) && b.paymentConfirmed)
    ensures kind == PastList ==> (h.review <==> IsPast(b.visitDay, today) && b.paymentConfirmed)
  {
    match kind
    case UpcomingList => Handlers(true, IsToday(b.visitDay, today) && b.paymentConfirmed)
    case PastList => Handlers(false, IsPast(b.visitDay, today) && b.paymentConfirmed)
  }

  /** The list a booking is rendered in. */
  function ListOf(b: Booking, today: Day): ListKind {
    if IsPast(b.visitDay, today) then PastList else UpcomingList
  }

  function RenderCard(kind: ListKind, b: Booking, today: Day): BookingCard.CardView {
    var h := CardHandlers(kind, b, today);
    BookingCard.Render(b, h.payNow, h.review)
  }

  /** On the dashboard a card offers a review iff the booking is paid and its
      day is today or earlier; a paid future booking offers none. */
  lemma DashboardReviewIffPaidAndDue(b: Booking, today: Day)
    ensures RenderCard(ListOf(b, today), b, today).reviewButton <==> b.paymentConfirmed && b.visitDay <= today
  {
  }

  /** Past cards never offer "Pay Now". */
  lemma PastCardsNeverPay(b: Booking, today: Day)
    ensures !RenderCard(PastList, b, today).payNowButton
  {
  }

  /** An unpaid booking in the Upcoming list stays payable, whatever happened
      to earlier attempts. */
  lemma UnpaidUpcomingIsPayable(b: Booking, today: Day)
    requires !b.paymentConfirmed
    ensures RenderCard(UpcomingList, b, today).payNowButton
    ensures RenderCard(UpcomingList, b, today).badge == BookingCard.PaymentPending
  {
  }

  /** The two pages disagree about a paid booking for today: the dashboard
      card offers a review, while the place page refuses it and shows the
      "after your visit" hint instead. */
  lemma TodayPaidDisagreement(session: PlaceReview.Session, prev: PlaceReview.ReviewFlags, b: Booking, pid: int, today: Day)
    requires PlaceReview.IsVisitor(session)
    requires b.paymentConfirmed && b.visitDay == today && PlaceReview.ForPlace(b, pid)
    ensures ListOf(b, today) == UpcomingList
    ensures RenderCard(UpcomingList, b, today).reviewButton
    ensures PlaceReview.Shown(session, PlaceReview.Evaluate(session, prev, Ok([b]), pid, today)) == PlaceReview.AfterVisitHint
  {
    assert b in [b];
  }

  /** Whenever the place page allows a review, the dashboard built from the
      same bookings offers one too, on a card of the Past list. */
  lemma PlacePageReviewShowsOnDashboard(session: PlaceReview.Session, prev: PlaceReview.ReviewFlags, bs: seq<Booking>, pid: int, today: Day)
    requires PlaceReview.IsVisitor(session)
    requires PlaceReview.Evaluate(session, prev, Ok(bs), pid, today).canWriteReview
    ensures exists b :: b in PastOf(bs, today) && PlaceReview.ForPlace(b, pid) && RenderCard(PastList, b, today).reviewButton
  {
    var b :| b in bs && PlaceReview.ForPlace(b, pid) && b.paymentConfirmed && IsPast(b.visitDay, today);
    assert b in PastOf(bs, today);
    assert RenderCard(PastList, b, today).reviewButton;
  }

  /** The review a card hands on is for a place the booking belongs to in
      the sense the place page uses, so both pages review the same place. */
  lemma ReviewTargetsOwnPlace(b: Booking)
    ensures PlaceReview.ForPlace(b, BookingCard.ReviewPayload(b).placeId)
  {
  }
}

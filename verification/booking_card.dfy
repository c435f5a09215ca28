/** What one booking card shows: the total, the thumbnail, the payment
    badge, whether "Pay Now" and "Write Review" appear, and what the review
    button hands to its callback. */
module BookingCard {
  import opened Js
  import opened Bookings

  /** `booking.place?.price ?? 0`. */
  function UnitPrice(b: Booking): int {
    match b.place
    case Some(p) => Coalesce(p.price, 0)
    case None => 0
  }

  /** The card's total: the snapshot price, or 0 without one, times the tickets. */
  function Total(b: Booking): (t: int)
    ensures b.place.Some? && b.place.value.price.Some? ==> t == b.place.value.price.value * b.quantity
    ensures b.place.None? || b.place.value.price.None? ==> t == 0
  {
    UnitPrice(b) * b.quantity
  }

  /** A field of the snapshot, absent when the snapshot itself is. */
  function SnapshotThumb(b: Booking): Option<string> {
    if b.place.Some? then b.place.value.thumbnailUrl else None
  }

  function SnapshotImage(b: Booking): Option<string> {
    if b.place.Some? then b.place.value.imageUrl else None
  }

  /** The thumbnail: the first non-empty of the booking's own thumbnail, the
      snapshot's thumbnail and the snapshot's image, else nothing. */
  function Thumb(b: Booking): (r: string)
    ensures Truthy(b.placeThumbUrl) ==> r == b.placeThumbUrl.value
    ensures !Truthy(b.placeThumbUrl) && Truthy(SnapshotThumb(b)) ==> r == SnapshotThumb(b).value
    ensures !Truthy(b.placeThumbUrl) && !Truthy(SnapshotThumb(b)) && Truthy(SnapshotImage(b))
      ==> r == SnapshotImage(b).value
    ensures r == "" <==> !Truthy(b.placeThumbUrl) && !Truthy(SnapshotThumb(b)) && !Truthy(SnapshotImage(b))
  {
    var cs := [b.placeThumbUrl, SnapshotThumb(b), SnapshotImage(b)];
    var r := FirstTruthy(cs);
    assert cs[0] == b.placeThumbUrl && cs[1] == SnapshotThumb(b) && cs[2] == SnapshotImage(b);
    r
  }

  /** `booking.place?.name ?? "Place"`. */
  function Title(b: Booking): (name: string)
    ensures b.place.Some? && b.place.value.name.Some? ==> name == b.place.value.name.value
    ensures b.place.None? || b.place.value.name.None? ==> name == "Place"
  {
    if b.place.Some? then Coalesce(b.place.value.name, "Place") else "Place"
  }

  datatype Badge = Paid | PaymentPending

  datatype CardView = CardView(
    title: string, total: int, thumb: string, badge: Badge,
    payNowButton: bool, reviewButton: bool)

  /** The card for `b`, given whether the page passed an `onPayNow` and an
      `onWriteReview` handler. */
  function Render(b: Booking, hasPayNow: bool, hasReview: bool): (v: CardView)
    ensures v.badge == Paid <==> b.paymentConfirmed
    ensures v.payNowButton <==> !b.paymentConfirmed && hasPayNow
    ensures v.payNowButton ==> v.badge == PaymentPending
    ensures v.reviewButton <==> hasReview
    ensures v.total == Total(b) && v.thumb == Thumb(b) && v.title == Title(b)
  {
    CardView(
      Title(b), Total(b), Thumb(b),
      if b.paymentConfirmed then Paid else PaymentPending,
      !b.paymentConfirmed && hasPayNow,
      hasReview)
  }

  /** What "Write Review" passes to its callback. */
  datatype ReviewTarget = ReviewTarget(placeId: int, placeName: string)

  /** The snapshot's place id, falling back to the booking's; the snapshot's
      name, falling back to "Place". */
  function ReviewPayload(b: Booking): (t: ReviewTarget)
    ensures b.place.Some? && b.place.value.placeId.Some? ==> t.placeId == b.place.value.placeId.value
    ensures b.place.None? || b.place.value.placeId.None? ==> t.placeId == b.placeId
    ensures t.placeName == Title(b)
  {
    var pid := if b.place.Some? then Coalesce(b.place.value.placeId, b.placeId) else b.placeId;
    ReviewTarget(pid, Title(b))
  }
}

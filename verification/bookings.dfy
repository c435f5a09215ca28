/** A booking as the backend returns it from `/Bookings/my` and
    `/Bookings/place/{id}`, with its denormalised place snapshot. */
module Bookings {
  import opened Js
  import opened Days

  /** The `place` object embedded in a booking; every field may be absent. */
  datatype PlaceSnapshot = PlaceSnapshot(
    placeId: Option<int>,
    name: Option<string>,
    price: Option<int>,
    thumbnailUrl: Option<string>,
    imageUrl: Option<string>)

  datatype Booking = Booking(
    bookingId: int,
    placeId: int,
    place: Option<PlaceSnapshot>,
    visitDay: Day,
    quantity: int,
    paymentConfirmed: bool,
    placeThumbUrl: Option<string>)
}

/** What the pages send to the outside world, modelled as data: backend
    requests, toasts, navigation, logout. Also the backend's error shape and
    the uniform 401 handling the pages apply to it. */
module Ui {
  import opened Js
  import opened Days
  import opened Bookings

  /** A failed backend call: the HTTP status and the body, when present. */
  datatype ApiError = ApiError(status: Option<int>, data: Option<string>)

  /** The outcome of one backend call. */
  datatype Response<+T> = Ok(value: T) | Fail(error: ApiError)

  /** `e?.response?.status === 401`. */
  predicate Unauthorized(e: ApiError) {
    e.status == Some(401)
  }

  /** `e?.response?.data || fallback`: the server's message when it sent one. */
  function MessageOr(e: ApiError, fallback: string): (m: string)
    ensures Truthy(e.data) ==> m == e.data.value
    ensures !Truthy(e.data) ==> m == fallback
  {
    OrElse(e.data, fallback)
  }

  /** Body of `POST /Bookings`. It has no booking id: every request creates a booking. */
  datatype BookRequest = BookRequest(placeId: int, visitDay: Day, quantity: int)

  /** Body of `POST /Bookings/verifyPayment`. */
  datatype VerifyRequest = VerifyRequest(
    bookingId: int, orderId: string, paymentId: string, signature: string)

  /** The options handed to the checkout widget. */
  datatype CheckoutOptions = CheckoutOptions(
    key: string, amount: int, currency: string, orderId: string,
    bookingId: int, placeName: string)

  datatype Effect =
    | Navigate(path: string)
    | Logout
    | ToastError(message: string)
    | ToastSuccess(message: string)
    | ToastInfo(message: string)
    | LogError
    | LoadSdk
    | PostBooking(request: BookRequest)
    | OpenCheckout(options: CheckoutOptions)
    | PostVerify(verify: VerifyRequest)
    | FetchMyBookings
    | ShowBookings(upcoming: seq<Booking>, past: seq<Booking>)
    | DeleteImage(imageId: int)

  const LoginPath := "/login"

  /** The session guard: a 401 logs out and redirects to the login page,
      superseding `otherwise`, the page's own handling of any other failure. */
  function Guard(e: ApiError, otherwise: seq<Effect>): (effs: seq<Effect>)
    requires Logout !in otherwise
    ensures Logout in effs <==> Unauthorized(e)
    ensures Unauthorized(e) ==> Navigate(LoginPath) in effs && forall f :: f in effs ==> !f.ToastError?
    ensures !Unauthorized(e) ==> effs == otherwise
  {
    if Unauthorized(e) then [Logout, Navigate(LoginPath)] else otherwise
  }
}

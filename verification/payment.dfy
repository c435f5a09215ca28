/** What the two checkout flows share: the events the outside world feeds
    them (form submits, the SDK loader, backend answers, the checkout
    widget's callbacks), the ambient inputs, and the ordering predicates their
    effect traces satisfy. */
module Payment {
  import opened Js
  import opened Days
  import opened Bookings
  import opened Ui

  /** What `POST /Bookings` answers: the new booking and its payment order. */
  datatype Order = Order(bookingId: int, orderId: string, amount: int, currency: string)

  /** The place page's form at submit time, with the session token. */
  datatype BookForm = BookForm(token: Option<string>, request: BookRequest, placeName: string)

  /** The clock and `REACT_APP_RAZORPAY_KEY`. */
  datatype Env = Env(today: Day, razorpayKey: Option<string>)

  datatype Event =
    | Submit(form: BookForm)
    | PayNow(card: Booking)
    | SdkLoaded
    | SdkFailed(error: ApiError)
    | Created(order: Order)
    | CreateFailed(error: ApiError)
    | Paid(orderId: string, paymentId: string, signature: string)
    | Dismissed
    | Verified
    | VerifyFailed(error: ApiError)
    | Loaded(bookings: Response<seq<Booking>>)

  /** `(process.env.REACT_APP_RAZORPAY_KEY || "").trim()`. */
  function PublicKey(env: Env): (k: string)
    ensures k == "" <==> !Truthy(env.razorpayKey) || Trim(env.razorpayKey.value) == ""
  {
    Trim(OrElse(env.razorpayKey, ""))
  }

  const ConfirmedMessage := "Payment successful! Booking confirmed."

  /** Before position `j` the trace holds a booking creation followed by a
      checkout opened for booking `bid`. */
  ghost predicate CreatedBefore(tr: seq<Effect>, j: int, bid: int)
    requires 0 <= j <= |tr|
  {
    exists i, k :: 0 <= k < i < j && tr[k].PostBooking? && tr[i].OpenCheckout? && tr[i].options.bookingId == bid
  }

  /** Every verification request follows the creation of its booking and the
      opening of a checkout for that very booking. */
  ghost predicate VerifyAfterCreate(tr: seq<Effect>) {
    forall j :: 0 <= j < |tr| && tr[j].PostVerify? ==> CreatedBefore(tr, j, tr[j].verify.bookingId)
  }

  /** Neither a booking, a checkout nor a verification. */
  ghost predicate NothingCreated(tr: seq<Effect>) {
    forall k :: 0 <= k < |tr| ==> !tr[k].PostBooking? && !tr[k].OpenCheckout? && !tr[k].PostVerify?
  }

  lemma CreatedBeforeGrows(tr: seq<Effect>, more: seq<Effect>, j: int, bid: int)
    requires 0 <= j <= |tr|
    requires CreatedBefore(tr, j, bid)
    ensures CreatedBefore(tr + more, j, bid)
  {
    var i, k :| 0 <= k < i < j && tr[k].PostBooking? && tr[i].OpenCheckout? && tr[i].options.bookingId == bid;
    assert (tr + more)[k] == tr[k] && (tr + more)[i] == tr[i];
  }

  /** Appending effects without a verification keeps the order property. */
  lemma VerifyAfterCreateGrows(tr: seq<Effect>, more: seq<Effect>)
    requires VerifyAfterCreate(tr)
    requires forall f :: f in more ==> !f.PostVerify?
    ensures VerifyAfterCreate(tr + more)
  {
    var t := tr + more;
    forall j | 0 <= j < |t| && t[j].PostVerify?
      ensures CreatedBefore(t, j, t[j].verify.bookingId)
    {
      if j < |tr| {
        assert t[j] == tr[j];
        CreatedBeforeGrows(tr, more, j, tr[j].verify.bookingId);
      } else {
        assert false;
      }
    }
  }

  /** Appending a verification for a booking created earlier keeps it too. */
  lemma VerifyAfterCreateVerify(tr: seq<Effect>, v: VerifyRequest)
    requires VerifyAfterCreate(tr)
    requires CreatedBefore(tr, |tr|, v.bookingId)
    ensures VerifyAfterCreate(tr + [PostVerify(v)])
  {
    var t := tr + [PostVerify(v)];
    forall j | 0 <= j < |t| && t[j].PostVerify?
      ensures CreatedBefore(t, j, t[j].verify.bookingId)
    {
      if j == |tr| {
        CreatedBeforeGrows(tr, [PostVerify(v)], j, v.bookingId);
      } else {
        assert t[j] == tr[j];
        CreatedBeforeGrows(tr, [PostVerify(v)], j, tr[j].verify.bookingId);
      }
    }
  }
}

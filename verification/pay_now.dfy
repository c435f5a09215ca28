/** "Pay Now" on the visitor dashboard (`handlePayNow`) as a state machine.
    It retries payment for an unconfirmed booking by creating a NEW booking
    with the card's place, day and quantity, opening the checkout for it,
    and, once the payment verifies, reloading the lists before the success
    toast. There is no sign-in or date check here, and the checkout's payment
    handler runs outside the `try`, so a failed verification is not reported. */
module PayNow {
  import opened Js
  import opened Days
  import opened Bookings
  import opened Ui
  import opened Payment
  import VisitorDashboard

  datatype End = SentToLogin | KeyMissing | Failed | Abandoned | Confirmed

  datatype Phase =
    | Idle
    | LoadingSdk(card: Booking)
    | Creating(card: Booking, key: string)
    | CheckoutOpen(card: Booking, order: Order)
    | Verifying(card: Booking, order: Order)
    | Reloading(card: Booking)
    | Done(end: End)

  const KeyMissingMessage := "Razorpay key missing in .env"
  const InitFailedFallback := "Payment init failed"

  /** The body of the new booking: the card's place, day and quantity. */
  function Rebook(card: Booking): (q: BookRequest)
    ensures q.placeId == card.placeId && q.visitDay == card.visitDay && q.quantity == card.quantity
  {
    BookRequest(card.placeId, card.visitDay, card.quantity)
  }

  /** `booking.place?.name ?? ""`, shown in the checkout's description. */
  function PlaceName(card: Booking): string {
    if card.place.Some? then Coalesce(card.place.value.name, "") else ""
  }

  function Options(key: string, card: Booking, o: Order): CheckoutOptions {
    CheckoutOptions(key, o.amount, o.currency, o.orderId, o.bookingId, PlaceName(card))
  }

  /** The `catch` of `handlePayNow`: a 401 logs out and goes to the login
      page, anything else is an error toast with the server's message. */
  function InitFailed(e: ApiError): (Phase, seq<Effect>) {
    (Done(if Unauthorized(e) then SentToLogin else Failed),
     Guard(e, [ToastError(MessageOr(e, InitFailedFallback))]))
  }

  function WhileLoading(env: Env, card: Booking, e: Event): (Phase, seq<Effect>) {
    if e.SdkLoaded? then
      var key := PublicKey(env);
      if key == "" then (Done(KeyMissing), [ToastError(KeyMissingMessage)])
      else (Creating(card, key), [PostBooking(Rebook(card))])
    else if e.SdkFailed? then InitFailed(e.error)
    else (LoadingSdk(card), [])
  }

  function WhileCreating(card: Booking, key: string, e: Event): (Phase, seq<Effect>) {
    if e.Created? then (CheckoutOpen(card, e.order), [OpenCheckout(Options(key, card, e.order))])
    else if e.CreateFailed? then InitFailed(e.error)
    else (Creating(card, key), [])
  }

  /** No dismiss handler is installed: closing the widget does nothing. */
  function WhileOpen(card: Booking, o: Order, e: Event): (Phase, seq<Effect>) {
    if e.Paid? then
      (Verifying(card, o), [PostVerify(VerifyRequest(o.bookingId, e.orderId, e.paymentId, e.signature))])
    else if e.Dismissed? then (Done(Abandoned), [])
    else (CheckoutOpen(card, o), [])
  }

  /** A rejected verification escapes the handler unreported. */
  function WhileVerifying(card: Booking, o: Order, e: Event): (Phase, seq<Effect>) {
    if e.Verified? then (Reloading(card), [FetchMyBookings])
    else if e.VerifyFailed? then (Done(Failed), [])
    else (Verifying(card, o), [])
  }

  /** `await load()` handles its own errors, then the success toast follows
      whatever the reload did. */
  function WhileReloading(env: Env, card: Booking, e: Event): (Phase, seq<Effect>) {
    if e.Loaded? then
      (Done(Confirmed), VisitorDashboard.Load(e.bookings, env.today) + [ToastSuccess(ConfirmedMessage)])
    else (Reloading(card), [])
  }

  function Step(env: Env, s: Phase, e: Event): (r: (Phase, seq<Effect>))
    ensures s.Done? ==> r == (s, [])
  {
    match s
    case Idle => if e.PayNow? then (LoadingSdk(e.card), [LoadSdk]) else (s, [])
    case LoadingSdk(card) => WhileLoading(env, card, e)
    case Creating(card, key) => WhileCreating(card, key, e)
    case CheckoutOpen(card, o) => WhileOpen(card, o, e)
    case Verifying(card, o) => WhileVerifying(card, o, e)
    case Reloading(card) => WhileReloading(env, card, e)
    case Done(_) => (s, [])
  }

  /** Every booking request of the flow repeats the card's place, day and
      quantity, and it is only sent once the SDK loaded with a non-blank key. */
  lemma RebookCopiesCard(env: Env, s: Phase, e: Event)
    ensures var out := Step(env, s, e).1;
      forall j :: 0 <= j < |out| && out[j].PostBooking? ==>
        s.LoadingSdk? && e.SdkLoaded? && PublicKey(env) != "" &&
        out == [PostBooking(BookRequest(s.card.placeId, s.card.visitDay, s.card.quantity))]
  {
    match s {
      case Idle =>
      case LoadingSdk(card) => assert Step(env, s, e) == WhileLoading(env, card, e);
      case Creating(card, key) => assert Step(env, s, e) == WhileCreating(card, key, e);
      case CheckoutOpen(card, o) => assert Step(env, s, e) == WhileOpen(card, o, e);
      case Verifying(card, o) => assert Step(env, s, e) == WhileVerifying(card, o, e);
      case Reloading(card) => assert Step(env, s, e) == WhileReloading(env, card, e);
      case Done(_) =>
    }
  }

  /** The two failures before the checkout opens go through the session
      guard: a 401 logs out and redirects without a toast; anything else is
      one error toast with the server's message or the fallback. */
  lemma InitFailureHandling(env: Env, s: Phase, err: ApiError)
    requires s.LoadingSdk? || s.Creating?
    ensures var e := if s.LoadingSdk? then SdkFailed(err) else CreateFailed(err);
      var r := Step(env, s, e);
      && (Logout in r.1 <==> Unauthorized(err))
      && (Unauthorized(err) ==> r == (Done(SentToLogin), [Logout, Navigate(LoginPath)]))
      && (!Unauthorized(err) ==> r == (Done(Failed), [ToastError(MessageOr(err, InitFailedFallback))]))
  {
  }

  /** Closing the checkout without paying changes nothing visible. */
  lemma DismissIsSilent(env: Env, card: Booking, o: Order)
    ensures Step(env, CheckoutOpen(card, o), Dismissed) == (Done(Abandoned), [])
  {
  }

  /** A failed verify escapes the handler: the attempt ends with no toast,
      no reload and no success message, whatever happens afterwards. */
  lemma VerifyFailureIsSilent(env: Env, card: Booking, o: Order, err: ApiError, evs: seq<Event>)
    ensures Run(env, Verifying(card, o), [VerifyFailed(err)] + evs) == (Done(Failed), [])
  {
    RunCons(env, Verifying(card, o), VerifyFailed(err), evs);
    DoneAbsorbs(env, Failed, evs);
  }

  /** After a verified payment the success toast is shown even when the
      reload was refused with a 401 and the visitor has just been logged out. */
  lemma ConfirmedEvenAfterLogout(env: Env, card: Booking, err: ApiError)
    requires Unauthorized(err)
    ensures Step(env, Reloading(card), Loaded(Fail(err))).1
      == [Logout, Navigate(LoginPath), ToastSuccess(ConfirmedMessage)]
  {
  }

  function Run(env: Env, s: Phase, evs: seq<Event>): (Phase, seq<Effect>)
    decreases |evs|
  {
    if evs == [] then (s, [])
    else
      var first := Step(env, s, evs[0]);
      var rest := Run(env, first.0, evs[1..]);
      (rest.0, first.1 + rest.1)
  }

  lemma RunCons(env: Env, s: Phase, e: Event, evs: seq<Event>)
    ensures Run(env, s, [e] + evs).0 == Run(env, Step(env, s, e).0, evs).0
    ensures Run(env, s, [e] + evs).1 == Step(env, s, e).1 + Run(env, Step(env, s, e).0, evs).1
  {
    assert ([e] + evs)[0] == e;
    assert ([e] + evs)[1..] == evs;
  }

  /** A finished attempt ignores everything that comes after. */
  lemma {:induction false} DoneAbsorbs(env: Env, end: End, evs: seq<Event>)
    ensures Run(env, Done(end), evs) == (Done(end), [])
    decreases |evs|
  {
    if evs != [] {
      DoneAbsorbs(env, end, evs[1..]);
      var out: seq<Effect> := [];
      assert out + out == out;
    }
  }

  /** Every success toast comes after a reload of the bookings was requested. */
  ghost predicate ToastAfterReload(tr: seq<Effect>) {
    forall j :: 0 <= j < |tr| && tr[j] == ToastSuccess(ConfirmedMessage) ==>
      exists i :: 0 <= i < j && tr[i] == FetchMyBookings
  }

  lemma ToastAfterReloadGrows(tr: seq<Effect>, more: seq<Effect>)
    requires ToastAfterReload(tr)
    requires ToastSuccess(ConfirmedMessage) !in more
    ensures ToastAfterReload(tr + more)
  {
    var t := tr + more;
    forall j | 0 <= j < |t| && t[j] == ToastSuccess(ConfirmedMessage)
      ensures exists i :: 0 <= i < j && t[i] == FetchMyBookings
    {
      if j < |tr| {
        assert t[j] == tr[j];
        var i :| 0 <= i < j && tr[i] == FetchMyBookings;
        assert t[i] == tr[i];
      } else {
        assert false;
      }
    }
  }

  lemma ToastAfterReloadAfterFetch(tr: seq<Effect>, more: seq<Effect>, i: nat)
    requires ToastAfterReload(tr)
    requires i < |tr| && tr[i] == FetchMyBookings
    ensures ToastAfterReload(tr + more)
  {
    var t := tr + more;
    assert t[i] == FetchMyBookings;
    forall j | 0 <= j < |t| && t[j] == ToastSuccess(ConfirmedMessage)
      ensures exists i' :: 0 <= i' < j && t[i'] == FetchMyBookings
    {
      if j < |tr| {
        assert t[j] == tr[j];
        var i' :| 0 <= i' < j && tr[i'] == FetchMyBookings;
        assert t[i'] == tr[i'];
      } else {
        assert t[i] == FetchMyBookings;
      }
    }
  }

  /** What the trace so far guarantees about the current phase. */
  ghost predicate Inv(s: Phase, tr: seq<Effect>) {
    && VerifyAfterCreate(tr)
    && ToastAfterReload(tr)
    && (s.Creating? ==> exists k :: 0 <= k < |tr| && tr[k].PostBooking?)
    && ((s.CheckoutOpen? || s.Verifying?) ==> CreatedBefore(tr, |tr|, s.order.bookingId))
    && (s.Reloading? ==> exists k :: 0 <= k < |tr| && tr[k] == FetchMyBookings)
  }

  lemma StepKeepsInv(env: Env, s: Phase, e: Event, tr: seq<Effect>)
    requires Inv(s, tr)
    ensures Inv(Step(env, s, e).0, tr + Step(env, s, e).1)
  {
    var r := Step(env, s, e);
    var s1, out := r.0, r.1;
    var t := tr + out;
    if out == [] {
      assert t == tr;
      assert s1 == s || s1.Done?;
    } else if s.Reloading? {
      var k :| 0 <= k < |tr| && tr[k] == FetchMyBookings;
      ToastAfterReloadAfterFetch(tr, out, k);
      assert forall f :: f in out ==> !f.PostVerify?;
      VerifyAfterCreateGrows(tr, out);
    } else {
      ToastAfterReloadGrows(tr, out);
      if s.CheckoutOpen? && e.Paid? {
        VerifyAfterCreateVerify(tr, out[0].verify);
        CreatedBeforeGrows(tr, out, |tr|, s.order.bookingId);
      } else {
        VerifyAfterCreateGrows(tr, out);
        if s.Creating? && e.Created? {
          var k :| 0 <= k < |tr| && tr[k].PostBooking?;
          assert t[k] == tr[k] && t[|tr|] == out[0];
          assert CreatedBefore(t, |t|, e.order.bookingId);
        } else if s.LoadingSdk? && e.SdkLoaded? && s1.Creating? {
          assert t[|tr|] == out[0];
        } else if s.Verifying? && e.Verified? {
          assert t[|tr|] == FetchMyBookings;
        } else {
          assert s1.Done? || s1.Idle? || s1.LoadingSdk?;
        }
      }
    }
  }

  lemma {:induction false} RunKeepsInv(env: Env, s: Phase, evs: seq<Event>, tr: seq<Effect>)
    requires Inv(s, tr)
    ensures VerifyAfterCreate(tr + Run(env, s, evs).1)
    ensures ToastAfterReload(tr + Run(env, s, evs).1)
    decreases |evs|
  {
    if evs == [] {
      assert tr + [] == tr;
    } else {
      var first := Step(env, s, evs[0]);
      StepKeepsInv(env, s, evs[0], tr);
      RunKeepsInv(env, first.0, evs[1..], tr + first.1);
      assert tr + (first.1 + Run(env, first.0, evs[1..]).1) == (tr + first.1) + Run(env, first.0, evs[1..]).1;
    }
  }

  /** Whatever the outside world does: a verification is only sent for the
      booking just created and shown in the checkout, and the confirmation
      toast only appears after the bookings were reloaded. */
  lemma PayNowOrdering(env: Env, evs: seq<Event>)
    ensures VerifyAfterCreate(Run(env, Idle, evs).1)
    ensures ToastAfterReload(Run(env, Idle, evs).1)
  {
    RunKeepsInv(env, Idle, evs, []);
    assert [] + Run(env, Idle, evs).1 == Run(env, Idle, evs).1;
  }

  /** From an open checkout: paying, verifying and reloading the lists. */
  lemma PaidThenReloaded(env: Env, card: Booking, o: Order, orderId: string, paymentId: string, signature: string,
                         bs: seq<Booking>)
    ensures Run(env, CheckoutOpen(card, o), [Paid(orderId, paymentId, signature), Verified, Loaded(Ok(bs))])
      == (Done(Confirmed),
          [PostVerify(VerifyRequest(o.bookingId, orderId, paymentId, signature)), FetchMyBookings,
           ShowBookings(VisitorDashboard.UpcomingOf(bs, env.today), VisitorDashboard.PastOf(bs, env.today)),
           ToastSuccess(ConfirmedMessage)])
  {
    var p := Paid(orderId, paymentId, signature);
    var l := Loaded(Ok(bs));
    var show := ShowBookings(VisitorDashboard.UpcomingOf(bs, env.today), VisitorDashboard.PastOf(bs, env.today));
    DoneAbsorbs(env, Confirmed, []);
    RunCons(env, Reloading(card), l, []);
    assert [l] + [] == [l];
    assert [show] + [ToastSuccess(ConfirmedMessage)] + [] == [show, ToastSuccess(ConfirmedMessage)];
    RunCons(env, Verifying(card, o), Verified, [l]);
    assert [Verified] + [l] == [Verified, l];
    RunCons(env, CheckoutOpen(card, o), p, [Verified, l]);
    assert [p] + [Verified, l] == [p, Verified, l];
    var v := PostVerify(VerifyRequest(o.bookingId, orderId, paymentId, signature));
    assert [v] + ([FetchMyBookings] + [show, ToastSuccess(ConfirmedMessage)])
      == [v, FetchMyBookings, show, ToastSuccess(ConfirmedMessage)];
  }

  /** The events of a payment that goes through once the booking exists:
      the order comes back, the visitor pays, the server verifies and the
      lists reload. */
  function Paying(o: Order, orderId: string, paymentId: string, signature: string, bs: seq<Booking>): seq<Event> {
    [Created(o), Paid(orderId, paymentId, signature), Verified, Loaded(Ok(bs))]
  }

  /** From the booking creation on, a retry that succeeds. */
  lemma CreatedThenReloaded(env: Env, card: Booking, key: string, o: Order, orderId: string, paymentId: string,
                            signature: string, bs: seq<Booking>)
    ensures var r := Run(env, Creating(card, key), Paying(o, orderId, paymentId, signature, bs));
      && r.0 == Done(Confirmed)
      && |r.1| == 5
      && r.1[0] == OpenCheckout(Options(key, card, o))
      && r.1[1] == PostVerify(VerifyRequest(o.bookingId, orderId, paymentId, signature))
      && r.1[2] == FetchMyBookings
      && r.1[4] == ToastSuccess(ConfirmedMessage)
  {
    var rest := [Paid(orderId, paymentId, signature), Verified, Loaded(Ok(bs))];
    PaidThenReloaded(env, card, o, orderId, paymentId, signature, bs);
    RunCons(env, Creating(card, key), Created(o), rest);
    assert [Created(o)] + rest == Paying(o, orderId, paymentId, signature, bs);
  }

  /** Once the SDK is there and the key is set, the copy of the card is
      posted and the rest of the attempt runs from the creation. */
  lemma LoadedPostsCopy(env: Env, card: Booking, rest: seq<Event>)
    requires PublicKey(env) != ""
    ensures Run(env, LoadingSdk(card), [SdkLoaded] + rest).0 == Run(env, Creating(card, PublicKey(env)), rest).0
    ensures Run(env, LoadingSdk(card), [SdkLoaded] + rest).1
      == [PostBooking(Rebook(card))] + Run(env, Creating(card, PublicKey(env)), rest).1
  {
    RunCons(env, LoadingSdk(card), SdkLoaded, rest);
  }

  /** From the SDK load on, a retry that succeeds. */
  lemma LoadedThenReloaded(env: Env, card: Booking, o: Order, orderId: string, paymentId: string, signature: string,
                           bs: seq<Booking>)
    requires PublicKey(env) != ""
    ensures var r := Run(env, LoadingSdk(card), [SdkLoaded] + Paying(o, orderId, paymentId, signature, bs));
      && r.0 == Done(Confirmed)
      && |r.1| == 6
      && r.1[0] == PostBooking(Rebook(card))
      && r.1[1] == OpenCheckout(Options(PublicKey(env), card, o))
      && r.1[2] == PostVerify(VerifyRequest(o.bookingId, orderId, paymentId, signature))
      && r.1[5] == ToastSuccess(ConfirmedMessage)
  {
    LoadedPostsCopy(env, card, Paying(o, orderId, paymentId, signature, bs));
    CreatedThenReloaded(env, card, PublicKey(env), o, orderId, paymentId, signature, bs);
  }

  /** A retry that succeeds: the request repeats the card, and the payment is
      verified against the NEW booking's id, whatever the card's own id was. */
  lemma RetryPaysNewBooking(env: Env, card: Booking, o: Order, orderId: string, paymentId: string, signature: string,
                            bs: seq<Booking>)
    requires PublicKey(env) != ""
    ensures var r := Run(env, Idle, [PayNow(card), SdkLoaded] + Paying(o, orderId, paymentId, signature, bs));
      && r.0 == Done(Confirmed)
      && |r.1| == 7
      && r.1[0] == LoadSdk
      && r.1[1] == PostBooking(Rebook(card))
      && r.1[2] == OpenCheckout(Options(PublicKey(env), card, o))
      && r.1[3] == PostVerify(VerifyRequest(o.bookingId, orderId, paymentId, signature))
      && r.1[6] == ToastSuccess(ConfirmedMessage)
  {
    var rest := [SdkLoaded] + Paying(o, orderId, paymentId, signature, bs);
    LoadedThenReloaded(env, card, o, orderId, paymentId, signature, bs);
    RunCons(env, Idle, PayNow(card), rest);
    assert [PayNow(card)] + rest == [PayNow(card), SdkLoaded] + Paying(o, orderId, paymentId, signature, bs);
  }
}

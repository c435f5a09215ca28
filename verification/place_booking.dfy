/** "Book & Pay" on the place page (`handleBook`) as a state machine: the
    sign-in check, the date guard, the SDK load, the key check, the booking
    creation, the checkout widget, and then verification, dismissal or an
    error. One machine value is one attempt. */
module PlaceBooking {
  import opened Js
  import opened Days
  import opened Bookings
  import opened Ui
  import opened Payment

  datatype End = SentToLogin | DateRejected | KeyMissing | Failed | Abandoned | Confirmed

  datatype Phase =
    | Idle
    | LoadingSdk(form: BookForm)
    | Creating(form: BookForm, key: string)
    | CheckoutOpen(form: BookForm, order: Order)
    | Verifying(form: BookForm, order: Order)
    | Done(end: End)

  const PastDateMessage := "Please choose today or a future date."
  const KeyMissingMessage := "Razorpay key not found."
  const CreatedMessage := "Booking created. Opening payment…"
  const StartFailedFallback := "Could not start payment."
  const BookingFailedFallback := "Booking failed."
  const VerifyFailedFallback := "Payment verification failed."
  const ClosedMessage := "Payment window closed."
  const DashboardPath := "/dashboard/visitor"

  /** The checkout options for an order. */
  function Options(key: string, form: BookForm, o: Order): CheckoutOptions {
    CheckoutOptions(key, o.amount, o.currency, o.orderId, o.bookingId, form.placeName)
  }

  /** The submit handler: sign-in check, then the date guard, then the SDK. */
  function OnSubmit(env: Env, form: BookForm): (Phase, seq<Effect>) {
    if !Truthy(form.token) then (Done(SentToLogin), [Navigate(LoginPath)])
    else if form.request.visitDay < env.today then (Done(DateRejected), [ToastError(PastDateMessage)])
    else (LoadingSdk(form), [LoadSdk])
  }

  /** Waiting for `loadRazorpay()`. */
  function WhileLoading(env: Env, form: BookForm, e: Event): (Phase, seq<Effect>) {
    if e.SdkLoaded? then
      var key := PublicKey(env);
      if key == "" then (Done(KeyMissing), [ToastError(KeyMissingMessage)])
      else (Creating(form, key), [PostBooking(form.request)])
    else if e.SdkFailed? then (Done(Failed), [ToastError(MessageOr(e.error, StartFailedFallback))])
    else (LoadingSdk(form), [])
  }

  /** Waiting for `POST /Bookings`. */
  function WhileCreating(form: BookForm, key: string, e: Event): (Phase, seq<Effect>) {
    if e.Created? then
      (CheckoutOpen(form, e.order), [ToastSuccess(CreatedMessage), OpenCheckout(Options(key, form, e.order))])
    else if e.CreateFailed? then
      // the promise toast reports the failure, then the outer catch reports it again
      (Done(Failed), [ToastError(MessageOr(e.error, BookingFailedFallback)),
                      ToastError(MessageOr(e.error, StartFailedFallback))])
    else (Creating(form, key), [])
  }

  /** The checkout widget is open. */
  function WhileOpen(form: BookForm, o: Order, e: Event): (Phase, seq<Effect>) {
    if e.Paid? then
      (Verifying(form, o), [PostVerify(VerifyRequest(o.bookingId, e.orderId, e.paymentId, e.signature))])
    else if e.Dismissed? then (Done(Abandoned), [ToastInfo(ClosedMessage)])
    else (CheckoutOpen(form, o), [])
  }

  /** Waiting for `POST /Bookings/verifyPayment`. */
  function WhileVerifying(form: BookForm, o: Order, e: Event): (Phase, seq<Effect>) {
    if e.Verified? then (Done(Confirmed), [ToastSuccess(ConfirmedMessage), Navigate(DashboardPath)])
    else if e.VerifyFailed? then (Done(Failed), [ToastError(MessageOr(e.error, VerifyFailedFallback))])
    else (Verifying(form, o), [])
  }

  /** One reaction of the page to one event. Events that do not belong to the
      current phase are ignored. */
  function Step(env: Env, s: Phase, e: Event): (r: (Phase, seq<Effect>))
    ensures s.Done? ==> r == (s, [])
  {
    match s
    case Idle => if e.Submit? then OnSubmit(env, e.form) else (s, [])
    case LoadingSdk(form) => WhileLoading(env, form, e)
    case Creating(form, key) => WhileCreating(form, key, e)
    case CheckoutOpen(form, o) => WhileOpen(form, o, e)
    case Verifying(form, o) => WhileVerifying(form, o, e)
    case Done(_) => (s, [])
  }

  /** Only the checkout widget's payment handler sends a verification, and it
      sends the created booking's id with exactly the provider's order id,
      payment id and signature. */
  lemma OnlyPaymentHandlerVerifies(env: Env, s: Phase, e: Event)
    ensures var out := Step(env, s, e).1;
      forall j :: 0 <= j < |out| && out[j].PostVerify? ==>
        s.CheckoutOpen? && e.Paid? &&
        out == [PostVerify(VerifyRequest(s.order.bookingId, e.orderId, e.paymentId, e.signature))]
  {
    match s {
      case Idle =>
      case LoadingSdk(form) => assert Step(env, s, e) == WhileLoading(env, form, e);
      case Creating(form, key) => assert Step(env, s, e) == WhileCreating(form, key, e);
      case CheckoutOpen(form, o) => assert Step(env, s, e) == WhileOpen(form, o, e);
      case Verifying(form, o) => assert Step(env, s, e) == WhileVerifying(form, o, e);
      case Done(_) =>
    }
  }

  /** A booking is only created right after the SDK has loaded and a
      non-blank key was found, and it carries the form's request. */
  lemma OnlyLoadedSdkWithKeyBooks(env: Env, s: Phase, e: Event)
    ensures var out := Step(env, s, e).1;
      forall j :: 0 <= j < |out| && out[j].PostBooking? ==>
        s.LoadingSdk? && e.SdkLoaded? && PublicKey(env) != "" && out == [PostBooking(s.form.request)]
  {
    match s {
      case Idle =>
      case LoadingSdk(form) => assert Step(env, s, e) == WhileLoading(env, form, e);
      case Creating(form, key) => assert Step(env, s, e) == WhileCreating(form, key, e);
      case CheckoutOpen(form, o) => assert Step(env, s, e) == WhileOpen(form, o, e);
      case Verifying(form, o) => assert Step(env, s, e) == WhileVerifying(form, o, e);
      case Done(_) =>
    }
  }

  /** The SDK is only loaded for a signed-in submit of today or a later day. */
  lemma OnlyValidSubmitLoadsSdk(env: Env, s: Phase, e: Event)
    ensures var out := Step(env, s, e).1;
      forall j :: 0 <= j < |out| && out[j] == LoadSdk ==>
        s.Idle? && e.Submit? && Truthy(e.form.token) && env.today <= e.form.request.visitDay
  {
    match s {
      case Idle =>
      case LoadingSdk(form) => assert Step(env, s, e) == WhileLoading(env, form, e);
      case Creating(form, key) => assert Step(env, s, e) == WhileCreating(form, key, e);
      case CheckoutOpen(form, o) => assert Step(env, s, e) == WhileOpen(form, o, e);
      case Verifying(form, o) => assert Step(env, s, e) == WhileVerifying(form, o, e);
      case Done(_) =>
    }
  }

  /** The phase reached and the effects emitted, in order, for a run of events. */
  function Run(env: Env, s: Phase, evs: seq<Event>): (Phase, seq<Effect>)
    decreases |evs|
  {
    if evs == [] then (s, [])
    else
      var first := Step(env, s, evs[0]);
      var rest := Run(env, first.0, evs[1..]);
      (rest.0, first.1 + rest.1)
  }

  /** Running `[e] + evs` is one step followed by the run of the rest. */
  lemma RunCons(env: Env, s: Phase, e: Event, evs: seq<Event>)
    ensures Run(env, s, [e] + evs).0 == Run(env, Step(env, s, e).0, evs).0
    ensures Run(env, s, [e] + evs).1 == Step(env, s, e).1 + Run(env, Step(env, s, e).0, evs).1
  {
    assert ([e] + evs)[0] == e;
    assert ([e] + evs)[1..] == evs;
  }

  /** A finished attempt ignores everything that comes after. */
  lemma {:induction false} DoneAbsorbs(env: Env, end: End, evs: seq<Event>)
    ensures Run(env, Done(end), evs) == (Done(end), [])
    decreases |evs|
  {
    if evs != [] {
      DoneAbsorbs(env, end, evs[1..]);
      var out: seq<Effect> := [];
      assert out + out == out;
    }
  }

  /** After a step that finishes the attempt, the run's effects are that
      step's effects alone. */
  lemma FinishingStep(env: Env, s: Phase, e: Event, evs: seq<Event>)
    requires Step(env, s, e).0.Done?
    ensures Run(env, s, [e] + evs) == Step(env, s, e)
  {
    var first := Step(env, s, e);
    RunCons(env, s, e, evs);
    DoneAbsorbs(env, first.0.end, evs);
    assert first.1 + [] == first.1;
  }

  /** Without a session token the page only redirects to the login page. */
  lemma SignedOutGoesToLogin(env: Env, form: BookForm, evs: seq<Event>)
    requires !Truthy(form.token)
    ensures Run(env, Idle, [Submit(form)] + evs) == (Done(SentToLogin), [Navigate(LoginPath)])
  {
    FinishingStep(env, Idle, Submit(form), evs);
  }

  /** A visit day before today is refused with one error toast, whatever the
      quantity and whatever happens next: no SDK load, no booking, no verify. */
  lemma PastDateRejected(env: Env, form: BookForm, evs: seq<Event>)
    requires Truthy(form.token) && form.request.visitDay < env.today
    ensures Run(env, Idle, [Submit(form)] + evs) == (Done(DateRejected), [ToastError(PastDateMessage)])
  {
    FinishingStep(env, Idle, Submit(form), evs);
  }

  /** While the SDK loads with a blank key, one step either waits silently or
      finishes with one error toast. */
  lemma BlankKeyStep(env: Env, form: BookForm, e: Event)
    requires PublicKey(env) == ""
    ensures var r := Step(env, LoadingSdk(form), e);
      (r.0 == LoadingSdk(form) && r.1 == []) || (r.0.Done? && |r.1| == 1 && r.1[0].ToastError?)
  {
    assert Step(env, LoadingSdk(form), e) == WhileLoading(env, form, e);
  }

  /** No effect at all, or one error toast. */
  predicate SilentOrOneError(out: seq<Effect>) {
    out == [] || (|out| == 1 && out[0].ToastError?)
  }

  lemma BlankKeyCons(env: Env, form: BookForm, e: Event, rest: seq<Event>)
    requires PublicKey(env) == ""
    requires SilentOrOneError(Run(env, LoadingSdk(form), rest).1)
    ensures SilentOrOneError(Run(env, LoadingSdk(form), [e] + rest).1)
  {
    BlankKeyStep(env, form, e);
    if Step(env, LoadingSdk(form), e).0.Done? {
      FinishingStep(env, LoadingSdk(form), e, rest);
    } else {
      RunCons(env, LoadingSdk(form), e, rest);
      var tail := Run(env, LoadingSdk(form), rest).1;
      assert [] + tail == tail;
    }
  }

  /** While the SDK loads with a blank key, a whole run either stays silent
      or ends with one error toast. */
  lemma {:induction false} BlankKeyWhileLoading(env: Env, form: BookForm, evs: seq<Event>)
    requires PublicKey(env) == ""
    ensures SilentOrOneError(Run(env, LoadingSdk(form), evs).1)
    decreases |evs|
  {
    if evs != [] {
      BlankKeyWhileLoading(env, form, evs[1..]);
      BlankKeyCons(env, form, evs[0], evs[1..]);
    }
  }

  /** A valid signed-in submit loads the SDK, and the rest of the run
      happens while it loads. */
  lemma SubmitLoadsSdk(env: Env, form: BookForm, evs: seq<Event>)
    requires Truthy(form.token) && env.today <= form.request.visitDay
    ensures Run(env, Idle, [Submit(form)] + evs).0 == Run(env, LoadingSdk(form), evs).0
    ensures Run(env, Idle, [Submit(form)] + evs).1 == [LoadSdk] + Run(env, LoadingSdk(form), evs).1
  {
    RunCons(env, Idle, Submit(form), evs);
    assert Step(env, Idle, Submit(form)) == (LoadingSdk(form), [LoadSdk]);
  }

  lemma LoadThenSilentOrOneError(tail: seq<Effect>)
    requires SilentOrOneError(tail)
    ensures var tr := [LoadSdk] + tail;
      1 <= |tr| <= 2 && tr[0] == LoadSdk && NothingCreated(tr)
  {
    var tr := [LoadSdk] + tail;
    assert tail != [] ==> tr[1] == tail[0];
  }

  /** With a missing or blank key the attempt loads the SDK and then stops:
      it never creates a booking, opens a checkout or verifies. */
  lemma BlankKeyNeverBooks(env: Env, form: BookForm, evs: seq<Event>)
    requires Truthy(form.token) && env.today <= form.request.visitDay
    requires PublicKey(env) == ""
    ensures var tr := Run(env, Idle, [Submit(form)] + evs).1;
      1 <= |tr| <= 2 && tr[0] == LoadSdk && NothingCreated(tr)
  {
    SubmitLoadsSdk(env, form, evs);
    BlankKeyWhileLoading(env, form, evs);
    LoadThenSilentOrOneError(Run(env, LoadingSdk(form), evs).1);
  }

  /** Dismissing the checkout only shows a neutral notice, and nothing follows. */
  lemma DismissIsNeutral(env: Env, form: BookForm, o: Order, evs: seq<Event>)
    ensures Run(env, CheckoutOpen(form, o), [Dismissed] + evs) == (Done(Abandoned), [ToastInfo(ClosedMessage)])
  {
    FinishingStep(env, CheckoutOpen(form, o), Dismissed, evs);
  }

  /** A failed `POST /Bookings` is reported twice, by the promise toast and
      by the outer catch, and ends the attempt with nothing opened. */
  lemma CreateFailureReportedTwice(env: Env, form: BookForm, key: string, err: ApiError, evs: seq<Event>)
    ensures Run(env, Creating(form, key), [CreateFailed(err)] + evs)
      == (Done(Failed), [ToastError(MessageOr(err, BookingFailedFallback)), ToastError(MessageOr(err, StartFailedFallback))])
  {
    FinishingStep(env, Creating(form, key), CreateFailed(err), evs);
  }

  /** A failed verify gives one error toast: the success toast and the
      move to the dashboard never come, whatever happens afterwards. */
  lemma VerifyFailureNotConfirmed(env: Env, form: BookForm, o: Order, err: ApiError, evs: seq<Event>)
    ensures Run(env, Verifying(form, o), [VerifyFailed(err)] + evs)
      == (Done(Failed), [ToastError(MessageOr(err, VerifyFailedFallback))])
    ensures ToastSuccess(ConfirmedMessage) !in Run(env, Verifying(form, o), [VerifyFailed(err)] + evs).1
    ensures Navigate(DashboardPath) !in Run(env, Verifying(form, o), [VerifyFailed(err)] + evs).1
  {
    FinishingStep(env, Verifying(form, o), VerifyFailed(err), evs);
  }

  /** What the trace so far guarantees about the current phase. */
  ghost predicate Inv(s: Phase, tr: seq<Effect>) {
    && VerifyAfterCreate(tr)
    && (s.Creating? ==> exists k :: 0 <= k < |tr| && tr[k].PostBooking?)
    && ((s.CheckoutOpen? || s.Verifying?) ==> CreatedBefore(tr, |tr|, s.order.bookingId))
  }

  lemma StepKeepsInv(env: Env, s: Phase, e: Event, tr: seq<Effect>)
    requires Inv(s, tr)
    ensures Inv(Step(env, s, e).0, tr + Step(env, s, e).1)
  {
    var r := Step(env, s, e);
    var s1, out := r.0, r.1;
    var t := tr + out;
    if out == [] {
      assert s1 == s;
      assert t == tr;
    } else if s.CheckoutOpen? && e.Paid? {
      VerifyAfterCreateVerify(tr, out[0].verify);
      CreatedBeforeGrows(tr, out, |tr|, s.order.bookingId);
    } else {
      VerifyAfterCreateGrows(tr, out);
      if s.Creating? && e.Created? {
        var k :| 0 <= k < |tr| && tr[k].PostBooking?;
        assert t[k] == tr[k] && t[|tr| + 1] == out[1];
        assert CreatedBefore(t, |t|, e.order.bookingId);
      } else if s.LoadingSdk? && e.SdkLoaded? && s1.Creating? {
        assert t[|tr|] == out[0];
      } else {
        assert !s1.Creating? && !s1.CheckoutOpen? && !s1.Verifying?;
      }
    }
  }

  lemma {:induction false} RunKeepsInv(env: Env, s: Phase, evs: seq<Event>, tr: seq<Effect>)
    requires Inv(s, tr)
    ensures VerifyAfterCreate(tr + Run(env, s, evs).1)
    decreases |evs|
  {
    if evs == [] {
      assert tr + [] == tr;
    } else {
      var (s1, out1) := Step(env, s, evs[0]);
      StepKeepsInv(env, s, evs[0], tr);
      RunKeepsInv(env, s1, evs[1..], tr + out1);
      assert tr + (out1 + Run(env, s1, evs[1..]).1) == (tr + out1) + Run(env, s1, evs[1..]).1;
    }
  }

  /** Whatever the outside world does, a verification request is only ever
      sent after a booking was created and the checkout was opened for that
      same booking id. */
  lemma VerifyOnlyAfterCreate(env: Env, evs: seq<Event>)
    ensures VerifyAfterCreate(Run(env, Idle, evs).1)
  {
    RunKeepsInv(env, Idle, evs, []);
    assert [] + Run(env, Idle, evs).1 == Run(env, Idle, evs).1;
  }

  /** The two effects that tell the visitor the booking is confirmed. */
  predicate IsConfirmation(f: Effect) {
    f == ToastSuccess(ConfirmedMessage) || f == Navigate(DashboardPath)
  }

  ghost predicate HasVerify(tr: seq<Effect>) {
    exists k :: 0 <= k < |tr| && tr[k].PostVerify?
  }

  /** Every confirmation in the trace comes after a verification request. */
  ghost predicate ConfirmAfterVerify(tr: seq<Effect>) {
    forall i :: 0 <= i < |tr| && IsConfirmation(tr[i]) ==> exists j :: 0 <= j < i && tr[j].PostVerify?
  }

  ghost predicate ConfirmInv(s: Phase, tr: seq<Effect>) {
    ConfirmAfterVerify(tr) && (s.Verifying? ==> HasVerify(tr))
  }

  lemma ConfirmAppend(tr: seq<Effect>, out: seq<Effect>)
    requires ConfirmAfterVerify(tr)
    requires HasVerify(tr) || forall f :: f in out ==> !IsConfirmation(f)
    ensures ConfirmAfterVerify(tr + out)
  {
    var t := tr + out;
    forall i | 0 <= i < |t| && IsConfirmation(t[i])
      ensures exists j :: 0 <= j < i && t[j].PostVerify?
    {
      if i < |tr| {
        assert t[i] == tr[i];
        var j :| 0 <= j < i && tr[j].PostVerify?;
        assert t[j] == tr[j];
      } else {
        assert t[i] == out[i - |tr|] && out[i - |tr|] in out;
        var k :| 0 <= k < |tr| && tr[k].PostVerify?;
        assert t[k] == tr[k];
      }
    }
  }

  /** Only the verifying phase emits a confirmation. */
  lemma ConfirmsOnlyWhileVerifying(env: Env, s: Phase, e: Event)
    ensures !s.Verifying? ==> forall f :: f in Step(env, s, e).1 ==> !IsConfirmation(f)
  {
    match s
    case Idle =>
    case LoadingSdk(form) => assert Step(env, s, e) == WhileLoading(env, form, e);
    case Creating(form, key) => assert Step(env, s, e) == WhileCreating(form, key, e);
    case CheckoutOpen(form, o) => assert Step(env, s, e) == WhileOpen(form, o, e);
    case Verifying(form, o) =>
    case Done(_) =>
  }

  /** The verifying phase is entered only by a payment, which emits the
      verification request. */
  lemma VerifyingOnlyAfterPayment(env: Env, s: Phase, e: Event)
    ensures Step(env, s, e).0.Verifying? ==>
      s.Verifying? || (Step(env, s, e).1 != [] && Step(env, s, e).1[0].PostVerify?)
  {
    match s
    case Idle =>
    case LoadingSdk(form) => assert Step(env, s, e) == WhileLoading(env, form, e);
    case Creating(form, key) => assert Step(env, s, e) == WhileCreating(form, key, e);
    case CheckoutOpen(form, o) => assert Step(env, s, e) == WhileOpen(form, o, e);
    case Verifying(form, o) =>
    case Done(_) =>
  }

  /** Each step keeps every confirmation behind a verification request. */
  lemma StepKeepsConfirmInv(env: Env, s: Phase, e: Event, tr: seq<Effect>)
    requires ConfirmInv(s, tr)
    ensures ConfirmInv(Step(env, s, e).0, tr + Step(env, s, e).1)
  {
    var (s1, out) := Step(env, s, e);
    ConfirmsOnlyWhileVerifying(env, s, e);
    VerifyingOnlyAfterPayment(env, s, e);
    ConfirmAppend(tr, out);
    if s1.Verifying? {
      if s.Verifying? {
        var k :| 0 <= k < |tr| && tr[k].PostVerify?;
        assert (tr + out)[k] == tr[k];
      } else {
        assert (tr + out)[|tr|] == out[0];
      }
    }
  }

  lemma {:induction false} RunKeepsConfirmInv(env: Env, s: Phase, evs: seq<Event>, tr: seq<Effect>)
    requires ConfirmInv(s, tr)
    ensures ConfirmAfterVerify(tr + Run(env, s, evs).1)
    decreases |evs|
  {
    if evs == [] {
      assert tr + [] == tr;
    } else {
      var (s1, out1) := Step(env, s, evs[0]);
      StepKeepsConfirmInv(env, s, evs[0], tr);
      RunKeepsConfirmInv(env, s1, evs[1..], tr + out1);
      assert tr + (out1 + Run(env, s1, evs[1..]).1) == (tr + out1) + Run(env, s1, evs[1..]).1;
    }
  }

  /** Whatever the outside world does, the success toast and the move to the
      dashboard only ever come after the payment was sent for verification. */
  lemma ConfirmOnlyAfterVerify(env: Env, evs: seq<Event>)
    ensures ConfirmAfterVerify(Run(env, Idle, evs).1)
  {
    RunKeepsConfirmInv(env, Idle, evs, []);
    assert [] + Run(env, Idle, evs).1 == Run(env, Idle, evs).1;
  }

  /** From an open checkout, a payment that verifies confirms the booking. */
  lemma PaidThenVerified(env: Env, form: BookForm, o: Order, orderId: string, paymentId: string, signature: string)
    ensures Run(env, CheckoutOpen(form, o), [Paid(orderId, paymentId, signature), Verified])
      == (Done(Confirmed),
          [PostVerify(VerifyRequest(o.bookingId, orderId, paymentId, signature)),
           ToastSuccess(ConfirmedMessage), Navigate(DashboardPath)])
  {
    var v := VerifyRequest(o.bookingId, orderId, paymentId, signature);
    FinishingStep(env, Verifying(form, o), Verified, []);
    RunCons(env, CheckoutOpen(form, o), Paid(orderId, paymentId, signature), [Verified]);
    assert [Paid(orderId, paymentId, signature)] + [Verified] == [Paid(orderId, paymentId, signature), Verified];
    assert [Verified] + [] == [Verified];
    assert [PostVerify(v)] + [ToastSuccess(ConfirmedMessage), Navigate(DashboardPath)]
      == [PostVerify(v), ToastSuccess(ConfirmedMessage), Navigate(DashboardPath)];
  }

  /** The events of a payment that goes through once the booking request
      is out: the order comes back, the visitor pays and the server
      verifies. */
  function Paying(o: Order, orderId: string, paymentId: string, signature: string): seq<Event> {
    [Created(o), Paid(orderId, paymentId, signature), Verified]
  }

  /** From the booking creation on, the successful attempt. */
  lemma CreatedThenPaid(env: Env, form: BookForm, key: string, o: Order, orderId: string, paymentId: string, signature: string)
    ensures Run(env, Creating(form, key), Paying(o, orderId, paymentId, signature))
      == (Done(Confirmed),
          [ToastSuccess(CreatedMessage), OpenCheckout(Options(key, form, o)),
           PostVerify(VerifyRequest(o.bookingId, orderId, paymentId, signature)),
           ToastSuccess(ConfirmedMessage), Navigate(DashboardPath)])
  {
    var p := Paid(orderId, paymentId, signature);
    PaidThenVerified(env, form, o, orderId, paymentId, signature);
    RunCons(env, Creating(form, key), Created(o), [p, Verified]);
    assert [Created(o)] + [p, Verified] == Paying(o, orderId, paymentId, signature);
    var shown := [ToastSuccess(CreatedMessage), OpenCheckout(Options(key, form, o))];
    var tail := [PostVerify(VerifyRequest(o.bookingId, orderId, paymentId, signature)),
                 ToastSuccess(ConfirmedMessage), Navigate(DashboardPath)];
    assert shown + tail == [shown[0], shown[1], tail[0], tail[1], tail[2]];
  }

  /** Once the SDK is there and the key is set, the booking request goes out
      and the rest of the attempt runs from the creation. */
  lemma LoadedPostsRequest(env: Env, form: BookForm, rest: seq<Event>)
    requires PublicKey(env) != ""
    ensures Run(env, LoadingSdk(form), [SdkLoaded] + rest).0 == Run(env, Creating(form, PublicKey(env)), rest).0
    ensures Run(env, LoadingSdk(form), [SdkLoaded] + rest).1
      == [PostBooking(form.request)] + Run(env, Creating(form, PublicKey(env)), rest).1
  {
    RunCons(env, LoadingSdk(form), SdkLoaded, rest);
  }

  /** From the SDK load on, the successful attempt. */
  lemma LoadedThenPaid(env: Env, form: BookForm, o: Order, orderId: string, paymentId: string, signature: string)
    requires PublicKey(env) != ""
    ensures Run(env, LoadingSdk(form), [SdkLoaded] + Paying(o, orderId, paymentId, signature))
      == (Done(Confirmed),
          [PostBooking(form.request), ToastSuccess(CreatedMessage),
           OpenCheckout(Options(PublicKey(env), form, o)),
           PostVerify(VerifyRequest(o.bookingId, orderId, paymentId, signature)),
           ToastSuccess(ConfirmedMessage), Navigate(DashboardPath)])
  {
    LoadedPostsRequest(env, form, Paying(o, orderId, paymentId, signature));
    CreatedThenPaid(env, form, PublicKey(env), o, orderId, paymentId, signature);
    var t := Run(env, Creating(form, PublicKey(env)), Paying(o, orderId, paymentId, signature)).1;
    assert [PostBooking(form.request)] + t == [PostBooking(form.request), t[0], t[1], t[2], t[3], t[4]];
  }

  /** The successful attempt, effect by effect. */
  lemma HappyPath(env: Env, form: BookForm, o: Order, orderId: string, paymentId: string, signature: string)
    requires Truthy(form.token) && env.today <= form.request.visitDay && PublicKey(env) != ""
    ensures Run(env, Idle, [Submit(form), SdkLoaded] + Paying(o, orderId, paymentId, signature))
      == (Done(Confirmed),
          [LoadSdk, PostBooking(form.request), ToastSuccess(CreatedMessage),
           OpenCheckout(Options(PublicKey(env), form, o)),
           PostVerify(VerifyRequest(o.bookingId, orderId, paymentId, signature)),
           ToastSuccess(ConfirmedMessage), Navigate(DashboardPath)])
  {
    var rest := [SdkLoaded] + Paying(o, orderId, paymentId, signature);
    LoadedThenPaid(env, form, o, orderId, paymentId, signature);
    SubmitLoadsSdk(env, form, rest);
    assert [Submit(form)] + rest == [Submit(form), SdkLoaded] + Paying(o, orderId, paymentId, signature);
    var t := Run(env, LoadingSdk(form), rest).1;
    assert [LoadSdk] + t == [LoadSdk, t[0], t[1], t[2], t[3], t[4], t[5]];
  }
}

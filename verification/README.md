# EaseMyBooking client logic in Dafny

This project models the booking and payment logic of the EaseMyBooking React
client as pure functions and two event-driven state machines, and proves
properties about them. The logic is spread through the page components and is
lifted out here:

- **Visit days** (`Days`): a visit day is compared with today. Dates are
  integer day numbers that are already normalised to midnight.
- **Review eligibility on the place page** (`PlaceReview`): the "Write a
  Review" button and the "after your visit" hint.
- **Place booking** (`PlaceBooking`): the place page's `handleBook` flow as a
  step function over events. The flow is: signed-in check, past-date guard,
  SDK load, key check, booking creation, checkout, then verify or dismiss or
  error. The api client, the SDK loader and the checkout widget become
  events. Everything the page does becomes an effect.
- **Pay Now** (`PayNow`): the visitor dashboard's retry flow. It always
  creates a new booking, reloads the list after verifying, and logs out on
  a 401.
- **Visitor dashboard** (`VisitorDashboard`): the upcoming and past split and
  the per-card review gating. It shares the event vocabulary with the two
  flows through `Payment`.
- **Owner dashboard** (`OwnerDashboard`): the per-place booking count and
  confirmed revenue, and the stats map keyed by place id. It also covers the
  sequential fetch loop that stops at the first failure, and the totals.
- **Booking card** (`BookingCard`): the total price, the thumbnail fallback
  chain, the Paid / Payment Pending badge, the Pay Now and review buttons, and
  the review payload.
- **Place form** (`PlaceForm`): the Google Maps link rule over a parsed host
  and path, the form schema's rules, and the normalised submit payload.
- **Images** (`Images`): the stable sort by `sortOrder`, the gallery fallback,
  the carousel index, and removal of an existing image.
- **Home page** (`Home`): the destination list built from `/Places`,
  `firstLineOf`, and the rotating indices.

`Js` holds the JavaScript semantics the code relies on:
- truthiness, `||` and `??` on optional values;
- `%` truncating toward zero;
- `String.prototype.trim` with the ECMAScript white-space set;
- `startsWith`, `endsWith` and `includes`;
- ASCII lower-casing.

`Ui` holds the shared error handling: the server message or a fallback, and
the 401 guard that logs out and redirects to `/login`.

The I/O and ambient inputs are modelled as follows:
- Each backend call is an event whose payload is the answer (`Response`).
- The clock is the `today` parameter.
- `REACT_APP_RAZORPAY_KEY` is a field of `Payment.Env`.
- `new URL` and Yup's URL check are function parameters (`parse`, `isUrl`).

## Model

| member | source | states |
|---|---|---|
| Days.Classify | src/pages/VisitorDashboard.jsx:23-27 | A visit day is Past, Today or Future, and exactly one of them: Past iff strictly before today, Today iff equal to today, Future iff after it |
| Days.IsToday | src/pages/VisitorDashboard.jsx:25-26 | A visit on today's date is never past |
| Days.InUpcomingList | src/pages/VisitorDashboard.jsx:33-35 | The upcoming list takes a visit iff it is not past, so today goes with the future days |
| Ui.MessageOr | src/pages/VisitorDashboard.jsx:95 | The server's message is shown when it is non-empty, else the fallback text |
| Ui.Guard | src/pages/VisitorDashboard.jsx:89-95 | A 401 logs out and redirects to /login with no error toast; any other error gives exactly the caller's own handling |
| Images.SortByOrder | src/pages/PlaceDetails.jsx:41 | The images come back ascending by sortOrder (missing counts as 0) as a permutation of the input, and images with equal keys keep their relative order (a stable sort) |
| Images.Insert | src/pages/PlaceDetails.jsx:41 | Inserting one image adds exactly that image to the multiset |
| Images.InsertSorted | src/pages/PlaceDetails.jsx:41 | Inserting into a sorted list keeps it sorted |
| Images.InsertWithKey | src/pages/PlaceDetails.jsx:41 | Insertion puts the new image ahead of the images that share its key, and the images of every other key keep their order |
| Images.FetchedImages | src/pages/OwnerPlaceForm.jsx:84 | A missing image list becomes empty; a present one is sorted and keeps the same images |
| Images.GalleryUrls | src/pages/PlaceDetails.jsx:81-85 | The gallery is the image URLs in order if there are images, else the single imageUrl if it is non-empty, else nothing |
| Images.Slots | src/pages/PlaceDetails.jsx:87-88 | The carousel cycles over the image count, or over one slot when there are no images |
| Images.Next | src/pages/PlaceDetails.jsx:87 | `next` moves one slot forward and wraps from the last slot to 0, staying in range |
| Images.Prev | src/pages/PlaceDetails.jsx:88 | `prev` moves one slot back and wraps from 0 to the last slot, staying in range |
| Images.PrevNextInverse | src/pages/PlaceDetails.jsx:87-88 | `prev` undoes `next` and `next` undoes `prev` for every index in range |
| Images.ClicksStayInRange | src/pages/PlaceDetails.jsx:87-88 | Any sequence of next/prev clicks from an index in range stays below the image count |
| Images.Without | src/pages/OwnerPlaceForm.jsx:94 | The result keeps exactly the images whose id differs from the removed id |
| Images.WithoutDistributes | src/pages/OwnerPlaceForm.jsx:94 | Removal works piecewise over concatenation, so the kept images stay in their order |
| Images.WithoutAbsent | src/pages/OwnerPlaceForm.jsx:94 | Removing an id no image has leaves the list unchanged |
| Images.RemoveExisting | src/pages/OwnerPlaceForm.jsx:90-99 | Without confirmation nothing happens. Once confirmed, the delete is requested first. On success the image is removed and a success toast follows. On failure the list is kept and the server message (or "Delete failed") is shown |
| BookingCard.Total | src/components/BookingCard.jsx:6 | The total is the place price times the quantity, or 0 when the price is unknown |
| BookingCard.Thumb | src/components/BookingCard.jsx:8-12 | The thumbnail is the first non-empty of the booking's thumb URL, the place's thumbnail and the place's image, and is empty iff all three are |
| BookingCard.Title | src/components/BookingCard.jsx:20 | The title is the place name, or "Place" when there is none |
| BookingCard.Render | src/components/BookingCard.jsx:29-57 | The Paid badge shows iff the booking is confirmed. Pay Now shows iff the booking is unconfirmed and a handler was given, and then the badge reads Payment Pending. The review button shows iff a handler was given |
| BookingCard.ReviewPayload | src/components/BookingCard.jsx:48-53 | The review goes to the place's own id, falling back to the booking's placeId, under the card's title |
| VisitorDashboard.ReviewTargetsOwnPlace | src/components/BookingCard.jsx:48-53 | The place a card's review goes to is one the booking belongs to by the place page's match, so both pages review the same place |
| PlaceReview.Mine | src/pages/PlaceDetails.jsx:57-59 | A booking counts for the place iff its placeId or its place's placeId matches |
| PlaceReview.AnyPaidPast | src/pages/PlaceDetails.jsx:61-63 | True iff some booking is paid and its day is strictly past |
| PlaceReview.AnyNotPast | src/pages/PlaceDetails.jsx:64-66 | True iff some booking is today or later, paid or not |
| PlaceReview.Evaluate | src/pages/PlaceDetails.jsx:46-73 | Without a visitor session both flags are false. A failed fetch keeps the previous flags. Otherwise review is allowed iff some booking for the place is paid and past, and the upcoming flag holds iff review is not allowed and some booking for the place is today or later |
| PlaceReview.Shown | src/pages/PlaceDetails.jsx:268-285 | With a token, the review button shows iff review is allowed. The hint shows iff there is an upcoming booking and review is not allowed |
| PlaceReview.AffordanceFromBookings | src/pages/PlaceDetails.jsx:57-69 | For a visitor, the page shows the review button iff a paid past booking for the place exists. It shows the hint iff no such booking exists but one today or later does |
| PlaceReview.NonVisitorSeesNothing | src/pages/PlaceDetails.jsx:47-51 | Without a token or the Visitor role neither the button nor the hint shows |
| VisitorDashboard.UpcomingOf | src/pages/VisitorDashboard.jsx:32-35 | The upcoming list holds exactly the bookings that are not past |
| VisitorDashboard.PastOf | src/pages/VisitorDashboard.jsx:32-35 | The past list holds exactly the bookings strictly before today |
| VisitorDashboard.ListsPartition | src/pages/VisitorDashboard.jsx:32-38 | Every booking lands in exactly one list: the two lists together are a permutation of the input |
| VisitorDashboard.UpcomingSnoc | src/pages/VisitorDashboard.jsx:33-35 | Appending a booking appends it to the upcoming list iff it is not past, so input order is kept |
| VisitorDashboard.PastSnoc | src/pages/VisitorDashboard.jsx:33-35 | Appending a booking appends it to the past list iff it is past, so input order is kept |
| VisitorDashboard.Split | src/pages/VisitorDashboard.jsx:29-38 | The push loop builds exactly the upcoming and past lists |
| VisitorDashboard.Load | src/pages/VisitorDashboard.jsx:29-47 | A successful fetch shows the two lists. A 401 logs out and redirects, and no other outcome does. Any other failure is only logged |
| VisitorDashboard.CardHandlers | src/pages/VisitorDashboard.jsx:112-145 | Only upcoming cards get Pay Now. An upcoming card gets a review action iff it is today and paid; a past card gets one iff it is past and paid |
| VisitorDashboard.DashboardReviewIffPaidAndDue | src/pages/VisitorDashboard.jsx:100-145 | On the card rendered in its own list, the review button shows iff the booking is paid and its day is today or earlier |
| VisitorDashboard.PastCardsNeverPay | src/pages/VisitorDashboard.jsx:135-145 | A past card never shows Pay Now |
| VisitorDashboard.UnpaidUpcomingIsPayable | src/pages/VisitorDashboard.jsx:112-124 | An unpaid upcoming card shows Pay Now and the Payment Pending badge |
| VisitorDashboard.TodayPaidDisagreement | src/pages/VisitorDashboard.jsx:117-123 | For a paid booking today, the dashboard offers a review while the place page shows only the "after your visit" hint |
| VisitorDashboard.PlacePageReviewShowsOnDashboard | src/pages/VisitorDashboard.jsx:139-143 | Whenever the place page allows a review, the dashboard's past list holds a paid card for that place with a review button |
| Payment.PublicKey | src/pages/PlaceDetails.jsx:107 | The key is empty iff the variable is missing, empty or only white space |
| PlaceBooking.Step | src/pages/PlaceDetails.jsx:90-163 | A finished attempt ignores every further event |
| PlaceBooking.SignedOutGoesToLogin | src/pages/PlaceDetails.jsx:92-95 | Without a token a submit only navigates to /login and the attempt ends |
| PlaceBooking.PastDateRejected | src/pages/PlaceDetails.jsx:98-103 | A signed-in submit of a past day shows one error toast and ends: no SDK load, booking or verify |
| PlaceBooking.OnlyValidSubmitLoadsSdk | src/pages/PlaceDetails.jsx:92-106 | The SDK is loaded only for a signed-in submit of today or a later day |
| PlaceBooking.OnlyLoadedSdkWithKeyBooks | src/pages/PlaceDetails.jsx:105-119 | A booking is created only right after the SDK loaded and the key is non-blank, and it carries the form's place, day and quantity |
| PlaceBooking.BlankKeyWhileLoading | src/pages/PlaceDetails.jsx:106-111 | With a blank key, whatever happens while the SDK loads yields no effect or a single error toast |
| PlaceBooking.SubmitLoadsSdk | src/pages/PlaceDetails.jsx:90-106 | A signed-in submit for today or later starts the SDK load; the rest of the attempt then runs from the loading phase |
| PlaceBooking.BlankKeyNeverBooks | src/pages/PlaceDetails.jsx:106-111 | With a blank key the attempt loads the SDK and stops: nothing is created, opened or verified |
| PlaceBooking.OnlyPaymentHandlerVerifies | src/pages/PlaceDetails.jsx:136-143 | A verify is only sent by the checkout's payment handler, with the created booking's id and exactly the provider's order id, payment id and signature |
| PlaceBooking.DismissIsNeutral | src/pages/PlaceDetails.jsx:154-156 | Closing the checkout gives only the neutral "Payment window closed." notice and ends the attempt without a verify |
| PlaceBooking.CreateFailureReportedTwice | src/pages/PlaceDetails.jsx:114-161 | A failed booking request is reported twice, by the request's own error toast and by the outer catch, and nothing is opened or verified afterwards |
| PlaceBooking.VerifyFailureNotConfirmed | src/pages/PlaceDetails.jsx:137-151 | A failed verify gives exactly one error toast with the server's message or "Payment verification failed.", and never the success toast or the move to the dashboard |
| PlaceBooking.RunKeepsInv | src/pages/PlaceDetails.jsx:114-151 | From any reachable phase, every verify in the trace follows a booking creation and a checkout opened for that same booking |
| PlaceBooking.VerifyOnlyAfterCreate | src/pages/PlaceDetails.jsx:114-151 | For every sequence of events from a fresh page, each verify follows the creation of its own booking |
| PlaceBooking.ConfirmsOnlyWhileVerifying | src/pages/PlaceDetails.jsx:137-151 | The success toast and the move to the dashboard come from no phase except the wait for the verify |
| PlaceBooking.VerifyingOnlyAfterPayment | src/pages/PlaceDetails.jsx:136-145 | The wait for the verify is entered only from the payment handler, whose first effect is the verify request |
| PlaceBooking.StepKeepsConfirmInv | src/pages/PlaceDetails.jsx:137-151 | Each step keeps every confirmation behind a verify request, and only a payment enters the verifying phase |
| PlaceBooking.RunKeepsConfirmInv | src/pages/PlaceDetails.jsx:137-151 | Over any run from a phase that keeps the ordering, confirmations only follow a verify request |
| PlaceBooking.ConfirmOnlyAfterVerify | src/pages/PlaceDetails.jsx:137-151 | For every sequence of events, the success toast and the move to /dashboard/visitor come only after the payment was sent for verification |
| PlaceBooking.PaidThenVerified | src/pages/PlaceDetails.jsx:136-150 | A payment followed by a successful verify shows the success toast and goes to the visitor dashboard |
| PlaceBooking.CreatedThenPaid | src/pages/PlaceDetails.jsx:114-150 | A created booking opens the checkout with its order, then payment and verify complete the attempt |
| PlaceBooking.LoadedPostsRequest | src/pages/PlaceDetails.jsx:105-119 | Once the SDK is loaded with a non-blank key, the booking request goes out first and the attempt continues from the creation |
| PlaceBooking.HappyPath | src/pages/PlaceDetails.jsx:90-163 | The full successful attempt emits, in order: SDK load, booking request, created toast, checkout, verify with the new booking id, confirmed toast, navigation to the dashboard |
| PayNow.Rebook | src/pages/VisitorDashboard.jsx:61-65 | The new booking request copies the card's place, visit day and quantity |
| PayNow.Step | src/pages/VisitorDashboard.jsx:51-97 | A finished attempt ignores every further event |
| PayNow.RebookCopiesCard | src/pages/VisitorDashboard.jsx:53-65 | A booking request is sent only after the SDK loaded with a non-blank key, and it repeats the card's place, day and quantity |
| PayNow.InitFailureHandling | src/pages/VisitorDashboard.jsx:89-96 | A failed SDK load or booking creation with 401 logs out and redirects without a toast; any other failure shows one error toast with the server's message or "Payment init failed" |
| PayNow.DismissIsSilent | src/pages/VisitorDashboard.jsx:69-88 | Closing the checkout ends the attempt with no effect at all |
| PayNow.VerifyFailureIsSilent | src/pages/VisitorDashboard.jsx:75-83 | A failed verify ends the attempt with no toast, no reload and no success message, whatever follows |
| PayNow.ConfirmedEvenAfterLogout | src/pages/VisitorDashboard.jsx:76-84 | If the reload after a verified payment gets a 401, the visitor is logged out and the success toast still follows |
| PayNow.RunKeepsInv | src/pages/VisitorDashboard.jsx:61-84 | From any reachable phase, verifies follow their booking's creation and a success toast follows a reload request |
| PayNow.PayNowOrdering | src/pages/VisitorDashboard.jsx:61-84 | For every sequence of events, each verify follows the creation of its own booking, and the success toast only comes after the list was reloaded |
| PayNow.PaidThenReloaded | src/pages/VisitorDashboard.jsx:76-84 | After payment and verify, the list is reloaded and then the success toast is shown |
| PayNow.CreatedThenReloaded | src/pages/VisitorDashboard.jsx:61-84 | A created booking opens the checkout with the new order, and a payment completes with verify, reload and success toast |
| PayNow.LoadedPostsCopy | src/pages/VisitorDashboard.jsx:53-65 | Once the SDK is loaded with a non-blank key, the copy of the card is posted first and the attempt continues from the creation |
| PayNow.RetryPaysNewBooking | src/pages/VisitorDashboard.jsx:51-88 | A successful retry posts a copy of the card and verifies the payment against the new booking's id, not the card's |
| OwnerDashboard.Confirmed | src/pages/OwnerDashboard.jsx:24 | The confirmed bookings are exactly those with paymentConfirmed |
| OwnerDashboard.FoldConfirmed | src/pages/OwnerDashboard.jsx:23-25 | The reduce over confirmed bookings adds the price times their total ticket count |
| OwnerDashboard.Revenue | src/pages/OwnerDashboard.jsx:23-25 | The revenue is the price times the tickets of confirmed bookings only |
| OwnerDashboard.PlaceStat | src/pages/OwnerDashboard.jsx:21-25 | totalBookings counts every booking, confirmed or not; revenue counts only confirmed tickets |
| OwnerDashboard.ConfirmedTicketsAppend | src/pages/OwnerDashboard.jsx:23-25 | Confirmed tickets add up over concatenated booking lists |
| OwnerDashboard.UnpaidAddsNoRevenue | src/pages/OwnerDashboard.jsx:22-25 | An unpaid booking raises the count by one and leaves the revenue unchanged |
| OwnerDashboard.Merge | src/pages/OwnerDashboard.jsx:27-30 | Merging sets only that place's entry and leaves every other entry unchanged |
| OwnerDashboard.StatFor | src/pages/OwnerDashboard.jsx:75 | A place without an entry shows 0 bookings and 0 revenue |
| OwnerDashboard.Processed | src/pages/OwnerDashboard.jsx:19-32 | The places processed are the ones before the first failed fetch |
| OwnerDashboard.Collect | src/pages/OwnerDashboard.jsx:19-31 | The loop only adds entries, each for one of the listed places, and a failure it reports is the answer to one of those places |
| OwnerDashboard.CollectFailure | src/pages/OwnerDashboard.jsx:19-32 | The loop reports the first failed fetch and only that one, or none when all succeed |
| OwnerDashboard.CollectKeys | src/pages/OwnerDashboard.jsx:19-31 | The loop adds entries for exactly the places before the first failure and keeps all other entries |
| OwnerDashboard.CollectFetched | src/pages/OwnerDashboard.jsx:19-30 | Each place fetched before the failure holds its own stats unless a later place with the same id overwrote them |
| OwnerDashboard.Mount | src/pages/OwnerDashboard.jsx:13-41 | A failed place list leaves the view empty. Otherwise the view holds the places and the stats collected before any failure. A 401 from either fetch logs out and redirects to /login, and nothing else; no other outcome logs out, and with no failure there are no effects |
| OwnerDashboard.SumByRemove | src/pages/OwnerDashboard.jsx:44-45 | A map total is any one entry's value plus the total of the rest, whichever entry is taken first |
| OwnerDashboard.MergeTotals | src/pages/OwnerDashboard.jsx:44-45 | After a merge the total is the merged entry's value plus the total of the other places |
| OwnerDashboard.Totals | src/pages/OwnerDashboard.jsx:44-45 | The reduce over the map's values yields the sum of bookings and the sum of revenue over all entries, in any iteration order |
| OwnerDashboard.SameKeys | src/pages/OwnerDashboard.jsx:19-31 | When every fetch succeeds, the stats map has the same keys whatever the order of the places |
| OwnerDashboard.FetchedAtEnd | src/pages/OwnerDashboard.jsx:19-30 | With distinct ids and no failure, every place ends with its own stats |
| OwnerDashboard.FetchOrderIrrelevant | src/pages/OwnerDashboard.jsx:19-31 | With distinct ids and no failures, the stats map does not depend on the order of the places |
| OwnerDashboard.AllProcessed | src/pages/OwnerDashboard.jsx:19-31 | When every fetch succeeds, every place is processed |
| OwnerDashboard.TwoPlaceExample | src/pages/OwnerDashboard.jsx:19-45 | A place with one paid ticket at 200 and a place with one unpaid booking of three tickets at 100 give 2 visitors and 200 revenue: unpaid bookings count as visitors but earn nothing |
| PlaceForm.IsGoogleMapsUrl | src/pages/OwnerPlaceForm.jsx:11-24 | A link is accepted only if it parses, and then only for the maps.app.goo.gl host or a path under /maps |
| PlaceForm.MapsRule | src/pages/OwnerPlaceForm.jsx:11-24 | Accepted iff the URL parses and the lower-cased host is maps.app.goo.gl, or the host is goo.gl or goo.gle or a Google host and the path starts with /maps |
| PlaceForm.HostCaseIrrelevant | src/pages/OwnerPlaceForm.jsx:14 | The verdict does not depend on the host's letter case |
| PlaceForm.LookalikeHostAccepted | src/pages/OwnerPlaceForm.jsx:17-18 | A host that merely ends in "google.com", such as evilgoogle.com, is accepted with a /maps path |
| PlaceForm.GoogleWithoutMapsPathRefused | src/pages/OwnerPlaceForm.jsx:17-20 | A link whose path does not start with /maps is refused unless the host is maps.app.goo.gl |
| PlaceForm.Errors | src/pages/OwnerPlaceForm.jsx:25-41 | Each schema rule as an iff: the name and description are reported iff missing or shorter than 2 and 10 UTF-16 code units once trimmed, location and timings iff missing or blank, the price iff not a number from 0 to 10000000, the image link iff filled in and not a URL, and the maps link is accepted iff blank, or a URL that is a Google Maps link |
| Js.Utf16Length | src/pages/OwnerPlaceForm.jsx:27-28 | The JS length of a string is between its character count and twice that, equal to it iff no character lies outside the Basic Multilingual Plane |
| PlaceForm.EmojiNameLongEnough | src/pages/OwnerPlaceForm.jsx:27 | A name made of one emoji, one character but two code units, passes the 2-character minimum |
| PlaceForm.EmptyMapsUrlPasses | src/pages/OwnerPlaceForm.jsx:40 | An empty or blank maps link passes the maps rule |
| PlaceForm.TrimOrEmpty | src/pages/OwnerPlaceForm.jsx:117-118 | A missing link becomes "" and a present one is trimmed |
| PlaceForm.ToPayload | src/pages/OwnerPlaceForm.jsx:114-119 | The payload keeps name, description, location and timings and the numeric price. Each link is the trimmed input, or "" when it is missing, so neither starts or ends with white space |
| PlaceForm.PayloadIdempotent | src/pages/OwnerPlaceForm.jsx:114-119 | Normalising an already normalised payload changes nothing |
| PlaceForm.TrimOrEmptyIdempotent | src/pages/OwnerPlaceForm.jsx:117-118 | Trimming a trimmed link changes nothing |
| PlaceForm.UrlFieldKeepsVerdict | src/pages/OwnerPlaceForm.jsx:36-41 | Trimming a link does not change whether the schema accepts it |
| PlaceForm.PayloadKeepsVerdict | src/pages/OwnerPlaceForm.jsx:26-42 | The payload sent passes exactly the rules the form's values passed |
| Home.ToDestination | src/pages/Home.jsx:25-30 | A destination keeps the place's id and name. A truthy image or description is kept, and a missing or empty one becomes "" |
| Home.Named | src/pages/Home.jsx:25-31 | The destinations are exactly the mapped places whose name is non-empty |
| Home.NamedAppend | src/pages/Home.jsx:25-31 | Mapping and filtering work piecewise, so the source order is kept |
| Home.NamedKeepsAllNamed | src/pages/Home.jsx:25-31 | When every place has a name, each one maps, in the same position |
| Home.Destinations | src/pages/Home.jsx:22-31 | A non-array body gives no destinations. Otherwise the result is the map-and-filter of the first 20 places, in their order: at most 20, all named, exactly the named places among the first 20 |
| Home.Load | src/pages/Home.jsx:18-39 | A failed fetch is logged and empties the list; a successful one shows the destinations |
| Home.LineBeforeFeed | src/pages/Home.jsx:60 | The line is the prefix of the text up to the first line feed, which it does not contain |
| Home.LineBeforeFeedPrefix | src/pages/Home.jsx:60 | Text free of line feeds, followed by a line feed or by nothing, is exactly the line |
| Home.FirstSegment | src/pages/Home.jsx:60 | The first split field is a prefix of the text with no line feed, and what follows it is a line feed or a carriage return and line feed |
| Home.FirstLineOf | src/pages/Home.jsx:60 | A missing or empty text gives "", and the result never starts or ends with white space |
| Home.SegmentBeforeFeed | src/pages/Home.jsx:60 | The split's first field is the text before the first line feed, less a carriage return just before it |
| Home.SegmentBeforeCrLf | src/pages/Home.jsx:60 | The split's first field is the text before the first "\r\n" |
| Home.OneLine | src/pages/Home.jsx:60 | Text without a line feed comes back trimmed |
| Home.BeforeLineFeed | src/pages/Home.jsx:60 | Before a "\n" the first line is the trimmed text that precedes it |
| Home.BeforeCrLf | src/pages/Home.jsx:60 | Before a "\r\n" the first line is the trimmed text that precedes it |
| Home.Tick | src/pages/Home.jsx:43-50 | The next index is one more, wrapping to 0 at the length, and stays below the length |
| Home.TicksCountUp | src/pages/Home.jsx:50 | During the first round the index counts 0, 1, 2, … |
| Home.TicksCycle | src/pages/Home.jsx:43-50 | After as many ticks as the length, the index is back where it was |
| Home.Current | src/pages/Home.jsx:113 | The card shows a destination iff the index is in range, and then the destination at that index |
| Home.RotationAlwaysShows | src/pages/Home.jsx:48-51 | Once destinations are loaded, the rotating card always shows a named one |
| Home.CardOf | src/pages/Home.jsx:186-203 | The card shows the image or a placeholder, and the description's first line or "No description available", never an empty blurb |

## Left out

- Rendering, hooks, JSX, CSS classes and animation: only the values the markup shows are modelled.
- The api client, `loadRazorpay`, the checkout widget and the backend are not modelled. Each call is an event carrying its answer, and a toast or request is an effect.
- `Date` and time zones: visit days and today are integer day numbers at midnight.
- `new URL` and Yup's `.url()`: they are the `parse` and `isUrl` parameters.
- Yup and Formik internals: the schema is modelled as a set of failing fields, without messages, touched-state or asynchronous validation.
- `formatCurrency` and `ReviewModal`: not part of this model.
- Floating-point prices and `Number(...)` conversions: prices and quantities are integers, and a price input is missing, not a number, or an integer.
- `toast.promise` loading toasts: only the success and error toasts are effects. The place page shows two error toasts when a booking creation fails, one from `toast.promise` and one from the outer handler, and both are modelled.
- The checkout constructor throwing in the place flow and in Pay Now is not modelled.
- A second submit or Pay Now while an attempt is running is not modelled. Each machine runs one attempt, and a new attempt starts from `Idle`.
- Image upload and object-URL previews in the place form, and the edit-mode loading of initial values, are not modelled.
- Submitting the place form (create or update, then upload) is not modelled, beyond the payload it sends.
- Lower-casing is ASCII only: `toLowerCase` on non-ASCII host names is not modelled.
- The text of the three home-page quotes is not modelled: only their count is, for the rotating index.
- PayNow.Step: a verify failure inside the checkout handler is an unhandled rejection in the page. It ends the attempt with no effect, as written.
- PlaceReview.Evaluate: a failed bookings fetch keeps the flags already shown. The page's own comment says "keep defaults", but the code keeps whatever state is current.
- OwnerDashboard.Totals: the sum over the map is a ghost definition, and the method's result is proved equal to it for any iteration order.
- The owner dashboard's per-place answers are a function of the place id, so two places with the same id get the same answer.
- The rotating timers themselves are not modelled: the index after n ticks is, and so is the index lookup.
- App routing, the navbar, the logout button, MapLink, the places list, the owner bookings page, the footer, the not-found page and the toast wrapper are not part of this model.

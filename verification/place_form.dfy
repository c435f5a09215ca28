/** The owner's place form: the Google Maps link rule, the validation
    schema, and the payload sent on submit. URL parsing (`new URL`) and the
    schema's URL syntax check are inputs, not modelled. */
module PlaceForm {
  import opened Js

  /** The parts of a parsed URL the maps rule looks at. */
  datatype ParsedUrl = ParsedUrl(hostname: string, pathname: string)

  const ShortLinkHost := "maps.app.goo.gl"

  predicate IsShortener(host: string) {
    host == "goo.gl" || host == "goo.gle"
  }

  predicate IsGoogleHost(host: string) {
    EndsWith(host, "google.com") || Contains(host, ".google.")
  }

  /** `isGoogleMapsUrl`, given what `new URL(url)` produced (`None` when it
      threw). */
  function IsGoogleMapsUrl(u: Option<ParsedUrl>): (r: bool)
    ensures r ==> u.Some?
    ensures r ==> Lower(u.value.hostname) == ShortLinkHost || StartsWith(u.value.pathname, "/maps")
  {
    match u
    case None => false
    case Some(p) =>
      var host := Lower(p.hostname);
      if host == ShortLinkHost then true
      else if IsShortener(host) then StartsWith(p.pathname, "/maps")
      else if IsGoogleHost(host) then StartsWith(p.pathname, "/maps")
      else false
  }

  /** The rule: a URL that does not parse is refused; the short-link host is
      accepted with any path; the shorteners and the Google hosts are
      accepted exactly when the path starts with "/maps"; every other host is
      refused. Hosts are compared lowercased. */
  lemma MapsRule(u: Option<ParsedUrl>)
    ensures u.None? ==> !IsGoogleMapsUrl(u)
    ensures u.Some? && Lower(u.value.hostname) == ShortLinkHost ==> IsGoogleMapsUrl(u)
    ensures u.Some? && Lower(u.value.hostname) != ShortLinkHost ==>
      (IsGoogleMapsUrl(u) <==>
         (IsShortener(Lower(u.value.hostname)) || IsGoogleHost(Lower(u.value.hostname)))
         && StartsWith(u.value.pathname, "/maps"))
  {
  }

  /** The host is lowercased first, so its case never matters. */
  lemma HostCaseIrrelevant(host: string, path: string)
    ensures IsGoogleMapsUrl(Some(ParsedUrl(host, path))) == IsGoogleMapsUrl(Some(ParsedUrl(Lower(host), path)))
  {
    LowerIdempotent(host);
  }

  /** The host test is a suffix test on "google.com", not on a domain
      boundary: a look-alike host passes it. */
  lemma LookalikeHostAccepted()
    ensures IsGoogleMapsUrl(Some(ParsedUrl("evilgoogle.com", "/maps/place/x")))
  {
    var host := "evilgoogle.com";
    assert Lower(host) == host;
    assert host[|host| - |"google.com"|..] == "google.com";
    assert StartsWith("/maps/place/x", "/maps") by {
      assert "/maps/place/x"[..5] == "/maps";
    }
  }

  /** A Google host without a "/maps" path is refused. */
  lemma GoogleWithoutMapsPathRefused(host: string, path: string)
    requires Lower(host) != ShortLinkHost
    requires !StartsWith(path, "/maps")
    ensures !IsGoogleMapsUrl(Some(ParsedUrl(host, path)))
  {
  }

  /** A price field as the form holds it: empty (missing), not a number, or
      a number. Only whole numbers are modelled. */
  datatype PriceInput = PriceMissing | PriceNaN | PriceValue(amount: int)

  /** The form values; `None` is a field that is `undefined`. */
  datatype PlaceValues = PlaceValues(
    name: Option<string>, description: Option<string>, location: Option<string>,
    timings: Option<string>, price: PriceInput, imageUrl: Option<string>,
    googleMapsUrl: Option<string>)

  datatype Field = Name | Description | Location | Timings | Price | ImageUrl | GoogleMapsUrl

  const MaxPrice := 10000000

  /** A required string field of at least `min` UTF-16 code units once
      trimmed (the schema trims before it tests, `min` compares the JS
      `.length`, and `required` refuses an empty string). */
  predicate LongEnough(s: Option<string>, min: nat)
    requires min >= 1
  {
    s.Some? && Utf16Length(Trim(s.value)) >= min
  }

  /** With a minimum of one, "long enough" is "not blank". */
  lemma NotBlank(s: Option<string>)
    ensures LongEnough(s, 1) <==> s.Some? && Trim(s.value) != ""
  {
  }

  predicate PriceOk(p: PriceInput) {
    p.PriceValue? && 0 <= p.amount <= MaxPrice
  }

  /** An optional URL field: empty after trimming passes, anything else must
      be a URL. */
  predicate OptionalUrlOk(s: Option<string>, isUrl: string -> bool) {
    s.None? || Trim(s.value) == "" || isUrl(Trim(s.value))
  }

  /** The maps link: the URL check, then `!v || isGoogleMapsUrl(v)` on the
      trimmed value. */
  predicate MapsUrlOk(s: Option<string>, isUrl: string -> bool, parse: string -> Option<ParsedUrl>) {
    OptionalUrlOk(s, isUrl) && (s.None? || Trim(s.value) == "" || IsGoogleMapsUrl(parse(Trim(s.value))))
  }

  /** Whether one field passes its rule in `PlaceSchema`. */
  predicate FieldOk(f: Field, v: PlaceValues, isUrl: string -> bool, parse: string -> Option<ParsedUrl>) {
    match f
    case Name => LongEnough(v.name, 2)
    case Description => LongEnough(v.description, 10)
    case Location => LongEnough(v.location, 1)
    case Timings => LongEnough(v.timings, 1)
    case Price => PriceOk(v.price)
    case ImageUrl => OptionalUrlOk(v.imageUrl, isUrl)
    case GoogleMapsUrl => MapsUrlOk(v.googleMapsUrl, isUrl, parse)
  }

  /** The rules of the four text fields. */
  lemma TextRules(v: PlaceValues, isUrl: string -> bool, parse: string -> Option<ParsedUrl>)
    ensures !FieldOk(Name, v, isUrl, parse) <==> v.name.None? || Utf16Length(Trim(v.name.value)) < 2
    ensures !FieldOk(Description, v, isUrl, parse) <==> v.description.None? || Utf16Length(Trim(v.description.value)) < 10
    ensures !FieldOk(Location, v, isUrl, parse) <==> v.location.None? || Trim(v.location.value) == ""
    ensures !FieldOk(Timings, v, isUrl, parse) <==> v.timings.None? || Trim(v.timings.value) == ""
  {
    NotBlank(v.location);
    NotBlank(v.timings);
  }

  /** The rules of the price and the two links. */
  lemma NumberAndLinkRules(v: PlaceValues, isUrl: string -> bool, parse: string -> Option<ParsedUrl>)
    ensures !FieldOk(Price, v, isUrl, parse) <==> !(v.price.PriceValue? && 0 <= v.price.amount <= 10000000)
    ensures !FieldOk(ImageUrl, v, isUrl, parse) <==>
      v.imageUrl.Some? && Trim(v.imageUrl.value) != "" && !isUrl(Trim(v.imageUrl.value))
    ensures FieldOk(GoogleMapsUrl, v, isUrl, parse) <==>
      v.googleMapsUrl.None? || Trim(v.googleMapsUrl.value) == ""
      || (isUrl(Trim(v.googleMapsUrl.value)) && IsGoogleMapsUrl(parse(Trim(v.googleMapsUrl.value))))
  {
  }

  /** `PlaceSchema`: the fields that fail validation. `isUrl` is the schema's
      URL syntax check and `parse` is `new URL`. Name and description are
      required with a minimum length after trimming, location and timings
      must not be blank, the price is a number from 0 to 10000000, and each
      link, when filled in, must be a URL, the maps link one that points at
      Google Maps. */
  function Errors(v: PlaceValues, isUrl: string -> bool, parse: string -> Option<ParsedUrl>): (r: set<Field>)
    ensures Name in r <==> v.name.None? || Utf16Length(Trim(v.name.value)) < 2
    ensures Description in r <==> v.description.None? || Utf16Length(Trim(v.description.value)) < 10
    ensures Location in r <==> v.location.None? || Trim(v.location.value) == ""
    ensures Timings in r <==> v.timings.None? || Trim(v.timings.value) == ""
    ensures Price in r <==> !(v.price.PriceValue? && 0 <= v.price.amount <= 10000000)
    ensures ImageUrl in r <==>
      v.imageUrl.Some? && Trim(v.imageUrl.value) != "" && !isUrl(Trim(v.imageUrl.value))
    ensures GoogleMapsUrl !in r <==>
      v.googleMapsUrl.None? || Trim(v.googleMapsUrl.value) == ""
      || (isUrl(Trim(v.googleMapsUrl.value)) && IsGoogleMapsUrl(parse(Trim(v.googleMapsUrl.value))))
  {
    var r := set f: Field | !FieldOk(f, v, isUrl, parse);
    assert forall f: Field :: f in r <==> !FieldOk(f, v, isUrl, parse);
    TextRules(v, isUrl, parse);
    NumberAndLinkRules(v, isUrl, parse);
    r
  }

  /** The length rules count UTF-16 code units, as JS does: a one-emoji
      name is long enough. */
  lemma EmojiNameLongEnough(v: PlaceValues, isUrl: string -> bool, parse: string -> Option<ParsedUrl>)
    requires v.name == Some("\U{1F600}")
    ensures Name !in Errors(v, isUrl, parse)
  {
    EmojiIsTwoUnits();
    assert Trim("\U{1F600}") == "\U{1F600}";
  }

  /** An empty maps link is accepted whatever the parser says. */
  lemma EmptyMapsUrlPasses(v: PlaceValues, isUrl: string -> bool, parse: string -> Option<ParsedUrl>)
    requires v.googleMapsUrl == Some("") || v.googleMapsUrl.None?
    ensures GoogleMapsUrl !in Errors(v, isUrl, parse)
  {
  }

  /** What is sent to `POST /Places` or `PUT /Places/{id}`. */
  datatype Payload = Payload(
    name: Option<string>, description: Option<string>, location: Option<string>,
    timings: Option<string>, price: int, imageUrl: string, googleMapsUrl: string)

  /** `s?.trim() || ""`. */
  function TrimOrEmpty(s: Option<string>): (r: string)
    ensures s.None? ==> r == ""
    ensures s.Some? ==> r == Trim(s.value)
  {
    if s.Some? && Trim(s.value) != "" then Trim(s.value) else ""
  }

  /** The submit payload. Submission only happens once the schema passed, so
      the price is a number. Name, description, location and timings are
      sent as typed, untrimmed; only the two URLs are trimmed. */
  function ToPayload(v: PlaceValues): (p: Payload)
    requires v.price.PriceValue?
    ensures p.name == v.name && p.description == v.description
    ensures p.location == v.location && p.timings == v.timings
    ensures p.price == v.price.amount
    ensures v.imageUrl.Some? ==> p.imageUrl == Trim(v.imageUrl.value)
    ensures v.imageUrl.None? ==> p.imageUrl == ""
    ensures v.googleMapsUrl.Some? ==> p.googleMapsUrl == Trim(v.googleMapsUrl.value)
    ensures v.googleMapsUrl.None? ==> p.googleMapsUrl == ""
    ensures p.imageUrl == "" || (!IsSpace(p.imageUrl[0]) && !IsSpace(p.imageUrl[|p.imageUrl| - 1]))
    ensures p.googleMapsUrl == "" || (!IsSpace(p.googleMapsUrl[0]) && !IsSpace(p.googleMapsUrl[|p.googleMapsUrl| - 1]))
  {
    Payload(v.name, v.description, v.location, v.timings, v.price.amount,
            TrimOrEmpty(v.imageUrl), TrimOrEmpty(v.googleMapsUrl))
  }

  /** The form values a payload corresponds to. */
  function AsValues(p: Payload): PlaceValues {
    PlaceValues(p.name, p.description, p.location, p.timings, PriceValue(p.price),
                Some(p.imageUrl), Some(p.googleMapsUrl))
  }

  /** Normalising a normalised payload changes nothing. */
  lemma PayloadIdempotent(v: PlaceValues)
    requires v.price.PriceValue?
    ensures ToPayload(AsValues(ToPayload(v))) == ToPayload(v)
  {
    TrimOrEmptyIdempotent(v.imageUrl);
    TrimOrEmptyIdempotent(v.googleMapsUrl);
  }

  lemma TrimOrEmptyIdempotent(s: Option<string>)
    ensures TrimOrEmpty(Some(TrimOrEmpty(s))) == TrimOrEmpty(s)
  {
    if s.Some? {
      TrimIdempotent(s.value);
    }
  }

  /** A URL field validates the same before and after normalisation. */
  lemma UrlFieldKeepsVerdict(s: Option<string>, isUrl: string -> bool, parse: string -> Option<ParsedUrl>)
    ensures OptionalUrlOk(Some(TrimOrEmpty(s)), isUrl) == OptionalUrlOk(s, isUrl)
    ensures MapsUrlOk(Some(TrimOrEmpty(s)), isUrl, parse) == MapsUrlOk(s, isUrl, parse)
  {
    if s.Some? {
      TrimIdempotent(s.value);
    }
  }

  /** Values whose every field gets the same verdict have the same errors. */
  lemma SameVerdicts(v: PlaceValues, w: PlaceValues, isUrl: string -> bool, parse: string -> Option<ParsedUrl>)
    requires forall f :: FieldOk(f, w, isUrl, parse) == FieldOk(f, v, isUrl, parse)
    ensures Errors(w, isUrl, parse) == Errors(v, isUrl, parse)
  {
  }

  /** The payload validates exactly as the values it came from: the schema
      trims the URLs itself and treats a missing URL like an empty one. */
  lemma PayloadKeepsVerdict(v: PlaceValues, isUrl: string -> bool, parse: string -> Option<ParsedUrl>)
    requires v.price.PriceValue?
    ensures Errors(AsValues(ToPayload(v)), isUrl, parse) == Errors(v, isUrl, parse)
  {
    var w := AsValues(ToPayload(v));
    assert w.name == v.name && w.description == v.description;
    assert w.location == v.location && w.timings == v.timings && w.price == v.price;
    assert w.imageUrl == Some(TrimOrEmpty(v.imageUrl));
    assert w.googleMapsUrl == Some(TrimOrEmpty(v.googleMapsUrl));
    UrlFieldKeepsVerdict(v.imageUrl, isUrl, parse);
    UrlFieldKeepsVerdict(v.googleMapsUrl, isUrl, parse);
    forall f ensures FieldOk(f, w, isUrl, parse) == FieldOk(f, v, isUrl, parse) {
      match f
      case Name =>
      case Description =>
      case Location =>
      case Timings =>
      case Price =>
      case ImageUrl =>
      case GoogleMapsUrl =>
    }
    SameVerdicts(v, w, isUrl, parse);
  }
}

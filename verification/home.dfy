/** The home page: the rotating destination card built from `/Places`, its
    one-line description, and the two rotating indices (quotes and
    destinations). */
module Home {
  import opened Js
  import opened Ui

  /** The fields of a `/Places` entry the home page reads. */
  datatype PlaceSummary = PlaceSummary(
    placeId: int, name: Option<string>, imageUrl: Option<string>, description: Option<string>)

  datatype Destination = Destination(id: int, image: string, name: Option<string>, description: string)

  const MaxDestinations := 20

  /** `({ id, image: p.imageUrl || "", name, description: p.description || "" })`. */
  function ToDestination(p: PlaceSummary): (d: Destination)
    ensures d.id == p.placeId && d.name == p.name
    ensures Truthy(p.imageUrl) ==> d.image == p.imageUrl.value
    ensures !Truthy(p.imageUrl) ==> d.image == ""
    ensures Truthy(p.description) ==> d.description == p.description.value
    ensures !Truthy(p.description) ==> d.description == ""
  {
    Destination(p.placeId, OrElse(p.imageUrl, ""), p.name, OrElse(p.description, ""))
  }

  /** `.map(...).filter((d) => d.name)` over a list. */
  function Named(ps: seq<PlaceSummary>): (r: seq<Destination>)
    ensures |r| <= |ps|
    ensures forall i :: 0 <= i < |r| ==> Truthy(r[i].name)
    ensures forall d :: d in r <==> exists p :: p in ps && Truthy(p.name) && d == ToDestination(p)
  {
    if ps == [] then []
    else
      var rest := Named(ps[1..]);
      assert forall p :: p in ps[1..] ==> p in ps;
      assert forall p :: p in ps ==> p == ps[0] || p in ps[1..];
      (if Truthy(ps[0].name) then [ToDestination(ps[0])] else []) + rest
  }

  /** Mapping and filtering works piecewise, so the order of `/Places` is kept. */
  lemma {:induction false} NamedAppend(a: seq<PlaceSummary>, b: seq<PlaceSummary>)
    ensures Named(a + b) == Named(a) + Named(b)
  {
    if a == [] {
      assert a + b == b;
    } else {
      assert (a + b)[0] == a[0] && (a + b)[1..] == a[1..] + b;
      NamedAppend(a[1..], b);
    }
  }

  /** Places without a name are dropped and the rest are kept in order. */
  lemma {:induction false} NamedKeepsAllNamed(ps: seq<PlaceSummary>)
    requires forall i :: 0 <= i < |ps| ==> Truthy(ps[i].name)
    ensures |Named(ps)| == |ps|
    ensures forall i :: 0 <= i < |ps| ==> Named(ps)[i] == ToDestination(ps[i])
  {
    if ps != [] {
      NamedKeepsAllNamed(ps[1..]);
    }
  }

  /** `Array.isArray(data) ? data : []`, then `.slice(0, 20)`, `.map` and `.filter`.
      `None` is a body that is not an array. */
  function Destinations(data: Option<seq<PlaceSummary>>): (r: seq<Destination>)
    ensures data.None? ==> r == []
    ensures data.Some? ==> r == Named(if |data.value| <= MaxDestinations then data.value else data.value[..MaxDestinations])
    ensures |r| <= MaxDestinations
    ensures forall i :: 0 <= i < |r| ==> Truthy(r[i].name)
    ensures data.Some? ==> forall d :: d in r <==>
      exists i :: 0 <= i < |data.value| && i < MaxDestinations && Truthy(data.value[i].name)
                  && d == ToDestination(data.value[i])
  {
    match data
    case None => []
    case Some(list) =>
      var head := if |list| <= MaxDestinations then list else list[..MaxDestinations];
      var r := Named(head);
      assert forall p :: p in head <==> exists i :: 0 <= i < |list| && i < MaxDestinations && p == list[i];
      r
  }

  /** The mount effect: a failed fetch is logged and empties the list. */
  function Load(fetched: Response<Option<seq<PlaceSummary>>>): (r: (seq<Destination>, seq<Effect>))
    ensures fetched.Fail? ==> r == ([], [LogError])
    ensures fetched.Ok? ==> r == (Destinations(fetched.value), [])
  {
    match fetched
    case Ok(data) => (Destinations(data), [])
    case Fail(_) => ([], [LogError])
  }

  /** The first line of `text`: everything before the first line feed. */
  function LineBeforeFeed(text: string): (r: string)
    ensures '\n' !in r
    ensures |r| <= |text| && r == text[..|r|]
    ensures |r| < |text| ==> text[|r|] == '\n'
  {
    if text == [] || text[0] == '\n' then []
    else
      var rest := LineBeforeFeed(text[1..]);
      assert [text[0]] + rest == text[..|rest| + 1];
      [text[0]] + rest
  }

  /** The first field of `text.split(/\r?\n/)`: the separator takes a
      carriage return just before the line feed with it. */
  function FirstSegment(text: string): (r: string)
    ensures '\n' !in r && |r| <= |text| && r == text[..|r|]
    ensures |r| < |text| ==> text[|r|] == '\n' || (|r| + 1 < |text| && text[|r|..|r| + 2] == "\r\n")
  {
    var line := LineBeforeFeed(text);
    if |line| < |text| && line != [] && line[|line| - 1] == '\r' then line[..|line| - 1] else line
  }

  /** `(s || "").split(/\r?\n/)[0].trim()`. */
  function FirstLineOf(s: Option<string>): (r: string)
    ensures !Truthy(s) ==> r == ""
    ensures r == [] || (!IsSpace(r[0]) && !IsSpace(r[|r| - 1]))
  {
    Trim(FirstSegment(OrElse(s, "")))
  }

  /** Text up to a line feed, or up to its end, is the whole first line. */
  lemma LineBeforeFeedPrefix(a: string, rest: string)
    requires '\n' !in a
    requires rest == [] || rest[0] == '\n'
    ensures LineBeforeFeed(a + rest) == a
  {
    assert (a + rest)[..|a|] == a;
  }

  /** Text without a line feed comes back trimmed. */
  lemma OneLine(a: string)
    requires '\n' !in a
    ensures FirstLineOf(Some(a)) == Trim(a)
  {
    LineBeforeFeedPrefix(a, []);
    assert a + [] == a;
  }

  /** A non-empty text is its own `s || ""`. */
  lemma FirstLineOfText(text: string)
    requires text != []
    ensures FirstLineOf(Some(text)) == Trim(FirstSegment(text))
  {
  }

  /** The first segment before a line feed is the text before it, less a
      carriage return that ends it. */
  lemma SegmentBeforeFeed(a: string, b: string)
    requires '\n' !in a
    ensures FirstSegment(a + "\n" + b) == if a != [] && a[|a| - 1] == '\r' then a[..|a| - 1] else a
  {
    assert a + "\n" + b == a + ("\n" + b);
    LineBeforeFeedPrefix(a, "\n" + b);
  }

  /** Before a line feed the first line is what precedes it, trimmed; a
      carriage return there goes with the separator or with the trim. */
  lemma BeforeLineFeed(a: string, b: string)
    requires '\n' !in a
    ensures FirstLineOf(Some(a + "\n" + b)) == Trim(a)
  {
    FirstLineOfText(a + "\n" + b);
    SegmentBeforeFeed(a, b);
    if a != [] && a[|a| - 1] == '\r' {
      TrimDropsLastSpace(a);
    }
  }

  /** The first segment before a carriage return and line feed is the text
      before them. */
  lemma SegmentBeforeCrLf(a: string, b: string)
    requires '\n' !in a
    ensures FirstSegment(a + "\r\n" + b) == a
  {
    var line := a + "\r";
    assert a + "\r\n" + b == line + "\n" + b;
    assert line[..|line| - 1] == a;
    SegmentBeforeFeed(line, b);
  }

  /** Before a carriage return and line feed the first line is what
      precedes them, trimmed. */
  lemma BeforeCrLf(a: string, b: string)
    requires '\n' !in a
    ensures FirstLineOf(Some(a + "\r\n" + b)) == Trim(a)
  {
    FirstLineOfText(a + "\r\n" + b);
    SegmentBeforeCrLf(a, b);
  }

  const QuoteCount := 3

  /** `(prev + 1) % length`, the timer's tick. */
  function Tick(prev: nat, length: nat): (r: nat)
    requires length > 0
    ensures r < length
    ensures prev + 1 < length ==> r == prev + 1
    ensures prev + 1 == length ==> r == 0
  {
    JsRem(prev + 1, length)
  }

  /** The index after `n` ticks from 0. */
  function Ticks(n: nat, length: nat): nat
    requires length > 0
  {
    if n == 0 then 0 else Tick(Ticks(n - 1, length), length)
  }

  /** During the first round the index counts up from 0. */
  lemma {:induction false} TicksCountUp(n: nat, length: nat)
    requires n < length
    ensures Ticks(n, length) == n
  {
    if n > 0 {
      TicksCountUp(n - 1, length);
    }
  }

  /** The index comes back to where it was after `length` ticks, so it
      cycles through every entry in order and never leaves the list. */
  lemma {:induction false} TicksCycle(n: nat, length: nat)
    requires length > 0
    ensures Ticks(n + length, length) == Ticks(n, length)
  {
    if n == 0 {
      TicksCountUp(length - 1, length);
    } else {
      TicksCycle(n - 1, length);
      assert n + length - 1 == (n - 1) + length;
    }
  }

  /** `destinations[destinations.length ? destinationIndex : 0]`: undefined
      when the list is empty or the index is off its end. */
  function Current(ds: seq<Destination>, index: int): (r: Option<Destination>)
    ensures r.Some? <==> 0 <= index < |ds|
    ensures r.Some? ==> r.value == ds[index] && r.value in ds
  {
    if |ds| > 0 && 0 <= index < |ds| then Some(ds[index]) else None
  }

  /** Once loaded, the rotating card always shows a named destination. */
  lemma RotationAlwaysShows(ds: seq<Destination>, n: nat)
    requires forall i :: 0 <= i < |ds| ==> Truthy(ds[i].name)
    requires |ds| > 0
    ensures Current(ds, Ticks(n, |ds|)).Some?
    ensures Truthy(Current(ds, Ticks(n, |ds|)).value.name)
  {
  }

  const NoDescription := "No description available"
  const NoImage := "https://via.placeholder.com/160x160?text=No+Image"

  /** What the card shows: the image or a placeholder, and the first line of
      the description or a fallback text. */
  datatype Card = Card(id: int, image: string, name: Option<string>, blurb: string)

  function CardOf(d: Destination): (c: Card)
    ensures c.id == d.id && c.name == d.name
    ensures c.image == (if d.image == "" then NoImage else d.image)
    ensures c.blurb != ""
    ensures FirstLineOf(Some(d.description)) != "" ==> c.blurb == FirstLineOf(Some(d.description))
    ensures FirstLineOf(Some(d.description)) == "" ==> c.blurb == NoDescription
  {
    var line := FirstLineOf(Some(d.description));
    Card(d.id, if d.image == "" then NoImage else d.image, d.name, if line == "" then NoDescription else line)
  }
}

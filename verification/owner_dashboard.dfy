/** The owner's dashboard: per-place booking count and confirmed revenue,
    gathered by fetching each place's bookings one after the other into a
    map keyed by place id, then totalled over the map. */
module OwnerDashboard {
  import opened Js
  import opened Bookings
  import opened Ui

  /** What `/Places/my` returns about a place, as far as the stats go. */
  datatype OwnedPlace = OwnedPlace(placeId: int, price: int)

  datatype Stat = Stat(totalBookings: int, revenue: int)

  /** `bookings.filter(b => b.paymentConfirmed)`. */
  function Confirmed(bs: seq<Booking>): (r: seq<Booking>)
    ensures forall b :: b in r <==> b in bs && b.paymentConfirmed
    ensures |r| <= |bs|
  {
    if bs == [] then []
    else (if bs[0].paymentConfirmed then [bs[0]] else []) + Confirmed(bs[1..])
  }

  /** Tickets sold on confirmed bookings. */
  function ConfirmedTickets(bs: seq<Booking>): int {
    if bs == [] then 0
    else (if bs[0].paymentConfirmed then bs[0].quantity else 0) + ConfirmedTickets(bs[1..])
  }

  /** `.reduce((sum, b) => sum + p.price * b.quantity, sum)`, left to right. */
  function Fold(sum: int, price: int, bs: seq<Booking>): int
    decreases |bs|
  {
    if bs == [] then sum else Fold(sum + price * bs[0].quantity, price, bs[1..])
  }

  lemma FoldOnPaid(sum: int, price: int, bs: seq<Booking>)
    requires bs != [] && bs[0].paymentConfirmed
    ensures Fold(sum, price, Confirmed(bs)) == Fold(sum + price * bs[0].quantity, price, Confirmed(bs[1..]))
  {
    var r := [bs[0]] + Confirmed(bs[1..]);
    assert r[0] == bs[0] && r[1..] == Confirmed(bs[1..]);
  }

  lemma Distribute(price: int, q: int, t: int)
    ensures price * q + price * t == price * (q + t)
  {
  }

  lemma {:induction false} FoldConfirmed(sum: int, price: int, bs: seq<Booking>)
    ensures Fold(sum, price, Confirmed(bs)) == sum + price * ConfirmedTickets(bs)
    decreases |bs|
  {
    if bs != [] {
      if bs[0].paymentConfirmed {
        FoldOnPaid(sum, price, bs);
        FoldConfirmed(sum + price * bs[0].quantity, price, bs[1..]);
        Distribute(price, bs[0].quantity, ConfirmedTickets(bs[1..]));
      } else {
        assert [] + Confirmed(bs[1..]) == Confirmed(bs[1..]);
        FoldConfirmed(sum, price, bs[1..]);
      }
    }
  }

  /** The fold over the confirmed bookings is the price times the tickets sold. */
  function Revenue(price: int, bs: seq<Booking>): (r: int)
    ensures r == price * ConfirmedTickets(bs)
  {
    FoldConfirmed(0, price, bs);
    Fold(0, price, Confirmed(bs))
  }

  /** One place's stats: every booking counts as a visitor, confirmed or not;
      only confirmed bookings earn. */
  function PlaceStat(p: OwnedPlace, bs: seq<Booking>): (st: Stat)
    ensures st.totalBookings == |bs|
    ensures st.revenue == p.price * ConfirmedTickets(bs)
  {
    Stat(|bs|, Revenue(p.price, bs))
  }

  lemma {:induction false} ConfirmedTicketsAppend(a: seq<Booking>, b: seq<Booking>)
    ensures ConfirmedTickets(a + b) == ConfirmedTickets(a) + ConfirmedTickets(b)
  {
    if a == [] {
      assert a + b == b;
    } else {
      assert (a + b)[0] == a[0] && (a + b)[1..] == a[1..] + b;
      ConfirmedTicketsAppend(a[1..], b);
    }
  }

  /** An unpaid booking adds a visitor and no revenue. */
  lemma UnpaidAddsNoRevenue(p: OwnedPlace, bs: seq<Booking>, b: Booking)
    requires !b.paymentConfirmed
    ensures PlaceStat(p, bs + [b]) == Stat(|bs| + 1, PlaceStat(p, bs).revenue)
  {
    ConfirmedTicketsAppend(bs, [b]);
    assert ConfirmedTickets([b]) == 0;
  }

  /** `setStats(prev => ({ ...prev, [placeId]: st }))`: that place's entry is
      set and every other entry is left as it was. */
  function Merge(stats: map<int, Stat>, pid: int, st: Stat): (r: map<int, Stat>)
    ensures r.Keys == stats.Keys + {pid}
    ensures r[pid] == st
    ensures forall k :: k in stats && k != pid ==> r[k] == stats[k]
  {
    stats[pid := st]
  }

  /** `stats[p.placeId] || { totalBookings: 0, revenue: 0 }`. */
  function StatFor(stats: map<int, Stat>, pid: int): (st: Stat)
    ensures pid !in stats ==> st == Stat(0, 0)
    ensures pid in stats ==> st == stats[pid]
  {
    if pid in stats then stats[pid] else Stat(0, 0)
  }

  /** How many places are processed before the first failed fetch. */
  function Processed(places: seq<OwnedPlace>, answer: int -> Response<seq<Booking>>): (n: nat)
    ensures n <= |places|
    ensures forall i :: 0 <= i < n ==> answer(places[i].placeId).Ok?
    ensures n < |places| ==> answer(places[n].placeId).Fail?
  {
    if places == [] || answer(places[0].placeId).Fail? then 0
    else 1 + Processed(places[1..], answer)
  }

  /** Where the sequential fetch loop stops: the stats gathered and the
      error that stopped it, if any. */
  datatype Outcome = Outcome(stats: map<int, Stat>, failure: Option<ApiError>)

  /** The `for` loop over the places, awaiting one fetch at a time; the first
      failure leaves the loop for the `catch`. `answer` is the backend's reply
      to `/Bookings/place/{id}`. */
  function Collect(acc: map<int, Stat>, places: seq<OwnedPlace>, answer: int -> Response<seq<Booking>>)
    : (r: Outcome)
    ensures acc.Keys <= r.stats.Keys
    ensures forall k :: k in r.stats && k !in acc ==> exists i :: 0 <= i < |places| && places[i].placeId == k
    ensures r.failure.Some? ==> exists i :: 0 <= i < |places| && answer(places[i].placeId) == Fail(r.failure.value)
    decreases |places|
  {
    if places == [] then Outcome(acc, None)
    else
      var p := places[0];
      match answer(p.placeId)
      case Fail(e) => Outcome(acc, Some(e))
      case Ok(bs) => Collect(Merge(acc, p.placeId, PlaceStat(p, bs)), places[1..], answer)
  }

  /** Ids of the places the loop got through. */
  function DoneIds(places: seq<OwnedPlace>, n: nat): set<int>
    requires n <= |places|
  {
    set i | 0 <= i < n :: places[i].placeId
  }

  lemma DoneIdsCons(places: seq<OwnedPlace>, n: nat)
    requires 1 <= n <= |places|
    ensures DoneIds(places, n) == {places[0].placeId} + DoneIds(places[1..], n - 1)
  {
    var tail := places[1..];
    forall k ensures k in DoneIds(places, n) <==> k in {places[0].placeId} + DoneIds(tail, n - 1) {
      if k in DoneIds(places, n) {
        var i :| 0 <= i < n && places[i].placeId == k;
        if i > 0 { assert tail[i - 1] == places[i]; }
      }
      if k in DoneIds(tail, n - 1) {
        var i :| 0 <= i < n - 1 && tail[i].placeId == k;
        assert places[i + 1] == tail[i];
      }
    }
  }

  /** The loop reports the first failed fetch, and only that. */
  lemma {:induction false} CollectFailure(acc: map<int, Stat>, places: seq<OwnedPlace>,
                                          answer: int -> Response<seq<Booking>>)
    ensures var n := Processed(places, answer);
      && (n == |places| ==> Collect(acc, places, answer).failure == None)
      && (n < |places| ==> Collect(acc, places, answer).failure == Some(answer(places[n].placeId).error))
    decreases |places|
  {
    if places != [] && answer(places[0].placeId).Ok? {
      var p := places[0];
      CollectFailure(Merge(acc, p.placeId, PlaceStat(p, answer(p.placeId).value)), places[1..], answer);
    }
  }

  /** The loop adds an entry for exactly the places before the first failure
      and keeps the entries of every other id as they were. */
  lemma {:induction false} CollectKeys(acc: map<int, Stat>, places: seq<OwnedPlace>,
                                       answer: int -> Response<seq<Booking>>)
    ensures var r := Collect(acc, places, answer).stats;
      var done := DoneIds(places, Processed(places, answer));
      && r.Keys == acc.Keys + done
      && (forall k :: k in acc && k !in done ==> r[k] == acc[k])
    decreases |places|
  {
    if places != [] && answer(places[0].placeId).Ok? {
      var p := places[0];
      CollectKeys(Merge(acc, p.placeId, PlaceStat(p, answer(p.placeId).value)), places[1..], answer);
      DoneIdsCons(places, Processed(places, answer));
    }
  }

  /** Each place fetched holds its own stats, unless a later place with the
      same id overwrote them. */
  lemma {:induction false} CollectFetched(acc: map<int, Stat>, places: seq<OwnedPlace>,
                                          answer: int -> Response<seq<Booking>>, i: nat)
    requires i < Processed(places, answer)
    requires forall j :: i < j < Processed(places, answer) ==> places[j].placeId != places[i].placeId
    ensures places[i].placeId in Collect(acc, places, answer).stats
    ensures Collect(acc, places, answer).stats[places[i].placeId]
      == PlaceStat(places[i], answer(places[i].placeId).value)
    decreases |places|
  {
    var n := Processed(places, answer);
    var p := places[0];
    var acc' := Merge(acc, p.placeId, PlaceStat(p, answer(p.placeId).value));
    var tail := places[1..];
    if i == 0 {
      CollectKeys(acc', tail, answer);
      DoneIdsCons(places, n);
    } else {
      assert places[i] == tail[i - 1];
      forall j | i - 1 < j < n - 1 ensures tail[j].placeId != tail[i - 1].placeId {
        assert tail[j] == places[j + 1];
      }
      CollectFetched(acc', tail, answer, i - 1);
    }
  }

  /** What the dashboard ends up with: the places it lists, the stats map,
      and the effects of the `catch`. */
  datatype View = View(places: seq<OwnedPlace>, stats: map<int, Stat>, effects: seq<Effect>)

  /** The mount effect: fetch `/Places/my`, list them at once, then gather
      the stats; any failure is handled by the session guard or logged. */
  function Mount(mine: Response<seq<OwnedPlace>>, answer: int -> Response<seq<Booking>>): (v: View)
    ensures mine.Fail? ==> v.places == [] && v.stats == map[]
    ensures mine.Ok? ==> v.places == mine.value && v.stats == Collect(map[], mine.value, answer).stats
    ensures Logout in v.effects <==>
      (mine.Fail? && Unauthorized(mine.error)) ||
      (mine.Ok? && Collect(map[], mine.value, answer).failure.Some?
         && Unauthorized(Collect(map[], mine.value, answer).failure.value))
    ensures Logout in v.effects ==> v.effects == [Logout, Navigate(LoginPath)]
    ensures (mine.Ok? && Collect(map[], mine.value, answer).failure.None?) ==> v.effects == []
  {
    match mine
    case Fail(e) => View([], map[], Guard(e, [LogError]))
    case Ok(data) =>
      var o := Collect(map[], data, answer);
      View(data, o.stats, if o.failure.Some? then Guard(o.failure.value, [LogError]) else [])
  }

  function Visits(s: Stat): int { s.totalBookings }
  function Earned(s: Stat): int { s.revenue }

  /** `Object.values(stats).reduce((sum, s) => sum + proj(s), 0)`, with the
      entries taken in whatever order. */
  ghost function SumBy(m: map<int, Stat>, proj: Stat -> int): int
    decreases |m.Keys|
  {
    if exists k :: k in m then
      var k :| k in m;
      proj(m[k]) + SumBy(m - {k}, proj)
    else 0
  }

  /** Any entry can be taken first: the sum does not depend on the order. */
  lemma {:induction false} SumByRemove(m: map<int, Stat>, proj: Stat -> int, k: int)
    requires k in m
    ensures SumBy(m, proj) == proj(m[k]) + SumBy(m - {k}, proj)
    decreases |m.Keys|
  {
    var k' :| k' in m && SumBy(m, proj) == proj(m[k']) + SumBy(m - {k'}, proj);
    if k' != k {
      assert (m - {k'}).Keys < m.Keys;
      assert (m - {k}).Keys < m.Keys;
      SumByRemove(m - {k'}, proj, k);
      SumByRemove(m - {k}, proj, k');
      assert m - {k'} - {k} == m - {k} - {k'};
    }
  }

  /** Merging one place's stats replaces its old contribution to the totals. */
  lemma MergeTotals(m: map<int, Stat>, pid: int, st: Stat, proj: Stat -> int)
    ensures SumBy(Merge(m, pid, st), proj) == proj(st) + SumBy(m - {pid}, proj)
  {
    var r := Merge(m, pid, st);
    SumByRemove(r, proj, pid);
    assert r - {pid} == m - {pid};
  }

  /** `totalVisitors` and `totalRevenue`, visiting the entries in an
      arbitrary order. */
  method Totals(stats: map<int, Stat>) returns (visitors: int, revenue: int)
    ensures visitors == SumBy(stats, Visits)
    ensures revenue == SumBy(stats, Earned)
  {
    visitors, revenue := 0, 0;
    var rest := stats;
    while exists k :: k in rest
      invariant visitors + SumBy(rest, Visits) == SumBy(stats, Visits)
      invariant revenue + SumBy(rest, Earned) == SumBy(stats, Earned)
      decreases |rest.Keys|
    {
      var k :| k in rest;
      SumByRemove(rest, Visits, k);
      SumByRemove(rest, Earned, k);
      visitors := visitors + rest[k].totalBookings;
      revenue := revenue + rest[k].revenue;
      assert (rest - {k}).Keys < rest.Keys;
      rest := rest - {k};
    }
  }

  /** No place id appears twice. */
  predicate DistinctIds(places: seq<OwnedPlace>) {
    forall i, j :: 0 <= i < j < |places| ==> places[i].placeId != places[j].placeId
  }

  /** Reordering the places keeps the set of ids. */
  lemma SameIds(places: seq<OwnedPlace>, shuffled: seq<OwnedPlace>)
    requires multiset(places) == multiset(shuffled)
    ensures DoneIds(places, |places|) == DoneIds(shuffled, |shuffled|)
  {
    forall k ensures k in DoneIds(places, |places|) ==> k in DoneIds(shuffled, |shuffled|) {
      if k in DoneIds(places, |places|) {
        var i :| 0 <= i < |places| && places[i].placeId == k;
        assert places[i] in multiset(shuffled);
        var j :| 0 <= j < |shuffled| && shuffled[j] == places[i];
      }
    }
    forall k ensures k in DoneIds(shuffled, |shuffled|) ==> k in DoneIds(places, |places|) {
      if k in DoneIds(shuffled, |shuffled|) {
        var j :| 0 <= j < |shuffled| && shuffled[j].placeId == k;
        assert shuffled[j] in multiset(places);
        var i :| 0 <= i < |places| && places[i] == shuffled[j];
      }
    }
  }

  /** With distinct ids and every fetch answered, the place at index `i`
      holds its own stats at the end. */
  lemma FetchedAtEnd(places: seq<OwnedPlace>, answer: int -> Response<seq<Booking>>, i: nat)
    requires DistinctIds(places)
    requires forall p :: p in places ==> answer(p.placeId).Ok?
    requires i < |places|
    ensures places[i].placeId in Collect(map[], places, answer).stats
    ensures Collect(map[], places, answer).stats[places[i].placeId]
      == PlaceStat(places[i], answer(places[i].placeId).value)
  {
    AllProcessed(places, answer);
    CollectFetched(map[], places, answer, i);
  }

  /** Every fetch answered: the keys are the place ids, in whatever order. */
  lemma SameKeys(places: seq<OwnedPlace>, shuffled: seq<OwnedPlace>,
                 answer: int -> Response<seq<Booking>>)
    requires multiset(places) == multiset(shuffled)
    requires forall p :: p in places ==> answer(p.placeId).Ok?
    ensures Collect(map[], places, answer).stats.Keys == Collect(map[], shuffled, answer).stats.Keys
  {
    forall p | p in shuffled ensures answer(p.placeId).Ok? {
      assert p in multiset(shuffled);
    }
    AllProcessed(places, answer);
    AllProcessed(shuffled, answer);
    CollectKeys(map[], places, answer);
    CollectKeys(map[], shuffled, answer);
    SameIds(places, shuffled);
  }

  /** When every fetch succeeds and the ids are distinct, the stats map is
      determined by the set of places: the order of the fetches is irrelevant. */
  lemma FetchOrderIrrelevant(places: seq<OwnedPlace>, shuffled: seq<OwnedPlace>,
                             answer: int -> Response<seq<Booking>>)
    requires multiset(places) == multiset(shuffled)
    requires DistinctIds(places) && DistinctIds(shuffled)
    requires forall p :: p in places ==> answer(p.placeId).Ok?
    ensures Collect(map[], places, answer).stats == Collect(map[], shuffled, answer).stats
  {
    var a := Collect(map[], places, answer).stats;
    var b := Collect(map[], shuffled, answer).stats;
    SameKeys(places, shuffled, answer);
    AllProcessed(places, answer);
    CollectKeys(map[], places, answer);
    forall k | k in a ensures a[k] == b[k] {
      SameEntry(places, shuffled, answer, k);
    }
  }

  lemma SameEntry(places: seq<OwnedPlace>, shuffled: seq<OwnedPlace>,
                  answer: int -> Response<seq<Booking>>, k: int)
    requires multiset(places) == multiset(shuffled)
    requires DistinctIds(places) && DistinctIds(shuffled)
    requires forall p :: p in places ==> answer(p.placeId).Ok?
    requires k in DoneIds(places, |places|)
    ensures k in Collect(map[], places, answer).stats && k in Collect(map[], shuffled, answer).stats
    ensures Collect(map[], places, answer).stats[k] == Collect(map[], shuffled, answer).stats[k]
  {
    var i :| 0 <= i < |places| && places[i].placeId == k;
    assert places[i] in multiset(shuffled);
    var j :| 0 <= j < |shuffled| && shuffled[j] == places[i];
    forall p | p in shuffled ensures answer(p.placeId).Ok? {
      assert p in multiset(shuffled);
    }
    FetchedAtEnd(places, answer, i);
    FetchedAtEnd(shuffled, answer, j);
  }

  lemma AllProcessed(places: seq<OwnedPlace>, answer: int -> Response<seq<Booking>>)
    requires forall p :: p in places ==> answer(p.placeId).Ok?
    ensures Processed(places, answer) == |places|
  {
  }

  /** Two places: one confirmed booking of one ticket at 200, one unpaid
      booking of three tickets at 100. Two visitors, 200 earned. */
  method TwoPlaceExample() returns (visitors: int, revenue: int)
    ensures visitors == 2 && revenue == 200
  {
    var paid := Booking(1, 1, None, 0, 1, true, None);
    var unpaid := Booking(2, 2, None, 0, 3, false, None);
    var s1 := PlaceStat(OwnedPlace(1, 200), [paid]);
    var s2 := PlaceStat(OwnedPlace(2, 100), [unpaid]);
    assert ConfirmedTickets([paid]) == 1;
    assert ConfirmedTickets([unpaid]) == 0;
    var stats := Merge(Merge(map[], 1, s1), 2, s2);
    assert s1 == Stat(1, 200) && s2 == Stat(1, 0);
    visitors, revenue := Totals(stats);
    SumByRemove(stats, Visits, 1);
    SumByRemove(stats, Earned, 1);
    var rest := stats - {1};
    assert rest == map[2 := s2];
    SumByRemove(rest, Visits, 2);
    SumByRemove(rest, Earned, 2);
    assert rest - {2} == map[];
  }
}

/** A place's pictures: the ascending `sortOrder` ordering both the place
    page and the owner's edit form apply, the gallery URL list with its
    legacy fallback, the carousel index, and the removal of one image. */
module Images {
  import opened Js
  import opened Ui

  datatype PlaceImage = PlaceImage(placeImageId: int, url: string, sortOrder: Option<int>)

  /** `a.sortOrder ?? 0`. */
  function OrderKey(img: PlaceImage): int {
    Coalesce(img.sortOrder, 0)
  }

  ghost predicate Sorted(s: seq<PlaceImage>) {
    forall i, j :: 0 <= i < j < |s| ==> OrderKey(s[i]) <= OrderKey(s[j])
  }

  /** The images carrying one sort key, in their order in `s`. */
  function WithKey(s: seq<PlaceImage>, k: int): seq<PlaceImage> {
    if s == [] then []
    else (if OrderKey(s[0]) == k then [s[0]] else []) + WithKey(s[1..], k)
  }

  lemma WithKeyCons(x: PlaceImage, s: seq<PlaceImage>, k: int)
    ensures WithKey([x] + s, k) == (if OrderKey(x) == k then [x] else []) + WithKey(s, k)
  {
    assert ([x] + s)[1..] == s;
  }

  /** Puts `x` before every image whose key is not smaller than its own. */
  function Insert(x: PlaceImage, s: seq<PlaceImage>): (r: seq<PlaceImage>)
    ensures multiset(r) == multiset(s) + multiset{x}
  {
    if s == [] || OrderKey(x) <= OrderKey(s[0]) then [x] + s
    else
      assert s == [s[0]] + s[1..];
      [s[0]] + Insert(x, s[1..])
  }

  /** Inserting into an ascending list keeps it ascending. */
  lemma {:induction false} InsertSorted(x: PlaceImage, s: seq<PlaceImage>)
    requires Sorted(s)
    ensures Sorted(Insert(x, s))
  {
    if s == [] || OrderKey(x) <= OrderKey(s[0]) {
    } else {
      var rest := Insert(x, s[1..]);
      InsertSorted(x, s[1..]);
      forall j | 0 <= j < |rest|
        ensures OrderKey(s[0]) <= OrderKey(rest[j])
      {
        assert rest[j] in multiset(rest);
        assert rest[j] == x || rest[j] in multiset(s[1..]);
      }
      assert Insert(x, s) == [s[0]] + rest;
    }
  }

  /** Inserting `x` places it ahead of the images with its own key. */
  lemma {:induction false} InsertWithKey(x: PlaceImage, s: seq<PlaceImage>, k: int)
    ensures WithKey(Insert(x, s), k) == (if OrderKey(x) == k then [x] else []) + WithKey(s, k)
  {
    if s == [] || OrderKey(x) <= OrderKey(s[0]) {
      WithKeyCons(x, s, k);
    } else {
      InsertWithKey(x, s[1..], k);
      WithKeyCons(s[0], Insert(x, s[1..]), k);
      WithKeyCons(s[0], s[1..], k);
      assert [s[0]] + s[1..] == s;
    }
  }

  /** `images.sort((a, b) => (a.sortOrder ?? 0) - (b.sortOrder ?? 0))`, a
      stable sort: the result is ascending by key, a permutation of the
      input, and images with equal keys keep their relative order. */
  function SortByOrder(s: seq<PlaceImage>): (r: seq<PlaceImage>)
    ensures Sorted(r)
    ensures multiset(r) == multiset(s)
    ensures forall k :: WithKey(r, k) == WithKey(s, k)
  {
    if s == [] then []
    else
      var rest := SortByOrder(s[1..]);
      var r := Insert(s[0], rest);
      InsertSorted(s[0], rest);
      assert s == [s[0]] + s[1..];
      assert forall k :: WithKey(r, k) == WithKey(s, k) by {
        forall k ensures WithKey(r, k) == WithKey(s, k) {
          InsertWithKey(s[0], rest, k);
          WithKeyCons(s[0], s[1..], k);
        }
      }
      r
  }

  /** `(data.images || [])` sorted, as the place page stores it; the owner
      form does the same with `p.images ?? []`, which is equal for lists. */
  function FetchedImages(images: Option<seq<PlaceImage>>): (r: seq<PlaceImage>)
    ensures Sorted(r)
    ensures images.None? ==> r == []
    ensures images.Some? ==> multiset(r) == multiset(images.value)
  {
    SortByOrder(Coalesce(images, []))
  }

  /** The carousel's picture list: the URLs of the images when there are
      any, otherwise the legacy `imageUrl` alone if it is set, otherwise none. */
  function GalleryUrls(images: seq<PlaceImage>, imageUrl: Option<string>): (r: seq<string>)
    ensures |images| > 0 ==> |r| == |images| && forall i :: 0 <= i < |r| ==> r[i] == images[i].url
    ensures |images| == 0 && Truthy(imageUrl) ==> r == [imageUrl.value]
    ensures |images| == 0 && !Truthy(imageUrl) ==> r == []
  {
    if |images| > 0 then seq(|images|, i requires 0 <= i < |images| => images[i].url)
    else if Truthy(imageUrl) then [imageUrl.value]
    else []
  }

  /** `Math.max(images.length || 1, 1)`: the modulus of the carousel. */
  function Slots(n: nat): (m: nat)
    ensures m >= 1
    ensures n > 0 ==> m == n
  {
    Max(if n == 0 then 1 else n, 1)
  }

  /** The carousel's "next" button. */
  function Next(i: int, n: nat): (r: int)
    ensures 0 <= i < Slots(n) ==> 0 <= r < Slots(n)
    ensures 0 <= i < Slots(n) - 1 ==> r == i + 1
    ensures i == Slots(n) - 1 ==> r == 0
  {
    JsRem(i + 1, Slots(n))
  }

  /** The carousel's "previous" button. */
  function Prev(i: int, n: nat): (r: int)
    ensures 0 <= i < Slots(n) ==> 0 <= r < Slots(n)
    ensures 0 < i < Slots(n) ==> r == i - 1
    ensures i == 0 ==> r == Slots(n) - 1
  {
    JsRem(i - 1 + Slots(n), Slots(n))
  }

  /** Previous undoes next and next undoes previous. */
  lemma PrevNextInverse(i: int, n: nat)
    requires 0 <= i < Slots(n)
    ensures Prev(Next(i, n), n) == i
    ensures Next(Prev(i, n), n) == i
  {
  }

  /** A run of clicks on the arrows (true: next, false: previous). */
  function Clicks(i: int, n: nat, clicks: seq<bool>): int
    decreases |clicks|
  {
    if clicks == [] then i
    else Clicks(if clicks[0] then Next(i, n) else Prev(i, n), n, clicks[1..])
  }

  /** From any index on the picture list, clicking never leaves it. */
  lemma {:induction false} ClicksStayInRange(i: int, n: nat, clicks: seq<bool>)
    requires 0 <= i < Slots(n)
    ensures 0 <= Clicks(i, n, clicks) < Slots(n)
    ensures n > 0 ==> Clicks(i, n, clicks) < n
    decreases |clicks|
  {
    if clicks != [] {
      ClicksStayInRange(if clicks[0] then Next(i, n) else Prev(i, n), n, clicks[1..]);
    }
  }

  /** `arr.filter((i) => i.placeImageId !== imgId)`. */
  function Without(arr: seq<PlaceImage>, imgId: int): (r: seq<PlaceImage>)
    ensures forall x :: x in r <==> x in arr && x.placeImageId != imgId
    ensures |r| <= |arr|
  {
    if arr == [] then []
    else (if arr[0].placeImageId != imgId then [arr[0]] else []) + Without(arr[1..], imgId)
  }

  /** Removal works piecewise, so the survivors keep their order. */
  lemma {:induction false} WithoutDistributes(a: seq<PlaceImage>, b: seq<PlaceImage>, imgId: int)
    ensures Without(a + b, imgId) == Without(a, imgId) + Without(b, imgId)
  {
    if a == [] {
      assert a + b == b;
    } else {
      assert (a + b)[1..] == a[1..] + b;
      WithoutDistributes(a[1..], b, imgId);
    }
  }

  /** Nothing is removed when no image has the id. */
  lemma {:induction false} WithoutAbsent(arr: seq<PlaceImage>, imgId: int)
    requires forall x :: x in arr ==> x.placeImageId != imgId
    ensures Without(arr, imgId) == arr
  {
    if arr != [] {
      WithoutAbsent(arr[1..], imgId);
    }
  }

  /** `onRemoveExisting`: ask, then delete on the server, then drop the
      image from the list; a refused confirmation does nothing and a failed
      delete leaves the list as it was. */
  function RemoveExisting(arr: seq<PlaceImage>, imgId: int, confirmed: bool, deleted: Response<()>)
    : (r: (seq<PlaceImage>, seq<Effect>))
    ensures !confirmed ==> r == (arr, [])
    ensures confirmed ==> |r.1| == 2 && r.1[0] == DeleteImage(imgId)
    ensures confirmed && deleted.Ok? ==> r.0 == Without(arr, imgId) && r.1[1] == ToastSuccess("Image deleted.")
    ensures deleted.Fail? ==> r.0 == arr
    ensures confirmed && deleted.Fail? ==> r.1[1] == ToastError(MessageOr(deleted.error, "Delete failed"))
  {
    if !confirmed then (arr, [])
    else match deleted
      case Ok(_) => (Without(arr, imgId), [DeleteImage(imgId), ToastSuccess("Image deleted.")])
      case Fail(e) => (arr, [DeleteImage(imgId), ToastError(MessageOr(e, "Delete failed"))])
  }
}

/**
 * Object and collection responses. The response classes themselves are not
 * part of this model; what is modelled is the contract tests/tests_response.py
 * pins on them (a single object served as 200 or as a 410 tombstone, an
 * OrderedCollection index and its OrderedCollectionPage pages of fifty),
 * and the page generator `create_remote_collection` of the federation
 * tests, which serves a collection in the same shape.
 *
 * Both follow section 5.2.5 (OrderedCollectionPage) of ActivityStreams 2.0
 * Core: pages numbered from 1, `first` on the index, `prev`/`next` links
 * between pages, and `partOf` back to the index.
 */
module Collections {
  import opened Wrappers
  import opened Text
  import opened Dicts
  import opened Json

  const CONTEXT_URL := "https://www.w3.org/ns/activitystreams"

  const PAGE_LENGTH := 50

  // ------------------------------------------------------------ tombstones

  /** TombstoneException(**fields).activity: the keyword fields with `type` Tombstone. */
  function TombstoneActivity(fields: Dict<Json>): (a: Dict<Json>)
    ensures Lookup(a, "type") == Some(JStr("Tombstone"))
  {
    LookupPut(fields, "type", JStr("Tombstone"), "type");
    Put(fields, "type", JStr("Tombstone"))
  }

  /** Every keyword field other than `type` is kept as given. */
  lemma TombstoneFields(fields: Dict<Json>, k: string)
    requires k != "type"
    ensures Lookup(TombstoneActivity(fields), k) == Lookup(fields, k)
  {
    LookupPut(fields, "type", JStr("Tombstone"), k);
  }

  /** What reading an item's `activity` yields: a document, or the TombstoneException it raises. */
  datatype Rendering = Live(activity: Dict<Json>) | Tombstoned(fields: Dict<Json>)

  /** The document an item is rendered as: a tombstoned item becomes its tombstone. */
  function ItemForm(r: Rendering): Dict<Json>
  {
    match r
    case Live(a) => a
    case Tombstoned(f) => TombstoneActivity(f)
  }

  /** An HTTP response: its status and its JSON body, None for an empty body. */
  datatype Response = Response(status: int, content: Option<Json>)

  /** ActivityObjectResponse(item=...) */
  function ObjectResponse(item: Option<Rendering>): (r: Response)
    ensures item.None? ==> r.content.None?
    ensures item.Some? ==> r.content == Some(JObj(ItemForm(item.value)))
    ensures r.status == 410 <==> item.Some? && item.value.Tombstoned?
    ensures r.status != 410 ==> r.status == 200
  {
    match item
    case None => Response(200, None)
    case Some(Live(a)) => Response(200, Some(JObj(a)))
    case Some(Tombstoned(f)) => Response(410, Some(JObj(TombstoneActivity(f))))
  }

  // ------------------------------------------------------------- paging

  function Min(a: nat, b: nat): nat { if a <= b then a else b }

  /** The items of page p (numbered from 1) with `size` to a page; Python slices clamp. */
  function Slice<T>(items: seq<T>, p: nat, size: nat): (s: seq<T>)
    requires p >= 1
    ensures |s| <= size
  {
    items[Min((p - 1) * size, |items|)..Min(p * size, |items|)]
  }

  /** Pages 1 to k, one after another. */
  function Pages<T>(items: seq<T>, size: nat, k: nat): seq<T>
  {
    if k == 0 then [] else Pages(items, size, k - 1) + Slice(items, k, size)
  }

  /** Pages 1 to k hold exactly the first k * size items. */
  lemma {:induction false} PagesPrefix<T>(items: seq<T>, size: nat, k: nat)
    ensures Pages(items, size, k) == items[..Min(k * size, |items|)]
  {
    if k > 0 {
      PagesPrefix(items, size, k - 1);
      var lo := Min((k - 1) * size, |items|);
      var hi := Min(k * size, |items|);
      assert (k - 1) * size <= k * size;
      assert items[..lo] + items[lo..hi] == items[..hi];
    }
  }

  /** ceil(n / size): the number of pages n items fill. */
  function PageCount(n: nat, size: nat): nat
    requires size > 0
  {
    (n + size - 1) / size
  }

  /** The page count is the least k with k * size >= n. */
  lemma PageCountLeast(n: nat, size: nat)
    requires size > 0
    ensures PageCount(n, size) * size >= n
    ensures PageCount(n, size) > 0 ==> (PageCount(n, size) - 1) * size < n
  {
    var k := PageCount(n, size);
    var r := (n + size - 1) % size;
    assert n + size - 1 == k * size + r;
    assert (k - 1) * size == k * size - size;
  }

  /** Concatenating every page gives back the items, in order. */
  lemma AllPages<T>(items: seq<T>, size: nat)
    requires size > 0
    ensures Pages(items, size, PageCount(|items|, size)) == items
  {
    PageCountLeast(|items|, size);
    PagesPrefix(items, size, PageCount(|items|, size));
  }

  /** Every page but the last is full, and the last one is not empty. */
  lemma PageSizes<T>(items: seq<T>, size: nat, p: nat)
    requires size > 0 && 1 <= p <= PageCount(|items|, size)
    ensures p < PageCount(|items|, size) ==> |Slice(items, p, size)| == size
    ensures |Slice(items, p, size)| > 0
  {
    var k := PageCount(|items|, size);
    PageCountLeast(|items|, size);
    assert (p - 1) * size <= (k - 1) * size;
    if p < k {
      assert p * size <= (k - 1) * size;
      assert p * size - (p - 1) * size == size;
    }
  }

  lemma {:induction false} MulAtLeast(x: nat, b: nat)
    requires x >= 1
    ensures x * b >= b
  {
    if x > 1 {
      MulAtLeast(x - 1, b);
      assert x * b == (x - 1) * b + b;
    }
  }

  /** The quotient is the only q with a == q * b + r and 0 <= r < b. */
  lemma DivUnique(a: int, b: int, q: int, r: int)
    requires b > 0 && a == q * b + r && 0 <= r < b
    ensures a / b == q
  {
    var q', r' := a / b, a % b;
    assert a == q' * b + r';
    assert (q - q') * b == q * b - q' * b;
    if q > q' {
      MulAtLeast(q - q', b);
      assert false;
    } else if q < q' {
      assert (q' - q) * b == q' * b - q * b;
      MulAtLeast(q' - q, b);
      assert false;
    }
  }

  // -------------------------------------------------------- documents

  function PageUrl(base: string, p: nat): string
  {
    base + "?page=" + NatToString(p)
  }

  /** The members of an index document before `first`. */
  function IndexFields(id: string, total: nat): Dict<Json>
  {
    [("@context", JStr(CONTEXT_URL)), ("id", JStr(id)), ("type", JStr("OrderedCollection")), ("totalItems", JInt(total))]
  }

  /** The members every page document has, before its links. */
  function PageFields(id: string, total: nat, partOf: string, ordered: seq<Json>): Dict<Json>
  {
    [("@context", JStr(CONTEXT_URL)), ("id", JStr(id)), ("type", JStr("OrderedCollectionPage")),
     ("totalItems", JInt(total)), ("partOf", JStr(partOf)), ("orderedItems", JArr(ordered))]
  }

  /** `doc['prev'] = ...` and then `doc['next'] = ...`, each only when there is such a page. */
  function Linked(doc: Dict<Json>, prev: Option<string>, next: Option<string>): Dict<Json>
  {
    var withPrev := if prev.Some? then Put(doc, "prev", JStr(prev.value)) else doc;
    if next.Some? then Put(withPrev, "next", JStr(next.value)) else withPrev
  }

  lemma IndexFieldsShape(id: string, total: nat)
    ensures var d := IndexFields(id, total);
      && Distinct(d)
      && Lookup(d, "type") == Some(JStr("OrderedCollection"))
      && Lookup(d, "id") == Some(JStr(id))
      && Lookup(d, "totalItems") == Some(JInt(total))
      && !HasKey(d, "first")
  {
    var d := IndexFields(id, total);
    DistinctFromIndices(d);
    LookupIndex(d, 1);
    LookupIndex(d, 2);
    LookupIndex(d, 3);
    NotKeyFromIndices(d, "first");
  }

  lemma PageFieldsDistinct(id: string, total: nat, partOf: string, ordered: seq<Json>)
    ensures Distinct(PageFields(id, total, partOf, ordered))
  {
    DistinctFromIndices(PageFields(id, total, partOf, ordered));
  }

  lemma PageFieldsShape(id: string, total: nat, partOf: string, ordered: seq<Json>)
    ensures var d := PageFields(id, total, partOf, ordered);
      && Lookup(d, "type") == Some(JStr("OrderedCollectionPage"))
      && Lookup(d, "id") == Some(JStr(id))
      && Lookup(d, "totalItems") == Some(JInt(total))
      && Lookup(d, "partOf") == Some(JStr(partOf))
      && Lookup(d, "orderedItems") == Some(JArr(ordered))
      && !HasKey(d, "prev") && !HasKey(d, "next")
  {
    var d := PageFields(id, total, partOf, ordered);
    PageFieldsDistinct(id, total, partOf, ordered);
    LookupIndex(d, 1);
    LookupIndex(d, 2);
    LookupIndex(d, 3);
    LookupIndex(d, 4);
    LookupIndex(d, 5);
    NotKeyFromIndices(d, "prev");
    NotKeyFromIndices(d, "next");
  }

  /** Links are added under their own names and leave every other member alone. */
  lemma LinkedLookup(doc: Dict<Json>, prev: Option<string>, next: Option<string>, k: string)
    requires !HasKey(doc, "prev") && !HasKey(doc, "next")
    ensures Lookup(Linked(doc, prev, next), k) ==
      if k == "next" then (if next.Some? then Some(JStr(next.value)) else None)
      else if k == "prev" then (if prev.Some? then Some(JStr(prev.value)) else None)
      else Lookup(doc, k)
  {
    var withPrev := if prev.Some? then Put(doc, "prev", JStr(prev.value)) else doc;
    if prev.Some? {
      LookupPut(doc, "prev", JStr(prev.value), k);
    }
    if next.Some? {
      LookupPut(withPrev, "next", JStr(next.value), k);
    }
  }

  lemma LinkedDistinct(doc: Dict<Json>, prev: Option<string>, next: Option<string>)
    requires Distinct(doc)
    ensures Distinct(Linked(doc, prev, next))
  {
    var withPrev := if prev.Some? then Put(doc, "prev", JStr(prev.value)) else doc;
    if prev.Some? {
      PutDistinct(doc, "prev", JStr(prev.value));
    }
    if next.Some? {
      PutDistinct(withPrev, "next", JStr(next.value));
    }
  }

  // ---------------------------------------------------- CollectionResponse

  /** The index document of a collection of n items at `base`. */
  function IndexDoc(base: string, n: nat): Dict<Json>
  {
    if n > 0 then Put(IndexFields(base, n), "first", JStr(PageUrl(base, 1))) else IndexFields(base, n)
  }

  /** The rendered items, in order. */
  function Forms(rs: seq<Rendering>): seq<Json>
  {
    seq(|rs|, i requires 0 <= i < |rs| => JObj(ItemForm(rs[i])))
  }

  /** The document of page p. */
  function PageDoc(base: string, items: seq<Rendering>, p: nat): Dict<Json>
    requires p >= 1
  {
    Linked(PageFields(PageUrl(base, p), |items|, base, Forms(Slice(items, p, PAGE_LENGTH))),
           if p != 1 then Some(PageUrl(base, p - 1)) else None,
           if p < PageCount(|items|, PAGE_LENGTH) then Some(PageUrl(base, p + 1)) else None)
  }

  /** The index: its type, id and count, and `first` exactly when there is an item. */
  lemma IndexDocShape(base: string, n: nat)
    ensures Distinct(IndexDoc(base, n))
    ensures Lookup(IndexDoc(base, n), "type") == Some(JStr("OrderedCollection"))
    ensures Lookup(IndexDoc(base, n), "id") == Some(JStr(base))
    ensures Lookup(IndexDoc(base, n), "totalItems") == Some(JInt(n))
    ensures HasKey(IndexDoc(base, n), "first") <==> n > 0
    ensures n > 0 ==> Lookup(IndexDoc(base, n), "first") == Some(JStr(PageUrl(base, 1)))
  {
    var d := IndexFields(base, n);
    IndexFieldsShape(base, n);
    if n > 0 {
      var first := JStr(PageUrl(base, 1));
      PutDistinct(d, "first", first);
      LookupPut(d, "first", first, "type");
      LookupPut(d, "first", first, "id");
      LookupPut(d, "first", first, "totalItems");
      LookupPut(d, "first", first, "first");
    }
  }

  /**
   * A page: its type, its own url, the index url, the full count whatever
   * the page, its items rendered in order, `prev` on every page but the
   * first, and `next` on every page before the last.
   */
  lemma PageDocShape(base: string, items: seq<Rendering>, p: nat)
    requires p >= 1
    ensures var d := PageDoc(base, items, p);
      && Distinct(d)
      && Lookup(d, "type") == Some(JStr("OrderedCollectionPage"))
      && Lookup(d, "id") == Some(JStr(PageUrl(base, p)))
      && Lookup(d, "partOf") == Some(JStr(base))
      && Lookup(d, "totalItems") == Some(JInt(|items|))
      && Lookup(d, "orderedItems") == Some(JArr(Forms(Slice(items, p, PAGE_LENGTH))))
      && (HasKey(d, "prev") <==> p != 1)
      && (p != 1 ==> Lookup(d, "prev") == Some(JStr(PageUrl(base, p - 1))))
      && (HasKey(d, "next") <==> p < PageCount(|items|, PAGE_LENGTH))
      && (p < PageCount(|items|, PAGE_LENGTH) ==> Lookup(d, "next") == Some(JStr(PageUrl(base, p + 1))))
  {
    var ordered := Forms(Slice(items, p, PAGE_LENGTH));
    var fields := PageFields(PageUrl(base, p), |items|, base, ordered);
    var prev := if p != 1 then Some(PageUrl(base, p - 1)) else None;
    var next := if p < PageCount(|items|, PAGE_LENGTH) then Some(PageUrl(base, p + 1)) else None;
    PageFieldsShape(PageUrl(base, p), |items|, base, ordered);
    PageFieldsDistinct(PageUrl(base, p), |items|, base, ordered);
    LinkedDistinct(fields, prev, next);
    LinkedLookup(fields, prev, next, "type");
    LinkedLookup(fields, prev, next, "id");
    LinkedLookup(fields, prev, next, "partOf");
    LinkedLookup(fields, prev, next, "totalItems");
    LinkedLookup(fields, prev, next, "orderedItems");
    LinkedLookup(fields, prev, next, "prev");
    LinkedLookup(fields, prev, next, "next");
  }

  /** Python's int(a / b) for a positive b: true division truncated toward zero. */
  function TruncDiv(a: int, b: nat): int
    requires b > 0
  {
    if a >= 0 then a / b else -((-a) / b)
  }

  /** The `next` test of check_collection_page is `p < ceil(n / size)`, including for n = 0. */
  lemma NextTest(n: nat, p: nat, size: nat)
    requires p >= 1 && size > 0
    ensures (p - 1) < TruncDiv(n - 1, size) <==> p < PageCount(n, size)
  {
    if n == 0 {
      if size > 1 {
        DivUnique(1, size, 0, 1);
      }
      DivUnique(size - 1, size, 0, size - 1);
    } else {
      var q := (n - 1) / size;
      var r := (n - 1) % size;
      DivUnique(n + size - 1, size, q + 1, r);
    }
  }

  /**
   * On the pages 1..ceil(n/50) that test_collection_response_spills walks,
   * `next` is absent exactly on the last one, and the `next` test of
   * check_collection_page agrees with the document.
   */
  lemma NextOnPages(base: string, items: seq<Rendering>, p: nat)
    requires 1 <= p <= PageCount(|items|, PAGE_LENGTH)
    ensures !HasKey(PageDoc(base, items, p), "next") <==> p == PageCount(|items|, PAGE_LENGTH)
    ensures (p - 1) < TruncDiv(|items| - 1, PAGE_LENGTH) <==> HasKey(PageDoc(base, items, p), "next")
  {
    PageDocShape(base, items, p);
    NextTest(|items|, p, PAGE_LENGTH);
  }

  /** What the test reads off each rendered item: `type`, Tombstone for a tombstoned one. */
  function TypeOf(r: Rendering): Option<Json>
  {
    if r.Tombstoned? then Some(JStr("Tombstone")) else Lookup(r.activity, "type")
  }

  /** A tombstoned item is rendered in place, so the page keeps one type per item in order. */
  lemma TombstonesInPlace(items: seq<Rendering>, p: nat)
    requires p >= 1
    ensures var page := Slice(items, p, PAGE_LENGTH);
      && |Forms(page)| == |page|
      && forall j :: 0 <= j < |page| ==> Forms(page)[j].JObj? && Lookup(Forms(page)[j].members, "type") == TypeOf(page[j])
  {
  }

  // ---------------------------------------------- create_remote_collection

  /** A url registered with its JSON document. */
  datatype Mock = Mock(url: string, doc: Dict<Json>)

  /** The index create_remote_collection serves: `first` is there even with no items. */
  function RemoteIndex(url: string, n: nat): Dict<Json>
  {
    IndexFields(url, n) + [("first", JStr(PageUrl(url, 1)))]
  }

  /** The page count create_remote_collection uses: len(items) // number_per_page. */
  function RemotePageCount(n: nat, perPage: nat): nat
    requires perPage > 0
  {
    n / perPage
  }

  /** Page i as create_remote_collection serves it. */
  function RemotePage(url: string, items: seq<Json>, perPage: nat, i: nat): Dict<Json>
    requires perPage > 0 && i >= 1
  {
    Linked(PageFields(PageUrl(url, i), |items|, url, Slice(items, i, perPage)),
           if i > 1 then Some(PageUrl(url, i - 1)) else None,
           if i < RemotePageCount(|items|, perPage) + 1 then Some(PageUrl(url, i + 1)) else None)
  }

  /** The registrations of pages 1 to k, in order. */
  function RemotePages(url: string, items: seq<Json>, perPage: nat, k: nat): (ms: seq<Mock>)
    requires perPage > 0
    ensures |ms| == k
  {
    if k == 0 then []
    else RemotePages(url, items, perPage, k - 1) + [Mock(PageUrl(url, k), RemotePage(url, items, perPage, k))]
  }

  /**
   * create_remote_collection: register the index, then pages 1 to
   * len(items) // number_per_page + 1. A zero page size divides by zero
   * after the index is registered, and the registration stays.
   */
  method CreateRemoteCollection(url: string, items: seq<Json>, perPage: nat) returns (mocks: seq<Mock>, r: Result<()>)
    ensures perPage == 0 ==> mocks == [Mock(url, RemoteIndex(url, |items|))] && r == Err(ZeroDivisionError)
    ensures perPage > 0 ==> r == Ok(())
    ensures perPage > 0 ==>
      mocks == [Mock(url, RemoteIndex(url, |items|))] + RemotePages(url, items, perPage, RemotePageCount(|items|, perPage) + 1)
  {
    mocks := [Mock(url, IndexFields(url, |items|) + [("first", JStr(PageUrl(url, 1)))])];
    if perPage == 0 {
      return mocks, Err(ZeroDivisionError);
    }
    var pageCount := |items| / perPage;
    var i := 1;
    while i < pageCount + 2
      invariant 1 <= i <= pageCount + 2
      invariant mocks == [Mock(url, RemoteIndex(url, |items|))] + RemotePages(url, items, perPage, i - 1)
    {
      var fields := PageFields(PageUrl(url, i), |items|, url, Slice(items, i, perPage));
      ghost var base := fields;
      if i > 1 {
        fields := Put(fields, "prev", JStr(PageUrl(url, i - 1)));
      }
      if i < pageCount + 1 {
        fields := Put(fields, "next", JStr(PageUrl(url, i + 1)));
      }
      assert fields == Linked(base, if i > 1 then Some(PageUrl(url, i - 1)) else None,
                              if i < pageCount + 1 then Some(PageUrl(url, i + 1)) else None);
      assert RemotePages(url, items, perPage, i)
        == RemotePages(url, items, perPage, i - 1) + [Mock(PageUrl(url, i), fields)];
      mocks := mocks + [Mock(PageUrl(url, i), fields)];
      i := i + 1;
    }
    return mocks, Ok(());
  }

  /** The index create_remote_collection serves has the count and always a `first` link. */
  lemma RemoteIndexShape(url: string, n: nat)
    ensures var d := RemoteIndex(url, n);
      && Distinct(d)
      && Lookup(d, "type") == Some(JStr("OrderedCollection"))
      && Lookup(d, "totalItems") == Some(JInt(n))
      && Lookup(d, "first") == Some(JStr(PageUrl(url, 1)))
  {
    var d := IndexFields(url, n);
    var first := JStr(PageUrl(url, 1));
    IndexFieldsShape(url, n);
    PutFresh(d, "first", first);
    PutDistinct(d, "first", first);
    LookupPut(d, "first", first, "type");
    LookupPut(d, "first", first, "totalItems");
    LookupPut(d, "first", first, "first");
  }

  /** The items of the pages create_remote_collection serves, concatenated, are the items. */
  lemma RemotePagesCover(items: seq<Json>, perPage: nat)
    requires perPage > 0
    ensures Pages(items, perPage, RemotePageCount(|items|, perPage) + 1) == items
  {
    var k := RemotePageCount(|items|, perPage) + 1;
    assert |items| == (k - 1) * perPage + |items| % perPage;
    assert k * perPage == (k - 1) * perPage + perPage;
    PagesPrefix(items, perPage, k);
  }

  /**
   * Its last page is empty exactly when the number of items is a multiple
   * of the page size; every other page is full.
   */
  lemma RemoteLastPage(items: seq<Json>, perPage: nat, i: nat)
    requires perPage > 0 && 1 <= i <= RemotePageCount(|items|, perPage) + 1
    ensures i <= RemotePageCount(|items|, perPage) ==> |Slice(items, i, perPage)| == perPage
    ensures i == RemotePageCount(|items|, perPage) + 1 ==> (Slice(items, i, perPage) == [] <==> |items| % perPage == 0)
  {
    var q := RemotePageCount(|items|, perPage);
    assert |items| == q * perPage + |items| % perPage;
    if i <= q {
      assert i * perPage <= q * perPage;
      assert i * perPage - (i - 1) * perPage == perPage;
    } else {
      assert (i - 1) * perPage == q * perPage;
    }
  }

  /**
   * Its links never dangle: page i has `prev` exactly when page i - 1 is
   * served and `next` exactly when page i + 1 is, and they name those pages.
   */
  lemma RemoteLinks(url: string, items: seq<Json>, perPage: nat, i: nat)
    requires perPage > 0 && 1 <= i <= RemotePageCount(|items|, perPage) + 1
    ensures var d := RemotePage(url, items, perPage, i);
      && Distinct(d)
      && Lookup(d, "totalItems") == Some(JInt(|items|))
      && Lookup(d, "orderedItems") == Some(JArr(Slice(items, i, perPage)))
      && (HasKey(d, "prev") <==> 1 <= i - 1)
      && (i > 1 ==> Lookup(d, "prev") == Some(JStr(PageUrl(url, i - 1))))
      && (HasKey(d, "next") <==> i + 1 <= RemotePageCount(|items|, perPage) + 1)
      && (i + 1 <= RemotePageCount(|items|, perPage) + 1 ==> Lookup(d, "next") == Some(JStr(PageUrl(url, i + 1))))
  {
    var fields := PageFields(PageUrl(url, i), |items|, url, Slice(items, i, perPage));
    var prev := if i > 1 then Some(PageUrl(url, i - 1)) else None;
    var next := if i < RemotePageCount(|items|, perPage) + 1 then Some(PageUrl(url, i + 1)) else None;
    PageFieldsShape(PageUrl(url, i), |items|, url, Slice(items, i, perPage));
    PageFieldsDistinct(PageUrl(url, i), |items|, url, Slice(items, i, perPage));
    LinkedDistinct(fields, prev, next);
    LinkedLookup(fields, prev, next, "totalItems");
    LinkedLookup(fields, prev, next, "orderedItems");
    LinkedLookup(fields, prev, next, "prev");
    LinkedLookup(fields, prev, next, "next");
  }
}

/**
 The paged read of the broker's open positions: a cursor loop whose pages are
 taken at different moments of a book that keeps changing.
 */
module BrokerPaging {
  import opened Outcomes
  import opened PositionStore

  const PAGE_SIZE: nat := 100
  const MAX_PAGES: nat := 100

  type Cursor = Option<PositionId>

  datatype Response = Page(ids: seq<PositionId>) | ApiFailure | NetworkFailure
  datatype BrokerError = UNEXPECTED | NETWORK_ERROR

  /** What the k-th request is answered with, given the cursor it carries. */
  type Endpoint = (nat, Cursor) -> Response

  function Smallest(ids: seq<PositionId>): (m: PositionId)
    requires ids != []
    ensures m in ids && forall id :: id in ids ==> m <= id
  {
    if |ids| == 1 then ids[0]
    else
      var m := Smallest(ids[..|ids| - 1]);
      var last := ids[|ids| - 1];
      assert ids == ids[..|ids| - 1] + [last];
      if last < m then last else m
  }

  /** The cursor did not move down: the loop gives up instead of spinning. */
  predicate Stalled(prev: Cursor, ids: seq<PositionId>)
    requires ids != []
  {
    prev.Some? && Smallest(ids) >= prev.value
  }

  /** The rest of the read from request `page` on, with `got` already collected. */
  function ReadFrom(api: Endpoint, page: nat, prev: Cursor, got: seq<PositionId>): Result<seq<PositionId>, BrokerError>
    decreases MAX_PAGES + 1 - page
  {
    if page > MAX_PAGES then Err(UNEXPECTED)
    else match api(page, prev)
      case ApiFailure => Err(UNEXPECTED)
      case NetworkFailure => Err(NETWORK_ERROR)
      case Page(ids) =>
        if |ids| < PAGE_SIZE then Ok(got + ids)
        else if Stalled(prev, ids) then Err(UNEXPECTED)
        else ReadFrom(api, page + 1, Some(Smallest(ids)), got + ids)
  }

  method FetchOpenPositionIds(api: Endpoint) returns (r: Result<seq<PositionId>, BrokerError>)
    ensures r == ReadFrom(api, 0, None, [])
  {
    var ids: seq<PositionId> := [];
    var prevId: Cursor := None;
    var page: nat := 0;
    while true
      invariant page <= MAX_PAGES + 1
      invariant ReadFrom(api, 0, None, []) == ReadFrom(api, page, prevId, ids)
      decreases MAX_PAGES + 1 - page
    {
      if page > MAX_PAGES { return Err(UNEXPECTED); }
      var response := api(page, prevId);
      match response {
        case ApiFailure => return Err(UNEXPECTED);
        case NetworkFailure => return Err(NETWORK_ERROR);
        case Page(list) =>
          ids := ids + list;
          if |list| < PAGE_SIZE { return Ok(ids); }
          var next := list[0];
          for i := 0 to |list|
            invariant next in list && forall j :: 0 <= j < i ==> next <= list[j]
          {
            if list[i] < next { next := list[i]; }
          }
          assert next == Smallest(list);
          if prevId.Some? && next >= prevId.value { return Err(UNEXPECTED); }
          prevId := Some(next);
          page := page + 1;
      }
    }
  }

  // ---------------------------------------------------------------- A faithful broker

  predicate Below(id: PositionId, cursor: Cursor) {
    cursor.None? || id < cursor.value
  }

  ghost predicate DistinctIds(ids: seq<PositionId>) {
    forall i, j :: 0 <= i < j < |ids| ==> ids[i] != ids[j]
  }

  /** The largest PAGE_SIZE open ids below the cursor, in any order. */
  ghost predicate IsPage(ids: seq<PositionId>, open: set<PositionId>, cursor: Cursor) {
    && |ids| <= PAGE_SIZE && DistinctIds(ids)
    && (forall id :: id in ids ==> id in open && Below(id, cursor))
    && (forall id :: id in open && Below(id, cursor) && id !in ids ==>
          |ids| == PAGE_SIZE && forall other :: other in ids ==> id < other)
  }

  /** `book(k)` is the set of open positions at the moment request k is answered. */
  ghost predicate Faithful(api: Endpoint, book: nat -> set<PositionId>) {
    forall k: nat, c: Cursor ::
      api(k, c).Page? ==> IsPage(api(k, c).ids, book(k), c)
  }

  /** How many requests the read makes. */
  ghost function Requests(api: Endpoint, page: nat, prev: Cursor): (n: nat)
    ensures n <= MAX_PAGES + 1 - page || page > MAX_PAGES + 1
    decreases MAX_PAGES + 1 - page
  {
    if page > MAX_PAGES then 0
    else if !api(page, prev).Page? || |api(page, prev).ids| < PAGE_SIZE
            || Stalled(prev, api(page, prev).ids) then 1
    else 1 + Requests(api, page + 1, Some(Smallest(api(page, prev).ids)))
  }

  ghost predicate FailsAt(api: Endpoint, k: nat, c: Cursor) {
    api(k, c) == ApiFailure
  }

  ghost predicate FailedAt(api: Endpoint, k: nat) {
    exists c: Cursor :: FailsAt(api, k, c)
  }

  ghost predicate Breaks(api: Endpoint, k: nat, c: Cursor) {
    api(k, c) == NetworkFailure
  }

  ghost predicate BrokeAt(api: Endpoint, k: nat) {
    exists c: Cursor :: Breaks(api, k, c)
  }

  /** What has been collected so far is what a complete read needs above the cursor. */
  ghost predicate Collected(book: nat -> set<PositionId>, page: nat, prev: Cursor, got: seq<PositionId>) {
    && DistinctIds(got)
    && (prev.None? ==> got == [])
    && (prev.Some? ==> forall id :: id in got ==> prev.value <= id)
    && (forall id :: id in got ==> exists k: nat :: k < page && id in book(k))
    && (forall id :: (forall k: nat :: k < page ==> id in book(k)) && !Below(id, prev) ==> id in got)
  }

  lemma CollectedGrows(book: nat -> set<PositionId>, page: nat, prev: Cursor, got: seq<PositionId>, ids: seq<PositionId>)
    requires Collected(book, page, prev, got)
    requires IsPage(ids, book(page), prev)
    ensures DistinctIds(got + ids)
    ensures forall id :: id in got + ids ==> exists k: nat :: k < page + 1 && id in book(k)
    ensures |ids| < PAGE_SIZE ==> forall id :: (forall k: nat :: k < page + 1 ==> id in book(k)) ==> id in got + ids
    ensures ids != [] ==> !Stalled(prev, ids)
    ensures |ids| == PAGE_SIZE ==> Collected(book, page + 1, Some(Smallest(ids)), got + ids)
  {
    forall i, j | 0 <= i < j < |got + ids|
      ensures (got + ids)[i] != (got + ids)[j]
    {
      if i < |got| <= j {
        assert got[i] in got && ids[j - |got|] in ids;
      }
    }
    forall id | id in got + ids
      ensures exists k: nat :: k < page + 1 && id in book(k)
    {
      if id in got {
        var k: nat :| k < page && id in book(k);
        assert k < page + 1;
      } else {
        assert id in book(page);
      }
    }
    forall id | (forall k: nat :: k < page + 1 ==> id in book(k)) && (|ids| < PAGE_SIZE || Smallest(ids) <= id)
      ensures id in got + ids
    {
      assert id in book(page);
      if !Below(id, prev) {
        assert forall k: nat :: k < page ==> id in book(k);
      }
    }
  }

  /** The stall guard fires at some request of the read. */
  ghost predicate StallsFrom(api: Endpoint, page: nat, prev: Cursor)
    decreases MAX_PAGES + 1 - page
  {
    && page <= MAX_PAGES && api(page, prev).Page? && |api(page, prev).ids| >= PAGE_SIZE
    && (Stalled(prev, api(page, prev).ids) || StallsFrom(api, page + 1, Some(Smallest(api(page, prev).ids))))
  }

  /** Every id open throughout the first `n` requests, only ids open at one of them, none twice. */
  ghost predicate IsComplete(ids: seq<PositionId>, book: nat -> set<PositionId>, n: nat) {
    && DistinctIds(ids)
    && (forall id :: id in ids ==> exists k: nat :: k < n && id in book(k))
    && (forall id :: (forall k: nat :: k < n ==> id in book(k)) ==> id in ids)
  }

  /** The answer, seen from any point of the read. */
  ghost predicate AnswersFrom(api: Endpoint, book: nat -> set<PositionId>, page: nat, prev: Cursor, got: seq<PositionId>) {
    var r := ReadFrom(api, page, prev, got);
    var n := page + Requests(api, page, prev);
    && (r.Ok? ==> IsComplete(r.value, book, n))
    && (r.Err? && r.error == UNEXPECTED ==> n == MAX_PAGES + 1 || (n > 0 && FailedAt(api, n - 1)))
    && (r.Err? && r.error == NETWORK_ERROR ==> n > 0 && BrokeAt(api, n - 1))
    && !StallsFrom(api, page, prev)
  }

  lemma {:induction false} ReadFromIsComplete(api: Endpoint, book: nat -> set<PositionId>, page: nat, prev: Cursor, got: seq<PositionId>)
    requires Faithful(api, book)
    requires page <= MAX_PAGES + 1
    requires Collected(book, page, prev, got)
    ensures AnswersFrom(api, book, page, prev, got)
    decreases MAX_PAGES + 1 - page
  {
    if page <= MAX_PAGES && api(page, prev).Page? {
      var ids := api(page, prev).ids;
      if |ids| < PAGE_SIZE {
        LastPageAnswers(api, book, page, prev, got);
      } else {
        FullPageIsCollected(book, page, prev, got, ids);
        ReadFromIsComplete(api, book, page + 1, Some(Smallest(ids)), got + ids);
        FullPageAnswers(api, book, page, prev, got);
      }
    } else {
      NoPageAnswers(api, book, page, prev, got);
    }
  }

  lemma NoPageAnswers(api: Endpoint, book: nat -> set<PositionId>, page: nat, prev: Cursor, got: seq<PositionId>)
    requires page == MAX_PAGES + 1 || (page <= MAX_PAGES && !api(page, prev).Page?)
    ensures AnswersFrom(api, book, page, prev, got)
  {
    if page <= MAX_PAGES {
      assert FailsAt(api, page, prev) || Breaks(api, page, prev);
    }
  }

  lemma LastPageAnswers(api: Endpoint, book: nat -> set<PositionId>, page: nat, prev: Cursor, got: seq<PositionId>)
    requires Collected(book, page, prev, got)
    requires page <= MAX_PAGES && api(page, prev).Page? && |api(page, prev).ids| < PAGE_SIZE
    requires IsPage(api(page, prev).ids, book(page), prev)
    ensures AnswersFrom(api, book, page, prev, got)
  {
    CollectedGrows(book, page, prev, got, api(page, prev).ids);
  }

  lemma FullPageIsCollected(book: nat -> set<PositionId>, page: nat, prev: Cursor, got: seq<PositionId>, ids: seq<PositionId>)
    requires Collected(book, page, prev, got)
    requires IsPage(ids, book(page), prev) && |ids| >= PAGE_SIZE
    ensures Collected(book, page + 1, Some(Smallest(ids)), got + ids) && !Stalled(prev, ids)
  {
    CollectedGrows(book, page, prev, got, ids);
  }

  lemma FullPageAnswers(api: Endpoint, book: nat -> set<PositionId>, page: nat, prev: Cursor, got: seq<PositionId>)
    requires page <= MAX_PAGES && api(page, prev).Page? && |api(page, prev).ids| >= PAGE_SIZE
    requires !Stalled(prev, api(page, prev).ids)
    requires var ids := api(page, prev).ids; AnswersFrom(api, book, page + 1, Some(Smallest(ids)), got + ids)
    ensures AnswersFrom(api, book, page, prev, got)
  {
  }

  /**
   The paged read under concurrent change. If every page is the largest hundred open ids
   below the cursor at its own moment, then a read that comes back holds every id that was
   open throughout, only ids that were open at some moment of it, and none twice; the stall
   guard never fires, on the last request either; and the read always ends within
   MAX_PAGES + 1 requests.
   */
  lemma PagingIsComplete(api: Endpoint, book: nat -> set<PositionId>)
    requires Faithful(api, book)
    ensures Requests(api, 0, None) <= MAX_PAGES + 1
    ensures var r := ReadFrom(api, 0, None, []);
            var n := Requests(api, 0, None);
            && (r.Ok? ==> IsComplete(r.value, book, n))
            && (r.Err? && r.error == UNEXPECTED ==> n == MAX_PAGES + 1 || (n > 0 && FailedAt(api, n - 1)))
            && (r.Err? && r.error == NETWORK_ERROR ==> n > 0 && BrokeAt(api, n - 1))
    ensures !StallsFrom(api, 0, None)
  {
    ReadFromIsComplete(api, book, 0, None, []);
  }

  /** On a book that does not change, the read is exact, and it fails exactly when the book
      holds enough positions to fill every page it may ask for. */
  lemma {:induction false} PagingIsExactOnAStillBook(api: Endpoint, open: set<PositionId>)
    requires Faithful(api, (k: nat) => open)
    requires forall k: nat, c: Cursor :: api(k, c).Page?
    ensures var r := ReadFrom(api, 0, None, []);
            && (r.Ok? <==> |open| < (MAX_PAGES + 1) * PAGE_SIZE)
            && (r.Ok? ==> forall id :: id in r.value <==> id in open)
  {
    PagingIsComplete(api, (k: nat) => open);
    StillBookRead(api, open, 0, None, []);
  }

  lemma DistinctCount(ids: seq<PositionId>)
    requires DistinctIds(ids)
    ensures |set id | id in ids| == |ids|
  {
    if ids != [] {
      var init, last := ids[..|ids| - 1], ids[|ids| - 1];
      DistinctCount(init);
      assert (set id | id in ids) == (set id | id in init) + {last};
      assert last !in init;
    }
  }

  /** Distinct open ids: no more than there are, and as many once they are all. */
  lemma OpenCount(ids: seq<PositionId>, open: set<PositionId>)
    requires DistinctIds(ids) && forall id :: id in ids ==> id in open
    ensures |ids| <= |open|
    ensures (forall id :: id in open ==> id in ids) ==> |ids| == |open|
  {
    var seen := set id | id in ids;
    DistinctCount(ids);
    SubsetCount(seen, open);
    if forall id :: id in open ==> id in ids {
      assert seen == open;
    }
  }

  /** The page that ends a read of a still book: everything open is collected. */
  lemma LastPageCounts(open: set<PositionId>, page: nat, prev: Cursor, got: seq<PositionId>, ids: seq<PositionId>)
    requires Collected((k: nat) => open, page, prev, got) && IsPage(ids, open, prev) && |ids| < PAGE_SIZE
    ensures |open| == |got| + |ids|
  {
    var book := (k: nat) => open;
    CollectedGrows(book, page, prev, got, ids);
    forall id | id in open ensures id in got + ids {
      assert forall k: nat :: k < page + 1 ==> id in book(k);
    }
    OpenCount(got + ids, open);
  }

  lemma {:induction false} StillBookRead(api: Endpoint, open: set<PositionId>, page: nat, prev: Cursor, got: seq<PositionId>)
    requires Faithful(api, (k: nat) => open)
    requires forall k: nat, c: Cursor :: api(k, c).Page?
    requires page <= MAX_PAGES + 1
    requires page == 0 <==> prev.None?
    requires Collected((k: nat) => open, page, prev, got)
    requires |got| == page * PAGE_SIZE
    ensures ReadFrom(api, page, prev, got).Ok? <==> |open| < (MAX_PAGES + 1) * PAGE_SIZE
    decreases MAX_PAGES + 1 - page
  {
    OpenCount(got, open);
    if page <= MAX_PAGES {
      var ids := api(page, prev).ids;
      assert IsPage(ids, open, prev);
      if |ids| < PAGE_SIZE {
        LastPageCounts(open, page, prev, got, ids);
      } else {
        FullPageIsCollected((k: nat) => open, page, prev, got, ids);
        StillBookRead(api, open, page + 1, Some(Smallest(ids)), got + ids);
      }
    }
  }

  lemma SubsetCount(a: set<PositionId>, b: set<PositionId>)
    requires a <= b
    ensures |a| <= |b|
  {
    assert b == a + (b - a);
  }
}

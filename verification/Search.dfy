/** Cursor pagination of adapters/postgres/src/search.ts over the ordered rows that match a
    query. */
module Search {
  import opened Prelude
  import opened Json
  import opened Quotients

  const MAX_SAFE_INTEGER := 9007199254740991

  datatype Error = TenantRequired | InvalidSearchCursor

  datatype Query = Query(tenantId: string, limit: Option<int>, cursor: Option<Text>)

  datatype Page<T> = Page(hits: seq<T>, nextCursor: Option<Text>)

  function Limit(q: Query): (n: nat)
    ensures 1 <= n <= 100
  {
    Min(100, Max(1, match q.limit case None => 20 case Some(n) => n))
  }

  /** Without a limit a page has 20 rows; a limit below 1 counts as 1 and one above 100 as 100. */
  lemma LimitIs(q: Query)
    ensures q.limit == None ==> Limit(q) == 20
    ensures q.limit.Some? ==>
      (q.limit.value < 1 ==> Limit(q) == 1) && (q.limit.value > 100 ==> Limit(q) == 100)
      && (1 <= q.limit.value <= 100 ==> Limit(q) == q.limit.value)
  {
  }

  function EncodeCursor(codec: Codec, offset: int): Text {
    codec.stringify(Obj(map["offset" := Num(Whole(offset))]))
  }

  /** Number.isSafeInteger, and not negative. */
  predicate UsableOffset(v: Option<Json>) {
    v.Some? && v.value.Num? && v.value.n.Whole? && 0 <= v.value.n.n <= MAX_SAFE_INTEGER
  }

  /** No cursor, or an empty one, is the start; so is any parsed value without a usable
      offset, except null, which has no properties to read. */
  function DecodeCursor(codec: Codec, cursor: Option<Text>): Result<nat, Error> {
    if cursor.None? || cursor.value == [] then Ok(0)
    else match codec.parse(cursor.value)
      case None => Err(InvalidSearchCursor)
      case Some(Null) => Err(InvalidSearchCursor)
      case Some(v) =>
        var offset := Get(v, "offset");
        if UsableOffset(offset) then Ok(offset.value.n.n) else Ok(0)
  }

  /** A cursor decodes to the offset it was made from exactly when that is a safe integer that
      is not negative; any other offset decodes to the start. */
  lemma CursorRoundTrip(codec: Codec, offset: int)
    requires Lawful(codec)
    ensures DecodeCursor(codec, Some(EncodeCursor(codec, offset)))
            == Ok(if 0 <= offset <= MAX_SAFE_INTEGER then offset else 0)
  {
    var v := Obj(map["offset" := Num(Whole(offset))]);
    assert Printable(v);
    assert codec.parse(codec.stringify(v)) == Some(v);
    assert Get(v, "offset") == Some(Num(Whole(offset)));
  }

  /** LIMIT and OFFSET. */
  function Window<T>(rows: seq<T>, limit: nat, offset: nat): seq<T> {
    if offset >= |rows| then []
    else if offset + limit >= |rows| then rows[offset..]
    else rows[offset..offset + limit]
  }

  function Search<T>(codec: Codec, rows: seq<T>, q: Query): Result<Page<T>, Error> {
    if q.tenantId == "" then Err(TenantRequired)
    else match DecodeCursor(codec, q.cursor)
      case Err(e) => Err(e)
      case Ok(offset) =>
        var found := Window(rows, Limit(q) + 1, offset);
        var hasMore := |found| > Limit(q);
        Ok(Page(if hasMore then found[..Limit(q)] else found,
                if hasMore then Some(EncodeCursor(codec, offset + Limit(q))) else None))
  }

  /** The hits of at most `requests` pages, following nextCursor, and the cursor then left. */
  function Follow<T>(codec: Codec, rows: seq<T>, q: Query, requests: nat): (seq<T>, Option<Text>)
    decreases requests
  {
    if requests == 0 then ([], q.cursor)
    else match Search(codec, rows, q)
      case Err(_) => ([], q.cursor)
      case Ok(page) =>
        if page.nextCursor.None? then (page.hits, None)
        else
          var rest := Follow(codec, rows, q.(cursor := page.nextCursor), requests - 1);
          (page.hits + rest.0, rest.1)
  }

  function PagesFor(rows: nat, limit: nat): nat
    requires limit >= 1
  {
    Max(1, (rows + limit - 1) / limit)
  }

  lemma OnePageFewer(left: nat, limit: nat)
    requires limit >= 1
    ensures PagesFor(left, limit) == if left <= limit then 1 else 1 + PagesFor(left - limit, limit)
  {
    if left <= limit {
      QuotientMonotone(left + limit - 1, 2 * limit - 1, limit);
      QuotientIs(2 * limit - 1, limit, 1);
    } else {
      OneDivisorLess(left + limit - 1, limit);
      QuotientMonotone(limit, left - limit + limit - 1, limit);
      QuotientIs(limit, limit, 1);
    }
  }

  /** A page at an offset holds the next rows, at most the limit, and points to the row after
      them exactly when there is one. */
  lemma SearchAt<T>(codec: Codec, rows: seq<T>, q: Query, offset: nat)
    requires q.tenantId != "" && DecodeCursor(codec, q.cursor) == Ok(offset)
    requires offset <= |rows|
    ensures var limit := Limit(q);
      Search(codec, rows, q)
      == Ok(if |rows| - offset <= limit then Page(rows[offset..], None)
            else Page(rows[offset..offset + limit], Some(EncodeCursor(codec, offset + limit))))
  {
    hide DecodeCursor, EncodeCursor;
    var limit := Limit(q);
    if |rows| - offset > limit {
      assert Window(rows, limit + 1, offset)[..limit] == rows[offset..offset + limit];
    } else {
      assert Window(rows, limit + 1, offset) == rows[offset..];
    }
  }

  lemma {:induction false} FollowFrom<T>(codec: Codec, rows: seq<T>, q: Query, offset: nat)
    requires Lawful(codec) && |rows| <= MAX_SAFE_INTEGER && q.tenantId != ""
    requires DecodeCursor(codec, q.cursor) == Ok(offset) && offset <= |rows|
    ensures Follow(codec, rows, q, PagesFor(|rows| - offset, Limit(q))) == (rows[offset..], None)
    ensures forall m: nat :: 0 < m < PagesFor(|rows| - offset, Limit(q))
              ==> Follow(codec, rows, q, m).1.Some?
    decreases |rows| - offset
  {
    var limit, left := Limit(q), |rows| - offset;
    hide DecodeCursor, EncodeCursor, Lawful, Search, Limit, PagesFor;
    SearchAt(codec, rows, q, offset);
    OnePageFewer(left, limit);
    if left > limit {
      var next := q.(cursor := Some(EncodeCursor(codec, offset + limit)));
      SameLimit(q, next.cursor);
      CursorRoundTrip(codec, offset + limit);
      FollowFrom(codec, rows, next, offset + limit);
      assert rows[offset..] == rows[offset..offset + limit] + rows[offset + limit..];
      forall m: nat | 0 < m < PagesFor(left, limit) ensures Follow(codec, rows, q, m).1.Some? {
        assert Follow(codec, rows, q, m).1 == Follow(codec, rows, next, m - 1).1;
      }
    }
  }

  lemma SameLimit(q: Query, cursor: Option<Text>)
    ensures Limit(q.(cursor := cursor)) == Limit(q)
  {
  }

  /** Following nextCursor from the start takes exactly max(1, ceil(n / limit)) pages, whose
      concatenation is every row once, in order. */
  lemma PagesAreComplete<T>(codec: Codec, rows: seq<T>, tenantId: string, limit: Option<int>)
    requires Lawful(codec) && |rows| <= MAX_SAFE_INTEGER && tenantId != ""
    ensures var q := Query(tenantId, limit, None); var n := PagesFor(|rows|, Limit(q));
      && Follow(codec, rows, q, n) == (rows, None)
      && forall m: nat :: 0 < m < n ==> Follow(codec, rows, q, m).1.Some?
  {
    FollowFrom(codec, rows, Query(tenantId, limit, None), 0);
    assert rows[0..] == rows;
  }
}

/**
 * StockService (pkg/services/stock.service.go) over the `stocks` collection,
 * with the `books` and `courses` collections its Find joins.
 */
module StockService {
  import opened Wrappers
  import opened ObjectIds
  import opened Errors
  import opened Models
  import opened Store
  import opened Pipeline
  import opened Query
  import Joins

  // ---- Create ---------------------------------------------------------------

  /** Create fills in the timestamps and the "available" status, then inserts the stock. */
  method Create(sc: Collection<Stock>, stock: Ref<Stock>, now: int, generated: ObjectId)
    returns (r: Outcome<Ref<Stock>>)
    requires UniqueKeys(sc.docs, StockId) && generated != Nil
    modifies sc, stock
    ensures UniqueKeys(sc.docs, StockId)
    ensures var filled := StockDefaults(old(stock.v), now);
      var stored := Stored(filled, generated, StockId, WithStockId);
      (r.Ok? <==> Lookup(old(sc.docs), StockId, stored.id).None?)
      && (r.Ok? ==> r.value == stock && stock.v == stored && sc.docs == old(sc.docs) + [stored])
      && (r.Err? ==> r.error == InternalErr(InsertFailed) && stock.v == filled && sc.docs == old(sc.docs))
  {
    var s := NewStock(stock, now);
    var result := sc.InsertOne(s.v, generated, StockId, WithStockId);
    if result.Err? {
      return Err(InternalErr(InsertFailed));
    }
    s.v := s.v.(id := result.value);
    r := Ok(s);
  }

  // ---- FindById -------------------------------------------------------------

  function FindById(stocks: seq<Stock>, hex: string): (r: Outcome<Stock>)
    ensures FromHex(hex).Err? ==> r == Err(NotFound(InvalidUserId))
    ensures FromHex(hex).Ok? && (forall i :: 0 <= i < |stocks| ==> stocks[i].id != FromHex(hex).value) ==>
      r == Err(NotFound(UserNotFound))
    ensures r.Ok? ==> r.value in stocks && FromHex(hex) == Ok(r.value.id)
    ensures UniqueKeys(stocks, StockId) ==>
      forall i :: 0 <= i < |stocks| && FromHex(hex) == Ok(stocks[i].id) ==> r == Ok(stocks[i])
  {
    FindByHex(stocks, StockId, hex, NotFound(InvalidUserId), NotFound(UserNotFound))
  }

  lemma FindByIdOwnHex(stocks: seq<Stock>, i: nat)
    requires UniqueKeys(stocks, StockId) && i < |stocks|
    ensures FindById(stocks, Hex(stocks[i].id)) == Ok(stocks[i])
  {
    HexRoundTrip(stocks[i].id);
  }

  // ---- UpdateById -----------------------------------------------------------

  function SetStock(stored: Stock, update: Stock): (r: Result<Stock, string>)
    ensures r.Err? <==> update.id != Nil && update.id != stored.id
    ensures r.Err? ==> r.error == ImmutableId
    ensures r.Ok? ==> r.value.id == stored.id
  {
    if update.id != Nil && update.id != stored.id then Err(ImmutableId)
    else Ok(Stock(
      stored.id,
      Keep(update.bookId, Nil, stored.bookId),
      Keep(update.courseId, Nil, stored.courseId),
      Keep(update.publisher, "", stored.publisher),
      Keep(update.year, "", stored.year),
      Keep(update.price, 0, stored.price),
      Keep(update.discountPercent, 0, stored.discountPercent),
      Keep(update.status, "", stored.status),
      Keep(update.createdBy, Nil, stored.createdBy),
      Keep(update.createdOn, 0, stored.createdOn),
      Keep(update.updatedOn, 0, stored.updatedOn)))
  }

  const NoChange := Stock(Nil, Nil, Nil, "", "", 0, 0, "", Nil, 0, 0)

  lemma SetStockEmpty(s: Stock)
    ensures SetStock(s, NoChange) == Ok(s)
  {
  }

  lemma SetStockIdempotent(s: Stock, update: Stock)
    requires SetStock(s, update).Ok?
    ensures SetStock(SetStock(s, update).value, update) == SetStock(s, update)
  {
  }

  /** An update that sets the status to "sold" takes the stock out of the available summaries. */
  lemma SetStockSold(s: Stock, update: Stock)
    requires SetStock(s, update).Ok? && update.status == "sold"
    ensures SetStock(s, update).value.status == "sold"
    ensures forall b :: !Joins.AvailableFor(SetStock(s, update).value, b)
  {
  }

  method UpdateById(sc: Collection<Stock>, hex: string, update: Stock) returns (r: Outcome<Stock>)
    requires UniqueKeys(sc.docs, StockId)
    modifies sc
    ensures UniqueKeys(sc.docs, StockId)
    ensures FindById(old(sc.docs), hex).Err? ==> r == Err(FindById(old(sc.docs), hex).error) && sc.docs == old(sc.docs)
    ensures FindById(old(sc.docs), hex).Ok? ==>
      var stored := FindById(old(sc.docs), hex).value;
      match SetStock(stored, update)
      case Err(e) => r == Err(InternalErr(e)) && sc.docs == old(sc.docs)
      case Ok(after) => r == Ok(after) && sc.docs == ReplaceKey(old(sc.docs), StockId, stored.id, after)
    ensures r.Ok? ==> FindById(sc.docs, hex) == r
  {
    var id := FromHex(hex);
    if id.Err? {
      return Err(NotFound(InvalidUserId));
    }
    var found := FindById(sc.docs, hex);
    if found.Err? {
      return Err(found.error);
    }
    ghost var before := sc.docs;
    LookupOwnKeys(before, StockId);
    var result := sc.FindOneAndUpdate(id.value, StockId, (s: Stock) => SetStock(s, update));
    if result.Err? {
      return Err(InternalErr(result.error));
    }
    r := Ok(result.value);
    ghost var i := IndexOfKey(before, StockId, id.value).value;
    assert sc.docs == before[i := result.value];
    LookupOwnKey(sc.docs, StockId, i);
  }

  // ---- Find -----------------------------------------------------------------

  /** A stock of the answer, with its book and its course when they exist. */
  datatype StockOut = StockOut(stock: Stock, book: Option<Book>, course: Option<Course>)

  function StockRows(stocks: seq<Stock>, books: seq<Book>, courses: seq<Course>): (rows: seq<StockOut>)
    ensures |rows| == |stocks|
    ensures forall i :: 0 <= i < |stocks| ==>
      rows[i] == StockOut(stocks[i], Lookup(books, BookId, stocks[i].bookId), Lookup(courses, CourseId, stocks[i].courseId))
  {
    seq(|stocks|, i requires 0 <= i < |stocks| =>
      StockOut(stocks[i], Lookup(books, BookId, stocks[i].bookId), Lookup(courses, CourseId, stocks[i].courseId)))
  }

  /** `$sort: {order: 1}`: stocks have no `order` field, so every row sorts alike. */
  function RowOrder(row: StockOut): int
  {
    OrderKey(0)
  }

  /**
   * The `$match` of Find: the `_id` condition and the name/tags search, which
   * no stock can satisfy since stocks have neither field.
   */
  predicate Matches(s: Stock, idFilter: Option<ObjectId>, search: string)
  {
    IdMatches(idFilter, s.id) && SearchMatches(search, "", [])
  }

  function Find(stocks: seq<Stock>, books: seq<Book>, courses: seq<Course>, q: GetQuery): Outcome<Page<StockOut>>
  {
    match IdFilter(q.id)
    case Err(e) => Err(e)
    case Ok(idFilter) =>
      var matched := Filter(stocks, (s: Stock) => Matches(s, idFilter, q.search));
      Paginate(StockRows(matched, books, courses), RowOrder, Skip(q), q.limit)
  }

  predicate Wanted(q: GetQuery, s: Stock)
  {
    (q.id == "" || FromHex(q.id) == Ok(s.id)) && q.search == ""
  }

  function Matching(stocks: seq<Stock>, q: GetQuery): (m: seq<Stock>)
    ensures forall i :: 0 <= i < |m| ==> m[i] in stocks && Wanted(q, m[i])
    ensures forall i :: 0 <= i < |stocks| && Wanted(q, stocks[i]) ==> stocks[i] in m
  {
    Filter(stocks, (s: Stock) => Wanted(q, s))
  }

  lemma FindFilter(stocks: seq<Stock>, q: GetQuery)
    requires IdFilter(q.id).Ok?
    ensures Filter(stocks, (s: Stock) => Matches(s, IdFilter(q.id).value, q.search)) == Matching(stocks, q)
  {
    var idFilter := IdFilter(q.id).value;
    SearchWithoutFields(q.search);
    FilterCongruent(stocks, (s: Stock) => Matches(s, idFilter, q.search), (s: Stock) => Wanted(q, s));
  }

  lemma FindOutcome(stocks: seq<Stock>, books: seq<Book>, courses: seq<Course>, q: GetQuery)
    ensures var r := Find(stocks, books, courses, q);
      (r.Err? <==> IdFilter(q.id).Err? || Skip(q) < 0 || q.limit <= 0)
      && (r.Err? ==> r.error.code == 500)
      && (r.Ok? ==> r.value.count == |Matching(stocks, q)|)
  {
    if IdFilter(q.id).Ok? {
      FindFilter(stocks, q);
      var rows := StockRows(Matching(stocks, q), books, courses);
      assert Find(stocks, books, courses, q) == Paginate(rows, RowOrder, Skip(q), q.limit);
    }
  }

  /**
   * A page is the window `[skip, skip + limit)` of the wanted stocks in their
   * natural order, each with its own book and course.
   */
  lemma FindWindow(stocks: seq<Stock>, books: seq<Book>, courses: seq<Course>, q: GetQuery)
    requires Find(stocks, books, courses, q).Ok?
    ensures var docs := Find(stocks, books, courses, q).value.docs;
      var rows := StockRows(Matching(stocks, q), books, courses);
      |docs| == Min(q.limit, Max(0, |rows| - Skip(q)))
      && forall i :: 0 <= i < |docs| ==> 0 <= Skip(q) + i < |rows| && docs[i] == rows[Skip(q) + i]
  {
    FindFilter(stocks, q);
    var rows := StockRows(Matching(stocks, q), books, courses);
    SortByConstant(rows, RowOrder, OrderKey(0));
    PaginateWindow(rows, RowOrder, Skip(q), q.limit);
  }

  /** A non-empty search matches no stock: the answer is the placeholder. */
  lemma FindSearchPlaceholder(stocks: seq<Stock>, books: seq<Book>, courses: seq<Course>, q: GetQuery)
    requires Find(stocks, books, courses, q).Ok? && q.search != ""
    ensures Find(stocks, books, courses, q).value == Page([], 0)
  {
    FindFilter(stocks, q);
    FilterNone(stocks, (s: Stock) => Wanted(q, s));
  }
}

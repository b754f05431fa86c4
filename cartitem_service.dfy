/**
 * CartItemService (pkg/services/cartitem.service.go) over the `cartitems`
 * collection, with the `books`, `stocks` and `courses` collections its Find
 * joins. No route mounts this service; it is modelled as written.
 */
module CartItemService {
  import opened Wrappers
  import opened ObjectIds
  import opened Errors
  import opened Models
  import opened Store
  import opened Pipeline
  import opened Joins
  import opened Query

  const InvalidCartitemId := "Invalid cartitem_id"
  const InvalidCartItemId := "Invalid cartItem_id"
  const CartItemNotFound := "cartItem not found."

  // ---- Create ---------------------------------------------------------------

  /** Create fills in the timestamps and a quantity of one, then inserts the item. */
  method Create(cic: Collection<CartItem>, item: Ref<CartItem>, now: int, generated: ObjectId)
    returns (r: Outcome<Ref<CartItem>>)
    requires UniqueKeys(cic.docs, CartItemId) && generated != Nil
    modifies cic, item
    ensures UniqueKeys(cic.docs, CartItemId)
    ensures var filled := CartItemDefaults(old(item.v), now);
      var stored := Stored(filled, generated, CartItemId, WithCartItemId);
      (r.Ok? <==> Lookup(old(cic.docs), CartItemId, stored.id).None?)
      && (r.Ok? ==> r.value == item && item.v == stored && cic.docs == old(cic.docs) + [stored])
      && (r.Err? ==> r.error == InternalErr(InsertFailed) && item.v == filled && cic.docs == old(cic.docs))
  {
    var c := NewCartItem(item, now);
    var result := cic.InsertOne(c.v, generated, CartItemId, WithCartItemId);
    if result.Err? {
      return Err(InternalErr(InsertFailed));
    }
    c.v := c.v.(id := result.value);
    r := Ok(c);
  }

  // ---- FindById -------------------------------------------------------------

  function FindById(items: seq<CartItem>, hex: string): (r: Outcome<CartItem>)
    ensures FromHex(hex).Err? ==> r == Err(NotFound(InvalidUserId))
    ensures FromHex(hex).Ok? && (forall i :: 0 <= i < |items| ==> items[i].id != FromHex(hex).value) ==>
      r == Err(NotFound(UserNotFound))
    ensures r.Ok? ==> r.value in items && FromHex(hex) == Ok(r.value.id)
    ensures UniqueKeys(items, CartItemId) ==>
      forall i :: 0 <= i < |items| && FromHex(hex) == Ok(items[i].id) ==> r == Ok(items[i])
  {
    FindByHex(items, CartItemId, hex, NotFound(InvalidUserId), NotFound(UserNotFound))
  }

  lemma FindByIdOwnHex(items: seq<CartItem>, i: nat)
    requires UniqueKeys(items, CartItemId) && i < |items|
    ensures FindById(items, Hex(items[i].id)) == Ok(items[i])
  {
    HexRoundTrip(items[i].id);
  }

  // ---- DeleteById -----------------------------------------------------------

  method DeleteById(cic: Collection<CartItem>, hex: string) returns (r: Option<RestError>)
    requires UniqueKeys(cic.docs, CartItemId)
    modifies cic
    ensures UniqueKeys(cic.docs, CartItemId)
    ensures FromHex(hex).Err? ==> r == Some(NotFound(InvalidCartItemId)) && cic.docs == old(cic.docs)
    ensures FromHex(hex).Ok? ==> match IndexOfKey(old(cic.docs), CartItemId, FromHex(hex).value)
      case None => r == Some(NotFound(CartItemNotFound)) && cic.docs == old(cic.docs)
      case Some(i) => r == None && cic.docs == RemoveAt(old(cic.docs), i)
    ensures r.None? <==> FindById(old(cic.docs), hex).Ok?
    ensures FindById(cic.docs, hex).Err?
  {
    var id := FromHex(hex);
    if id.Err? {
      return Some(NotFound(InvalidCartItemId));
    }
    LookupOwnKeys(cic.docs, CartItemId);
    var deleted := cic.DeleteOne(id.value, CartItemId);
    if deleted == 0 {
      return Some(NotFound(CartItemNotFound));
    }
    r := None;
  }

  // ---- UpdateById -----------------------------------------------------------

  function SetCartItem(stored: CartItem, update: CartItem): (r: Result<CartItem, string>)
    ensures r.Err? <==> update.id != Nil && update.id != stored.id
    ensures r.Err? ==> r.error == ImmutableId
    ensures r.Ok? ==> r.value.id == stored.id
  {
    if update.id != Nil && update.id != stored.id then Err(ImmutableId)
    else Ok(CartItem(
      stored.id,
      Keep(update.userId, Nil, stored.userId),
      Keep(update.bookId, Nil, stored.bookId),
      Keep(update.courseId, Nil, stored.courseId),
      Keep(update.stockId, Nil, stored.stockId),
      Keep(update.publisher, "", stored.publisher),
      Keep(update.year, "", stored.year),
      Keep(update.price, 0, stored.price),
      Keep(update.discountPercent, 0, stored.discountPercent),
      Keep(update.quantity, 0, stored.quantity),
      Keep(update.createdOn, 0, stored.createdOn),
      Keep(update.updatedOn, 0, stored.updatedOn)))
  }

  const NoChange := CartItem(Nil, Nil, Nil, Nil, Nil, "", "", 0, 0, 0, 0, 0)

  lemma SetCartItemEmpty(c: CartItem)
    ensures SetCartItem(c, NoChange) == Ok(c)
  {
  }

  lemma SetCartItemIdempotent(c: CartItem, update: CartItem)
    requires SetCartItem(c, update).Ok?
    ensures SetCartItem(SetCartItem(c, update).value, update) == SetCartItem(c, update)
  {
  }

  /** A zero quantity is left out of the `$set`, so an update can never bring a quantity back to zero. */
  lemma SetCartItemQuantity(c: CartItem, update: CartItem)
    requires SetCartItem(c, update).Ok? && c.quantity != 0
    ensures SetCartItem(c, update).value.quantity != 0
  {
  }

  /**
   * UpdateById: a bad id answers "Invalid cartitem_id" (spelled unlike the
   * other messages); a missing item gives FindById's error.
   */
  method UpdateById(cic: Collection<CartItem>, hex: string, update: CartItem) returns (r: Outcome<CartItem>)
    requires UniqueKeys(cic.docs, CartItemId)
    modifies cic
    ensures UniqueKeys(cic.docs, CartItemId)
    ensures FromHex(hex).Err? ==> r == Err(NotFound(InvalidCartitemId)) && cic.docs == old(cic.docs)
    ensures FromHex(hex).Ok? && FindById(old(cic.docs), hex).Err? ==>
      r == Err(FindById(old(cic.docs), hex).error) && cic.docs == old(cic.docs)
    ensures FindById(old(cic.docs), hex).Ok? ==>
      var stored := FindById(old(cic.docs), hex).value;
      match SetCartItem(stored, update)
      case Err(e) => r == Err(InternalErr(e)) && cic.docs == old(cic.docs)
      case Ok(after) => r == Ok(after) && cic.docs == ReplaceKey(old(cic.docs), CartItemId, stored.id, after)
    ensures r.Ok? ==> FindById(cic.docs, hex) == r
  {
    var id := FromHex(hex);
    if id.Err? {
      return Err(NotFound(InvalidCartitemId));
    }
    var found := FindById(cic.docs, hex);
    if found.Err? {
      return Err(found.error);
    }
    ghost var before := cic.docs;
    LookupOwnKeys(before, CartItemId);
    var result := cic.FindOneAndUpdate(id.value, CartItemId, (c: CartItem) => SetCartItem(c, update));
    if result.Err? {
      return Err(InternalErr(result.error));
    }
    r := Ok(result.value);
    ghost var i := IndexOfKey(before, CartItemId, id.value).value;
    assert cic.docs == before[i := result.value];
    LookupOwnKey(cic.docs, CartItemId, i);
  }

  // ---- Find -----------------------------------------------------------------

  /** The joined book: the book document and its available-stock summary. */
  datatype BookStocks = BookStocks(book: Book, stocks: seq<StockGroup>)

  /** A cart item of the answer, with its book (and that book's stocks) and its course. */
  datatype CartOut = CartOut(item: CartItem, book: Option<BookStocks>, course: Option<Course>)

  function BookOf(ref: ObjectId, books: seq<Book>, stocks: seq<Stock>): (r: Option<BookStocks>)
    ensures Lookup(books, BookId, ref).None? <==> r.None?
    ensures r.Some? ==> r.value.book == Lookup(books, BookId, ref).value && r.value.stocks == Summary(stocks, r.value.book.id)
  {
    match Lookup(books, BookId, ref)
    case None => None
    case Some(b) => Some(BookStocks(b, Summary(stocks, b.id)))
  }

  function CartRow(c: CartItem, books: seq<Book>, stocks: seq<Stock>, courses: seq<Course>): CartOut
  {
    CartOut(c, BookOf(c.bookId, books, stocks), Lookup(courses, CourseId, c.courseId))
  }

  function CartRows(items: seq<CartItem>, books: seq<Book>, stocks: seq<Stock>, courses: seq<Course>)
    : (rows: seq<CartOut>)
    ensures |rows| == |items|
    ensures forall i :: 0 <= i < |items| ==> rows[i] == CartRow(items[i], books, stocks, courses)
  {
    seq(|items|, i requires 0 <= i < |items| => CartRow(items[i], books, stocks, courses))
  }

  /** `$sort: {_id: 1}`: ObjectIDs compare as big-endian byte strings. */
  function RowKey(row: CartOut): int
  {
    BytesValue(row.item.id)
  }

  predicate Matches(c: CartItem, idFilter: Option<ObjectId>, search: string)
  {
    IdMatches(idFilter, c.id) && SearchMatches(search, "", [])
  }

  function Find(items: seq<CartItem>, books: seq<Book>, stocks: seq<Stock>, courses: seq<Course>, q: GetQuery)
    : Outcome<Page<CartOut>>
  {
    match IdFilter(q.id)
    case Err(e) => Err(e)
    case Ok(idFilter) =>
      var matched := Filter(items, (c: CartItem) => Matches(c, idFilter, q.search));
      Paginate(CartRows(matched, books, stocks, courses), RowKey, Skip(q), q.limit)
  }

  predicate Wanted(q: GetQuery, c: CartItem)
  {
    (q.id == "" || FromHex(q.id) == Ok(c.id)) && q.search == ""
  }

  function Matching(items: seq<CartItem>, q: GetQuery): (m: seq<CartItem>)
    ensures forall i :: 0 <= i < |m| ==> m[i] in items && Wanted(q, m[i])
    ensures forall i :: 0 <= i < |items| && Wanted(q, items[i]) ==> items[i] in m
  {
    Filter(items, (c: CartItem) => Wanted(q, c))
  }

  lemma FindFilter(items: seq<CartItem>, q: GetQuery)
    requires IdFilter(q.id).Ok?
    ensures Filter(items, (c: CartItem) => Matches(c, IdFilter(q.id).value, q.search)) == Matching(items, q)
  {
    var idFilter := IdFilter(q.id).value;
    SearchWithoutFields(q.search);
    FilterCongruent(items, (c: CartItem) => Matches(c, idFilter, q.search), (c: CartItem) => Wanted(q, c));
  }

  /** Find fails exactly when the `id` is bad or the stages refuse the page, and then with a 500. */
  lemma FindOutcome(items: seq<CartItem>, books: seq<Book>, stocks: seq<Stock>, courses: seq<Course>, q: GetQuery)
    ensures var r := Find(items, books, stocks, courses, q);
      (r.Err? <==> IdFilter(q.id).Err? || Skip(q) < 0 || q.limit <= 0) && (r.Err? ==> r.error.code == 500)
  {
    if IdFilter(q.id).Ok? {
      var rows := CartRows(Filter(items, (c: CartItem) => Matches(c, IdFilter(q.id).value, q.search)), books, stocks, courses);
      assert Find(items, books, stocks, courses, q) == Paginate(rows, RowKey, Skip(q), q.limit);
    }
  }

  /** `count` is the number of wanted cart items, and the page holds `limit` of them from `skip` on. */
  lemma FindCount(items: seq<CartItem>, books: seq<Book>, stocks: seq<Stock>, courses: seq<Course>, q: GetQuery)
    requires Find(items, books, stocks, courses, q).Ok?
    ensures var page := Find(items, books, stocks, courses, q).value;
      page.count == |Matching(items, q)| && |page.docs| == Min(q.limit, Max(0, |Matching(items, q)| - Skip(q)))
  {
    FindFilter(items, q);
    var rows := CartRows(Matching(items, q), books, stocks, courses);
    assert Find(items, books, stocks, courses, q) == Paginate(rows, RowKey, Skip(q), q.limit);
  }

  /** Every row is a wanted item with its own book, stocks and course, and the page is in `_id` order. */
  lemma FindRows(items: seq<CartItem>, books: seq<Book>, stocks: seq<Stock>, courses: seq<Course>, q: GetQuery)
    requires Find(items, books, stocks, courses, q).Ok?
    ensures var docs := Find(items, books, stocks, courses, q).value.docs;
      SortedBy(docs, RowKey)
      && forall i :: 0 <= i < |docs| ==>
        docs[i].item in items && Wanted(q, docs[i].item) && docs[i] == CartRow(docs[i].item, books, stocks, courses)
  {
    FindFilter(items, q);
    var rows := CartRows(Matching(items, q), books, stocks, courses);
    PaginateMembers(rows, RowKey, Skip(q), q.limit);
    PaginateAll(rows, RowKey, Skip(q), q.limit,
      (row: CartOut) => row.item in items && Wanted(q, row.item) && row == CartRow(row.item, books, stocks, courses));
  }

  /** A long enough first page holds every wanted item. */
  lemma FindComplete(items: seq<CartItem>, books: seq<Book>, stocks: seq<Stock>, courses: seq<Course>, q: GetQuery)
    requires IdFilter(q.id).Ok?
    requires Skip(q) == 0 && q.limit > 0 && q.limit >= |Matching(items, q)|
    ensures Find(items, books, stocks, courses, q).Ok?
    ensures forall i :: 0 <= i < |items| && Wanted(q, items[i]) ==>
      CartRow(items[i], books, stocks, courses) in Find(items, books, stocks, courses, q).value.docs
  {
    FindFilter(items, q);
    var m := Matching(items, q);
    var rows := CartRows(m, books, stocks, courses);
    PaginateWhole(rows, RowKey, q.limit);
    var docs := Find(items, books, stocks, courses, q).value.docs;
    forall i | 0 <= i < |items| && Wanted(q, items[i])
      ensures CartRow(items[i], books, stocks, courses) in docs
    {
      var j :| 0 <= j < |m| && m[j] == items[i];
      assert rows[j] in multiset(rows);
    }
  }

  /** A non-empty search matches no cart item. */
  lemma FindSearchPlaceholder(items: seq<CartItem>, books: seq<Book>, stocks: seq<Stock>, courses: seq<Course>, q: GetQuery)
    requires Find(items, books, stocks, courses, q).Ok? && q.search != ""
    ensures Find(items, books, stocks, courses, q).value == Page([], 0)
  {
    FindFilter(items, q);
    FilterNone(items, (c: CartItem) => Wanted(q, c));
  }
}

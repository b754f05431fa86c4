/**
 * BookService (pkg/services/book.service.go) over the `books` collection, with
 * the `media`, `stocks` and `courses` collections its pipelines join.
 */
module BookService {
  import opened Wrappers
  import opened ObjectIds
  import opened Errors
  import opened Models
  import opened Store
  import opened Pipeline
  import opened Joins
  import opened Query

  const NoBookFound := "No Book found"

  // ---- Create ---------------------------------------------------------------

  method Create(bc: Collection<Book>, book: Ref<Book>, now: int, generated: ObjectId)
    returns (r: Outcome<Ref<Book>>)
    requires UniqueKeys(bc.docs, BookId) && generated != Nil
    modifies bc, book
    ensures UniqueKeys(bc.docs, BookId)
    ensures var filled := BookDefaults(old(book.v), now);
      var stored := Stored(filled, generated, BookId, WithBookId);
      (r.Ok? <==> Lookup(old(bc.docs), BookId, stored.id).None?)
      && (r.Ok? ==> r.value == book && book.v == stored && bc.docs == old(bc.docs) + [stored])
      && (r.Err? ==> r.error == InternalErr(InsertFailed) && book.v == filled && bc.docs == old(bc.docs))
  {
    var b := NewBook(book, now);
    var result := bc.InsertOne(b.v, generated, BookId, WithBookId);
    if result.Err? {
      return Err(InternalErr(InsertFailed));
    }
    b.v := b.v.(id := result.value);
    r := Ok(b);
  }

  // ---- FindById -------------------------------------------------------------

  /**
   * The `image` key of a book map: the joined media (with its url), or, once
   * UpdateById has decoded the updated book over the map, the raw ObjectId.
   */
  datatype BookImage = Joined(out: ImageOut) | Raw(id: ObjectId)

  /** The map FindById answers: the book's fields, `image` and the `stocks` summary. */
  datatype BookDetail = BookDetail(book: Book, image: BookImage, stocks: seq<StockGroup>)

  function Detail(b: Book, media: seq<Media>, stocks: seq<Stock>, assetsUrl: string): BookDetail
  {
    BookDetail(b, Joined(ImageOf(b.image, media, assetsUrl)), Summary(stocks, b.id))
  }

  /**
   * FindById: a bad id is a 404 that speaks of a user, a book that is not there
   * a 400; otherwise the book with its image and its available-stock summary.
   */
  function FindById(books: seq<Book>, media: seq<Media>, stocks: seq<Stock>, assetsUrl: string, hex: string)
    : (r: Outcome<BookDetail>)
    ensures FromHex(hex).Err? ==> r == Err(NotFound(InvalidUserId))
    ensures FromHex(hex).Ok? && (forall i :: 0 <= i < |books| ==> books[i].id != FromHex(hex).value) ==>
      r == Err(BadRequest(NoBookFound))
    ensures r.Ok? ==>
      r.value.book in books && FromHex(hex) == Ok(r.value.book.id) && r.value == Detail(r.value.book, media, stocks, assetsUrl)
    ensures UniqueKeys(books, BookId) ==>
      forall i :: 0 <= i < |books| && FromHex(hex) == Ok(books[i].id) ==> r == Ok(Detail(books[i], media, stocks, assetsUrl))
  {
    match FindByHex(books, BookId, hex, NotFound(InvalidUserId), BadRequest(NoBookFound))
    case Err(e) => Err(e)
    case Ok(b) => Ok(Detail(b, media, stocks, assetsUrl))
  }

  /** The summary of a found book groups exactly its available stocks. */
  lemma FindByIdSummary(books: seq<Book>, media: seq<Media>, stocks: seq<Stock>, assetsUrl: string, hex: string)
    requires FindById(books, media, stocks, assetsUrl, hex).Ok?
    ensures var d := FindById(books, media, stocks, assetsUrl, hex).value;
      GroupsOf(d.stocks, Eligible(stocks, d.book.id))
      && forall i :: 0 <= i < |d.stocks| ==> Members(Eligible(stocks, d.book.id), d.stocks[i].publisher, d.stocks[i].year) != []
  {
    var d := FindById(books, media, stocks, assetsUrl, hex).value;
    var e := Eligible(stocks, d.book.id);
    forall i | 0 <= i < |d.stocks| ensures Members(e, d.stocks[i].publisher, d.stocks[i].year) != [] {
      var p, y := d.stocks[i].publisher, d.stocks[i].year;
      assert HasKey(d.stocks[i], p, y);
      assert FindGroup(d.stocks, p, y).Some?;
    }
  }

  // ---- UpdateById -----------------------------------------------------------

  function SetBook(stored: Book, update: Book): (r: Result<Book, string>)
    ensures r.Err? <==> update.id != Nil && update.id != stored.id
    ensures r.Err? ==> r.error == ImmutableId
    ensures r.Ok? ==> r.value.id == stored.id
  {
    if update.id != Nil && update.id != stored.id then Err(ImmutableId)
    else Ok(Book(
      stored.id,
      Keep(update.name, "", stored.name),
      Keep(update.publishers, [], stored.publishers),
      Keep(update.courseId, Nil, stored.courseId),
      Keep(update.tags, [], stored.tags),
      Keep(update.image, Nil, stored.image),
      Keep(update.order, 0, stored.order),
      Keep(update.createdBy, Nil, stored.createdBy),
      Keep(update.createdOn, 0, stored.createdOn),
      Keep(update.updatedOn, 0, stored.updatedOn)))
  }

  const NoChange := Book(Nil, "", [], Nil, [], Nil, 0, Nil, 0, 0)

  lemma SetBookEmpty(b: Book)
    ensures SetBook(b, NoChange) == Ok(b)
  {
  }

  lemma SetBookIdempotent(b: Book, update: Book)
    requires SetBook(b, update).Ok?
    ensures SetBook(SetBook(b, update).value, update) == SetBook(b, update)
  {
  }

  /**
   * The updated book decoded over FindById's map: every key of the book
   * document replaces the map's, so `image` becomes the raw id whenever the
   * book has one, and `stocks`, which the book document lacks, stays.
   */
  function Merge(d: BookDetail, after: Book): (m: BookDetail)
    ensures m.book == after && m.stocks == d.stocks
    ensures after.image != Nil ==> m.image == Raw(after.image)
    ensures after.image == Nil ==> m.image == d.image
  {
    BookDetail(after, if after.image != Nil then Raw(after.image) else d.image, d.stocks)
  }

  /**
   * UpdateById answers the map FindById would now give, except that `image`
   * is the raw ObjectId whenever the book has an image.
   */
  lemma UpdateAnswer(books: seq<Book>, media: seq<Media>, stocks: seq<Stock>, assetsUrl: string, hex: string, update: Book)
    requires UniqueKeys(books, BookId)
    requires FindById(books, media, stocks, assetsUrl, hex).Ok?
    requires SetBook(FindById(books, media, stocks, assetsUrl, hex).value.book, update).Ok?
    ensures var d := FindById(books, media, stocks, assetsUrl, hex).value;
      var after := SetBook(d.book, update).value;
      var now := ReplaceKey(books, BookId, d.book.id, after);
      FindById(now, media, stocks, assetsUrl, hex).Ok?
      && Merge(d, after).(image := FindById(now, media, stocks, assetsUrl, hex).value.image)
         == FindById(now, media, stocks, assetsUrl, hex).value
      && (after.image != Nil ==> Merge(d, after).image == Raw(after.image))
  {
    var d := FindById(books, media, stocks, assetsUrl, hex).value;
    var after := SetBook(d.book, update).value;
    var i := IndexOfKey(books, BookId, d.book.id).value;
    LookupOwnKeys(books, BookId);
    var now := ReplaceKey(books, BookId, d.book.id, after);
    assert now == books[i := after];
    ReplaceKeepsUnique(books, BookId, i, after);
    LookupOwnKey(now, BookId, i);
  }

  method UpdateById(bc: Collection<Book>, media: seq<Media>, stocks: seq<Stock>, assetsUrl: string, hex: string, update: Book)
    returns (r: Outcome<BookDetail>)
    requires UniqueKeys(bc.docs, BookId)
    modifies bc
    ensures UniqueKeys(bc.docs, BookId)
    ensures var found := FindById(old(bc.docs), media, stocks, assetsUrl, hex);
      found.Err? ==> r == Err(found.error) && bc.docs == old(bc.docs)
    ensures var found := FindById(old(bc.docs), media, stocks, assetsUrl, hex);
      found.Ok? ==> match SetBook(found.value.book, update)
        case Err(e) => r == Err(InternalErr(e)) && bc.docs == old(bc.docs)
        case Ok(after) => r == Ok(Merge(found.value, after)) && bc.docs == ReplaceKey(old(bc.docs), BookId, found.value.book.id, after)
  {
    var id := FromHex(hex);
    if id.Err? {
      return Err(NotFound(InvalidUserId));
    }
    var found := FindById(bc.docs, media, stocks, assetsUrl, hex);
    if found.Err? {
      return Err(found.error);
    }
    LookupOwnKeys(bc.docs, BookId);
    var result := bc.FindOneAndUpdate(id.value, BookId, (b: Book) => SetBook(b, update));
    if result.Err? {
      return Err(InternalErr(result.error));
    }
    r := Ok(Merge(found.value, result.value));
  }

  // ---- Find -----------------------------------------------------------------

  /** A book of the answer: its image, its available-stock summary and its course. */
  datatype BookOut = BookOut(book: Book, image: ImageOut, stocks: seq<StockGroup>, course: Option<Course>)

  function BookRow(b: Book, media: seq<Media>, stocks: seq<Stock>, courses: seq<Course>, assetsUrl: string): BookOut
  {
    BookOut(b, ImageOf(b.image, media, assetsUrl), Summary(stocks, b.id), Lookup(courses, CourseId, b.courseId))
  }

  function BookRows(books: seq<Book>, media: seq<Media>, stocks: seq<Stock>, courses: seq<Course>, assetsUrl: string)
    : (rows: seq<BookOut>)
    ensures |rows| == |books|
    ensures forall i :: 0 <= i < |books| ==> rows[i] == BookRow(books[i], media, stocks, courses, assetsUrl)
  {
    seq(|books|, i requires 0 <= i < |books| => BookRow(books[i], media, stocks, courses, assetsUrl))
  }

  function RowOrder(row: BookOut): int
  {
    OrderKey(row.book.order)
  }

  /** The `$match` of Find: the `_id` condition and the search; other query keys are ignored. */
  predicate Matches(b: Book, idFilter: Option<ObjectId>, search: string)
  {
    IdMatches(idFilter, b.id) && SearchMatches(search, b.name, b.tags)
  }

  function Find(books: seq<Book>, media: seq<Media>, stocks: seq<Stock>, courses: seq<Course>, assetsUrl: string, q: GetQuery)
    : Outcome<Page<BookOut>>
  {
    match IdFilter(q.id)
    case Err(e) => Err(e)
    case Ok(idFilter) =>
      var matched := Filter(books, (b: Book) => Matches(b, idFilter, q.search));
      Paginate(BookRows(matched, media, stocks, courses, assetsUrl), RowOrder, Skip(q), q.limit)
  }

  predicate Wanted(q: GetQuery, b: Book)
  {
    (q.id == "" || FromHex(q.id) == Ok(b.id)) && SearchMatches(q.search, b.name, b.tags)
  }

  function Matching(books: seq<Book>, q: GetQuery): (m: seq<Book>)
    ensures forall i :: 0 <= i < |m| ==> m[i] in books && Wanted(q, m[i])
    ensures forall i :: 0 <= i < |books| && Wanted(q, books[i]) ==> books[i] in m
  {
    Filter(books, (b: Book) => Wanted(q, b))
  }

  lemma FindFilter(books: seq<Book>, q: GetQuery)
    requires IdFilter(q.id).Ok?
    ensures Filter(books, (b: Book) => Matches(b, IdFilter(q.id).value, q.search)) == Matching(books, q)
  {
    var idFilter := IdFilter(q.id).value;
    FilterCongruent(books, (b: Book) => Matches(b, idFilter, q.search), (b: Book) => Wanted(q, b));
  }

  /** Find fails exactly on a bad `id` or a page the stages refuse, and then with a 500. */
  lemma FindOutcome(books: seq<Book>, media: seq<Media>, stocks: seq<Stock>, courses: seq<Course>, assetsUrl: string, q: GetQuery)
    ensures var r := Find(books, media, stocks, courses, assetsUrl, q);
      (r.Err? <==> IdFilter(q.id).Err? || Skip(q) < 0 || q.limit <= 0) && (r.Err? ==> r.error.code == 500)
  {
    if IdFilter(q.id).Ok? {
      var rows := BookRows(Filter(books, (b: Book) => Matches(b, IdFilter(q.id).value, q.search)), media, stocks, courses, assetsUrl);
      assert Find(books, media, stocks, courses, assetsUrl, q) == Paginate(rows, RowOrder, Skip(q), q.limit);
    }
  }

  /** `count` is the number of wanted books, and the page holds `limit` of them from `skip` on. */
  lemma FindCount(books: seq<Book>, media: seq<Media>, stocks: seq<Stock>, courses: seq<Course>, assetsUrl: string, q: GetQuery)
    requires Find(books, media, stocks, courses, assetsUrl, q).Ok?
    ensures var page := Find(books, media, stocks, courses, assetsUrl, q).value;
      page.count == |Matching(books, q)| && |page.docs| == Min(q.limit, Max(0, |Matching(books, q)| - Skip(q)))
  {
    FindFilter(books, q);
    var rows := BookRows(Matching(books, q), media, stocks, courses, assetsUrl);
    assert Find(books, media, stocks, courses, assetsUrl, q) == Paginate(rows, RowOrder, Skip(q), q.limit);
  }

  /** Every row is a wanted book with its own image, stock summary and course, and rows are in `order`. */
  lemma FindRows(books: seq<Book>, media: seq<Media>, stocks: seq<Stock>, courses: seq<Course>, assetsUrl: string, q: GetQuery)
    requires Find(books, media, stocks, courses, assetsUrl, q).Ok?
    ensures var docs := Find(books, media, stocks, courses, assetsUrl, q).value.docs;
      SortedBy(docs, RowOrder)
      && forall i :: 0 <= i < |docs| ==>
        docs[i].book in books && Wanted(q, docs[i].book)
        && docs[i] == BookRow(docs[i].book, media, stocks, courses, assetsUrl)
  {
    FindFilter(books, q);
    var rows := BookRows(Matching(books, q), media, stocks, courses, assetsUrl);
    PaginateMembers(rows, RowOrder, Skip(q), q.limit);
    PaginateAll(rows, RowOrder, Skip(q), q.limit,
      (row: BookOut) => row.book in books && Wanted(q, row.book) && row == BookRow(row.book, media, stocks, courses, assetsUrl));
  }

  /** The left outer joins drop no book: a long enough first page holds every wanted one. */
  lemma FindComplete(books: seq<Book>, media: seq<Media>, stocks: seq<Stock>, courses: seq<Course>, assetsUrl: string, q: GetQuery)
    requires IdFilter(q.id).Ok?
    requires Skip(q) == 0 && q.limit > 0 && q.limit >= |Matching(books, q)|
    ensures Find(books, media, stocks, courses, assetsUrl, q).Ok?
    ensures forall i :: 0 <= i < |books| && Wanted(q, books[i]) ==>
      BookRow(books[i], media, stocks, courses, assetsUrl) in Find(books, media, stocks, courses, assetsUrl, q).value.docs
  {
    FindFilter(books, q);
    var m := Matching(books, q);
    var rows := BookRows(m, media, stocks, courses, assetsUrl);
    PaginateWhole(rows, RowOrder, q.limit);
    var docs := Find(books, media, stocks, courses, assetsUrl, q).value.docs;
    forall i | 0 <= i < |books| && Wanted(q, books[i])
      ensures BookRow(books[i], media, stocks, courses, assetsUrl) in docs
    {
      var j :| 0 <= j < |m| && m[j] == books[i];
      assert rows[j] in multiset(rows);
    }
  }

  lemma FindPlaceholder(books: seq<Book>, media: seq<Media>, stocks: seq<Stock>, courses: seq<Course>, assetsUrl: string, q: GetQuery)
    requires Find(books, media, stocks, courses, assetsUrl, q).Ok?
    ensures Matching(books, q) == [] ==> Find(books, media, stocks, courses, assetsUrl, q).value == Page([], 0)
  {
    FindFilter(books, q);
  }
}

/**
 * FeedService (pkg/services/feed.service.go) over the `feeds` collection. Its
 * Find unwinds every feed into one row per section, joins each section's
 * image, course (with the course's image) and book (with the book's image and
 * available-stock summary), and regroups the rows by feed `_id`.
 */
module FeedService {
  import opened Wrappers
  import opened ObjectIds
  import opened Errors
  import opened Models
  import opened Store
  import opened Pipeline
  import opened Joins
  import opened Query
  import CourseService
  import BookService

  // ---- Create, FindById, UpdateById ------------------------------------------

  method Create(fc: Collection<Feed>, feed: Ref<Feed>, now: int, generated: ObjectId)
    returns (r: Outcome<Ref<Feed>>)
    requires UniqueKeys(fc.docs, FeedId) && generated != Nil
    modifies fc, feed
    ensures UniqueKeys(fc.docs, FeedId)
    ensures var filled := FeedDefaults(old(feed.v), now);
      var stored := Stored(filled, generated, FeedId, WithFeedId);
      (r.Ok? <==> Lookup(old(fc.docs), FeedId, stored.id).None?)
      && (r.Ok? ==> r.value == feed && feed.v == stored && fc.docs == old(fc.docs) + [stored])
      && (r.Err? ==> r.error == InternalErr(InsertFailed) && feed.v == filled && fc.docs == old(fc.docs))
  {
    var f := NewFeed(feed, now);
    var result := fc.InsertOne(f.v, generated, FeedId, WithFeedId);
    if result.Err? {
      return Err(InternalErr(InsertFailed));
    }
    f.v := f.v.(id := result.value);
    r := Ok(f);
  }

  function FindById(feeds: seq<Feed>, hex: string): (r: Outcome<Feed>)
    ensures FromHex(hex).Err? ==> r == Err(NotFound(InvalidUserId))
    ensures FromHex(hex).Ok? && (forall i :: 0 <= i < |feeds| ==> feeds[i].id != FromHex(hex).value) ==>
      r == Err(NotFound(UserNotFound))
    ensures r.Ok? ==> r.value in feeds && FromHex(hex) == Ok(r.value.id)
    ensures UniqueKeys(feeds, FeedId) ==>
      forall i :: 0 <= i < |feeds| && FromHex(hex) == Ok(feeds[i].id) ==> r == Ok(feeds[i])
  {
    FindByHex(feeds, FeedId, hex, NotFound(InvalidUserId), NotFound(UserNotFound))
  }

  lemma FindByIdOwnHex(feeds: seq<Feed>, i: nat)
    requires UniqueKeys(feeds, FeedId) && i < |feeds|
    ensures FindById(feeds, Hex(feeds[i].id)) == Ok(feeds[i])
  {
    HexRoundTrip(feeds[i].id);
  }

  /** `$set: update` on a feed; a non-empty `sections` replaces the whole list. */
  function SetFeed(stored: Feed, update: Feed): (r: Result<Feed, string>)
    ensures r.Err? <==> update.id != Nil && update.id != stored.id
    ensures r.Err? ==> r.error == ImmutableId
    ensures r.Ok? ==> r.value.id == stored.id
  {
    if update.id != Nil && update.id != stored.id then Err(ImmutableId)
    else Ok(Feed(
      stored.id,
      Keep(update.name, "", stored.name),
      Keep(update.title, "", stored.title),
      Keep(update.kind, "", stored.kind),
      Keep(update.viewType, "", stored.viewType),
      Keep(update.linked, "", stored.linked),
      Keep(update.paralink, "", stored.paralink),
      Keep(update.sections, [], stored.sections),
      Keep(update.order, 0, stored.order),
      Keep(update.createdBy, Nil, stored.createdBy),
      Keep(update.createdOn, 0, stored.createdOn),
      Keep(update.updatedOn, 0, stored.updatedOn)))
  }

  const NoChange := Feed(Nil, "", "", "", "", "", "", [], 0, Nil, 0, 0)

  lemma SetFeedEmpty(f: Feed)
    ensures SetFeed(f, NoChange) == Ok(f)
  {
  }

  lemma SetFeedIdempotent(f: Feed, update: Feed)
    requires SetFeed(f, update).Ok?
    ensures SetFeed(SetFeed(f, update).value, update) == SetFeed(f, update)
  {
  }

  method UpdateById(fc: Collection<Feed>, hex: string, update: Feed) returns (r: Outcome<Feed>)
    requires UniqueKeys(fc.docs, FeedId)
    modifies fc
    ensures UniqueKeys(fc.docs, FeedId)
    ensures FindById(old(fc.docs), hex).Err? ==> r == Err(FindById(old(fc.docs), hex).error) && fc.docs == old(fc.docs)
    ensures FindById(old(fc.docs), hex).Ok? ==>
      var stored := FindById(old(fc.docs), hex).value;
      match SetFeed(stored, update)
      case Err(e) => r == Err(InternalErr(e)) && fc.docs == old(fc.docs)
      case Ok(after) => r == Ok(after) && fc.docs == ReplaceKey(old(fc.docs), FeedId, stored.id, after)
    ensures r.Ok? ==> FindById(fc.docs, hex) == r
  {
    var id := FromHex(hex);
    if id.Err? {
      return Err(NotFound(InvalidUserId));
    }
    var found := FindById(fc.docs, hex);
    if found.Err? {
      return Err(found.error);
    }
    ghost var before := fc.docs;
    LookupOwnKeys(before, FeedId);
    var result := fc.FindOneAndUpdate(id.value, FeedId, (f: Feed) => SetFeed(f, update));
    if result.Err? {
      return Err(InternalErr(result.error));
    }
    r := Ok(result.value);
    ghost var i := IndexOfKey(before, FeedId, id.value).value;
    assert fc.docs == before[i := result.value];
    LookupOwnKey(fc.docs, FeedId, i);
  }

  // ---- Find: the section rows ----------------------------------------------

  /** The collections the joins read, and the assets url `$concat` prefixes. */
  datatype Sources = Sources(media: seq<Media>, courses: seq<Course>, books: seq<Book>, stocks: seq<Stock>, assetsUrl: string)

  /** A section's own fields; its `image`, `course` and `book` ids are replaced by the joins. */
  datatype SectionFields = SectionFields(title: string, kind: string, paralink: string, options: Options)

  /**
   * A section after the joins. A feed without sections still yields one
   * row, whose section has no fields of its own and only `image: {url: null}`.
   */
  datatype SectionOut = SectionOut(
    fields: Option<SectionFields>, image: ImageOut,
    course: Option<CourseService.CourseOut>, book: Option<BookService.BookDetail>)

  const NoSection := SectionOut(None, ImageOut(None, None), None, None)

  /** The `sections.course` join: the course, with its own image joined. */
  function CourseOf(ref: ObjectId, src: Sources): (r: Option<CourseService.CourseOut>)
    ensures Lookup(src.courses, CourseId, ref).None? <==> r.None?
    ensures r.Some? ==>
      r.value.course == Lookup(src.courses, CourseId, ref).value && r.value.image == ImageOf(r.value.course.image, src.media, src.assetsUrl)
  {
    match Lookup(src.courses, CourseId, ref)
    case None => None
    case Some(c) => Some(CourseService.CourseOut(c, ImageOf(c.image, src.media, src.assetsUrl)))
  }

  /** The `sections.book` join: the book with its image and its available-stock summary. */
  function BookOf(ref: ObjectId, src: Sources): (r: Option<BookService.BookDetail>)
    ensures Lookup(src.books, BookId, ref).None? <==> r.None?
    ensures r.Some? ==> r.value == BookService.Detail(Lookup(src.books, BookId, ref).value, src.media, src.stocks, src.assetsUrl)
  {
    match Lookup(src.books, BookId, ref)
    case None => None
    case Some(b) => Some(BookService.Detail(b, src.media, src.stocks, src.assetsUrl))
  }

  function SectionRow(s: Section, src: Sources): SectionOut
  {
    SectionOut(Some(SectionFields(s.title, s.kind, s.paralink, s.options)),
      ImageOf(s.image, src.media, src.assetsUrl), CourseOf(s.course, src), BookOf(s.book, src))
  }

  /** The sections a feed contributes: one joined section per stored one, or the bare one. */
  function SectionsOut(f: Feed, src: Sources): (ss: seq<SectionOut>)
    ensures |ss| == if f.sections == [] then 1 else |f.sections|
    ensures f.sections == [] ==> ss == [NoSection]
    ensures forall i :: 0 <= i < |f.sections| ==> ss[i] == SectionRow(f.sections[i], src)
  {
    if f.sections == [] then [NoSection]
    else seq(|f.sections|, i requires 0 <= i < |f.sections| => SectionRow(f.sections[i], src))
  }

  /** The section joins of every feed, against the given collections. */
  function Joined(src: Sources): Feed -> seq<SectionOut>
  {
    (f: Feed) => SectionsOut(f, src)
  }

  /** One unwound row: the feed's own fields and one section. */
  datatype Row = Row(feed: Feed, section: SectionOut)

  function RowsOf(f: Feed, ss: seq<SectionOut>): (rows: seq<Row>)
    ensures |rows| == |ss|
    ensures forall i :: 0 <= i < |ss| ==> rows[i] == Row(f, ss[i])
  {
    seq(|ss|, i requires 0 <= i < |ss| => Row(f, ss[i]))
  }

  /**
   * `$unwind: sections` (keeping feeds without any) followed by the section
   * joins; `sections` gives the joined sections of one feed.
   */
  function Unwound(feeds: seq<Feed>, sections: Feed -> seq<SectionOut>): seq<Row>
  {
    if feeds == [] then []
    else Unwound(feeds[..|feeds| - 1], sections) + RowsOf(feeds[|feeds| - 1], sections(feeds[|feeds| - 1]))
  }

  // ---- Find: the regrouping ------------------------------------------------

  /**
   * A `$group` output: `_id`, the `$push`ed sections and the `$first` of the
   * other fields; `linked` is not among them.
   */
  datatype FeedOut = FeedOut(
    id: ObjectId, name: string, title: string, kind: string, viewType: string, paralink: string,
    sections: seq<SectionOut>, order: int, createdBy: ObjectId, createdOn: int, updatedOn: int)

  function Head(f: Feed, ss: seq<SectionOut>): FeedOut
  {
    FeedOut(f.id, f.name, f.title, f.kind, f.viewType, f.paralink, ss, f.order, f.createdBy, f.createdOn, f.updatedOn)
  }

  function FindFeed(gs: seq<FeedOut>, id: ObjectId): (r: Option<nat>)
    ensures r.Some? ==> r.value < |gs| && gs[r.value].id == id
    ensures r.Some? ==> forall j :: 0 <= j < r.value ==> gs[j].id != id
    ensures r.None? ==> forall j :: 0 <= j < |gs| ==> gs[j].id != id
  {
    if gs == [] then None
    else if gs[0].id == id then Some(0)
    else match FindFeed(gs[1..], id)
      case None => None
      case Some(i) => Some(i + 1)
  }

  /** One row into the groups: its section is pushed onto its feed's group, or starts a new group. */
  function AddRow(gs: seq<FeedOut>, r: Row): seq<FeedOut>
  {
    match FindFeed(gs, r.feed.id)
    case Some(i) => gs[i := gs[i].(sections := gs[i].sections + [r.section])]
    case None => gs + [Head(r.feed, [r.section])]
  }

  function AddRows(gs: seq<FeedOut>, rows: seq<Row>): seq<FeedOut>
  {
    if rows == [] then gs
    else AddRow(AddRows(gs, rows[..|rows| - 1]), rows[|rows| - 1])
  }

  /** `$group: {_id: "$_id", sections: {$push: "$sections"}, ...}`, groups in order of first appearance. */
  function Regroup(rows: seq<Row>): seq<FeedOut>
  {
    AddRows([], rows)
  }

  lemma {:induction false} AddRowsAppend(gs: seq<FeedOut>, a: seq<Row>, b: seq<Row>)
    ensures AddRows(gs, a + b) == AddRows(AddRows(gs, a), b)
    decreases |b|
  {
    if b == [] {
      assert a + b == a;
    } else {
      assert (a + b)[..|a + b| - 1] == a + b[..|b| - 1];
      assert (a + b)[|a + b| - 1] == b[|b| - 1];
      AddRowsAppend(gs, a, b[..|b| - 1]);
    }
  }

  /** The rows of a feed whose id has no group yet form exactly one new group, in section order. */
  lemma {:induction false} AddRowsFresh(gs: seq<FeedOut>, f: Feed, ss: seq<SectionOut>)
    requires ss != []
    requires forall i :: 0 <= i < |gs| ==> gs[i].id != f.id
    ensures AddRows(gs, RowsOf(f, ss)) == gs + [Head(f, ss)]
    decreases |ss|
  {
    var init := ss[..|ss| - 1];
    var x := ss[|ss| - 1];
    RowsOfLast(f, ss);
    var before := AddRows(gs, RowsOf(f, init));
    assert AddRows(gs, RowsOf(f, ss)) == AddRow(before, Row(f, x));
    if init == [] {
      assert before == gs;
      assert [x] == ss;
    } else {
      AddRowsFresh(gs, f, init);
      PushOntoLast(gs, Head(f, init), x);
      assert init + [x] == ss;
    }
  }

  lemma RowsOfLast(f: Feed, ss: seq<SectionOut>)
    requires ss != []
    ensures RowsOf(f, ss)[..|ss| - 1] == RowsOf(f, ss[..|ss| - 1])
    ensures RowsOf(f, ss)[|ss| - 1] == Row(f, ss[|ss| - 1])
  {
  }

  /** A row of the feed that heads the last group goes onto that group. */
  lemma PushOntoLast(gs: seq<FeedOut>, g: FeedOut, x: SectionOut)
    requires forall i :: 0 <= i < |gs| ==> gs[i].id != g.id
    ensures (gs + [g])[|gs| := g.(sections := g.sections + [x])] == gs + [g.(sections := g.sections + [x])]
    ensures FindFeed(gs + [g], g.id) == Some(|gs|)
  {
    var h := gs + [g];
    assert h[|gs|].id == g.id;
    assert forall j :: 0 <= j < |gs| ==> h[j].id != g.id;
  }

  /** The feeds as Find answers them: the feed's fields and its joined sections. */
  function Outs(feeds: seq<Feed>, sections: Feed -> seq<SectionOut>): (outs: seq<FeedOut>)
    ensures |outs| == |feeds|
    ensures forall i :: 0 <= i < |feeds| ==> outs[i] == Head(feeds[i], sections(feeds[i]))
  {
    seq(|feeds|, i requires 0 <= i < |feeds| => Head(feeds[i], sections(feeds[i])))
  }

  /**
   * Unwinding and regrouping gives each feed back once, in order, with its
   * sections joined in their stored order (and the bare section for a feed
   * without any), as long as feed ids are unique.
   */
  lemma {:induction false} RegroupUnwound(feeds: seq<Feed>, sections: Feed -> seq<SectionOut>)
    requires UniqueKeys(feeds, FeedId)
    requires forall i :: 0 <= i < |feeds| ==> sections(feeds[i]) != []
    ensures Regroup(Unwound(feeds, sections)) == Outs(feeds, sections)
  {
    if feeds != [] {
      var init := feeds[..|feeds| - 1];
      var f := feeds[|feeds| - 1];
      var ss := sections(f);
      assert feeds == init + [f];
      UniqueInit(feeds, init, f, sections);
      RegroupUnwound(init, sections);
      var outs := Outs(init, sections);
      assert Unwound(feeds, sections) == Unwound(init, sections) + RowsOf(f, ss);
      AddRowsAppend([], Unwound(init, sections), RowsOf(f, ss));
      AddRowsFresh(outs, f, ss);
      OutsLast(feeds, sections);
    }
  }

  /** The feeds before the last keep the requirements, and none of them has the last one's id. */
  lemma UniqueInit(feeds: seq<Feed>, init: seq<Feed>, f: Feed, sections: Feed -> seq<SectionOut>)
    requires feeds == init + [f]
    requires UniqueKeys(feeds, FeedId)
    requires forall i :: 0 <= i < |feeds| ==> sections(feeds[i]) != []
    ensures UniqueKeys(init, FeedId)
    ensures forall i :: 0 <= i < |init| ==> sections(init[i]) != []
    ensures sections(f) != []
    ensures forall i :: 0 <= i < |init| ==> Outs(init, sections)[i].id != f.id
  {
    assert forall i :: 0 <= i < |init| ==> init[i] == feeds[i];
    assert feeds[|init|] == f;
    forall i | 0 <= i < |init| ensures Outs(init, sections)[i].id != f.id {
      assert FeedId(feeds[i]) != FeedId(feeds[|init|]);
    }
  }

  lemma OutsLast(feeds: seq<Feed>, sections: Feed -> seq<SectionOut>)
    requires feeds != []
    ensures Outs(feeds[..|feeds| - 1], sections) + [Head(feeds[|feeds| - 1], sections(feeds[|feeds| - 1]))] == Outs(feeds, sections)
  {
  }

  // ---- Find ------------------------------------------------------------------

  function FeedOrder(g: FeedOut): int
  {
    OrderKey(g.order)
  }

  /**
   * The `$match` of Find: the `_id` condition, `paralink` by equality, and the
   * search on `name` (feeds have no `tags`).
   */
  predicate Matches(f: Feed, idFilter: Option<ObjectId>, paralink: string, search: string)
  {
    IdMatches(idFilter, f.id) && (paralink == "" || f.paralink == paralink) && SearchMatches(search, f.name, [])
  }

  function Find(feeds: seq<Feed>, src: Sources, q: GetQuery): Outcome<Page<FeedOut>>
  {
    match IdFilter(q.id)
    case Err(e) => Err(e)
    case Ok(idFilter) =>
      var matched := Filter(feeds, (f: Feed) => Matches(f, idFilter, q.paralink, q.search));
      Paginate(Regroup(Unwound(matched, Joined(src))), FeedOrder, Skip(q), q.limit)
  }

  predicate Wanted(q: GetQuery, f: Feed)
  {
    (q.id == "" || FromHex(q.id) == Ok(f.id)) && (q.paralink == "" || f.paralink == q.paralink)
    && SearchMatches(q.search, f.name, [])
  }

  function Matching(feeds: seq<Feed>, q: GetQuery): (m: seq<Feed>)
    ensures forall i :: 0 <= i < |m| ==> m[i] in feeds && Wanted(q, m[i])
    ensures forall i :: 0 <= i < |feeds| && Wanted(q, feeds[i]) ==> feeds[i] in m
  {
    Filter(feeds, (f: Feed) => Wanted(q, f))
  }

  /** Find is the paginated list of the wanted feeds, each regrouped with its joined sections. */
  lemma FindFeeds(feeds: seq<Feed>, src: Sources, q: GetQuery)
    requires UniqueKeys(feeds, FeedId) && IdFilter(q.id).Ok?
    ensures Find(feeds, src, q) == Paginate(Outs(Matching(feeds, q), Joined(src)), FeedOrder, Skip(q), q.limit)
  {
    var idFilter := IdFilter(q.id).value;
    FilterCongruent(feeds, (f: Feed) => Matches(f, idFilter, q.paralink, q.search), (f: Feed) => Wanted(q, f));
    FilterUnique(feeds, FeedId, (f: Feed) => Wanted(q, f));
    RegroupUnwound(Matching(feeds, q), Joined(src));
  }

  /** Find fails exactly on a bad `id` or a page the stages refuse, always with code 500. */
  lemma FindErrors(feeds: seq<Feed>, src: Sources, q: GetQuery)
    ensures var r := Find(feeds, src, q);
      (r.Err? <==> IdFilter(q.id).Err? || Skip(q) < 0 || q.limit <= 0)
      && (r.Err? ==> r.error.code == 500)
  {
    if IdFilter(q.id).Ok? {
      var idFilter := IdFilter(q.id).value;
      var rows := Regroup(Unwound(Filter(feeds, (f: Feed) => Matches(f, idFilter, q.paralink, q.search)), Joined(src)));
      assert Find(feeds, src, q) == Paginate(rows, FeedOrder, Skip(q), q.limit);
    } else {
      IdFilterAccepts(q.id);
      assert Find(feeds, src, q) == Err(IdFilter(q.id).error);
    }
  }

  /** `count` is the number of wanted feeds, and the page is what remains of them after `skip`, up to `limit`. */
  lemma FindCount(feeds: seq<Feed>, src: Sources, q: GetQuery)
    requires UniqueKeys(feeds, FeedId) && Find(feeds, src, q).Ok?
    ensures var r := Find(feeds, src, q);
      r.value.count == |Matching(feeds, q)|
      && |r.value.docs| == Min(q.limit, Max(0, |Matching(feeds, q)| - Skip(q)))
  {
    FindFeeds(feeds, src, q);
  }

  /** Each feed of a page is a wanted stored feed with its joined sections, and the page is in `order`. */
  lemma FindRows(feeds: seq<Feed>, src: Sources, q: GetQuery)
    requires UniqueKeys(feeds, FeedId) && Find(feeds, src, q).Ok?
    ensures var docs := Find(feeds, src, q).value.docs;
      SortedBy(docs, FeedOrder)
      && forall i :: 0 <= i < |docs| ==> exists f :: f in feeds && Wanted(q, f) && docs[i] == Head(f, SectionsOut(f, src))
  {
    FindFeeds(feeds, src, q);
    var m := Matching(feeds, q);
    var outs := Outs(m, Joined(src));
    PaginateMembers(outs, FeedOrder, Skip(q), q.limit);
    forall i | 0 <= i < |outs| ensures exists f :: f in feeds && Wanted(q, f) && outs[i] == Head(f, SectionsOut(f, src)) {
      assert m[i] in feeds && Wanted(q, m[i]);
    }
    PaginateAll(outs, FeedOrder, Skip(q), q.limit,
      (g: FeedOut) => exists f :: f in feeds && Wanted(q, f) && g == Head(f, SectionsOut(f, src)));
  }

  /** A long enough first page holds every wanted feed. */
  lemma FindComplete(feeds: seq<Feed>, src: Sources, q: GetQuery)
    requires UniqueKeys(feeds, FeedId) && IdFilter(q.id).Ok?
    requires Skip(q) == 0 && q.limit > 0 && q.limit >= |Matching(feeds, q)|
    ensures Find(feeds, src, q).Ok?
    ensures forall i :: 0 <= i < |feeds| && Wanted(q, feeds[i]) ==>
      Head(feeds[i], SectionsOut(feeds[i], src)) in Find(feeds, src, q).value.docs
  {
    FindFeeds(feeds, src, q);
    var m := Matching(feeds, q);
    var outs := Outs(m, Joined(src));
    PaginateWhole(outs, FeedOrder, q.limit);
    var docs := Find(feeds, src, q).value.docs;
    forall i | 0 <= i < |feeds| && Wanted(q, feeds[i])
      ensures Head(feeds[i], SectionsOut(feeds[i], src)) in docs
    {
      var j :| 0 <= j < |m| && m[j] == feeds[i];
      assert outs[j] in multiset(outs);
    }
  }
}

/**
 * CourseService (pkg/services/course.service.go) over the `courses` collection.
 * The operations that write take the collection object; the queries are
 * functions of its documents and of the `media` collection they join.
 */
module CourseService {
  import opened Wrappers
  import opened ObjectIds
  import opened Errors
  import opened Models
  import opened Store
  import opened Pipeline
  import opened Joins
  import opened Query

  const CourseNotFound := "course not found."

  // ---- Create ---------------------------------------------------------------

  /**
   * Create fills in the timestamps, inserts the course and sets its `_id` to the
   * inserted id. A refused insert is a 500 whose message the service shares
   * with the user service.
   */
  method Create(cc: Collection<Course>, course: Ref<Course>, now: int, generated: ObjectId)
    returns (r: Outcome<Ref<Course>>)
    requires UniqueKeys(cc.docs, CourseId) && generated != Nil
    modifies cc, course
    ensures UniqueKeys(cc.docs, CourseId)
    ensures var filled := CourseDefaults(old(course.v), now);
      var stored := Stored(filled, generated, CourseId, WithCourseId);
      (r.Ok? <==> Lookup(old(cc.docs), CourseId, stored.id).None?)
      && (r.Ok? ==> r.value == course && course.v == stored && cc.docs == old(cc.docs) + [stored])
      && (r.Err? ==> r.error == InternalErr(InsertFailed) && course.v == filled && cc.docs == old(cc.docs))
  {
    var c := NewCourse(course, now);
    var result := cc.InsertOne(c.v, generated, CourseId, WithCourseId);
    if result.Err? {
      return Err(InternalErr(InsertFailed));
    }
    c.v := c.v.(id := result.value);
    r := Ok(c);
  }

  // ---- FindById -------------------------------------------------------------

  /** FindById: the stored course with that id; its messages speak of a user. */
  function FindById(courses: seq<Course>, hex: string): (r: Outcome<Course>)
    ensures FromHex(hex).Err? ==> r == Err(NotFound(InvalidUserId))
    ensures FromHex(hex).Ok? && (forall i :: 0 <= i < |courses| ==> courses[i].id != FromHex(hex).value) ==>
      r == Err(NotFound(UserNotFound))
    ensures r.Ok? ==> r.value in courses && FromHex(hex) == Ok(r.value.id)
    ensures UniqueKeys(courses, CourseId) ==>
      forall i :: 0 <= i < |courses| && FromHex(hex) == Ok(courses[i].id) ==> r == Ok(courses[i])
  {
    FindByHex(courses, CourseId, hex, NotFound(InvalidUserId), NotFound(UserNotFound))
  }

  /** Every stored course is found again under the hex form of its `_id`. */
  lemma FindByIdOwnHex(courses: seq<Course>, i: nat)
    requires UniqueKeys(courses, CourseId) && i < |courses|
    ensures FindById(courses, Hex(courses[i].id)) == Ok(courses[i])
  {
    HexRoundTrip(courses[i].id);
  }

  // ---- UpdateById -----------------------------------------------------------

  /**
   * The stored course after `$set: update`: each field the update carries
   * (omitempty drops the empty ones) replaces the stored one. An update that
   * carries a different `_id` is refused by the server.
   */
  function SetCourse(stored: Course, update: Course): (r: Result<Course, string>)
    ensures r.Err? <==> update.id != Nil && update.id != stored.id
    ensures r.Err? ==> r.error == ImmutableId
    ensures r.Ok? ==> r.value.id == stored.id
  {
    if update.id != Nil && update.id != stored.id then Err(ImmutableId)
    else Ok(Course(
      stored.id,
      Keep(update.name, "", stored.name),
      Keep(update.streams, [], stored.streams),
      Keep(update.semesters, [], stored.semesters),
      Keep(update.tags, [], stored.tags),
      Keep(update.image, Nil, stored.image),
      Keep(update.order, 0, stored.order),
      Keep(update.createdBy, Nil, stored.createdBy),
      Keep(update.createdOn, 0, stored.createdOn),
      Keep(update.updatedOn, 0, stored.updatedOn)))
  }

  /** The update that carries nothing. */
  const NoChange := Course(Nil, "", [], [], [], Nil, 0, Nil, 0, 0)

  /** An empty update leaves the course as it is. */
  lemma SetCourseEmpty(c: Course)
    ensures SetCourse(c, NoChange) == Ok(c)
  {
  }

  /** Applying the same update to its own result changes nothing more. */
  lemma SetCourseIdempotent(c: Course, update: Course)
    requires SetCourse(c, update).Ok?
    ensures SetCourse(SetCourse(c, update).value, update) == SetCourse(c, update)
  {
  }

  /** The fields an update carries are the ones the course now has; the rest are the stored ones. */
  lemma SetCourseFields(c: Course, update: Course)
    requires SetCourse(c, update).Ok?
    ensures var a := SetCourse(c, update).value;
      (update.name != "" ==> a.name == update.name) && (update.name == "" ==> a.name == c.name)
      && (update.tags != [] ==> a.tags == update.tags) && (update.tags == [] ==> a.tags == c.tags)
      && (update.image != Nil ==> a.image == update.image) && (update.image == Nil ==> a.image == c.image)
      && (update.order != 0 ==> a.order == update.order) && (update.order == 0 ==> a.order == c.order)
      && (update.updatedOn != 0 ==> a.updatedOn == update.updatedOn) && (update.updatedOn == 0 ==> a.updatedOn == c.updatedOn)
  {
  }

  /**
   * UpdateById: the id is checked, the course looked up (with FindById's
   * errors), then updated; the answer is the course after the update.
   */
  method UpdateById(cc: Collection<Course>, hex: string, update: Course) returns (r: Outcome<Course>)
    requires UniqueKeys(cc.docs, CourseId)
    modifies cc
    ensures UniqueKeys(cc.docs, CourseId)
    ensures FindById(old(cc.docs), hex).Err? ==> r == Err(FindById(old(cc.docs), hex).error) && cc.docs == old(cc.docs)
    ensures FindById(old(cc.docs), hex).Ok? ==>
      var stored := FindById(old(cc.docs), hex).value;
      match SetCourse(stored, update)
      case Err(e) => r == Err(InternalErr(e)) && cc.docs == old(cc.docs)
      case Ok(after) => r == Ok(after) && cc.docs == ReplaceKey(old(cc.docs), CourseId, stored.id, after)
    ensures r.Ok? ==> FindById(cc.docs, hex) == r
  {
    var id := FromHex(hex);
    if id.Err? {
      return Err(NotFound(InvalidUserId));
    }
    var found := FindById(cc.docs, hex);
    if found.Err? {
      return Err(found.error);
    }
    ghost var before := cc.docs;
    LookupOwnKeys(before, CourseId);
    var result := cc.FindOneAndUpdate(id.value, CourseId, (c: Course) => SetCourse(c, update));
    if result.Err? {
      return Err(InternalErr(result.error));
    }
    r := Ok(result.value);
    ghost var i := IndexOfKey(before, CourseId, id.value).value;
    assert cc.docs == before[i := result.value];
    LookupOwnKey(cc.docs, CourseId, i);
  }

  // ---- DeleteById -----------------------------------------------------------

  /** DeleteById: `nil` when a course was removed, otherwise the error the handler answers. */
  method DeleteById(cc: Collection<Course>, hex: string) returns (r: Option<RestError>)
    requires UniqueKeys(cc.docs, CourseId)
    modifies cc
    ensures UniqueKeys(cc.docs, CourseId)
    ensures FromHex(hex).Err? ==> r == Some(NotFound(InvalidUserId)) && cc.docs == old(cc.docs)
    ensures FromHex(hex).Ok? ==> match IndexOfKey(old(cc.docs), CourseId, FromHex(hex).value)
      case None => r == Some(NotFound(CourseNotFound)) && cc.docs == old(cc.docs)
      case Some(i) => r == None && cc.docs == RemoveAt(old(cc.docs), i)
    ensures r.None? <==> FindById(old(cc.docs), hex).Ok?
    ensures FindById(cc.docs, hex).Err?
  {
    var id := FromHex(hex);
    if id.Err? {
      return Some(NotFound(InvalidUserId));
    }
    LookupOwnKeys(cc.docs, CourseId);
    var deleted := cc.DeleteOne(id.value, CourseId);
    if deleted == 0 {
      return Some(NotFound(CourseNotFound));
    }
    r := None;
  }

  // ---- Find -----------------------------------------------------------------

  /** A course of the answer: the stored fields, with `image` replaced by the joined media. */
  datatype CourseOut = CourseOut(course: Course, image: ImageOut)

  function CourseRows(courses: seq<Course>, media: seq<Media>, assetsUrl: string): (rows: seq<CourseOut>)
    ensures |rows| == |courses|
    ensures forall i :: 0 <= i < |courses| ==> rows[i] == CourseOut(courses[i], ImageOf(courses[i].image, media, assetsUrl))
  {
    seq(|courses|, i requires 0 <= i < |courses| => CourseOut(courses[i], ImageOf(courses[i].image, media, assetsUrl)))
  }

  /** `$sort: {order: 1}`. */
  function RowOrder(row: CourseOut): int
  {
    OrderKey(row.course.order)
  }

  /**
   * The `$match` the query builds from its parsed filters. Courses have no
   * `course_id` field, so a `course_id` condition matches none of them.
   */
  predicate Matches(c: Course, idFilter: Option<ObjectId>, courseFilter: Option<ObjectId>, search: string)
  {
    IdMatches(idFilter, c.id) && courseFilter.None? && SearchMatches(search, c.name, c.tags)
  }

  /**
   * Find: the filters are parsed (a bad id is a 500), the matching courses
   * joined with their image, sorted by `order` and paginated.
   */
  function Find(courses: seq<Course>, media: seq<Media>, assetsUrl: string, q: GetQuery): Outcome<Page<CourseOut>>
  {
    match IdFilter(q.id)
    case Err(e) => Err(e)
    case Ok(idFilter) =>
      match IdFilter(q.courseId)
      case Err(e) => Err(e)
      case Ok(courseFilter) =>
        var matched := Filter(courses, (c: Course) => Matches(c, idFilter, courseFilter, q.search));
        Paginate(CourseRows(matched, media, assetsUrl), RowOrder, Skip(q), q.limit)
  }

  /** What a query asks of a course, read off the query strings directly. */
  predicate Wanted(q: GetQuery, c: Course)
  {
    (q.id == "" || FromHex(q.id) == Ok(c.id)) && q.courseId == "" && SearchMatches(q.search, c.name, c.tags)
  }

  function Matching(courses: seq<Course>, q: GetQuery): (m: seq<Course>)
    ensures forall i :: 0 <= i < |m| ==> m[i] in courses && Wanted(q, m[i])
    ensures forall i :: 0 <= i < |courses| && Wanted(q, courses[i]) ==> courses[i] in m
  {
    Filter(courses, (c: Course) => Wanted(q, c))
  }

  /** Find's filter keeps exactly the wanted courses, once both id strings parse. */
  lemma FindFilter(courses: seq<Course>, q: GetQuery)
    requires IdFilter(q.id).Ok? && IdFilter(q.courseId).Ok?
    ensures Filter(courses, (c: Course) => Matches(c, IdFilter(q.id).value, IdFilter(q.courseId).value, q.search))
      == Matching(courses, q)
  {
    var idFilter, courseFilter := IdFilter(q.id).value, IdFilter(q.courseId).value;
    IdFilterAccepts(q.courseId);
    FilterCongruent(courses, (c: Course) => Matches(c, idFilter, courseFilter, q.search), (c: Course) => Wanted(q, c));
  }

  /** Find fails exactly when an id is bad or the stages refuse the page, and then with a 500. */
  lemma FindOutcome(courses: seq<Course>, media: seq<Media>, assetsUrl: string, q: GetQuery)
    ensures var r := Find(courses, media, assetsUrl, q);
      (r.Err? <==> IdFilter(q.id).Err? || IdFilter(q.courseId).Err? || Skip(q) < 0 || q.limit <= 0) && (r.Err? ==> r.error.code == 500)
  {
    if IdFilter(q.id).Ok? && IdFilter(q.courseId).Ok? {
      var rows := CourseRows(Filter(courses, (c: Course) => Matches(c, IdFilter(q.id).value, IdFilter(q.courseId).value, q.search)), media, assetsUrl);
      assert Find(courses, media, assetsUrl, q) == Paginate(rows, RowOrder, Skip(q), q.limit);
    }
  }

  /** `count` is the number of wanted courses, and the page holds `limit` of them from `skip` on. */
  lemma FindCount(courses: seq<Course>, media: seq<Media>, assetsUrl: string, q: GetQuery)
    requires Find(courses, media, assetsUrl, q).Ok?
    ensures var page := Find(courses, media, assetsUrl, q).value;
      page.count == |Matching(courses, q)| && |page.docs| == Min(q.limit, Max(0, |Matching(courses, q)| - Skip(q)))
  {
    FindFilter(courses, q);
    var rows := CourseRows(Matching(courses, q), media, assetsUrl);
    assert Find(courses, media, assetsUrl, q) == Paginate(rows, RowOrder, Skip(q), q.limit);
  }

  /**
   * Every course of a page is a stored course the query wants, carrying the
   * media its `image` refers to, and the page is in `order`.
   */
  lemma FindRows(courses: seq<Course>, media: seq<Media>, assetsUrl: string, q: GetQuery)
    requires Find(courses, media, assetsUrl, q).Ok?
    ensures var docs := Find(courses, media, assetsUrl, q).value.docs;
      SortedBy(docs, RowOrder)
      && forall i :: 0 <= i < |docs| ==>
        docs[i].course in courses && Wanted(q, docs[i].course)
        && docs[i].image == ImageOf(docs[i].course.image, media, assetsUrl)
  {
    FindFilter(courses, q);
    var m := Matching(courses, q);
    var rows := CourseRows(m, media, assetsUrl);
    PaginateMembers(rows, RowOrder, Skip(q), q.limit);
    PaginateAll(rows, RowOrder, Skip(q), q.limit,
      (row: CourseOut) => row.course in courses && Wanted(q, row.course) && row.image == ImageOf(row.course.image, media, assetsUrl));
  }

  /** A first page as long as the match list leaves no wanted course out. */
  lemma FindComplete(courses: seq<Course>, media: seq<Media>, assetsUrl: string, q: GetQuery)
    requires IdFilter(q.id).Ok? && IdFilter(q.courseId).Ok?
    requires Skip(q) == 0 && q.limit > 0 && q.limit >= |Matching(courses, q)|
    ensures Find(courses, media, assetsUrl, q).Ok?
    ensures forall i :: 0 <= i < |courses| && Wanted(q, courses[i]) ==>
      CourseOut(courses[i], ImageOf(courses[i].image, media, assetsUrl)) in Find(courses, media, assetsUrl, q).value.docs
  {
    FindFilter(courses, q);
    var m := Matching(courses, q);
    var rows := CourseRows(m, media, assetsUrl);
    PaginateWhole(rows, RowOrder, q.limit);
    var docs := Find(courses, media, assetsUrl, q).value.docs;
    forall i | 0 <= i < |courses| && Wanted(q, courses[i])
      ensures CourseOut(courses[i], ImageOf(courses[i].image, media, assetsUrl)) in docs
    {
      var j :| 0 <= j < |m| && m[j] == courses[i];
      assert rows[j] in multiset(rows);
    }
  }

  /**
   * With nothing wanted, a well-formed query answers the placeholder; a
   * `course_id` condition is such a query.
   */
  lemma FindPlaceholder(courses: seq<Course>, media: seq<Media>, assetsUrl: string, q: GetQuery)
    requires Find(courses, media, assetsUrl, q).Ok?
    ensures Matching(courses, q) == [] ==> Find(courses, media, assetsUrl, q).value == Page([], 0)
    ensures q.courseId != "" ==> Find(courses, media, assetsUrl, q).value == Page([], 0)
  {
    FindFilter(courses, q);
    FilterNone(courses, (c: Course) => Wanted(q, c));
  }
}

/**
 * The list query every paginated Find takes (services.GetQuery, declared in
 * course.service.go), its defaults, and the filter pieces the Find pipelines
 * share: the ObjectId filter and the case-insensitive name/tags search.
 */
module Query {
  import opened Wrappers
  import opened ObjectIds
  import opened Errors
  import opened Models
  import Pipeline
  import Text

  /** The messages the services share; the insert failure says "user" in every service. */
  const InsertFailed := "can't insert user to the database."
  const InvalidUserId := "Invalid user_id"
  const UserNotFound := "user not found."

  /** GetQuery; `page` and `limit` are the int64 values the schema decoder produced. */
  datatype GetQuery = GetQuery(
    id: string, page: int, limit: int, search: string, sort: string,
    courseId: string, bookId: string, paralink: string)

  /** NewGetQuery's rule: a zero limit becomes 20 and a zero page becomes 1. */
  function QueryDefaults(q: GetQuery): (r: GetQuery)
    ensures q.limit == 0 ==> r.limit == 20
    ensures q.limit != 0 ==> r.limit == q.limit
    ensures q.page == 0 ==> r.page == 1
    ensures q.page != 0 ==> r.page == q.page
    ensures r.(limit := q.limit, page := q.page) == q
  {
    q.(limit := if q.limit == 0 then 20 else q.limit, page := if q.page == 0 then 1 else q.page)
  }

  method NewGetQuery(q: Ref<GetQuery>)
    modifies q
    ensures q.v == QueryDefaults(old(q.v))
  {
    if q.v.limit == 0 {
      q.v := q.v.(limit := 20);
    }
    if q.v.page == 0 {
      q.v := q.v.(page := 1);
    }
  }

  lemma QueryDefaultsIdempotent(q: GetQuery)
    ensures QueryDefaults(QueryDefaults(q)) == QueryDefaults(q)
  {
  }

  /** skip := (params.Page - 1) * params.Limit, in int64 arithmetic. */
  function Skip(q: GetQuery): (skip: int)
    ensures Pipeline.MinInt64 <= skip <= Pipeline.MaxInt64
    ensures Pipeline.MinInt64 <= (q.page - 1) * q.limit <= Pipeline.MaxInt64 ==> skip == (q.page - 1) * q.limit
  {
    Pipeline.Wrap64((q.page - 1) * q.limit)
  }

  /**
   * After the defaults, a query whose page and limit are not negative (and
   * small enough not to overflow) never trips the `$skip` or `$limit` checks.
   */
  lemma DefaultsPaginate(q: GetQuery)
    requires 0 <= q.page <= 0x7FFF_FFFF && 0 <= q.limit <= 0x7FFF_FFFF
    ensures Skip(QueryDefaults(q)) >= 0 && QueryDefaults(q).limit > 0
    ensures q.page == 0 ==> Skip(QueryDefaults(q)) == 0
  {
    var d := QueryDefaults(q);
    MulBound(d.page - 1, d.limit, 0x7FFF_FFFF);
  }

  lemma MulBound(a: int, b: int, m: int)
    requires 0 <= a <= m && 0 <= b <= m
    ensures 0 <= a * b <= m * m
  {
    assert a * b <= m * b;
    assert m * b <= m * m;
  }

  /** The `_id` (or other ObjectId) condition a non-empty query string adds, or the 500 it raises. */
  function IdFilter(s: string): (r: Outcome<Option<ObjectId>>)
  {
    if s == "" then Ok(None)
    else match FromHex(s)
      case Err(e) => Err(InternalErr(e))
      case Ok(id) => Ok(Some(id))
  }

  /** A filter string is accepted exactly when it is empty or 24 hex digits; a refusal is a 500. */
  lemma IdFilterAccepts(s: string)
    ensures IdFilter(s).Ok? <==> s == "" || (|s| == 24 && IsHex(s))
    ensures IdFilter(s).Err? ==> IdFilter(s).error.code == 500 && IdFilter(s).error.message == FromHex(s).error
    ensures IdFilter(s) == Ok(None) <==> s == ""
  {
    FromHexAccepts(s);
  }

  predicate IdMatches(f: Option<ObjectId>, id: ObjectId)
  {
    f.None? || f.value == id
  }

  /**
   * `$or: [{name: {$regex: search, $options: "i"}}, {tags: {$elemMatch: ...}}]`,
   * with the pattern read as plain text. A document without the field has it
   * empty here, and an empty field matches no non-empty pattern.
   */
  predicate SearchMatches(search: string, name: string, tags: seq<string>)
  {
    search == "" || Text.ContainsFold(name, search) || exists i :: 0 <= i < |tags| && Text.ContainsFold(tags[i], search)
  }

  /** A document kind that has neither `name` nor `tags` matches no non-empty search. */
  lemma SearchWithoutFields(search: string)
    ensures SearchMatches(search, "", []) <==> search == ""
  {
    if search != "" {
      assert !Text.ContainsFold("", search);
    }
  }
}

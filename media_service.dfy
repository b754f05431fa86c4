/**
 * MediaService (pkg/services/media.service.go) over the `media` collection.
 * Unlike the other services it neither fills in defaults on Create nor
 * parses an `id` in Find.
 */
module MediaService {
  import opened Wrappers
  import opened ObjectIds
  import opened Errors
  import opened Models
  import opened Store
  import opened Pipeline
  import opened Query
  import Text
  import Config

  const InvalidMediaId := "Invalid media_id"
  const MediaNotFound := "media not found."

  // ---- Create ---------------------------------------------------------------

  /**
   * Create inserts the media as given (NewMedia is not called, so the
   * timestamps stay as they are), then sets its `_id` and prefixes its path
   * for the answer. The stored path is the original one.
   */
  method Create(mc: Collection<Media>, media: Ref<Media>, configs: Config.Configurations, generated: ObjectId)
    returns (r: Outcome<Ref<Media>>)
    requires UniqueKeys(mc.docs, MediaId) && generated != Nil
    modifies mc, media
    ensures UniqueKeys(mc.docs, MediaId)
    ensures var stored := Stored(old(media.v), generated, MediaId, WithMediaId);
      (r.Ok? <==> Lookup(old(mc.docs), MediaId, stored.id).None?)
      && (r.Ok? ==> r.value == media && mc.docs == old(mc.docs) + [stored]
                    && media.v == stored.(path := Config.AppendUrl(configs, stored.path)))
      && (r.Err? ==> r.error == InternalErr(InsertFailed) && media.v == old(media.v) && mc.docs == old(mc.docs))
  {
    var result := mc.InsertOne(media.v, generated, MediaId, WithMediaId);
    if result.Err? {
      return Err(InternalErr(InsertFailed));
    }
    media.v := media.v.(id := result.value);
    media.v := media.v.(path := Config.AppendUrl(configs, media.v.path));
    r := Ok(media);
  }

  // ---- FindById -------------------------------------------------------------

  function FindById(media: seq<Media>, hex: string): (r: Outcome<Media>)
    ensures FromHex(hex).Err? ==> r == Err(NotFound(InvalidMediaId))
    ensures FromHex(hex).Ok? && (forall i :: 0 <= i < |media| ==> media[i].id != FromHex(hex).value) ==>
      r == Err(NotFound(MediaNotFound))
    ensures r.Ok? ==> r.value in media && FromHex(hex) == Ok(r.value.id)
    ensures UniqueKeys(media, MediaId) ==>
      forall i :: 0 <= i < |media| && FromHex(hex) == Ok(media[i].id) ==> r == Ok(media[i])
  {
    FindByHex(media, MediaId, hex, NotFound(InvalidMediaId), NotFound(MediaNotFound))
  }

  lemma FindByIdOwnHex(media: seq<Media>, i: nat)
    requires UniqueKeys(media, MediaId) && i < |media|
    ensures FindById(media, Hex(media[i].id)) == Ok(media[i])
  {
    HexRoundTrip(media[i].id);
  }

  // ---- Find -----------------------------------------------------------------

  /**
   * A media document of the answer with the `url` that `$addFields` computes:
   * `$concat` of the assets URL and the path, with no URL test, and null when
   * the document has no path (omitempty leaves an empty one out).
   */
  datatype MediaOut = MediaOut(media: Media, url: Option<string>)

  function UrlOf(m: Media, assetsUrl: string): (url: Option<string>)
    ensures m.path != "" ==> url == Some(assetsUrl + m.path)
    ensures m.path == "" ==> url.None?
  {
    if m.path == "" then None else Some(assetsUrl + m.path)
  }

  function MediaRows(media: seq<Media>, assetsUrl: string): (rows: seq<MediaOut>)
    ensures |rows| == |media|
    ensures forall i :: 0 <= i < |media| ==> rows[i] == MediaOut(media[i], UrlOf(media[i], assetsUrl))
  {
    seq(|media|, i requires 0 <= i < |media| => MediaOut(media[i], UrlOf(media[i], assetsUrl)))
  }

  /** `$sort: {_id: -1}`: the sort key is the negated ObjectID value. */
  function IdDescending(row: MediaOut): int
  {
    -(BytesValue(row.media.id) as int)
  }

  /** The `$match`: the search is tried against `path` alone. */
  predicate Wanted(q: GetQuery, m: Media)
  {
    q.search == "" || Text.ContainsFold(m.path, q.search)
  }

  function Matching(media: seq<Media>, q: GetQuery): (m: seq<Media>)
    ensures forall i :: 0 <= i < |m| ==> m[i] in media && Wanted(q, m[i])
    ensures forall i :: 0 <= i < |media| && Wanted(q, media[i]) ==> media[i] in m
  {
    Filter(media, (d: Media) => Wanted(q, d))
  }

  function Find(media: seq<Media>, assetsUrl: string, q: GetQuery): Outcome<Page<MediaOut>>
  {
    Paginate(MediaRows(Matching(media, q), assetsUrl), IdDescending, Skip(q), q.limit)
  }

  /** Find fails exactly when the stages refuse the page, and then with a 500. */
  lemma FindOutcome(media: seq<Media>, assetsUrl: string, q: GetQuery)
    ensures var r := Find(media, assetsUrl, q);
      (r.Err? <==> Skip(q) < 0 || q.limit <= 0) && (r.Err? ==> r.error.code == 500)
  {
    var rows := MediaRows(Matching(media, q), assetsUrl);
    assert Find(media, assetsUrl, q) == Paginate(rows, IdDescending, Skip(q), q.limit);
  }

  /** `count` is the number of wanted media, and the page holds `limit` of them from `skip` on. */
  lemma FindCount(media: seq<Media>, assetsUrl: string, q: GetQuery)
    requires Find(media, assetsUrl, q).Ok?
    ensures var page := Find(media, assetsUrl, q).value;
      page.count == |Matching(media, q)| && |page.docs| == Min(q.limit, Max(0, |Matching(media, q)| - Skip(q)))
  {
    var rows := MediaRows(Matching(media, q), assetsUrl);
    assert Find(media, assetsUrl, q) == Paginate(rows, IdDescending, Skip(q), q.limit);
  }

  /** The query's `id` takes no part in Find: a malformed one is no error. */
  lemma FindIgnoresId(media: seq<Media>, assetsUrl: string, q: GetQuery, id: string)
    ensures Find(media, assetsUrl, q.(id := id)) == Find(media, assetsUrl, q)
  {
    var q' := q.(id := id);
    FilterCongruent(media, (d: Media) => Wanted(q', d), (d: Media) => Wanted(q, d));
    assert Matching(media, q') == Matching(media, q);
    assert Skip(q') == Skip(q) && q'.limit == q.limit;
  }

  /**
   * Every media of a page is a stored one the search wants, with its `url`,
   * and the page runs from the newest `_id` to the oldest.
   */
  lemma FindRows(media: seq<Media>, assetsUrl: string, q: GetQuery)
    requires Find(media, assetsUrl, q).Ok?
    ensures var docs := Find(media, assetsUrl, q).value.docs;
      (forall i, j :: 0 <= i < j < |docs| ==> BytesValue(docs[i].media.id) >= BytesValue(docs[j].media.id))
      && forall i :: 0 <= i < |docs| ==>
        docs[i].media in media && Wanted(q, docs[i].media) && docs[i].url == UrlOf(docs[i].media, assetsUrl)
  {
    var rows := MediaRows(Matching(media, q), assetsUrl);
    var docs := Find(media, assetsUrl, q).value.docs;
    PaginateMembers(rows, IdDescending, Skip(q), q.limit);
    PaginateAll(rows, IdDescending, Skip(q), q.limit,
      (row: MediaOut) => row.media in media && Wanted(q, row.media) && row.url == UrlOf(row.media, assetsUrl));
    forall i, j | 0 <= i < j < |docs| ensures BytesValue(docs[i].media.id) >= BytesValue(docs[j].media.id) {
      assert IdDescending(docs[i]) <= IdDescending(docs[j]);
    }
  }

  /** A long enough first page holds every wanted media. */
  lemma FindComplete(media: seq<Media>, assetsUrl: string, q: GetQuery)
    requires Skip(q) == 0 && q.limit > 0 && q.limit >= |Matching(media, q)|
    ensures Find(media, assetsUrl, q).Ok?
    ensures forall i :: 0 <= i < |media| && Wanted(q, media[i]) ==>
      MediaOut(media[i], UrlOf(media[i], assetsUrl)) in Find(media, assetsUrl, q).value.docs
  {
    var m := Matching(media, q);
    var rows := MediaRows(m, assetsUrl);
    PaginateWhole(rows, IdDescending, q.limit);
    var docs := Find(media, assetsUrl, q).value.docs;
    forall i | 0 <= i < |media| && Wanted(q, media[i])
      ensures MediaOut(media[i], UrlOf(media[i], assetsUrl)) in docs
    {
      var j :| 0 <= j < |m| && m[j] == media[i];
      assert rows[j] in multiset(rows);
    }
  }

  /** With nothing wanted, a well-formed query answers the placeholder. */
  lemma FindPlaceholder(media: seq<Media>, assetsUrl: string, q: GetQuery)
    requires Find(media, assetsUrl, q).Ok?
    requires forall i :: 0 <= i < |media| ==> !Wanted(q, media[i])
    ensures Find(media, assetsUrl, q).value == Page([], 0)
  {
    FilterNone(media, (d: Media) => Wanted(q, d));
  }
}

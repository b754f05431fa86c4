/**
 * The aggregation stages every paginated Find shares: `$match` keeps the
 * documents a predicate accepts, `$sort` orders them by one key, and
 * `$facet` runs `docs: [$sort, $skip, $limit]` beside `total: [$count]`,
 * after which `$unwind: "$total"` drops the single facet document when
 * nothing matched. A collection is a sequence in its natural order.
 */
module Pipeline {
  import opened Wrappers
  import opened Errors

  const MinInt64 := -0x8000_0000_0000_0000
  const MaxInt64 := 0x7FFF_FFFF_FFFF_FFFF
  const Two64 := 0x1_0000_0000_0000_0000

  /** Go's int64 arithmetic: the result is taken modulo 2^64, in two's complement. */
  function Wrap64(x: int): (r: int)
    ensures MinInt64 <= r <= MaxInt64
    ensures (x - r) % Two64 == 0
    ensures MinInt64 <= x <= MaxInt64 ==> r == x
  {
    var m := x % Two64;
    if m > MaxInt64 then m - Two64 else m
  }

  /** `$match`: the documents `p` accepts, in their original order. */
  function Filter<T>(s: seq<T>, p: T -> bool): (r: seq<T>)
    ensures |r| <= |s|
    ensures forall i :: 0 <= i < |r| ==> p(r[i]) && r[i] in s
    ensures forall i :: 0 <= i < |s| && p(s[i]) ==> s[i] in r
  {
    if s == [] then []
    else (if p(s[0]) then [s[0]] else []) + Filter(s[1..], p)
  }

  /** Filter of a concatenation is the concatenation of the filters. */
  lemma {:induction false} FilterAppend<T>(a: seq<T>, b: seq<T>, p: T -> bool)
    ensures Filter(a + b, p) == Filter(a, p) + Filter(b, p)
  {
    if a == [] {
      assert a + b == b;
    } else {
      assert (a + b)[1..] == a[1..] + b;
      FilterAppend(a[1..], b, p);
    }
  }

  /** Two predicates that agree on every element of `s` keep the same documents. */
  lemma {:induction false} FilterCongruent<T>(s: seq<T>, p: T -> bool, q: T -> bool)
    requires forall i :: 0 <= i < |s| ==> p(s[i]) == q(s[i])
    ensures Filter(s, p) == Filter(s, q)
  {
    if s != [] {
      assert forall i :: 0 <= i < |s[1..]| ==> s[1..][i] == s[i + 1];
      FilterCongruent(s[1..], p, q);
    }
  }

  /** A predicate no element satisfies keeps nothing. */
  lemma FilterNone<T>(s: seq<T>, p: T -> bool)
    ensures Filter(s, p) == [] <==> forall i :: 0 <= i < |s| ==> !p(s[i])
  {
    var r := Filter(s, p);
    if r != [] {
      assert r[0] in s;
    }
  }

  predicate SortedBy<T>(s: seq<T>, key: T -> int)
  {
    forall i, j :: 0 <= i < j < |s| ==> key(s[i]) <= key(s[j])
  }

  /** Where insertion puts `x`: after the leading elements whose keys are not greater than its own. */
  function InsertPos<T>(x: T, s: seq<T>, key: T -> int): (k: nat)
    ensures k <= |s|
    ensures forall i :: 0 <= i < k ==> key(s[i]) <= key(x)
    ensures k < |s| ==> key(x) < key(s[k])
  {
    if s == [] || key(x) < key(s[0]) then 0
    else 1 + InsertPos(x, s[1..], key)
  }

  function Insert<T>(x: T, s: seq<T>, key: T -> int): (r: seq<T>)
  {
    var k := InsertPos(x, s, key);
    s[..k] + [x] + s[k..]
  }

  /** Where `Insert` puts each element. */
  lemma InsertLayout<T>(x: T, s: seq<T>, key: T -> int)
    ensures var k, r := InsertPos(x, s, key), Insert(x, s, key);
      |r| == |s| + 1 && r[k] == x
      && (forall i :: 0 <= i < k ==> r[i] == s[i])
      && (forall i :: k < i < |r| ==> r[i] == s[i - 1])
  {
  }

  lemma InsertKeepsOrder<T>(x: T, s: seq<T>, key: T -> int)
    requires SortedBy(s, key)
    ensures SortedBy(Insert(x, s, key), key)
  {
    var k := InsertPos(x, s, key);
    var r := Insert(x, s, key);
    InsertLayout(x, s, key);
    forall i, j | 0 <= i < j < |r| ensures key(r[i]) <= key(r[j]) {
      if j <= k {
      } else if i < k {
        assert key(s[i]) <= key(s[j - 1]);
      } else if i == k {
        assert key(s[k]) <= key(s[j - 1]);
      } else {
        assert key(s[i - 1]) <= key(s[j - 1]);
      }
    }
  }

  lemma InsertSorted<T>(x: T, s: seq<T>, key: T -> int)
    requires SortedBy(s, key)
    ensures SortedBy(Insert(x, s, key), key)
    ensures multiset(Insert(x, s, key)) == multiset(s) + multiset{x}
  {
    InsertKeepsOrder(x, s, key);
    var k := InsertPos(x, s, key);
    assert s == s[..k] + s[k..];
    calc {
      multiset(Insert(x, s, key));
      multiset(s[..k]) + multiset{x} + multiset(s[k..]);
      multiset(s) + multiset{x};
    }
  }

  /**
   * `$sort` on one ascending key: a stable insertion sort, so documents with
   * equal keys keep their natural order.
   */
  function SortBy<T>(s: seq<T>, key: T -> int): (r: seq<T>)
    ensures SortedBy(r, key)
    ensures multiset(r) == multiset(s)
    ensures |r| == |s|
  {
    if s == [] then []
    else
      var init := s[..|s| - 1];
      assert s == init + [s[|s| - 1]];
      var sorted := SortBy(init, key);
      InsertSorted(s[|s| - 1], sorted, key);
      var r := Insert(s[|s| - 1], sorted, key);
      assert |r| == |multiset(r)|;
      r
  }

  /**
   * When every document has the same key (the sort field is missing from all
   * of them), the stable sort keeps the natural order.
   */
  lemma {:induction false} SortByConstant<T>(s: seq<T>, key: T -> int, k: int)
    requires forall i :: 0 <= i < |s| ==> key(s[i]) == k
    ensures SortBy(s, key) == s
  {
    if s != [] {
      var init := s[..|s| - 1];
      var x := s[|s| - 1];
      assert forall i :: 0 <= i < |init| ==> init[i] == s[i];
      SortByConstant(init, key, k);
      InsertAtEnd(x, init, key);
      SplitLast(s);
    }
  }

  lemma SplitLast<T>(s: seq<T>)
    requires s != []
    ensures s[..|s| - 1] + [s[|s| - 1]] == s
  {
  }

  /** An element whose key is not below any other's goes last. */
  lemma InsertAtEnd<T>(x: T, s: seq<T>, key: T -> int)
    requires forall i :: 0 <= i < |s| ==> key(s[i]) <= key(x)
    ensures Insert(x, s, key) == s + [x]
  {
    var p := InsertPos(x, s, key);
    assert p == |s|;
    assert s[..p] == s && s[p..] == [];
  }

  /** A sorted sequence's elements are exactly those of its input. */
  lemma SortByMembers<T>(s: seq<T>, key: T -> int)
    ensures forall x :: x in SortBy(s, key) <==> x in s
  {
    var r := SortBy(s, key);
    forall x ensures x in r <==> x in s {
      assert x in r <==> x in multiset(r);
      assert x in s <==> x in multiset(s);
    }
  }

  function Min(a: int, b: int): int { if a < b then a else b }
  function Max(a: int, b: int): int { if a < b then b else a }

  /** `$skip` then `$limit`, for a skip that is not negative and a positive limit. */
  function Window<T>(s: seq<T>, skip: nat, limit: nat): (r: seq<T>)
    ensures |r| == Min(limit, Max(0, |s| - skip))
    ensures forall i :: 0 <= i < |r| ==> r[i] == s[skip + i]
  {
    if skip >= |s| then []
    else if |s| - skip <= limit then s[skip..]
    else s[skip..skip + limit]
  }

  /** One facet document: the page of documents and `total.count`. */
  datatype Page<T> = Page(docs: seq<T>, count: nat)

  /** The document a Find answers when the aggregation yields none: {docs: [], total: {count: 0}}. */
  function Placeholder<T>(): Page<T>
  {
    Page([], 0)
  }

  /** What the server answers for a `$skip` below zero and a `$limit` that is not positive. */
  const SkipError := "invalid argument to $skip stage: Expected a non-negative number"
  const LimitError := "the limit must be positive"

  /**
   * `$facet` followed by `$unwind: "$total"`: the stage arguments are checked
   * first, whatever the data; an empty match leaves `total` empty, and the
   * unwind then returns no document at all.
   */
  function FacetUnwind<T>(matched: seq<T>, key: T -> int, skip: int, limit: int): (r: Outcome<Option<Page<T>>>)
    ensures r.Err? <==> skip < 0 || limit <= 0
    ensures r.Err? ==> r.error.code == 500
    ensures r.Ok? ==> (r.value.None? <==> matched == [])
    ensures r.Ok? && r.value.Some? ==> r.value.value.count == |matched|
    ensures r.Ok? && r.value.Some? ==> |r.value.value.docs| == Min(limit, Max(0, |matched| - skip))
  {
    if skip < 0 then Err(InternalErr(SkipError))
    else if limit <= 0 then Err(InternalErr(LimitError))
    else if matched == [] then Ok(None)
    else Ok(Some(Page(Window(SortBy(matched, key), skip, limit), |matched|)))
  }

  /** `if len(docs) == 0 { return placeholder }; return docs[0]`. */
  function Respond<T>(r: Outcome<Option<Page<T>>>): (p: Outcome<Page<T>>)
    ensures r.Err? ==> p == Err(r.error)
    ensures r.Ok? && r.value.None? ==> p == Ok(Placeholder())
    ensures r.Ok? && r.value.Some? ==> p == Ok(r.value.value)
  {
    match r
    case Err(e) => Err(e)
    case Ok(None) => Ok(Placeholder())
    case Ok(Some(page)) => Ok(page)
  }

  /** The composed Find result: a page of the sorted matches, or the placeholder, or a stage error. */
  function Paginate<T>(matched: seq<T>, key: T -> int, skip: int, limit: int): (r: Outcome<Page<T>>)
    ensures r.Err? <==> skip < 0 || limit <= 0
    ensures r.Ok? ==> r.value.count == |matched|
    ensures r.Ok? && matched == [] ==> r.value == Page([], 0)
    ensures r.Ok? ==> |r.value.docs| == Min(limit, Max(0, |matched| - skip))
  {
    Respond(FacetUnwind(matched, key, skip, limit))
  }

  /** The page is the window `[skip, skip + limit)` of the matches sorted by `key`. */
  lemma PaginateWindow<T>(matched: seq<T>, key: T -> int, skip: int, limit: int)
    requires Paginate(matched, key, skip, limit).Ok?
    ensures var docs := Paginate(matched, key, skip, limit).value.docs;
      forall i :: 0 <= i < |docs| ==> 0 <= skip + i < |matched| && docs[i] == SortBy(matched, key)[skip + i]
  {
    if matched != [] {
      assert Paginate(matched, key, skip, limit).value.docs == Window(SortBy(matched, key), skip, limit);
    }
  }

  /** Every document of a page is one of the matches, and a page past the end is empty. */
  lemma PaginateMembers<T>(matched: seq<T>, key: T -> int, skip: int, limit: int)
    requires Paginate(matched, key, skip, limit).Ok?
    ensures forall d :: d in Paginate(matched, key, skip, limit).value.docs ==> d in matched
    ensures skip >= |matched| ==> Paginate(matched, key, skip, limit).value.docs == []
    ensures SortedBy(Paginate(matched, key, skip, limit).value.docs, key)
  {
    var page := Paginate(matched, key, skip, limit).value;
    var sorted := SortBy(matched, key);
    SortByMembers(matched, key);
    PaginateWindow(matched, key, skip, limit);
    forall d | d in page.docs ensures d in matched {
      var i :| 0 <= i < |page.docs| && page.docs[i] == d;
      assert d == sorted[skip + i];
      assert d in sorted;
      assert d in multiset(sorted);
    }
    forall i, j | 0 <= i < j < |page.docs| ensures key(page.docs[i]) <= key(page.docs[j]) {
      assert page.docs[i] == sorted[skip + i] && page.docs[j] == sorted[skip + j];
    }
  }

  /** Whatever holds of every match holds of every document of a page. */
  lemma PaginateAll<T>(matched: seq<T>, key: T -> int, skip: int, limit: int, p: T -> bool)
    requires Paginate(matched, key, skip, limit).Ok?
    requires forall i :: 0 <= i < |matched| ==> p(matched[i])
    ensures forall i :: 0 <= i < |Paginate(matched, key, skip, limit).value.docs| ==>
      p(Paginate(matched, key, skip, limit).value.docs[i])
  {
    var docs := Paginate(matched, key, skip, limit).value.docs;
    PaginateMembers(matched, key, skip, limit);
    forall i | 0 <= i < |docs| ensures p(docs[i]) {
      assert docs[i] in docs;
      var j :| 0 <= j < |matched| && matched[j] == docs[i];
    }
  }

  /** A first page at least as long as the match list holds every match: no row is lost. */
  lemma PaginateWhole<T>(matched: seq<T>, key: T -> int, limit: int)
    requires limit >= |matched| && limit > 0
    ensures Paginate(matched, key, 0, limit).Ok?
    ensures multiset(Paginate(matched, key, 0, limit).value.docs) == multiset(matched)
  {
    var docs := Paginate(matched, key, 0, limit).value.docs;
    var sorted := SortBy(matched, key);
    PaginateWindow(matched, key, 0, limit);
    assert docs == sorted;
  }

  /** The key that sorts a document by an `order` field: a missing field (zero) sorts first. */
  function OrderKey(order: int): (k: int)
    ensures order != 0 && MinInt64 <= order ==> k == order
    ensures order == 0 ==> k < MinInt64
  {
    if order == 0 then MinInt64 - 1 else order
  }
}

/**
 * The joins the Find pipelines declare. Each `$lookup` with a
 * `$match: {$expr: {$eq: ["$_id", "$$ref"]}}` sub-pipeline, followed by
 * `$unwind` with preserveNullAndEmptyArrays, is a left outer join: the parent
 * row always survives, with the document `Store.Lookup` finds or without one. The
 * available-stock summary is the `$lookup` on stocks with its `$group` stage.
 */
module Joins {
  import opened Wrappers
  import opened ObjectIds
  import opened Models
  import opened Store
  import Pipeline

  /**
   * A joined `image` after `$addFields: {"image.url": {$concat: [AssetsUrl, "$image.path"]}}`:
   * the media document if one matched, and the url; `$concat` yields null when
   * the path is missing, and a missing media document leaves just {url: null}.
   */
  datatype ImageOut = ImageOut(media: Option<Media>, url: Option<string>)

  function ImageOf(ref: ObjectId, media: seq<Media>, assetsUrl: string): (r: ImageOut)
    ensures r.media == Lookup(media, MediaId, ref)
    ensures r.media.None? ==> r.url.None?
    ensures r.media.Some? && r.media.value.path != "" ==> r.url == Some(assetsUrl + r.media.value.path)
    ensures r.media.Some? && r.media.value.path == "" ==> r.url.None?
  {
    match Lookup(media, MediaId, ref)
    case None => ImageOut(None, None)
    case Some(m) => ImageOut(Some(m), if m.path == "" then None else Some(assetsUrl + m.path))
  }

  // ---- The available-stock summary ----------------------------------------

  /**
   * One `$group` output: `_id: {publisher, year}`, the `$push`ed prices and
   * discount percents, and `count: {$sum: 1}`. `$push` skips a missing value,
   * so a zero price or discount (left out by omitempty) is not pushed.
   */
  datatype StockGroup = StockGroup(publisher: string, year: string, prices: seq<int>, discountPercents: seq<int>, count: nat)

  /** The sub-pipeline's `$match`: the stock belongs to the book and is available. */
  predicate AvailableFor(s: Stock, bookId: ObjectId)
  {
    s.bookId == bookId && s.status == "available"
  }

  /** The stocks of `ss` with the group key (p, y), in order. */
  function Members(ss: seq<Stock>, p: string, y: string): (ms: seq<Stock>)
    ensures |ms| <= |ss|
    ensures forall i :: 0 <= i < |ms| ==> ms[i] in ss && ms[i].publisher == p && ms[i].year == y
  {
    if ss == [] then []
    else
      var last := ss[|ss| - 1];
      Members(ss[..|ss| - 1], p, y) + (if last.publisher == p && last.year == y then [last] else [])
  }

  function PricesOf(ms: seq<Stock>): seq<int>
  {
    if ms == [] then []
    else
      var last := ms[|ms| - 1];
      PricesOf(ms[..|ms| - 1]) + (if last.price != 0 then [last.price] else [])
  }

  function DiscountsOf(ms: seq<Stock>): seq<int>
  {
    if ms == [] then []
    else
      var last := ms[|ms| - 1];
      DiscountsOf(ms[..|ms| - 1]) + (if last.discountPercent != 0 then [last.discountPercent] else [])
  }

  /** The group the stage outputs for key (p, y) and member stocks `ms`. */
  function MakeGroup(p: string, y: string, ms: seq<Stock>): StockGroup
  {
    StockGroup(p, y, PricesOf(ms), DiscountsOf(ms), |ms|)
  }

  predicate HasKey(g: StockGroup, p: string, y: string)
  {
    g.publisher == p && g.year == y
  }

  /** The index of the group with key (p, y), if there is one. */
  function FindGroup(gs: seq<StockGroup>, p: string, y: string): (r: Option<nat>)
    ensures r.Some? ==> r.value < |gs| && HasKey(gs[r.value], p, y)
    ensures r.None? ==> forall i :: 0 <= i < |gs| ==> !HasKey(gs[i], p, y)
  {
    if gs == [] then None
    else if HasKey(gs[0], p, y) then Some(0)
    else match FindGroup(gs[1..], p, y)
      case None => None
      case Some(i) => Some(i + 1)
  }

  /** Add one stock to the groups: to the group of its key, or to a new group at the end. */
  function AddStock(gs: seq<StockGroup>, s: Stock): seq<StockGroup>
  {
    match FindGroup(gs, s.publisher, s.year)
    case Some(i) =>
      gs[i := Bump(gs[i], s)]
    case None => gs + [MakeGroup(s.publisher, s.year, [s])]
  }

  /** No two groups share a key. */
  predicate DistinctKeys(gs: seq<StockGroup>)
  {
    forall i, j :: 0 <= i < j < |gs| ==> !HasKey(gs[j], gs[i].publisher, gs[i].year)
  }

  /**
   * `$group` by {publisher, year}: groups in order of first appearance. Every
   * group is the one built from exactly the stocks with its key, no key has
   * two groups, and a key has a group exactly when some stock carries it.
   */
  function Groups(ss: seq<Stock>): (gs: seq<StockGroup>)
    ensures GroupsOf(gs, ss)
  {
    if ss == [] then []
    else
      var init := ss[..|ss| - 1];
      var s := ss[|ss| - 1];
      var gs0 := Groups(init);
      var gs := AddStock(gs0, s);
      assert ss == init + [s];
      AddStockKeeps(gs0, init, s);
      gs
  }

  /** Each group is the one built from the stocks with its key. */
  ghost predicate Built(gs: seq<StockGroup>, ss: seq<Stock>)
  {
    forall i :: 0 <= i < |gs| ==> gs[i] == MakeGroup(gs[i].publisher, gs[i].year, Members(ss, gs[i].publisher, gs[i].year))
  }

  /** A key has a group exactly when some stock carries it. */
  ghost predicate Covered(gs: seq<StockGroup>, ss: seq<Stock>)
  {
    forall p, y :: FindGroup(gs, p, y).Some? <==> Members(ss, p, y) != []
  }

  /** The invariant `Groups` keeps. */
  ghost predicate GroupsOf(gs: seq<StockGroup>, ss: seq<Stock>)
  {
    Built(gs, ss) && DistinctKeys(gs) && Covered(gs, ss)
  }

  lemma AddStockKeeps(gs0: seq<StockGroup>, init: seq<Stock>, s: Stock)
    requires GroupsOf(gs0, init)
    ensures GroupsOf(AddStock(gs0, s), init + [s])
  {
    AddStockShape(gs0, s);
    AddDistinct(gs0, s);
    AddCovered(gs0, init, s);
    match FindGroup(gs0, s.publisher, s.year)
    case Some(k) => AddToExisting(gs0, init, s, k);
    case None => AddAsNew(gs0, init, s);
  }

  /** Adding a stock keeps every group's key, and appends a group only for a new key. */
  lemma AddStockShape(gs0: seq<StockGroup>, s: Stock)
    ensures var gs := AddStock(gs0, s);
      (forall i :: 0 <= i < |gs0| ==> gs[i].publisher == gs0[i].publisher && gs[i].year == gs0[i].year)
      && (FindGroup(gs0, s.publisher, s.year).Some? ==> |gs| == |gs0|)
      && (FindGroup(gs0, s.publisher, s.year).None? ==> gs == gs0 + [MakeGroup(s.publisher, s.year, [s])])
  {
  }

  lemma AddDistinct(gs0: seq<StockGroup>, s: Stock)
    requires DistinctKeys(gs0)
    ensures DistinctKeys(AddStock(gs0, s))
  {
    AddStockShape(gs0, s);
    var gs := AddStock(gs0, s);
    forall i, j | 0 <= i < j < |gs| ensures !HasKey(gs[j], gs[i].publisher, gs[i].year) {
      if j < |gs0| {
        assert !HasKey(gs0[j], gs0[i].publisher, gs0[i].year);
      }
    }
  }

  lemma MembersSnoc(init: seq<Stock>, s: Stock, p: string, y: string)
    ensures Members(init + [s], p, y) == Members(init, p, y) + (if s.publisher == p && s.year == y then [s] else [])
  {
    assert (init + [s])[..|init|] == init;
  }

  lemma MakeGroupSnoc(p: string, y: string, ms: seq<Stock>, s: Stock)
    ensures MakeGroup(p, y, ms + [s]) == MakeGroup(p, y, ms).(
        prices := PricesOf(ms) + (if s.price != 0 then [s.price] else []),
        discountPercents := DiscountsOf(ms) + (if s.discountPercent != 0 then [s.discountPercent] else []),
        count := |ms| + 1)
  {
    assert (ms + [s])[..|ms|] == ms;
  }

  lemma AddCovered(gs0: seq<StockGroup>, init: seq<Stock>, s: Stock)
    requires Covered(gs0, init)
    ensures Covered(AddStock(gs0, s), init + [s])
  {
    AddStockShape(gs0, s);
    var gs := AddStock(gs0, s);
    forall p, y ensures FindGroup(gs, p, y).Some? <==> Members(init + [s], p, y) != [] {
      MembersSnoc(init, s, p, y);
      if FindGroup(gs0, s.publisher, s.year).Some? {
        FindGroupSameKeys(gs0, gs, p, y);
        var k := FindGroup(gs0, s.publisher, s.year).value;
        if s.publisher == p && s.year == y {
          assert HasKey(gs0[k], p, y);
        }
      } else {
        FindGroupAppend(gs0, MakeGroup(s.publisher, s.year, [s]), p, y);
      }
    }
  }

  /** What adding stock `s` does to the group of its key. */
  function Bump(g: StockGroup, s: Stock): StockGroup
  {
    g.(prices := g.prices + (if s.price != 0 then [s.price] else []),
       discountPercents := g.discountPercents + (if s.discountPercent != 0 then [s.discountPercent] else []),
       count := g.count + 1)
  }

  lemma AddToExisting(gs0: seq<StockGroup>, init: seq<Stock>, s: Stock, k: nat)
    requires Built(gs0, init) && DistinctKeys(gs0)
    requires FindGroup(gs0, s.publisher, s.year) == Some(k)
    ensures Built(AddStock(gs0, s), init + [s])
  {
    var gs := AddStock(gs0, s);
    assert gs == gs0[k := Bump(gs0[k], s)];
    forall i | 0 <= i < |gs| ensures gs[i] == MakeGroup(gs[i].publisher, gs[i].year, Members(init + [s], gs[i].publisher, gs[i].year)) {
      if i == k {
        BumpAt(gs0[k], init, s);
      } else {
        OtherAt(gs0, init, s, k, i);
      }
    }
  }

  lemma BumpAt(g: StockGroup, init: seq<Stock>, s: Stock)
    requires g == MakeGroup(g.publisher, g.year, Members(init, g.publisher, g.year))
    requires HasKey(g, s.publisher, s.year)
    ensures Bump(g, s) == MakeGroup(g.publisher, g.year, Members(init + [s], g.publisher, g.year))
  {
    MembersSnoc(init, s, g.publisher, g.year);
    MakeGroupSnoc(g.publisher, g.year, Members(init, g.publisher, g.year), s);
  }

  lemma OtherAt(gs0: seq<StockGroup>, init: seq<Stock>, s: Stock, k: nat, i: nat)
    requires Built(gs0, init) && DistinctKeys(gs0)
    requires k < |gs0| && HasKey(gs0[k], s.publisher, s.year)
    requires i < |gs0| && i != k
    ensures gs0[i] == MakeGroup(gs0[i].publisher, gs0[i].year, Members(init + [s], gs0[i].publisher, gs0[i].year))
  {
    assert !HasKey(gs0[i], s.publisher, s.year) by {
      if i < k { assert !HasKey(gs0[k], gs0[i].publisher, gs0[i].year); }
      else { assert !HasKey(gs0[i], gs0[k].publisher, gs0[k].year); }
    }
    var p, y := gs0[i].publisher, gs0[i].year;
    MembersSnoc(init, s, p, y);
    assert Members(init, p, y) + [] == Members(init, p, y);
  }

  lemma AddAsNew(gs0: seq<StockGroup>, init: seq<Stock>, s: Stock)
    requires Built(gs0, init) && Covered(gs0, init)
    requires FindGroup(gs0, s.publisher, s.year).None?
    ensures Built(AddStock(gs0, s), init + [s])
  {
    var gs := AddStock(gs0, s);
    var g := MakeGroup(s.publisher, s.year, [s]);
    assert gs == gs0 + [g];
    assert Members(init, s.publisher, s.year) == [];
    MembersSnoc(init, s, s.publisher, s.year);
    assert Members(init + [s], s.publisher, s.year) == [s];
    forall i | 0 <= i < |gs| ensures gs[i] == MakeGroup(gs[i].publisher, gs[i].year, Members(init + [s], gs[i].publisher, gs[i].year)) {
      if i < |gs0| {
        assert gs[i] == gs0[i];
        var p, y := gs0[i].publisher, gs0[i].year;
        assert !HasKey(gs0[i], s.publisher, s.year);
        MembersSnoc(init, s, p, y);
        assert Members(init, p, y) + [] == Members(init, p, y);
      } else {
        assert gs[i] == g;
      }
    }
  }

  /** Replacing a group by one with the same key leaves every lookup's outcome alone. */
  lemma FindGroupSameKeys(a: seq<StockGroup>, b: seq<StockGroup>, p: string, y: string)
    requires |a| == |b|
    requires forall i :: 0 <= i < |a| ==> a[i].publisher == b[i].publisher && a[i].year == b[i].year
    ensures FindGroup(a, p, y).Some? <==> FindGroup(b, p, y).Some?
  {
    if FindGroup(a, p, y).Some? {
      var i := FindGroup(a, p, y).value;
      assert HasKey(b[i], p, y);
    }
    if FindGroup(b, p, y).Some? {
      var i := FindGroup(b, p, y).value;
      assert HasKey(a[i], p, y);
    }
  }

  lemma FindGroupAppend(a: seq<StockGroup>, g: StockGroup, p: string, y: string)
    ensures FindGroup(a + [g], p, y).Some? <==> FindGroup(a, p, y).Some? || HasKey(g, p, y)
  {
    var b := a + [g];
    if FindGroup(a, p, y).Some? {
      var i := FindGroup(a, p, y).value;
      assert HasKey(b[i], p, y);
    } else if HasKey(g, p, y) {
      assert HasKey(b[|a|], p, y);
    }
    if FindGroup(b, p, y).Some? {
      var i := FindGroup(b, p, y).value;
      if i < |a| { assert HasKey(a[i], p, y); }
    }
  }

  /** The stocks summary of a book: its available stocks, grouped. */
  function Summary(stocks: seq<Stock>, bookId: ObjectId): (gs: seq<StockGroup>)
    ensures GroupsOf(gs, Eligible(stocks, bookId))
  {
    var e := Eligible(stocks, bookId);
    var gs := Groups(e);
    gs
  }

  function Eligible(stocks: seq<Stock>, bookId: ObjectId): (e: seq<Stock>)
    ensures forall i :: 0 <= i < |e| ==> AvailableFor(e[i], bookId) && e[i] in stocks
    ensures forall i :: 0 <= i < |stocks| && AvailableFor(stocks[i], bookId) ==> stocks[i] in e
  {
    Pipeline.Filter(stocks, (s: Stock) => AvailableFor(s, bookId))
  }

  /** If no stock of the book has a zero price, each group lists one price per stock. */
  lemma {:induction false} PricesCount(ms: seq<Stock>)
    requires forall i :: 0 <= i < |ms| ==> ms[i].price != 0
    ensures |PricesOf(ms)| == |ms|
  {
    if ms != [] {
      PricesCount(ms[..|ms| - 1]);
    }
  }

  lemma {:induction false} DiscountsCount(ms: seq<Stock>)
    requires forall i :: 0 <= i < |ms| ==> ms[i].discountPercent != 0
    ensures |DiscountsOf(ms)| == |ms|
  {
    if ms != [] {
      DiscountsCount(ms[..|ms| - 1]);
    }
  }

  /** Prices only ever come from member stocks: at most one per stock. */
  lemma {:induction false} PricesAtMost(ms: seq<Stock>)
    ensures |PricesOf(ms)| <= |ms| && |DiscountsOf(ms)| <= |ms|
  {
    if ms != [] {
      PricesAtMost(ms[..|ms| - 1]);
    }
  }

  /**
   * count = |prices| = |discount_percents| = group size for every group of the
   * summary whose stocks all carry a price and a discount.
   */
  lemma SummaryCounts(stocks: seq<Stock>, bookId: ObjectId, i: nat)
    requires i < |Summary(stocks, bookId)|
    requires forall j :: 0 <= j < |stocks| ==> stocks[j].price != 0 && stocks[j].discountPercent != 0
    ensures var g := Summary(stocks, bookId)[i];
      g.count == |g.prices| == |g.discountPercents|
      && g.count == |Members(Eligible(stocks, bookId), g.publisher, g.year)|
  {
    var g := Summary(stocks, bookId)[i];
    var ms := Members(Eligible(stocks, bookId), g.publisher, g.year);
    forall j | 0 <= j < |ms| ensures ms[j].price != 0 && ms[j].discountPercent != 0 {
      var k :| 0 <= k < |stocks| && stocks[k] == ms[j];
    }
    PricesCount(ms);
    DiscountsCount(ms);
  }
}

/**
 * pkg/models: the documents the services store, and the New* constructors
 * that fill in defaults on a document passed by pointer. A Go `*T` is a `Ref<T>`
 * whose value the constructor updates in place; the pure `...Defaults`
 * functions say what the new value is. The clock reading a constructor takes
 * (time.Now().UnixMilli()) is the parameter `now`.
 *
 * Integer fields are unbounded; a zero number, an empty string, an empty list
 * and the nil ObjectID are the values bson's omitempty leaves out of a document.
 */
module Models {
  import opened ObjectIds

  /** A mutable cell: the object a Go pointer refers to. */
  class Ref<T> {
    var v: T

    constructor (x: T)
      ensures v == x
    {
      v := x;
    }
  }

  datatype Book = Book(
    id: ObjectId, name: string, publishers: seq<string>, courseId: ObjectId, tags: seq<string>,
    image: ObjectId, order: int, createdBy: ObjectId, createdOn: int, updatedOn: int)

  datatype Course = Course(
    id: ObjectId, name: string, streams: seq<string>, semesters: seq<string>, tags: seq<string>,
    image: ObjectId, order: int, createdBy: ObjectId, createdOn: int, updatedOn: int)

  datatype CartItem = CartItem(
    id: ObjectId, userId: ObjectId, bookId: ObjectId, courseId: ObjectId, stockId: ObjectId,
    publisher: string, year: string, price: int, discountPercent: int, quantity: int,
    createdOn: int, updatedOn: int)

  datatype Stock = Stock(
    id: ObjectId, bookId: ObjectId, courseId: ObjectId, publisher: string, year: string,
    price: int, discountPercent: int, status: string, createdBy: ObjectId,
    createdOn: int, updatedOn: int)

  datatype Media = Media(id: ObjectId, path: string, createdBy: ObjectId, createdOn: int, updatedOn: int)

  /** A feed and its sections; a section's options hold a further list of sections. */
  datatype Feed = Feed(
    id: ObjectId, name: string, title: string, kind: string, viewType: string, linked: string,
    paralink: string, sections: seq<Section>, order: int, createdBy: ObjectId,
    createdOn: int, updatedOn: int)

  datatype Section = Section(
    title: string, kind: string, paralink: string, image: ObjectId, course: ObjectId,
    book: ObjectId, options: Options)

  datatype Options = Options(title: string, sections: seq<Section>)

  datatype BookList = BookList(bookId: ObjectId, stockId: ObjectId)

  datatype Order = Order(
    id: ObjectId, kind: string, items: seq<BookList>, publisher: string, year: string, price: int,
    discountPercent: int, discountPrice: int, createdBy: ObjectId, paymentId: string,
    paymentOrderId: string, paymentStatus: string, status: string, paymentMode: string,
    createdOn: int, updatedOn: int)

  datatype Verified = Verified(email: bool, phone: bool)

  datatype User = User(
    id: ObjectId, kind: string, name: string, phone: string, email: string, password: string,
    location: seq<string>, address: string, city: string, state: string, pincode: string,
    token: string, tokenExpiry: int, refreshToken: string, refreshTokenExpiry: int,
    verified: Verified, createdOn: int, updatedOn: int)

  /** The partial user document a $set carries (models.UpdateUser). */
  datatype UpdateUser = UpdateUser(
    name: string, phone: string, email: string, location: seq<string>, address: string,
    verified: Verified, refreshToken: string, updatedOn: int)

  datatype ChangePassword = ChangePassword(password: string, newPassword: string)

  datatype LoginUser = LoginUser(username: string, password: string)

  // ---- The `_id` of each document type -------------------------------------

  function BookId(b: Book): ObjectId { b.id }
  function CourseId(c: Course): ObjectId { c.id }
  function CartItemId(c: CartItem): ObjectId { c.id }
  function StockId(s: Stock): ObjectId { s.id }
  function MediaId(m: Media): ObjectId { m.id }
  function FeedId(f: Feed): ObjectId { f.id }
  function UserId(u: User): ObjectId { u.id }

  function WithBookId(b: Book, id: ObjectId): Book { b.(id := id) }
  function WithCourseId(c: Course, id: ObjectId): Course { c.(id := id) }
  function WithCartItemId(c: CartItem, id: ObjectId): CartItem { c.(id := id) }
  function WithStockId(s: Stock, id: ObjectId): Stock { s.(id := id) }
  function WithMediaId(m: Media, id: ObjectId): Media { m.(id := id) }
  function WithFeedId(f: Feed, id: ObjectId): Feed { f.(id := id) }
  function WithUserId(u: User, id: ObjectId): User { u.(id := id) }

  /** A field that the fill-in rule sets to `now` while it is still zero. */
  function Stamp(t: int, now: int): int
  {
    if t == 0 then now else t
  }

  // ---- NewBook --------------------------------------------------------------

  function BookDefaults(b: Book, now: int): (r: Book)
    ensures b.createdOn == 0 ==> r.createdOn == now
    ensures b.createdOn != 0 ==> r.createdOn == b.createdOn
    ensures b.updatedOn == 0 ==> r.updatedOn == now
    ensures b.updatedOn != 0 ==> r.updatedOn == b.updatedOn
    ensures r.(createdOn := b.createdOn, updatedOn := b.updatedOn) == b
  {
    b.(createdOn := Stamp(b.createdOn, now), updatedOn := Stamp(b.updatedOn, now))
  }

  method NewBook(book: Ref<Book>, now: int) returns (r: Ref<Book>)
    modifies book
    ensures r == book && book.v == BookDefaults(old(book.v), now)
  {
    if book.v.createdOn == 0 {
      book.v := book.v.(createdOn := now);
    }
    if book.v.updatedOn == 0 {
      book.v := book.v.(updatedOn := now);
    }
    return book;
  }

  /** Once the clock has left zero, filling in a book's defaults a second time changes nothing. */
  lemma BookDefaultsIdempotent(b: Book, now: int, later: int)
    requires now != 0
    ensures BookDefaults(BookDefaults(b, now), later) == BookDefaults(b, now)
  {
  }

  // ---- NewCourse ------------------------------------------------------------

  function CourseDefaults(c: Course, now: int): (r: Course)
    ensures c.createdOn == 0 ==> r.createdOn == now
    ensures c.createdOn != 0 ==> r.createdOn == c.createdOn
    ensures c.updatedOn == 0 ==> r.updatedOn == now
    ensures c.updatedOn != 0 ==> r.updatedOn == c.updatedOn
    ensures r.(createdOn := c.createdOn, updatedOn := c.updatedOn) == c
  {
    c.(createdOn := Stamp(c.createdOn, now), updatedOn := Stamp(c.updatedOn, now))
  }

  method NewCourse(course: Ref<Course>, now: int) returns (r: Ref<Course>)
    modifies course
    ensures r == course && course.v == CourseDefaults(old(course.v), now)
  {
    if course.v.createdOn == 0 {
      course.v := course.v.(createdOn := now);
    }
    if course.v.updatedOn == 0 {
      course.v := course.v.(updatedOn := now);
    }
    return course;
  }

  lemma CourseDefaultsIdempotent(c: Course, now: int, later: int)
    requires now != 0
    ensures CourseDefaults(CourseDefaults(c, now), later) == CourseDefaults(c, now)
  {
  }

  // ---- NewCartItem ----------------------------------------------------------

  function CartItemDefaults(c: CartItem, now: int): (r: CartItem)
    ensures c.createdOn == 0 ==> r.createdOn == now
    ensures c.createdOn != 0 ==> r.createdOn == c.createdOn
    ensures c.updatedOn == 0 ==> r.updatedOn == now
    ensures c.updatedOn != 0 ==> r.updatedOn == c.updatedOn
    ensures c.quantity == 0 ==> r.quantity == 1
    ensures c.quantity != 0 ==> r.quantity == c.quantity
    ensures r.(createdOn := c.createdOn, updatedOn := c.updatedOn, quantity := c.quantity) == c
  {
    c.(createdOn := Stamp(c.createdOn, now), updatedOn := Stamp(c.updatedOn, now),
       quantity := if c.quantity == 0 then 1 else c.quantity)
  }

  method NewCartItem(item: Ref<CartItem>, now: int) returns (r: Ref<CartItem>)
    modifies item
    ensures r == item && item.v == CartItemDefaults(old(item.v), now)
  {
    if item.v.createdOn == 0 {
      item.v := item.v.(createdOn := now);
    }
    if item.v.updatedOn == 0 {
      item.v := item.v.(updatedOn := now);
    }
    if item.v.quantity == 0 {
      item.v := item.v.(quantity := 1);
    }
    return item;
  }

  lemma CartItemDefaultsIdempotent(c: CartItem, now: int, later: int)
    requires now != 0
    ensures CartItemDefaults(CartItemDefaults(c, now), later) == CartItemDefaults(c, now)
  {
  }

  // ---- NewStock -------------------------------------------------------------

  function StockDefaults(s: Stock, now: int): (r: Stock)
    ensures s.createdOn == 0 ==> r.createdOn == now
    ensures s.createdOn != 0 ==> r.createdOn == s.createdOn
    ensures s.updatedOn == 0 ==> r.updatedOn == now
    ensures s.updatedOn != 0 ==> r.updatedOn == s.updatedOn
    ensures s.status == "" ==> r.status == "available"
    ensures s.status != "" ==> r.status == s.status
    ensures r.(createdOn := s.createdOn, updatedOn := s.updatedOn, status := s.status) == s
  {
    s.(createdOn := Stamp(s.createdOn, now), updatedOn := Stamp(s.updatedOn, now),
       status := if s.status == "" then "available" else s.status)
  }

  method NewStock(stock: Ref<Stock>, now: int) returns (r: Ref<Stock>)
    modifies stock
    ensures r == stock && stock.v == StockDefaults(old(stock.v), now)
  {
    if stock.v.createdOn == 0 {
      stock.v := stock.v.(createdOn := now);
    }
    if stock.v.updatedOn == 0 {
      stock.v := stock.v.(updatedOn := now);
    }
    if stock.v.status == "" {
      stock.v := stock.v.(status := "available");
    }
    return stock;
  }

  lemma StockDefaultsIdempotent(s: Stock, now: int, later: int)
    requires now != 0
    ensures StockDefaults(StockDefaults(s, now), later) == StockDefaults(s, now)
  {
  }

  // ---- NewMedia -------------------------------------------------------------

  function MediaDefaults(m: Media, now: int): (r: Media)
    ensures m.createdOn == 0 ==> r.createdOn == now
    ensures m.createdOn != 0 ==> r.createdOn == m.createdOn
    ensures m.updatedOn == 0 ==> r.updatedOn == now
    ensures m.updatedOn != 0 ==> r.updatedOn == m.updatedOn
    ensures r.id == m.id && r.path == m.path && r.createdBy == m.createdBy
  {
    m.(createdOn := Stamp(m.createdOn, now), updatedOn := Stamp(m.updatedOn, now))
  }

  method NewMedia(media: Ref<Media>, now: int) returns (r: Ref<Media>)
    modifies media
    ensures r == media && media.v == MediaDefaults(old(media.v), now)
  {
    if media.v.createdOn == 0 {
      media.v := media.v.(createdOn := now);
    }
    if media.v.updatedOn == 0 {
      media.v := media.v.(updatedOn := now);
    }
    return media;
  }

  lemma MediaDefaultsIdempotent(m: Media, now: int, later: int)
    requires now != 0
    ensures MediaDefaults(MediaDefaults(m, now), later) == MediaDefaults(m, now)
  {
  }

  // ---- NewFeed --------------------------------------------------------------

  function FeedDefaults(f: Feed, now: int): (r: Feed)
    ensures f.createdOn == 0 ==> r.createdOn == now
    ensures f.createdOn != 0 ==> r.createdOn == f.createdOn
    ensures f.updatedOn == 0 ==> r.updatedOn == now
    ensures f.updatedOn != 0 ==> r.updatedOn == f.updatedOn
    ensures r.sections == f.sections
    ensures r.(createdOn := f.createdOn, updatedOn := f.updatedOn) == f
  {
    f.(createdOn := Stamp(f.createdOn, now), updatedOn := Stamp(f.updatedOn, now))
  }

  method NewFeed(feed: Ref<Feed>, now: int) returns (r: Ref<Feed>)
    modifies feed
    ensures r == feed && feed.v == FeedDefaults(old(feed.v), now)
  {
    if feed.v.createdOn == 0 {
      feed.v := feed.v.(createdOn := now);
    }
    if feed.v.updatedOn == 0 {
      feed.v := feed.v.(updatedOn := now);
    }
    return feed;
  }

  lemma FeedDefaultsIdempotent(f: Feed, now: int, later: int)
    requires now != 0
    ensures FeedDefaults(FeedDefaults(f, now), later) == FeedDefaults(f, now)
  {
  }

  /** How deeply sections nest through their options. */
  function Depth(s: Section): nat
  {
    1 + DepthAll(s.options.sections)
  }

  function DepthAll(ss: seq<Section>): nat
  {
    if ss == [] then 0
    else
      var d := Depth(ss[|ss| - 1]);
      var e := DepthAll(ss[..|ss| - 1]);
      if d < e then e else d
  }

  /** A section nested `n` levels deep: a chain of options, one section each. */
  function Nested(n: nat): (s: Section)
    ensures Depth(s) == n + 1
  {
    if n == 0 then Section("", "", "", Nil, Nil, Nil, Options("", []))
    else
      var inner := Nested(n - 1);
      assert [inner][..0] == [];
      assert DepthAll([inner]) == Depth(inner);
      Section("", "", "", Nil, Nil, Nil, Options("", [inner]))
  }

  /** Sections form finite trees of any depth: no bound on nesting holds for every feed. */
  lemma UnboundedNesting(bound: nat)
    ensures exists s: Section :: Depth(s) > bound
  {
    var s := Nested(bound);
    assert Depth(s) > bound;
  }

  // ---- NewOrder (inverted conditions, as written) ----------------------------

  /** A field that the inverted rule overwrites with `now` only when it is already set. */
  function Restamp(t: int, now: int): int
  {
    if t != 0 then now else t
  }

  function OrderDefaults(o: Order, now: int): (r: Order)
    ensures o.createdOn != 0 ==> r.createdOn == now
    ensures o.createdOn == 0 ==> r.createdOn == 0
    ensures o.updatedOn != 0 ==> r.updatedOn == now
    ensures o.updatedOn == 0 ==> r.updatedOn == 0
    ensures r.(createdOn := o.createdOn, updatedOn := o.updatedOn) == o
  {
    o.(createdOn := Restamp(o.createdOn, now), updatedOn := Restamp(o.updatedOn, now))
  }

  method NewOrder(order: Ref<Order>, now: int) returns (r: Ref<Order>)
    modifies order
    ensures r == order && order.v == OrderDefaults(old(order.v), now)
  {
    if order.v.createdOn != 0 {
      order.v := order.v.(createdOn := now);
    }
    if order.v.updatedOn != 0 {
      order.v := order.v.(updatedOn := now);
    }
    return order;
  }

  /** A fresh order (zero timestamps) is never stamped: the fill-in does nothing for it. */
  lemma OrderDefaultsLeavesFreshOrder(o: Order, now: int)
    requires o.createdOn == 0 && o.updatedOn == 0
    ensures OrderDefaults(o, now) == o
  {
  }

  /**
   * The bson keys of an order's two status fields: "status" carries
   * PaymentStatus and "payment_status" carries Status; an empty one is left out.
   */
  function OrderStatusKeys(o: Order): (m: map<string, string>)
    ensures "status" in m <==> o.paymentStatus != ""
    ensures "payment_status" in m <==> o.status != ""
    ensures "status" in m ==> m["status"] == o.paymentStatus
    ensures "payment_status" in m ==> m["payment_status"] == o.status
    ensures m.Keys <= {"status", "payment_status"}
  {
    var m1: map<string, string> := if o.paymentStatus != "" then map["status" := o.paymentStatus] else map[];
    if o.status != "" then m1["payment_status" := o.status] else m1
  }

  // ---- NewUser (inverted conditions, as written) -----------------------------

  function UserDefaults(u: User, now: int): (r: User)
    ensures r.verified == Verified(false, false)
    ensures u.createdOn != 0 ==> r.createdOn == now
    ensures u.createdOn == 0 ==> r.createdOn == 0
    ensures u.updatedOn != 0 ==> r.updatedOn == now
    ensures u.updatedOn == 0 ==> r.updatedOn == 0
    ensures u.kind != "" ==> r.kind == "user"
    ensures u.kind == "" ==> r.kind == ""
    ensures r.(verified := u.verified, createdOn := u.createdOn, updatedOn := u.updatedOn, kind := u.kind) == u
  {
    u.(verified := Verified(false, false), createdOn := Restamp(u.createdOn, now),
       updatedOn := Restamp(u.updatedOn, now), kind := if u.kind != "" then "user" else "")
  }

  method NewUser(user: Ref<User>, now: int)
    modifies user
    ensures user.v == UserDefaults(old(user.v), now)
  {
    user.v := user.v.(verified := Verified(false, false));
    if user.v.createdOn != 0 {
      user.v := user.v.(createdOn := now);
    }
    if user.v.updatedOn != 0 {
      user.v := user.v.(updatedOn := now);
    }
    if user.v.kind != "" {
      user.v := user.v.(kind := "user");
    }
  }

  /** With the same clock reading, NewUser applied twice is NewUser applied once. */
  lemma UserDefaultsIdempotent(u: User, now: int)
    ensures UserDefaults(UserDefaults(u, now), now) == UserDefaults(u, now)
  {
  }

  /** Because of the inverted test, a later call moves an already-set timestamp again. */
  lemma UserDefaultsRestamps(u: User, now: int, later: int)
    requires u.createdOn != 0 && now != 0 && later != now
    ensures UserDefaults(UserDefaults(u, now), later).createdOn == later
    ensures UserDefaults(UserDefaults(u, now), later) != UserDefaults(u, now)
  {
  }

  // ---- UpdateUser as a $set document ---------------------------------------

  /** The fields of an UpdateUser, by the bson key each is written under. */
  datatype UserKey = NameKey | PhoneKey | EmailKey | LocationKey | AddressKey | VerifiedKey | RefreshTokenKey | UpdatedOnKey

  function KeyName(k: UserKey): string
  {
    match k
    case NameKey => "name"
    case PhoneKey => "phone"
    case EmailKey => "email"
    case LocationKey => "location"
    case AddressKey => "address"
    case VerifiedKey => "verified"
    case RefreshTokenKey => "refresh_token"
    case UpdatedOnKey => "updated_on"
  }

  const AllUserKeys: set<UserKey> :=
    {NameKey, PhoneKey, EmailKey, LocationKey, AddressKey, VerifiedKey, RefreshTokenKey, UpdatedOnKey}

  /** Whether the field under key `k` is non-empty, so that omitempty keeps it. */
  predicate Written(u: UpdateUser, k: UserKey)
  {
    match k
    case NameKey => u.name != ""
    case PhoneKey => u.phone != ""
    case EmailKey => u.email != ""
    case LocationKey => u.location != []
    case AddressKey => u.address != ""
    case VerifiedKey => true
    case RefreshTokenKey => u.refreshToken != ""
    case UpdatedOnKey => u.updatedOn != 0
  }

  /**
   * The keys the bson encoder writes for an UpdateUser: each field with omitempty
   * is left out when it is empty, except `verified`, a struct, which the encoder
   * never treats as empty and so always writes.
   */
  function UpdateUserKeys(u: UpdateUser): (keys: set<UserKey>)
    ensures VerifiedKey in keys
    ensures NameKey in keys <==> u.name != ""
    ensures PhoneKey in keys <==> u.phone != ""
    ensures EmailKey in keys <==> u.email != ""
    ensures LocationKey in keys <==> u.location != []
    ensures AddressKey in keys <==> u.address != ""
    ensures RefreshTokenKey in keys <==> u.refreshToken != ""
    ensures UpdatedOnKey in keys <==> u.updatedOn != 0
  {
    set k | k in AllUserKeys && Written(u, k)
  }

  /** UpdateUser{RefreshToken: t}: only the token and the (zero) verified flags are written. */
  lemma RefreshOnlyUpdateKeys(t: string)
    requires t != ""
    ensures UpdateUserKeys(UpdateUser("", "", "", [], "", Verified(false, false), t, 0)) == {RefreshTokenKey, VerifiedKey}
  {
    var keys := UpdateUserKeys(UpdateUser("", "", "", [], "", Verified(false, false), t, 0));
    forall k: UserKey ensures k in keys <==> k in {RefreshTokenKey, VerifiedKey} {
    }
  }

  /** The user document after `$set: u`: the written keys replace the stored fields. */
  function ApplyUpdateUser(user: User, u: UpdateUser): (r: User)
    ensures r.name == (if NameKey in UpdateUserKeys(u) then u.name else user.name)
    ensures r.phone == (if PhoneKey in UpdateUserKeys(u) then u.phone else user.phone)
    ensures r.email == (if EmailKey in UpdateUserKeys(u) then u.email else user.email)
    ensures r.location == (if LocationKey in UpdateUserKeys(u) then u.location else user.location)
    ensures r.address == (if AddressKey in UpdateUserKeys(u) then u.address else user.address)
    ensures r.refreshToken == (if RefreshTokenKey in UpdateUserKeys(u) then u.refreshToken else user.refreshToken)
    ensures r.updatedOn == (if UpdatedOnKey in UpdateUserKeys(u) then u.updatedOn else user.updatedOn)
    ensures r.verified == u.verified
    ensures r.(name := user.name, phone := user.phone, email := user.email, location := user.location,
               address := user.address, refreshToken := user.refreshToken, updatedOn := user.updatedOn,
               verified := user.verified) == user
  {
    user.(
      name := if u.name != "" then u.name else user.name,
      phone := if u.phone != "" then u.phone else user.phone,
      email := if u.email != "" then u.email else user.email,
      location := if u.location != [] then u.location else user.location,
      address := if u.address != "" then u.address else user.address,
      verified := u.verified,
      refreshToken := if u.refreshToken != "" then u.refreshToken else user.refreshToken,
      updatedOn := if u.updatedOn != 0 then u.updatedOn else user.updatedOn)
  }
}

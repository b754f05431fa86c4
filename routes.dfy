/**
 * The HTTP surface (the route files under pkg/routes and the registration in main.go):
 * each Register* appends its subrouter's routes to a gorilla/mux router, in
 * source order, each route wrapped in AuthWithRoles or handed over bare.
 * A request is dispatched the way mux does it: a path that is not clean is
 * redirected (301) to its cleaned form; otherwise the first route whose path
 * and method match wins, a path match with another method gives 405, and no
 * path match gives 404.
 */
module Routes {
  import opened Wrappers
  import opened Errors
  import opened Models
  import Text
  import AuthService
  import Authentication

  // ---- Routes -------------------------------------------------------------------

  /** One segment of a path template: a literal, or a `{name}` variable matching `[^/]+`. */
  datatype Seg = Lit(text: string) | Var(name: string)

  /** The request methods net/http names. */
  datatype Verb = GET | POST | PUT | PATCH | DELETE | HEAD | OPTIONS

  datatype Controller =
    UserController | AuthController | CourseController | BookController | MediaController
    | StockController | FeedController | CartItemController | FileServer

  /**
   * The controller method a route calls. The entity actions stand for each
   * controller's own names (CreateCourse, GetUsers, GetUserById, ...).
   */
  datatype Action =
    Create | Get | GetById | Update | Delete | GetUserDetails
    | Login | Register | ForgotPassword | ResentVerification | ResetPassword | Verify | Refresh | Logout | ServeFiles

  datatype Handler = Handler(controller: Controller, action: Action)

  /** A handler bare (HandleFunc) or wrapped in AuthWithRoles with its role list. */
  datatype Guard = Open | Auth(roles: seq<string>)

  /**
   * A registered route: its method (None for any), its template split at '/',
   * whether it is a PathPrefix route, its guard and the controller method it
   * calls.
   */
  datatype Route = Route(verb: Option<Verb>, template: seq<Seg>, prefix: bool, guard: Guard, handler: Handler)

  /**
   * `sr.Handle(path, m.AuthWithRoles(roles, h)).Methods(verb)`; the template is
   * the subrouter's prefix followed by `path`, e.g. `/users` + `/details`.
   */
  function Wrapped(verb: Verb, template: seq<Seg>, roles: seq<string>, handler: Handler): Route
  {
    Route(Some(verb), template, false, Auth(roles), handler)
  }

  /** `sr.HandleFunc(path, h).Methods(verb)`. */
  function Bare(verb: Verb, template: seq<Seg>, handler: Handler): Route
  {
    Route(Some(verb), template, false, Open, handler)
  }

  const Admin: seq<string> := ["admin"]
  const Members: seq<string> := ["admin", "user"]
  const Anyone: seq<string> := []

  /** `PathPrefix("/assets/")` serving the assets directory, for every method. */
  const AssetsRoute := Route(None, [Lit(""), Lit("assets")], true, Open, Handler(FileServer, ServeFiles))

  /**
   * The five routes every entity subrouter registers, in this order: POST and
   * GET on the collection, then GET, PATCH and DELETE on `/{<id>}`, with the
   * roles of creation, of reading and of writing.
   */
  function EntityRoutes(group: string, id: string, controller: Controller, create: seq<string>, read: seq<string>, write: seq<string>)
    : seq<Route>
  {
    [Wrapped(POST, [Lit(""), Lit(group)], create, Handler(controller, Create)),
     Wrapped(GET, [Lit(""), Lit(group)], read, Handler(controller, Get)),
     Wrapped(GET, [Lit(""), Lit(group), Var(id)], read, Handler(controller, GetById)),
     Wrapped(PATCH, [Lit(""), Lit(group), Var(id)], write, Handler(controller, Update)),
     Wrapped(DELETE, [Lit(""), Lit(group), Var(id)], write, Handler(controller, Delete))]
  }

  const BooksRoutes := EntityRoutes("books", "book_id", BookController, Admin, Anyone, Admin)
  const CourseRoutes := EntityRoutes("courses", "course_id", CourseController, Admin, Anyone, Admin)
  const FeedsRoutes := EntityRoutes("feeds", "feed_id", FeedController, Admin, Anyone, Admin)
  const StocksRoutes := EntityRoutes("stocks", "stock_id", StockController, Admin, Admin, Admin)
  const CartRoutes := EntityRoutes("cart", "cartItem_id", CartItemController, Members, Members, Members)

  const UsersRoutes: seq<Route> :=
    [Wrapped(POST, [Lit(""), Lit("users")], Admin, Handler(UserController, Create)),
     Wrapped(GET, [Lit(""), Lit("users")], Admin, Handler(UserController, Get)),
     Wrapped(GET, [Lit(""), Lit("users"), Lit("details")], Members, Handler(UserController, GetUserDetails)),
     Wrapped(GET, [Lit(""), Lit("users"), Var("user_id")], Admin, Handler(UserController, GetById)),
     Wrapped(PATCH, [Lit(""), Lit("users"), Var("user_id")], Admin, Handler(UserController, Update)),
     Wrapped(DELETE, [Lit(""), Lit("users"), Var("user_id")], Admin, Handler(UserController, Delete))]

  const AuthRoutes: seq<Route> :=
    [Bare(POST, [Lit(""), Lit("auth"), Lit("login")], Handler(AuthController, Login)),
     Bare(POST, [Lit(""), Lit("auth"), Lit("register")], Handler(AuthController, Register)),
     Bare(GET, [Lit(""), Lit("auth"), Lit("forgot-password"), Var("email")], Handler(AuthController, ForgotPassword)),
     Bare(POST, [Lit(""), Lit("auth"), Lit("reset-verification")], Handler(AuthController, ResentVerification)),
     Bare(POST, [Lit(""), Lit("auth"), Lit("reset-password")], Handler(AuthController, ResetPassword)),
     Bare(POST, [Lit(""), Lit("auth"), Lit("verify")], Handler(AuthController, Verify)),
     Bare(GET, [Lit(""), Lit("auth"), Lit("refresh")], Handler(AuthController, Refresh)),
     Bare(GET, [Lit(""), Lit("auth"), Lit("logout")], Handler(AuthController, Logout))]

  const MediaRoutes: seq<Route> :=
    [Bare(GET, [Lit(""), Lit("media")], Handler(MediaController, Get)),
     Bare(GET, [Lit(""), Lit("media"), Var("media_id")], Handler(MediaController, GetById)),
     Bare(DELETE, [Lit(""), Lit("media"), Var("media_id")], Handler(MediaController, Delete)),
     Wrapped(POST, [Lit(""), Lit("media")], Admin, Handler(MediaController, Create))]

  /** The subrouters main mounts, in registration order, each under its path prefix; no cart. */
  const Mounts: seq<(string, seq<Route>)> :=
    [("users", UsersRoutes), ("auth", AuthRoutes), ("courses", CourseRoutes), ("books", BooksRoutes),
     ("media", MediaRoutes), ("stocks", StocksRoutes), ("feeds", FeedsRoutes)]

  function Flatten(ms: seq<(string, seq<Route>)>): seq<Route>
  {
    if ms == [] then [] else ms[0].1 + Flatten(ms[1..])
  }

  /** The router main builds: the assets prefix, then every mounted subrouter's routes. */
  const MainTable: seq<Route> := [AssetsRoute] + Flatten(Mounts)

  // ---- Registration ---------------------------------------------------------------

  class Router {
    var routes: seq<Route>

    constructor()
      ensures routes == []
    {
      routes := [];
    }

    /** Handle / HandleFunc: the route is tried after every route registered before it. */
    method Handle(r: Route)
      modifies this
      ensures routes == old(routes) + [r]
    {
      routes := routes + [r];
    }

    method RegisterEntity(group: string, id: string, controller: Controller, create: seq<string>, read: seq<string>, write: seq<string>)
      modifies this
      ensures routes == old(routes) + EntityRoutes(group, id, controller, create, read, write)
    {
      Handle(Wrapped(POST, [Lit(""), Lit(group)], create, Handler(controller, Create)));
      Handle(Wrapped(GET, [Lit(""), Lit(group)], read, Handler(controller, Get)));
      Handle(Wrapped(GET, [Lit(""), Lit(group), Var(id)], read, Handler(controller, GetById)));
      Handle(Wrapped(PATCH, [Lit(""), Lit(group), Var(id)], write, Handler(controller, Update)));
      Handle(Wrapped(DELETE, [Lit(""), Lit(group), Var(id)], write, Handler(controller, Delete)));
    }

    method RegisterBooksRoutes()
      modifies this
      ensures routes == old(routes) + BooksRoutes
    {
      RegisterEntity("books", "book_id", BookController, Admin, Anyone, Admin);
    }

    method RegisterCourseRoutes()
      modifies this
      ensures routes == old(routes) + CourseRoutes
    {
      RegisterEntity("courses", "course_id", CourseController, Admin, Anyone, Admin);
    }

    method RegisterFeedsRoutes()
      modifies this
      ensures routes == old(routes) + FeedsRoutes
    {
      RegisterEntity("feeds", "feed_id", FeedController, Admin, Anyone, Admin);
    }

    method RegisterStocksRoutes()
      modifies this
      ensures routes == old(routes) + StocksRoutes
    {
      RegisterEntity("stocks", "stock_id", StockController, Admin, Admin, Admin);
    }

    method RegisterCartRoutes()
      modifies this
      ensures routes == old(routes) + CartRoutes
    {
      RegisterEntity("cart", "cartItem_id", CartItemController, Members, Members, Members);
    }

    method RegisterUsersRoutes()
      modifies this
      ensures routes == old(routes) + UsersRoutes
    {
      Handle(Wrapped(POST, [Lit(""), Lit("users")], Admin, Handler(UserController, Create)));
      Handle(Wrapped(GET, [Lit(""), Lit("users")], Admin, Handler(UserController, Get)));
      Handle(Wrapped(GET, [Lit(""), Lit("users"), Lit("details")], Members, Handler(UserController, GetUserDetails)));
      Handle(Wrapped(GET, [Lit(""), Lit("users"), Var("user_id")], Admin, Handler(UserController, GetById)));
      Handle(Wrapped(PATCH, [Lit(""), Lit("users"), Var("user_id")], Admin, Handler(UserController, Update)));
      Handle(Wrapped(DELETE, [Lit(""), Lit("users"), Var("user_id")], Admin, Handler(UserController, Delete)));
    }

    method RegisterAuthRoutes()
      modifies this
      ensures routes == old(routes) + AuthRoutes
    {
      Handle(Bare(POST, [Lit(""), Lit("auth"), Lit("login")], Handler(AuthController, Login)));
      Handle(Bare(POST, [Lit(""), Lit("auth"), Lit("register")], Handler(AuthController, Register)));
      Handle(Bare(GET, [Lit(""), Lit("auth"), Lit("forgot-password"), Var("email")], Handler(AuthController, ForgotPassword)));
      Handle(Bare(POST, [Lit(""), Lit("auth"), Lit("reset-verification")], Handler(AuthController, ResentVerification)));
      Handle(Bare(POST, [Lit(""), Lit("auth"), Lit("reset-password")], Handler(AuthController, ResetPassword)));
      Handle(Bare(POST, [Lit(""), Lit("auth"), Lit("verify")], Handler(AuthController, Verify)));
      Handle(Bare(GET, [Lit(""), Lit("auth"), Lit("refresh")], Handler(AuthController, Refresh)));
      Handle(Bare(GET, [Lit(""), Lit("auth"), Lit("logout")], Handler(AuthController, Logout)));
    }

    method RegisterMediaRoutes()
      modifies this
      ensures routes == old(routes) + MediaRoutes
    {
      Handle(Bare(GET, [Lit(""), Lit("media")], Handler(MediaController, Get)));
      Handle(Bare(GET, [Lit(""), Lit("media"), Var("media_id")], Handler(MediaController, GetById)));
      Handle(Bare(DELETE, [Lit(""), Lit("media"), Var("media_id")], Handler(MediaController, Delete)));
      Handle(Wrapped(POST, [Lit(""), Lit("media")], Admin, Handler(MediaController, Create)));
    }
  }

  /** The main table, subrouter by subrouter. */
  lemma MainTableRoutes()
    ensures MainTable == [AssetsRoute] + UsersRoutes + AuthRoutes + CourseRoutes + BooksRoutes + MediaRoutes + StocksRoutes + FeedsRoutes
  {
    var ms := Mounts;
    assert Flatten(ms[7..]) == [];
    assert Flatten(ms[6..]) == FeedsRoutes + Flatten(ms[7..]);
    assert Flatten(ms[5..]) == StocksRoutes + Flatten(ms[6..]);
    assert Flatten(ms[4..]) == MediaRoutes + Flatten(ms[5..]);
    assert Flatten(ms[3..]) == BooksRoutes + Flatten(ms[4..]);
    assert Flatten(ms[2..]) == CourseRoutes + Flatten(ms[3..]);
    assert Flatten(ms[1..]) == AuthRoutes + Flatten(ms[2..]);
    assert Flatten(ms) == UsersRoutes + Flatten(ms[1..]);
  }

  /** main: the assets directory first, then the seven Register calls; RegisterCartRoutes is never called. */
  method NewRouter() returns (r: Router)
    ensures fresh(r) && r.routes == MainTable
  {
    r := new Router();
    r.Handle(AssetsRoute);
    r.RegisterUsersRoutes();
    r.RegisterAuthRoutes();
    r.RegisterCourseRoutes();
    r.RegisterBooksRoutes();
    r.RegisterMediaRoutes();
    r.RegisterStocksRoutes();
    r.RegisterFeedsRoutes();
    MainTableRoutes();
  }

  // ---- Dispatch -------------------------------------------------------------------

  /** The path split at every '/'. */
  function Split(s: string): (r: seq<string>)
    ensures |r| >= 1
    ensures forall k :: 0 <= k < |r| ==> '/' !in r[k]
    decreases |s|
  {
    match Text.FirstIndex(s, '/')
    case None => [s]
    case Some(i) => [s[..i]] + Split(s[i + 1..])
  }

  lemma SplitWhole(a: string)
    requires '/' !in a
    ensures Split(a) == [a]
  {
  }

  lemma SplitCons(a: string, rest: string)
    requires '/' !in a
    ensures Split(a + "/" + rest) == [a] + Split(rest)
  {
    var s := a + "/" + rest;
    assert s[|a|] == '/';
    var i := Text.FirstIndex(s, '/').value;
    assert s[..|a|] == a;
    assert forall k :: 0 <= k < |a| ==> s[k] == a[k];
    assert i == |a|;
    assert s[i + 1..] == rest;
  }

  /** "/<a>" and "/<a>/<b>" split into their segments. */
  lemma SplitPaths(a: string, b: string)
    requires '/' !in a && '/' !in b
    ensures Split("/" + a) == ["", a]
    ensures Split("/" + a + "/" + b) == ["", a, b]
  {
    SplitCons("", a);
    assert "/" + a == "" + "/" + a;
    SplitWhole(a);
    SplitCons("", a + "/" + b);
    assert "/" + a + "/" + b == "" + "/" + (a + "/" + b);
    SplitCons(a, b);
    SplitWhole(b);
  }

  predicate SegMatches(t: Seg, s: string)
  {
    match t
    case Lit(text) => s == text
    case Var(_) => s != ""
  }

  /** The template matches the whole path, or, for a prefix route, a proper prefix of its segments. */
  predicate PathMatches(r: Route, segs: seq<string>)
  {
    (if r.prefix then |segs| > |r.template| else |segs| == |r.template|)
    && forall k :: 0 <= k < |r.template| ==> SegMatches(r.template[k], segs[k])
  }

  predicate Matches(r: Route, verb: Verb, segs: seq<string>)
  {
    PathMatches(r, segs) && (r.verb.None? || r.verb.value == verb)
  }

  /** No route before index `n` matches. */
  predicate NoneBefore(routes: seq<Route>, n: nat, verb: Verb, segs: seq<string>)
    requires n <= |routes|
  {
    forall j :: 0 <= j < n ==> !Matches(routes[j], verb, segs)
  }

  /** No route's path matches. */
  predicate NoPath(routes: seq<Route>, segs: seq<string>)
  {
    forall j :: 0 <= j < |routes| ==> !PathMatches(routes[j], segs)
  }

  /** The first route that matches, in registration order. */
  function FirstMatch(routes: seq<Route>, verb: Verb, segs: seq<string>): (r: Option<nat>)
    ensures r.Some? ==> r.value < |routes| && Matches(routes[r.value], verb, segs) && NoneBefore(routes, r.value, verb, segs)
    ensures r.None? <==> NoneBefore(routes, |routes|, verb, segs)
  {
    if routes == [] then None
    else if Matches(routes[0], verb, segs) then Some(0)
    else match FirstMatch(routes[1..], verb, segs)
      case None => None
      case Some(k) => Some(k + 1)
  }

  datatype Dispatched = Matched(route: Route) | MethodNotAllowed | NotFound | Redirect(location: string)

  function DispatchSegs(routes: seq<Route>, verb: Verb, segs: seq<string>): (d: Dispatched)
    ensures d.Matched? ==> exists i :: 0 <= i < |routes| && routes[i] == d.route && Matches(d.route, verb, segs)
    ensures d.NotFound? <==> NoPath(routes, segs)
    ensures d.MethodNotAllowed? <==> !NoPath(routes, segs) && NoneBefore(routes, |routes|, verb, segs)
  {
    match FirstMatch(routes, verb, segs)
    case Some(i) => Matched(routes[i])
    case None =>
      if !NoPath(routes, segs) then MethodNotAllowed else NotFound
  }

  // ---- Path cleaning ------------------------------------------------------------

  /** A segment path.Clean keeps as it is. */
  predicate Plain(s: string)
  {
    s != "" && s != "." && s != ".." && '/' !in s
  }

  predicate AllPlain(segs: seq<string>)
  {
    forall k :: 0 <= k < |segs| ==> Plain(segs[k])
  }

  /** One step of path.Clean on a rooted path: "" and "." vanish, ".." drops the last kept segment (none at the root). */
  function Step(kept: seq<string>, s: string): seq<string>
  {
    if s == "" || s == "." then kept
    else if s == ".." then (if kept == [] then [] else kept[..|kept| - 1])
    else kept + [s]
  }

  function ResolveFrom(kept: seq<string>, segs: seq<string>): seq<string>
    decreases |segs|
  {
    if segs == [] then kept else ResolveFrom(Step(kept, segs[0]), segs[1..])
  }

  /** "/" + s1 + ... + "/" + sn. */
  function Join(segs: seq<string>): string
  {
    if segs == [] then "" else "/" + segs[0] + Join(segs[1..])
  }

  /** cleanPath first makes the path rooted. */
  function Rooted(p: string): (q: string)
    ensures |q| > 0 && q[0] == '/'
  {
    if p != "" && p[0] == '/' then p else "/" + p
  }

  /** The segments path.Clean keeps of the rooted path. */
  function Kept(p: string): seq<string>
  {
    ResolveFrom([], Split(Rooted(p)))
  }

  /**
   * mux's cleanPath: path.Clean of the rooted path, with a trailing '/' put
   * back unless the result is the root.
   */
  function CleanPath(p: string): string
  {
    var q := Rooted(p);
    var kept := Kept(p);
    if kept == [] then "/"
    else if q[|q| - 1] == '/' then Join(kept + [""])
    else Join(kept)
  }

  lemma {:induction false} StepPlain(kept: seq<string>, s: string)
    requires AllPlain(kept) && '/' !in s
    ensures AllPlain(Step(kept, s))
  {
    if !(s == "" || s == "." || s == "..") {
      var r := kept + [s];
      assert forall k :: 0 <= k < |kept| ==> r[k] == kept[k];
    }
  }

  /** Every segment path.Clean keeps is plain. */
  lemma {:induction false} ResolvePlain(kept: seq<string>, segs: seq<string>)
    requires AllPlain(kept) && forall k :: 0 <= k < |segs| ==> '/' !in segs[k]
    ensures AllPlain(ResolveFrom(kept, segs))
    decreases |segs|
  {
    if segs != [] {
      StepPlain(kept, segs[0]);
      ResolvePlain(Step(kept, segs[0]), segs[1..]);
    }
  }

  /** Plain segments are all kept, in order. */
  lemma {:induction false} ResolveKeeps(kept: seq<string>, segs: seq<string>)
    requires AllPlain(segs)
    ensures ResolveFrom(kept, segs) == kept + segs
    decreases |segs|
  {
    if segs != [] {
      assert AllPlain(segs[1..]) by {
        forall k | 0 <= k < |segs[1..]| ensures Plain(segs[1..][k]) {
          assert segs[1..][k] == segs[k + 1];
        }
      }
      ResolveKeeps(Step(kept, segs[0]), segs[1..]);
      assert kept + [segs[0]] + segs[1..] == kept + segs;
    }
  }

  /** A trailing empty segment, the mark of a trailing '/', changes nothing kept. */
  lemma {:induction false} ResolveTrailing(kept: seq<string>, segs: seq<string>)
    ensures ResolveFrom(kept, segs + [""]) == ResolveFrom(kept, segs)
    decreases |segs|
  {
    if segs == [] {
      assert [] + [""] == [""];
    } else {
      assert (segs + [""])[1..] == segs[1..] + [""];
      ResolveTrailing(Step(kept, segs[0]), segs[1..]);
    }
  }

  lemma {:induction false} JoinSnoc(segs: seq<string>, s: string)
    ensures Join(segs + [s]) == Join(segs) + "/" + s
    decreases |segs|
  {
    if segs == [] {
      assert [] + [s] == [s];
    } else {
      assert (segs + [s])[1..] == segs[1..] + [s];
      JoinSnoc(segs[1..], s);
    }
  }

  /** Joined segments split back into themselves. */
  lemma {:induction false} SplitJoin(a: string, segs: seq<string>)
    requires '/' !in a && forall k :: 0 <= k < |segs| ==> '/' !in segs[k]
    ensures Split(a + Join(segs)) == [a] + segs
    decreases |segs|
  {
    if segs == [] {
      assert a + "" == a;
      SplitWhole(a);
    } else {
      var tail := segs[1..];
      assert '/' !in segs[0];
      assert forall k :: 0 <= k < |tail| ==> tail[k] == segs[k + 1];
      assert a + Join(segs) == a + "/" + (segs[0] + Join(tail));
      SplitCons(a, segs[0] + Join(tail));
      SplitJoin(segs[0], tail);
      assert segs == [segs[0]] + tail;
    }
  }

  /** Joined plain segments end in no '/'. */
  lemma JoinEnd(segs: seq<string>)
    requires segs != [] && AllPlain(segs)
    ensures |Join(segs)| > 0 && Join(segs)[|Join(segs)| - 1] != '/'
  {
    var last := segs[|segs| - 1];
    assert segs == segs[..|segs| - 1] + [last];
    JoinSnoc(segs[..|segs| - 1], last);
    assert Plain(last);
    var j := Join(segs);
    assert j[|j| - 1] == last[|last| - 1];
  }

  /** The cleaned path is rooted, and splits into the root, the kept segments and, after a '/', an empty last one. */
  lemma CleanSplit(p: string)
    ensures AllPlain(Kept(p))
    ensures var c := CleanPath(p); var kept := Kept(p); var q := Rooted(p);
      |c| > 0 && c[0] == '/' &&
      Split(c) == if kept == [] then ["", ""] else [""] + kept + (if q[|q| - 1] == '/' then [""] else [])
  {
    var q := Rooted(p);
    var kept := Kept(p);
    ResolvePlain([], Split(q));
    assert forall k :: 0 <= k < |kept| ==> '/' !in kept[k] by {
      forall k | 0 <= k < |kept| ensures '/' !in kept[k] {
        assert Plain(kept[k]);
      }
    }
    if kept == [] {
      SplitCons("", "");
      assert "/" == "" + "/" + "";
      SplitWhole("");
    } else if q[|q| - 1] == '/' {
      SplitJoin("", kept + [""]);
      assert "" + Join(kept + [""]) == Join(kept + [""]);
      assert [""] + (kept + [""]) == [""] + kept + [""];
    } else {
      SplitJoin("", kept);
      assert "" + Join(kept) == Join(kept);
      assert [""] + kept + [] == [""] + kept;
    }
  }

  /** A cleaned path is clean: mux never redirects twice. */
  lemma CleanPathIdempotent(p: string)
    ensures CleanPath(CleanPath(p)) == CleanPath(p)
  {
    var c := CleanPath(p);
    var kept := Kept(p);
    var q := Rooted(p);
    CleanSplit(p);
    assert Rooted(c) == c;
    assert Split(c)[1..] == Split(c)[1..];
    var rest := Split(c)[1..];
    assert Split(c) == [""] + rest;
    assert ResolveFrom([], Split(c)) == ResolveFrom([], rest);
    if kept == [] {
      assert Split(c) == ["", ""];
      ResolveTwo("", "");
    } else if q[|q| - 1] == '/' {
      assert rest == kept + [""];
      ResolveTrailing([], kept);
      ResolveKeeps([], kept);
      assert Kept(c) == kept;
      JoinSnoc(kept, "");
    } else {
      assert rest == kept;
      ResolveKeeps([], kept);
      assert Kept(c) == kept;
      JoinEnd(kept);
    }
  }

  lemma ResolveTwo(a: string, b: string)
    ensures ResolveFrom([], [a, b]) == Step(Step([], a), b)
  {
    assert [a, b][1..] == [b] && [b][1..] == [];
    assert ResolveFrom([], [a, b]) == ResolveFrom(Step([], a), [b]);
    assert ResolveFrom(Step([], a), [b]) == ResolveFrom(Step(Step([], a), b), []);
  }

  lemma ResolveThree(a: string, b: string, c: string)
    ensures ResolveFrom([], [a, b, c]) == Step(Step(Step([], a), b), c)
  {
    assert [a, b, c][1..] == [b, c] && [b, c][1..] == [c] && [c][1..] == [];
    var s1 := Step([], a);
    var s2 := Step(s1, b);
    assert ResolveFrom([], [a, b, c]) == ResolveFrom(s1, [b, c]);
    assert ResolveFrom(s1, [b, c]) == ResolveFrom(s2, [c]);
    assert ResolveFrom(s2, [c]) == ResolveFrom(Step(s2, c), []);
  }

  /** `/<g>` is clean exactly when `g` is plain or empty; "." and ".." clean to the root. */
  lemma CleanCollection(g: string)
    requires '/' !in g
    ensures CleanPath("/" + g) == "/" + g <==> Plain(g) || g == ""
    ensures g == "." || g == ".." ==> CleanPath("/" + g) == "/"
  {
    var p := "/" + g;
    SplitCons("", g);
    assert p == "" + "/" + g;
    SplitWhole(g);
    assert Split(p) == ["", g];
    assert Rooted(p) == p;
    ResolveTwo("", g);
    if Plain(g) {
      assert Kept(p) == [g];
      assert Join([g]) == "/" + g + "";
    } else if g == "" {
      assert Kept(p) == [];
    } else {
      assert Kept(p) == [];
      assert p != "/";
    }
  }

  /**
   * `/<g>/<x>` is clean exactly when `g` is plain and `x` plain or empty;
   * with a plain `g`, "." cleans to `/<g>` and ".." to the root.
   */
  lemma CleanItem(g: string, x: string)
    requires '/' !in g && '/' !in x
    ensures CleanPath("/" + g + "/" + x) == "/" + g + "/" + x <==> Plain(g) && (Plain(x) || x == "")
    ensures Plain(g) && x == "." ==> CleanPath("/" + g + "/" + x) == "/" + g
    ensures Plain(g) && x == ".." ==> CleanPath("/" + g + "/" + x) == "/"
  {
    var p := "/" + g + "/" + x;
    SplitPaths(g, x);
    assert Rooted(p) == p;
    ResolveThree("", g, x);
    if !Plain(g) {
      CleanItemGroup(g, x);
    } else if Plain(x) {
      CleanItemPlain(g, x);
    } else if x == "" {
      CleanItemSlash(g);
    } else if x == "." {
      assert Kept(p) == [g];
      assert Join([g]) == "/" + g + "";
      assert p[|p| - 1] == '.';
    } else {
      assert Kept(p) == [];
    }
  }

  lemma CleanItemPlain(g: string, x: string)
    requires Plain(g) && Plain(x)
    ensures CleanPath("/" + g + "/" + x) == "/" + g + "/" + x
  {
    var p := "/" + g + "/" + x;
    SplitPaths(g, x);
    assert Rooted(p) == p;
    ResolveThree("", g, x);
    assert Step([], "") == [] && Step([], g) == [g] && Step([g], x) == [g, x];
    assert Kept(p) == [g, x];
    assert p[|p| - 1] == x[|x| - 1] != '/';
    JoinTwo(g, x);
  }

  lemma JoinTwo(a: string, b: string)
    ensures Join([a, b]) == "/" + a + "/" + b
  {
    assert [a, b][1..] == [b] && [b][1..] == [];
    assert Join([b]) == "/" + b + "";
    assert Join([a, b]) == "/" + a + Join([b]);
  }

  lemma CleanItemSlash(g: string)
    requires Plain(g)
    ensures CleanPath("/" + g + "/" + "") == "/" + g + "/" + ""
  {
    var p := "/" + g + "/" + "";
    SplitPaths(g, "");
    assert Rooted(p) == p;
    ResolveThree("", g, "");
    assert Kept(p) == [g];
    assert [g] + [""] == [g, ""] && [g, ""][1..] == [""] && [""][1..] == [];
    assert Join([""]) == "/" + "" + "";
    assert Join([g] + [""]) == "/" + g + Join([""]);
  }

  lemma CleanItemGroup(g: string, x: string)
    requires '/' !in g && '/' !in x && !Plain(g)
    ensures CleanPath("/" + g + "/" + x) != "/" + g + "/" + x
  {
    var p := "/" + g + "/" + x;
    SplitPaths(g, x);
    CleanSplit(p);
    var kept := Kept(p);
    var q := Rooted(p);
    var t: seq<string> := if q[|q| - 1] == '/' then [""] else [];
    if kept != [] {
      assert ([""] + kept + t)[1] == kept[0];
    }
  }

  /** Router.ServeHTTP's choice for a request: a path that is not clean is answered 301 with the cleaned path. */
  function Dispatch(routes: seq<Route>, verb: Verb, path: string): (d: Dispatched)
    ensures d.Redirect? <==> CleanPath(path) != path
    ensures d.Redirect? ==> d.location == CleanPath(path) && CleanPath(d.location) == d.location
    ensures !d.Redirect? ==> d == DispatchSegs(routes, verb, Split(path))
  {
    CleanPathIdempotent(path);
    if CleanPath(path) != path then Redirect(CleanPath(path)) else DispatchSegs(routes, verb, Split(path))
  }

  /** The first route that matches wins, whatever follows it. */
  lemma DispatchPicks(routes: seq<Route>, verb: Verb, segs: seq<string>, i: nat)
    requires i < |routes| && Matches(routes[i], verb, segs) && NoneBefore(routes, i, verb, segs)
    ensures DispatchSegs(routes, verb, segs) == Matched(routes[i])
  {
    var k := FirstMatch(routes, verb, segs).value;
    assert !(k < i) && !(i < k);
  }

  /** Routes in front that cannot see the request make no difference to its dispatch. */
  lemma DispatchSkip(a: seq<Route>, b: seq<Route>, verb: Verb, segs: seq<string>)
    requires NoPath(a, segs)
    ensures DispatchSegs(a + b, verb, segs) == DispatchSegs(b, verb, segs)
  {
    FirstMatchSkip(a, b, verb, segs);
    NoPathSkip(a, b, segs);
    if FirstMatch(b, verb, segs).Some? {
      var i := FirstMatch(b, verb, segs).value;
      assert (a + b)[|a| + i] == b[i];
    }
  }

  lemma {:induction false} FirstMatchSkip(a: seq<Route>, b: seq<Route>, verb: Verb, segs: seq<string>)
    requires NoPath(a, segs)
    ensures FirstMatch(a + b, verb, segs) ==
      match FirstMatch(b, verb, segs) case None => None case Some(i) => Some(|a| + i)
  {
    if a == [] {
      assert a + b == b;
    } else {
      assert !PathMatches(a[0], segs);
      assert (a + b)[0] == a[0] && (a + b)[1..] == a[1..] + b;
      assert NoPath(a[1..], segs) by {
        forall j | 0 <= j < |a[1..]| ensures !PathMatches(a[1..][j], segs) {
          assert a[1..][j] == a[j + 1];
        }
      }
      FirstMatchSkip(a[1..], b, verb, segs);
    }
  }

  lemma NoPathSkip(a: seq<Route>, b: seq<Route>, segs: seq<string>)
    requires NoPath(a, segs)
    ensures NoPath(a + b, segs) <==> NoPath(b, segs)
  {
    var all := a + b;
    assert forall j :: 0 <= j < |b| ==> all[|a| + j] == b[j];
    assert forall j :: |a| <= j < |all| ==> all[j] == b[j - |a|];
  }

  /** Routes behind that cannot see the request make no difference to its dispatch. */
  lemma DispatchTrim(b: seq<Route>, c: seq<Route>, verb: Verb, segs: seq<string>)
    requires NoPath(c, segs)
    ensures DispatchSegs(b + c, verb, segs) == DispatchSegs(b, verb, segs)
  {
    var all := b + c;
    assert forall j :: 0 <= j < |b| ==> all[j] == b[j];
    match FirstMatch(b, verb, segs)
    case Some(i) =>
      DispatchPicks(all, verb, segs, i);
    case None =>
      assert forall j :: |b| <= j < |all| ==> all[j] == c[j - |b|];
      if !NoPath(b, segs) {
        var j :| 0 <= j < |b| && PathMatches(b[j], segs);
        assert PathMatches(all[j], segs);
      }
  }

  /** Every route of a subrouter sits under `/<group>` and is no prefix route. */
  predicate Mounted(routes: seq<Route>, group: string)
  {
    forall j :: 0 <= j < |routes| ==>
      !routes[j].prefix && |routes[j].template| >= 2 && routes[j].template[0] == Lit("") && routes[j].template[1] == Lit(group)
  }

  predicate AllMounted(ms: seq<(string, seq<Route>)>)
  {
    forall g :: 0 <= g < |ms| ==> Mounted(ms[g].1, ms[g].0)
  }

  lemma EntityMounted(group: string, id: string, controller: Controller, create: seq<string>, read: seq<string>,
                      write: seq<string>)
    ensures Mounted(EntityRoutes(group, id, controller, create, read, write), group)
  {
  }

  lemma MountsMounted()
    ensures AllMounted(Mounts)
  {
    var admin, anyone := Admin, Anyone;
    EntityMounted("books", "book_id", BookController, admin, anyone, admin);
    EntityMounted("courses", "course_id", CourseController, admin, anyone, admin);
    EntityMounted("stocks", "stock_id", StockController, admin, admin, admin);
    EntityMounted("feeds", "feed_id", FeedController, admin, anyone, admin);
    assert Mounted(UsersRoutes, "users");
    assert Mounted(AuthRoutes, "auth");
    assert Mounted(MediaRoutes, "media");
  }

  /** Subrouters mounted under other names than the path's second segment never see it. */
  lemma {:induction false} FlattenNoPath(ms: seq<(string, seq<Route>)>, segs: seq<string>)
    requires AllMounted(ms) && |segs| >= 2
    requires forall g :: 0 <= g < |ms| ==> ms[g].0 != segs[1]
    ensures NoPath(Flatten(ms), segs)
  {
    if ms != [] {
      FlattenNoPath(ms[1..], segs);
      var head := ms[0].1;
      var all := head + Flatten(ms[1..]);
      forall j | 0 <= j < |all| ensures !PathMatches(all[j], segs) {
        if j < |head| {
          assert head[j].template[1] == Lit(ms[0].0);
        } else {
          assert all[j] == Flatten(ms[1..])[j - |head|];
        }
      }
    }
  }

  /** Among subrouters with distinct names, the one the second segment names alone dispatches. */
  lemma {:induction false} FlattenDispatch(ms: seq<(string, seq<Route>)>, g: nat, verb: Verb, segs: seq<string>)
    requires AllMounted(ms) && |segs| >= 2 && g < |ms| && segs[1] == ms[g].0
    requires forall h :: 0 <= h < |ms| && h != g ==> ms[h].0 != ms[g].0
    ensures DispatchSegs(Flatten(ms), verb, segs) == DispatchSegs(ms[g].1, verb, segs)
  {
    var head := ms[0].1;
    var rest := Flatten(ms[1..]);
    assert Flatten(ms) == head + rest;
    if g == 0 {
      FlattenNoPath(ms[1..], segs);
      DispatchTrim(head, rest, verb, segs);
    } else {
      forall j | 0 <= j < |head| ensures !PathMatches(head[j], segs) {
        assert head[j].template[1] == Lit(ms[0].0);
      }
      FlattenDispatch(ms[1..], g - 1, verb, segs);
      DispatchSkip(head, rest, verb, segs);
    }
  }

  /**
   * Dispatch in the main router is dispatch in the subrouter the second
   * segment names; a path under no mounted name (`/cart` among them) and
   * outside `/assets/` finds no route at all.
   */
  lemma MainDispatch(segs: seq<string>, verb: Verb)
    requires |segs| >= 2 && segs[1] != "assets"
    ensures forall g :: 0 <= g < |Mounts| && segs[1] == Mounts[g].0 ==>
      DispatchSegs(MainTable, verb, segs) == DispatchSegs(Mounts[g].1, verb, segs)
    ensures (forall g :: 0 <= g < |Mounts| ==> Mounts[g].0 != segs[1]) ==> DispatchSegs(MainTable, verb, segs) == NotFound
  {
    MountsMounted();
    assert !PathMatches(AssetsRoute, segs) by { assert AssetsRoute.template[1] == Lit("assets"); }
    assert NoPath([AssetsRoute], segs);
    if g :| 0 <= g < |Mounts| && segs[1] == Mounts[g].0 {
      FlattenDispatch(Mounts, g, verb, segs);
      DispatchSkip([AssetsRoute], Flatten(Mounts), verb, segs);
    } else {
      FlattenNoPath(Mounts, segs);
      forall j | 0 <= j < |MainTable| ensures !PathMatches(MainTable[j], segs) {
        if j > 0 {
          assert MainTable[j] == Flatten(Mounts)[j - 1];
        }
      }
    }
  }

  // ---- Within a subrouter ---------------------------------------------------------

  /** An entity subrouter's collection path: POST creates, GET lists, any other method is 405. */
  lemma EntityCollection(group: string, id: string, controller: Controller, create: seq<string>, read: seq<string>,
                         write: seq<string>, verb: Verb, segs: seq<string>)
    requires segs == ["", group]
    ensures var routes := EntityRoutes(group, id, controller, create, read, write);
      DispatchSegs(routes, verb, segs) ==
      if verb == POST then Matched(routes[0]) else if verb == GET then Matched(routes[1]) else MethodNotAllowed
  {
    var routes := EntityRoutes(group, id, controller, create, read, write);
    assert PathMatches(routes[0], segs) && PathMatches(routes[1], segs);
  }

  /** An entity subrouter's item path `/<group>/<id>`: GET, PATCH and DELETE, any other method is 405. */
  lemma EntityItem(group: string, id: string, controller: Controller, create: seq<string>, read: seq<string>,
                   write: seq<string>, verb: Verb, segs: seq<string>)
    requires |segs| == 3 && segs[0] == "" && segs[1] == group && segs[2] != ""
    ensures var routes := EntityRoutes(group, id, controller, create, read, write);
      DispatchSegs(routes, verb, segs) ==
      if verb == GET then Matched(routes[2]) else if verb == PATCH then Matched(routes[3])
      else if verb == DELETE then Matched(routes[4]) else MethodNotAllowed
  {
    var routes := EntityRoutes(group, id, controller, create, read, write);
    assert PathMatches(routes[2], segs) && PathMatches(routes[3], segs) && PathMatches(routes[4], segs);
  }

  /** Any deeper path under an entity subrouter, or one with an empty id, is 404. */
  lemma EntityElsewhere(group: string, id: string, controller: Controller, create: seq<string>, read: seq<string>,
                        write: seq<string>, verb: Verb, segs: seq<string>)
    requires |segs| > 3 || (|segs| == 3 && segs[2] == "")
    ensures DispatchSegs(EntityRoutes(group, id, controller, create, read, write), verb, segs) == NotFound
  {
  }

  /** `/users`: POST creates, GET lists, any other method is 405. */
  lemma UsersCollection(verb: Verb, segs: seq<string>)
    requires segs == ["", "users"]
    ensures DispatchSegs(UsersRoutes, verb, segs) ==
      if verb == POST then Matched(UsersRoutes[0]) else if verb == GET then Matched(UsersRoutes[1]) else MethodNotAllowed
  {
    assert PathMatches(UsersRoutes[0], segs) && PathMatches(UsersRoutes[1], segs);
  }

  /** In `/users`, `/details` is registered before `/{user_id}`, so it wins for GET although both match. */
  lemma UsersDetails(segs: seq<string>)
    requires segs == ["", "users", "details"]
    ensures DispatchSegs(UsersRoutes, GET, segs) == Matched(UsersRoutes[2])
    ensures Matches(UsersRoutes[3], GET, segs)
  {
    assert !PathMatches(UsersRoutes[0], segs) && !PathMatches(UsersRoutes[1], segs);
    assert Matches(UsersRoutes[2], GET, segs) && Matches(UsersRoutes[3], GET, segs);
    DispatchPicks(UsersRoutes, GET, segs, 2);
  }

  /** Any other `/users/<x>` goes to `/{user_id}`: GET, PATCH and DELETE, any other method is 405. */
  lemma UsersItem(verb: Verb, segs: seq<string>)
    requires |segs| == 3 && segs[0] == "" && segs[1] == "users" && segs[2] != ""
    requires !(verb == GET && segs[2] == "details")
    ensures DispatchSegs(UsersRoutes, verb, segs) ==
      if verb == GET then Matched(UsersRoutes[3]) else if verb == PATCH then Matched(UsersRoutes[4])
      else if verb == DELETE then Matched(UsersRoutes[5]) else MethodNotAllowed
  {
    var item := UsersRoutes[3].template;
    assert PathMatches(UsersRoutes[3], segs);
    assert UsersRoutes[4].template == item && UsersRoutes[5].template == item;
    assert NoneBefore(UsersRoutes, 3, verb, segs) by {
      assert !Matches(UsersRoutes[2], verb, segs);
    }
    if verb == GET {
      DispatchPicks(UsersRoutes, verb, segs, 3);
    } else if verb == PATCH {
      DispatchPicks(UsersRoutes, verb, segs, 4);
    } else if verb == DELETE {
      DispatchPicks(UsersRoutes, verb, segs, 5);
    }
  }

  /** The three bare `/media` routes and the admin-only upload. */
  lemma MediaDispatch(verb: Verb, segs: seq<string>)
    requires 2 <= |segs| <= 3 && segs[0] == "" && segs[1] == "media" && (|segs| == 3 ==> segs[2] != "")
    ensures |segs| == 2 && verb == GET ==> DispatchSegs(MediaRoutes, verb, segs) == Matched(MediaRoutes[0])
    ensures |segs| == 2 && verb == POST ==> DispatchSegs(MediaRoutes, verb, segs) == Matched(MediaRoutes[3])
    ensures |segs| == 3 && verb == GET ==> DispatchSegs(MediaRoutes, verb, segs) == Matched(MediaRoutes[1])
    ensures |segs| == 3 && verb == DELETE ==> DispatchSegs(MediaRoutes, verb, segs) == Matched(MediaRoutes[2])
  {
    if |segs| == 2 {
      assert PathMatches(MediaRoutes[0], segs) && PathMatches(MediaRoutes[3], segs);
    } else {
      assert PathMatches(MediaRoutes[1], segs) && PathMatches(MediaRoutes[2], segs);
    }
  }

  /** Every `/auth` route is bare and calls the auth controller; none has the bare `/auth` path. */
  lemma AuthBare(verb: Verb, segs: seq<string>)
    ensures DispatchSegs(AuthRoutes, verb, segs).Matched? ==>
      DispatchSegs(AuthRoutes, verb, segs).route.guard == Open
      && DispatchSegs(AuthRoutes, verb, segs).route.handler.controller == AuthController
    ensures |segs| == 2 ==> DispatchSegs(AuthRoutes, verb, segs) == NotFound
  {
    assert forall j :: 0 <= j < |AuthRoutes| ==>
      AuthRoutes[j].guard == Open && AuthRoutes[j].handler.controller == AuthController && |AuthRoutes[j].template| > 2;
  }

  /** POST `/auth/login`, GET `/auth/refresh` and GET `/auth/logout` reach their handlers. */
  lemma AuthSessions(segs: seq<string>, name: string)
    requires name in {"login", "refresh", "logout"} && segs == ["", "auth", name]
    ensures name == "login" ==> DispatchSegs(AuthRoutes, POST, segs) == Matched(AuthRoutes[0])
    ensures name == "refresh" ==> DispatchSegs(AuthRoutes, GET, segs) == Matched(AuthRoutes[6])
    ensures name == "logout" ==> DispatchSegs(AuthRoutes, GET, segs) == Matched(AuthRoutes[7])
  {
    if name == "login" {
      DispatchPicks(AuthRoutes, POST, segs, 0);
    } else if name == "refresh" {
      assert forall j :: 0 <= j < 6 ==> !Matches(AuthRoutes[j], GET, segs) by {
        assert !PathMatches(AuthRoutes[2], segs);
      }
      DispatchPicks(AuthRoutes, GET, segs, 6);
    } else {
      assert AuthRoutes[6].template[2] == Lit("refresh") && "refresh"[0] != segs[2][0];
      assert forall j :: 0 <= j < 7 ==> !Matches(AuthRoutes[j], GET, segs) by {
        assert !PathMatches(AuthRoutes[2], segs) && !PathMatches(AuthRoutes[6], segs);
      }
      DispatchPicks(AuthRoutes, GET, segs, 7);
    }
  }

  // ---- Serving a request ----------------------------------------------------------

  /** What the server does with a request: run a handler (with the user, if any), refuse it, or 405 / 404. */
  datatype Answer = Handled(handler: Handler, user: Option<User>) | Denied(error: RestError) | NoMethod | NoRoute | Moved(location: string)

  /** A bare handler runs with no user; a wrapped one runs as EnsureAuth decides. */
  function Admit(r: Route, users: seq<User>, header: string, keys: AuthService.KeyFiles, nowMs: int): (a: Answer)
    ensures r.guard.Open? ==> a == Handled(r.handler, None)
    ensures r.guard.Auth? && header == "" ==>
      a == if r.guard.roles == [] then Handled(r.handler, None) else Denied(Authentication.Unauthorized(Authentication.MissingHeader))
    ensures a.Handled? ==> a.handler == r.handler
    ensures a.Handled? && a.user.Some? ==> r.guard.Auth? && (r.guard.roles == [] || a.user.value.kind in r.guard.roles)
    ensures a.Denied? ==> r.guard.Auth? && (a.error.code == 401 || a.error.code == 403)
  {
    match r.guard
    case Open => Handled(r.handler, None)
    case Auth(roles) =>
      match Authentication.Decide(users, header, roles, keys, nowMs)
      case Reject(e) => Denied(e)
      case Run(u) => Handled(r.handler, u)
  }

  /**
   * Serving a request: an unclean path is a 301 to its clean form; otherwise
   * 404 without a path match, 405 with a path match under another method,
   * and the first matching route's handler behind its guard.
   */
  function Serve(routes: seq<Route>, users: seq<User>, verb: Verb, path: string, header: string,
                 keys: AuthService.KeyFiles, nowMs: int): (a: Answer)
    ensures a.Moved? <==> CleanPath(path) != path
    ensures a.Moved? ==> a.location == CleanPath(path) && CleanPath(a.location) == a.location
    ensures a == NoRoute <==> CleanPath(path) == path && NoPath(routes, Split(path))
    ensures a.Handled? || a.Denied? ==>
      exists i :: 0 <= i < |routes| && Matches(routes[i], verb, Split(path)) && (a.Handled? ==> a.handler == routes[i].handler)
  {
    match Dispatch(routes, verb, path)
    case NotFound => NoRoute
    case MethodNotAllowed => NoMethod
    case Redirect(location) => Moved(location)
    case Matched(r) => Admit(r, users, header, keys, nowMs)
  }

  /** Every subrouter is mounted under a plain name other than "assets". */
  lemma MountsPlain()
    ensures forall g :: 0 <= g < |Mounts| ==> Plain(Mounts[g].0) && Mounts[g].0 != "assets"
  {
  }

  /**
   * A path `/<group>` or `/<group>/<x>` of the main router is dispatched by
   * that group's subrouter, once clean: `/<group>/.` is redirected to
   * `/<group>` and `/<group>/..` to the root.
   */
  lemma MountPaths(g: nat, group: string, routes: seq<Route>, x: string, verb: Verb)
    requires g < |Mounts| && Mounts[g] == (group, routes) && '/' !in x
    ensures Dispatch(MainTable, verb, "/" + group) == DispatchSegs(routes, verb, ["", group])
    ensures Plain(x) || x == "" ==>
      Dispatch(MainTable, verb, "/" + group + "/" + x) == DispatchSegs(routes, verb, ["", group, x])
    ensures x == "." ==> Dispatch(MainTable, verb, "/" + group + "/" + x) == Redirect("/" + group)
    ensures x == ".." ==> Dispatch(MainTable, verb, "/" + group + "/" + x) == Redirect("/")
  {
    MountCollection(g, group, routes, verb);
    MountItem(g, group, routes, x, verb);
  }

  lemma MountCollection(g: nat, group: string, routes: seq<Route>, verb: Verb)
    requires g < |Mounts| && Mounts[g] == (group, routes)
    ensures Dispatch(MainTable, verb, "/" + group) == DispatchSegs(routes, verb, ["", group])
  {
    MountsPlain();
    SplitPaths(group, "");
    CleanCollection(group);
    MainDispatch(["", group], verb);
  }

  lemma MountItem(g: nat, group: string, routes: seq<Route>, x: string, verb: Verb)
    requires g < |Mounts| && Mounts[g] == (group, routes) && '/' !in x
    ensures Plain(x) || x == "" ==>
      Dispatch(MainTable, verb, "/" + group + "/" + x) == DispatchSegs(routes, verb, ["", group, x])
    ensures x == "." ==> Dispatch(MainTable, verb, "/" + group + "/" + x) == Redirect("/" + group)
    ensures x == ".." ==> Dispatch(MainTable, verb, "/" + group + "/" + x) == Redirect("/")
  {
    MountsPlain();
    SplitPaths(group, x);
    CleanItem(group, x);
    MainDispatch(["", group, x], verb);
  }

  /** Behind a guard with roles, no request without a header runs, and a user handed over holds one of the roles. */
  lemma GuardedServe(routes: seq<Route>, users: seq<User>, verb: Verb, path: string, header: string,
                     keys: AuthService.KeyFiles, nowMs: int, roles: seq<string>)
    requires roles != []
    requires Dispatch(routes, verb, path).Matched? ==> Dispatch(routes, verb, path).route.guard == Auth(roles)
    ensures header == "" ==> !Serve(routes, users, verb, path, header, keys, nowMs).Handled?
    ensures var a := Serve(routes, users, verb, path, header, keys, nowMs);
      a.Handled? && a.user.Some? ==> a.user.value.kind in roles
  {
  }

  // ---- The route table ------------------------------------------------------------

  /** GET `/users/details` reaches GetUserDetails for admins and users, although `/{user_id}` also matches it. */
  lemma UserDetailsFirst(path: string)
    requires path == "/users/details"
    ensures Dispatch(MainTable, GET, path) == Matched(UsersRoutes[2])
    ensures UsersRoutes[2].guard == Auth(Members) && UsersRoutes[2].handler == Handler(UserController, GetUserDetails)
    ensures Matches(UsersRoutes[3], GET, Split(path))
  {
    var group, name := "users", "details";
    assert path == "/" + group + "/" + name;
    MountItem(0, group, UsersRoutes, name, GET);
    SplitPaths(group, name);
    UsersDetails(["", group, name]);
  }

  /** Every route under `/users` except GET `/users/details` is admin-only. */
  lemma UsersAdminOnly(verb: Verb, x: string)
    requires '/' !in x && x != ""
    ensures Dispatch(MainTable, verb, "/users").Matched? ==> Dispatch(MainTable, verb, "/users").route.guard == Auth(Admin)
    ensures !(verb == GET && x == "details") && Dispatch(MainTable, verb, "/users/" + x).Matched? ==>
      Dispatch(MainTable, verb, "/users/" + x).route.guard == Auth(Admin)
  {
    var group := "users";
    assert "/users" == "/" + group;
    assert "/users/" + x == "/" + group + "/" + x;
    MountPaths(0, group, UsersRoutes, x, verb);
    UsersCollection(verb, ["", group]);
    if !(verb == GET && x == "details") {
      UsersItem(verb, ["", group, x]);
    }
  }

  /**
   * A mounted entity subrouter under the main router: on the collection POST
   * needs the creation roles and GET the reading roles; on an item GET needs
   * the reading roles, PATCH and DELETE the writing roles.
   */
  lemma MountedEntity(g: nat, group: string, id: string, controller: Controller, create: seq<string>, read: seq<string>,
                      write: seq<string>, verb: Verb, x: string)
    requires g < |Mounts| && Mounts[g] == (group, EntityRoutes(group, id, controller, create, read, write))
    requires '/' !in x && x != ""
    ensures var d := Dispatch(MainTable, verb, "/" + group);
      d.Matched? <==> verb == POST || verb == GET
    ensures var d := Dispatch(MainTable, verb, "/" + group);
      d.Matched? ==> d.route.guard == if verb == POST then Auth(create) else Auth(read)
    ensures var d := Dispatch(MainTable, verb, "/" + group + "/" + x);
      d.Matched? <==> Plain(x) && (verb == GET || verb == PATCH || verb == DELETE)
    ensures var d := Dispatch(MainTable, verb, "/" + group + "/" + x);
      d.Matched? ==> d.route.guard == if verb == GET then Auth(read) else Auth(write)
    ensures x == "." ==> Dispatch(MainTable, verb, "/" + group + "/" + x) == Redirect("/" + group)
    ensures x == ".." ==> Dispatch(MainTable, verb, "/" + group + "/" + x) == Redirect("/")
  {
    MountPaths(g, group, EntityRoutes(group, id, controller, create, read, write), x, verb);
    EntityCollection(group, id, controller, create, read, write, verb, ["", group]);
    EntityItem(group, id, controller, create, read, write, verb, ["", group, x]);
  }

  /** Books, courses and feeds: reads are open to anyone, creation and writes admin-only. */
  lemma CatalogueGuards(group: string, verb: Verb, x: string)
    requires group in {"books", "courses", "feeds"} && '/' !in x && x != ""
    ensures Dispatch(MainTable, verb, "/" + group).Matched? ==>
      Dispatch(MainTable, verb, "/" + group).route.guard == if verb == GET then Auth(Anyone) else Auth(Admin)
    ensures Dispatch(MainTable, verb, "/" + group + "/" + x).Matched? ==>
      Dispatch(MainTable, verb, "/" + group + "/" + x).route.guard == if verb == GET then Auth(Anyone) else Auth(Admin)
  {
    var admin, anyone := Admin, Anyone;
    if group == "courses" {
      var id, c := "course_id", CourseController;
      MountedEntity(2, group, id, c, admin, anyone, admin, verb, x);
    } else if group == "books" {
      var id, c := "book_id", BookController;
      MountedEntity(3, group, id, c, admin, anyone, admin, verb, x);
    } else {
      var id, c := "feed_id", FeedController;
      MountedEntity(6, group, id, c, admin, anyone, admin, verb, x);
    }
  }

  /** Every `/stocks` route is admin-only: no request without a header runs, and a user handed over is an admin. */
  lemma StocksAdminOnly(users: seq<User>, verb: Verb, path: string, x: string, header: string, keys: AuthService.KeyFiles, nowMs: int)
    requires '/' !in x && x != "" && (path == "/stocks" || path == "/stocks/" + x)
    ensures Dispatch(MainTable, verb, path).Matched? ==> Dispatch(MainTable, verb, path).route.guard == Auth(Admin)
    ensures header == "" ==> !Serve(MainTable, users, verb, path, header, keys, nowMs).Handled?
    ensures var a := Serve(MainTable, users, verb, path, header, keys, nowMs);
      a.Handled? && a.user.Some? ==> a.user.value.kind == "admin"
  {
    var group, id, c, admin := "stocks", "stock_id", StockController, Admin;
    assert path == "/" + group || path == "/" + group + "/" + x;
    MountedEntity(5, group, id, c, admin, admin, admin, verb, x);
    GuardedServe(MainTable, users, verb, path, header, keys, nowMs, admin);
  }

  /**
   * The media list, a media item and its deletion run for anyone, whatever
   * the header says; an item segment "." or ".." is redirected first.
   */
  lemma MediaOpen(users: seq<User>, x: string, header: string, keys: AuthService.KeyFiles, nowMs: int)
    requires '/' !in x && x != ""
    ensures Serve(MainTable, users, GET, "/media", header, keys, nowMs) == Handled(Handler(MediaController, Get), None)
    ensures Plain(x) ==>
      Serve(MainTable, users, GET, "/media/" + x, header, keys, nowMs) == Handled(Handler(MediaController, GetById), None)
    ensures Plain(x) ==>
      Serve(MainTable, users, DELETE, "/media/" + x, header, keys, nowMs) == Handled(Handler(MediaController, Delete), None)
    ensures x == "." ==>
      Serve(MainTable, users, GET, "/media/" + x, header, keys, nowMs) == Moved("/media") &&
      Serve(MainTable, users, DELETE, "/media/" + x, header, keys, nowMs) == Moved("/media")
    ensures x == ".." ==>
      Serve(MainTable, users, GET, "/media/" + x, header, keys, nowMs) == Moved("/") &&
      Serve(MainTable, users, DELETE, "/media/" + x, header, keys, nowMs) == Moved("/")
  {
    var group := "media";
    assert "/media" == "/" + group;
    assert "/media/" + x == "/" + group + "/" + x;
    MountCollection(4, group, MediaRoutes, GET);
    MountItem(4, group, MediaRoutes, x, GET);
    MountItem(4, group, MediaRoutes, x, DELETE);
    MediaDispatch(GET, ["", group]);
    if Plain(x) {
      MediaDispatch(GET, ["", group, x]);
      MediaDispatch(DELETE, ["", group, x]);
    }
  }

  /** Uploading to `/media` is admin-only: no request without a header runs, and a user handed over is an admin. */
  lemma MediaUploadAdminOnly(users: seq<User>, path: string, header: string, keys: AuthService.KeyFiles, nowMs: int)
    requires path == "/media"
    ensures Dispatch(MainTable, POST, path) == Matched(MediaRoutes[3]) && MediaRoutes[3].guard == Auth(Admin)
    ensures header == "" ==> !Serve(MainTable, users, POST, path, header, keys, nowMs).Handled?
    ensures var a := Serve(MainTable, users, POST, path, header, keys, nowMs);
      a.Handled? && a.user.Some? ==> a.user.value.kind == "admin"
  {
    var group := "media";
    assert path == "/" + group;
    MountCollection(4, group, MediaRoutes, POST);
    MediaDispatch(POST, ["", group]);
    GuardedServe(MainTable, users, POST, path, header, keys, nowMs, Admin);
  }

  /** Every `/auth` request runs without any header check and without a user; `/auth` itself is 404. */
  lemma AuthOpen(users: seq<User>, verb: Verb, x: string, header: string, keys: AuthService.KeyFiles, nowMs: int)
    requires '/' !in x
    ensures Dispatch(MainTable, verb, "/auth") == NotFound
    ensures var a := Serve(MainTable, users, verb, "/auth/" + x, header, keys, nowMs);
      !a.Denied? && (a.Handled? ==> a.user.None? && a.handler.controller == AuthController)
  {
    var group := "auth";
    assert "/auth" == "/" + group;
    MountCollection(1, group, AuthRoutes, verb);
    AuthBare(verb, ["", group]);
    AuthItemOpen(users, verb, x, header, keys, nowMs);
  }

  lemma AuthItemOpen(users: seq<User>, verb: Verb, x: string, header: string, keys: AuthService.KeyFiles, nowMs: int)
    requires '/' !in x
    ensures var a := Serve(MainTable, users, verb, "/auth/" + x, header, keys, nowMs);
      !a.Denied? && (a.Handled? ==> a.user.None? && a.handler.controller == AuthController)
  {
    var group := "auth";
    assert "/auth/" + x == "/" + group + "/" + x;
    MountItem(1, group, AuthRoutes, x, verb);
    if Plain(x) || x == "" {
      AuthBare(verb, ["", group, x]);
    }
  }

  /** POST `/auth/login`, GET `/auth/refresh` and GET `/auth/logout` reach Login, Refresh and Logout with no user. */
  lemma SessionRoutes(users: seq<User>, name: string, header: string, keys: AuthService.KeyFiles, nowMs: int)
    requires name in {"login", "refresh", "logout"}
    ensures name == "login" ==>
      Serve(MainTable, users, POST, "/auth/" + name, header, keys, nowMs) == Handled(Handler(AuthController, Login), None)
    ensures name == "refresh" ==>
      Serve(MainTable, users, GET, "/auth/" + name, header, keys, nowMs) == Handled(Handler(AuthController, Refresh), None)
    ensures name == "logout" ==>
      Serve(MainTable, users, GET, "/auth/" + name, header, keys, nowMs) == Handled(Handler(AuthController, Logout), None)
  {
    var group := "auth";
    assert "/auth/" + name == "/" + group + "/" + name;
    MountItem(1, group, AuthRoutes, name, POST);
    MountItem(1, group, AuthRoutes, name, GET);
    AuthSessions(["", group, name], name);
  }

  /**
   * A group no subrouter is mounted under finds no route, with or without an
   * item segment: a clean path is 404, any other is redirected.
   */
  lemma UnmountedGroup(group: string, verb: Verb, x: string)
    requires '/' !in group && '/' !in x && group != "assets"
    requires forall g :: 0 <= g < |Mounts| ==> Mounts[g].0 != group
    ensures Dispatch(MainTable, verb, "/" + group) == if group == "." || group == ".." then Redirect("/") else NotFound
    ensures Dispatch(MainTable, verb, "/" + group + "/" + x) ==
      if Plain(group) && (Plain(x) || x == "") then NotFound else Redirect(CleanPath("/" + group + "/" + x))
  {
    SplitPaths(group, x);
    CleanCollection(group);
    CleanItem(group, x);
    MainDispatch(["", group], verb);
    MainDispatch(["", group, x], verb);
  }

  lemma CartUnmounted()
    ensures forall g :: 0 <= g < |Mounts| ==> Mounts[g].0 != "cart"
  {
  }

  /** RegisterCartRoutes is never called: no `/cart` request finds a route. */
  lemma NoCartRoutes(verb: Verb, x: string)
    requires '/' !in x
    ensures Dispatch(MainTable, verb, "/cart") == NotFound
    ensures Plain(x) || x == "" ==> Dispatch(MainTable, verb, "/cart/" + x) == NotFound
    ensures x == "." ==> Dispatch(MainTable, verb, "/cart/" + x) == Redirect("/cart")
    ensures x == ".." ==> Dispatch(MainTable, verb, "/cart/" + x) == Redirect("/")
  {
    var group := "cart";
    assert "/cart" == "/" + group;
    assert "/cart/" + x == "/" + group + "/" + x;
    CartUnmounted();
    assert Plain(group);
    UnmountedGroup(group, verb, x);
    CleanItem(group, x);
  }
}

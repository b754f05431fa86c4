/**
 * UserService (pkg/services/users.service.go) over the `users` collection.
 * bcrypt is abstracted as a Hasher: a hash function that may refuse a
 * password and the comparison CompareHashAndPassword makes.
 */
module UserService {
  import opened Wrappers
  import opened ObjectIds
  import opened Errors
  import opened Models
  import opened Store
  import opened Query
  import Pipeline

  const UserNotFoundLogin := "User not Found."
  const IncorrectPassword := "Incorrect password"
  const ServerError := "Internal Server Error"
  const NoSuchField := "no such field"

  /**
   * bcrypt as the service uses it: `hash` is GenerateFromPassword at cost 10
   * (None when it refuses the password), `matches(hashed, plain)` is
   * CompareHashAndPassword succeeding. The salt is folded into `hash`.
   */
  datatype Hasher = Hasher(hash: string -> Option<string>, matches: (string, string) -> bool)

  /** The one fact assumed of bcrypt: a password matches its own hash. */
  ghost predicate Sound(h: Hasher)
  {
    forall p :: h.hash(p).Some? ==> h.matches(h.hash(p).value, p)
  }

  // ---- Create ---------------------------------------------------------------

  /** The stored form of a created user: NewUser, the hashed password, the type fallback. */
  function Prepared(u: User, now: int, hashed: string): (r: User)
    ensures r.kind == "user" && r.password == hashed && r.verified == Verified(false, false)
    ensures r.(kind := u.kind, password := u.password) == UserDefaults(u, now).(kind := u.kind, password := u.password)
  {
    var filled := UserDefaults(u, now);
    filled.(password := hashed, kind := if filled.kind == "" then "user" else filled.kind)
  }

  /**
   * Create: NewUser, then the password is replaced by its hash and an empty
   * type becomes "user"; the user is inserted and handed back with its new
   * id and an empty password.
   */
  method Create(uc: Collection<User>, user: Ref<User>, hasher: Hasher, now: int, generated: ObjectId)
    returns (r: Outcome<Ref<User>>)
    requires UniqueKeys(uc.docs, UserId) && generated != Nil
    modifies uc, user
    ensures UniqueKeys(uc.docs, UserId)
    ensures hasher.hash(UserDefaults(old(user.v), now).password).None? ==>
      r == Err(InternalErr(InsertFailed)) && uc.docs == old(uc.docs) && user.v == UserDefaults(old(user.v), now)
    ensures hasher.hash(UserDefaults(old(user.v), now).password).Some? ==>
      var hashed := hasher.hash(UserDefaults(old(user.v), now).password).value;
      var stored := Stored(Prepared(old(user.v), now, hashed), generated, UserId, WithUserId);
      (r.Ok? <==> Lookup(old(uc.docs), UserId, stored.id).None?)
      && (r.Ok? ==> r.value == user && uc.docs == old(uc.docs) + [stored] && user.v == stored.(password := ""))
      && (r.Err? ==> r.error == InternalErr(InsertFailed) && uc.docs == old(uc.docs)
                     && user.v == Prepared(old(user.v), now, hashed))
  {
    NewUser(user, now);
    var hashed := hasher.hash(user.v.password);
    if hashed.None? {
      return Err(InternalErr(InsertFailed));
    }
    user.v := user.v.(password := hashed.value);
    if user.v.kind == "" {
      user.v := user.v.(kind := "user");
    }
    var result := uc.InsertOne(user.v, generated, UserId, WithUserId);
    if result.Err? {
      return Err(InternalErr(InsertFailed));
    }
    user.v := user.v.(id := result.value);
    user.v := user.v.(password := "");
    r := Ok(user);
  }

  /** A created user is stored with type "user" under a hash its own password matches. */
  lemma CreatedUser(u: User, now: int, hasher: Hasher)
    requires Sound(hasher) && hasher.hash(UserDefaults(u, now).password).Some?
    ensures var hashed := hasher.hash(u.password).value;
      Prepared(u, now, hashed).kind == "user" && hasher.matches(Prepared(u, now, hashed).password, u.password)
  {
    assert UserDefaults(u, now).password == u.password;
  }

  // ---- Find -----------------------------------------------------------------

  /**
   * The users a `find` with `skip` and `limit` yields, in natural order: a
   * limit of 0 means no limit, a negative one the same bound as its absolute
   * value.
   */
  function Listed(users: seq<User>, skip: nat, limit: int): (r: seq<User>)
    ensures |r| == if skip > |users| then 0 else Pipeline.Min(|users| - skip, if limit == 0 then |users| - skip else Abs(limit))
    ensures forall k :: 0 <= k < |r| ==> r[k] == users[skip + k]
  {
    if skip > |users| then []
    else
      var rest := users[skip..];
      rest[..Pipeline.Min(|rest|, if limit == 0 then |rest| else Abs(limit))]
  }

  function Abs(x: int): nat { if x < 0 then -x else x }

  /** A user as the list shows it: every stored field but the password. */
  function Shown(u: User): (r: User)
    ensures r.password == "" && r.(password := u.password) == u
  {
    u.(password := "")
  }

  /**
   * Find(page, limit): skip = (page - 1) * limit in int64 arithmetic; the
   * cursor's users are copied one by one with the password cleared.
   */
  method Find(uc: Collection<User>, page: int, limit: int) returns (r: Outcome<seq<User>>)
    requires Pipeline.MinInt64 <= page <= Pipeline.MaxInt64 && Pipeline.MinInt64 <= limit <= Pipeline.MaxInt64
    requires Pipeline.Wrap64((page - 1) * limit) >= 0
    ensures r.Ok?
    ensures var listed := Listed(uc.docs, Pipeline.Wrap64((page - 1) * limit), limit);
      |r.value| == |listed| && forall i :: 0 <= i < |listed| ==> r.value[i] == Shown(listed[i])
  {
    var skip := Pipeline.Wrap64((page - 1) * limit);
    var cursor := Listed(uc.docs, skip, limit);
    var users: seq<User> := [];
    var i := 0;
    while i < |cursor|
      invariant 0 <= i <= |cursor|
      invariant |users| == i
      invariant forall k :: 0 <= k < i ==> users[k] == Shown(cursor[k])
    {
      var user := cursor[i];
      user := user.(password := "");
      users := users + [user];
      i := i + 1;
    }
    r := Ok(users);
  }

  /** No listed user carries a password, and each is a stored user. */
  lemma ListedShown(users: seq<User>, skip: nat, limit: int)
    ensures forall u :: u in Listed(users, skip, limit) ==> u in users
    ensures limit != 0 ==> |Listed(users, skip, limit)| <= Abs(limit)
  {
    if skip <= |users| {
      var listed := Listed(users, skip, limit);
      forall u | u in listed ensures u in users {
        var k :| 0 <= k < |listed| && listed[k] == u;
        assert u == users[skip + k];
      }
    }
  }

  /** Consecutive pages of the same positive size tile the collection without overlap. */
  lemma ListedPages(users: seq<User>, page: nat, limit: nat)
    requires page >= 1 && limit > 0
    ensures (page - 1) * limit + limit == page * limit
    ensures (page - 1) * limit <= |users| ==>
      Listed(users, (page - 1) * limit, limit) + Listed(users, page * limit, limit)
        == Listed(users, (page - 1) * limit, 2 * limit)
  {
    var s := (page - 1) * limit;
    assert s + limit == page * limit;
    if s <= |users| {
      var a := Listed(users, s, limit);
      var b := Listed(users, page * limit, limit);
      var c := Listed(users, s, 2 * limit);
      if page * limit <= |users| {
        assert |a| == limit;
        assert a + b == c;
      } else {
        assert b == [];
        assert a == c;
      }
    }
  }

  // ---- FindById -------------------------------------------------------------

  /** FindById: the stored user, password hash included. */
  function FindById(users: seq<User>, hex: string): (r: Outcome<User>)
    ensures FromHex(hex).Err? ==> r == Err(NotFound(InvalidUserId))
    ensures FromHex(hex).Ok? && (forall i :: 0 <= i < |users| ==> users[i].id != FromHex(hex).value) ==>
      r == Err(NotFound(UserNotFound))
    ensures r.Ok? ==> r.value in users && FromHex(hex) == Ok(r.value.id)
    ensures UniqueKeys(users, UserId) ==>
      forall i :: 0 <= i < |users| && FromHex(hex) == Ok(users[i].id) ==> r == Ok(users[i])
  {
    FindByHex(users, UserId, hex, NotFound(InvalidUserId), NotFound(UserNotFound))
  }

  lemma FindByIdOwnHex(users: seq<User>, i: nat)
    requires UniqueKeys(users, UserId) && i < |users|
    ensures FindById(users, Hex(users[i].id)) == Ok(users[i])
  {
    HexRoundTrip(users[i].id);
  }

  // ---- DeleteById -----------------------------------------------------------

  method DeleteById(uc: Collection<User>, hex: string) returns (r: Option<RestError>)
    requires UniqueKeys(uc.docs, UserId)
    modifies uc
    ensures UniqueKeys(uc.docs, UserId)
    ensures FromHex(hex).Err? ==> r == Some(NotFound(InvalidUserId)) && uc.docs == old(uc.docs)
    ensures FromHex(hex).Ok? ==> match IndexOfKey(old(uc.docs), UserId, FromHex(hex).value)
      case None => r == Some(NotFound(UserNotFound)) && uc.docs == old(uc.docs)
      case Some(i) => r == None && uc.docs == RemoveAt(old(uc.docs), i)
    ensures r.None? <==> FindById(old(uc.docs), hex).Ok?
    ensures FindById(uc.docs, hex).Err?
  {
    var id := FromHex(hex);
    if id.Err? {
      return Some(NotFound(InvalidUserId));
    }
    LookupOwnKeys(uc.docs, UserId);
    var deleted := uc.DeleteOne(id.value, UserId);
    if deleted == 0 {
      return Some(NotFound(UserNotFound));
    }
    r := None;
  }

  // ---- UpdateById -----------------------------------------------------------

  /** `$set: updateUser` as a document update; it never touches `_id`. */
  function SetUser(update: UpdateUser): User -> Result<User, string>
  {
    (u: User) => Ok(ApplyUpdateUser(u, update))
  }

  /**
   * UpdateById: a bad id is a 404, a missing user the driver's error as a
   * 500; otherwise the user after the update, without its password.
   */
  method UpdateById(uc: Collection<User>, hex: string, update: UpdateUser) returns (r: Outcome<User>)
    requires UniqueKeys(uc.docs, UserId)
    modifies uc
    ensures UniqueKeys(uc.docs, UserId)
    ensures FromHex(hex).Err? ==> r == Err(NotFound(InvalidUserId)) && uc.docs == old(uc.docs)
    ensures FromHex(hex).Ok? ==> match IndexOfKey(old(uc.docs), UserId, FromHex(hex).value)
      case None => r == Err(InternalErr(NoDocuments)) && uc.docs == old(uc.docs)
      case Some(i) =>
        var after := ApplyUpdateUser(old(uc.docs)[i], update);
        uc.docs == old(uc.docs)[i := after] && r == Ok(Shown(after))
    ensures r.Ok? ==> FindById(uc.docs, hex).Ok? && r.value == Shown(FindById(uc.docs, hex).value)
  {
    var id := FromHex(hex);
    if id.Err? {
      return Err(NotFound(InvalidUserId));
    }
    ghost var before := uc.docs;
    LookupOwnKeys(before, UserId);
    var result := uc.FindOneAndUpdate(id.value, UserId, SetUser(update));
    if result.Err? {
      return Err(InternalErr(result.error));
    }
    var user := result.value;
    user := user.(password := "");
    r := Ok(user);
    ghost var i := IndexOfKey(before, UserId, id.value).value;
    LookupOwnKey(uc.docs, UserId, i);
  }

  // ---- ChangePassword -------------------------------------------------------

  /**
   * ChangePassword, as written: the comparison takes the supplied `password`
   * as the hash and the stored hash as the plain text, and the password
   * written is the hash of `password`, not of `new_password`. The answer is
   * the user as found, without its password.
   */
  method ChangePassword(uc: Collection<User>, hex: string, cp: Models.ChangePassword, hasher: Hasher)
    returns (r: Outcome<User>)
    requires UniqueKeys(uc.docs, UserId)
    modifies uc
    ensures UniqueKeys(uc.docs, UserId)
    ensures FindById(old(uc.docs), hex).Err? ==> r == Err(FindById(old(uc.docs), hex).error) && uc.docs == old(uc.docs)
    ensures FindById(old(uc.docs), hex).Ok? ==>
      var user := FindById(old(uc.docs), hex).value;
      var i := IndexOfKey(old(uc.docs), UserId, user.id).value;
      if !hasher.matches(cp.password, user.password) then
        r == Err(InternalErr(IncorrectPassword)) && uc.docs == old(uc.docs)
      else if cp.password != "" && hasher.hash(cp.password).None? then
        r == Err(InternalErr(ServerError)) && uc.docs == old(uc.docs)
      else
        var written := if cp.password != "" then hasher.hash(cp.password).value else "";
        uc.docs == old(uc.docs)[i := user.(password := written)]
        && (r == if written == user.password then Err(BadRequest(NoSuchField)) else Ok(Shown(user)))
  {
    var found := FindById(uc.docs, hex);
    if found.Err? {
      return Err(found.error);
    }
    var user := found.value;
    if !hasher.matches(cp.password, user.password) {
      return Err(InternalErr(IncorrectPassword));
    }
    var newPassword := "";
    if cp.password != "" {
      var hashed := hasher.hash(cp.password);
      if hashed.None? {
        return Err(InternalErr(ServerError));
      }
      newPassword := hashed.value;
    }
    ghost var before := uc.docs;
    LookupOwnKeys(before, UserId);
    var matched, modified := uc.UpdateOne(user.id, UserId, (u: User) => u.(password := newPassword));
    if matched == 0 {
      return Err(NotFound(UserNotFound));
    }
    if modified == 0 {
      return Err(BadRequest(NoSuchField));
    }
    user := user.(password := "");
    r := Ok(user);
  }

  // ---- FindUsernameAndPassword ----------------------------------------------

  /**
   * `{$or: [{phone: username}, {email: username}]}`: an empty phone or email is
   * not stored (omitempty), so an empty username matches nobody.
   */
  predicate LoginMatches(u: User, username: string)
  {
    username != "" && (u.phone == username || u.email == username)
  }

  /** FindOne: the first user in natural order the filter accepts. */
  function FirstLogin(users: seq<User>, username: string): (r: Option<nat>)
    ensures r.Some? ==>
      r.value < |users| && LoginMatches(users[r.value], username)
      && forall j :: 0 <= j < r.value ==> !LoginMatches(users[j], username)
    ensures r.None? <==> forall j :: 0 <= j < |users| ==> !LoginMatches(users[j], username)
  {
    if users == [] then None
    else if LoginMatches(users[0], username) then Some(0)
    else match FirstLogin(users[1..], username)
      case None => None
      case Some(k) => Some(k + 1)
  }

  /** FindUsernameAndPassword: the stored user, hash included, when the password matches it. */
  function FindUsernameAndPassword(users: seq<User>, username: string, password: string, hasher: Hasher): (r: Outcome<User>)
    ensures FirstLogin(users, username).None? <==> r == Err(NotFound(UserNotFoundLogin))
    ensures r.Ok? ==> r.value in users && LoginMatches(r.value, username) && hasher.matches(r.value.password, password)
    ensures FirstLogin(users, username).Some? ==>
      var u := users[FirstLogin(users, username).value];
      r == if hasher.matches(u.password, password) then Ok(u) else Err(InternalErr(IncorrectPassword))
  {
    match FirstLogin(users, username)
    case None => Err(NotFound(UserNotFoundLogin))
    case Some(i) =>
      if hasher.matches(users[i].password, password) then Ok(users[i]) else Err(InternalErr(IncorrectPassword))
  }

  /**
   * A user whose stored password becomes the hash of `p` logs in with `p`
   * (when the user is the first one its phone finds). ChangePassword as
   * written rehashes the supplied current `password`, so that password, not
   * `new_password`, is the one that logs in after a change.
   */
  lemma RehashLogsIn(users: seq<User>, i: nat, p: string, hasher: Hasher)
    requires Sound(hasher) && i < |users| && hasher.hash(p).Some?
    requires FirstLogin(users, users[i].phone) == Some(i)
    ensures var changed := users[i := users[i].(password := hasher.hash(p).value)];
      FindUsernameAndPassword(changed, users[i].phone, p, hasher) == Ok(changed[i])
  {
    var changed := users[i := users[i].(password := hasher.hash(p).value)];
    var name := users[i].phone;
    assert forall j :: 0 <= j < |users| ==> (LoginMatches(changed[j], name) <==> LoginMatches(users[j], name));
    FirstLoginCongruent(users, changed, name);
  }

  /** A hasher that marks a hash with a leading `$`, as bcrypt's `$2a$` prefix does. */
  function Marking(): Hasher
  {
    Hasher((p: string) => Some("$" + p), (hashed: string, p: string) => hashed == "$" + p)
  }

  /**
   * ChangePassword's reversed comparison refuses the rightful owner: with a
   * sound hasher, the password "secret" logs in against its stored hash, yet
   * the comparison ChangePassword makes with the same two strings fails, so
   * it answers "Incorrect password".
   */
  lemma ChangeRefusesOwner()
    ensures Sound(Marking())
    ensures var stored := Marking().hash("secret").value;
      Marking().matches(stored, "secret") && !Marking().matches("secret", stored)
  {
    var stored := Marking().hash("secret").value;
    assert stored == "$secret";
    assert |"secret"| != |"$" + stored|;
  }

  /**
   * ChangePassword as evidently intended: the stored hash is compared with the
   * supplied current password, and the hash of `new_password` is written.
   */
  method ChangePasswordIntended(uc: Collection<User>, hex: string, cp: Models.ChangePassword, hasher: Hasher)
    returns (r: Outcome<User>)
    requires UniqueKeys(uc.docs, UserId)
    modifies uc
    ensures UniqueKeys(uc.docs, UserId)
    ensures FindById(old(uc.docs), hex).Err? ==> r == Err(FindById(old(uc.docs), hex).error) && uc.docs == old(uc.docs)
    ensures FindById(old(uc.docs), hex).Ok? ==>
      var user := FindById(old(uc.docs), hex).value;
      var i := IndexOfKey(old(uc.docs), UserId, user.id).value;
      if !hasher.matches(user.password, cp.password) then
        r == Err(InternalErr(IncorrectPassword)) && uc.docs == old(uc.docs)
      else if cp.newPassword != "" && hasher.hash(cp.newPassword).None? then
        r == Err(InternalErr(ServerError)) && uc.docs == old(uc.docs)
      else
        var written := if cp.newPassword != "" then hasher.hash(cp.newPassword).value else "";
        uc.docs == old(uc.docs)[i := user.(password := written)]
        && (r == if written == user.password then Err(BadRequest(NoSuchField)) else Ok(Shown(user)))
  {
    var found := FindById(uc.docs, hex);
    if found.Err? {
      return Err(found.error);
    }
    var user := found.value;
    if !hasher.matches(user.password, cp.password) {
      return Err(InternalErr(IncorrectPassword));
    }
    var newPassword := "";
    if cp.newPassword != "" {
      var hashed := hasher.hash(cp.newPassword);
      if hashed.None? {
        return Err(InternalErr(ServerError));
      }
      newPassword := hashed.value;
    }
    LookupOwnKeys(uc.docs, UserId);
    var matched, modified := uc.UpdateOne(user.id, UserId, (u: User) => u.(password := newPassword));
    if matched == 0 {
      return Err(NotFound(UserNotFound));
    }
    if modified == 0 {
      return Err(BadRequest(NoSuchField));
    }
    user := user.(password := "");
    r := Ok(user);
  }

  /**
   * The intended change admits the owner, whose current password matches the
   * stored hash, and afterwards `new_password` is the one that logs in.
   */
  lemma IntendedChangeLogsIn(users: seq<User>, i: nat, cp: Models.ChangePassword, hasher: Hasher)
    requires Sound(hasher) && i < |users| && cp.newPassword != "" && hasher.hash(cp.newPassword).Some?
    requires hasher.hash(cp.password).Some? && users[i].password == hasher.hash(cp.password).value
    requires FirstLogin(users, users[i].phone) == Some(i)
    ensures hasher.matches(users[i].password, cp.password)
    ensures var changed := users[i := users[i].(password := hasher.hash(cp.newPassword).value)];
      FindUsernameAndPassword(changed, users[i].phone, cp.newPassword, hasher) == Ok(changed[i])
  {
    RehashLogsIn(users, i, cp.newPassword, hasher);
  }

  lemma {:induction false} FirstLoginCongruent(a: seq<User>, b: seq<User>, username: string)
    requires |a| == |b|
    requires forall j :: 0 <= j < |a| ==> (LoginMatches(a[j], username) <==> LoginMatches(b[j], username))
    ensures FirstLogin(a, username) == FirstLogin(b, username)
  {
    if a != [] {
      FirstLoginCongruent(a[1..], b[1..], username);
    }
  }
}

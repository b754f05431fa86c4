/**
 * A MongoDB collection as the services use it: the documents in their natural
 * (insertion) order, each with a unique, non-nil `_id`. Every document type
 * names its `_id` by a key function, and `withKey` is how the driver fills in
 * a generated `_id` when the document leaves it out.
 */
module Store {
  import opened Wrappers
  import opened ObjectIds
  import Pipeline

  /** The collection invariant: every document has an `_id`, and no two share one. */
  predicate UniqueKeys<T>(s: seq<T>, key: T -> ObjectId)
  {
    (forall i :: 0 <= i < |s| ==> key(s[i]) != Nil)
    && (forall i, j :: 0 <= i < j < |s| ==> key(s[i]) != key(s[j]))
  }

  /** Where the document with `_id` equal to `id` sits, if there is one. */
  function IndexOfKey<T>(s: seq<T>, key: T -> ObjectId, id: ObjectId): (r: Option<nat>)
    ensures r.Some? ==> r.value < |s| && key(s[r.value]) == id && id != Nil
    ensures r.Some? ==> forall i :: 0 <= i < r.value ==> key(s[i]) != id
    ensures r.None? ==> id == Nil || forall i :: 0 <= i < |s| ==> key(s[i]) != id
  {
    if id == Nil || s == [] then None
    else if key(s[0]) == id then Some(0)
    else match IndexOfKey(s[1..], key, id)
      case None => None
      case Some(i) => Some(i + 1)
  }

  /**
   * FindOne({_id: id}), and the `$eq: ["$_id", "$$ref"]` match of a join: the
   * document with that id. A nil reference is a field left out by omitempty,
   * which no document's `_id` equals.
   */
  function Lookup<T>(s: seq<T>, key: T -> ObjectId, id: ObjectId): (r: Option<T>)
    ensures r.Some? ==> r.value in s && key(r.value) == id && id != Nil
    ensures r.None? ==> id == Nil || forall i :: 0 <= i < |s| ==> key(s[i]) != id
  {
    match IndexOfKey(s, key, id)
    case None => None
    case Some(i) => Some(s[i])
  }

  /** The documents after the first keep the invariant. */
  lemma UniqueTail<T>(s: seq<T>, key: T -> ObjectId)
    requires UniqueKeys(s, key) && s != []
    ensures UniqueKeys(s[1..], key)
  {
    var t := s[1..];
    assert forall i :: 0 <= i < |t| ==> t[i] == s[i + 1];
  }

  /** In a collection with unique ids, looking up a document's own id finds that document. */
  lemma {:induction false} LookupOwnKey<T>(s: seq<T>, key: T -> ObjectId, i: nat)
    requires UniqueKeys(s, key) && i < |s|
    ensures IndexOfKey(s, key, key(s[i])) == Some(i)
    ensures Lookup(s, key, key(s[i])) == Some(s[i])
  {
    if i > 0 {
      assert key(s[0]) != key(s[i]);
      UniqueTail(s, key);
      LookupOwnKey(s[1..], key, i - 1);
      assert s[1..][i - 1] == s[i];
    }
  }

  lemma LookupOwnKeys<T>(s: seq<T>, key: T -> ObjectId)
    ensures UniqueKeys(s, key) ==> forall i :: 0 <= i < |s| ==> Lookup(s, key, key(s[i])) == Some(s[i])
  {
    if UniqueKeys(s, key) {
      forall i | 0 <= i < |s| ensures Lookup(s, key, key(s[i])) == Some(s[i]) {
        LookupOwnKey(s, key, i);
      }
    }
  }

  /** A `$match` keeps the collection invariant: what it keeps still has unique, non-nil ids. */
  lemma {:induction false} FilterUnique<T>(s: seq<T>, key: T -> ObjectId, p: T -> bool)
    requires UniqueKeys(s, key)
    ensures UniqueKeys(Pipeline.Filter(s, p), key)
  {
    if s != [] {
      var rest := s[1..];
      assert forall i :: 0 <= i < |rest| ==> rest[i] == s[i + 1];
      FilterUnique(rest, key, p);
      var fr := Pipeline.Filter(rest, p);
      forall i | 0 <= i < |fr| ensures key(fr[i]) != key(s[0]) {
        var j :| 0 <= j < |rest| && rest[j] == fr[i];
        assert key(s[0]) != key(s[j + 1]);
      }
    }
  }

  function RemoveAt<T>(s: seq<T>, i: nat): (r: seq<T>)
    requires i < |s|
    ensures |r| == |s| - 1
    ensures forall j :: 0 <= j < i ==> r[j] == s[j]
    ensures forall j :: i <= j < |r| ==> r[j] == s[j + 1]
  {
    s[..i] + s[i + 1..]
  }

  lemma RemoveKeepsUnique<T>(s: seq<T>, key: T -> ObjectId, i: nat)
    requires UniqueKeys(s, key) && i < |s|
    ensures UniqueKeys(RemoveAt(s, i), key)
    ensures forall j :: 0 <= j < |RemoveAt(s, i)| ==> key(RemoveAt(s, i)[j]) != key(s[i])
  {
    var r := RemoveAt(s, i);
    forall a, b | 0 <= a < b < |r| ensures key(r[a]) != key(r[b]) {
      var a', b' := if a < i then a else a + 1, if b < i then b else b + 1;
      assert r[a] == s[a'] && r[b] == s[b'];
    }
    forall j | 0 <= j < |r| ensures key(r[j]) != key(s[i]) {
      if j < i { assert r[j] == s[j]; } else { assert r[j] == s[j + 1]; }
    }
  }

  lemma ReplaceKeepsUnique<T>(s: seq<T>, key: T -> ObjectId, i: nat, d: T)
    requires UniqueKeys(s, key) && i < |s| && key(d) == key(s[i])
    ensures UniqueKeys(s[i := d], key)
  {
    var r := s[i := d];
    forall a, b | 0 <= a < b < |r| ensures key(r[a]) != key(r[b]) {
      assert key(r[a]) == key(s[a]) && key(r[b]) == key(s[b]);
    }
  }

  /** The collection after the document with `_id` equal to `id` is replaced by `d`. */
  function ReplaceKey<T>(s: seq<T>, key: T -> ObjectId, id: ObjectId, d: T): (r: seq<T>)
    ensures |r| == |s|
    ensures match IndexOfKey(s, key, id)
      case None => r == s
      case Some(i) => r[i] == d && forall j :: 0 <= j < |s| && j != i ==> r[j] == s[j]
  {
    match IndexOfKey(s, key, id)
    case None => s
    case Some(i) => s[i := d]
  }

  /**
   * The FindById pattern: an id string that ObjectIDFromHex refuses gives
   * `invalid`; a well-formed id that no document has gives `missing`;
   * otherwise the stored document, exactly as stored.
   */
  function FindByHex<T, E>(s: seq<T>, key: T -> ObjectId, hex: string, invalid: E, missing: E): (r: Result<T, E>)
    ensures FromHex(hex).Err? ==> r == Err(invalid)
    ensures FromHex(hex).Ok? && (forall i :: 0 <= i < |s| ==> key(s[i]) != FromHex(hex).value) ==> r == Err(missing)
    ensures r.Ok? ==> r.value in s && FromHex(hex) == Ok(key(r.value))
    ensures UniqueKeys(s, key) ==> forall i :: 0 <= i < |s| && FromHex(hex) == Ok(key(s[i])) ==> r == Ok(s[i])
  {
    match FromHex(hex)
    case Err(_) => Err(invalid)
    case Ok(id) =>
      LookupOwnKeys(s, key);
      match Lookup(s, key, id)
      case None => Err(missing)
      case Some(d) => Ok(d)
  }

  /** A `$set` field: the update's value when omitempty keeps it, the stored one otherwise. */
  function Keep<T(==)>(update: T, empty: T, stored: T): (r: T)
    ensures update != empty ==> r == update
    ensures update == empty ==> r == stored
  {
    if update != empty then update else stored
  }

  /** The driver's error text when a `$set` would change a document's `_id`. */
  const ImmutableId := "(ImmutableField) Performing an update on the path '_id' would modify the immutable field '_id'"

  /** The server's answer to an insert whose `_id` is already taken (code 11000). */
  const DuplicateKey := "E11000 duplicate key error collection"
  /** mongo.ErrNoDocuments. */
  const NoDocuments := "mongo: no documents in result"

  /** What InsertOne stores: the document, with the generated id when it has none. */
  function Stored<T>(doc: T, generated: ObjectId, key: T -> ObjectId, withKey: (T, ObjectId) -> T): T
  {
    if key(doc) == Nil then withKey(doc, generated) else doc
  }

  class Collection<T(==)> {
    var docs: seq<T>

    constructor ()
      ensures docs == []
    {
      docs := [];
    }

    /**
     * InsertOne: the document is appended with its own `_id`, or with the
     * generated one when omitempty left `_id` out; an id already in the
     * collection is refused and nothing changes. `InsertedID` is the id stored.
     */
    method InsertOne(doc: T, generated: ObjectId, key: T -> ObjectId, withKey: (T, ObjectId) -> T)
      returns (r: Result<ObjectId, string>)
      requires UniqueKeys(docs, key)
      requires generated != Nil && key(withKey(doc, generated)) == generated
      modifies this
      ensures UniqueKeys(docs, key)
      ensures var stored := Stored(doc, generated, key, withKey);
        (r.Ok? <==> Lookup(old(docs), key, key(stored)).None?)
        && (r.Ok? ==> r.value == key(stored) && docs == old(docs) + [stored])
        && (r.Err? ==> r.error == DuplicateKey && docs == old(docs))
    {
      var stored := Stored(doc, generated, key, withKey);
      if Lookup(docs, key, key(stored)).Some? {
        return Err(DuplicateKey);
      }
      docs := docs + [stored];
      r := Ok(key(stored));
    }

    /** DeleteOne({_id: id}): removes the document with that id, if any; DeletedCount is 0 or 1. */
    method DeleteOne(id: ObjectId, key: T -> ObjectId) returns (deleted: nat)
      requires UniqueKeys(docs, key)
      modifies this
      ensures UniqueKeys(docs, key)
      ensures match IndexOfKey(old(docs), key, id)
        case None => deleted == 0 && docs == old(docs)
        case Some(i) => deleted == 1 && docs == RemoveAt(old(docs), i)
      ensures forall j :: 0 <= j < |docs| ==> key(docs[j]) != id
    {
      match IndexOfKey(docs, key, id)
      case None =>
        deleted := 0;
      case Some(i) =>
        RemoveKeepsUnique(docs, key, i);
        docs := RemoveAt(docs, i);
        deleted := 1;
    }

    /**
     * FindOneAndUpdate({_id: id}, {$set: ...}) returning the document after the
     * update. `update` is what the `$set` does to a document, or the server's
     * error for it; it never changes a document's `_id`.
     */
    method FindOneAndUpdate(id: ObjectId, key: T -> ObjectId, update: T -> Result<T, string>)
      returns (r: Result<T, string>)
      requires UniqueKeys(docs, key)
      requires forall i :: 0 <= i < |docs| && update(docs[i]).Ok? ==> key(update(docs[i]).value) == key(docs[i])
      modifies this
      ensures UniqueKeys(docs, key)
      ensures match IndexOfKey(old(docs), key, id)
        case None => r == Err(NoDocuments) && docs == old(docs)
        case Some(i) =>
          r == update(old(docs)[i])
          && docs == (if r.Ok? then old(docs)[i := r.value] else old(docs))
    {
      match IndexOfKey(docs, key, id)
      case None =>
        r := Err(NoDocuments);
      case Some(i) =>
        r := update(docs[i]);
        if r.Ok? {
          ReplaceKeepsUnique(docs, key, i, r.value);
          docs := docs[i := r.value];
        }
    }

    /**
     * UpdateOne({_id: id}, {$set: ...}): MatchedCount says whether the document
     * exists, ModifiedCount whether the update changed it.
     */
    method UpdateOne(id: ObjectId, key: T -> ObjectId, update: T -> T) returns (matched: nat, modified: nat)
      requires UniqueKeys(docs, key)
      requires forall i :: 0 <= i < |docs| ==> key(update(docs[i])) == key(docs[i])
      modifies this
      ensures UniqueKeys(docs, key)
      ensures match IndexOfKey(old(docs), key, id)
        case None => matched == 0 && modified == 0 && docs == old(docs)
        case Some(i) =>
          matched == 1
          && modified == (if update(old(docs)[i]) == old(docs)[i] then 0 else 1)
          && docs == old(docs)[i := update(old(docs)[i])]
    {
      match IndexOfKey(docs, key, id)
      case None =>
        matched, modified := 0, 0;
      case Some(i) =>
        var d := update(docs[i]);
        matched := 1;
        modified := if d == docs[i] then 0 else 1;
        ReplaceKeepsUnique(docs, key, i, d);
        docs := docs[i := d];
    }
  }
}

/** The users collection and the partial-update merge of `createOrUpdateProfile`. */
module Profiles {
  import opened Data
  import opened Strings

  /** The users collection: profile documents keyed by document id (the uid). */
  type Users = map<string, UserData>

  /** `document(uid).get().toObject<UserData>()`: null when there is no document. */
  function FindUser(users: Users, uid: string): (r: Option<UserData>)
    ensures r.Some? <==> uid in users
    ensures r.Some? ==> r.value == users[uid]
  {
    if uid in users then Some(users[uid]) else None
  }

  /** The ids of the documents that `whereEqualTo("number", number)` returns. */
  function WithNumber(users: Users, number: string): (ids: set<string>)
    ensures forall k :: k in ids <==> k in users && users[k].number == Some(number)
  {
    set k | k in users && users[k].number == Some(number)
  }

  /** `k` is the first document of that query: the backend returns query results
      in document-id order, so it is the least matching id. */
  predicate IsFirstWithNumber(users: Users, number: string, k: string) {
    IsLeast(k, WithNumber(users, number))
  }

  /** A non-empty query result has exactly one first document. */
  lemma FirstWithNumberExists(users: Users, number: string)
    requires WithNumber(users, number) != {}
    ensures exists k :: IsFirstWithNumber(users, number, k)
  {
    HasLeast(WithNumber(users, number));
    var m :| IsLeast(m, WithNumber(users, number));
    assert IsFirstWithNumber(users, number, m);
  }

  lemma FirstWithNumberUnique(users: Users, number: string, k1: string, k2: string)
    requires IsFirstWithNumber(users, number, k1) && IsFirstWithNumber(users, number, k2)
    ensures k1 == k2
  {
    StrLeAntisym(k1, k2);
  }

  /** The record `createOrUpdateProfile` writes: the signed-in uid, and each of
      name, number and image URL taken from the argument when it is non-null,
      else from the stored record (Kotlin's `arg ?: existing?.field`). */
  function Merge(uid: string, existing: Option<UserData>,
                 name: Option<string>, number: Option<string>, imageUrl: Option<string>): (r: UserData)
    ensures r.userId == Some(uid)
    ensures name.Some? ==> r.name == name
    ensures number.Some? ==> r.number == number
    ensures imageUrl.Some? ==> r.imageUrl == imageUrl
    ensures name.None? ==> r.name == (if existing.Some? then existing.value.name else None)
    ensures number.None? ==> r.number == (if existing.Some? then existing.value.number else None)
    ensures imageUrl.None? ==> r.imageUrl == (if existing.Some? then existing.value.imageUrl else None)
  {
    var e := if existing.Some? then existing.value else UserData(None, None, None, None);
    UserData(
      Some(uid),
      if name.Some? then name else e.name,
      if number.Some? then number else e.number,
      if imageUrl.Some? then imageUrl else e.imageUrl)
  }

  /** The users collection after `createOrUpdateProfile` writes uid's record. */
  function UpdateProfile(users: Users, uid: string,
                         name: Option<string>, number: Option<string>, imageUrl: Option<string>): (r: Users)
    ensures r.Keys == users.Keys + {uid}
    ensures forall k :: k in users && k != uid ==> r[k] == users[k]
    ensures r[uid] == Merge(uid, FindUser(users, uid), name, number, imageUrl)
  {
    users[uid := Merge(uid, FindUser(users, uid), name, number, imageUrl)]
  }

  /** An update that supplies only the number keeps the stored name and image URL. */
  lemma NumberOnlyKeepsNameAndImage(users: Users, uid: string, number: string)
    requires uid in users
    ensures UpdateProfile(users, uid, None, Some(number), None)[uid].name == users[uid].name
    ensures UpdateProfile(users, uid, None, Some(number), None)[uid].imageUrl == users[uid].imageUrl
    ensures UpdateProfile(users, uid, None, Some(number), None)[uid].number == Some(number)
  {
  }

  /** Applying the same partial update twice gives the same collection as once. */
  lemma UpdateProfileIdempotent(users: Users, uid: string,
                                name: Option<string>, number: Option<string>, imageUrl: Option<string>)
    ensures var once := UpdateProfile(users, uid, name, number, imageUrl);
            UpdateProfile(once, uid, name, number, imageUrl) == once
  {
    var once := UpdateProfile(users, uid, name, number, imageUrl);
    var m := Merge(uid, FindUser(users, uid), name, number, imageUrl);
    assert Merge(uid, FindUser(once, uid), name, number, imageUrl) == m;
  }
}

/** The user documents the routes read and write, and the lookups the
    routes make on the users collection. The collection is a sequence in
    the database's natural order, so "the first match" of `findOne` is
    well defined. */
module Accounts {
  import opened Base

  /** One row of a ranking table (`defaultRankings`, `customRankings` or the
      hardcoded table). Deposits are whole numbers here. */
  datatype Ranking = Ranking(level: int, name: string, minimumDeposit: int)

  /** A user document. `password` is the bcrypt hash, absent for accounts
      created through Google sign-in; `other` holds the fields this model
      does not interpret. */
  datatype User = User(
    id: string,
    email: string,
    username: string,
    password: Option<string>,
    isAdmin: bool,
    mfa: bool,
    rank: string,
    manualRank: bool,
    deposit: int,
    interest: int,
    profileImage: Option<string>,
    referredBy: Option<string>,
    customRankings: seq<Ranking>,
    other: map<string, string>)

  /** `_id` is unique in the collection. */
  predicate IdsUnique(users: seq<User>) {
    forall i, j :: 0 <= i < j < |users| ==> users[i].id != users[j].id
  }

  predicate HasId(users: seq<User>, id: string) {
    exists i :: 0 <= i < |users| && users[i].id == id
  }

  /** The filters the routes hand to `findOne` and `findById`. A field the
      request leaves out is `undefined`, and Mongoose drops `undefined` keys
      from a filter before it reaches the database: `{ email: undefined }`
      becomes `{}`, which every document matches. In
      `{ $or: [{ email }, { username }] }` a branch left empty this way is
      removed; when both are, the `$or` itself is removed and the filter
      again matches every document. */
  datatype Query =
    | ById(id: string)
    | ByEmail(email: Option<string>)
    | ByEmailOrUsername(email: Option<string>, username: Option<string>)

  predicate Matches(q: Query, u: User) {
    match q
    case ById(id) => u.id == id
    case ByEmail(email) => email.None? || email == Some(u.email)
    case ByEmailOrUsername(email, username) =>
      (email.None? && username.None?)
      || (email.Some? && u.email == email.value)
      || (username.Some? && u.username == username.value)
  }

  /** The position of the first document, in natural order, that matches
      `q`; `|users|` when none does. */
  function FirstMatch(users: seq<User>, q: Query): (i: nat)
    ensures i <= |users|
    ensures forall k :: 0 <= k < i ==> !Matches(q, users[k])
    ensures i < |users| ==> Matches(q, users[i])
  {
    if |users| == 0 then 0
    else if Matches(q, users[0]) then 0
    else
      var i := FirstMatch(users[1..], q);
      assert forall k :: 1 <= k < 1 + i ==> users[k] == users[1..][k - 1];
      1 + i
  }

  /** `findOne(q)`: the first matching document. */
  function FindFirst(users: seq<User>, q: Query): (r: Option<User>)
    ensures r.Some? <==> exists i :: 0 <= i < |users| && Matches(q, users[i])
    ensures r.Some? ==> r.value in users && Matches(q, r.value)
  {
    var i := FirstMatch(users, q);
    if i < |users| then Some(users[i]) else None
  }

  function FindById(users: seq<User>, id: string): (r: Option<User>)
    ensures r.Some? <==> HasId(users, id)
    ensures r.Some? ==> r.value in users && r.value.id == id
  {
    FindFirst(users, ById(id))
  }

  /** `findOne({ email })`. Without an e-mail the filter is empty and the
      first document of the collection comes back. */
  function FindByEmail(users: seq<User>, email: Option<string>): (r: Option<User>)
    ensures email.Some? ==> (r.Some? <==> exists i :: 0 <= i < |users| && users[i].email == email.value)
    ensures email.Some? && r.Some? ==> r.value in users && r.value.email == email.value
    ensures email.None? ==> r == (if |users| == 0 then None else Some(users[0]))
  {
    FindFirst(users, ByEmail(email))
  }

  /** The user's e-mail or username is one of those given. */
  predicate OneOf(u: User, email: Option<string>, username: Option<string>) {
    Some(u.email) == email || Some(u.username) == username
  }

  /** `findOne({ $or: [{ email }, { username }] })`: the first document
      whose e-mail or username is one the request gives; the first document
      of all when the request gives neither. */
  function FindByEmailOrUsername(users: seq<User>, email: Option<string>, username: Option<string>): (r: Option<User>)
    ensures email.Some? || username.Some? ==>
              (r.Some? <==> exists i :: 0 <= i < |users| && OneOf(users[i], email, username))
    ensures r.Some? && (email.Some? || username.Some?) ==> r.value in users && OneOf(r.value, email, username)
    ensures email.None? && username.None? ==> r == (if |users| == 0 then None else Some(users[0]))
  {
    FindFirst(users, ByEmailOrUsername(email, username))
  }

  /** `user.save()` for a document already in the collection: the document
      with the same `_id` is replaced, every other one is kept. */
  function Saved(users: seq<User>, u: User): (r: seq<User>)
    ensures |r| == |users|
    ensures forall i :: 0 <= i < |users| ==> r[i] == (if users[i].id == u.id then u else users[i])
  {
    seq(|users|, i requires 0 <= i < |users| => if users[i].id == u.id then u else users[i])
  }

  lemma SavedKeepsIds(users: seq<User>, u: User)
    requires IdsUnique(users)
    ensures IdsUnique(Saved(users, u))
    ensures forall id :: HasId(Saved(users, u), id) <==> HasId(users, id)
  {
    var r := Saved(users, u);
    forall id | HasId(users, id) ensures HasId(r, id) {
      var i :| 0 <= i < |users| && users[i].id == id;
      assert r[i].id == id;
    }
  }

  /** Saving the document a lookup returned, changed in no field the query
      looks at, leaves the same lookup finding the saved version. */
  lemma SavedKeepsFirst(users: seq<User>, q: Query, v: User)
    requires IdsUnique(users)
    requires FindFirst(users, q).Some? && FindFirst(users, q).value.id == v.id && Matches(q, v)
    ensures FindFirst(Saved(users, v), q) == Some(v)
  {
    var r := Saved(users, v);
    var i := FirstMatch(users, q);
    assert r[i] == v;
    forall k | 0 <= k < i ensures !Matches(q, r[k]) {
      assert users[k].id != users[i].id;
    }
    var j := FirstMatch(r, q);
    assert j == i;
  }

  /** The e-mail lookup after a save that keeps the e-mail. */
  lemma SavedKeepsFirstByEmail(users: seq<User>, email: Option<string>, v: User)
    requires IdsUnique(users)
    requires FindByEmail(users, email).Some?
    requires var u := FindByEmail(users, email).value; v.id == u.id && v.email == u.email
    ensures FindByEmail(Saved(users, v), email) == Some(v)
  {
    SavedKeepsFirst(users, ByEmail(email), v);
  }

  /** The e-mail-or-username lookup after a save that keeps both. */
  lemma SavedKeepsFirstByEmailOrUsername(users: seq<User>, email: Option<string>,
                                         username: Option<string>, v: User)
    requires IdsUnique(users)
    requires FindByEmailOrUsername(users, email, username).Some?
    requires var u := FindByEmailOrUsername(users, email, username).value;
             v.id == u.id && v.email == u.email && v.username == u.username
    ensures FindByEmailOrUsername(Saved(users, v), email, username) == Some(v)
  {
    SavedKeepsFirst(users, ByEmailOrUsername(email, username), v);
  }
}

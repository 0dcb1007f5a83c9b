/**
 * The signed-in user's own records, php-api/controllers/user.php:
 * `updateProfile` changes the caller's name and phone and nothing else, and
 * `addresses` lists the caller's saved addresses, default ones first.
 */
module User {
  import opened Common
  import opened Text
  import opened Tables
  import opened Sql
  import Jwt
  import Auth

  // ---------------------------------------------------------------------------
  // updateProfile

  /** The SET assignments of `updateProfile`: `name` and `phone`, each when the body holds it. */
  function ProfileSets(data: Auth.Body): (sets: seq<Assignment>)
    ensures PlainColumns(sets)
  {
    (if "name" in data then [("name", data["name"])] else [])
      + (if "phone" in data then [("phone", data["phone"])] else [])
  }

  /** The UPDATE `updateProfile` runs for the caller `userId`, if any. */
  function ProfileStatement(userId: int, data: Auth.Body): Option<Update>
  {
    Statement("users", Clauses(ProfileSets(data)), Values(ProfileSets(data)), IntToString(userId))
  }

  /**
   * No statement when the body has neither `name` nor `phone`; otherwise one
   * placeholder per bound value, the caller's id bound last.
   */
  lemma ProfileStatementShape(userId: int, data: Auth.Body)
    ensures ProfileStatement(userId, data).None? <==> "name" !in data && "phone" !in data
    ensures ProfileStatement(userId, data).Some? ==>
      && Placeholders(ProfileStatement(userId, data).value.sql) == |ProfileStatement(userId, data).value.values|
      && Last(ProfileStatement(userId, data).value.values) == IntToString(userId)
  {
    if ProfileSets(data) != [] {
      StatementShape("users", ProfileSets(data), IntToString(userId));
    }
  }

  /**
   * Keys other than `name` and `phone` never reach the statement: a caller
   * cannot change their email, password or role through their profile.
   */
  lemma ProfileOtherKeysIgnored(userId: int, data: Auth.Body, other: Auth.Body)
    requires forall k :: k in {"name", "phone"} ==> (k in data <==> k in other)
    requires forall k :: k in {"name", "phone"} && k in data ==> data[k] == other[k]
    ensures ProfileStatement(userId, data) == ProfileStatement(userId, other)
  {
    assert "name" in {"name", "phone"} && "phone" in {"name", "phone"};
    assert ProfileSets(data) == ProfileSets(other);
  }

  /** The effect of the UPDATE on `users`: the caller's row gets the new name and phone and `updated_at = now`. */
  function ApplyProfile(users: seq<UserRow>, userId: int, data: Auth.Body, now: string): (r: seq<UserRow>)
    ensures |r| == |users|
  {
    seq(|users|, i requires 0 <= i < |users| =>
      var u := users[i];
      if u.id != userId then u
      else u.(name := if "name" in data then Some(data["name"]) else u.name,
              phone := if "phone" in data then Some(data["phone"]) else u.phone,
              updatedAt := Some(now)))
  }

  /**
   * The UPDATE touches only the caller's row, and only its name, phone and
   * `updated_at`: id, email, password hash, role, avatar and creation time stay.
   */
  lemma ApplyProfileScope(users: seq<UserRow>, userId: int, data: Auth.Body, now: string, i: int)
    requires 0 <= i < |users|
    ensures var after := ApplyProfile(users, userId, data, now)[i];
      && (users[i].id != userId ==> after == users[i])
      && after.id == users[i].id && after.email == users[i].email && after.password == users[i].password
      && after.role == users[i].role && after.avatar == users[i].avatar && after.createdAt == users[i].createdAt
      && (users[i].id == userId && "name" in data ==> after.name == Some(data["name"]))
      && (users[i].id == userId && "phone" in data ==> after.phone == Some(data["phone"]))
      && (users[i].id == userId ==> after.updatedAt == Some(now))
  {
  }

  /** The caller's row read back after the UPDATE carries the name and phone sent. */
  lemma {:induction false} ProfileReadback(users: seq<UserRow>, userId: int, data: Auth.Body, now: string)
    requires UserById(users, userId).Some?
    ensures var u := UserById(ApplyProfile(users, userId, data, now), userId);
      && u.Some?
      && u.value == UserById(users, userId).value.(
           name := if "name" in data then Some(data["name"]) else UserById(users, userId).value.name,
           phone := if "phone" in data then Some(data["phone"]) else UserById(users, userId).value.phone,
           updatedAt := Some(now))
  {
    var after := ApplyProfile(users, userId, data, now);
    if users[0].id != userId {
      ProfileReadback(users[1..], userId, data, now);
      assert after[1..] == ApplyProfile(users[1..], userId, data, now);
    }
  }

  /** The response of `updateProfile`: the statement run (none when nothing was sent) and the caller as read back. */
  datatype ProfileUpdate = ProfileUpdate(statement: Option<Update>, user: Option<Auth.FormattedUser>)

  /** The UPDATE keeps every row's id. */
  lemma ApplyProfileKeepsIds(users: seq<UserRow>, userId: int, data: Auth.Body, now: string)
    ensures var after := ApplyProfile(users, userId, data, now);
      |after| == |users| && forall i :: 0 <= i < |after| ==> after[i].id == users[i].id
  {
    forall i | 0 <= i < |users|
      ensures ApplyProfile(users, userId, data, now)[i].id == users[i].id
    {
      ApplyProfileScope(users, userId, data, now, i);
    }
  }

  /** `SELECT * FROM users WHERE id = ?` followed by `formatUser`. */
  function Readback(users: seq<UserRow>, userId: int, now: string): Option<Auth.FormattedUser>
  {
    match UserById(users, userId)
    case None => None
    case Some(u) => Some(Auth.FormatUser(u, now))
  }

  /** `updateProfile` (user.php:6-30). `now` stands for `NOW()`. */
  method UpdateProfile(db: Database, auth: Option<Jwt.Claims>, data: Auth.Body, now: string)
    returns (r: Result<ProfileUpdate, HttpError>)
    modifies db`users
    requires db.Valid()
    ensures db.Valid()
    ensures auth.None? ==> r == Err(HttpError(401, "Unauthorized")) && db.users == old(db.users)
    ensures auth.Some? ==>
      && db.users == (if ProfileSets(data) == [] then old(db.users)
                      else ApplyProfile(old(db.users), auth.value.userId, data, now))
      && r == Ok(ProfileUpdate(ProfileStatement(auth.value.userId, data), Readback(db.users, auth.value.userId, now)))
  {
    var checked := Jwt.RequireAuth(auth);
    if checked.Err? {
      return Err(checked.error);
    }
    var userId := checked.value.userId;
    var sets: seq<Assignment> := [];
    if "name" in data {
      sets := sets + [("name", data["name"])];
    }
    if "phone" in data {
      sets := sets + [("phone", data["phone"])];
    }
    assert sets == ProfileSets(data);
    var statement := Statement("users", Clauses(sets), Values(sets), IntToString(userId));
    if statement.Some? {
      db.users := ApplyProfile(db.users, userId, data, now);
      ApplyProfileKeepsIds(old(db.users), userId, data, now);
      UserIdsKept(old(db.users), db.users, db.nextUserId);
    }
    r := Ok(ProfileUpdate(statement, Readback(db.users, userId, now)));
  }

  // ---------------------------------------------------------------------------
  // addresses

  /** An address as `addresses` returns it (user.php:41-52). */
  datatype FormattedAddress = FormattedAddress(
    id: int, name: string, phone: string, line1: string, line2: Option<string>,
    city: string, state: string, postalCode: string, country: string, isDefault: bool)

  const DefaultCountry: string := "South Africa"

  /** A missing country is South Africa; `is_default` becomes a boolean, true for any non-zero value. */
  function FormatAddress(a: AddressRow): (r: FormattedAddress)
    ensures r.id == a.id && r.name == a.name && r.phone == a.phone
    ensures r.line1 == a.line1 && r.line2 == a.line2
    ensures r.city == a.city && r.state == a.state && r.postalCode == a.postalCode
    ensures a.country.None? ==> r.country == DefaultCountry
    ensures a.country.Some? ==> r.country == a.country.value
    ensures r.isDefault <==> a.isDefault != 0
  {
    FormattedAddress(a.id, a.name, a.phone, a.line1, a.line2, a.city, a.state, a.postalCode,
                     a.country.GetOr(DefaultCountry), a.isDefault != 0)
  }

  /** `WHERE user_id = ?`, in table order: each of the user's rows as often as the table holds it, and no other row. */
  function OfUser(rows: seq<AddressRow>, userId: int): (r: seq<AddressRow>)
    ensures forall a :: a in r ==> a in rows && a.userId == userId
    ensures forall a :: multiset(r)[a] == if a.userId == userId then multiset(rows)[a] else 0
  {
    if |rows| == 0 then []
    else
      assert rows == [rows[0]] + rows[1..];
      (if rows[0].userId == userId then [rows[0]] else []) + OfUser(rows[1..], userId)
  }

  /** The rows whose `is_default` is set (`wanted`) or clear (`!wanted`), in table order. */
  function WithDefault(rows: seq<AddressRow>, wanted: bool): (r: seq<AddressRow>)
    ensures forall a :: a in r ==> a in rows && (a.isDefault != 0) == wanted
  {
    if |rows| == 0 then []
    else (if (rows[0].isDefault != 0) == wanted then [rows[0]] else []) + WithDefault(rows[1..], wanted)
  }

  /** `ORDER BY is_default DESC`: default addresses before the others. */
  function DefaultsFirst(rows: seq<AddressRow>): seq<AddressRow>
  {
    WithDefault(rows, true) + WithDefault(rows, false)
  }

  /** Putting the defaults first neither drops nor duplicates a row. */
  lemma {:induction false} DefaultsFirstPermutes(rows: seq<AddressRow>)
    ensures multiset(DefaultsFirst(rows)) == multiset(rows)
  {
    if |rows| > 0 {
      var first := rows[0];
      var rest := rows[1..];
      DefaultsFirstPermutes(rest);
      assert rows == [first] + rest;
      assert multiset(rows) == multiset{first} + multiset(rest);
      if first.isDefault != 0 {
        assert WithDefault(rows, true) == [first] + WithDefault(rest, true);
        assert WithDefault(rows, false) == WithDefault(rest, false);
      } else {
        assert WithDefault(rows, true) == WithDefault(rest, true);
        assert WithDefault(rows, false) == [first] + WithDefault(rest, false);
      }
    }
  }

  /**
   * `addresses` (user.php:32-56): 401 without a verified token, else every
   * address row of the caller, formatted, and nothing else.
   */
  function Addresses(rows: seq<AddressRow>, auth: Option<Jwt.Claims>): (r: Result<seq<FormattedAddress>, HttpError>)
    ensures auth.None? <==> r.Err?
    ensures r.Err? ==> r.error == HttpError(401, "Unauthorized")
    ensures r.Ok? ==> |r.value| == |OfUser(rows, auth.value.userId)|
    ensures r.Ok? ==> forall a :: a in rows && a.userId == auth.value.userId ==> FormatAddress(a) in r.value
    ensures r.Ok? ==> forall j :: 0 <= j < |r.value| ==>
      exists a :: a in rows && a.userId == auth.value.userId && r.value[j] == FormatAddress(a)
  {
    match Jwt.RequireAuth(auth)
    case Err(e) => Err(e)
    case Ok(claims) =>
      OwnFormatted(rows, claims.userId);
      Ok(FormatAll(DefaultsFirst(OfUser(rows, claims.userId))))
  }

  /** `array_map` of `FormatAddress`. */
  function FormatAll(rows: seq<AddressRow>): (r: seq<FormattedAddress>)
    ensures |r| == |rows| && forall i :: 0 <= i < |rows| ==> r[i] == FormatAddress(rows[i])
  {
    seq(|rows|, i requires 0 <= i < |rows| => FormatAddress(rows[i]))
  }

  /** The user's rows, reordered and formatted: each of them is listed, and only they are. */
  lemma OwnFormatted(rows: seq<AddressRow>, userId: int)
    ensures var r := FormatAll(DefaultsFirst(OfUser(rows, userId)));
      && |r| == |OfUser(rows, userId)|
      && (forall a :: a in rows && a.userId == userId ==> FormatAddress(a) in r)
      && (forall j :: 0 <= j < |r| ==> exists a :: a in rows && a.userId == userId && r[j] == FormatAddress(a))
  {
    var own := OfUser(rows, userId);
    DefaultsFirstPermutes(own);
    OwnListed(rows, userId);
    OwnOnly(rows, userId);
  }

  lemma OwnListed(rows: seq<AddressRow>, userId: int)
    requires multiset(DefaultsFirst(OfUser(rows, userId))) == multiset(OfUser(rows, userId))
    ensures forall a :: a in rows && a.userId == userId ==> FormatAddress(a) in FormatAll(DefaultsFirst(OfUser(rows, userId)))
  {
    var own := OfUser(rows, userId);
    var arranged := DefaultsFirst(own);
    var r := FormatAll(arranged);
    forall a | a in rows && a.userId == userId
      ensures FormatAddress(a) in r
    {
      assert multiset(own)[a] > 0;
      assert a in multiset(arranged);
      var j :| 0 <= j < |arranged| && arranged[j] == a;
      assert r[j] == FormatAddress(a);
    }
  }

  lemma OwnOnly(rows: seq<AddressRow>, userId: int)
    requires multiset(DefaultsFirst(OfUser(rows, userId))) == multiset(OfUser(rows, userId))
    ensures var r := FormatAll(DefaultsFirst(OfUser(rows, userId)));
      && |r| == |OfUser(rows, userId)|
      && forall j :: 0 <= j < |r| ==> exists a :: a in rows && a.userId == userId && r[j] == FormatAddress(a)
  {
    var own := OfUser(rows, userId);
    var arranged := DefaultsFirst(own);
    assert |multiset(arranged)| == |multiset(own)|;
    var r := FormatAll(arranged);
    forall j | 0 <= j < |r|
      ensures exists a :: a in rows && a.userId == userId && r[j] == FormatAddress(a)
    {
      assert arranged[j] in multiset(own);
      assert arranged[j] in own;
    }
  }

  /** Every default address of the caller comes before every other one. */
  lemma AddressesOwnDefaultsFirst(rows: seq<AddressRow>, auth: Option<Jwt.Claims>)
    requires auth.Some?
    ensures var r := Addresses(rows, auth);
      && r.Ok?
      && (forall j, l :: 0 <= j < l < |r.value| && r.value[l].isDefault ==> r.value[j].isDefault)
  {
    var own := OfUser(rows, auth.value.userId);
    var arranged := DefaultsFirst(own);
    var r := Addresses(rows, auth).value;
    forall j, l | 0 <= j < l < |r| && r[l].isDefault
      ensures r[j].isDefault
    {
      var d := WithDefault(own, true);
      if j < |d| {
        assert arranged[j] in d;
      }
    }
  }
}

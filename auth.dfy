/**
 * The authentication routes over the in-memory user table: register,
 * login, reading and updating the current user's profile, and changing the
 * password. The table is an insertion-ordered dict from a storage key to a
 * user record; every lookup is a linear scan for the first record with the
 * given username. Token generation is left out; the decoded token claims
 * are a parameter.
 */
module Auth {
  import opened Wrappers
  import opened Dicts

  datatype User = User(
    userId: string,
    username: string,
    password: string,
    createdAt: string,
    phone: Option<string>,
    gender: Option<string>,
    birthday: Option<string>,
    bio: Option<string>,
    travelPreferences: seq<string>,
    avatarUrl: Option<string>)

  type Table = Dict<string, User>

  /** An HTTP error raised by a route, or its result. */
  datatype HttpResult<T> = Ok(value: T) | Fail(status: int, detail: string)

  const UserNotFound: string := "用户不存在"

  /** The body of a user response. */
  datatype UserResponse = UserResponse(
    userId: string,
    username: string,
    userType: string,
    phone: Option<string>,
    gender: Option<string>,
    birthday: Option<string>,
    bio: Option<string>,
    travelPreferences: Option<seq<string>>,
    avatarUrl: Option<string>)

  /** A response with only the identity fields set. */
  function BasicInfo(userId: string, username: string): UserResponse {
    UserResponse(userId, username, "registered", None, None, None, None, None, None)
  }

  /** A response that carries the stored profile fields. */
  function Profile(userId: string, username: string, userType: string, u: User): UserResponse {
    UserResponse(userId, username, userType, u.phone, u.gender, u.birthday, u.bio, Some(u.travelPreferences), u.avatarUrl)
  }

  /** The claims of the caller's token. */
  datatype Claims = Claims(userId: string, username: Option<string>, userType: Option<string>)

  /** The key of the first record, in table order, with the given username. */
  function FirstWith(keys: seq<string>, m: map<string, User>, name: string): (r: Option<string>)
    requires forall k :: k in keys ==> k in m
    ensures r.Some? ==> r.value in keys && m[r.value].username == name
    ensures r.Some? ==> forall i :: 0 <= i < |keys| && keys[i] != r.value && m[keys[i]].username == name ==>
      exists j :: 0 <= j < i && keys[j] == r.value
    ensures r.None? <==> forall k :: k in keys ==> m[k].username != name
  {
    if keys == [] then None
    else if m[keys[0]].username == name then Some(keys[0])
    else FirstWith(keys[1..], m, name)
  }

  function Lookup(db: Table, name: string): (r: Option<string>)
    requires db.Valid()
    ensures r.Some? ==> r.value in db.m && db.m[r.value].username == name
    ensures r.None? <==> forall k :: k in db.m ==> db.m[k].username != name
  {
    FirstWith(db.keys, db.m, name)
  }

  /** No two records share a username. */
  ghost predicate UniqueUsernames(db: Table) {
    forall a, b :: a in db.m && b in db.m && a != b ==> db.m[a].username != db.m[b].username
  }

  /** Only `None`, "male", "female" and "other" pass the profile validator. */
  predicate ValidGender(g: Option<string>) {
    g.None? || g.value in {"male", "female", "other"}
  }

  /** The record `register` stores. */
  function NewUser(userId: string, username: string, password: string): User {
    User(userId, username, password, "2024-01-01T00:00:00", None, Some("other"), None, None, [], None)
  }

  /** `register`: 409 if the username is taken, else one record under "email_" + id. */
  function Register(db: Table, username: string, password: string, userId: string): (r: HttpResult<Table>)
    requires db.Valid()
  {
    if Lookup(db, username).Some? then Fail(409, "该账号已被注册")
    else Ok(db.Put("email_" + userId, NewUser(userId, username, password)))
  }

  /** `login`: the first record with that username must hold that password; both failures look alike. */
  function Login(db: Table, username: string, password: string): (r: HttpResult<UserResponse>)
    requires db.Valid()
  {
    match Lookup(db, username)
    case None => Fail(401, "账号或密码错误")
    case Some(k) =>
      if db.m[k].password != password then Fail(401, "账号或密码错误")
      else Ok(Profile(db.m[k].userId, db.m[k].username, "registered", db.m[k]))
  }

  /** The fields of a profile update; `None` is unset or null alike. */
  datatype UserUpdate = UserUpdate(
    username: Option<string>,
    phone: Option<string>,
    gender: Option<string>,
    birthday: Option<string>,
    bio: Option<string>,
    travelPreferences: Option<seq<string>>,
    avatarUrl: Option<string>)

  /** Write the fields that are set and non-null; keep the rest. */
  function Apply(u: User, up: UserUpdate): (r: User)
    ensures r.userId == u.userId && r.password == u.password && r.createdAt == u.createdAt
    ensures up.username.None? ==> r.username == u.username
    ensures up.username.Some? ==> r.username == up.username.value
    ensures up.gender.None? ==> r.gender == u.gender
    ensures up.gender.Some? ==> r.gender == up.gender
    ensures up == UserUpdate(None, None, None, None, None, None, None) ==> r == u
  {
    u.(
      username := up.username.GetOr(u.username),
      phone := if up.phone.Some? then up.phone else u.phone,
      gender := if up.gender.Some? then up.gender else u.gender,
      birthday := if up.birthday.Some? then up.birthday else u.birthday,
      bio := if up.bio.Some? then up.bio else u.bio,
      travelPreferences := up.travelPreferences.GetOr(u.travelPreferences),
      avatarUrl := if up.avatarUrl.Some? then up.avatarUrl else u.avatarUrl)
  }

  function Name(c: Claims): string {
    c.username.GetOr("")
  }

  /** `update_user_profile`: 404 without a record for the caller's username. */
  function UpdateProfile(db: Table, c: Claims, up: UserUpdate): (r: HttpResult<(Table, UserResponse)>)
    requires db.Valid()
  {
    match Lookup(db, Name(c))
    case None => Fail(404, UserNotFound)
    case Some(k) =>
      var u := Apply(db.m[k], up);
      Ok((db.Put(k, u), Profile(u.userId, u.username, "registered", u)))
  }

  /** `change_password`: 404 without a record, 401 on a wrong old password. */
  function ChangePassword(db: Table, c: Claims, oldPassword: string, newPassword: string): (r: HttpResult<Table>)
    requires db.Valid()
  {
    match Lookup(db, Name(c))
    case None => Fail(404, UserNotFound)
    case Some(k) =>
      if db.m[k].password != oldPassword then Fail(401, "原密码错误")
      else Ok(db.Put(k, db.m[k].(password := newPassword)))
  }

  /** GET /me: basic info from the token alone when no record has the caller's username. */
  function CurrentUserInfo(db: Table, c: Claims): (r: UserResponse)
    requires db.Valid()
    ensures r.userId == c.userId && r.username == Name(c)
    ensures Lookup(db, Name(c)).None? ==> r == BasicInfo(c.userId, Name(c))
    ensures Lookup(db, Name(c)).Some? ==>
      r == Profile(c.userId, Name(c), c.userType.GetOr("registered"), db.m[Lookup(db, Name(c)).value])
  {
    match Lookup(db, Name(c))
    case None => BasicInfo(c.userId, Name(c))
    case Some(k) => Profile(c.userId, Name(c), c.userType.GetOr("registered"), db.m[k])
  }

  /** A refused registration leaves the table as it was; a taken name is always refused. */
  lemma RegisterConflict(db: Table, username: string, password: string, userId: string)
    requires db.Valid()
    ensures Register(db, username, password, userId).Fail? <==> exists k :: k in db.m && db.m[k].username == username
    ensures Register(db, username, password, userId).Fail? ==>
      Register(db, username, password, userId) == Fail(409, "该账号已被注册")
  {
  }

  /** A successful registration adds exactly the new record under "email_" + id and keeps the others. */
  lemma RegisterAdds(db: Table, username: string, password: string, userId: string)
    requires db.Valid() && Register(db, username, password, userId).Ok?
    ensures var t := Register(db, username, password, userId).value;
      && t.Valid()
      && t.m == db.m["email_" + userId := NewUser(userId, username, password)]
      && t.m["email_" + userId].gender == Some("other") && t.m["email_" + userId].travelPreferences == []
  {
    PutValid(db, "email_" + userId, NewUser(userId, username, password));
  }

  /** Registration keeps usernames unique. */
  lemma RegisterKeepsUnique(db: Table, username: string, password: string, userId: string)
    requires db.Valid() && UniqueUsernames(db)
    requires Register(db, username, password, userId).Ok?
    ensures UniqueUsernames(Register(db, username, password, userId).value)
  {
  }

  /** Once registered, the same username and password log in, as the new user. */
  lemma {:induction false} RegisterThenLogin(db: Table, username: string, password: string, userId: string)
    requires db.Valid() && Register(db, username, password, userId).Ok?
    ensures var t := Register(db, username, password, userId).value;
      t.Valid() && Login(t, username, password) ==
        Ok(Profile(userId, username, "registered", NewUser(userId, username, password)))
  {
    var key := "email_" + userId;
    var t := Register(db, username, password, userId).value;
    PutValid(db, key, NewUser(userId, username, password));
    var k := Lookup(t, username);
    assert t.m[key].username == username;
    assert k.Some?;
    assert k.value == key;
  }

  /** Login succeeds exactly when the first record with the username holds the password. */
  lemma LoginIff(db: Table, username: string, password: string)
    requires db.Valid()
    ensures Login(db, username, password).Ok? <==>
      Lookup(db, username).Some? && db.m[Lookup(db, username).value].password == password
    ensures Login(db, username, password).Fail? ==> Login(db, username, password) == Fail(401, "账号或密码错误")
  {
  }

  /** After a password change the new password logs in and a different old one no longer does. */
  lemma ChangeThenLogin(db: Table, c: Claims, oldPassword: string, newPassword: string)
    requires db.Valid() && ChangePassword(db, c, oldPassword, newPassword).Ok?
    ensures var t := ChangePassword(db, c, oldPassword, newPassword).value;
      && t.Valid()
      && Login(t, Name(c), newPassword).Ok?
      && (oldPassword != newPassword ==> Login(t, Name(c), oldPassword).Fail?)
  {
    var k := Lookup(db, Name(c)).value;
    var t := ChangePassword(db, c, oldPassword, newPassword).value;
    PasswordChanged(db, c, oldPassword, newPassword);
    LoginWith(t, Name(c), k, newPassword);
    LoginWith(t, Name(c), k, oldPassword);
  }

  /** The changed table keeps its keys, finds the same record, and holds the new password there. */
  lemma PasswordChanged(db: Table, c: Claims, oldPassword: string, newPassword: string)
    requires db.Valid() && ChangePassword(db, c, oldPassword, newPassword).Ok?
    ensures var k := Lookup(db, Name(c)).value;
      var t := ChangePassword(db, c, oldPassword, newPassword).value;
      t.Valid() && Lookup(t, Name(c)) == Some(k) && t.m[k].password == newPassword
  {
    var k := Lookup(db, Name(c)).value;
    var u := db.m[k].(password := newPassword);
    var t := db.Put(k, u);
    assert t == ChangePassword(db, c, oldPassword, newPassword).value;
    PutValid(db, k, u);
    assert t.keys == db.keys && t.m == db.m[k := u];
    FirstWithSameNames(db.keys, db.m, t.m, Name(c));
  }

  /** Logging in where the lookup finds `k` succeeds exactly with `k`'s password. */
  lemma LoginWith(t: Table, name: string, k: string, password: string)
    requires t.Valid() && Lookup(t, name) == Some(k)
    ensures Login(t, name, password).Ok? <==> t.m[k].password == password
  {
  }

  /** Changing a non-name field does not change which record a lookup finds. */
  lemma {:induction false} FirstWithSameNames(keys: seq<string>, m: map<string, User>, m': map<string, User>, name: string)
    requires forall k :: k in keys ==> k in m && k in m' && m[k].username == m'[k].username
    ensures FirstWith(keys, m, name) == FirstWith(keys, m', name)
  {
    if keys != [] {
      FirstWithSameNames(keys[1..], m, m', name);
    }
  }

  /** A wrong old password is refused and changes nothing. */
  lemma WrongOldPassword(db: Table, c: Claims, oldPassword: string, newPassword: string)
    requires db.Valid() && Lookup(db, Name(c)).Some? && db.m[Lookup(db, Name(c)).value].password != oldPassword
    ensures ChangePassword(db, c, oldPassword, newPassword) == Fail(401, "原密码错误")
  {
  }

  /** Updates do not re-check usernames: renaming one user to another's name breaks uniqueness. */
  lemma UpdateBreaksUnique()
    ensures var a := NewUser("a", "alice", "p");
      var b := NewUser("b", "bob", "q");
      var db := Dict(["email_a", "email_b"], map["email_a" := a, "email_b" := b]);
      && db.Valid() && UniqueUsernames(db)
      && UpdateProfile(db, Claims("a", Some("alice"), None), UserUpdate(Some("bob"), None, None, None, None, None, None)).Ok?
      && !UniqueUsernames(UpdateProfile(db, Claims("a", Some("alice"), None),
                                        UserUpdate(Some("bob"), None, None, None, None, None, None)).value.0)
  {
    var a := NewUser("a", "alice", "p");
    var b := NewUser("b", "bob", "q");
    var db := Dict(["email_a", "email_b"], map["email_a" := a, "email_b" := b]);
    assert db.keys[0] == "email_a";
    assert Lookup(db, "alice") == Some("email_a");
    var t := UpdateProfile(db, Claims("a", Some("alice"), None), UserUpdate(Some("bob"), None, None, None, None, None, None)).value.0;
    assert t.m["email_a"].username == "bob" == t.m["email_b"].username;
  }

  /** Genders stay valid: registration stores "other" and updates only pass validated values. */
  lemma GendersStayValid(db: Table, c: Claims, up: UserUpdate, username: string, password: string, userId: string)
    requires db.Valid() && forall k :: k in db.m ==> ValidGender(db.m[k].gender)
    requires ValidGender(up.gender)
    ensures UpdateProfile(db, c, up).Ok? ==>
      forall k :: k in UpdateProfile(db, c, up).value.0.m ==> ValidGender(UpdateProfile(db, c, up).value.0.m[k].gender)
    ensures Register(db, username, password, userId).Ok? ==>
      forall k :: k in Register(db, username, password, userId).value.m ==>
        ValidGender(Register(db, username, password, userId).value.m[k].gender)
  {
  }

  /** The module-level table and the routes that read and write it. */
  class UserStore {
    var db: Table

    ghost predicate Valid()
      reads this
    {
      db.Valid()
    }

    constructor ()
      ensures Valid() && db == Empty()
    {
      db := Empty();
    }

    /** The scan every route starts with: the first record, in table order, with that username. */
    method FindUser(name: string) returns (key: Option<string>)
      requires Valid()
      ensures key == Lookup(db, name)
    {
      var i := 0;
      while i < |db.keys|
        invariant 0 <= i <= |db.keys|
        invariant FirstWith(db.keys, db.m, name) == FirstWith(db.keys[i..], db.m, name)
      {
        assert db.keys[i..][1..] == db.keys[i + 1..];
        if db.m[db.keys[i]].username == name {
          return Some(db.keys[i]);
        }
        i := i + 1;
      }
      return None;
    }

    method RegisterUser(username: string, password: string, userId: string) returns (r: HttpResult<UserResponse>)
      requires Valid()
      modifies this
      ensures Valid()
      ensures Register(old(db), username, password, userId).Fail? ==>
        db == old(db) && r == Fail(409, "该账号已被注册")
      ensures Register(old(db), username, password, userId).Ok? ==>
        db == Register(old(db), username, password, userId).value && r == Ok(BasicInfo(userId, username))
    {
      var k := FindUser(username);
      if k.Some? {
        return Fail(409, "该账号已被注册");
      }
      PutValid(db, "email_" + userId, NewUser(userId, username, password));
      db := db.Put("email_" + userId, NewUser(userId, username, password));
      r := Ok(BasicInfo(userId, username));
    }

    method LoginUser(username: string, password: string) returns (r: HttpResult<UserResponse>)
      requires Valid()
      ensures r == Login(db, username, password)
    {
      var k := FindUser(username);
      if k.None? || db.m[k.value].password != password {
        return Fail(401, "账号或密码错误");
      }
      var u := db.m[k.value];
      r := Ok(Profile(u.userId, u.username, "registered", u));
    }

    method GetCurrentUserInfo(c: Claims) returns (r: UserResponse)
      requires Valid()
      ensures r == CurrentUserInfo(db, c)
    {
      var name := c.username.GetOr("");
      var k := FindUser(name);
      if k.None? {
        return BasicInfo(c.userId, name);
      }
      r := Profile(c.userId, name, c.userType.GetOr("registered"), db.m[k.value]);
    }

    method UpdateUserProfile(c: Claims, up: UserUpdate) returns (r: HttpResult<UserResponse>)
      requires Valid()
      modifies this
      ensures Valid()
      ensures UpdateProfile(old(db), c, up).Fail? ==> db == old(db) && r == Fail(404, UserNotFound)
      ensures UpdateProfile(old(db), c, up).Ok? ==>
        db == UpdateProfile(old(db), c, up).value.0 && r == Ok(UpdateProfile(old(db), c, up).value.1)
    {
      var k := FindUser(Name(c));
      if k.None? {
        return Fail(404, UserNotFound);
      }
      var u := Apply(db.m[k.value], up);
      PutValid(db, k.value, u);
      db := db.Put(k.value, u);
      r := Ok(Profile(u.userId, u.username, "registered", u));
    }

    method ChangeUserPassword(c: Claims, oldPassword: string, newPassword: string) returns (r: HttpResult<string>)
      requires Valid()
      modifies this
      ensures Valid()
      ensures ChangePassword(old(db), c, oldPassword, newPassword).Fail? ==>
        && db == old(db) && r.Fail?
        && r.status == ChangePassword(old(db), c, oldPassword, newPassword).status
        && r.detail == ChangePassword(old(db), c, oldPassword, newPassword).detail
      ensures ChangePassword(old(db), c, oldPassword, newPassword).Ok? ==>
        db == ChangePassword(old(db), c, oldPassword, newPassword).value && r == Ok("密码修改成功")
    {
      var k := FindUser(Name(c));
      if k.None? {
        return Fail(404, UserNotFound);
      }
      var u := db.m[k.value];
      if u.password != oldPassword {
        return Fail(401, "原密码错误");
      }
      PutValid(db, k.value, u.(password := newPassword));
      db := db.Put(k.value, u.(password := newPassword));
      r := Ok("密码修改成功");
    }
  }
}

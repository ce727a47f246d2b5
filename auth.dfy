/** The single-admin account flow (backend/app/routers/auth.py): the admins
    collection, first-run setup, login and password change. */
module Auth {
  import opened Common
  import opened Security

  /** A document of the admins collection. */
  datatype Admin = Admin(id: ObjectId, username: string, email: string, hashedPassword: string,
                         isFirstLogin: bool, createdAt: Option<int>)

  datatype AdminResponse = AdminResponse(id: ObjectId, username: string, email: string)

  datatype TokenResponse = TokenResponse(message: string, token: string, admin: AdminResponse)

  const AdminAlreadyExists := HttpError(400, "管理员账号已存在")
  const InvalidCredentials := HttpError(401, "用户名或密码错误")
  const UserNotFound := HttpError(404, "用户不存在")
  const WrongCurrentPassword := HttpError(400, "当前密码错误")
  const NewPasswordTooShort := HttpError(400, "新密码长度至少6位")

  const SetupSucceeded := "管理员账号创建成功"
  const LoginSucceeded := "登录成功"
  const PasswordChanged := "密码修改成功"

  /** The shortest new password `change_password` accepts. */
  const MinPasswordLength := 6

  /** The two query filters the handlers use: `{"username": u}` and `{"_id": id}`. */
  datatype Filter = ByUsername(username: string) | ById(id: ObjectId)

  predicate Matches(a: Admin, filter: Filter)
  {
    match filter
    case ByUsername(u) => a.username == u
    case ById(id) => a.id == id
  }

  /** `find_one(filter)`: the position of the first admin, in the
      collection's order, that matches the filter. */
  function FindFirst(admins: seq<Admin>, filter: Filter): (r: Option<nat>)
    ensures r.Some? ==> r.value < |admins| && Matches(admins[r.value], filter)
    ensures r.Some? ==> forall j :: 0 <= j < r.value ==> !Matches(admins[j], filter)
    ensures r.None? <==> forall j :: 0 <= j < |admins| ==> !Matches(admins[j], filter)
  {
    if admins == [] then None
    else if Matches(admins[0], filter) then Some(0)
    else match FindFirst(admins[1..], filter)
      case None => None
      case Some(i) => Some(i + 1)
  }

  /** The claims of a token issued for an admin. */
  function IdentityClaims(id: ObjectId, username: string): (c: Claims)
    ensures c.Keys == {"id", "username"}
    ensures c["id"] == Str(id) && c["username"] == Str(username)
    ensures Signable(c)
  {
    map["id" := Str(id), "username" := Str(username)]
  }

  /** The admins collection together with the configuration and libraries
      the handlers use. */
  class AdminStore {
    var admins: seq<Admin>
    const settings: Settings
    const bcrypt: Bcrypt
    const jose: Jose

    /** `_id` is unique within a collection, and every id has the text
        `str(ObjectId(...))` gives it. */
    ghost predicate Valid()
      reads this
    {
      && (forall i, j :: 0 <= i < j < |admins| ==> admins[i].id != admins[j].id)
      && (forall i :: 0 <= i < |admins| ==> IsObjectIdHex(admins[i].id))
    }

    constructor (admins: seq<Admin>, settings: Settings, bcrypt: Bcrypt, jose: Jose)
      requires forall i, j :: 0 <= i < j < |admins| ==> admins[i].id != admins[j].id
      requires forall i :: 0 <= i < |admins| ==> IsObjectIdHex(admins[i].id)
      ensures Valid()
      ensures this.admins == admins && this.settings == settings
      ensures this.bcrypt == bcrypt && this.jose == jose
    {
      this.admins := admins;
      this.settings := settings;
      this.bcrypt := bcrypt;
      this.jose := jose;
    }

    function Token(id: ObjectId, username: string, now: int): string
      reads this
    {
      CreateAccessToken(settings, jose, IdentityClaims(id, username), None, now)
    }

    /** `check_setup`: setup is needed exactly when there is no admin. */
    method CheckSetup() returns (needsSetup: bool)
      ensures needsSetup <==> |admins| == 0
    {
      needsSetup := |admins| == 0;
    }

    /** `setup_admin`: refused once any admin exists; otherwise inserts one
        record under the id the driver assigns and issues a token for it. */
    method SetupAdmin(username: string, email: string, password: string, newId: ObjectId, salt: Salt, now: int)
      returns (r: Result<TokenResponse, HttpError>)
      requires Valid()
      requires IsObjectIdHex(newId)
      modifies this
      ensures Valid()
      ensures old(admins) != [] ==> r == Err(AdminAlreadyExists) && admins == old(admins)
      ensures old(admins) == [] ==>
        && admins == [Admin(newId, username, email, GetPasswordHash(bcrypt, password, salt), false, None)]
        && r == Ok(TokenResponse(SetupSucceeded, Token(newId, username, now), AdminResponse(newId, username, email)))
    {
      var adminCount := |admins|;
      if adminCount > 0 {
        return Err(AdminAlreadyExists);
      }
      var record := Admin(newId, username, email, GetPasswordHash(bcrypt, password, salt), false, None);
      admins := admins + [record];
      var token := Token(newId, username, now);
      r := Ok(TokenResponse(SetupSucceeded, token, AdminResponse(newId, username, email)));
    }

    /** `login`: an unknown username and a wrong password fail alike; on
        success the token carries the stored record's id and username. */
    method Login(username: string, password: string, now: int) returns (r: Result<TokenResponse, HttpError>)
      ensures r.Err? ==> r.error == InvalidCredentials
      ensures FindFirst(admins, ByUsername(username)).None? ==> r == Err(InvalidCredentials)
      ensures FindFirst(admins, ByUsername(username)).Some? ==>
        var a := admins[FindFirst(admins, ByUsername(username)).value];
        r == if VerifyPassword(bcrypt, password, a.hashedPassword)
             then Ok(TokenResponse(LoginSucceeded, Token(a.id, a.username, now), AdminResponse(a.id, a.username, a.email)))
             else Err(InvalidCredentials)
    {
      var found := FindFirst(admins, ByUsername(username));
      if found.None? {
        return Err(InvalidCredentials);
      }
      var admin := admins[found.value];
      if !VerifyPassword(bcrypt, password, admin.hashedPassword) {
        return Err(InvalidCredentials);
      }
      var token := Token(admin.id, admin.username, now);
      r := Ok(TokenResponse(LoginSucceeded, token, AdminResponse(admin.id, admin.username, admin.email)));
    }

    /** `change_password` for the authenticated admin `currentId`: the record
        must exist, the current password must verify, and only then is the
        new password's length checked; on success only that record's
        `hashedPassword` changes. Because ids are unique, the record
        `find_one` returns is the only one the `update_one` filter on `_id`
        can match. */
    method ChangePassword(currentId: ObjectId, currentPassword: string, newPassword: string, salt: Salt)
      returns (r: Result<string, HttpError>)
      requires Valid()
      requires IsObjectIdHex(currentId)
      modifies this
      ensures Valid()
      ensures FindFirst(old(admins), ById(currentId)).None? ==>
        r == Err(UserNotFound) && admins == old(admins)
      ensures FindFirst(old(admins), ById(currentId)).Some? ==>
        var i := FindFirst(old(admins), ById(currentId)).value;
        forall j :: 0 <= j < |old(admins)| && Matches(old(admins)[j], ById(currentId)) ==> j == i
      ensures FindFirst(old(admins), ById(currentId)).Some? ==>
        var i := FindFirst(old(admins), ById(currentId)).value;
        if !VerifyPassword(bcrypt, currentPassword, old(admins)[i].hashedPassword) then
          r == Err(WrongCurrentPassword) && admins == old(admins)
        else if |newPassword| < MinPasswordLength then
          r == Err(NewPasswordTooShort) && admins == old(admins)
        else
          r == Ok(PasswordChanged) &&
          admins == old(admins)[i := old(admins)[i].(hashedPassword := GetPasswordHash(bcrypt, newPassword, salt))]
    {
      var found := FindFirst(admins, ById(currentId));
      if found.None? {
        return Err(UserNotFound);
      }
      var i := found.value;
      if !VerifyPassword(bcrypt, currentPassword, admins[i].hashedPassword) {
        return Err(WrongCurrentPassword);
      }
      if |newPassword| < MinPasswordLength {
        return Err(NewPasswordTooShort);
      }
      admins := admins[i := admins[i].(hashedPassword := GetPasswordHash(bcrypt, newPassword, salt))];
      r := Ok(PasswordChanged);
    }
  }

  /** The first-run story of the account flow: setup, login, the three
      outcomes of a password change, and the old password rejected after it. */
  method FirstRunScenario(settings: Settings, bcrypt: Bcrypt, jose: Jose, id: ObjectId,
                          otherName: string, otherEmail: string, otherPassword: string, otherId: ObjectId,
                          salt1: Salt, salt2: Salt, salt3: Salt, now: int)
    requires AcceptsOwnHashes(bcrypt) && RejectsOtherPasswords(bcrypt) && DecodeContract(jose)
    requires IsObjectIdHex(id) && IsObjectIdHex(otherId)
    requires settings.accessTokenExpireMinutes >= 0
  {
    var store := new AdminStore([], settings, bcrypt, jose);
    var needsSetup := store.CheckSetup();
    assert needsSetup;

    var setup := store.SetupAdmin("admin", "admin@example.edu", "secret123", id, salt1, now);
    assert setup.Ok? && setup.value.admin.username == "admin";
    TokenRoundTrip(settings, jose, IdentityClaims(id, "admin"), None, now, now);
    var claims := VerifyToken(settings, jose, setup.value.token, now);
    assert claims.Some? && claims.value["username"] == Str("admin");

    needsSetup := store.CheckSetup();
    assert !needsSetup;
    var second := store.SetupAdmin(otherName, otherEmail, otherPassword, otherId, salt2, now);
    assert second == Err(AdminAlreadyExists);

    VerifyAcceptsOwnHash(bcrypt, "secret123", salt1);
    var login := store.Login("admin", "secret123", now);
    assert login.Ok?;

    var wrong := store.ChangePassword(id, "secret12", "abcdef", salt3);
    assert wrong == Err(WrongCurrentPassword);
    var short := store.ChangePassword(id, "secret123", "ab", salt3);
    assert short == Err(NewPasswordTooShort);
    var changed := store.ChangePassword(id, "secret123", "abcdef", salt3);
    assert changed == Ok(PasswordChanged);

    var oldLogin := store.Login("admin", "secret123", now);
    assert oldLogin == Err(InvalidCredentials);
    VerifyAcceptsOwnHash(bcrypt, "abcdef", salt3);
    var newLogin := store.Login("admin", "abcdef", now);
    assert newLogin.Ok?;
  }
}

/** The admin controller: the admin and user views, and the handlers of the
    admin routes (admin creation and login, user creation, listing, lookup,
    update and deletion). */
module AdminController {
  import opened Js
  import opened Store
  import opened Crypto
  import opened Schema
  import opened CredentialDtos
  import opened AdminDtos
  import opened UserListing
  import opened Http
  import AccountService
  import AdminService
  import EmployerController

  /** The public view of an admin object. */
  function AdminView(admin: Json): Doc
  {
    map["_id" := Prop(admin, "_id"), "email" := Prop(admin, "email"), "role" := Prop(admin, "role"),
        "createdAt" := Prop(admin, "createdAt"), "updatedAt" := Prop(admin, "updatedAt")]
  }

  /** `filterAdminData`: `null` for a falsy admin, otherwise its view. */
  function FilterAdminData(admin: Json): (r: Option<Doc>)
    ensures r.None? <==> !Truthy(admin)
  {
    if !Truthy(admin) then None else Some(AdminView(admin))
  }

  /** The admin view holds the id, the e-mail, the role and the two
      timestamps, copied, and nothing else: no password. */
  lemma AdminViewFields(admin: Json)
    ensures var v := AdminView(admin);
      && v.Keys == {"_id", "email", "role", "createdAt", "updatedAt"}
      && "password" !in v
      && forall k :: k in v ==> v[k] == Prop(admin, k)
  {
  }

  /** The admin controller's view of an employer. */
  function EmployerView(user: Json): Doc
  {
    var picture := Or(Prop(user, "logoPath"), Prop(user, "googleProfilePicture"));
    map["_id" := Prop(user, "_id"), "companyName" := Prop(user, "companyName"),
        "contactName" := Prop(user, "contactName"), "email" := Prop(user, "email"),
        "phoneNumber" := Prop(user, "phoneNumber"), "role" := Prop(user, "role"),
        "createdAt" := Prop(user, "createdAt"), "updatedAt" := Prop(user, "updatedAt"),
        "logoPath" := picture, "profilePicturePath" := picture]
  }

  /** The admin controller's view of a talent. */
  function TalentView(user: Json): Doc
  {
    map["_id" := Prop(user, "_id"), "fname" := Prop(user, "fname"), "lname" := Prop(user, "lname"),
        "email" := Prop(user, "email"), "phoneNumber" := Prop(user, "phoneNumber"), "role" := Prop(user, "role"),
        "createdAt" := Prop(user, "createdAt"), "updatedAt" := Prop(user, "updatedAt"),
        "profilePicturePath" := Or(Prop(user, "profilePicturePath"), Prop(user, "googleProfilePicture"))]
  }

  /** `filterUserData`: a user with a truthy company name is shown as an
      employer, any other as a talent. */
  function FilterUserData(user: Json): (r: Option<Doc>)
    ensures r.None? <==> !Truthy(user)
  {
    if !Truthy(user) then None
    else if Truthy(Prop(user, "companyName")) then Some(EmployerView(user))
    else Some(TalentView(user))
  }

  /** The employer view is chosen exactly when the company name is truthy:
      only it has a logo, only the talent view has names; neither has a
      password. */
  lemma FilterUserDataDiscriminates(user: Json)
    requires Truthy(user)
    ensures var v := FilterUserData(user).value;
      && ("logoPath" in v <==> Truthy(Prop(user, "companyName")))
      && ("fname" in v <==> !Truthy(Prop(user, "companyName")))
      && "password" !in v
  {
  }

  /** The picture of the employer view is the logo, else the Google picture,
      under both names; the talent view's is its own picture, else the Google
      picture. */
  lemma FilterUserDataPicture(user: Json)
    requires Truthy(user)
    ensures var v := FilterUserData(user).value;
      && (Truthy(Prop(user, "companyName")) ==>
            v["logoPath"] == Or(Prop(user, "logoPath"), Prop(user, "googleProfilePicture"))
            && v["profilePicturePath"] == v["logoPath"])
      && (!Truthy(Prop(user, "companyName")) ==>
            v["profilePicturePath"] == Or(Prop(user, "profilePicturePath"), Prop(user, "googleProfilePicture")))
  {
  }

  /** On an employer, the admin view extends the employer controller's view:
      the same seven fields with the same values, plus the logo and the
      timestamps. */
  lemma EmployerViewExtendsEmployerControllerView(user: Json)
    ensures var mine := EmployerView(user);
      var theirs := EmployerController.EmployerView(user);
      && theirs.Keys <= mine.Keys
      && forall k :: k in theirs ==> mine[k] == theirs[k]
  {
    var mine := EmployerView(user);
    var theirs := EmployerController.EmployerView(user);
    EmployerController.EmployerViewFields(user);
    AdminEmployerViewFields(user);
    AdminEmployerViewContact(user);
    EmployerControllerKeysKept(user);
    forall k | k in theirs ensures k in mine && mine[k] == theirs[k] {
      assert k in {"_id", "companyName", "contactName", "email", "phoneNumber", "role", "profilePicturePath"};
    }
  }

  /** The admin view of an employer holds the picture under both "logoPath"
      and "profilePicturePath", and copies the identity and the role. */
  lemma AdminEmployerViewFields(user: Json)
    ensures var v := EmployerView(user);
      && "logoPath" in v && "profilePicturePath" in v
      && v["logoPath"] == v["profilePicturePath"] == Or(Prop(user, "logoPath"), Prop(user, "googleProfilePicture"))
      && v["_id"] == Prop(user, "_id") && v["role"] == Prop(user, "role")
  {
  }

  /** The admin view of an employer copies the company's contact fields and
      the timestamps. */
  lemma AdminEmployerViewContact(user: Json)
    ensures var v := EmployerView(user);
      && v["companyName"] == Prop(user, "companyName") && v["contactName"] == Prop(user, "contactName")
      && v["email"] == Prop(user, "email") && v["phoneNumber"] == Prop(user, "phoneNumber")
      && v["createdAt"] == Prop(user, "createdAt") && v["updatedAt"] == Prop(user, "updatedAt")
  {
  }

  /** Each key of the employer controller's view is a key of the admin view. */
  lemma EmployerControllerKeysKept(user: Json)
    ensures EmployerController.EmployerView(user).Keys <= EmployerView(user).Keys
  {
  }

  const AdminCreated: string := "Admin created successfully"

  /** The admin `createAdmin` stores for an accepted body: its e-mail, the
      hash of its password and the role "admin", with no confirmation. */
  function SavedAdmin(body: Json, kit: Kit, id: string, now: int): (d: Doc)
    requires Prop(body, "password").Str?
    ensures "confirmPassword" !in d
    ensures Get(d, "email") == Prop(body, "email") && Get(d, "role") == Str("admin")
    ensures Get(d, "password") == Str(kit.hash(Prop(body, "password").s))
  {
    var data := map["email" := Prop(body, "email"), "password" := Prop(body, "password")];
    var r := AdminService.AdminRecord(data, kit.hash(Prop(body, "password").s));
    assert "confirmPassword" != "password" && "confirmPassword" != "role" && "confirmPassword" != "email";
    assert "confirmPassword" !in r;
    assert "confirmPassword" != "_id" && "confirmPassword" != "createdAt" && "confirmPassword" != "updatedAt";
    assert "email" != "_id" && "email" != "createdAt" && "email" != "updatedAt";
    assert "role" != "_id" && "role" != "createdAt" && "role" != "updatedAt";
    assert "password" != "_id" && "password" != "createdAt" && "password" != "updatedAt";
    Stamp(r, id, now)
  }

  /** What `createAdmin` passes to the service: the e-mail and the password
      of an accepted body, without the confirmation. */
  lemma DataToSave(env: Env, body: Json)
    requires CreateAdminDto(env, body).Some?
    ensures Prop(body, "password").Str?
    ensures CreateAdminDto(env, body).value - {"confirmPassword"}
      == map["email" := Prop(body, "email"), "password" := Prop(body, "password")]
  {
    CreateAdminAccepts(env, body);
  }

  /** `createAdmin`: 400 with the validation report when the DTO rejects the
      body; otherwise the confirmation is dropped and the service creates the
      admin (its 400 for a duplicate keeps its status); 201 with the new
      admin's view. */
  method CreateAdmin(admins: Repository, env: Env, body: Json, report: string, kit: Kit, id: string, now: int)
    returns (response: Response)
    requires admins.Valid() && admins.GetById(id).None?
    modifies admins
    ensures admins.Valid()
    ensures CreateAdminDto(env, body).Some? ==> Prop(body, "password").Str?
    ensures CreateAdminDto(env, body).None? ==> response == Failure(400, report) && admins.docs == old(admins.docs)
    ensures CreateAdminDto(env, body).Some? && old(admins.GetByEmail(Prop(body, "email"))).Some? ==>
      response == Failure(400, AdminService.AdminExists) && admins.docs == old(admins.docs)
    ensures CreateAdminDto(env, body).Some? && old(admins.GetByEmail(Prop(body, "email"))).None? ==>
      var d := SavedAdmin(body, kit, id, now);
      && admins.docs == old(admins.docs) + [d]
      && response == Success(201, AdminCreated, OrNull(FilterAdminData(Obj(d))))
  {
    var parsedData := CreateAdminDto(env, body);
    if parsedData.None? {
      return Failure(400, report);
    }
    DataToSave(env, body);
    var dataToSave := parsedData.value - {"confirmPassword"};
    assert Get(dataToSave, "email") == Prop(body, "email") && Get(dataToSave, "password") == Prop(body, "password");
    var newAdmin := AdminService.CreateAdmin(admins, dataToSave, kit, id, now);
    if newAdmin.Err? {
      return ErrorResponse(newAdmin.error);
    }
    response := Success(201, AdminCreated, OrNull(FilterAdminData(Obj(newAdmin.value))));
  }

  /** How long an admin token lives. */
  const AdminSessionLifetime: string := "24h"

  /** The fields of an admin token: `{id, email, role}`. */
  function AdminPayload(admin: Doc): (p: Doc)
    ensures p.Keys == {"id", "email", "role"} && "password" !in p
    ensures p["id"] == IdOf(admin) && p["email"] == Get(admin, "email") && p["role"] == Get(admin, "role")
  {
    map["id" := IdOf(admin), "email" := Get(admin, "email"), "role" := Get(admin, "role")]
  }

  /** `loginAdmin`'s answer: the token and the admin's view. */
  function AdminLoginSuccess(token: string, admin: Doc): Response
  {
    Response(200, map["success" := Bool(true), "message" := Str("Login successful"),
                      "token" := Str(token), "data" := OrNull(FilterAdminData(Obj(admin)))])
  }

  /** `loginAdmin`: a body the DTO rejects is a 400 "Invalid credentials";
      the service's 401s keep their status; success signs `{id, email, role}`
      for 24 hours. `secret` is JWT_SECRET. */
  function LoginAdmin(admins: seq<Doc>, env: Env, body: Json, kit: Kit, secret: Option<string>): (r: Response)
    ensures LoginDto(env, body).Some? ==> Prop(body, "email").Str? && Prop(body, "password").Str?
    ensures LoginDto(env, body).None? ==> r == Failure(400, AccountService.InvalidCredentials)
    ensures LoginDto(env, body).Some? ==>
      var account := AdminService.LoginAdmin(admins, Prop(body, "email").s, Prop(body, "password").s, kit);
      && (account.Err? ==> r == ErrorResponse(account.error))
      && (r.status == 200 <==> account.Ok? && secret.Some? && secret.value != "")
      && (r.status == 200 ==>
            r == AdminLoginSuccess(kit.sign(AdminPayload(account.value), secret.value, AdminSessionLifetime), account.value))
  {
    var parsedData := LoginDto(env, body);
    if parsedData.None? then ErrorResponse(HttpError(400, AccountService.InvalidCredentials))
    else
      LoginAccepts(env, body);
      match AdminService.LoginAdmin(admins, Prop(body, "email").s, Prop(body, "password").s, kit)
      case Err(e) =>
        assert e.HttpError? ==> e.statusCode == 401;
        ErrorResponse(e)
      case Ok(admin) =>
        match Sign(kit, AdminPayload(admin), secret, AdminSessionLifetime)
        case Err(e) => ErrorResponse(e)
        case Ok(token) => AdminLoginSuccess(token, admin)
  }

  /** The user type and the user data of an accepted creation body. */
  function RequestedType(dto: Doc): string
  {
    if Get(dto, "userType").Str? then Get(dto, "userType").s else ""
  }

  function RequestedData(dto: Doc): Doc
  {
    if Get(dto, "userData").Obj? then Get(dto, "userData").fields else map[]
  }

  /** `if (req.file) userData.profilePicturePath = req.file.filename` */
  function WithProfilePicture(data: Doc, file: Option<UploadedFile>): (r: Doc)
    ensures file.Some? ==> "profilePicturePath" in r && r["profilePicturePath"] == Str(file.value.filename)
    ensures file.None? ==> r == data
    ensures forall k :: k in data && k != "profilePicturePath" ==> k in r && r[k] == data[k]
  {
    if file.Some? then data["profilePicturePath" := Str(file.value.filename)] else data
  }

  /** `${userType === "employer" ? "Employer" : "Talent"} user created successfully` */
  function UserCreated(userType: string): string
  {
    (if userType == "employer" then "Employer" else "Talent") + " user created successfully"
  }

  /** `createUserAsAdmin`: 400 with the validation report when the DTO
      rejects the body; otherwise an uploaded picture overrides the user
      data's picture and the service creates the user in the collection of
      its type; 201 with the new user's view, and 500 for a duplicate. */
  method CreateUserAsAdmin(employers: Repository, talents: Repository, env: Env, body: Json,
                           file: Option<UploadedFile>, report: string, kit: Kit, id: string, now: int)
    returns (response: Response)
    requires employers != talents && employers.Valid() && talents.Valid()
    requires employers.GetById(id).None? && talents.GetById(id).None?
    modifies employers, talents
    ensures employers.Valid() && talents.Valid()
    ensures CreateUserByAdminDto(env, body).None? ==>
      response == Failure(400, report) && employers.docs == old(employers.docs) && talents.docs == old(talents.docs)
    ensures CreateUserByAdminDto(env, body).Some? ==>
      var dto := CreateUserByAdminDto(env, body).value;
      var data := WithProfilePicture(RequestedData(dto), file);
      && (RequestedType(dto) == "employer" || RequestedType(dto) == "talent")
      && Get(data, "password").Str?
    ensures CreateUserByAdminDto(env, body).Some? ==>
      var dto := CreateUserByAdminDto(env, body).value;
      var userType := RequestedType(dto);
      var data := WithProfilePicture(RequestedData(dto), file);
      var chosen := if userType == "employer" then employers else talents;
      var other := if userType == "employer" then talents else employers;
      && other.docs == old(other.docs)
      && (old(chosen.GetByEmail(Get(data, "email"))).Some? ==>
            response.status == 500 && chosen.docs == old(chosen.docs))
      && (old(chosen.GetByEmail(Get(data, "email"))).None? ==>
            var d := Stamp(AdminService.UserRecord(data, kit.hash(Get(data, "password").s)), id, now);
            && chosen.docs == old(chosen.docs) + [d]
            && response == Success(201, UserCreated(userType), OrNull(FilterUserData(Obj(d)))))
  {
    var parsedData := CreateUserByAdminDto(env, body);
    if parsedData.None? {
      return Failure(400, report);
    }
    CreateUserByAdminRequires(env, body);
    var userType := RequestedType(parsedData.value);
    var userData := RequestedData(parsedData.value);
    if file.Some? {
      userData := userData["profilePicturePath" := Str(file.value.filename)];
    }
    var newUser := AdminService.CreateUserAsAdmin(employers, talents, userType, userData, kit, id, now);
    if newUser.Err? {
      return ErrorResponse(newUser.error);
    }
    response := Success(201, UserCreated(userType), OrNull(FilterUserData(Obj(newUser.value))));
  }

  /** `parseInt(query) || fallback`: a missing, non-numeric (`None`) or zero
      value falls back. */
  function OrDefault(parsed: Option<int>, fallback: int): (r: int)
    ensures parsed.Some? && parsed.value != 0 ==> r == parsed.value
    ensures parsed.None? || parsed.value == 0 ==> r == fallback
  {
    if parsed.Some? && parsed.value != 0 then parsed.value else fallback
  }

  /** The page count as `res.json` writes it: Infinity and NaN become
      `null`. */
  function PageCountJson(c: PageCount): Json
  {
    if c.Pages? then Num(c.n) else Null
  }

  function MetadataJson(m: Metadata): Json
  {
    Obj(map["total" := Num(m.total), "page" := Num(m.page), "size" := Num(m.size),
            "totalPages" := PageCountJson(m.totalPages)])
  }

  /** `filterUsersArray`: the view of each user, in order. */
  function FilterUsers(users: seq<Doc>): (r: seq<Json>)
    ensures |r| == |users|
    ensures forall i :: 0 <= i < |users| ==> r[i] == OrNull(FilterUserData(Obj(users[i])))
  {
    if users == [] then [] else [OrNull(FilterUserData(Obj(users[0])))] + FilterUsers(users[1..])
  }

  /** `getAllUsers`: the page and the size default to 1 and 10. */
  function GetAllUsers(employers: seq<Doc>, talents: seq<Doc>, page: Option<int>, size: Option<int>): Response
  {
    var result := UserListing.GetAllUsers(employers, talents, OrDefault(page, 1), OrDefault(size, 10));
    Response(200, map["success" := Bool(true), "data" := Arr(FilterUsers(result.data)),
                      "metadata" := MetadataJson(result.metadata)])
  }

  /** The size of a listing is never zero, so its page count is always a
      number; without queries the first page of ten is listed. */
  lemma ListingDefaults(employers: seq<Doc>, talents: seq<Doc>, page: Option<int>, size: Option<int>)
    ensures var r := GetAllUsers(employers, talents, page, size);
      var m := r.body["metadata"].fields;
      && m["totalPages"].Num?
      && m["total"] == Num(|employers| + |talents|)
      && (page.None? ==> m["page"] == Num(1))
      && (size.None? ==> m["size"] == Num(10))
      && (page.None? && size.None? ==> |r.body["data"].items| <= 10)
  {
    var p := OrDefault(page, 1);
    var s := OrDefault(size, 10);
    ListingMetadata(employers, talents, p, s);
    if page.None? && size.None? {
      PageWindow(employers, talents, 1, 10);
    }
  }

  /** `getUserById`: 200 with the user's view, or the 404 of the service. */
  function GetUserById(employers: seq<Doc>, talents: seq<Doc>, id: string): (r: Response)
    ensures r.status == 200 <==> FindById(employers, id).Some? || FindById(talents, id).Some?
    ensures r.status != 200 ==> r == Failure(404, AdminService.UserNotFound)
    ensures FindById(employers, id).Some? ==> "data" in r.body && r.body["data"] == OrNull(FilterUserData(Obj(FindById(employers, id).value)))
  {
    match AdminService.GetUserById(employers, talents, id)
    case Err(e) => ErrorResponse(e)
    case Ok(user) => Response(200, map["success" := Bool(true), "data" := OrNull(FilterUserData(Obj(user)))])
  }

  const UserUpdated: string := "User updated successfully"

  /** The answer of `updateUserById` to the service's result, as written: an
      id that no collection holds still reports success, with `null` data. */
  function UpdatedUserResponseAsWritten(result: Outcome<Option<Doc>>): Response
  {
    match result
    case Err(e) => ErrorResponse(e)
    case Ok(None) => Success(200, UserUpdated, Null)
    case Ok(Some(user)) => Success(200, UserUpdated, OrNull(FilterUserData(Obj(user))))
  }

  /** The service answers an unknown id with no user and no error (see
      `AdminService.UpdateUserById`), and the handler turns that into a
      success. */
  lemma UnknownUserReportedUpdated()
    ensures UpdatedUserResponseAsWritten(Ok(None)).status == 200
    ensures UpdatedUserResponseAsWritten(Ok(None)).body["message"] == Str(UserUpdated)
    ensures UpdatedUserResponseAsWritten(Ok(None)).body["data"] == Null
  {
  }

  /** The answer the handler evidently intends: an unknown id is a 404 "User
      not found", as in the lookup and the deletion. */
  function UpdatedUserResponse(result: Outcome<Option<Doc>>): (r: Response)
    ensures result.Ok? ==> (r.status == 200 <==> result.value.Some?)
    ensures result == Ok(None) ==> r == Failure(404, AdminService.UserNotFound)
    ensures result.Err? ==> r == ErrorResponse(result.error)
    ensures result.Ok? && result.value.Some? ==>
      r == Success(200, UserUpdated, OrNull(FilterUserData(Obj(result.value.value))))
  {
    match result
    case Err(e) => ErrorResponse(e)
    case Ok(None) => Failure(404, AdminService.UserNotFound)
    case Ok(Some(user)) => Success(200, UserUpdated, OrNull(FilterUserData(Obj(user))))
  }

  /** `updateUserById`, as written: an uploaded picture overrides the body's
      picture; the first collection holding the id gets the update; an
      unknown id changes nothing and is still answered 200 "User updated
      successfully" with `null` data; a hashing error is answered with
      `error.statusCode || 500`. */
  method UpdateUserById(employers: Repository, talents: Repository, id: string, body: Doc,
                        file: Option<UploadedFile>, kit: Kit, now: int) returns (response: Response)
    requires employers != talents && employers.Valid() && talents.Valid()
    modifies employers, talents
    ensures employers.Valid() && talents.Valid()
    ensures old(FindIndex(employers.docs, "_id", Str(id))).None? && old(FindIndex(talents.docs, "_id", Str(id))).None? ==>
      response == Success(200, UserUpdated, Null)
      && employers.docs == old(employers.docs) && talents.docs == old(talents.docs)
    ensures old(FindIndex(employers.docs, "_id", Str(id))).Some? ==>
      var updates := WithProfilePicture(body, file);
      var k := old(FindIndex(employers.docs, "_id", Str(id))).value;
      && talents.docs == old(talents.docs)
      && (AccountService.HashPassword(kit, updates).Err? ==>
            employers.docs == old(employers.docs)
            && response == ErrorResponse(AdminService.Rethrow(AccountService.HashPassword(kit, updates).error, AdminService.UpdateFailed))
            && response.status == StatusOr500(AccountService.HashPassword(kit, updates).error))
      && (AccountService.HashPassword(kit, updates).Ok? ==>
            var user := ApplyUpdate(old(employers.docs)[k], AccountService.HashPassword(kit, updates).value, now);
            employers.docs == old(employers.docs)[k := user]
            && response == Success(200, UserUpdated, OrNull(FilterUserData(Obj(user)))))
    ensures old(FindIndex(employers.docs, "_id", Str(id))).None? && old(FindIndex(talents.docs, "_id", Str(id))).Some? ==>
      var updates := WithProfilePicture(body, file);
      var k := old(FindIndex(talents.docs, "_id", Str(id))).value;
      && employers.docs == old(employers.docs)
      && (AccountService.HashPassword(kit, updates).Err? ==>
            talents.docs == old(talents.docs)
            && response == ErrorResponse(AdminService.Rethrow(AccountService.HashPassword(kit, updates).error, AdminService.UpdateFailed))
            && response.status == StatusOr500(AccountService.HashPassword(kit, updates).error))
      && (AccountService.HashPassword(kit, updates).Ok? ==>
            var user := ApplyUpdate(old(talents.docs)[k], AccountService.HashPassword(kit, updates).value, now);
            talents.docs == old(talents.docs)[k := user]
            && response == Success(200, UserUpdated, OrNull(FilterUserData(Obj(user)))))
  {
    var updateData := body;
    if file.Some? {
      updateData := updateData["profilePicturePath" := Str(file.value.filename)];
    }
    var updatedUser := AdminService.UpdateUserById(employers, talents, id, updateData, kit, now);
    response := UpdatedUserResponseAsWritten(updatedUser);
  }

  /** `deleteUserById`: 200 once the user is removed from the first
      collection holding it, the 404 of the service otherwise. */
  method DeleteUserById(employers: Repository, talents: Repository, id: string) returns (response: Response)
    requires employers != talents && employers.Valid() && talents.Valid()
    modifies employers, talents
    ensures employers.Valid() && talents.Valid()
    ensures old(FindIndex(employers.docs, "_id", Str(id))).Some? ==>
      response == Response(200, map["success" := Bool(true), "message" := Str("User deleted successfully")])
      && talents.docs == old(talents.docs)
      && employers.docs == RemoveAt(old(employers.docs), old(FindIndex(employers.docs, "_id", Str(id))).value)
    ensures old(FindIndex(employers.docs, "_id", Str(id))).None? && old(FindIndex(talents.docs, "_id", Str(id))).Some? ==>
      response == Response(200, map["success" := Bool(true), "message" := Str("User deleted successfully")])
      && employers.docs == old(employers.docs)
      && talents.docs == RemoveAt(old(talents.docs), old(FindIndex(talents.docs, "_id", Str(id))).value)
    ensures old(FindIndex(employers.docs, "_id", Str(id))).None? && old(FindIndex(talents.docs, "_id", Str(id))).None? ==>
      response == Failure(404, AdminService.UserNotFound)
      && employers.docs == old(employers.docs) && talents.docs == old(talents.docs)
  {
    var deleted := AdminService.DeleteUserById(employers, talents, id);
    if deleted.Err? {
      return ErrorResponse(deleted.error);
    }
    response := Response(200, map["success" := Bool(true), "message" := Str("User deleted successfully")]);
  }
}

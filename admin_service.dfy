/** The admin service: admin creation and login, and the management of
    employer and talent users across the two collections. The listing
    (`getAllUsers`) is in the module `UserListing`. */
module AdminService {
  import opened Js
  import opened Store
  import opened Crypto
  import opened AccountService

  const AdminExists: string := "Admin with this email already exists."
  const AdminNotFound: string := "Admin not found."
  const InvalidPassword: string := "Invalid password."
  const EmployerExists: string := "Employer with this email already exists."
  const TalentExists: string := "Talent with this email already exists."
  const InvalidUserType: string := "Invalid user type."
  const UserNotFound: string := "User not found"
  const RetrieveFailed: string := "Error retrieving user"
  const UpdateFailed: string := "Error updating user"
  const DeleteFailed: string := "Error deleting user"

  /** The `catch` of the user-management methods: rethrow as an HttpError
      with `error.statusCode || 500` and `error.message || fallback`. */
  function Rethrow(e: Error, fallback: string): (r: Error)
    ensures r.HttpError? && r.statusCode == StatusOr500(e) && r.message == MessageOr(e, fallback)
  {
    HttpError(StatusOr500(e), MessageOr(e, fallback))
  }

  /** The document `createAdmin` saves: the given fields, the hashed
      password, and the role "admin" whatever role was given. */
  function AdminRecord(adminData: Doc, hashed: string): (d: Doc)
    ensures "password" in d && d["password"] == Str(hashed)
    ensures "role" in d && d["role"] == Str("admin")
    ensures forall k :: k in d <==> k in adminData || k == "password" || k == "role"
    ensures forall k :: k in adminData && k != "password" && k != "role" ==> d[k] == adminData[k]
  {
    adminData["password" := Str(hashed)]["role" := Str("admin")]
  }

  /** `createAdmin` */
  method CreateAdmin(admins: Repository, adminData: Doc, kit: Kit, id: string, now: int) returns (r: Outcome<Doc>)
    requires admins.Valid() && admins.GetById(id).None?
    modifies admins
    ensures admins.Valid()
    ensures old(admins.GetByEmail(Get(adminData, "email"))).Some? ==>
      r == Err(HttpError(400, AdminExists)) && admins.docs == old(admins.docs)
    ensures old(admins.GetByEmail(Get(adminData, "email"))).None? && !Get(adminData, "password").Str? ==>
      r.Err? && admins.docs == old(admins.docs)
    ensures old(admins.GetByEmail(Get(adminData, "email"))).None? && Get(adminData, "password").Str? ==>
      r == Ok(Stamp(AdminRecord(adminData, kit.hash(Get(adminData, "password").s)), id, now))
      && admins.docs == old(admins.docs) + [r.value]
    ensures UniqueEmails(old(admins.docs)) ==> UniqueEmails(admins.docs)
  {
    var existingAdmin := admins.GetByEmail(Get(adminData, "email"));
    if existingAdmin.Some? {
      return Err(HttpError(400, AdminExists));
    }
    var hashedPassword := Hash(kit, Get(adminData, "password"));
    if hashedPassword.Err? {
      return Err(hashedPassword.error);
    }
    var newAdmin := admins.Create(AdminRecord(adminData, hashedPassword.value), id, now);
    if UniqueEmails(old(admins.docs)) {
      assert Get(newAdmin, "email") == Get(adminData, "email");
      AppendFreshEmail(old(admins.docs), newAdmin);
    }
    r := Ok(newAdmin);
  }

  /** `loginAdmin(email, password)`: both failures are 401; a stored
      password that is not a string makes the comparison throw. */
  function LoginAdmin(admins: seq<Doc>, email: string, password: string, kit: Kit): (r: Outcome<Doc>)
    ensures FindByEmail(admins, Str(email)).None? ==> r == Err(HttpError(401, AdminNotFound))
    ensures FindByEmail(admins, Str(email)).Some? && Get(FindByEmail(admins, Str(email)).value, "password").Str?
            && !kit.compare(password, Get(FindByEmail(admins, Str(email)).value, "password").s) ==>
      r == Err(HttpError(401, InvalidPassword))
    ensures r.Ok? <==>
      && FindByEmail(admins, Str(email)).Some?
      && Get(FindByEmail(admins, Str(email)).value, "password").Str?
      && kit.compare(password, Get(FindByEmail(admins, Str(email)).value, "password").s)
    ensures r.Ok? ==> r.value == FindByEmail(admins, Str(email)).value
  {
    var admin := FindByEmail(admins, Str(email));
    if admin.None? then Err(HttpError(401, AdminNotFound))
    else
      var isPasswordValid := Compare(kit, Str(password), Get(admin.value, "password"));
      if isPasswordValid.Err? then Err(isPasswordValid.error)
      else if !isPasswordValid.value then Err(HttpError(401, InvalidPassword))
      else Ok(admin.value)
  }

  /** An admin created with a password logs in with it, provided the
      password matches its own hash. */
  lemma CreateAdminThenLogin(admins: seq<Doc>, adminData: Doc, kit: Kit, id: string, now: int, email: string, password: string)
    requires FindByEmail(admins, Str(email)).None?
    requires Get(adminData, "email") == Str(email) && Get(adminData, "password") == Str(password)
    requires kit.compare(password, kit.hash(password))
    ensures var d := Stamp(AdminRecord(adminData, kit.hash(password)), id, now);
      LoginAdmin(admins + [d], email, password, kit) == Ok(d)
  {
    var d := Stamp(AdminRecord(adminData, kit.hash(password)), id, now);
    assert Get(d, "email") == Str(email);
    FindOneAppend(admins, d, "email", Str(email));
  }

  /** The document `createUserAsAdmin` saves: the user data with the hashed
      password. */
  function UserRecord(userData: Doc, hashed: string): (d: Doc)
    ensures "password" in d && d["password"] == Str(hashed)
    ensures d.Keys == userData.Keys + {"password"}
    ensures forall k :: k in userData && k != "password" ==> d[k] == userData[k]
  {
    userData["password" := Str(hashed)]
  }

  /** One branch of `createUserAsAdmin`: the duplicate check (a plain
      error), the hash, and the insert into that kind's collection. */
  method InsertUser(repo: Repository, duplicate: string, userData: Doc, kit: Kit, id: string, now: int) returns (r: Outcome<Doc>)
    requires repo.Valid() && repo.GetById(id).None?
    modifies repo
    ensures repo.Valid()
    ensures old(repo.GetByEmail(Get(userData, "email"))).Some? ==>
      r == Err(PlainError(duplicate)) && repo.docs == old(repo.docs)
    ensures old(repo.GetByEmail(Get(userData, "email"))).None? && !Get(userData, "password").Str? ==>
      r.Err? && repo.docs == old(repo.docs)
    ensures old(repo.GetByEmail(Get(userData, "email"))).None? && Get(userData, "password").Str? ==>
      r == Ok(Stamp(UserRecord(userData, kit.hash(Get(userData, "password").s)), id, now))
      && repo.docs == old(repo.docs) + [r.value]
  {
    var existing := repo.GetByEmail(Get(userData, "email"));
    if existing.Some? {
      return Err(PlainError(duplicate));
    }
    var hashedPassword := Hash(kit, Get(userData, "password"));
    if hashedPassword.Err? {
      return Err(hashedPassword.error);
    }
    var newUser := repo.Create(UserRecord(userData, hashedPassword.value), id, now);
    r := Ok(newUser);
  }

  /** `createUserAsAdmin(userType, userData)`: the duplicate check looks only
      at the chosen kind's collection, and only that collection changes. */
  method CreateUserAsAdmin(employers: Repository, talents: Repository, userType: string, userData: Doc,
                           kit: Kit, id: string, now: int) returns (r: Outcome<Doc>)
    requires employers != talents && employers.Valid() && talents.Valid()
    requires employers.GetById(id).None? && talents.GetById(id).None?
    modifies employers, talents
    ensures employers.Valid() && talents.Valid()
    ensures userType != "employer" && userType != "talent" ==>
      r == Err(PlainError(InvalidUserType)) && employers.docs == old(employers.docs) && talents.docs == old(talents.docs)
    ensures userType == "employer" ==> talents.docs == old(talents.docs)
    ensures userType == "employer" && old(employers.GetByEmail(Get(userData, "email"))).Some? ==>
      r == Err(PlainError(EmployerExists)) && employers.docs == old(employers.docs)
    ensures userType == "employer" && old(employers.GetByEmail(Get(userData, "email"))).None? && Get(userData, "password").Str? ==>
      r == Ok(Stamp(UserRecord(userData, kit.hash(Get(userData, "password").s)), id, now))
      && employers.docs == old(employers.docs) + [r.value]
    ensures userType == "talent" ==> employers.docs == old(employers.docs)
    ensures userType == "talent" && old(talents.GetByEmail(Get(userData, "email"))).Some? ==>
      r == Err(PlainError(TalentExists)) && talents.docs == old(talents.docs)
    ensures userType == "talent" && old(talents.GetByEmail(Get(userData, "email"))).None? && Get(userData, "password").Str? ==>
      r == Ok(Stamp(UserRecord(userData, kit.hash(Get(userData, "password").s)), id, now))
      && talents.docs == old(talents.docs) + [r.value]
  {
    if userType == "employer" {
      r := InsertUser(employers, EmployerExists, userData, kit, id, now);
    } else if userType == "talent" {
      r := InsertUser(talents, TalentExists, userData, kit, id, now);
    } else {
      r := Err(PlainError(InvalidUserType));
    }
  }

  /** `getUserById`: the employer collection is probed first, then the
      talent collection; the 404 survives the rethrow unchanged. */
  function GetUserById(employers: seq<Doc>, talents: seq<Doc>, id: string): (r: Outcome<Doc>)
    ensures FindById(employers, id).Some? ==> r == Ok(FindById(employers, id).value)
    ensures FindById(employers, id).None? && FindById(talents, id).Some? ==> r == Ok(FindById(talents, id).value)
    ensures FindById(employers, id).None? && FindById(talents, id).None? ==> r == Err(HttpError(404, UserNotFound))
  {
    var employer := FindById(employers, id);
    if employer.Some? then Ok(employer.value)
    else
      var talent := FindById(talents, id);
      if talent.Some? then Ok(talent.value)
      else Err(Rethrow(HttpError(404, UserNotFound), RetrieveFailed))
  }

  /** `updateUserById`: the first collection holding the id gets the update
      (a truthy password hashed first); when neither holds it nothing happens
      and no error is raised. */
  method UpdateUserById(employers: Repository, talents: Repository, id: string, updates: Doc, kit: Kit, now: int)
    returns (r: Outcome<Option<Doc>>)
    requires employers != talents && employers.Valid() && talents.Valid()
    modifies employers, talents
    ensures employers.Valid() && talents.Valid()
    ensures old(FindIndex(employers.docs, "_id", Str(id))).Some? ==>
      var k := old(FindIndex(employers.docs, "_id", Str(id))).value;
      && talents.docs == old(talents.docs)
      && (HashPassword(kit, updates).Err? ==>
            r == Err(Rethrow(HashPassword(kit, updates).error, UpdateFailed)) && employers.docs == old(employers.docs))
      && (HashPassword(kit, updates).Ok? ==>
            r == Ok(Some(ApplyUpdate(old(employers.docs)[k], HashPassword(kit, updates).value, now)))
            && employers.docs == old(employers.docs)[k := r.value.value])
    ensures old(FindIndex(employers.docs, "_id", Str(id))).None? && old(FindIndex(talents.docs, "_id", Str(id))).Some? ==>
      var k := old(FindIndex(talents.docs, "_id", Str(id))).value;
      && employers.docs == old(employers.docs)
      && (HashPassword(kit, updates).Err? ==>
            r == Err(Rethrow(HashPassword(kit, updates).error, UpdateFailed)) && talents.docs == old(talents.docs))
      && (HashPassword(kit, updates).Ok? ==>
            r == Ok(Some(ApplyUpdate(old(talents.docs)[k], HashPassword(kit, updates).value, now)))
            && talents.docs == old(talents.docs)[k := r.value.value])
    ensures old(FindIndex(employers.docs, "_id", Str(id))).None? && old(FindIndex(talents.docs, "_id", Str(id))).None? ==>
      r == Ok(None) && employers.docs == old(employers.docs) && talents.docs == old(talents.docs)
  {
    var employer := employers.GetById(id);
    if employer.Some? {
      var hashed := HashPassword(kit, updates);
      if hashed.Err? {
        return Err(Rethrow(hashed.error, UpdateFailed));
      }
      var updatedEmployer := employers.UpdateById(id, hashed.value, now);
      return Ok(updatedEmployer);
    }
    var talent := talents.GetById(id);
    if talent.Some? {
      var hashed := HashPassword(kit, updates);
      if hashed.Err? {
        return Err(Rethrow(hashed.error, UpdateFailed));
      }
      var updatedTalent := talents.UpdateById(id, hashed.value, now);
      return Ok(updatedTalent);
    }
    r := Ok(None);
  }

  /** `deleteUserById`: removes the id from the first collection holding it,
      employers first, and leaves the other collection unchanged. */
  method DeleteUserById(employers: Repository, talents: Repository, id: string) returns (r: Outcome<bool>)
    requires employers != talents && employers.Valid() && talents.Valid()
    modifies employers, talents
    ensures employers.Valid() && talents.Valid()
    ensures old(FindIndex(employers.docs, "_id", Str(id))).Some? ==>
      r == Ok(true) && talents.docs == old(talents.docs)
      && employers.docs == RemoveAt(old(employers.docs), old(FindIndex(employers.docs, "_id", Str(id))).value)
    ensures old(FindIndex(employers.docs, "_id", Str(id))).None? && old(FindIndex(talents.docs, "_id", Str(id))).Some? ==>
      r == Ok(true) && employers.docs == old(employers.docs)
      && talents.docs == RemoveAt(old(talents.docs), old(FindIndex(talents.docs, "_id", Str(id))).value)
    ensures old(FindIndex(employers.docs, "_id", Str(id))).None? && old(FindIndex(talents.docs, "_id", Str(id))).None? ==>
      r == Err(HttpError(404, UserNotFound)) && employers.docs == old(employers.docs) && talents.docs == old(talents.docs)
  {
    var employer := employers.GetById(id);
    if employer.Some? {
      var result := employers.DeleteById(id);
      return Ok(result);
    }
    var talent := talents.GetById(id);
    if talent.Some? {
      var result := talents.DeleteById(id);
      return Ok(result);
    }
    r := Err(Rethrow(HttpError(404, UserNotFound), DeleteFailed));
  }

  /** Once deleted, a user is gone: when no id is shared by an employer and
      a talent, looking the id up after the delete gives 404. */
  lemma DeletedUserIsGone(employers: seq<Doc>, talents: seq<Doc>, id: string)
    requires UniqueIds(employers) && UniqueIds(talents)
    requires FindById(employers, id).None? || FindById(talents, id).None?
    ensures FindIndex(employers, "_id", Str(id)).Some? ==>
      GetUserById(RemoveAt(employers, FindIndex(employers, "_id", Str(id)).value), talents, id)
        == Err(HttpError(404, UserNotFound))
    ensures FindIndex(employers, "_id", Str(id)).None? && FindIndex(talents, "_id", Str(id)).Some? ==>
      GetUserById(employers, RemoveAt(talents, FindIndex(talents, "_id", Str(id)).value), id)
        == Err(HttpError(404, UserNotFound))
  {
    if FindIndex(employers, "_id", Str(id)).Some? {
      RemoveAtDropsId(employers, FindIndex(employers, "_id", Str(id)).value);
    } else if FindIndex(talents, "_id", Str(id)).Some? {
      RemoveAtDropsId(talents, FindIndex(talents, "_id", Str(id)).value);
    }
  }
}

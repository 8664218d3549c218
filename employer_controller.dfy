/** The employer controller: the public view of an employer and the
    register, login, lookup and update handlers. */
module EmployerController {
  import opened Js
  import opened Store
  import opened Crypto
  import opened Schema
  import opened CredentialDtos
  import opened EmployerDtos
  import opened AccountService
  import opened Http

  /** The public view of an employer object: the picture is the logo, or
      else the Google picture. */
  function EmployerView(user: Json): Doc
  {
    map["_id" := Prop(user, "_id"), "companyName" := Prop(user, "companyName"),
        "contactName" := Prop(user, "contactName"), "email" := Prop(user, "email"),
        "phoneNumber" := Prop(user, "phoneNumber"), "role" := Prop(user, "role"),
        "profilePicturePath" := Or(Prop(user, "logoPath"), Prop(user, "googleProfilePicture"))]
  }

  /** `filterUserData`: `null` for a falsy user, otherwise its view. */
  function FilterUserData(user: Json): (r: Option<Doc>)
    ensures r.None? <==> !Truthy(user)
  {
    if !Truthy(user) then None else Some(EmployerView(user))
  }

  /** The view has seven fields and no password; the picture falls back from
      the logo to the Google picture, and the other fields are copied. */
  lemma EmployerViewFields(user: Json)
    ensures var v := EmployerView(user);
      && v.Keys == {"_id", "companyName", "contactName", "email", "phoneNumber", "role", "profilePicturePath"}
      && "password" !in v && "logoPath" !in v
      && (Truthy(Prop(user, "logoPath")) ==> v["profilePicturePath"] == Prop(user, "logoPath"))
      && (!Truthy(Prop(user, "logoPath")) ==> v["profilePicturePath"] == Prop(user, "googleProfilePicture"))
      && (forall k :: k in v && k != "profilePicturePath" ==> v[k] == Prop(user, k))
  {
  }

  const EmployerRegistered: string := "Employer registered successfully"

  /** `registerEmployer`: 400 with the validation report when the DTO rejects
      the body, 201 with the new employer's view, and 500 for any service
      error, a duplicate e-mail included. */
  method RegisterEmployer(repo: Repository, env: Env, body: Json, report: string, kit: Kit, id: string, now: int)
    returns (response: Response)
    requires repo.Valid() && repo.GetById(id).None?
    modifies repo
    ensures repo.Valid()
    ensures CreateEmployerDto(env, body).Some? ==> Prop(body, "password").Str?
    ensures CreateEmployerDto(env, body).None? ==> response == Failure(400, report) && repo.docs == old(repo.docs)
    ensures CreateEmployerDto(env, body).Some? && old(repo.GetByEmail(Prop(body, "email"))).Some? ==>
      response == Failure(500, EmailInUse) && repo.docs == old(repo.docs)
    ensures CreateEmployerDto(env, body).Some? && old(repo.GetByEmail(Prop(body, "email"))).None? ==>
      var d := Stamp(Registration(CreateEmployerDto(env, body).value, kit.hash(Prop(body, "password").s)), id, now);
      && repo.docs == old(repo.docs) + [d]
      && response == Success(201, EmployerRegistered, OrNull(FilterUserData(Obj(d))))
  {
    var parsedData := CreateEmployerDto(env, body);
    if parsedData.None? {
      return Failure(400, report);
    }
    CreateEmployerAccepts(env, body);
    CreateEmployerKeepsCredentials(env, body);
    var newEmployer := Register(repo, parsedData.value, kit, id, now);
    if newEmployer.Err? {
      return Failure(500, MessageOr(newEmployer.error, InternalError));
    }
    response := Success(201, EmployerRegistered, OrNull(FilterUserData(Obj(newEmployer.value))));
  }

  /** `loginEmployer`'s answer to a session: the token and the employer's
      view. */
  function LoginSuccess(session: Session): Response
  {
    Response(200, map["success" := Bool(true), "message" := Str("Login successful"),
                      "token" := Str(session.token), "data" := OrNull(FilterUserData(Obj(session.account)))])
  }

  /** `loginEmployer`: a body the DTO rejects is a 400 "Invalid credentials";
      service errors keep their status (else 500); success is 200 with the
      token and the employer's view. */
  function LoginEmployer(docs: seq<Doc>, env: Env, body: Json, kit: Kit, secret: Option<string>): (r: Response)
    ensures LoginDto(env, body).Some? ==> Prop(body, "email").Str? && Prop(body, "password").Str?
    ensures LoginDto(env, body).None? ==> r == Failure(400, InvalidCredentials)
    ensures LoginDto(env, body).Some? ==>
      var email := Prop(body, "email").s;
      && (FindByEmail(docs, Str(email)).None? ==> r == Failure(404, LoginNotFound(EmployerAccount)))
      && (r.status == 200 <==> Login(EmployerAccount, docs, email, Prop(body, "password").s, kit, secret).Ok?)
      && (r.status == 200 ==>
            r == LoginSuccess(Login(EmployerAccount, docs, email, Prop(body, "password").s, kit, secret).value))
  {
    var parsedData := LoginDto(env, body);
    if parsedData.None? then ErrorResponse(HttpError(400, InvalidCredentials))
    else
      LoginAccepts(env, body);
      match Login(EmployerAccount, docs, Prop(body, "email").s, Prop(body, "password").s, kit, secret)
      case Err(e) =>
        assert e.HttpError? ==> e.statusCode != 200;
        ErrorResponse(e)
      case Ok(session) => LoginSuccess(session)
  }

  /** A successful login never sends a password back. */
  lemma LoginSendsNoPassword(session: Session)
    ensures var data := LoginSuccess(session).body["data"];
      data.Obj? && "password" !in data.fields
  {
    EmployerViewFields(Obj(session.account));
  }

  /** `getEmployerById`: 200 with the employer's view, or the 404 of the
      service. */
  function GetEmployerById(docs: seq<Doc>, id: string): (r: Response)
    ensures FindById(docs, id).None? ==> r == Failure(404, IdNotFound(EmployerAccount))
    ensures FindById(docs, id).Some? ==>
      r.status == 200 && "data" in r.body && r.body["data"] == Obj(EmployerView(Obj(FindById(docs, id).value)))
  {
    match GetAccount(EmployerAccount, docs, id)
    case Err(e) => ErrorResponse(e)
    case Ok(employer) => Response(200, map["success" := Bool(true), "data" := OrNull(FilterUserData(Obj(employer)))])
  }

  /** `filterUsersArray`: the view of each employer, in order. */
  function FilterUsers(users: seq<Doc>): (r: seq<Json>)
    ensures |r| == |users|
    ensures forall i :: 0 <= i < |users| ==> r[i] == OrNull(FilterUserData(Obj(users[i])))
  {
    if users == [] then [] else [OrNull(FilterUserData(Obj(users[0])))] + FilterUsers(users[1..])
  }

  /** `getAllEmployers`: every employer of the collection, in its order. */
  function GetAllEmployers(docs: seq<Doc>): Response
  {
    Response(200, map["success" := Bool(true), "data" := Arr(FilterUsers(docs))])
  }

  /** The listing shows one view per employer, in the collection's order,
      and none of them carries a password. */
  lemma ListedEmployersShowNoPassword(docs: seq<Doc>)
    ensures var r := GetAllEmployers(docs);
      && r.status == 200 && "data" in r.body && r.body["data"].Arr? && |r.body["data"].items| == |docs|
      && forall i :: 0 <= i < |docs| ==>
           r.body["data"].items[i] == Obj(EmployerView(Obj(docs[i]))) && "password" !in r.body["data"].items[i].fields
  {
    var items := FilterUsers(docs);
    forall i | 0 <= i < |docs|
      ensures items[i] == Obj(EmployerView(Obj(docs[i]))) && "password" !in items[i].fields
    {
      EmployerViewFields(Obj(docs[i]));
    }
  }

  const EmployerUpdated: string := "Employer updated successfully"

  /** `updateEmployer`: the body goes to the service as it is. */
  method UpdateEmployer(repo: Repository, id: string, body: Doc, kit: Kit, now: int) returns (response: Response)
    requires repo.Valid()
    modifies repo
    ensures repo.Valid()
    ensures HashPassword(kit, body).Err? ==>
      response == ErrorResponse(HashPassword(kit, body).error) && repo.docs == old(repo.docs)
    ensures HashPassword(kit, body).Ok? && old(FindIndex(repo.docs, "_id", Str(id))).None? ==>
      response == Failure(404, IdNotFound(EmployerAccount)) && repo.docs == old(repo.docs)
    ensures HashPassword(kit, body).Ok? && old(FindIndex(repo.docs, "_id", Str(id))).Some? ==>
      var k := old(FindIndex(repo.docs, "_id", Str(id))).value;
      var updated := ApplyUpdate(old(repo.docs)[k], HashPassword(kit, body).value, now);
      && repo.docs == old(repo.docs)[k := updated]
      && response == Success(200, EmployerUpdated, Obj(EmployerView(Obj(updated))))
  {
    var updatedEmployer := Update(EmployerAccount, repo, id, body, kit, now);
    if updatedEmployer.Err? {
      return ErrorResponse(updatedEmployer.error);
    }
    assert OrNull(FilterUserData(Obj(updatedEmployer.value))) == Obj(EmployerView(Obj(updatedEmployer.value)));
    response := Success(200, EmployerUpdated, OrNull(FilterUserData(Obj(updatedEmployer.value))));
  }
}

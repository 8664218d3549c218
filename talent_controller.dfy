/** The talent controller: the public view of a talent, the register, login,
    lookup and update handlers, the normalisation of form-data fields before
    an update, and the profile photo upload. */
module TalentController {
  import opened Js
  import opened Text
  import opened Store
  import opened Crypto
  import opened Schema
  import opened CredentialDtos
  import opened TalentDtos
  import opened AccountService
  import opened Http

  /** The fields the public view copies as they are. */
  const CopiedFields: set<string> :=
    {"_id", "fname", "lname", "email", "phoneNumber", "dateOfBirth", "role", "profilePicturePath",
     "cvPath", "googleId", "googleProfilePicture", "location", "title", "summary", "createdAt", "updatedAt"}

  /** The list fields the public view defaults to `[]`. */
  const ListFields: set<string> := {"experiences", "education", "skills", "certifications", "portfolio"}

  /** The public view of a user object. */
  function TalentView(user: Json): Doc
  {
    (map k | k in CopiedFields :: Prop(user, k))
    + (map k | k in ListFields :: Or(Prop(user, k), Arr([])))
    + map["links" := Or(Prop(user, "links"), Obj(map[]))]
  }

  /** `filterUserData`: `null` for a falsy user, otherwise its view. */
  function FilterUserData(user: Json): (r: Option<Doc>)
    ensures r.None? <==> !Truthy(user)
  {
    if !Truthy(user) then None else Some(TalentView(user))
  }

  lemma TalentViewKeys(user: Json)
    ensures TalentView(user).Keys == CopiedFields + ListFields + {"links"}
  {
  }

  /** Every view has the same keys, whatever the user. */
  lemma TalentViewSameKeys(user: Json, other: Json)
    ensures TalentView(user).Keys == TalentView(other).Keys
  {
  }

  lemma PasswordIsNoViewField()
    ensures "password" !in CopiedFields && "password" !in ListFields && "password" != "links"
  {
  }

  /** The view holds the profile fields, the lists and the links, and never
      a password. */
  lemma FilterUserDataKeys(user: Json)
    requires Truthy(user)
    ensures var v := FilterUserData(user).value;
      v.Keys == CopiedFields + ListFields + {"links"} && "password" !in v
  {
    TalentViewKeys(user);
    PasswordIsNoViewField();
  }

  /** Each field of a view: the links and the lists default to `{}` and `[]`
      when missing or falsy, every other field is copied as it is. */
  lemma TalentViewFields(user: Json, k: string)
    requires k in TalentView(user)
    ensures var v := TalentView(user);
      && (k == "links" ==> v[k] == Or(Prop(user, "links"), Obj(map[])))
      && (k != "links" && k in ListFields ==> v[k] == Or(Prop(user, k), Arr([])))
      && (k != "links" && k !in ListFields ==> v[k] == Prop(user, k))
  {
  }

  lemma ViewFieldIdempotent(user: Json, k: string)
    requires k in TalentView(user)
    ensures k in TalentView(Obj(TalentView(user)))
    ensures TalentView(Obj(TalentView(user)))[k] == TalentView(user)[k]
  {
    var v := TalentView(user);
    TalentViewSameKeys(user, Obj(v));
    TalentViewFields(user, k);
    TalentViewFields(Obj(v), k);
  }

  /** Filtering a view again gives the same view. */
  lemma FilterUserDataIdempotent(user: Json)
    requires Truthy(user)
    ensures FilterUserData(Obj(FilterUserData(user).value)) == FilterUserData(user)
  {
    var v := TalentView(user);
    TalentViewSameKeys(user, Obj(v));
    forall k | k in v ensures TalentView(Obj(v))[k] == v[k] {
      ViewFieldIdempotent(user, k);
    }
    assert TalentView(Obj(v)) == v;
  }

  /** The fields an update reads as JSON text from form data. */
  const JsonFields: seq<string> := ["skills", "experiences", "education", "certifications", "portfolio", "links"]

  /** What `updateTalent` makes of one JSON field's value: a non-string is
      kept, a blank string, "[]" or "{}" becomes `[]`, text that parses to an
      object, an array or `null` becomes that value, and anything else is
      dropped (`None`). `parse` is `JSON.parse`, `None` where it throws. */
  function NormalizedValue(value: Json, parse: string -> Option<Json>): Option<Json>
  {
    if !value.Str? then Some(value)
    else if IsBlank(value.s) || value.s == "[]" || value.s == "{}" then Some(Arr([]))
    else
      match parse(value.s)
      case None => None
      case Some(parsed) => if IsObjectLike(parsed) then Some(parsed) else None
  }

  /** The body once the fields `keys` are normalised. */
  function NormalizeKeys(body: Doc, parse: string -> Option<Json>, keys: seq<string>): Doc
  {
    map k | k in body && (k !in keys || NormalizedValue(body[k], parse).Some?) ::
      if k in keys then NormalizedValue(body[k], parse).value else body[k]
  }

  /** Normalising one more field changes that field alone. */
  lemma NormalizeOneMore(body: Doc, parse: string -> Option<Json>, done: seq<string>, f: string)
    requires f !in done
    ensures var cur := NormalizeKeys(body, parse, done);
      var next := NormalizeKeys(body, parse, done + [f]);
      && (f !in cur ==> next == cur)
      && (f in cur && NormalizedValue(cur[f], parse).None? ==> next == cur - {f})
      && (f in cur && NormalizedValue(cur[f], parse).Some? ==> next == cur[f := NormalizedValue(cur[f], parse).value])
  {
    var cur := NormalizeKeys(body, parse, done);
    var next := NormalizeKeys(body, parse, done + [f]);
    assert forall k :: k in done + [f] <==> k in done || k == f;
    if f in cur {
      if NormalizedValue(cur[f], parse).None? {
        assert next == cur - {f};
      } else {
        assert next == cur[f := NormalizedValue(cur[f], parse).value];
      }
    } else {
      assert next == cur;
    }
  }

  lemma JsonFieldsDistinct(i: nat)
    requires i < |JsonFields|
    ensures JsonFields[i] !in JsonFields[..i]
    ensures JsonFields[..i + 1] == JsonFields[..i] + [JsonFields[i]]
  {
  }

  /** The loop of `updateTalent` over the JSON fields, changing the body in
      place. */
  method NormalizeJsonFields(body: Doc, parse: string -> Option<Json>) returns (normalized: Doc)
    ensures normalized == NormalizeKeys(body, parse, JsonFields)
  {
    normalized := body;
    assert normalized == NormalizeKeys(body, parse, JsonFields[..0]);
    var i := 0;
    while i < |JsonFields|
      invariant 0 <= i <= |JsonFields|
      invariant normalized == NormalizeKeys(body, parse, JsonFields[..i])
    {
      var field := JsonFields[i];
      JsonFieldsDistinct(i);
      NormalizeOneMore(body, parse, JsonFields[..i], field);
      if field in normalized {
        var value := normalized[field];
        if value.Str? {
          if IsBlank(value.s) || value.s == "[]" || value.s == "{}" {
            normalized := normalized[field := Arr([])];
          } else {
            var parsed := parse(value.s);
            if parsed.Some? && IsObjectLike(parsed.value) {
              normalized := normalized[field := parsed.value];
            } else {
              normalized := normalized - {field};
            }
          }
        }
      }
      i := i + 1;
    }
    assert JsonFields[..i] == JsonFields;
  }

  /** What normalisation does to each key: other fields are untouched, a
      non-string JSON field is kept, blank text or "[]" or "{}" becomes `[]`,
      and text that does not parse to an object, array or `null` is dropped. */
  lemma NormalizeEffects(body: Doc, parse: string -> Option<Json>, k: string)
    ensures var out := NormalizeKeys(body, parse, JsonFields);
      && (k !in JsonFields ==> (k in out <==> k in body) && (k in body ==> out[k] == body[k]))
      && (k !in body ==> k !in out)
      && (k in JsonFields && k in body && !body[k].Str? ==> k in out && out[k] == body[k])
      && (k in JsonFields && k in body && body[k].Str? && (IsBlank(body[k].s) || body[k].s == "[]" || body[k].s == "{}") ==>
            k in out && out[k] == Arr([]))
      && (k in JsonFields && k in body && body[k].Str? && !(IsBlank(body[k].s) || body[k].s == "[]" || body[k].s == "{}") ==>
            (k in out <==> parse(body[k].s).Some? && IsObjectLike(parse(body[k].s).value))
            && (k in out ==> out[k] == parse(body[k].s).value))
  {
  }

  /** After normalisation no JSON field holds text, so normalising again
      changes nothing. */
  lemma NormalizeIdempotent(body: Doc, parse: string -> Option<Json>)
    ensures var once := NormalizeKeys(body, parse, JsonFields);
      NormalizeKeys(once, parse, JsonFields) == once
  {
    var once := NormalizeKeys(body, parse, JsonFields);
    forall k | k in once && k in JsonFields ensures !once[k].Str? {
      var v := NormalizedValue(body[k], parse);
      assert v.Some? && once[k] == v.value;
    }
  }

  /** The list fields the cleaner filters. */
  const CleanedFields: seq<string> := ["experiences", "education", "certifications", "portfolio"]

  /** The cleaner's test of one list item: an object, array or date is kept
      when some value of it is truthy (a date has none), anything else when it
      is truthy itself. */
  predicate KeepItem(item: Json)
  {
    match item
    case Obj(fields) => exists k :: k in fields && Truthy(fields[k])
    case Arr(items) => exists i :: 0 <= i < |items| && Truthy(items[i])
    case Date(_) => false
    case _ => Truthy(item)
  }

  /** `items.filter(...)` with the cleaner's test. */
  function KeepItems(items: seq<Json>): (kept: seq<Json>)
    ensures |kept| <= |items|
    ensures forall x :: x in kept <==> x in items && KeepItem(x)
  {
    if items == [] then []
    else (if KeepItem(items[0]) then [items[0]] else []) + KeepItems(items[1..])
  }

  /** Filtering twice is filtering once. */
  lemma {:induction false} KeepItemsIdempotent(items: seq<Json>)
    ensures KeepItems(KeepItems(items)) == KeepItems(items)
  {
    if items != [] {
      KeepItemsIdempotent(items[1..]);
      var rest := KeepItems(items[1..]);
      if KeepItem(items[0]) {
        var kept := [items[0]] + rest;
        assert KeepItems(items) == kept;
        assert kept[0] == items[0] && kept[1..] == rest;
        assert KeepItems(kept) == [items[0]] + KeepItems(rest);
      } else {
        assert KeepItems(items) == rest;
      }
    }
  }

  /** The body with the lists under `keys` filtered, keys and other values
      unchanged. */
  function CleanKeys(data: Doc, keys: seq<string>): Doc
  {
    map k | k in data :: if k in keys && data[k].Arr? then Arr(KeepItems(data[k].items)) else data[k]
  }

  function CleanedBody(data: Doc): Doc
  {
    CleanKeys(data, CleanedFields)
  }

  /** `cleaner(field)` */
  function CleanField(data: Doc, field: string): (r: Doc)
    ensures r.Keys == data.Keys
  {
    if field in data && data[field].Arr? then data[field := Arr(KeepItems(data[field].items))] else data
  }

  /** Cleaning one more field changes that field alone. */
  lemma CleanOneMore(data: Doc, done: seq<string>, f: string)
    requires f !in done
    ensures CleanKeys(data, done + [f]) == CleanField(CleanKeys(data, done), f)
  {
    assert forall k :: k in done + [f] <==> k in done || k == f;
  }

  /** `cleanArrays(req.body)`: the cleaner on each of the four list fields,
      changing the body in place. */
  method CleanArrays(data: Doc) returns (cleaned: Doc)
    ensures cleaned == CleanedBody(data)
  {
    ghost var done: seq<string> := [];
    assert data == CleanKeys(data, done);
    cleaned := data;
    CleanOneMore(data, done, "experiences");
    cleaned := CleanField(cleaned, "experiences");
    done := done + ["experiences"];
    CleanOneMore(data, done, "education");
    cleaned := CleanField(cleaned, "education");
    done := done + ["education"];
    CleanOneMore(data, done, "certifications");
    cleaned := CleanField(cleaned, "certifications");
    done := done + ["certifications"];
    CleanOneMore(data, done, "portfolio");
    cleaned := CleanField(cleaned, "portfolio");
    done := done + ["portfolio"];
    assert done == CleanedFields;
  }

  /** The cleaned body keeps every key; a cleaned list holds exactly the items
      that pass the test, and every other value is unchanged. */
  lemma CleanedBodyEffects(data: Doc, k: string)
    ensures var out := CleanedBody(data);
      && out.Keys == data.Keys
      && (k in data && k in CleanedFields && data[k].Arr? ==>
            out[k].Arr? && forall x :: x in out[k].items <==> x in data[k].items && KeepItem(x))
      && (k in data && (k !in CleanedFields || !data[k].Arr?) ==> out[k] == data[k])
  {
  }

  /** `updateTalent`'s file handling: an uploaded resume sets `cvPath` and an
      uploaded profile picture sets `profilePicturePath`. */
  function WithUploadedFile(body: Doc, file: Option<UploadedFile>): Doc
  {
    if file.None? then body
    else if file.value.fieldname == "resume" then body["cvPath" := Str(file.value.filename)]
    else if file.value.fieldname == "profilePicture" then body["profilePicturePath" := Str(file.value.filename)]
    else body
  }

  /** The body `updateTalent` hands to the service. */
  function PreparedBody(body: Doc, file: Option<UploadedFile>, parse: string -> Option<Json>): Doc
  {
    CleanedBody(NormalizeKeys(WithUploadedFile(body, file), parse, JsonFields))
  }

  /** The uploaded file's name reaches the service under the field of its
      kind; without a file the path fields are passed on as sent. */
  lemma UploadedFileReachesService(body: Doc, file: Option<UploadedFile>, parse: string -> Option<Json>)
    ensures var p := PreparedBody(body, file, parse);
      && (file.Some? && file.value.fieldname == "resume" ==>
            "cvPath" in p && p["cvPath"] == Str(file.value.filename))
      && (file.Some? && file.value.fieldname == "profilePicture" ==>
            "profilePicturePath" in p && p["profilePicturePath"] == Str(file.value.filename))
      && (file.None? ==>
            Get(p, "cvPath") == Get(body, "cvPath") && Get(p, "profilePicturePath") == Get(body, "profilePicturePath"))
  {
    var w := WithUploadedFile(body, file);
    NormalizeEffects(w, parse, "cvPath");
    NormalizeEffects(w, parse, "profilePicturePath");
    var n := NormalizeKeys(w, parse, JsonFields);
    CleanedBodyEffects(n, "cvPath");
    CleanedBodyEffects(n, "profilePicturePath");
  }

  const TalentUpdated: string := "Talent updated successfully"

  /** `updateTalent`: prepare the body, then update the talent with the id
      and answer with its view. */
  method UpdateTalent(repo: Repository, id: string, body: Doc, file: Option<UploadedFile>,
                      parse: string -> Option<Json>, kit: Kit, now: int) returns (response: Response)
    requires repo.Valid()
    modifies repo
    ensures repo.Valid()
    ensures var p := PreparedBody(body, file, parse);
      HashPassword(kit, p).Err? ==>
        response == ErrorResponse(HashPassword(kit, p).error) && repo.docs == old(repo.docs)
    ensures var p := PreparedBody(body, file, parse);
      HashPassword(kit, p).Ok? && old(FindIndex(repo.docs, "_id", Str(id))).None? ==>
        response == Failure(404, IdNotFound(TalentAccount)) && repo.docs == old(repo.docs)
    ensures var p := PreparedBody(body, file, parse);
      HashPassword(kit, p).Ok? && old(FindIndex(repo.docs, "_id", Str(id))).Some? ==>
        var k := old(FindIndex(repo.docs, "_id", Str(id))).value;
        var updated := ApplyUpdate(old(repo.docs)[k], HashPassword(kit, p).value, now);
        && repo.docs == old(repo.docs)[k := updated]
        && response == Success(200, TalentUpdated, OrNull(FilterUserData(Obj(updated))))
  {
    var withFile := WithUploadedFile(body, file);
    var normalized := NormalizeJsonFields(withFile, parse);
    var cleaned := CleanArrays(normalized);
    var updated := Update(TalentAccount, repo, id, cleaned, kit, now);
    if updated.Err? {
      return ErrorResponse(updated.error);
    }
    response := Success(200, TalentUpdated, OrNull(FilterUserData(Obj(updated.value))));
  }

  const TalentRegistered: string := "Talent registered successfully"

  /** `registerTalent`: 400 with the validation report when the DTO rejects
      the body, 201 with the new talent's view, and 500 for any service error,
      a duplicate e-mail included. `report` is the prettified validation
      error. */
  method RegisterTalent(repo: Repository, env: Env, body: Json, report: string, kit: Kit, id: string, now: int)
    returns (response: Response)
    requires repo.Valid() && repo.GetById(id).None?
    modifies repo
    ensures repo.Valid()
    ensures CreateTalentDto(env, body).Some? ==> Prop(body, "password").Str?
    ensures CreateTalentDto(env, body).None? ==> response == Failure(400, report) && repo.docs == old(repo.docs)
    ensures CreateTalentDto(env, body).Some? && old(repo.GetByEmail(Prop(body, "email"))).Some? ==>
      response == Failure(500, EmailInUse) && repo.docs == old(repo.docs)
    ensures CreateTalentDto(env, body).Some? && old(repo.GetByEmail(Prop(body, "email"))).None? ==>
      var d := Stamp(Registration(CreateTalentDto(env, body).value, kit.hash(Prop(body, "password").s)), id, now);
      && repo.docs == old(repo.docs) + [d]
      && response == Success(201, TalentRegistered, OrNull(FilterUserData(Obj(d))))
  {
    var parsedData := CreateTalentDto(env, body);
    if parsedData.None? {
      return Failure(400, report);
    }
    CreateTalentAccepts(env, body);
    CreateTalentOutput(env, body);
    assert Get(parsedData.value, "email") == Prop(body, "email");
    assert Get(parsedData.value, "password") == Prop(body, "password");
    var newTalent := Register(repo, parsedData.value, kit, id, now);
    if newTalent.Err? {
      return Failure(500, MessageOr(newTalent.error, InternalError));
    }
    response := Success(201, TalentRegistered, OrNull(FilterUserData(Obj(newTalent.value))));
  }

  /** `loginTalent`'s answer to a session: the token and the talent's view. */
  function LoginSuccess(session: Session): Response
  {
    Response(200, map["success" := Bool(true), "message" := Str("Login successful"),
                      "token" := Str(session.token), "data" := OrNull(FilterUserData(Obj(session.account)))])
  }

  /** `loginTalent`: a body the DTO rejects is a 400 "Invalid credentials";
      service errors keep their status (else 500); success is 200 with the
      token and the talent's view. */
  function LoginTalent(docs: seq<Doc>, env: Env, body: Json, kit: Kit, secret: Option<string>): (r: Response)
    ensures LoginDto(env, body).Some? ==> Prop(body, "email").Str? && Prop(body, "password").Str?
    ensures LoginDto(env, body).None? ==> r == Failure(400, InvalidCredentials)
    ensures LoginDto(env, body).Some? ==>
      var email := Prop(body, "email").s;
      && (FindByEmail(docs, Str(email)).None? ==> r == Failure(404, LoginNotFound(TalentAccount)))
      && (r.status == 200 <==> Login(TalentAccount, docs, email, Prop(body, "password").s, kit, secret).Ok?)
      && (r.status == 200 ==>
            r == LoginSuccess(Login(TalentAccount, docs, email, Prop(body, "password").s, kit, secret).value))
  {
    var parsedData := LoginDto(env, body);
    if parsedData.None? then ErrorResponse(HttpError(400, InvalidCredentials))
    else
      LoginAccepts(env, body);
      match Login(TalentAccount, docs, Prop(body, "email").s, Prop(body, "password").s, kit, secret)
      case Err(e) =>
        assert e.HttpError? ==> e.statusCode != 200;
        ErrorResponse(e)
      case Ok(session) => LoginSuccess(session)
  }

  /** A successful login never sends a password back. */
  lemma LoginSendsNoPassword(session: Session)
    ensures var data := LoginSuccess(session).body["data"];
      data.Obj? && "password" !in data.fields
  {
    FilterUserDataKeys(Obj(session.account));
  }

  /** `getTalentById`: 200 with the talent's view, or the 404 of the service. */
  function GetTalentById(docs: seq<Doc>, id: string): (r: Response)
    ensures FindById(docs, id).None? ==> r == Failure(404, IdNotFound(TalentAccount))
    ensures FindById(docs, id).Some? ==>
      r.status == 200 && "data" in r.body && r.body["data"] == Obj(FilterUserData(Obj(FindById(docs, id).value)).value)
  {
    match GetAccount(TalentAccount, docs, id)
    case Err(e) => ErrorResponse(e)
    case Ok(talent) => Response(200, map["success" := Bool(true), "data" := OrNull(FilterUserData(Obj(talent)))])
  }

  /** `filterUsersArray`: the view of each talent, in order. */
  function FilterUsers(users: seq<Doc>): (r: seq<Json>)
    ensures |r| == |users|
    ensures forall i :: 0 <= i < |users| ==> r[i] == OrNull(FilterUserData(Obj(users[i])))
  {
    if users == [] then [] else [OrNull(FilterUserData(Obj(users[0])))] + FilterUsers(users[1..])
  }

  /** `getAllTalents`: every talent of the collection, in its order. */
  function GetAllTalents(docs: seq<Doc>): Response
  {
    Response(200, map["success" := Bool(true), "data" := Arr(FilterUsers(docs))])
  }

  /** The listing shows one view per talent, in the collection's order, and
      none of them carries a password. */
  lemma ListedTalentsShowNoPassword(docs: seq<Doc>)
    ensures var r := GetAllTalents(docs);
      && r.status == 200 && "data" in r.body && r.body["data"].Arr? && |r.body["data"].items| == |docs|
      && forall i :: 0 <= i < |docs| ==>
           r.body["data"].items[i] == Obj(TalentView(Obj(docs[i]))) && "password" !in r.body["data"].items[i].fields
  {
    var items := FilterUsers(docs);
    forall i | 0 <= i < |docs|
      ensures items[i] == Obj(TalentView(Obj(docs[i]))) && "password" !in items[i].fields
    {
      FilterUserDataKeys(Obj(docs[i]));
    }
  }

  const NoUserInToken: string := "Unauthorized - User not found in token"

  /** `getCurrentUserProfile`: `user` is `req.user` as `protect` left it.
      Reading `_id` of a missing user throws inside the `try`, hence 500. */
  function GetCurrentUserProfile(docs: seq<Doc>, user: Json): (r: Response)
    ensures user.Undefined? || user.Null? ==>
      r == Failure(500, "Cannot read properties of " + Display(user) + " (reading '_id')")
    ensures !user.Undefined? && !user.Null? && !Truthy(Prop(user, "_id")) ==> r == Failure(401, NoUserInToken)
    ensures Truthy(Prop(user, "_id")) ==> r == GetTalentById(docs, Display(Prop(user, "_id")))
  {
    if user.Undefined? || user.Null? then
      ErrorResponse(PlainError("Cannot read properties of " + Display(user) + " (reading '_id')"))
    else if !Truthy(Prop(user, "_id")) then Failure(401, NoUserInToken)
    else GetTalentById(docs, Display(Prop(user, "_id")))
  }

  /** A talent that `protect` let through sees its own profile. */
  lemma ProtectedTalentSeesOwnProfile(docs: seq<Doc>, id: string)
    requires id != "" && FindById(docs, id).Some?
    ensures var user := Obj(FindById(docs, id).value["userId" := Str(id)]);
      GetCurrentUserProfile(docs, user).status == 200
      && GetCurrentUserProfile(docs, user).body["data"] == Obj(FilterUserData(Obj(FindById(docs, id).value)).value)
  {
    var account := FindById(docs, id).value;
    assert Prop(Obj(account["userId" := Str(id)]), "_id") == IdOf(account) == Str(id);
  }

  /** What `uploadProfilePhoto` does once its guards have run: answer 400
      with a message, or update the user. */
  datatype PhotoPlan = PhotoRejected(message: string) | PhotoUpdate(updates: Doc)

  const NoPhoto: string := "Please upload a photo file"
  const InvalidFileType: string := "Invalid file type uploaded"

  function TooLarge(maxFileUpload: int): string
  {
    "Please upload an image less than " + IntToString(maxFileUpload) + " bytes"
  }

  /** The guards of `uploadProfilePhoto` and the update it applies, as
      written: a resume, once past the guards, is written to
      `profilePicturePath` like a photo. `maxFileUpload` is
      `parseInt(MAX_FILE_UPLOAD || '0', 10)`, `None` for NaN. */
  function UploadProfilePhotoAsWritten(file: Option<UploadedFile>, maxFileUpload: Option<int>): PhotoPlan
  {
    if file.None? then PhotoRejected(NoPhoto)
    else if maxFileUpload.Some? && maxFileUpload.value > 0 && file.value.size > maxFileUpload.value then
      PhotoRejected(TooLarge(maxFileUpload.value))
    else if file.value.fieldname != "resume" && file.value.fieldname != "profilePicture" then
      PhotoRejected(InvalidFileType)
    else PhotoUpdate(map["profilePicturePath" := Str(file.value.filename)])
  }

  /** As written, an uploaded resume replaces the profile picture and leaves
      the CV path alone. */
  lemma ResumeReplacesProfilePicture(filename: string, size: nat, maxFileUpload: Option<int>)
    requires maxFileUpload.None? || maxFileUpload.value <= 0 || size <= maxFileUpload.value
    ensures var plan := UploadProfilePhotoAsWritten(Some(UploadedFile("resume", filename, size)), maxFileUpload);
      plan == PhotoUpdate(map["profilePicturePath" := Str(filename)]) && "cvPath" !in plan.updates
  {
  }

  /** The guards as written, with the update the resume branch evidently
      intends: a resume goes to `cvPath`, a photo to `profilePicturePath`. */
  function PhotoPlanFor(file: Option<UploadedFile>, maxFileUpload: Option<int>): (plan: PhotoPlan)
    ensures plan.PhotoRejected? <==> UploadProfilePhotoAsWritten(file, maxFileUpload).PhotoRejected?
    ensures plan.PhotoRejected? ==> plan == UploadProfilePhotoAsWritten(file, maxFileUpload)
  {
    if file.None? then PhotoRejected(NoPhoto)
    else if maxFileUpload.Some? && maxFileUpload.value > 0 && file.value.size > maxFileUpload.value then
      PhotoRejected(TooLarge(maxFileUpload.value))
    else if file.value.fieldname == "resume" then PhotoUpdate(map["cvPath" := Str(file.value.filename)])
    else if file.value.fieldname == "profilePicture" then PhotoUpdate(map["profilePicturePath" := Str(file.value.filename)])
    else PhotoRejected(InvalidFileType)
  }

  /** The upload is rejected exactly when there is no file, the file exceeds
      a positive limit, or it comes from neither field; otherwise its name is
      written to the path field of its kind and nothing else. */
  lemma PhotoPlanRules(file: Option<UploadedFile>, maxFileUpload: Option<int>)
    ensures var plan := PhotoPlanFor(file, maxFileUpload);
      && (file.None? ==> plan == PhotoRejected(NoPhoto))
      && (plan.PhotoRejected? <==>
            || file.None?
            || (maxFileUpload.Some? && maxFileUpload.value > 0 && file.value.size > maxFileUpload.value)
            || (file.value.fieldname != "resume" && file.value.fieldname != "profilePicture"))
      && (plan.PhotoUpdate? && file.value.fieldname == "resume" ==>
            plan.updates == map["cvPath" := Str(file.value.filename)])
      && (plan.PhotoUpdate? && file.value.fieldname == "profilePicture" ==>
            plan.updates == map["profilePicturePath" := Str(file.value.filename)])
  {
  }

  /** `res.status(400).json({ success: false, statusCode: 400, data: { message } })` */
  function PhotoFailure(message: string): Response
  {
    Response(400, map["success" := Bool(false), "statusCode" := Num(400), "data" := Obj(map["message" := Str(message)])])
  }

  /** As written, the upload is rejected exactly when there is no file, the
      file exceeds a positive limit, or it comes from neither field; every
      accepted file, a resume included, sets `profilePicturePath` alone. */
  lemma AsWrittenPlanRules(file: Option<UploadedFile>, maxFileUpload: Option<int>)
    ensures var plan := UploadProfilePhotoAsWritten(file, maxFileUpload);
      && (plan.PhotoRejected? <==>
            || file.None?
            || (maxFileUpload.Some? && maxFileUpload.value > 0 && file.value.size > maxFileUpload.value)
            || (file.value.fieldname != "resume" && file.value.fieldname != "profilePicture"))
      && (plan.PhotoUpdate? ==> plan.updates == map["profilePicturePath" := Str(file.value.filename)])
      && (plan.PhotoUpdate? && file.value.fieldname == "profilePicture" ==> plan == PhotoPlanFor(file, maxFileUpload))
  {
  }

  const PhotoUploaded: string := "Profile photo uploaded successfully"

  /** `uploadProfilePhoto` for the user `userId`, as written: whichever of
      the two fields the file came from, its name is written to
      `profilePicturePath`, `cvPath` is left alone, and the new picture path
      is answered. An error of the update is passed on to the error
      middleware (`Err`). */
  method UploadProfilePhoto(repo: Repository, userId: string, file: Option<UploadedFile>, maxFileUpload: Option<int>,
                            kit: Kit, now: int) returns (r: Outcome<Response>)
    requires repo.Valid()
    modifies repo
    ensures repo.Valid()
    ensures UploadProfilePhotoAsWritten(file, maxFileUpload).PhotoRejected? ==>
      r == Ok(PhotoFailure(UploadProfilePhotoAsWritten(file, maxFileUpload).message)) && repo.docs == old(repo.docs)
    ensures UploadProfilePhotoAsWritten(file, maxFileUpload).PhotoUpdate? && old(FindIndex(repo.docs, "_id", Str(userId))).None? ==>
      r == Err(HttpError(404, IdNotFound(TalentAccount))) && repo.docs == old(repo.docs)
    ensures UploadProfilePhotoAsWritten(file, maxFileUpload).PhotoUpdate? && old(FindIndex(repo.docs, "_id", Str(userId))).Some? ==>
      var k := old(FindIndex(repo.docs, "_id", Str(userId))).value;
      var updated := ApplyUpdate(old(repo.docs)[k], map["profilePicturePath" := Str(file.value.filename)], now);
      && repo.docs == old(repo.docs)[k := updated]
      && updated["profilePicturePath"] == Str(file.value.filename)
      && Get(updated, "cvPath") == Get(old(repo.docs)[k], "cvPath")
      && r == Ok(Response(200, map["success" := Bool(true), "data" := Str(file.value.filename),
                                   "message" := Str(PhotoUploaded)]))
  {
    var plan := UploadProfilePhotoAsWritten(file, maxFileUpload);
    if plan.PhotoRejected? {
      return Ok(PhotoFailure(plan.message));
    }
    var updates := map["profilePicturePath" := Str(file.value.filename)];
    assert plan.updates == updates;
    assert !Truthy(Get(updates, "password"));
    var updatedUser := Update(TalentAccount, repo, userId, updates, kit, now);
    if updatedUser.Err? {
      return Err(updatedUser.error);
    }
    assert Get(updatedUser.value, "profilePicturePath") == Str(file.value.filename);
    r := Ok(Response(200, map["success" := Bool(true), "data" := Get(updatedUser.value, "profilePicturePath"),
                              "message" := Str(PhotoUploaded)]));
  }
}

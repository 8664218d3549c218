/** The talent and the employer account services. The two services run the
    same code over their own collection; they differ only in the 404 messages
    and in the fields of the login token. */
module AccountService {
  import opened Js
  import opened Store
  import opened Crypto

  datatype AccountKind = TalentAccount | EmployerAccount

  const EmailInUse: string := "Email already in use"
  const InvalidCredentials: string := "Invalid credentials"

  /** How long a talent or employer token lives. */
  const SessionLifetime: string := "1h"

  /** The 404 message of a login whose e-mail is unknown. */
  function LoginNotFound(kind: AccountKind): string
  {
    if kind == TalentAccount then "Talent not found" else "User not found"
  }

  /** The 404 message of a lookup or an update whose id is unknown. */
  function IdNotFound(kind: AccountKind): string
  {
    if kind == TalentAccount then "Talent not found" else "Employer not found"
  }

  /** The document registration saves: the DTO output with the password
      replaced by its hash and `confirmPassword` removed. */
  function Registration(data: Doc, hashed: string): (d: Doc)
    ensures "confirmPassword" !in d && "password" in d && d["password"] == Str(hashed)
    ensures forall k :: k in d <==> (k in data && k != "confirmPassword") || k == "password"
    ensures forall k :: k in data && k != "password" && k != "confirmPassword" ==> d[k] == data[k]
  {
    data["password" := Str(hashed)] - {"confirmPassword"}
  }

  /** `registerTalent` / `registerEmployer`. `id` and `now` are the id and
      the time the database assigns to the new document. */
  method Register(repo: Repository, data: Doc, kit: Kit, id: string, now: int) returns (r: Outcome<Doc>)
    requires repo.Valid() && repo.GetById(id).None?
    modifies repo
    ensures repo.Valid()
    ensures old(repo.GetByEmail(Get(data, "email"))).Some? ==>
      r == Err(HttpError(409, EmailInUse)) && repo.docs == old(repo.docs)
    ensures old(repo.GetByEmail(Get(data, "email"))).None? && !Get(data, "password").Str? ==>
      r.Err? && repo.docs == old(repo.docs)
    ensures old(repo.GetByEmail(Get(data, "email"))).None? && Get(data, "password").Str? ==>
      r == Ok(Stamp(Registration(data, kit.hash(Get(data, "password").s)), id, now))
      && repo.docs == old(repo.docs) + [r.value]
    ensures UniqueEmails(old(repo.docs)) ==> UniqueEmails(repo.docs)
  {
    var checkEmail := repo.GetByEmail(Get(data, "email"));
    if checkEmail.Some? {
      return Err(HttpError(409, EmailInUse));
    }
    var hashed := Hash(kit, Get(data, "password"));
    if hashed.Err? {
      return Err(hashed.error);
    }
    var withHash := data["password" := Str(hashed.value)];
    var dataToSave := withHash - {"confirmPassword"};
    var d := repo.Create(dataToSave, id, now);
    if UniqueEmails(old(repo.docs)) {
      assert Get(d, "email") == Get(data, "email");
      AppendFreshEmail(old(repo.docs), d);
    }
    r := Ok(d);
  }

  /** The fields of the login token: `{id, email, fname, lname, role}` for a
      talent, `{id, email, companyName, role}` for an employer. */
  function Payload(kind: AccountKind, account: Doc): (p: Doc)
    ensures "password" !in p
    ensures "id" in p && p["id"] == IdOf(account)
    ensures forall k :: k in p && k != "id" ==> p[k] == Get(account, k)
  {
    if kind == TalentAccount then
      map["id" := IdOf(account), "email" := Get(account, "email"), "fname" := Get(account, "fname"),
          "lname" := Get(account, "lname"), "role" := Get(account, "role")]
    else
      map["id" := IdOf(account), "email" := Get(account, "email"),
          "companyName" := Get(account, "companyName"), "role" := Get(account, "role")]
  }

  /** `account.password || ""`: what the login compares against. */
  function StoredPassword(account: Doc): (v: Json)
    ensures "password" !in account ==> v == Str("")
    ensures Truthy(Get(account, "password")) ==> v == account["password"]
  {
    Or(Get(account, "password"), Str(""))
  }

  datatype Session = Session(token: string, account: Doc)

  /** `loginTalent` / `loginEmployer`. `secret` is JWT_SECRET. */
  function Login(kind: AccountKind, docs: seq<Doc>, email: string, password: string, kit: Kit, secret: Option<string>): (r: Outcome<Session>)
    ensures FindByEmail(docs, Str(email)).None? ==> r == Err(HttpError(404, LoginNotFound(kind)))
    ensures FindByEmail(docs, Str(email)).Some? && StoredPassword(FindByEmail(docs, Str(email)).value).Str?
            && !kit.compare(password, StoredPassword(FindByEmail(docs, Str(email)).value).s) ==>
      r == Err(HttpError(401, InvalidCredentials))
    ensures r.Ok? <==>
      && FindByEmail(docs, Str(email)).Some?
      && StoredPassword(FindByEmail(docs, Str(email)).value).Str?
      && kit.compare(password, StoredPassword(FindByEmail(docs, Str(email)).value).s)
      && secret.Some? && secret.value != ""
    ensures r.Ok? ==>
      var account := FindByEmail(docs, Str(email)).value;
      r.value == Session(kit.sign(Payload(kind, account), secret.value, SessionLifetime), account)
  {
    var found := FindByEmail(docs, Str(email));
    if found.None? then Err(HttpError(404, LoginNotFound(kind)))
    else
      var account := found.value;
      var validPassword := Compare(kit, Str(password), StoredPassword(account));
      if validPassword.Err? then Err(validPassword.error)
      else if !validPassword.value then Err(HttpError(401, InvalidCredentials))
      else
        var token := Sign(kit, Payload(kind, account), secret, SessionLifetime);
        if token.Err? then Err(token.error)
        else Ok(Session(token.value, account))
  }

  /** `getTalentById` / `getEmployerById` */
  function GetAccount(kind: AccountKind, docs: seq<Doc>, id: string): (r: Outcome<Doc>)
    ensures r.Ok? <==> FindById(docs, id).Some?
    ensures r.Ok? ==> r.value == FindById(docs, id).value && IdOf(r.value) == Str(id)
    ensures r.Err? ==> r.error == HttpError(404, IdNotFound(kind))
  {
    match FindById(docs, id)
    case None => Err(HttpError(404, IdNotFound(kind)))
    case Some(d) => Ok(d)
  }

  /** `if (updates.password) updates.password = await bcryptjs.hash(...)`:
      a truthy password is replaced by its hash, every other key is kept. */
  function HashPassword(kit: Kit, updates: Doc): (r: Outcome<Doc>)
    ensures !Truthy(Get(updates, "password")) ==> r == Ok(updates)
    ensures Truthy(Get(updates, "password")) ==> (r.Ok? <==> updates["password"].Str?)
    ensures r.Ok? && Truthy(Get(updates, "password")) ==>
      r.value.Keys == updates.Keys && r.value["password"] == Str(kit.hash(updates["password"].s))
      && forall k :: k in updates && k != "password" ==> r.value[k] == updates[k]
  {
    if Truthy(Get(updates, "password")) then
      var hashed := Hash(kit, updates["password"]);
      if hashed.Err? then Err(hashed.error) else Ok(updates["password" := Str(hashed.value)])
    else Ok(updates)
  }

  /** `updateTalent` / `updateEmployer`: hash a truthy password, then apply
      the updates to the document with the id (404 when there is none). */
  method Update(kind: AccountKind, repo: Repository, id: string, updates: Doc, kit: Kit, now: int) returns (r: Outcome<Doc>)
    requires repo.Valid()
    modifies repo
    ensures repo.Valid()
    ensures HashPassword(kit, updates).Err? ==>
      r == Err(HashPassword(kit, updates).error) && repo.docs == old(repo.docs)
    ensures HashPassword(kit, updates).Ok? && old(FindIndex(repo.docs, "_id", Str(id))).None? ==>
      r == Err(HttpError(404, IdNotFound(kind))) && repo.docs == old(repo.docs)
    ensures HashPassword(kit, updates).Ok? && old(FindIndex(repo.docs, "_id", Str(id))).Some? ==>
      var k := old(FindIndex(repo.docs, "_id", Str(id))).value;
      r == Ok(ApplyUpdate(old(repo.docs)[k], HashPassword(kit, updates).value, now))
      && repo.docs == old(repo.docs)[k := r.value]
  {
    var hashed := HashPassword(kit, updates);
    if hashed.Err? {
      return Err(hashed.error);
    }
    var updated := repo.UpdateById(id, hashed.value, now);
    if updated.None? {
      return Err(HttpError(404, IdNotFound(kind)));
    }
    r := Ok(updated.value);
  }

  /** Registering and then logging in with the same e-mail and password
      yields a session for the new document, provided the password matches
      its own hash and the secret is set. */
  lemma RegisterThenLogin(kind: AccountKind, docs: seq<Doc>, data: Doc, kit: Kit, id: string, now: int,
                          secret: Option<string>, email: string, password: string)
    requires FindByEmail(docs, Str(email)).None?
    requires Get(data, "email") == Str(email) && Get(data, "password") == Str(password)
    requires kit.compare(password, kit.hash(password))
    requires secret.Some? && secret.value != ""
    ensures var d := Stamp(Registration(data, kit.hash(password)), id, now);
      Login(kind, docs + [d], email, password, kit, secret)
        == Ok(Session(kit.sign(Payload(kind, d), secret.value, SessionLifetime), d))
  {
    var d := Stamp(Registration(data, kit.hash(password)), id, now);
    assert Get(d, "email") == Str(email);
    FindOneAppend(docs, d, "email", Str(email));
    assert StoredPassword(d) == Str(kit.hash(password));
  }

  /** A registered document is found by its id. */
  lemma RegisterThenGet(kind: AccountKind, docs: seq<Doc>, data: Doc, hashed: string, id: string, now: int)
    requires FindById(docs, id).None?
    ensures var d := Stamp(Registration(data, hashed), id, now);
      GetAccount(kind, docs + [d], id) == Ok(d)
  {
    var d := Stamp(Registration(data, hashed), id, now);
    FindOneAppend(docs, d, "_id", Str(id));
  }

  /** A password change takes effect: once an update has set the password of
      the `k`-th document to the hash of `password`, logging in with that
      password (and the unchanged e-mail) yields a session for the updated
      document, provided e-mails are unique. */
  lemma UpdateThenLogin(kind: AccountKind, docs: seq<Doc>, k: nat, updates: Doc, kit: Kit, now: int,
                        secret: Option<string>, email: string, password: string)
    requires k < |docs| && UniqueEmails(docs)
    requires Get(docs[k], "email") == Str(email) && "email" !in updates
    requires Get(updates, "password") == Str(password) && password != ""
    requires kit.compare(password, kit.hash(password))
    requires secret.Some? && secret.value != ""
    ensures HashPassword(kit, updates).Ok?
    ensures var u := ApplyUpdate(docs[k], HashPassword(kit, updates).value, now);
      Login(kind, docs[k := u], email, password, kit, secret)
        == Ok(Session(kit.sign(Payload(kind, u), secret.value, SessionLifetime), u))
  {
    var h := HashPassword(kit, updates).value;
    var u := ApplyUpdate(docs[k], h, now);
    assert Get(u, "email") == Str(email);
    var after := docs[k := u];
    forall j | 0 <= j < |after| && j != k ensures Get(after[j], "email") != Str(email) {
      if j < k {
        assert Get(docs[j], "email") != Get(docs[k], "email");
      } else {
        assert Get(docs[k], "email") != Get(docs[j], "email");
      }
    }
    FindOneOnly(after, k, "email", Str(email));
    assert StoredPassword(u) == Str(kit.hash(password));
  }
}

/** Seeding the first administrator at start-up: a check-then-insert on the
    admin collection. */
module AdminSeed {
  import opened Js
  import opened Store
  import opened Crypto

  const DefaultAdminEmail: string := "admin@jobmitra.com"
  const DefaultAdminPassword: string := "123456"

  /** `process.env.NAME || fallback`: an unset or empty variable falls back. */
  function EnvOr(variable: Option<string>, fallback: string): (r: string)
    ensures variable.Some? && variable.value != "" ==> r == variable.value
    ensures variable.None? || variable.value == "" ==> r == fallback
  {
    if variable.Some? && variable.value != "" then variable.value else fallback
  }

  /** The seeded administrator's fields. */
  function SeedRecord(email: string, hashed: string): Doc
  {
    map["email" := Str(email), "password" := Str(hashed), "role" := Str("admin")]
  }

  /** The stored document keeps the seeded fields. */
  lemma StampedSeedRecord(email: string, hashed: string, id: string, now: int)
    ensures var d := Stamp(SeedRecord(email, hashed), id, now);
      && Get(d, "email") == Str(email) && Get(d, "password") == Str(hashed) && Get(d, "role") == Str("admin")
  {
    var data := SeedRecord(email, hashed);
    assert "email" in data && "password" in data && "role" in data;
    assert "email" != "_id" && "email" != "createdAt" && "email" != "updatedAt";
    assert "password" != "_id" && "password" != "createdAt" && "password" != "updatedAt";
    assert "role" != "_id" && "role" != "createdAt" && "role" != "updatedAt";
  }

  /** The admin collection after seeding: unchanged when an administrator
      with the e-mail exists, otherwise one more document at the end. */
  function Seeded(docs: seq<Doc>, email: string, hashed: string, id: string, now: int): (r: seq<Doc>)
    ensures FindByEmail(r, Str(email)).Some?
    ensures FindByEmail(docs, Str(email)).Some? ==> r == docs
    ensures FindByEmail(docs, Str(email)).None? ==>
      && |r| == |docs| + 1 && r[..|docs|] == docs
      && Get(r[|docs|], "email") == Str(email)
      && Get(r[|docs|], "password") == Str(hashed)
      && Get(r[|docs|], "role") == Str("admin")
  {
    if FindByEmail(docs, Str(email)).Some? then docs
    else
      var d := Stamp(SeedRecord(email, hashed), id, now);
      StampedSeedRecord(email, hashed, id, now);
      FindOneAppend(docs, d, "email", Str(email));
      assert (docs + [d])[..|docs|] == docs;
      docs + [d]
  }

  /** `seedAdminUser()`: `adminEmail` and `adminPassword` are the
      `ADMIN_EMAIL` and `ADMIN_PASSWORD` variables; the new document's `_id`
      and time stamp are `id` and `now`. */
  method SeedAdminUser(admins: Repository, adminEmail: Option<string>, adminPassword: Option<string>,
                       kit: Kit, id: string, now: int)
    requires admins.Valid() && admins.GetById(id).None?
    modifies admins
    ensures admins.Valid()
    ensures admins.docs == Seeded(old(admins.docs), EnvOr(adminEmail, DefaultAdminEmail),
                                  kit.hash(EnvOr(adminPassword, DefaultAdminPassword)), id, now)
    ensures UniqueEmails(old(admins.docs)) ==> UniqueEmails(admins.docs)
  {
    var existingAdmin := admins.GetByEmail(Str(EnvOr(adminEmail, DefaultAdminEmail)));
    if existingAdmin.Some? {
      return;
    }
    var email := EnvOr(adminEmail, DefaultAdminEmail);
    var password := EnvOr(adminPassword, DefaultAdminPassword);
    var hashedPassword := kit.hash(password);
    var newAdmin := admins.Create(SeedRecord(email, hashedPassword), id, now);
    StampedSeedRecord(email, hashedPassword, id, now);
    if UniqueEmails(old(admins.docs)) {
      AppendFreshEmail(old(admins.docs), newAdmin);
    }
  }

  /** Seeding is idempotent: a second run, whatever password, id and time it
      is given, leaves the collection as the first run left it. */
  lemma SeedingTwice(docs: seq<Doc>, email: string, hashed: string, id: string, now: int,
                     hashed': string, id': string, now': int)
    ensures var once := Seeded(docs, email, hashed, id, now);
      Seeded(once, email, hashed', id', now') == once
  {
  }

  /** After seeding a collection whose e-mails are unique, exactly one
      administrator has the seeded e-mail. */
  lemma {:induction false} SeededAdminIsUnique(docs: seq<Doc>, email: string, hashed: string, id: string, now: int)
    requires UniqueEmails(docs)
    ensures var r := Seeded(docs, email, hashed, id, now);
      exists k :: 0 <= k < |r| && Get(r[k], "email") == Str(email)
        && forall j :: 0 <= j < |r| && j != k ==> Get(r[j], "email") != Str(email)
  {
    var r := Seeded(docs, email, hashed, id, now);
    var k := FindIndex(r, "email", Str(email)).value;
    if FindByEmail(docs, Str(email)).None? {
      var d := Stamp(SeedRecord(email, hashed), id, now);
      StampedSeedRecord(email, hashed, id, now);
      AppendFreshEmail(docs, d);
    }
    assert UniqueEmails(r);
    forall j | 0 <= j < |r| && j != k ensures Get(r[j], "email") != Str(email) {
      if j < k {
      } else {
        assert Get(r[k], "email") != Get(r[j], "email");
      }
    }
  }

  /** With neither variable set, the seeded administrator is
      admin@jobmitra.com and its stored password is the hash of "123456";
      an empty variable counts as unset. */
  lemma SeedDefaults(docs: seq<Doc>, kit: Kit, id: string, now: int)
    requires FindByEmail(docs, Str(DefaultAdminEmail)).None?
    ensures var r := Seeded(docs, EnvOr(Some(""), DefaultAdminEmail), kit.hash(EnvOr(None, DefaultAdminPassword)), id, now);
      && Get(r[|docs|], "email") == Str("admin@jobmitra.com")
      && Get(r[|docs|], "password") == Str(kit.hash("123456"))
  {
  }
}

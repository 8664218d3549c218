/** The authentication middleware: `protect` turns an `Authorization` header
    into the account it names, probing the talent, employer and admin
    collections in that order; `authorize(...roles)` admits a resolved account
    only when its role is on the allow-list. */
module Auth {
  import opened Js
  import opened Text
  import opened Store

  const NotAuthorized: string := "Not authorized to access this route"
  const SecretMissing: string := "JWT secret not configured on server"

  /** The `token` that `protect` extracts: the header must be present and
      non-empty and, lower-cased, start with "bearer"; the token is the second
      space-separated piece (absent when there is no space). */
  function ExtractToken(header: Option<string>): Option<string>
  {
    if header.Some? && header.value != "" && StartsWith(LowerStr(header.value), "bearer")
    then SecondPiece(header.value, ' ')
    else None
  }

  /** What the extraction yields, stated without `split`: a token exists iff
      the header qualifies and has a space, and it is the text between the
      first space and the next one. */
  lemma ExtractTokenShape(header: Option<string>)
    ensures ExtractToken(header).Some? <==>
      header.Some? && header.value != "" && StartsWith(LowerStr(header.value), "bearer") && ' ' in header.value
    ensures ExtractToken(header).Some? ==>
      var h := header.value;
      var rest := h[IndexOf(h, ' ').value + 1..];
      ExtractToken(header).value == (if ' ' in rest then rest[..IndexOf(rest, ' ').value] else rest)
  {
    if header.Some? {
      SecondPieceBetweenSeparators(header.value, ' ');
    }
  }

  /** A missing header, a header with another scheme and a bare "Bearer"
      yield no token. */
  lemma RejectedHeaders()
    ensures ExtractToken(None) == None
    ensures ExtractToken(Some("InvalidFormat token")) == None
    ensures ExtractToken(Some("Bearer")) == None
  {
    var h := "InvalidFormat token";
    var l := LowerStr(h);
    assert l[0] == Lower(h[0]) == 'i';
    assert !StartsWith(l, "bearer");
    var b := "Bearer";
    assert forall i :: 0 <= i < |b| ==> b[i] != ' ';
    assert ' ' !in b;
    ExtractTokenShape(Some(b));
  }

  /** `findUserById`: the first collection, in the order talent, employer,
      admin, that holds a document with this id supplies the account. */
  function FindUserById(talents: seq<Doc>, employers: seq<Doc>, admins: seq<Doc>, id: string): (r: Option<Doc>)
    ensures r.Some? <==> FindById(talents, id).Some? || FindById(employers, id).Some? || FindById(admins, id).Some?
    ensures r.Some? ==> IdOf(r.value) == Str(id)
    ensures FindById(talents, id).Some? ==> r == FindById(talents, id)
    ensures FindById(talents, id).None? && FindById(employers, id).Some? ==> r == FindById(employers, id)
    ensures FindById(talents, id).None? && FindById(employers, id).None? ==> r == FindById(admins, id)
  {
    var t := FindById(talents, id);
    if t.Some? then t
    else
      var e := FindById(employers, id);
      if e.Some? then e else FindById(admins, id)
  }

  /** An id held by a talent document resolves to the talent even when an
      employer or admin document shares it. */
  lemma TalentShadowsOtherKinds(talents: seq<Doc>, employers: seq<Doc>, admins: seq<Doc>, id: string, j: nat)
    requires j < |talents| && IdOf(talents[j]) == Str(id)
    ensures FindUserById(talents, employers, admins, id).Some?
    ensures FindUserById(talents, employers, admins, id).value in talents
  {
    assert FindOne(talents, "_id", Str(id)).Some?;
  }

  /** The request/response pair the middleware works on. */
  class Exchange {
    var user: Option<Doc>   // req.user
    var status: int         // status of the response sent; 0 while none is
    var body: Doc           // JSON body of that response
    var nextCalls: nat      // how many times next() ran

    constructor ()
      ensures user == None && status == 0 && body == map[] && nextCalls == 0
    {
      user := None;
      status := 0;
      body := map[];
      nextCalls := 0;
    }
  }

  /** `protect`. `secret` is JWT_SECRET; `verify` stands for `jwt.verify`
      followed by reading the decoded `id` (None when verification throws). */
  method Protect(ex: Exchange, talents: seq<Doc>, employers: seq<Doc>, admins: seq<Doc>,
                 header: Option<string>, secret: Option<string>, verify: (string, string) -> Option<string>)
    modifies ex
    ensures var token := ExtractToken(header);
      if token.None? || token.value == "" then
        ex.status == 401 && ex.body == map["message" := Str(NotAuthorized)]
        && ex.user == old(ex.user) && ex.nextCalls == old(ex.nextCalls)
      else if secret.None? || secret.value == "" then
        ex.status == 500 && ex.body == map["message" := Str(SecretMissing)]
        && ex.user == old(ex.user) && ex.nextCalls == old(ex.nextCalls)
      else if verify(token.value, secret.value).None?
           || FindUserById(talents, employers, admins, verify(token.value, secret.value).value).None? then
        ex.status == 401 && ex.body == map["message" := Str(NotAuthorized)]
        && ex.user == old(ex.user) && ex.nextCalls == old(ex.nextCalls)
      else
        var id := verify(token.value, secret.value).value;
        var account := FindUserById(talents, employers, admins, id).value;
        ex.user == Some(account["userId" := Str(id)])
        && ex.nextCalls == old(ex.nextCalls) + 1
        && ex.status == old(ex.status) && ex.body == old(ex.body)
  {
    var token: Option<string> := None;
    if header.Some? && header.value != "" && StartsWith(LowerStr(header.value), "bearer") {
      token := SecondPiece(header.value, ' ');
    }

    if token.None? || token.value == "" {
      ex.status, ex.body := 401, map["message" := Str(NotAuthorized)];
      return;
    }

    if secret.None? || secret.value == "" {
      ex.status, ex.body := 500, map["message" := Str(SecretMissing)];
      return;
    }

    var decoded := verify(token.value, secret.value);
    if decoded.None? {
      ex.status, ex.body := 401, map["message" := Str(NotAuthorized)];
      return;
    }

    var user := FindUserById(talents, employers, admins, decoded.value);
    if user.None? {
      ex.status, ex.body := 401, map["message" := Str(NotAuthorized)];
      return;
    }

    ex.user := user;
    ex.user := Some(ex.user.value["userId" := Str(Display(IdOf(user.value)))]);
    ex.nextCalls := ex.nextCalls + 1;
  }

  datatype Gate = Next | Deny(status: int, message: string)

  /** `req.user?.role` as the template literal renders it. */
  function RoleText(user: Option<Doc>): string
  {
    if user.Some? then Display(Get(user.value, "role")) else "undefined"
  }

  predicate HasRole(user: Option<Doc>, roles: seq<string>)
  {
    user.Some? && exists k :: 0 <= k < |roles| && Get(user.value, "role") == Str(roles[k])
  }

  /** `authorize(...roles)`: `next` runs iff the user's role is one of `roles`;
      otherwise 403 with the role named in the message. */
  function Authorize(roles: seq<string>, user: Option<Doc>): (g: Gate)
    ensures g.Next? <==> HasRole(user, roles)
    ensures g.Deny? ==>
      g.status == 403 && g.message == "User role " + RoleText(user) + " is not authorized to access this route"
  {
    if !HasRole(user, roles) then
      Deny(403, "User role " + RoleText(user) + " is not authorized to access this route")
    else Next
  }

  /** The user `protect` attaches for an id: the account `FindUserById`
      finds, with its id under "userId". */
  function Attached(talents: seq<Doc>, employers: seq<Doc>, admins: seq<Doc>, id: string): Option<Doc>
  {
    var u := FindUserById(talents, employers, admins, id);
    if u.Some? then Some(u.value["userId" := Str(id)]) else None
  }

  /** Behind `protect` then `authorize("admin")` (the admin user-management
      routes) an id is admitted exactly when the first collection holding it,
      in the order talent, employer, admin, stores the role "admin" for it,
      whichever collection that is. */
  lemma AdminGateAdmitsStoredAdminRole(talents: seq<Doc>, employers: seq<Doc>, admins: seq<Doc>, id: string)
    ensures var u := FindUserById(talents, employers, admins, id);
      Authorize(["admin"], Attached(talents, employers, admins, id)).Next? <==>
        u.Some? && Get(u.value, "role") == Str("admin")
    ensures FindById(talents, id).Some? ==>
      (Authorize(["admin"], Attached(talents, employers, admins, id)).Next? <==>
         Get(FindById(talents, id).value, "role") == Str("admin"))
  {
    var u := FindUserById(talents, employers, admins, id);
    if u.Some? {
      var attached := u.value["userId" := Str(id)];
      assert Get(attached, "role") == Get(u.value, "role");
      assert ["admin"][0] == "admin";
      assert HasRole(Some(attached), ["admin"]) <==> Get(u.value, "role") == Str("admin");
    }
  }

  /** No document of the collection stores the role "admin". */
  predicate NoAdminRole(docs: seq<Doc>)
  {
    forall d :: d in docs ==> Get(d, "role") != Str("admin")
  }

  /** While no talent or employer stores the role "admin", the admin routes
      admit exactly the admin accounts whose role is "admin" and whose id no
      talent or employer has. */
  lemma AdminRoutesAdmitOnlyAdminAccounts(talents: seq<Doc>, employers: seq<Doc>, admins: seq<Doc>, id: string)
    requires NoAdminRole(talents) && NoAdminRole(employers)
    ensures Authorize(["admin"], Attached(talents, employers, admins, id)).Next? <==>
        FindById(talents, id).None? && FindById(employers, id).None?
        && FindById(admins, id).Some? && Get(FindById(admins, id).value, "role") == Str("admin")
  {
    AdminGateAdmitsStoredAdminRole(talents, employers, admins, id);
    var u := FindUserById(talents, employers, admins, id);
    if FindById(talents, id).Some? {
      assert u.value in talents;
    } else if FindById(employers, id).Some? {
      assert u.value in employers;
    }
  }
}

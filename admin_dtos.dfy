/** The admin DTOs: admin creation and the "create a user as admin" body,
    whose preprocess wraps a flat body into `{userType, userData}`. */
module AdminDtos {
  import opened Js
  import opened Schema
  import opened UserTypes
  import opened CredentialDtos

  /** `AdminUserSchema.pick({email, password}).extend({confirmPassword})` */
  const CreateAdminShape: Shape := map["email" := AccountEmail, "password" := AdminPassword, "confirmPassword" := Min6]

  /** `createAdminDto` */
  function CreateAdminDto(env: Env, body: Json): Option<Doc>
  {
    match Parse(env, CreateAdminShape, body)
    case None => None
    case Some(d) => if PasswordsMatch(d) then Some(d) else None
  }

  /** The picked fields are those of the admin schema. */
  lemma CreateAdminPicksAdminFields()
    ensures CreateAdminShape["email"] == AdminShape["email"] && CreateAdminShape["password"] == AdminShape["password"]
  {
  }

  /** An admin-creation body is accepted exactly when the e-mail passes the
      format test and the password and confirmation are equal strings of at
      least 6 characters; the output holds those three keys as given (the
      role is not picked). */
  lemma CreateAdminAccepts(env: Env, body: Json)
    ensures CreateAdminDto(env, body).Some? <==>
      && body.Obj? && Prop(body, "email").Str? && env.isEmail(Prop(body, "email").s)
      && StringOfAtLeast(Prop(body, "password"), 6) && StringOfAtLeast(Prop(body, "confirmPassword"), 6)
      && Prop(body, "password") == Prop(body, "confirmPassword")
    ensures CreateAdminDto(env, body).Some? ==>
      CreateAdminDto(env, body).value == map["email" := Prop(body, "email"), "password" := Prop(body, "password"),
                                             "confirmPassword" := Prop(body, "confirmPassword")]
  {
    var s := CreateAdminShape;
    var e := Prop(body, "email");
    if body.Obj? && e.Str? && env.isEmail(e.s)
       && StringOfAtLeast(Prop(body, "password"), 6) && StringOfAtLeast(Prop(body, "confirmPassword"), 6) {
      forall n | n in s ensures !ParseSlot(env, s[n], Prop(body, n)).Invalid? {
        assert n == "email" || n == "password" || n == "confirmPassword";
      }
    }
    if Parse(env, s, body).Some? {
      ParsedKey(env, s, body, "email");
      ParsedKey(env, s, body, "password");
      ParsedKey(env, s, body, "confirmPassword");
      var out := Parse(env, s, body).value;
      forall n | n in out ensures n in s {
        if n !in s {
          StrippedKey(env, s, body, n);
        }
      }
      assert out.Keys == {"email", "password", "confirmPassword"};
    }
  }

  /** `baseUserDataSchema`: its refinement always passes, so no field is
      required per user type. */
  const BaseUserDataShape: Shape := map[
    "email" := AccountEmail, "password" := Min6,
    "fname" := OptString, "lname" := OptString, "phoneNumber" := OptString, "profilePicturePath" := OptString,
    "companyName" := OptString, "contactName" := OptString, "logoPath" := OptString]

  const CreateUserByAdminShape: Shape := map[
    "userType" := Field(OneOf(["employer", "talent"]), Required),
    "userData" := Field(ObjectOf(BaseUserDataShape), Required)]

  /** The `createUserByAdminDto` preprocess: a truthy object without a truthy
      `userData` becomes `{userType, userData: rest}`, where `rest` is the
      object without `userType`; anything else passes through. Arrays and
      dates pass `typeof data === "object"` too; the spread would copy an
      array's indices into `rest`, which the model leaves `{}`. */
  function Preprocess(input: Json): Json
  {
    if Truthy(input) && IsObjectLike(input) && !Truthy(Prop(input, "userData")) then
      var rest := if input.Obj? then input.fields - {"userType"} else map[];
      Obj(map["userType" := Prop(input, "userType"), "userData" := Obj(rest)])
    else input
  }

  /** `createUserByAdminDto` */
  function CreateUserByAdminDto(env: Env, input: Json): Option<Doc>
  {
    Parse(env, CreateUserByAdminShape, Preprocess(input))
  }

  /** The preprocess wraps a flat object and leaves a wrapped one alone. */
  lemma PreprocessShape(input: Json)
    ensures input.Obj? && !Truthy(Prop(input, "userData")) ==>
      Preprocess(input) == Obj(map["userType" := Prop(input, "userType"), "userData" := Obj(input.fields - {"userType"})])
    ensures Truthy(Prop(input, "userData")) ==> Preprocess(input) == input
    ensures !IsObjectLike(input) ==> Preprocess(input) == input
  {
    if input.Obj? {
      assert Truthy(input);
    }
  }

  /** Wrapping is idempotent: a wrapped body is a fixed point whenever its
      `userData` is truthy, as every wrapped body's `userData` object is. */
  lemma PreprocessIdempotent(input: Json)
    ensures Preprocess(Preprocess(input)) == Preprocess(input)
  {
    var p := Preprocess(input);
    if p != input {
      assert Prop(p, "userData").Obj?;
    }
  }

  /** An accepted body names the user type "employer" or "talent", and its
      user data carries an e-mail that passes the format test and a password
      of at least 6 characters, both as given. */
  lemma CreateUserByAdminRequires(env: Env, input: Json)
    requires CreateUserByAdminDto(env, input).Some?
    ensures var out := CreateUserByAdminDto(env, input).value;
      var data := Prop(Preprocess(input), "userData");
      && (Get(out, "userType") == Str("employer") || Get(out, "userType") == Str("talent"))
      && data.Obj? && Get(out, "userData").Obj?
      && Prop(data, "email").Str? && env.isEmail(Prop(data, "email").s)
      && StringOfAtLeast(Prop(data, "password"), 6)
      && Prop(Get(out, "userData"), "email") == Prop(data, "email")
      && Prop(Get(out, "userData"), "password") == Prop(data, "password")
  {
    var p := Preprocess(input);
    WrappedBodyAccepted(env, p);
    UserDataAccepted(env, Prop(p, "userData"));
  }

  lemma WrappedBodyAccepted(env: Env, p: Json)
    requires Parse(env, CreateUserByAdminShape, p).Some?
    ensures var out := Parse(env, CreateUserByAdminShape, p).value;
      var data := Prop(p, "userData");
      && (Get(out, "userType") == Str("employer") || Get(out, "userType") == Str("talent"))
      && data.Obj? && Parse(env, BaseUserDataShape, data).Some?
      && Get(out, "userData") == Obj(Parse(env, BaseUserDataShape, data).value)
  {
    assert CreateUserByAdminShape["userData"] == Field(ObjectOf(BaseUserDataShape), Required);
    ParsedKey(env, CreateUserByAdminShape, p, "userType");
    NestedObject(env, CreateUserByAdminShape, p, "userData", BaseUserDataShape);
  }

  lemma UserDataAccepted(env: Env, data: Json)
    requires Parse(env, BaseUserDataShape, data).Some?
    ensures var out := Parse(env, BaseUserDataShape, data).value;
      && Prop(data, "email").Str? && env.isEmail(Prop(data, "email").s)
      && StringOfAtLeast(Prop(data, "password"), 6)
      && Get(out, "email") == Prop(data, "email") && Get(out, "password") == Prop(data, "password")
  {
    assert BaseUserDataShape["email"] == AccountEmail && BaseUserDataShape["password"] == Min6;
    ParsedKey(env, BaseUserDataShape, data, "email");
    ParsedKey(env, BaseUserDataShape, data, "password");
  }

  /** User data with only a valid e-mail and password is accepted: the other
      keys are optional. */
  lemma MinimalUserData(env: Env, email: string, password: string)
    requires env.isEmail(email) && |password| >= 6
    ensures Parse(env, BaseUserDataShape, Obj(map["email" := Str(email), "password" := Str(password)])).Some?
  {
    var rest := map["email" := Str(email), "password" := Str(password)];
    var b := BaseUserDataShape;
    forall n | n in b ensures !ParseSlot(env, b[n], Get(rest, n)).Invalid? {
      assert n in {"email", "password", "fname", "lname", "phoneNumber", "profilePicturePath", "companyName", "contactName", "logoPath"};
    }
  }

  /** A flat body with only a valid user type, e-mail and password is
      accepted, with that user type: no name or company is demanded of either
      user type. */
  lemma FlatBodyAccepted(env: Env, userType: string, email: string, password: string)
    requires userType == "employer" || userType == "talent"
    requires env.isEmail(email) && |password| >= 6
    ensures var body := Obj(map["userType" := Str(userType), "email" := Str(email), "password" := Str(password)]);
      && CreateUserByAdminDto(env, body).Some?
      && Get(CreateUserByAdminDto(env, body).value, "userType") == Str(userType)
  {
    var body := Obj(map["userType" := Str(userType), "email" := Str(email), "password" := Str(password)]);
    var rest := map["email" := Str(email), "password" := Str(password)];
    assert body.fields - {"userType"} == rest;
    var p := Preprocess(body);
    assert p == Obj(map["userType" := Str(userType), "userData" := Obj(rest)]);
    MinimalUserData(env, email, password);
    var s := CreateUserByAdminShape;
    forall n | n in s ensures !ParseSlot(env, s[n], Get(p.fields, n)).Invalid? {
      assert n == "userType" || n == "userData";
    }
    ParsedKey(env, s, p, "userType");
  }
}

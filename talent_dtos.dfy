/** The talent registration and update DTOs. */
module TalentDtos {
  import opened Js
  import opened Schema
  import opened UserTypes
  import opened CredentialDtos

  /** `TalentUserSchema.pick({fname, lname, email, password, phoneNumber})
      .extend({confirmPassword})`: the picked fields are the talent schema's
      own field constants. */
  const CreateTalentShape: Shape := map[
    "fname" := NameField, "lname" := NameField, "email" := AccountEmail,
    "password" := AccountPassword, "phoneNumber" := OptString,
    "confirmPassword" := Min6]

  /** `createTalentDto` */
  function CreateTalentDto(env: Env, body: Json): Option<Doc>
  {
    match Parse(env, CreateTalentShape, body)
    case None => None
    case Some(d) => if PasswordsMatch(d) then Some(d) else None
  }

  /** Every key of the registration shape but the confirmation is picked
      unchanged from the talent schema. */
  lemma CreateTalentPicksTalentFields()
    ensures TalentShape["fname"] == CreateTalentShape["fname"] && TalentShape["lname"] == CreateTalentShape["lname"]
    ensures TalentShape["email"] == CreateTalentShape["email"] && TalentShape["password"] == CreateTalentShape["password"]
    ensures TalentShape["phoneNumber"] == CreateTalentShape["phoneNumber"]
  {
  }

  /** A registration body is accepted exactly when the names have at least 2
      characters, the e-mail passes the format test, the password has at
      least 3 characters, the phone number (if any) is a string, and the
      confirmation is a string of at least 6 characters equal to the password. */
  lemma CreateTalentAccepts(env: Env, body: Json)
    ensures CreateTalentDto(env, body).Some? <==>
      && body.Obj?
      && StringOfAtLeast(Prop(body, "fname"), 2) && StringOfAtLeast(Prop(body, "lname"), 2)
      && Prop(body, "email").Str? && env.isEmail(Prop(body, "email").s)
      && StringOfAtLeast(Prop(body, "password"), 3)
      && (Prop(body, "phoneNumber").Undefined? || Prop(body, "phoneNumber").Str?)
      && StringOfAtLeast(Prop(body, "confirmPassword"), 6)
      && Prop(body, "password") == Prop(body, "confirmPassword")
  {
    if body.Obj? {
      if TalentFieldsValid(env, body) {
        TalentFieldsParse(env, body);
      }
      if Parse(env, CreateTalentShape, body).Some? {
        TalentFieldsParsed(env, body);
      }
    }
  }

  /** The field checks of the registration shape, before the passwords are
      compared. */
  predicate TalentFieldsValid(env: Env, body: Json)
    requires body.Obj?
  {
    && StringOfAtLeast(Prop(body, "fname"), 2) && StringOfAtLeast(Prop(body, "lname"), 2)
    && Prop(body, "email").Str? && env.isEmail(Prop(body, "email").s)
    && StringOfAtLeast(Prop(body, "password"), 3)
    && (Prop(body, "phoneNumber").Undefined? || Prop(body, "phoneNumber").Str?)
    && StringOfAtLeast(Prop(body, "confirmPassword"), 6)
  }

  lemma TalentFieldsParse(env: Env, body: Json)
    requires body.Obj? && TalentFieldsValid(env, body)
    ensures Parse(env, CreateTalentShape, body).Some?
  {
    var s := CreateTalentShape;
    forall n | n in s ensures !ParseSlot(env, s[n], Prop(body, n)).Invalid? {
      assert n in {"fname", "lname", "email", "password", "phoneNumber", "confirmPassword"};
    }
  }

  lemma TalentFieldsParsed(env: Env, body: Json)
    requires Parse(env, CreateTalentShape, body).Some?
    ensures body.Obj? && TalentFieldsValid(env, body)
    ensures var out := Parse(env, CreateTalentShape, body).value;
      Get(out, "password") == Prop(body, "password") && Get(out, "confirmPassword") == Prop(body, "confirmPassword")
  {
    var s := CreateTalentShape;
    ParsedKey(env, s, body, "fname");
    ParsedKey(env, s, body, "lname");
    ParsedKey(env, s, body, "email");
    ParsedKey(env, s, body, "password");
    ParsedKey(env, s, body, "phoneNumber");
    ParsedKey(env, s, body, "confirmPassword");
  }

  /** An accepted registration holds the six keys of its shape as given (no
      phone number when none was given) and nothing else. */
  lemma CreateTalentOutput(env: Env, body: Json)
    requires CreateTalentDto(env, body).Some?
    ensures forall n :: n in CreateTalentShape ==> Get(CreateTalentDto(env, body).value, n) == Prop(body, n)
    ensures forall n :: n in CreateTalentDto(env, body).value ==> n in CreateTalentShape
  {
    var s := CreateTalentShape;
    forall n | n in s ensures Get(Parse(env, s, body).value, n) == Prop(body, n) {
      assert n in {"fname", "lname", "email", "password", "phoneNumber", "confirmPassword"};
      KeptAsGiven(env, s, body, n);
    }
    forall n | n in CreateTalentDto(env, body).value ensures n in s {
      if n !in s {
        StrippedKey(env, s, body, n);
      }
    }
  }

  /** An accepted registration has a password of at least 6 characters: it
      equals the confirmation, which has at least 6. */
  lemma CreateTalentPasswordAtLeastSix(env: Env, body: Json)
    requires CreateTalentDto(env, body).Some?
    ensures StringOfAtLeast(Get(CreateTalentDto(env, body).value, "password"), 6)
  {
    ParsedKey(env, CreateTalentShape, body, "password");
    ParsedKey(env, CreateTalentShape, body, "confirmPassword");
  }

  /** `updateTalentDto`'s shape: `TalentUserSchema.partial().extend({...})`. */
  const UpdateTalentShape: Shape :=
    Extend(Partial(TalentShape), map["confirmPassword" := Field(StringAtLeast(6), Optional), "profilePicturePath" := OptString])

  /** `updateTalentDto` */
  function UpdateTalentDto(env: Env, body: Json): Option<Doc>
  {
    match Parse(env, UpdateTalentShape, body)
    case None => None
    case Some(d) => if PasswordsMatchIfGiven(d) then Some(d) else None
  }

  /** No key of the update shape is required, so `{}` passes the shape. */
  lemma UpdateTalentAllOptional(env: Env)
    ensures forall n :: n in UpdateTalentShape ==> !UpdateTalentShape[n].mode.Required?
    ensures Parse(env, UpdateTalentShape, Obj(map[])).Some?
  {
    PartialExtendOptional(env, TalentShape, map["confirmPassword" := Field(StringAtLeast(6), Optional), "profilePicturePath" := OptString]);
  }

  /** The password fields of the update shape are optional strings. */
  lemma UpdateTalentPasswordFields()
    ensures "password" in UpdateTalentShape && UpdateTalentShape["password"] == Field(StringAtLeast(3), Optional)
    ensures "confirmPassword" in UpdateTalentShape && UpdateTalentShape["confirmPassword"] == Field(StringAtLeast(6), Optional)
  {
    assert "password" in TalentShape && TalentShape["password"] == AccountPassword;
  }

  /** Once the shape accepts an update body, the DTO accepts it exactly when
      the password and the confirmation, as given, are equal or both falsy. */
  lemma UpdateTalentAccepts(env: Env, body: Json)
    requires Parse(env, UpdateTalentShape, body).Some?
    ensures UpdateTalentDto(env, body).Some? <==>
      (Truthy(Prop(body, "password")) || Truthy(Prop(body, "confirmPassword")) ==>
         Prop(body, "password") == Prop(body, "confirmPassword"))
  {
    UpdateTalentPasswordFields();
    KeptAsGiven(env, UpdateTalentShape, body, "password");
    KeptAsGiven(env, UpdateTalentShape, body, "confirmPassword");
  }
}

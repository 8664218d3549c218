/** The employer registration and update DTOs. */
module EmployerDtos {
  import opened Js
  import opened Schema
  import opened UserTypes
  import opened CredentialDtos

  /** `EmployerUserSchema.pick({companyName, email, password, phoneNumber,
      contactName}).extend({confirmPassword})`: the picked fields are the
      employer schema's own field constants, so `contactName` keeps its
      default "". */
  const CreateEmployerShape: Shape := map[
    "companyName" := NameField, "email" := AccountEmail, "password" := AccountPassword,
    "phoneNumber" := OptString, "contactName" := EmptyByDefault,
    "confirmPassword" := Min6]

  /** `createEmployerDto` */
  function CreateEmployerDto(env: Env, body: Json): Option<Doc>
  {
    match Parse(env, CreateEmployerShape, body)
    case None => None
    case Some(d) => if PasswordsMatch(d) then Some(d) else None
  }

  /** Every key of the registration shape but the confirmation is picked
      unchanged from the employer schema. */
  lemma CreateEmployerPicksEmployerFields()
    ensures EmployerShape["companyName"] == CreateEmployerShape["companyName"]
    ensures EmployerShape["email"] == CreateEmployerShape["email"]
    ensures EmployerShape["password"] == CreateEmployerShape["password"]
    ensures EmployerShape["phoneNumber"] == CreateEmployerShape["phoneNumber"]
    ensures EmployerShape["contactName"] == CreateEmployerShape["contactName"]
  {
  }

  /** A registration body is accepted exactly when the company name has at
      least 2 characters, the e-mail passes the format test, the password has
      at least 3 characters, the phone number and contact name (if any) are
      strings, and the confirmation is a string of at least 6 characters equal
      to the password. */
  lemma CreateEmployerAccepts(env: Env, body: Json)
    ensures CreateEmployerDto(env, body).Some? <==>
      && body.Obj?
      && StringOfAtLeast(Prop(body, "companyName"), 2)
      && Prop(body, "email").Str? && env.isEmail(Prop(body, "email").s)
      && StringOfAtLeast(Prop(body, "password"), 3)
      && (Prop(body, "phoneNumber").Undefined? || Prop(body, "phoneNumber").Str?)
      && (Prop(body, "contactName").Undefined? || Prop(body, "contactName").Str?)
      && StringOfAtLeast(Prop(body, "confirmPassword"), 6)
      && Prop(body, "password") == Prop(body, "confirmPassword")
  {
    if body.Obj? {
      if RegistrationFieldsValid(env, body) {
        RegistrationFieldsParse(env, body);
      }
      if Parse(env, CreateEmployerShape, body).Some? {
        RegistrationFieldsParsed(env, body);
      }
    }
  }

  /** The field checks of the registration shape, before the passwords are
      compared. */
  predicate RegistrationFieldsValid(env: Env, body: Json)
    requires body.Obj?
  {
    && StringOfAtLeast(Prop(body, "companyName"), 2)
    && Prop(body, "email").Str? && env.isEmail(Prop(body, "email").s)
    && StringOfAtLeast(Prop(body, "password"), 3)
    && (Prop(body, "phoneNumber").Undefined? || Prop(body, "phoneNumber").Str?)
    && (Prop(body, "contactName").Undefined? || Prop(body, "contactName").Str?)
    && StringOfAtLeast(Prop(body, "confirmPassword"), 6)
  }

  lemma RegistrationFieldsParse(env: Env, body: Json)
    requires body.Obj? && RegistrationFieldsValid(env, body)
    ensures Parse(env, CreateEmployerShape, body).Some?
  {
    var s := CreateEmployerShape;
    forall n | n in s ensures !ParseSlot(env, s[n], Prop(body, n)).Invalid? {
      assert n in {"companyName", "email", "password", "phoneNumber", "contactName", "confirmPassword"};
    }
  }

  lemma RegistrationFieldsParsed(env: Env, body: Json)
    requires Parse(env, CreateEmployerShape, body).Some?
    ensures body.Obj? && RegistrationFieldsValid(env, body)
    ensures var out := Parse(env, CreateEmployerShape, body).value;
      Get(out, "password") == Prop(body, "password") && Get(out, "confirmPassword") == Prop(body, "confirmPassword")
  {
    var s := CreateEmployerShape;
    ParsedKey(env, s, body, "companyName");
    ParsedKey(env, s, body, "email");
    ParsedKey(env, s, body, "password");
    ParsedKey(env, s, body, "phoneNumber");
    ParsedKey(env, s, body, "contactName");
    ParsedKey(env, s, body, "confirmPassword");
  }

  /** An accepted registration holds only the picked keys and the
      confirmation; the contact name is "" when none was given. */
  lemma CreateEmployerOutput(env: Env, body: Json)
    requires CreateEmployerDto(env, body).Some?
    ensures forall n :: n in CreateEmployerDto(env, body).value ==> n in CreateEmployerShape
    ensures Prop(body, "contactName").Undefined? ==> Get(CreateEmployerDto(env, body).value, "contactName") == Str("")
  {
    var s := CreateEmployerShape;
    ParsedKey(env, s, body, "contactName");
    forall n | n in CreateEmployerDto(env, body).value ensures n in s {
      if n !in s {
        StrippedKey(env, s, body, n);
      }
    }
  }

  /** The e-mail and the password of an accepted registration come out as
      given. */
  lemma CreateEmployerKeepsCredentials(env: Env, body: Json)
    requires CreateEmployerDto(env, body).Some?
    ensures Get(CreateEmployerDto(env, body).value, "email") == Prop(body, "email")
    ensures Get(CreateEmployerDto(env, body).value, "password") == Prop(body, "password")
  {
    KeptAsGiven(env, CreateEmployerShape, body, "email");
    KeptAsGiven(env, CreateEmployerShape, body, "password");
  }

  /** An accepted registration has a password of at least 6 characters. */
  lemma CreateEmployerPasswordAtLeastSix(env: Env, body: Json)
    requires CreateEmployerDto(env, body).Some?
    ensures StringOfAtLeast(Get(CreateEmployerDto(env, body).value, "password"), 6)
  {
    ParsedKey(env, CreateEmployerShape, body, "password");
    ParsedKey(env, CreateEmployerShape, body, "confirmPassword");
  }

  const UpdateEmployerExtra: Shape := map["confirmPassword" := Field(StringAtLeast(6), Optional)]

  /** `updateEmployerDto`'s shape: `EmployerUserSchema.partial().extend({...})`. */
  const UpdateEmployerShape: Shape := Extend(Partial(EmployerShape), UpdateEmployerExtra)

  /** `updateEmployerDto` */
  function UpdateEmployerDto(env: Env, body: Json): Option<Doc>
  {
    match Parse(env, UpdateEmployerShape, body)
    case None => None
    case Some(d) => if PasswordsMatchIfGiven(d) then Some(d) else None
  }

  /** No key of the update shape is required, so `{}` passes the shape. */
  lemma UpdateEmployerAllOptional(env: Env)
    ensures forall n :: n in UpdateEmployerShape ==> !UpdateEmployerShape[n].mode.Required?
    ensures Parse(env, UpdateEmployerShape, Obj(map[])).Some?
  {
    PartialExtendOptional(env, EmployerShape, UpdateEmployerExtra);
  }

  /** Once the shape accepts an update body, the DTO accepts it exactly when
      the password and the confirmation, as given, are equal or both falsy. */
  lemma UpdateEmployerAccepts(env: Env, body: Json)
    requires Parse(env, UpdateEmployerShape, body).Some?
    ensures UpdateEmployerDto(env, body).Some? <==>
      (Truthy(Prop(body, "password")) || Truthy(Prop(body, "confirmPassword")) ==>
         Prop(body, "password") == Prop(body, "confirmPassword"))
  {
    assert "password" in EmployerShape && EmployerShape["password"] == AccountPassword;
    assert UpdateEmployerShape["password"] == Field(StringAtLeast(3), Optional);
    assert UpdateEmployerShape["confirmPassword"] == Field(StringAtLeast(6), Optional);
    KeptAsGiven(env, UpdateEmployerShape, body, "password");
    KeptAsGiven(env, UpdateEmployerShape, body, "confirmPassword");
  }
}

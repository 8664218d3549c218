/** The login, one-time-password and password-reset DTOs. The talent and the
    employer DTO files declare the same five schemas, and the admin login DTO
    is the same as the login schema; they are modelled once here. */
module CredentialDtos {
  import opened Js
  import opened Text
  import opened Schema

  /** `z.string().min(1).email()` */
  const EmailField: Field := Field(EmailAtLeast(1), Required)

  /** `z.string().min(6)` */
  const Min6: Field := Field(StringAtLeast(6), Required)

  const LoginShape: Shape := map["email" := EmailField, "password" := Min6]

  const SendOtpShape: Shape := map["email" := EmailField]

  const VerifyOtpShape: Shape := map["email" := EmailField, "otp" := Field(SixDigits, Required)]

  const ResetShape: Shape := map["email" := EmailField, "newPassword" := Min6, "confirmPassword" := Min6]

  const VerifyOtpAndResetShape: Shape :=
    map["email" := EmailField, "otp" := Field(SixDigits, Required), "newPassword" := Min6, "confirmPassword" := Min6]

  /** A non-empty string that passes the e-mail format test. */
  predicate ValidEmail(env: Env, v: Json)
  {
    v.Str? && |v.s| >= 1 && env.isEmail(v.s)
  }

  predicate StringOfAtLeast(v: Json, n: nat)
  {
    v.Str? && |v.s| >= n
  }

  /** `loginTalentDto`, `loginEmployerDto`, `loginAdminDto` */
  function LoginDto(env: Env, body: Json): Option<Doc>
  {
    Parse(env, LoginShape, body)
  }

  /** `sendPasswordResetOtpDto` */
  function SendOtpDto(env: Env, body: Json): Option<Doc>
  {
    Parse(env, SendOtpShape, body)
  }

  /** `verifyOTPDto` */
  function VerifyOtpDto(env: Env, body: Json): Option<Doc>
  {
    Parse(env, VerifyOtpShape, body)
  }

  /** The refinement of the reset DTOs. */
  predicate NewPasswordsMatch(d: Doc)
  {
    Get(d, "newPassword") == Get(d, "confirmPassword")
  }

  /** The refinement of the create DTOs: `password === confirmPassword`. */
  predicate PasswordsMatch(d: Doc)
  {
    Get(d, "password") == Get(d, "confirmPassword")
  }

  /** The refinement of the update DTOs: when either password field is truthy
      the two must be equal. */
  predicate PasswordsMatchIfGiven(d: Doc)
  {
    Truthy(Get(d, "password")) || Truthy(Get(d, "confirmPassword")) ==>
      Get(d, "password") == Get(d, "confirmPassword")
  }

  /** `resetPasswordDto` */
  function ResetPasswordDto(env: Env, body: Json): Option<Doc>
  {
    match Parse(env, ResetShape, body)
    case None => None
    case Some(d) => if NewPasswordsMatch(d) then Some(d) else None
  }

  /** `verifyOtpAndResetPasswordDto` */
  function VerifyOtpAndResetDto(env: Env, body: Json): Option<Doc>
  {
    match Parse(env, VerifyOtpAndResetShape, body)
    case None => None
    case Some(d) => if NewPasswordsMatch(d) then Some(d) else None
  }

  /** A login body is accepted exactly when it holds a non-empty, well-formed
      e-mail and a password of at least 6 characters; the output holds those
      two and nothing else. */
  lemma LoginAccepts(env: Env, body: Json)
    ensures LoginDto(env, body).Some? <==>
      body.Obj? && ValidEmail(env, Prop(body, "email")) && StringOfAtLeast(Prop(body, "password"), 6)
    ensures LoginDto(env, body).Some? ==>
      LoginDto(env, body).value == map["email" := Prop(body, "email"), "password" := Prop(body, "password")]
  {
    var f := Prop(body, "email");
    var p := Prop(body, "password");
    if body.Obj? && ValidEmail(env, f) && StringOfAtLeast(p, 6) {
      forall n | n in LoginShape ensures !ParseSlot(env, LoginShape[n], Prop(body, n)).Invalid? {
        assert n == "email" || n == "password";
      }
    }
    if LoginDto(env, body).Some? {
      ParsedKey(env, LoginShape, body, "email");
      ParsedKey(env, LoginShape, body, "password");
      var out := LoginDto(env, body).value;
      forall n | n in out ensures n == "email" || n == "password" {
        if n != "email" && n != "password" {
          StrippedKey(env, LoginShape, body, n);
        }
      }
      assert out.Keys == {"email", "password"};
    }
  }

  /** An OTP body is accepted exactly when its e-mail is valid and its `otp` is
      a string of exactly six decimal digits. */
  lemma VerifyOtpAccepts(env: Env, body: Json)
    ensures VerifyOtpDto(env, body).Some? <==>
      && body.Obj? && ValidEmail(env, Prop(body, "email"))
      && Prop(body, "otp").Str? && |Prop(body, "otp").s| == 6
      && forall i :: 0 <= i < 6 ==> IsDigit(Prop(body, "otp").s[i])
  {
    var f := Prop(body, "email");
    var o := Prop(body, "otp");
    if body.Obj? && ValidEmail(env, f) && o.Str? && |o.s| == 6 && forall i :: 0 <= i < 6 ==> IsDigit(o.s[i]) {
      forall n | n in VerifyOtpShape ensures !ParseSlot(env, VerifyOtpShape[n], Prop(body, n)).Invalid? {
        assert n == "email" || n == "otp";
      }
    }
    if VerifyOtpDto(env, body).Some? {
      ParsedKey(env, VerifyOtpShape, body, "email");
      ParsedKey(env, VerifyOtpShape, body, "otp");
    }
  }

  /** A reset body is accepted exactly when its e-mail is valid and the new and
      confirmed passwords are equal strings of at least 6 characters. */
  lemma ResetAccepts(env: Env, body: Json)
    ensures ResetPasswordDto(env, body).Some? <==>
      && body.Obj? && ValidEmail(env, Prop(body, "email"))
      && StringOfAtLeast(Prop(body, "newPassword"), 6)
      && StringOfAtLeast(Prop(body, "confirmPassword"), 6)
      && Prop(body, "newPassword") == Prop(body, "confirmPassword")
  {
    var f := Prop(body, "email");
    var p := Prop(body, "newPassword");
    var c := Prop(body, "confirmPassword");
    if body.Obj? && ValidEmail(env, f) && StringOfAtLeast(p, 6) && StringOfAtLeast(c, 6) {
      forall n | n in ResetShape ensures !ParseSlot(env, ResetShape[n], Prop(body, n)).Invalid? {
        assert n == "email" || n == "newPassword" || n == "confirmPassword";
      }
    }
    if Parse(env, ResetShape, body).Some? {
      ParsedKey(env, ResetShape, body, "email");
      ParsedKey(env, ResetShape, body, "newPassword");
      ParsedKey(env, ResetShape, body, "confirmPassword");
    }
  }

  /** The combined DTO accepts exactly the bodies that both the OTP DTO and the
      reset DTO accept. */
  lemma VerifyOtpAndResetIsBoth(env: Env, body: Json)
    ensures VerifyOtpAndResetDto(env, body).Some? <==>
      VerifyOtpDto(env, body).Some? && ResetPasswordDto(env, body).Some?
  {
    VerifyOtpAccepts(env, body);
    ResetAccepts(env, body);
    assert VerifyOtpAndResetShape.Keys == {"email", "otp", "newPassword", "confirmPassword"};
    if Parse(env, VerifyOtpAndResetShape, body).Some? {
      ParsedKey(env, VerifyOtpAndResetShape, body, "newPassword");
      ParsedKey(env, VerifyOtpAndResetShape, body, "confirmPassword");
    }
  }
}

/** The mail templates: the subject and the HTML body of each kind of mail
    the application sends. */
module MailTemplates {
  import opened Js

  /** The mail kinds; `Other` stands for any value outside the enumeration. */
  datatype MailType = VerifyEmail | ResetPassword | PasswordResetOtp | Notification | Other(name: string)

  /** A rendered template. The subject is whatever value the template puts
      there, so a notification's subject is the payload's own. */
  datatype Mail = Mail(subject: Json, html: string)

  const InvalidMailType: string := "Invalid mail type"

  const VerifySubject: string := "Verify your email"
  const ResetSubject: string := "Reset your password"
  const OtpSubject: string := "Your Password Reset OTP"

  /** Lines joined by line breaks. */
  function Unlines(lines: seq<string>): string
  {
    if |lines| == 0 then ""
    else if |lines| == 1 then lines[0]
    else lines[0] + "\n" + Unlines(lines[1..])
  }

  // The fixed text around each interpolation, line by line.
  const VerifyHead: string := Unlines([
    "",
    "          <h2>Email Verification</h2>",
    "          <p>Click below to verify your email:</p>",
    "          <a href=\""])
  const VerifyTail: string := Unlines([
    "\">Verify Email</a>",
    "        "])
  const ResetHead: string := Unlines([
    "",
    "          <h2>Password Reset</h2>",
    "          <p>Click below to reset your password:</p>",
    "          <a href=\""])
  const ResetTail: string := Unlines([
    "\">Reset Password</a>",
    "        "])
  const OtpHead: string := Unlines([
    "",
    "          <div style=\"font-family: Arial, sans-serif; max-width: 600px; margin: 0 auto; padding: 20px; border: 1px solid #ddd; border-radius: 8px;\">",
    "            <h2 style=\"color: #333;\">Password Reset Request</h2>",
    "            <p style=\"color: #666;\">We received a request to reset your password. Use the OTP below to proceed:</p>",
    "            ",
    "            <div style=\"background-color: #f0f0f0; padding: 20px; margin: 20px 0; border-radius: 5px; text-align: center;\">",
    "              <p style=\"margin: 0; font-size: 28px; font-weight: bold; letter-spacing: 5px; color: #007bff;\">",
    "                "])
  const OtpMiddle: string := Unlines([
    "",
    "              </p>",
    "            </div>",
    "            ",
    "            <p style=\"color: #666;\"><strong>This OTP will expire in 10 minutes.</strong></p>",
    "            ",
    "            <p style=\"color: #666;\">If you didn't request a password reset, please ignore this email.</p>",
    "            ",
    "            <hr style=\"border: none; border-top: 1px solid #ddd; margin: 20px 0;\">",
    "            <p style=\"color: #999; font-size: 12px;\">JobMitra - Job Portal | \U{A9} "])
  const OtpTail: string := Unlines([
    "</p>",
    "          </div>",
    "        "])
  const NoteHead: string := Unlines([
    "",
    "          <p>"])
  const NoteTail: string := Unlines([
    "</p>",
    "        "])

  /** `payload.key`: reading a property of `undefined` or `null` throws a
      TypeError; any other value yields the property or `undefined`. */
  function Read(payload: Json, key: string): (r: Outcome<Json>)
    ensures r.Ok? <==> !payload.Undefined? && !payload.Null?
    ensures r.Ok? ==> r.value == Prop(payload, key)
  {
    if payload.Undefined? || payload.Null? then
      Err(PlainError("Cannot read properties of " + Display(payload) + " (reading '" + key + "')"))
    else Ok(Prop(payload, key))
  }

  /** A mail whose body is one payload field between two fixed texts. */
  function Fill(payload: Json, key: string, subject: Json, head: string, tail: string): (r: Outcome<Mail>)
    ensures r.Ok? <==> !payload.Undefined? && !payload.Null?
    ensures r.Ok? ==> r.value.subject == subject
  {
    match Read(payload, key)
    case Err(e) => Err(e)
    case Ok(v) => Ok(Mail(subject, head + Display(v) + tail))
  }

  /** `getMailTemplate(type, payload)`; `year` is `new Date().getFullYear()`.
      An unknown type throws before the payload is read; a notification reads
      its subject before its message. */
  function GetMailTemplate(t: MailType, payload: Json, year: int): (r: Outcome<Mail>)
    ensures t.Other? ==> r == Err(PlainError(InvalidMailType))
    ensures !t.Other? ==> (r.Ok? <==> !payload.Undefined? && !payload.Null?)
    ensures r.Ok? && t == VerifyEmail ==> r.value.subject == Str(VerifySubject)
    ensures r.Ok? && t == ResetPassword ==> r.value.subject == Str(ResetSubject)
    ensures r.Ok? && t == PasswordResetOtp ==> r.value.subject == Str(OtpSubject)
    ensures r.Ok? && t == Notification ==> r.value.subject == Prop(payload, "subject")
  {
    match t
    case VerifyEmail => Fill(payload, "link", Str(VerifySubject), VerifyHead, VerifyTail)
    case ResetPassword => Fill(payload, "link", Str(ResetSubject), ResetHead, ResetTail)
    case PasswordResetOtp => Fill(payload, "otp", Str(OtpSubject), OtpHead, OtpMiddle + IntToString(year) + OtpTail)
    case Notification =>
      (match Read(payload, "subject")
       case Err(e) => Err(e)
       case Ok(subject) => Fill(payload, "message", subject, NoteHead, NoteTail))
    case Other(_) => Err(PlainError(InvalidMailType))
  }

  /** The text between a known beginning and a known end, when `html` has
      both and they do not overlap: what a reader of the mail finds in the
      interpolated slot. */
  function Between(html: string, head: string, tail: string): (r: Option<string>)
    ensures r.Some? ==> head + r.value + tail == html
  {
    if |head| + |tail| <= |html| && html[..|head|] == head && html[|html| - |tail|..] == tail then
      assert html == html[..|head|] + html[|head|..|html| - |tail|] + html[|html| - |tail|..];
      Some(html[|head|..|html| - |tail|])
    else None
  }

  lemma BetweenRecovers(head: string, v: string, tail: string)
    ensures Between(head + v + tail, head, tail) == Some(v)
  {
    var html := head + v + tail;
    assert html[..|head|] == head;
    assert html[|html| - |tail|..] == tail;
    assert html[|head|..|html| - |tail|] == v;
  }

  /** In a text with two slots, the second is read back between everything
      before it and the fixed end. */
  lemma SecondSlot(head: string, v: string, middle: string, w: string, tail: string)
    ensures Between(head + v + (middle + w + tail), head + v + middle, tail) == Some(w)
  {
    assert head + v + (middle + w + tail) == (head + v + middle) + w + tail;
    BetweenRecovers(head + v + middle, w, tail);
  }

  /** What `Fill` puts in the body is read back between its fixed texts. */
  lemma FillRecovers(payload: Json, key: string, subject: Json, head: string, tail: string)
    requires Fill(payload, key, subject, head, tail).Ok?
    ensures Between(Fill(payload, key, subject, head, tail).value.html, head, tail) == Some(Display(Prop(payload, key)))
  {
    BetweenRecovers(head, Display(Prop(payload, key)), tail);
  }

  /** Each mail carries what its payload supplies, exactly, between its
      fixed beginning and end: the verification and reset mails the link,
      the OTP mail the code followed by the current year, a notification the
      payload's message as its only paragraph. */
  lemma MailCarriesPayload(t: MailType, payload: Json, year: int)
    requires GetMailTemplate(t, payload, year).Ok?
    ensures var html := GetMailTemplate(t, payload, year).value.html;
      && (t == VerifyEmail ==> Between(html, VerifyHead, VerifyTail) == Some(Display(Prop(payload, "link"))))
      && (t == ResetPassword ==> Between(html, ResetHead, ResetTail) == Some(Display(Prop(payload, "link"))))
      && (t == PasswordResetOtp ==>
            Between(html, OtpHead, OtpMiddle + IntToString(year) + OtpTail) == Some(Display(Prop(payload, "otp"))))
      && (t == Notification ==> Between(html, NoteHead, NoteTail) == Some(Display(Prop(payload, "message"))))
  {
    match t
    case VerifyEmail => FillRecovers(payload, "link", Str(VerifySubject), VerifyHead, VerifyTail);
    case ResetPassword => FillRecovers(payload, "link", Str(ResetSubject), ResetHead, ResetTail);
    case PasswordResetOtp => FillRecovers(payload, "otp", Str(OtpSubject), OtpHead, OtpMiddle + IntToString(year) + OtpTail);
    case Notification => FillRecovers(payload, "message", Prop(payload, "subject"), NoteHead, NoteTail);
    case Other(_) =>
  }

  /** The OTP mail's footer ends with the current year. */
  lemma OtpMailCarriesYear(payload: Json, year: int)
    requires GetMailTemplate(PasswordResetOtp, payload, year).Ok?
    ensures Between(GetMailTemplate(PasswordResetOtp, payload, year).value.html,
                    OtpHead + Display(Prop(payload, "otp")) + OtpMiddle, OtpTail) == Some(IntToString(year))
  {
    SecondSlot(OtpHead, Display(Prop(payload, "otp")), OtpMiddle, IntToString(year), OtpTail);
  }

  /** The three fixed subjects tell the mails apart, and a mail depends on
      no payload field but the ones it reads. */
  lemma MailDependsOnItsFields(t: MailType, payload: Json, other: Json, year: int)
    requires payload.Obj? && other.Obj?
    requires forall k :: k in {"link", "otp", "subject", "message"} ==> Prop(payload, k) == Prop(other, k)
    ensures GetMailTemplate(t, payload, year) == GetMailTemplate(t, other, year)
    ensures VerifySubject != ResetSubject && VerifySubject != OtpSubject && ResetSubject != OtpSubject
  {
    assert Prop(payload, "link") == Prop(other, "link");
    assert Prop(payload, "otp") == Prop(other, "otp");
    assert Prop(payload, "subject") == Prop(other, "subject");
    assert Prop(payload, "message") == Prop(other, "message");
    assert |VerifySubject| == 17 && |ResetSubject| == 19 && |OtpSubject| == 23;
  }
}

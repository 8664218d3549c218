/** The zod schemas of the three account kinds, with the constraints and
    defaults they impose on a parsed account. */
module UserTypes {
  import opened Js
  import opened Schema

  const AnyString: Kind := StringAtLeast(0)

  /** `z.string().optional()` */
  const OptString: Field := Field(AnyString, Optional)

  /** `z.string().optional().default("")` */
  const EmptyByDefault: Field := Field(AnyString, DefaultTo(Str("")))

  /** `z.string().min(2)`: first and last names, company name. */
  const NameField: Field := Field(StringAtLeast(2), Required)

  /** `z.email()` */
  const AccountEmail: Field := Field(EmailAtLeast(0), Required)

  /** `z.string().min(3)`: the talent and employer password. */
  const AccountPassword: Field := Field(StringAtLeast(3), Required)

  /** `z.string().min(6)`: the admin password. */
  const AdminPassword: Field := Field(StringAtLeast(6), Required)

  const ExperienceShape: Shape := map[
    "title" := OptString, "company" := OptString, "period" := OptString,
    "location" := OptString, "description" := OptString,
    "isCurrent" := Field(Boolean, DefaultTo(Bool(false)))
  ]

  const EducationShape: Shape := map["degree" := OptString, "institution" := OptString, "period" := OptString]

  const CertificationShape: Shape := map["name" := OptString, "issuer" := OptString]

  const PortfolioShape: Shape := map["id" := OptString, "title" := OptString, "portfolioLink" := OptString, "image" := OptString]

  const LinksShape: Shape := map["linkedin" := EmptyByDefault, "github" := EmptyByDefault, "portfolio" := EmptyByDefault]

  const NoLinks: Json := Obj(map["linkedin" := Str(""), "github" := Str(""), "portfolio" := Str("")])

  const EmptyList: Json := Arr([])

  /** `TalentUserSchema` */
  const TalentShape: Shape := map[
    "dateOfBirth" := OptString,
    "googleId" := OptString,
    "cvPath" := EmptyByDefault,
    "googleProfilePicture" := EmptyByDefault,
    "location" := EmptyByDefault,
    "title" := EmptyByDefault,
    "summary" := EmptyByDefault,
    "profilePicturePath" := EmptyByDefault,
    "phoneNumber" := OptString,
    "createdAt" := Field(DateObject, DefaultNow),
    "experiences" := Field(ArrayOf(ObjectOf(ExperienceShape)), DefaultTo(EmptyList)),
    "education" := Field(ArrayOf(ObjectOf(EducationShape)), DefaultTo(EmptyList)),
    "skills" := Field(ArrayOf(AnyString), DefaultTo(EmptyList)),
    "certifications" := Field(ArrayOf(ObjectOf(CertificationShape)), DefaultTo(EmptyList)),
    "portfolio" := Field(ArrayOf(ObjectOf(PortfolioShape)), DefaultTo(EmptyList)),
    "links" := Field(ObjectOf(LinksShape), DefaultTo(NoLinks)),
    "isEmailVerified" := Field(Boolean, DefaultTo(Bool(false))),
    "role" := Field(OneOf(["candidate", "employer"]), DefaultTo(Str("candidate"))),
    "email" := AccountEmail,
    "password" := AccountPassword,
    "lname" := NameField,
    "fname" := NameField
  ]

  const SocialLinksShape: Shape := map["linkedin" := EmptyByDefault, "facebook" := EmptyByDefault, "twitter" := EmptyByDefault]

  const NoSocialLinks: Json := Obj(map["linkedin" := Str(""), "facebook" := Str(""), "twitter" := Str("")])

  /** `EmployerUserSchema` */
  const EmployerShape: Shape := map[
    "googleId" := OptString,
    "createdAt" := Field(DateObject, DefaultNow),
    "email" := AccountEmail,
    "phoneNumber" := OptString,
    "googleProfilePicture" := EmptyByDefault,
    "logoPath" := EmptyByDefault,
    "contactEmail" := EmptyByDefault,
    "contactName" := EmptyByDefault,
    "description" := EmptyByDefault,
    "companySize" := EmptyByDefault,
    "location" := EmptyByDefault,
    "industry" := EmptyByDefault,
    "website" := EmptyByDefault,
    "isEmailVerified" := Field(Boolean, DefaultTo(Bool(false))),
    "socialLinks" := Field(ObjectOf(SocialLinksShape), DefaultTo(NoSocialLinks)),
    "role" := Field(OneOf(["employer"]), DefaultTo(Str("employer"))),
    "password" := AccountPassword,
    "companyName" := NameField
  ]

  /** `AdminUserSchema` */
  const AdminShape: Shape := map[
    "email" := AccountEmail,
    "password" := AdminPassword,
    "role" := Field(OneOf(["admin"]), DefaultTo(Str("admin")))
  ]

  /** A parsed talent has first and last names of at least 2 characters and a
      password of at least 3, each as given. */
  lemma TalentNamesAndPassword(env: Env, body: Json)
    requires Parse(env, TalentShape, body).Some?
    ensures var out := Parse(env, TalentShape, body).value;
      && Get(out, "fname") == Get(body.fields, "fname") && Get(out, "fname").Str? && |Get(out, "fname").s| >= 2
      && Get(out, "lname") == Get(body.fields, "lname") && Get(out, "lname").Str? && |Get(out, "lname").s| >= 2
      && Get(out, "password") == Get(body.fields, "password") && Get(out, "password").Str? && |Get(out, "password").s| >= 3
  {
    ParsedKey(env, TalentShape, body, "fname");
    ParsedKey(env, TalentShape, body, "lname");
    ParsedKey(env, TalentShape, body, "password");
  }

  /** A parsed talent's role is "candidate" or "employer", and "candidate" when
      none was given. */
  lemma TalentRole(env: Env, body: Json)
    requires Parse(env, TalentShape, body).Some?
    ensures var out := Parse(env, TalentShape, body).value;
      && (Get(out, "role") == Str("candidate") || Get(out, "role") == Str("employer"))
      && (Get(body.fields, "role").Undefined? ==> Get(out, "role") == Str("candidate"))
  {
    assert TalentShape["role"] == Field(OneOf(["candidate", "employer"]), DefaultTo(Str("candidate")));
    ParsedKey(env, TalentShape, body, "role");
  }

  /** When missing, a talent's experiences and education default to []. */
  lemma TalentListDefaults(env: Env, body: Json)
    requires Parse(env, TalentShape, body).Some?
    ensures var out := Parse(env, TalentShape, body).value;
      && (Get(body.fields, "experiences").Undefined? ==> Get(out, "experiences") == EmptyList)
      && (Get(body.fields, "education").Undefined? ==> Get(out, "education") == EmptyList)
  {
    TalentListModes();
    if Get(body.fields, "experiences").Undefined? {
      DefaultedKey(env, TalentShape, body, "experiences", EmptyList);
    }
    if Get(body.fields, "education").Undefined? {
      DefaultedKey(env, TalentShape, body, "education", EmptyList);
    }
  }

  lemma TalentListModes()
    ensures "experiences" in TalentShape && TalentShape["experiences"].mode == DefaultTo(EmptyList)
    ensures "education" in TalentShape && TalentShape["education"].mode == DefaultTo(EmptyList)
  {
  }

  /** When missing, a talent's skills, certifications and portfolio default to []. */
  lemma TalentShowcaseDefaults(env: Env, body: Json)
    requires Parse(env, TalentShape, body).Some?
    ensures var out := Parse(env, TalentShape, body).value;
      && (Get(body.fields, "skills").Undefined? ==> Get(out, "skills") == EmptyList)
      && (Get(body.fields, "certifications").Undefined? ==> Get(out, "certifications") == EmptyList)
      && (Get(body.fields, "portfolio").Undefined? ==> Get(out, "portfolio") == EmptyList)
  {
    TalentShowcaseModes();
    if Get(body.fields, "skills").Undefined? {
      DefaultedKey(env, TalentShape, body, "skills", EmptyList);
    }
    if Get(body.fields, "certifications").Undefined? {
      DefaultedKey(env, TalentShape, body, "certifications", EmptyList);
    }
    if Get(body.fields, "portfolio").Undefined? {
      DefaultedKey(env, TalentShape, body, "portfolio", EmptyList);
    }
  }

  lemma TalentShowcaseModes()
    ensures "skills" in TalentShape && TalentShape["skills"].mode == DefaultTo(EmptyList)
    ensures "certifications" in TalentShape && TalentShape["certifications"].mode == DefaultTo(EmptyList)
    ensures "portfolio" in TalentShape && TalentShape["portfolio"].mode == DefaultTo(EmptyList)
  {
  }

  /** When missing, a talent's `links` default to three empty strings and
      `isEmailVerified` to false. */
  lemma TalentFlagDefaults(env: Env, body: Json)
    requires Parse(env, TalentShape, body).Some?
    ensures var out := Parse(env, TalentShape, body).value;
      && (Get(body.fields, "links").Undefined? ==> Get(out, "links") == NoLinks)
      && (Get(body.fields, "isEmailVerified").Undefined? ==> Get(out, "isEmailVerified") == Bool(false))
  {
    TalentFlagModes();
    if Get(body.fields, "links").Undefined? {
      DefaultedKey(env, TalentShape, body, "links", NoLinks);
    }
    if Get(body.fields, "isEmailVerified").Undefined? {
      DefaultedKey(env, TalentShape, body, "isEmailVerified", Bool(false));
    }
  }

  lemma TalentFlagModes()
    ensures "links" in TalentShape && TalentShape["links"].mode == DefaultTo(NoLinks)
    ensures "isEmailVerified" in TalentShape && TalentShape["isEmailVerified"].mode == DefaultTo(Bool(false))
  {
  }

  /** An experience whose `isCurrent` is missing parses with `isCurrent` false. */
  lemma ExperienceIsCurrentDefault(env: Env, item: Json)
    requires Parse(env, ExperienceShape, item).Some?
    ensures var out := Parse(env, ExperienceShape, item).value;
      Get(item.fields, "isCurrent").Undefined? ==> Get(out, "isCurrent") == Bool(false)
  {
    assert ExperienceShape["isCurrent"].mode == DefaultTo(Bool(false));
    ParsedKey(env, ExperienceShape, item, "isCurrent");
  }

  /** A parsed employer has a company name of at least 2 characters and a
      password of at least 3, and its role is "employer". */
  lemma EmployerConstraints(env: Env, body: Json)
    requires Parse(env, EmployerShape, body).Some?
    ensures var out := Parse(env, EmployerShape, body).value;
      && Get(out, "companyName") == Get(body.fields, "companyName")
      && Get(out, "companyName").Str? && |Get(out, "companyName").s| >= 2
      && Get(out, "password") == Get(body.fields, "password")
      && Get(out, "password").Str? && |Get(out, "password").s| >= 3
      && Get(out, "role") == Str("employer")
  {
    assert EmployerShape["companyName"] == NameField;
    assert EmployerShape["password"] == AccountPassword;
    assert EmployerShape["role"] == Field(OneOf(["employer"]), DefaultTo(Str("employer")));
    ParsedKey(env, EmployerShape, body, "companyName");
    ParsedKey(env, EmployerShape, body, "password");
    ParsedKey(env, EmployerShape, body, "role");
  }

  /** When missing, an employer's website, industry and location default to "". */
  lemma EmployerProfileDefaults(env: Env, body: Json)
    requires Parse(env, EmployerShape, body).Some?
    ensures var out := Parse(env, EmployerShape, body).value;
      && (Get(body.fields, "website").Undefined? ==> Get(out, "website") == Str(""))
      && (Get(body.fields, "industry").Undefined? ==> Get(out, "industry") == Str(""))
      && (Get(body.fields, "location").Undefined? ==> Get(out, "location") == Str(""))
  {
    EmployerProfileModes();
    if Get(body.fields, "website").Undefined? {
      DefaultedKey(env, EmployerShape, body, "website", Str(""));
    }
    if Get(body.fields, "industry").Undefined? {
      DefaultedKey(env, EmployerShape, body, "industry", Str(""));
    }
    if Get(body.fields, "location").Undefined? {
      DefaultedKey(env, EmployerShape, body, "location", Str(""));
    }
  }

  lemma EmployerProfileModes()
    ensures "website" in EmployerShape && EmployerShape["website"].mode == DefaultTo(Str(""))
    ensures "industry" in EmployerShape && EmployerShape["industry"].mode == DefaultTo(Str(""))
    ensures "location" in EmployerShape && EmployerShape["location"].mode == DefaultTo(Str(""))
  {
  }

  /** When missing, an employer's company size and description default to "". */
  lemma EmployerAboutDefaults(env: Env, body: Json)
    requires Parse(env, EmployerShape, body).Some?
    ensures var out := Parse(env, EmployerShape, body).value;
      && (Get(body.fields, "companySize").Undefined? ==> Get(out, "companySize") == Str(""))
      && (Get(body.fields, "description").Undefined? ==> Get(out, "description") == Str(""))
  {
    EmployerAboutModes();
    if Get(body.fields, "companySize").Undefined? {
      DefaultedKey(env, EmployerShape, body, "companySize", Str(""));
    }
    if Get(body.fields, "description").Undefined? {
      DefaultedKey(env, EmployerShape, body, "description", Str(""));
    }
  }

  lemma EmployerAboutModes()
    ensures "companySize" in EmployerShape && EmployerShape["companySize"].mode == DefaultTo(Str(""))
    ensures "description" in EmployerShape && EmployerShape["description"].mode == DefaultTo(Str(""))
  {
  }

  /** When missing, an employer's contact name and e-mail default to "". */
  lemma EmployerContactDefaults(env: Env, body: Json)
    requires Parse(env, EmployerShape, body).Some?
    ensures var out := Parse(env, EmployerShape, body).value;
      && (Get(body.fields, "contactName").Undefined? ==> Get(out, "contactName") == Str(""))
      && (Get(body.fields, "contactEmail").Undefined? ==> Get(out, "contactEmail") == Str(""))
  {
    EmployerContactModes();
    if Get(body.fields, "contactName").Undefined? {
      DefaultedKey(env, EmployerShape, body, "contactName", Str(""));
    }
    if Get(body.fields, "contactEmail").Undefined? {
      DefaultedKey(env, EmployerShape, body, "contactEmail", Str(""));
    }
  }

  lemma EmployerContactModes()
    ensures "contactName" in EmployerShape && EmployerShape["contactName"].mode == DefaultTo(Str(""))
    ensures "contactEmail" in EmployerShape && EmployerShape["contactEmail"].mode == DefaultTo(Str(""))
  {
  }

  /** When missing, an employer's logo and Google picture default to "". */
  lemma EmployerPictureDefaults(env: Env, body: Json)
    requires Parse(env, EmployerShape, body).Some?
    ensures var out := Parse(env, EmployerShape, body).value;
      && (Get(body.fields, "logoPath").Undefined? ==> Get(out, "logoPath") == Str(""))
      && (Get(body.fields, "googleProfilePicture").Undefined? ==> Get(out, "googleProfilePicture") == Str(""))
  {
    EmployerPictureModes();
    if Get(body.fields, "logoPath").Undefined? {
      DefaultedKey(env, EmployerShape, body, "logoPath", Str(""));
    }
    if Get(body.fields, "googleProfilePicture").Undefined? {
      DefaultedKey(env, EmployerShape, body, "googleProfilePicture", Str(""));
    }
  }

  lemma EmployerPictureModes()
    ensures "logoPath" in EmployerShape && EmployerShape["logoPath"].mode == DefaultTo(Str(""))
    ensures "googleProfilePicture" in EmployerShape && EmployerShape["googleProfilePicture"].mode == DefaultTo(Str(""))
  {
  }

  /** When missing, an employer's social links default to three empty strings
      and `isEmailVerified` to false. */
  lemma EmployerFlagDefaults(env: Env, body: Json)
    requires Parse(env, EmployerShape, body).Some?
    ensures var out := Parse(env, EmployerShape, body).value;
      && (Get(body.fields, "socialLinks").Undefined? ==> Get(out, "socialLinks") == NoSocialLinks)
      && (Get(body.fields, "isEmailVerified").Undefined? ==> Get(out, "isEmailVerified") == Bool(false))
  {
    EmployerFlagModes();
    if Get(body.fields, "socialLinks").Undefined? {
      DefaultedKey(env, EmployerShape, body, "socialLinks", NoSocialLinks);
    }
    if Get(body.fields, "isEmailVerified").Undefined? {
      DefaultedKey(env, EmployerShape, body, "isEmailVerified", Bool(false));
    }
  }

  lemma EmployerFlagModes()
    ensures "socialLinks" in EmployerShape && EmployerShape["socialLinks"].mode == DefaultTo(NoSocialLinks)
    ensures "isEmailVerified" in EmployerShape && EmployerShape["isEmailVerified"].mode == DefaultTo(Bool(false))
  {
  }

  /** An admin parses exactly when the e-mail passes the format test, the
      password has at least 6 characters and the role, if given, is "admin";
      the parsed role is always "admin". */
  lemma AdminSchema(env: Env, body: Json)
    ensures Parse(env, AdminShape, body).Some? <==>
      && body.Obj?
      && Get(body.fields, "email").Str? && env.isEmail(Get(body.fields, "email").s)
      && Get(body.fields, "password").Str? && |Get(body.fields, "password").s| >= 6
      && (Get(body.fields, "role").Undefined? || Get(body.fields, "role") == Str("admin"))
    ensures Parse(env, AdminShape, body).Some? ==> Get(Parse(env, AdminShape, body).value, "role") == Str("admin")
  {
    var e := Prop(body, "email");
    var p := Prop(body, "password");
    var r := Prop(body, "role");
    assert AdminShape["email"] == AccountEmail && AdminShape["password"] == AdminPassword;
    if body.Obj? && e.Str? && env.isEmail(e.s) && p.Str? && |p.s| >= 6 && (r.Undefined? || r == Str("admin")) {
      forall n | n in AdminShape ensures !ParseSlot(env, AdminShape[n], Prop(body, n)).Invalid? {
        assert n == "email" || n == "password" || n == "role";
      }
    }
    if Parse(env, AdminShape, body).Some? {
      ParsedKey(env, AdminShape, body, "email");
      ParsedKey(env, AdminShape, body, "password");
      ParsedKey(env, AdminShape, body, "role");
    }
  }
}

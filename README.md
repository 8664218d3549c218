# jobmitra accounts and authentication, in Dafny

A model of the account and authentication backend of jobmitra, a job
platform with three kinds of account: talents (candidates), employers and
administrators. It covers:

- the request validators and the document schemas;
- the account services over one collection per kind;
- the HTTP handlers that shape the responses;
- the `protect`/`authorize` middleware;
- the upload rules;
- the mail templates;
- the administrator seed.

Modules, one per part of the program:

| module | file | models |
|---|---|---|
| `Js` | js.dfy | JavaScript values (`undefined`, `null`, booleans, integers, strings, dates, arrays, objects), truthiness, `a \|\| b`, `${v}` rendering, the two error classes |
| `Text` | text.dfy | `toLowerCase`, `indexOf`, `split`, decimal rendering, `path.extname` |
| `Schema` | schema.dfy | a small interpreter of zod object schemas: required, optional and defaulted fields, `pick`, `extend`, `partial`, arrays of objects |
| `UserTypes` | usertypes.dfy | the talent, employer and admin schemas |
| `CredentialDtos`, `TalentDtos`, `EmployerDtos`, `AdminDtos` | *_dtos.dfy | the DTOs |
| `Store` | store.dfy | a Mongoose collection as a class over the sequence of its documents in natural order |
| `Crypto` | crypto.dfy | the argument checks of bcrypt and jsonwebtoken around their opaque results |
| `AccountService` | account_service.dfy | the talent and employer services, which share their logic |
| `AdminService`, `UserListing` | admin_service.dfy, user_listing.dfy | the admin service and the merged, sorted, paginated user listing |
| `Http` | http.dfy | responses and the handlers' error mapping |
| `TalentController`, `EmployerController`, `AdminController` | *_controller.dfy | the handlers |
| `Auth` | auth.dfy | `protect` and `authorize` over a request/response exchange object |
| `Routes` | routes.dfy | the unprotected `PUT /:id` routes of talents and employers and what they do to the admin gate |
| `Uploads` | uploads.dfy | multer's destination, file name, filter and size limits |
| `MailTemplates` | mail_templates.dfy | `getMailTemplate` |
| `AdminSeed` | admin_seed.dfy | `seedAdminUser` |

Each handler and service that changes a collection is a method on
`Store.Repository` objects. Its `ensures` give the new collection and the
response in terms of specification functions, and lemmas prove properties
of those functions: round trips such as register-then-login and
create-then-get, idempotence, uniqueness and absence of passwords.

Hashing, comparison, signing, token verification, `JSON.parse`, the e-mail
format check and the clock are parameters:

- `Kit` holds `hash`, `compare` and `sign`.
- `Env` holds the e-mail format predicate.
- `parse` stands for `JSON.parse`.
- `verify` stands for `jwt.verify`.
- `id` and `now` are the id and the time the database assigns.

No property relies on what these functions compute. Where a round trip needs
`compare(p, hash(p))`, it is an explicit precondition.

## Model

| member | source | states |
|---|---|---|
| Js.Or | src/controllers/admin/admin.controller.ts:38-39 | `a \|\| b` is `a` when `a` is truthy and `b` otherwise |
| Js.NatToString | src/middlewares/uploads.ts:79 | the decimal rendering of a number is never empty |
| Js.StatusOr500 | src/controllers/admin/admin.controller.ts:81-86 | `error.statusCode \|\| 500`: an HttpError's non-zero status, else 500 |
| Text.LowerStr | src/middlewares/auth.middleware.ts:55 | lower-casing keeps the length and lowers each character |
| Text.IndexOf | src/middlewares/auth.middleware.ts:56 | the index of the first occurrence, or none exactly when the character is absent |
| Text.LastIndexOf | src/middlewares/uploads.ts:55 | the index of the last occurrence, or none exactly when the character is absent |
| Text.Split | src/middlewares/auth.middleware.ts:56 | `split` always yields at least one piece |
| Text.SecondPieceBetweenSeparators | src/middlewares/auth.middleware.ts:56 | `split(" ")[1]` exists exactly when the separator occurs, and is the text between the first separator and the next one or the end |
| Text.NatToStringRoundTrip | src/middlewares/uploads.ts:79 | a rendered number is all digits and reads back as the number |
| Text.StripTrailingSlashes | src/middlewares/uploads.ts:55 | the result is a prefix of the path that does not end in '/' |
| Text.BaseName | src/middlewares/uploads.ts:55 | the base name is a suffix of the path with no '/' |
| Text.ExtNameShape | src/middlewares/uploads.ts:55 | a non-empty extension starts with its only '.', has no '/', and ends the name |
| Schema.ParseValue | src/types/TalentUser.type.ts:38-61 | one value checked against its kind: strings with their minimum length and e-mail format, enums, literals, booleans, dates, arrays and nested objects (properties: `KeptAsGiven`, `ParseItems`) |
| Schema.ParseShape | src/types/TalentUser.type.ts:38-61 | every field of the shape parsed, unknown keys stripped (properties: `ParsedKey`, `DefaultedKey`, `StrippedKey`) |
| Schema.Parse | src/types/TalentUser.type.ts:38-61 | `safeParse` of a body: only an object parses (properties: `ParsedKey`, `StrippedKey`) |
| Schema.ParseItems | src/types/TalentUser.type.ts:54-58 | an array parses exactly when every item does, item by item and in order |
| Schema.ParsedKey | src/types/TalentUser.type.ts:38-61 | each key of an accepted object comes out as its field parsed it, and is absent when the field yields nothing |
| Schema.KeptAsGiven | src/types/TalentUser.type.ts:38-61 | a scalar field without default comes out exactly as it went in |
| Schema.DefaultedKey | src/types/TalentUser.type.ts:43-60 | a missing key with a default comes out of an accepted object as the default |
| Schema.StrippedKey | src/types/TalentUser.type.ts:38-61 | an accepted object holds no key outside its shape |
| Schema.Extend | src/dtos/talentUser.dto.ts:12-14 | `extend` adds the new fields and replaces those of the same name, keeping the rest |
| Schema.Loosen | src/dtos/talentUser.dto.ts:21 | under `partial` a field keeps its kind and is no longer required |
| Schema.Partial | src/dtos/talentUser.dto.ts:21 | `partial` loosens every field and keeps the keys |
| Schema.PartialExtendOptional | src/dtos/talentUser.dto.ts:21-24 | a partial schema extended with optional fields has no required field, so `{}` parses |
| Schema.PartialAcceptsEmpty | src/dtos/employerUser.dto.ts:20 | a partial schema accepts `{}` |
| UserTypes.TalentNamesAndPassword | src/types/TalentUser.type.ts:39-44 | a parsed talent has first and last names of at least 2 characters and a password of at least 3, as given |
| UserTypes.TalentRole | src/types/TalentUser.type.ts:46 | the role is "candidate" or "employer", and "candidate" when none was given |
| UserTypes.TalentListDefaults | src/types/TalentUser.type.ts:54-55 | missing experiences and education default to [] |
| UserTypes.TalentShowcaseDefaults | src/types/TalentUser.type.ts:56-58 | missing skills, certifications and portfolio default to [] |
| UserTypes.TalentFlagDefaults | src/types/TalentUser.type.ts:43-59 | missing links default to three empty strings and `isEmailVerified` to false |
| UserTypes.ExperienceIsCurrentDefault | src/types/TalentUser.type.ts:10 | a missing `isCurrent` of an experience defaults to false |
| UserTypes.EmployerConstraints | src/types/EmployerUser.type.ts:12-25 | a parsed employer has a company name of at least 2 characters, a password of at least 3, and the role "employer" |
| UserTypes.EmployerProfileDefaults | src/types/EmployerUser.type.ts:17-24 | a missing website, industry or location defaults to "" |
| UserTypes.EmployerAboutDefaults | src/types/EmployerUser.type.ts:17-24 | a missing company size or description defaults to "" |
| UserTypes.EmployerContactDefaults | src/types/EmployerUser.type.ts:17-24 | a missing contact name or contact e-mail defaults to "" |
| UserTypes.EmployerPictureDefaults | src/types/EmployerUser.type.ts:17-31 | a missing logo or Google picture defaults to "" |
| UserTypes.EmployerFlagDefaults | src/types/EmployerUser.type.ts:27-29 | missing social links default to three empty strings and `isEmailVerified` to false |
| UserTypes.AdminSchema | src/types/Admin.type.ts:3-7 | an admin parses exactly when its e-mail is valid, its password has at least 6 characters and its role is absent or "admin"; the parsed role is always "admin" |
| CredentialDtos.LoginDto | src/dtos/talentUser.dto.ts:35-38 | the login body (property: `LoginAccepts`) |
| CredentialDtos.SendOtpDto | src/dtos/talentUser.dto.ts:43-45 | the OTP request body |
| CredentialDtos.VerifyOtpDto | src/dtos/talentUser.dto.ts:48-51 | the OTP check body (property: `VerifyOtpAccepts`) |
| CredentialDtos.ResetPasswordDto | src/dtos/talentUser.dto.ts:54-61 | the reset body (property: `ResetAccepts`) |
| CredentialDtos.VerifyOtpAndResetDto | src/dtos/talentUser.dto.ts:64-72 | the combined body (property: `VerifyOtpAndResetIsBoth`) |
| CredentialDtos.LoginAccepts | src/dtos/talentUser.dto.ts:35-38 | a login body is accepted exactly with a valid e-mail and a password of at least 6 characters, and only those two keys come out |
| CredentialDtos.VerifyOtpAccepts | src/dtos/talentUser.dto.ts:48-51 | an OTP is accepted exactly when it is six decimal digits and the e-mail is valid |
| CredentialDtos.ResetAccepts | src/dtos/talentUser.dto.ts:54-61 | a reset is accepted exactly when the new and confirmed passwords are equal strings of at least 6 characters and the e-mail is valid |
| CredentialDtos.VerifyOtpAndResetIsBoth | src/dtos/talentUser.dto.ts:64-72 | the combined DTO accepts exactly what both the OTP and the reset DTO accept |
| TalentDtos.CreateTalentDto | src/dtos/talentUser.dto.ts:5-17 | the talent registration body (properties: `CreateTalentAccepts`, `CreateTalentOutput`) |
| TalentDtos.CreateTalentPicksTalentFields | src/dtos/talentUser.dto.ts:5-11 | the registration fields are those of the talent schema |
| TalentDtos.CreateTalentAccepts | src/dtos/talentUser.dto.ts:5-17 | a registration is accepted exactly under the picked constraints, a confirmation of at least 6 characters and equal passwords |
| TalentDtos.CreateTalentOutput | src/dtos/talentUser.dto.ts:5-17 | an accepted registration holds its shape's keys as given and nothing else |
| TalentDtos.CreateTalentPasswordAtLeastSix | src/dtos/talentUser.dto.ts:5-17 | an accepted registration's password has at least 6 characters |
| TalentDtos.UpdateTalentDto | src/dtos/talentUser.dto.ts:21-32 | the talent update body (properties: `UpdateTalentAllOptional`, `UpdateTalentAccepts`) |
| TalentDtos.UpdateTalentAllOptional | src/dtos/talentUser.dto.ts:21-24 | no update field is required, so `{}` passes the shape |
| TalentDtos.UpdateTalentPasswordFields | src/dtos/talentUser.dto.ts:21-22 | the update's password and confirmation are optional strings of at least 3 and 6 characters |
| TalentDtos.UpdateTalentAccepts | src/dtos/talentUser.dto.ts:25-32 | an update passing the shape is accepted exactly when a truthy password or confirmation implies they are equal |
| EmployerDtos.CreateEmployerDto | src/dtos/employerUser.dto.ts:5-16 | the employer registration body (properties: `CreateEmployerAccepts`, `CreateEmployerOutput`) |
| EmployerDtos.CreateEmployerPicksEmployerFields | src/dtos/employerUser.dto.ts:5-10 | the registration fields are those of the employer schema |
| EmployerDtos.CreateEmployerAccepts | src/dtos/employerUser.dto.ts:5-16 | a registration is accepted exactly under the picked constraints, a confirmation of at least 6 characters and equal passwords |
| EmployerDtos.CreateEmployerOutput | src/dtos/employerUser.dto.ts:5-16 | an accepted registration holds only the picked keys and the confirmation; the contact name defaults to "" |
| EmployerDtos.CreateEmployerKeepsCredentials | src/dtos/employerUser.dto.ts:5-16 | the e-mail and password come out as given |
| EmployerDtos.CreateEmployerPasswordAtLeastSix | src/dtos/employerUser.dto.ts:5-16 | an accepted registration's password has at least 6 characters |
| EmployerDtos.UpdateEmployerDto | src/dtos/employerUser.dto.ts:20-29 | the employer update body (properties: `UpdateEmployerAllOptional`, `UpdateEmployerAccepts`) |
| EmployerDtos.UpdateEmployerAllOptional | src/dtos/employerUser.dto.ts:20-22 | no update field is required, so `{}` passes the shape |
| EmployerDtos.UpdateEmployerAccepts | src/dtos/employerUser.dto.ts:20-29 | an update passing the shape is accepted exactly when a truthy password or confirmation implies they are equal |
| AdminDtos.CreateAdminDto | src/dtos/admin.dto.ts:5-13 | the admin registration body (property: `CreateAdminAccepts`) |
| AdminDtos.CreateAdminPicksAdminFields | src/dtos/admin.dto.ts:5-8 | the e-mail and password fields are those of the admin schema |
| AdminDtos.CreateAdminAccepts | src/dtos/admin.dto.ts:5-13 | an admin body is accepted exactly with a valid e-mail, password and confirmation of at least 6 characters, equal; the role is not picked |
| AdminDtos.Preprocess | src/dtos/admin.dto.ts:38-47 | the wrapping of a flat body into `{userType, userData}` (properties: `PreprocessShape`, `PreprocessIdempotent`) |
| AdminDtos.CreateUserByAdminDto | src/dtos/admin.dto.ts:20-52 | the admin's create-user body (properties: `CreateUserByAdminRequires`, `FlatBodyAccepted`) |
| AdminDtos.PreprocessShape | src/dtos/admin.dto.ts:38-47 | a flat object becomes `{userType, userData: rest}`; a body with truthy `userData` or a non-object passes unchanged |
| AdminDtos.PreprocessIdempotent | src/dtos/admin.dto.ts:38-47 | preprocessing twice is preprocessing once |
| AdminDtos.CreateUserByAdminRequires | src/dtos/admin.dto.ts:20-52 | an accepted body names an employer or talent and carries user data with a valid e-mail and a password of at least 6 characters, as given |
| AdminDtos.MinimalUserData | src/dtos/admin.dto.ts:20-35 | user data with only a valid e-mail and password is accepted: no other field is required |
| AdminDtos.FlatBodyAccepted | src/dtos/admin.dto.ts:37-52 | a flat body with a known user type, a valid e-mail and a password is accepted and keeps its user type |
| Store.FindIndex | src/repositories/talentUser.repository.ts:31-33 | the first index whose document has the value, or none exactly when no document has it |
| Store.FindOne | src/repositories/talentUser.repository.ts:19-21 | `findOne` finds a document of the collection with the value exactly when one exists |
| Store.FindOneAppend | src/services/talentUser.service.ts:15-18 | after an append, a lookup that found nothing finds the new document exactly when it matches |
| Store.FindOneOnly | src/services/talentUser.service.ts:33-36 | the only matching document is the one found |
| Store.AppendFreshEmail | src/services/talentUser.service.ts:15-27 | appending a document whose e-mail is new keeps e-mails unique |
| Store.Stamp | src/repositories/talentUser.repository.ts:13-17 | a created document is the data plus a generated `_id` and both timestamps |
| Store.ApplyUpdate | src/repositories/talentUser.repository.ts:31-33 | `findByIdAndUpdate` sets every updated key but `_id`, keeps the others and moves `updatedAt` |
| Store.RemoveAt | src/repositories/talentUser.repository.ts:35-38 | the collection without one document, the rest in order |
| Store.RemoveAtDropsId | src/repositories/talentUser.repository.ts:35-38 | with unique ids, no document with the removed id is left |
| Store.Repository.constructor | src/repositories/talentUser.repository.ts:12 | a repository over the given documents |
| Store.Repository.GetById | src/repositories/talentUser.repository.ts:23-24 | `findById`: the first document with the id (property: `FindIndex`) |
| Store.Repository.GetByEmail | src/repositories/talentUser.repository.ts:19-20 | `findOne({email})` (properties: `FindOne`, `FindOneOnly`) |
| Store.Repository.Create | src/repositories/talentUser.repository.ts:13-17 | the stamped document is appended |
| Store.Repository.UpdateById | src/repositories/talentUser.repository.ts:31-33 | the document with the id is replaced by its update; none when no document has the id |
| Store.Repository.DeleteById | src/repositories/talentUser.repository.ts:35-38 | true exactly when a document had the id, which is then gone |
| Crypto.Hash | src/services/talentUser.service.ts:21-22 | hashing succeeds exactly on a string |
| Crypto.Compare | src/services/talentUser.service.ts:38-41 | comparing succeeds exactly on two strings |
| Crypto.Sign | src/services/talentUser.service.ts:43-51 | signing succeeds exactly with a non-empty secret |
| AccountService.Registration | src/services/talentUser.service.ts:20-27 | the stored record has the hashed password, no confirmation, and every other field as given |
| AccountService.Register | src/services/talentUser.service.ts:13-29 | a known e-mail is a 409 and stores nothing; otherwise the registration is appended; e-mails stay unique |
| AccountService.Payload | src/services/talentUser.service.ts:43-51 | the token payload has the account's id and fields and no password |
| AccountService.StoredPassword | src/services/talentUser.service.ts:38 | a missing stored password is compared as "" |
| AccountService.Login | src/services/talentUser.service.ts:32-53 | an unknown e-mail is a 404, a failed comparison a 401; success exactly when the password matches and the secret is set, with the signed payload |
| AccountService.GetAccount | src/services/talentUser.service.ts:61-65 | the account with the id, or a 404 exactly when there is none |
| AccountService.HashPassword | src/services/talentUser.service.ts:69-71 | a truthy password is replaced by its hash, every other key kept |
| AccountService.Update | src/services/talentUser.service.ts:68-75 | the account with the id gets the hashed updates; a 404 and no change when there is none |
| AccountService.RegisterThenLogin | src/services/talentUser.service.ts:13-53 | a registered account logs in with its password |
| AccountService.RegisterThenGet | src/services/talentUser.service.ts:13-65 | a registered account is found by its id |
| AccountService.UpdateThenLogin | src/services/talentUser.service.ts:32-75 | after a password update the account logs in with the new password |
| AdminService.Rethrow | src/services/admin/admin.service.ts:85-90 | the rethrown error keeps a status or takes 500, and keeps a message or takes the fallback |
| AdminService.AdminRecord | src/services/admin/admin.service.ts:19-20 | a created admin has the hashed password and the role "admin" whatever role was given |
| AdminService.CreateAdmin | src/services/admin/admin.service.ts:14-22 | a known e-mail is a 400 and stores nothing; otherwise the admin record is appended |
| AdminService.LoginAdmin | src/services/admin/admin.service.ts:24-34 | an unknown e-mail and a failed comparison are both 401; otherwise the stored admin |
| AdminService.CreateAdminThenLogin | src/services/admin/admin.service.ts:14-34 | a created admin logs in with its password |
| AdminService.UserRecord | src/services/admin/admin.service.ts:46-52 | the stored user has the hashed password and every other field as given |
| AdminService.InsertUser | src/services/admin/admin.service.ts:38-52 | one branch: a duplicate e-mail is refused, otherwise the user is appended |
| AdminService.CreateUserAsAdmin | src/services/admin/admin.service.ts:36-56 | only the chosen kind's collection is checked and changed; an unknown user type is refused |
| AdminService.GetUserById | src/services/admin/admin.service.ts:93-108 | employers first, then talents, then a 404 |
| AdminService.UpdateUserById | src/services/admin/admin.service.ts:112-138 | employers first, then talents; a truthy password is hashed; an unknown id gives nothing and no error |
| AdminService.DeleteUserById | src/services/admin/admin.service.ts:141-161 | removes the id from the first collection holding it and leaves the other unchanged; a 404 when none does |
| AdminService.DeletedUserIsGone | src/services/admin/admin.service.ts:93-161 | after the delete the id is not found |
| UserListing.CreatedTime | src/services/admin/admin.service.ts:65-66 | `new Date(createdAt \|\| 0)` as milliseconds, a missing date as 0 |
| UserListing.SortNewestFirst | src/services/admin/admin.service.ts:64-68 | the stable newest-first sort (properties: `SortIsNewestFirstPermutation`, `SortIsStable`) |
| UserListing.InsertAddsOne | src/services/admin/admin.service.ts:64-68 | inserting adds exactly one element to the multiset |
| UserListing.InsertedFrom | src/services/admin/admin.service.ts:64-68 | an inserted sequence holds only the new element and the old ones |
| UserListing.InsertKeepsOrder | src/services/admin/admin.service.ts:64-68 | inserting into a newest-first sequence keeps it newest first |
| UserListing.SortIsNewestFirstPermutation | src/services/admin/admin.service.ts:64-68 | the listing is newest first, with a missing date as 0, and a permutation of employers then talents |
| UserListing.InsertIsStable | src/services/admin/admin.service.ts:64-68 | insertion keeps equal-dated elements in order |
| UserListing.SortIsStable | src/services/admin/admin.service.ts:64-68 | users created at the same time keep their merged order |
| UserListing.TotalPages | src/services/admin/admin.service.ts:72 | `Math.ceil(total / size)`, infinite or NaN for size 0 (property: `TotalPagesIsCeiling`) |
| UserListing.TotalPagesIsCeiling | src/services/admin/admin.service.ts:72 | for a positive size the page count is the ceiling of total / size |
| UserListing.SliceIndex | src/services/admin/admin.service.ts:74 | a slice bound is clamped to the array |
| UserListing.ListingMetadata | src/services/admin/admin.service.ts:71-84 | the metadata counts every user and echoes the page and size |
| UserListing.Slice | src/services/admin/admin.service.ts:74 | `Array.prototype.slice` with clamped bounds (property: `SliceWindow`) |
| UserListing.GetAllUsers | src/services/admin/admin.service.ts:58-90 | the merged, sorted page and its metadata (properties: `ListingMetadata`, `PageWindow`, `UserOnItsPage`) |
| UserListing.SliceWindow | src/services/admin/admin.service.ts:74 | a slice from a non-negative start is the window of at most `len` elements |
| UserListing.PageWindow | src/services/admin/admin.service.ts:73-74 | the data is at most `size` users starting at `(page-1)*size` of the newest-first order |
| UserListing.PagePlacement | src/services/admin/admin.service.ts:72-74 | index `i` falls on page `i / size + 1` at offset `i % size`, within the page count |
| UserListing.UserOnItsPage | src/services/admin/admin.service.ts:64-84 | every user appears on its page at its offset, and that page is within the page count |
| UserListing.PageZeroIsEmpty | src/services/admin/admin.service.ts:73-74 | page 0 lists nobody |
| Http.ErrorResponse | src/controllers/talentUser.controller.ts:124-129 | a handler's error answers `statusCode \|\| 500` with `message \|\| "Internal server error"` |
| TalentController.FilterUserData | src/controllers/talentUser.controller.ts:14-15 | `null` exactly for a falsy user |
| TalentController.TalentViewKeys | src/controllers/talentUser.controller.ts:19-42 | the view has the profile fields, the lists and the links |
| TalentController.TalentViewSameKeys | src/controllers/talentUser.controller.ts:19-42 | every view has the same keys |
| TalentController.PasswordIsNoViewField | src/controllers/talentUser.controller.ts:19-45 | no view field is the password |
| TalentController.FilterUserDataKeys | src/controllers/talentUser.controller.ts:14-48 | the view's keys are fixed and never include the password |
| TalentController.TalentViewFields | src/controllers/talentUser.controller.ts:19-42 | missing or falsy links default to {} and lists to []; other fields are copied |
| TalentController.ViewFieldIdempotent | src/controllers/talentUser.controller.ts:19-42 | each field of a view is unchanged by filtering the view again |
| TalentController.FilterUserDataIdempotent | src/controllers/talentUser.controller.ts:14-48 | filtering a view again gives the same view |
| TalentController.NormalizeKeys | src/controllers/talentUser.controller.ts:161-206 | the JSON fields normalised one after the other (properties: `NormalizeEffects`, `NormalizeIdempotent`) |
| TalentController.NormalizeOneMore | src/controllers/talentUser.controller.ts:161-206 | normalising one more field changes that field alone |
| TalentController.JsonFieldsDistinct | src/controllers/talentUser.controller.ts:156 | the JSON fields are distinct |
| TalentController.NormalizeJsonFields | src/controllers/talentUser.controller.ts:156-206 | the loop over the JSON fields computes the normalised body |
| TalentController.NormalizeEffects | src/controllers/talentUser.controller.ts:161-206 | non-JSON fields and non-strings are kept; blank, "[]" and "{}" become []; other text is kept parsed only when it parses to an object, array or null |
| TalentController.NormalizeIdempotent | src/controllers/talentUser.controller.ts:161-206 | normalising again changes nothing |
| TalentController.KeepItems | src/controllers/talentUser.controller.ts:216-222 | the kept items are exactly the items that pass the test |
| TalentController.KeepItemsIdempotent | src/controllers/talentUser.controller.ts:216-222 | filtering twice is filtering once |
| TalentController.CleanField | src/controllers/talentUser.controller.ts:213-226 | cleaning a field keeps every key |
| TalentController.CleanOneMore | src/controllers/talentUser.controller.ts:228-231 | cleaning one more field cleans that field alone |
| TalentController.CleanArrays | src/controllers/talentUser.controller.ts:212-233 | the loop over the four list fields computes the cleaned body |
| TalentController.CleanedBodyEffects | src/controllers/talentUser.controller.ts:212-233 | a cleaned list holds exactly the items that pass the test; every other value is unchanged |
| TalentController.UploadedFileReachesService | src/controllers/talentUser.controller.ts:142-153 | a resume's file name goes to `cvPath` and a photo's to `profilePicturePath`; without a file both are passed as sent |
| TalentController.PreparedBody | src/controllers/talentUser.controller.ts:141-233 | the uploaded file's name mapped, the JSON fields normalised and the lists cleaned (properties: `UploadedFileReachesService`, `NormalizeEffects`, `CleanedBodyEffects`) |
| TalentController.UpdateTalent | src/controllers/talentUser.controller.ts:134-295 | the prepared body updates the talent, answering its view, a 404 or the hashing error |
| TalentController.RegisterTalent | src/controllers/talentUser.controller.ts:54-76 | a rejected body is a 400; any service error, the duplicate included, is a 500; otherwise 201 with the new talent's view |
| TalentController.LoginTalent | src/controllers/talentUser.controller.ts:79-99 | a rejected body is a 400 "Invalid credentials"; 200 exactly when the service logs in, with its token and view |
| TalentController.LoginSendsNoPassword | src/controllers/talentUser.controller.ts:86-92 | a successful login sends no password |
| TalentController.GetTalentById | src/controllers/talentUser.controller.ts:118-131 | 200 with the talent's view, or the 404 of the service |
| TalentController.FilterUsers | src/controllers/talentUser.controller.ts:50 | the view of each talent, in order |
| TalentController.GetAllTalents | src/controllers/talentUser.controller.ts:102-114 | 200 with every talent's view (property: `ListedTalentsShowNoPassword`) |
| TalentController.ListedTalentsShowNoPassword | src/controllers/talentUser.controller.ts:102-115 | the listing shows one view per talent in order, none with a password |
| TalentController.GetCurrentUserProfile | src/controllers/talentUser.controller.ts:300-321 | a missing user is a 500, a user without an id a 401, otherwise the lookup of its id |
| TalentController.ProtectedTalentSeesOwnProfile | src/controllers/talentUser.controller.ts:300-321 | a talent attached by `protect` gets its own view |
| TalentController.ResumeReplacesProfilePicture | src/controllers/talentUser.controller.ts:358-380 | as written, an uploaded resume overwrites the profile picture and not the CV path |
| TalentController.PhotoPlanFor | src/controllers/talentUser.controller.ts:331-371 | the same guards as the code as written |
| TalentController.PhotoPlanRules | src/controllers/talentUser.controller.ts:331-380 | 400 without a file, over `MAX_FILE_UPLOAD` or for another field; a resume updates `cvPath` and a photo `profilePicturePath` |
| TalentController.UploadProfilePhotoAsWritten | src/controllers/talentUser.controller.ts:331-380 | the handler's guards and the one update it makes |
| TalentController.AsWrittenPlanRules | src/controllers/talentUser.controller.ts:331-380 | as written, 400 exactly without a file, over a positive `MAX_FILE_UPLOAD` or for a field other than resume and photo; an accepted file, a resume's included, only sets `profilePicturePath` to its name, as the corrected plan does for a photo |
| TalentController.UploadProfilePhoto | src/controllers/talentUser.controller.ts:324-390 | as written: a rejected upload answers 400 and changes nothing; an unknown user is a 404; otherwise the file's name, a resume's included, is written to `profilePicturePath` with `cvPath` kept, and 200 answers that name |
| EmployerController.FilterUserData | src/controllers/employerUser.controller.ts:11-12 | `null` exactly for a falsy user |
| EmployerController.EmployerViewFields | src/controllers/employerUser.controller.ts:13-22 | seven fields, no password; the picture is `logoPath \|\| googleProfilePicture` |
| EmployerController.RegisterEmployer | src/controllers/employerUser.controller.ts:29-51 | a rejected body is a 400; any service error is a 500; otherwise 201 "Employer registered successfully" |
| EmployerController.LoginEmployer | src/controllers/employerUser.controller.ts:54-74 | a rejected body is a 400 "Invalid credentials"; 200 exactly when the service logs in |
| EmployerController.LoginSendsNoPassword | src/controllers/employerUser.controller.ts:61-67 | a successful login sends no password |
| EmployerController.GetEmployerById | src/controllers/employerUser.controller.ts:93-106 | 200 with the employer's view, or the 404 of the service |
| EmployerController.FilterUsers | src/controllers/employerUser.controller.ts:25 | the view of each employer, in order |
| EmployerController.GetAllEmployers | src/controllers/employerUser.controller.ts:77-89 | 200 with every employer's view (property: `ListedEmployersShowNoPassword`) |
| EmployerController.ListedEmployersShowNoPassword | src/controllers/employerUser.controller.ts:77-90 | the listing shows one view per employer in order, none with a password |
| EmployerController.UpdateEmployer | src/controllers/employerUser.controller.ts:109-123 | the body updates the employer, answering its view, a 404 or the hashing error |
| AdminController.FilterAdminData | src/controllers/admin/admin.controller.ts:12-13 | `null` exactly for a falsy admin |
| AdminController.AdminViewFields | src/controllers/admin/admin.controller.ts:14-21 | only `_id`, e-mail, role and the timestamps are shown |
| AdminController.FilterUserData | src/controllers/admin/admin.controller.ts:25-27 | `null` exactly for a falsy user |
| AdminController.FilterUserDataDiscriminates | src/controllers/admin/admin.controller.ts:29-55 | the employer view exactly for a truthy company name, otherwise the talent view; never a password |
| AdminController.FilterUserDataPicture | src/controllers/admin/admin.controller.ts:38-51 | an employer's logo and picture are `logoPath \|\| googleProfilePicture`; a talent's is `profilePicturePath \|\| googleProfilePicture` |
| AdminController.EmployerViewExtendsEmployerControllerView | src/controllers/admin/admin.controller.ts:30-42 | the admin's employer view holds the employer handler's view |
| AdminController.SavedAdmin | src/controllers/admin/admin.controller.ts:73-76 | the stored admin has the e-mail, the hashed password, the role "admin" and no confirmation |
| AdminController.DataToSave | src/controllers/admin/admin.controller.ts:73-74 | the service gets the e-mail and password without the confirmation |
| AdminController.CreateAdmin | src/controllers/admin/admin.controller.ts:63-87 | 400 for a rejected body or a known e-mail; otherwise the admin is stored and 201 answers its view |
| AdminController.AdminPayload | src/controllers/admin/admin.controller.ts:99-103 | the admin token payload is `{id, email, role}` |
| AdminController.LoginAdmin | src/controllers/admin/admin.controller.ts:90-119 | a rejected body is a 400; 200 exactly when the service logs in and the secret is set, with a 24-hour token |
| AdminController.WithProfilePicture | src/controllers/admin/admin.controller.ts:135-137 | an uploaded file's name overrides `profilePicturePath`; the other fields are kept |
| AdminController.CreateUserAsAdmin | src/controllers/admin/admin.controller.ts:122-152 | a rejected body is a 400; a duplicate is a 500 and changes nothing; otherwise 201 with the new user's view, only its kind's collection changed |
| AdminController.OrDefault | src/controllers/admin/admin.controller.ts:157-158 | a missing, non-numeric or zero query falls back |
| AdminController.FilterUsers | src/controllers/admin/admin.controller.ts:58 | the view of each user, in order |
| AdminController.GetAllUsers | src/controllers/admin/admin.controller.ts:155-172 | the listing of the parsed page and size, each user shown by its view (property: `ListingDefaults`) |
| AdminController.ListingDefaults | src/controllers/admin/admin.controller.ts:155-172 | without queries the first page of ten is listed, and the page count is always a number |
| AdminController.GetUserById | src/controllers/admin/admin.controller.ts:175-188 | 200 exactly when either collection has the id, otherwise 404 |
| AdminController.UnknownUserReportedUpdated | src/controllers/admin/admin.controller.ts:200-205 | as written, an unknown id answers 200 "User updated successfully" with null data |
| AdminController.UpdatedUserResponse | src/controllers/admin/admin.controller.ts:191-212 | 200 exactly for an updated user; an unknown id is a 404 |
| AdminController.UpdatedUserResponseAsWritten | src/controllers/admin/admin.controller.ts:200-211 | the handler's answer to the service's result, as written |
| AdminController.UpdateUserById | src/controllers/admin/admin.controller.ts:191-212 | the user is updated in its own collection only; as written an unknown id changes nothing and answers 200 "User updated successfully" with null data; a hashing error answers `error.statusCode \|\| 500` |
| AdminController.DeleteUserById | src/controllers/admin/admin.controller.ts:215-228 | 200 once the user is removed from exactly one collection, otherwise 404 |
| Auth.ExtractToken | src/middlewares/auth.middleware.ts:52-56 | the second piece of a header starting with "bearer" in any case (properties: `ExtractTokenShape`, `RejectedHeaders`) |
| Auth.ExtractTokenShape | src/middlewares/auth.middleware.ts:54-58 | a token exactly for a header that starts with "bearer" in any case and has a space; the token is the second space-separated piece |
| Auth.RejectedHeaders | src/middlewares/auth.middleware.ts:54-65 | no header, "InvalidFormat token" and a bare "Bearer" give no token |
| Auth.FindUserById | src/middlewares/auth.middleware.ts:33-41 | talents first, then employers, then admins |
| Auth.TalentShadowsOtherKinds | src/middlewares/auth.middleware.ts:33-41 | a talent's id resolves to a talent whatever the other collections hold |
| Auth.Exchange.constructor | src/middlewares/auth.middleware.ts:46-47 | a fresh exchange: no user, no response, `next` not called |
| Auth.Protect | src/middlewares/auth.middleware.ts:46-103 | 401 without a token, 500 without a secret, 401 when verification fails or no account has the id; otherwise the account is attached with `userId` and `next` runs once |
| Auth.Authorize | src/middlewares/auth.middleware.ts:108-117 | `next` exactly when the role is allowed, otherwise 403 naming the role |
| Auth.Attached | src/middlewares/auth.middleware.ts:33-41 | the account `protect` attaches for an id, with its `userId` |
| Auth.AdminGateAdmitsStoredAdminRole | src/middlewares/auth.middleware.ts:33-117 | behind `protect` and `authorize("admin")` an id passes exactly when the account it resolves to stores the role "admin", a talent's included |
| Auth.AdminRoutesAdmitOnlyAdminAccounts | src/middlewares/auth.middleware.ts:33-117 | only an admin document with the role "admin" passes, while no talent or employer stores that role (kept so by `Routes.CorrectedUpdateKeepsAdminsOut`, broken by `Routes.TalentSelfPromotion`) |
| Routes.TalentSelfPromotion | src/routes/talentUser.route.ts:14 | as written, an unauthenticated `PUT /:id` with `{"role": "admin"}` stores the role on the talent, which then passes the admin gate |
| Routes.RoleSurvivesPreparation | src/controllers/talentUser.controller.ts:134-233 | `updateTalent`'s preparation passes the role through and adds no password |
| Routes.EmployerSelfPromotion | src/routes/employerUser.route.ts:14 | as written, the same body makes an employer pass the admin gate |
| Routes.WithoutRole | src/models/talentUser_model.ts:12 | the corrected update drops the role and keeps every other key |
| Routes.CorrectedUpdateKeepsAdminsOut | src/models/talentUser_model.ts:12 | under the corrected update the stored role is unchanged, so no document gains the role "admin" |
| Routes.CorrectedTalentStaysOut | src/routes/talentUser.route.ts:14 | under the corrected update a talent asking for the role "admin" still does not pass the admin gate |
| Uploads.Destination | src/middlewares/uploads.ts:16-49 | each of the six fields' folder; any other field is the error "Invalid field name for upload." (properties: `DestinationAndFilterAgree`, `FoldersAndPrefixesDistinct`) |
| Uploads.Prefix | src/middlewares/uploads.ts:56-77 | each field's file-name prefix, "file" for any other (property: `FoldersAndPrefixesDistinct`) |
| Uploads.FileName | src/middlewares/uploads.ts:50-80 | prefix, dash, the upload time and the extension (property: `FileNameShape`) |
| Uploads.FileFilter | src/middlewares/uploads.ts:83-119 | the extension allow-list of each field (properties: `FilterAccepts`, `FilterExamples`) |
| Uploads.SizeLimit | src/middlewares/uploads.ts:122-145 | each instance's `limits.fileSize` (property: `SizeLimits`) |
| Uploads.SizeLimits | src/middlewares/uploads.ts:6-7 | 100 MiB ceilings, 50 MiB for videos |
| Uploads.DestinationAndFilterAgree | src/middlewares/uploads.ts:16-119 | the storage and the filter accept exactly the same six fields |
| Uploads.FoldersAndPrefixesDistinct | src/middlewares/uploads.ts:16-80 | each field has its own folder under "public/" and its own prefix |
| Uploads.FilterAccepts | src/middlewares/uploads.ts:83-119 | videos, images and documents are accepted by extension, ignoring case; unknown fields accept nothing |
| Uploads.FilterExamples | src/middlewares/uploads.ts:89-114 | "CV.PDF" is a resume and "clip.MOV" a video, "photo.png.exe" is no image |
| Uploads.FileNameShape | src/middlewares/uploads.ts:50-80 | a stored name is prefix, dash, the upload time in digits and the extension, and the digits read back as the time |
| MailTemplates.Read | src/services/mail/mail.templates.ts:14 | reading a property of `undefined` or `null` throws |
| MailTemplates.Fill | src/services/mail/mail.templates.ts:8-16 | a mail is built exactly when the payload can be read |
| MailTemplates.GetMailTemplate | src/services/mail/mail.templates.ts:3-63 | each type's subject; an unknown type throws "Invalid mail type" |
| MailTemplates.Between | src/services/mail/mail.templates.ts:8-58 | a found slot sits between the fixed texts |
| MailTemplates.BetweenRecovers | src/services/mail/mail.templates.ts:8-58 | an interpolated value is read back between its fixed texts |
| MailTemplates.SecondSlot | src/services/mail/mail.templates.ts:38-47 | the second value of a two-slot text is read back |
| MailTemplates.FillRecovers | src/services/mail/mail.templates.ts:8-58 | the body carries the payload field |
| MailTemplates.MailCarriesPayload | src/services/mail/mail.templates.ts:8-58 | the verify and reset mails carry the link, the OTP mail the code, the notification the message |
| MailTemplates.OtpMailCarriesYear | src/services/mail/mail.templates.ts:47 | the OTP mail's footer carries the year |
| MailTemplates.MailDependsOnItsFields | src/services/mail/mail.templates.ts:3-63 | a mail depends only on the fields it reads, and the fixed subjects differ |
| AdminSeed.EnvOr | src/seeds/admin.seed.ts:18-20 | an unset or empty variable falls back |
| AdminSeed.StampedSeedRecord | src/seeds/admin.seed.ts:26-32 | the stored seed keeps its e-mail, password and role |
| AdminSeed.Seeded | src/seeds/admin.seed.ts:8-32 | an existing admin leaves the collection unchanged; otherwise one admin with the e-mail, the hash and the role "admin" is appended |
| AdminSeed.SeedAdminUser | src/seeds/admin.seed.ts:5-42 | the collection after seeding, with unique e-mails preserved |
| AdminSeed.SeedingTwice | src/seeds/admin.seed.ts:8-32 | seeding twice is seeding once |
| AdminSeed.SeededAdminIsUnique | src/seeds/admin.seed.ts:8-32 | after seeding exactly one admin has the e-mail |
| AdminSeed.SeedDefaults | src/seeds/admin.seed.ts:9-23 | unset variables seed "admin@jobmitra.com" with the hash of "123456" |

## Left out

- The password-reset OTP flow (src/controllers/talentUser.controller.ts:394-508): the service methods it calls are not in the repository, so only its DTOs are modelled.
- Mail transport (src/services/mail/mail.service.ts) is not part of this model; only the templates are.
- The résumé extraction call and the `ExtractedCandidate` upsert in `updateTalent` (src/controllers/talentUser.controller.ts:243-274): an external process and another collection.
- Logging and console output.
- Folder creation in the upload middleware (src/middlewares/uploads.ts:9-13, 47): file system side effects.
- Express wiring: the app, CORS, static files and the error middleware that `next(error)` reaches. Of the routes only the unprotected `PUT /:id` of talents and employers is modelled, in `Routes`.
- Mongoose casting, schema validation on save and ObjectId cast errors: ids are strings compared exactly, and documents are stored as given.
- Concurrency: every call is atomic and sequential.
- Numbers are integers and dates are milliseconds; NaN, floats and invalid dates are not modelled.
- Path separators are POSIX only.
- Response bodies keep keys whose value is `undefined`, which `res.json` would drop.
- The text of zod's error report is an opaque parameter.
- `bcryptjs`, `jsonwebtoken`, `JSON.parse` and the e-mail format check are parameters; no property depends on what they compute.
- Case folding is ASCII only.
- The admin seed's catch-and-rethrow: no database error is modelled.
- The `req.body` writes in `uploadProfilePhoto` (src/controllers/talentUser.controller.ts:358-371) are not modelled: nothing after them reads them.
- `getAllUsers`' own default size of 5 (src/services/admin/admin.service.ts:58) is not modelled: the handler always passes a size.
- The unique index on `email` (src/models/talentUser_model.ts:8, src/models/employerUser_model.ts:7) is not modelled on updates: `AccountService.Update`, `EmployerController.UpdateEmployer` and `AdminService.UpdateUserById` store an e-mail another account already has, where MongoDB would fail with a duplicate-key error answered as a 500. Creation checks e-mails explicitly, as the services do.
- String lengths: zod's `min` counts UTF-16 code units, and the model counts characters (Unicode scalar values), so a string with characters outside the Basic Multilingual Plane is shorter here than to zod.
- Store.ApplyUpdate: `findByIdAndUpdate` in strict mode drops keys outside the schema and never writes `createdAt` from the update; the model writes every key but `_id` and `updatedAt` as given.
- AdminDtos.Preprocess: an array body is wrapped with an empty `userData`, where the spread would copy its indices; such a body fails the schema either way.
- UserListing.CreatedTime: a `createdAt` held as a string, which `new Date` would parse, counts as 0; stored documents hold dates.
- Schema.Partial: a defaulted field stays defaulted under `partial`; only acceptance, not the default values, is relied on for partial schemas.

## Findings

| source | as written | input that shows it | evidently intended | confidence | as-written member | corrected member |
|---|---|---|---|---|---|---|
| src/controllers/talentUser.controller.ts:358-380 | a resume upload only sets `req.body.cvPath`, and the update always writes `profilePicturePath: req.file.filename` | a file in field "resume" named "resume-1.pdf": the talent's profile picture becomes the PDF and its CV path is unchanged | a resume goes to `cvPath`, a photo to `profilePicturePath` | medium, not executed | TalentController.ResumeReplacesProfilePicture | TalentController.PhotoPlanRules |
| src/services/admin/admin.service.ts:112-138 with src/controllers/admin/admin.controller.ts:200-205 | for an id in neither collection the service returns `undefined` without an error, and the handler answers 200 "User updated successfully" with `data: null` | PUT /users/&lt;unknown id&gt; | 404 "User not found", as the lookup and the deletion answer | medium, not executed | AdminController.UnknownUserReportedUpdated | AdminController.UpdatedUserResponse |
| src/routes/talentUser.route.ts:14 with src/controllers/talentUser.controller.ts:134-233 and src/repositories/talentUser.repository.ts:31-33 | `PUT /:id` runs `updateTalent` without `protect`, and `findByIdAndUpdate` runs no validators, so any key of the body, `role` included, is stored | PUT /api/talents/&lt;a talent's id&gt; with the body `{"role": "admin"}`: the talent then passes `authorize("admin")` | the role stays within the schema's enum (src/models/talentUser_model.ts:12) and the update is protected | high, not executed | Routes.TalentSelfPromotion | Routes.CorrectedUpdateKeepsAdminsOut |

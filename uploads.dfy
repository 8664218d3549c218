/** The upload rules of the multer middleware: the folder and the file name
    each form field's file is stored under, the extension allow-lists, and
    the size ceilings of the four upload instances. */
module Uploads {
  import opened Js
  import opened Text

  /** The six form fields that carry files. */
  const UploadFields: set<string> :=
    {"profilePicture", "itemPhoto", "itemVideo", "resume", "coverLetterDocument", "logoPath"}

  const InvalidField: string := "Invalid field name for upload."

  /** `storage.destination`: the folder of each upload field (`path.join`
      with the POSIX separator); any other field is an error. */
  function Destination(fieldname: string): Outcome<string>
  {
    match fieldname
    case "profilePicture" => Ok("public/profile_pictures")
    case "itemPhoto" => Ok("public/item_photos")
    case "itemVideo" => Ok("public/item_videos")
    case "resume" => Ok("public/resumes")
    case "coverLetterDocument" => Ok("public/cover_letters")
    case "logoPath" => Ok("public/logos")
    case _ => Err(PlainError(InvalidField))
  }

  /** The file-name prefix of each upload field; "file" for any other. */
  function Prefix(fieldname: string): string
  {
    match fieldname
    case "logoPath" => "logo"
    case "profilePicture" => "pro-pic"
    case "itemPhoto" => "itm-pic"
    case "itemVideo" => "item-vid"
    case "resume" => "resume"
    case "coverLetterDocument" => "cover-letter"
    case _ => "file"
  }

  /** `storage.filename`: `${prefix}-${Date.now()}${path.extname(originalname)}`. */
  function FileName(fieldname: string, originalname: string, now: nat): string
  {
    Prefix(fieldname) + "-" + NatToString(now) + ExtName(originalname)
  }

  const VideoExtensions: seq<string> := [".mp4", ".avi", ".mov", ".wmv"]
  const ImageExtensions: seq<string> := [".jpg", ".jpeg", ".png", ".gif"]
  const DocumentExtensions: seq<string> := [".pdf", ".doc", ".docx"]

  /** The name ends with one of the extensions, ignoring ASCII case (the
      `/\.(a|b)$/i` test: without the `u` flag, case-insensitive matching
      never maps a non-ASCII character to an ASCII one). */
  predicate HasExtension(name: string, extensions: seq<string>)
  {
    exists k :: 0 <= k < |extensions| && EndsWith(LowerStr(name), extensions[k])
  }

  datatype Verdict = Accepted | Rejected(message: string)

  /** `fileFilter` */
  function FileFilter(fieldname: string, originalname: string): Verdict
  {
    match fieldname
    case "itemVideo" =>
      if !HasExtension(originalname, VideoExtensions) then Rejected("Video format not supported.") else Accepted
    case "logoPath" =>
      if !HasExtension(originalname, ImageExtensions) then Rejected("Image format not supported.") else Accepted
    case "profilePicture" =>
      if !HasExtension(originalname, ImageExtensions) then Rejected("Image format not supported.") else Accepted
    case "itemPhoto" =>
      if !HasExtension(originalname, ImageExtensions) then Rejected("Image format not supported.") else Accepted
    case "resume" =>
      if !HasExtension(originalname, DocumentExtensions) then Rejected(fieldname + " must be PDF or DOC format.") else Accepted
    case "coverLetterDocument" =>
      if !HasExtension(originalname, DocumentExtensions) then Rejected(fieldname + " must be PDF or DOC format.") else Accepted
    case _ => Rejected(InvalidField)
  }

  /** The four multer instances. */
  datatype Uploader = UploadFiles | UploadImage | UploadVideo | UploadResume

  const MaxSize: nat := 100 * 1024 * 1024
  const MaxVideoSize: nat := 50 * 1024 * 1024

  /** `limits.fileSize` of each instance. */
  function SizeLimit(u: Uploader): nat
  {
    if u == UploadVideo then MaxVideoSize else MaxSize
  }

  /** The size ceilings are 100 MiB, except 50 MiB for videos. */
  lemma SizeLimits()
    ensures SizeLimit(UploadFiles) == 104857600 && SizeLimit(UploadImage) == 104857600
    ensures SizeLimit(UploadResume) == 104857600 && SizeLimit(UploadVideo) == 52428800
    ensures forall u :: SizeLimit(u) <= MaxSize
  {
  }

  /** The storage and the filter accept the same field names: a field has a
      folder exactly when the filter does not reject it as an unknown field. */
  lemma DestinationAndFilterAgree(fieldname: string, originalname: string)
    ensures Destination(fieldname).Ok? <==> fieldname in UploadFields
    ensures FileFilter(fieldname, originalname) == Rejected(InvalidField) <==> fieldname !in UploadFields
  {
  }

  /** Every upload field has its own folder under "public/" and its own
      file-name prefix, none of them the default "file". */
  lemma FoldersAndPrefixesDistinct(f: string, g: string)
    requires f in UploadFields && g in UploadFields && f != g
    ensures Destination(f).Ok? && StartsWith(Destination(f).value, "public/")
    ensures Destination(f) != Destination(g)
    ensures Prefix(f) != Prefix(g) && Prefix(f) != "file"
  {
    var rf := UploadRow(f);
    var rg := UploadRow(g);
    assert rf != rg;
  }

  /** The position of an upload field in UploadFields, and its folder and
      prefix read off that position. */
  lemma UploadRow(f: string) returns (k: nat)
    requires f in UploadFields
    ensures k < 6
    ensures Destination(f) == Ok(["public/profile_pictures", "public/item_photos", "public/item_videos",
      "public/resumes", "public/cover_letters", "public/logos"][k])
    ensures Prefix(f) == ["pro-pic", "itm-pic", "item-vid", "resume", "cover-letter", "logo"][k]
  {
    k := if f == "profilePicture" then 0 else if f == "itemPhoto" then 1 else if f == "itemVideo" then 2
      else if f == "resume" then 3 else if f == "coverLetterDocument" then 4 else 5;
  }

  /** Which names each field accepts: videos, images and documents by
      extension, ignoring ASCII case; an unknown field accepts nothing. */
  lemma FilterAccepts(fieldname: string, originalname: string)
    ensures FileFilter(fieldname, originalname).Accepted? <==>
      || (fieldname == "itemVideo" && HasExtension(originalname, VideoExtensions))
      || (fieldname in {"logoPath", "profilePicture", "itemPhoto"} && HasExtension(originalname, ImageExtensions))
      || (fieldname in {"resume", "coverLetterDocument"} && HasExtension(originalname, DocumentExtensions))
  {
  }

  /** Upper case is accepted: "CV.PDF" is a valid resume and "clip.MOV" a
      valid video, while "photo.png.exe" is not a valid image. */
  lemma FilterExamples()
    ensures FileFilter("resume", "CV.PDF").Accepted?
    ensures FileFilter("itemVideo", "clip.MOV").Accepted?
    ensures FileFilter("profilePicture", "photo.png.exe").Rejected?
  {
    assert EndsWith(LowerStr("CV.PDF"), DocumentExtensions[0]);
    assert EndsWith(LowerStr("clip.MOV"), VideoExtensions[2]);
    var l := LowerStr("photo.png.exe");
    forall k | 0 <= k < |ImageExtensions| ensures !EndsWith(l, ImageExtensions[k]) {
      assert l[|l| - 1] == 'e';
    }
  }

  /** A stored file name is the field's prefix, a dash, the upload time in
      decimal digits, and the original extension; the digits read back as the
      upload time. */
  lemma FileNameShape(fieldname: string, originalname: string, now: nat)
    ensures var name := FileName(fieldname, originalname, now);
      var p := Prefix(fieldname);
      var e := ExtName(originalname);
      && StartsWith(name, p + "-") && EndsWith(name, e)
      && |name| > |p| + 1 + |e|
      && AllDigits(name[|p| + 1..|name| - |e|])
      && ParseDigits(name[|p| + 1..|name| - |e|]) == now
  {
    var name := FileName(fieldname, originalname, now);
    var p := Prefix(fieldname);
    var e := ExtName(originalname);
    var digits := NatToString(now);
    NatToStringRoundTrip(now);
    assert name == (p + "-") + digits + e;
    assert name[..|p| + 1] == p + "-";
    assert name[|name| - |e|..] == e;
    assert name[|p| + 1..|name| - |e|] == digits;
  }
}

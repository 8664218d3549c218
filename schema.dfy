/** The part of zod the DTOs and type schemas use: string, e-mail, boolean,
    enum, date, array and object checks, `.optional()`, `.default(...)`, and
    the `extend` and `partial` operations on object shapes. Parsing an
    object keeps only the keys of its shape (unknown keys are stripped). */
module Schema {
  import opened Js
  import opened Text

  /** What a schema checks about a present value. */
  datatype Kind =
    | StringAtLeast(min: nat)        // z.string(), z.string().min(min)
    | EmailAtLeast(min: nat)         // z.email(), z.string().min(min).email()
    | SixDigits                      // z.string().length(6).regex(/^\d+$/)
    | Boolean                        // z.boolean()
    | OneOf(options: seq<string>)    // z.enum([...]), z.literal(...)
    | DateObject                     // z.date()
    | ArrayOf(item: Kind)            // z.array(item)
    | ObjectOf(shape: map<string, Field>)   // z.object({...})

  /** What happens when the key is missing (or `undefined`). */
  datatype Mode =
    | Required
    | Optional                       // .optional(): the key stays absent
    | DefaultTo(value: Json)         // .default(value)
    | DefaultNow                     // .default(() => new Date())

  datatype Field = Field(kind: Kind, mode: Mode)

  /** The keys of an object schema and what each of them demands. */
  type Shape = map<string, Field>

  /** The library's e-mail format test and the clock that
      `.default(() => new Date())` reads. */
  datatype Env = Env(isEmail: string -> bool, now: int)

  /** The outcome for one key of an object shape. */
  datatype Slot = Absent | Present(value: Json) | Invalid

  function ParseValue(env: Env, k: Kind, v: Json): Option<Json>
    decreases k, 2, 0
  {
    match k
    case StringAtLeast(min) => if v.Str? && |v.s| >= min then Some(v) else None
    case EmailAtLeast(min) => if v.Str? && |v.s| >= min && env.isEmail(v.s) then Some(v) else None
    case SixDigits => if v.Str? && |v.s| == 6 && AllDigits(v.s) then Some(v) else None
    case Boolean => if v.Bool? then Some(v) else None
    case OneOf(options) => if v.Str? && v.s in options then Some(v) else None
    case DateObject => if v.Date? then Some(v) else None
    case ArrayOf(item) =>
      if !v.Arr? then None
      else
        (match ParseItems(env, item, v.items, 0)
         case None => None
         case Some(xs) => Some(Arr(xs)))
    case ObjectOf(shape) =>
      if !v.Obj? then None
      else
        match ParseShape(env, shape, v.fields)
        case None => None
        case Some(d) => Some(Obj(d))
  }

  /** The items `xs[i..]` of an array, each parsed by `item`. */
  function ParseItems(env: Env, item: Kind, xs: seq<Json>, i: nat): (r: Option<seq<Json>>)
    requires i <= |xs|
    ensures r.Some? <==> forall j :: i <= j < |xs| ==> ParseValue(env, item, xs[j]).Some?
    ensures r.Some? ==> |r.value| == |xs| - i
    ensures r.Some? ==> forall j :: i <= j < |xs| ==> r.value[j - i] == ParseValue(env, item, xs[j]).value
    decreases ArrayOf(item), 1, |xs| - i
  {
    if i == |xs| then Some([])
    else
      match ParseValue(env, item, xs[i])
      case None => None
      case Some(y) =>
        match ParseItems(env, item, xs, i + 1)
        case None => None
        case Some(ys) => Some([y] + ys)
  }

  /** The value a field yields for `v` (the input's value at its key). */
  function ParseSlot(env: Env, f: Field, v: Json): Slot
    decreases f.kind, 3, 0
  {
    if v.Undefined? then
      match f.mode
      case Required => Invalid
      case Optional => Absent
      case DefaultTo(d) => Present(d)
      case DefaultNow => Present(Date(env.now))
    else
      match ParseValue(env, f.kind, v)
      case None => Invalid
      case Some(p) => Present(p)
  }

  /** An object is accepted when every key of the shape yields a valid slot;
      the output holds the present slots and nothing else. */
  function ParseShape(env: Env, shape: Shape, input: Doc): Option<Doc>
    decreases ObjectOf(shape), 1, 0
  {
    if forall n | n in shape :: !ParseSlot(env, shape[n], Get(input, n)).Invalid? then
      Some(map n | n in shape && ParseSlot(env, shape[n], Get(input, n)).Present? ::
        ParseSlot(env, shape[n], Get(input, n)).value)
    else None
  }

  /** `schema.safeParse(body)` for an object schema: `None` when it fails. */
  function Parse(env: Env, shape: Shape, body: Json): Option<Doc>
  {
    if body.Obj? then ParseShape(env, shape, body.fields) else None
  }

  /** What the output of an accepted object holds at a key of its shape: the
      key's parsed value or default, or no key when it is optional and
      missing. */
  lemma ParsedKey(env: Env, shape: Shape, body: Json, n: string)
    requires Parse(env, shape, body).Some? && n in shape
    ensures var s := ParseSlot(env, shape[n], Get(body.fields, n));
      var out := Parse(env, shape, body).value;
      !s.Invalid? && (s.Present? ==> n in out && out[n] == s.value) && (s.Absent? ==> n !in out)
  {
  }

  /** A missing key with a default comes out of an accepted object as the
      default. */
  lemma DefaultedKey(env: Env, shape: Shape, body: Json, n: string, d: Json)
    requires Parse(env, shape, body).Some? && n in shape && shape[n].mode == DefaultTo(d)
    requires Get(body.fields, n).Undefined?
    ensures Get(Parse(env, shape, body).value, n) == d
  {
    ParsedKey(env, shape, body, n);
  }

  /** A required nested object of an accepted object is itself accepted, and
      comes out as its own parse. */
  lemma NestedObject(env: Env, shape: Shape, body: Json, n: string, inner: Shape)
    requires Parse(env, shape, body).Some? && n in shape && shape[n] == Field(ObjectOf(inner), Required)
    ensures Get(body.fields, n).Obj?
    ensures Parse(env, inner, Get(body.fields, n)).Some?
    ensures Get(Parse(env, shape, body).value, n) == Obj(Parse(env, inner, Get(body.fields, n)).value)
  {
    ParsedKey(env, shape, body, n);
  }

  /** A kind whose parse returns the value it was given. */
  predicate Scalar(k: Kind)
  {
    !k.ArrayOf? && !k.ObjectOf?
  }

  /** A scalar key without a default comes out of an accepted object exactly
      as it went in (missing stays missing). */
  lemma KeptAsGiven(env: Env, shape: Shape, body: Json, n: string)
    requires Parse(env, shape, body).Some? && n in shape
    requires Scalar(shape[n].kind) && (shape[n].mode.Required? || shape[n].mode.Optional?)
    ensures Get(Parse(env, shape, body).value, n) == Get(body.fields, n)
  {
    ParsedKey(env, shape, body, n);
  }

  /** An accepted object holds no key outside its shape. */
  lemma StrippedKey(env: Env, shape: Shape, body: Json, n: string)
    requires Parse(env, shape, body).Some? && n !in shape
    ensures n !in Parse(env, shape, body).value
  {
  }

  /** `shape.extend({...})`: the new fields replace those of the same name. */
  function Extend(shape: Shape, extra: Shape): (r: Shape)
    ensures r.Keys == shape.Keys + extra.Keys
    ensures forall n :: n in extra ==> r[n] == extra[n]
    ensures forall n :: n in shape && n !in extra ==> r[n] == shape[n]
  {
    shape + extra
  }

  /** One field under `.partial()`: a required field becomes optional; an
      optional or defaulted one is left as it is. */
  function Loosen(f: Field): (g: Field)
    ensures g.kind == f.kind && !g.mode.Required?
    ensures !f.mode.Required? ==> g == f
  {
    if f.mode.Required? then f.(mode := Optional) else f
  }

  /** `shape.partial()` */
  function Partial(shape: Shape): (r: Shape)
    ensures r.Keys == shape.Keys && forall n :: n in r ==> r[n] == Loosen(shape[n])
  {
    map n | n in shape :: Loosen(shape[n])
  }

  /** `shape.partial().extend(extra)` with no required key in `extra` has no
      required key at all, so `{}` parses. */
  lemma PartialExtendOptional(env: Env, shape: Shape, extra: Shape)
    requires forall n :: n in extra ==> !extra[n].mode.Required?
    ensures forall n :: n in Extend(Partial(shape), extra) ==> !Extend(Partial(shape), extra)[n].mode.Required?
    ensures Parse(env, Extend(Partial(shape), extra), Obj(map[])).Some?
  {
    var s := Extend(Partial(shape), extra);
    forall n | n in s ensures !ParseSlot(env, s[n], Get(map[], n)).Invalid? {
      assert !s[n].mode.Required?;
    }
  }

  /** Under `.partial()` no key is required: in particular `{}` parses. */
  lemma PartialAcceptsEmpty(env: Env, shape: Shape)
    ensures Parse(env, Partial(shape), Obj(map[])).Some?
  {
    var p := Partial(shape);
    forall n | n in p ensures !ParseSlot(env, p[n], Get(map[], n)).Invalid? {
      assert !p[n].mode.Required?;
    }
  }
}

/** bcryptjs and jsonwebtoken as the services call them. Hashing, comparing
    and signing themselves are parameters of the model; what is modelled is
    the argument checks the two libraries make before doing any of it. */
module Crypto {
  import opened Js

  /** The library functions, as opaque functions of their arguments. */
  datatype Kit = Kit(
    hash: string -> string,                // bcryptjs.hash(s, 10)
    compare: (string, string) -> bool,     // bcryptjs.compare(s, hash)
    sign: (Doc, string, string) -> string) // jwt.sign(payload, secret, { expiresIn })

  /** `bcryptjs.hash(v, 10)`: anything but a string is refused with the
      library's "Illegal arguments" error, which names both argument types. */
  function Hash(kit: Kit, v: Json): (r: Outcome<string>)
    ensures r.Ok? <==> v.Str?
    ensures r.Ok? ==> r.value == kit.hash(v.s)
  {
    if v.Str? then Ok(kit.hash(v.s))
    else Err(PlainError("Illegal arguments: " + TypeOf(v) + ", number"))
  }

  /** `bcryptjs.compare(plain, stored)`: both arguments must be strings. */
  function Compare(kit: Kit, plain: Json, stored: Json): (r: Outcome<bool>)
    ensures r.Ok? <==> plain.Str? && stored.Str?
    ensures r.Ok? ==> r.value == kit.compare(plain.s, stored.s)
  {
    if plain.Str? && stored.Str? then Ok(kit.compare(plain.s, stored.s))
    else Err(PlainError("Illegal arguments: " + TypeOf(plain) + ", " + TypeOf(stored)))
  }

  const NoSecret: string := "secretOrPrivateKey must have a value"

  /** `jwt.sign(payload, secret as string, { expiresIn })`: an unset or empty
      secret is refused. */
  function Sign(kit: Kit, payload: Doc, secret: Option<string>, expiresIn: string): (r: Outcome<string>)
    ensures r.Ok? <==> secret.Some? && secret.value != ""
    ensures r.Ok? ==> r.value == kit.sign(payload, secret.value, expiresIn)
    ensures r.Err? ==> r.error == PlainError(NoSecret)
  {
    if secret.Some? && secret.value != "" then Ok(kit.sign(payload, secret.value, expiresIn))
    else Err(PlainError(NoSecret))
  }
}

/** Values shared by the telemetry and front-end models: optional values,
    the JSON-like values that structured records carry, and the process
    environment, which both programs read through `os.environ.get`. */
module Basics {

  /** Python's `None` or a present value. */
  datatype Option<+T> = None | Some(value: T)

  /** A value inside a structured telemetry record. Floats are carried as
      opaque reals: nothing in the model does arithmetic on them. */
  datatype Json =
    | JNull
    | JBool(b: bool)
    | JInt(i: int)
    | JFloat(f: real)
    | JString(s: string)
    | JArray(items: seq<Json>)
    | JObject(fields: map<string, Json>)

  /** The process environment, `os.environ`. */
  type Environ = map<string, string>

  /** `os.environ.get(key, default)`. */
  function Getenv(env: Environ, key: string, default: string): string
  {
    if key in env then env[key] else default
  }

  /** `os.environ.get(key)`, which is `None` for an unset variable. */
  function Lookup(env: Environ, key: string): Option<string>
  {
    if key in env then Some(env[key]) else None
  }
}

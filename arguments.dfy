/** Normalisation of a tool call's loosely typed arguments, and the choice of
    the npm token from the server's environment (src/server.ts:50-75). */
module Arguments {
  import opened Wrappers
  import opened JsString
  import opened JsValue

  /** `parseObject`: a falsy value, a non-object or an array becomes the empty
      record; any other object is kept as it is. */
  function ParseObject(input: Value): (r: Record)
    ensures input.Object? ==> r == input.fields
    ensures !input.Object? ==> r == map[]
  {
    if !Truthy(input) || TypeOf(input) != "object" || IsArray(input) then map[] else input.fields
  }

  /** The field holds a string with at least one code point `trim` keeps. */
  predicate HasText(input: Record, key: string) {
    Lookup(input, key).Str? && !AllTrimmable(Lookup(input, key).s)
  }

  /** `getString`: the trimmed string under `key`; absent when the value is
      not a string or trims to nothing. */
  function GetString(input: Record, key: string): (r: Option<string>)
    ensures r.Some? <==> HasText(input, key)
    ensures r.Some? ==> r.value == Trim(Lookup(input, key).s)
    ensures r.Some? ==> r.value != "" && Trimmed(r.value)
  {
    var value := Lookup(input, key);
    if TypeOf(value) != "string" then None
    else
      var trimmed := Trim(value.s);
      TrimBlank(value.s);
      if |trimmed| > 0 then Some(trimmed) else None
  }

  /** `o` is what `getString` reads under `key`: present exactly when the
      field is a string with text, and then that string trimmed. */
  predicate StringRead(input: Record, key: string, o: Option<string>) {
    && (o.Some? <==> HasText(input, key))
    && (o.Some? ==> o.value == Trim(Lookup(input, key).s))
  }

  /** `getBoolean`: the value under `key` when it is a boolean, else absent. */
  function GetBoolean(input: Record, key: string): (r: Option<bool>)
    ensures r.Some? <==> Lookup(input, key).Bool?
    ensures r.Some? ==> Lookup(input, key) == Bool(r.value)
  {
    var value := Lookup(input, key);
    if TypeOf(value) == "boolean" then Some(value.b) else None
  }

  /** The two environment variables the token may come from; None is unset. */
  datatype Env = Env(npmAccessToken: Option<string>, npmToken: Option<string>)

  /** `s?.trim()`. */
  function TrimDefined(s: Option<string>): Option<string> {
    match s
    case None => None
    case Some(v) => Some(Trim(v))
  }

  /** The variable is set to something `trim` does not reduce to "". */
  predicate SetToText(s: Option<string>) {
    s.Some? && !AllTrimmable(s.value)
  }

  /** `getNpmTokenFromEnv`: `NPM_ACCESS_TOKEN?.trim() || NPM_TOKEN?.trim()`.
      The trimmed NPM_ACCESS_TOKEN wins when non-empty, then the trimmed
      NPM_TOKEN; with neither, the result is falsy: "" when NPM_TOKEN is set
      (to blanks), `undefined` when it is unset. */
  function GetNpmTokenFromEnv(env: Env): (r: Option<string>)
    ensures SetToText(env.npmAccessToken) ==> r == Some(Trim(env.npmAccessToken.value))
    ensures !SetToText(env.npmAccessToken) && SetToText(env.npmToken) ==> r == Some(Trim(env.npmToken.value))
    ensures !SetToText(env.npmAccessToken) && !SetToText(env.npmToken) ==>
              r == if env.npmToken.Some? then Some("") else None
    ensures Filled(r) <==> SetToText(env.npmAccessToken) || SetToText(env.npmToken)
    ensures Filled(r) ==> Trimmed(r.value)
  {
    var fromAccessToken := TrimDefined(env.npmAccessToken);
    var fromNpmToken := TrimDefined(env.npmToken);
    TrimBlank(env.npmAccessToken.GetOr(""));
    TrimBlank(env.npmToken.GetOr(""));
    if Filled(fromAccessToken) then fromAccessToken else fromNpmToken
  }
}

/** The process environment as a map from variable names to values. */
module Env {
  import opened Wrappers

  type Environment = map<string, string>

  const MissingPrefix := "Missing env var: "

  /** `mustGetEnv(name)`: a variable that is unset or set to the empty string
      (both falsy in JavaScript) is an error naming the variable. */
  function MustGetEnv(env: Environment, name: string): (r: Result<string>)
    ensures r.Ok? <==> name in env && env[name] != ""
    ensures r.Ok? ==> r.value == env[name]
    ensures r.Err? ==> r.message == MissingPrefix + name
  {
    if name in env && env[name] != "" then Ok(env[name]) else Err(MissingPrefix + name)
  }

  /** `process.env[name] || ""`: an absent variable reads as the empty string. */
  function GetOrEmpty(env: Environment, name: string): (v: string)
    ensures name !in env ==> v == ""
    ensures name in env ==> v == env[name]
  {
    if name in env then env[name] else ""
  }
}

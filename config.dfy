/**
 * Process configuration read once when the function module loads: three required
 * environment variables. A missing or empty one throws, so the module never serves.
 */
module Env {
  import opened Wrappers

  const UrlVar: string := "SUPABASE_URL"
  const AnonKeyVar: string := "SUPABASE_ANON_KEY"
  const ServiceRoleKeyVar: string := "SUPABASE_SERVICE_ROLE_KEY"

  /** Connection parameters: the store's URL, its public key and its privileged key. */
  datatype Config = Config(url: string, anonKey: string, serviceRoleKey: string)

  /** The message of the error `envOrThrow` throws for `name`. */
  function Required(name: string): string {
    name + " env var is required"
  }

  /** `envOrThrow(name)`: the variable's value, or an error when it is unset or empty. */
  function EnvOrThrow(env: map<string, string>, name: string): (r: Result<string, string>)
    ensures r.Ok? <==> name in env && env[name] != ""
    ensures r.Ok? ==> r.value == env[name] && r.value != ""
    ensures r.Err? ==> r.error == Required(name)
  {
    if name !in env || env[name] == "" then Err(Required(name)) else Ok(env[name])
  }

  /** The three module-level constants, read in declaration order; the first failure is thrown. */
  function LoadConfig(env: map<string, string>): (r: Result<Config, string>)
    ensures r.Ok? <==>
      && UrlVar in env && env[UrlVar] != ""
      && AnonKeyVar in env && env[AnonKeyVar] != ""
      && ServiceRoleKeyVar in env && env[ServiceRoleKeyVar] != ""
    ensures r.Ok? ==> r.value == Config(env[UrlVar], env[AnonKeyVar], env[ServiceRoleKeyVar])
    ensures r.Err? && (UrlVar !in env || env[UrlVar] == "") ==> r.error == Required(UrlVar)
    ensures r.Err? && UrlVar in env && env[UrlVar] != "" && (AnonKeyVar !in env || env[AnonKeyVar] == "")
      ==> r.error == Required(AnonKeyVar)
    ensures r.Err? && UrlVar in env && env[UrlVar] != "" && AnonKeyVar in env && env[AnonKeyVar] != ""
      ==> r.error == Required(ServiceRoleKeyVar)
  {
    match EnvOrThrow(env, UrlVar)
    case Err(e) => Err(e)
    case Ok(url) =>
      match EnvOrThrow(env, AnonKeyVar)
      case Err(e) => Err(e)
      case Ok(anon) =>
        match EnvOrThrow(env, ServiceRoleKeyVar)
        case Err(e) => Err(e)
        case Ok(service) => Ok(Config(url, anon, service))
  }
}

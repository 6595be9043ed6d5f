/**
 * Environment lookups (src/utils/env.ts) over `import.meta.env`, modelled as
 * a map from variable name to its string value; a name not in the map is
 * `undefined`.
 */
module Env {

  import opened Wrappers

  type Environment = map<string, string>

  const AppEnvKey := "VITE_APP_ENV"
  const DebugKey := "VITE_APP_DEBUG"
  const ApiBaseUrlKey := "VITE_APP_API_BASE_URL"
  const TitleKey := "VITE_APP_TITLE"
  const DefaultEnv := "development"
  const DefaultTitle := "个人博客"

  /** `getEnv(key, default)`: any defined value wins, the empty string included; the default only for undefined. */
  function GetEnv(env: Environment, key: string, default: Option<string>): (r: Option<string>)
    ensures key in env ==> r == Some(env[key])
    ensures key !in env ==> r == default
  {
    if key in env then Some(env[key]) else default
  }

  /** `getBooleanEnv(key, default)`: true exactly for the string "true"; the default for undefined. */
  function GetBooleanEnv(env: Environment, key: string, default: bool := false): (r: bool)
    ensures key in env ==> (r <==> env[key] == "true")
    ensures key !in env ==> r == default
  {
    match GetEnv(env, key, None)
    case None => default
    case Some(value) => value == "true"
  }

  /** What `getNumberEnv` does next: return the default, or convert a defined string with `Number()`. */
  datatype NumberLookup = UseDefault(value: int) | Convert(text: string, fallback: int)

  /** `getNumberEnv(key, default)` up to the numeric conversion. */
  function GetNumberEnv(env: Environment, key: string, default: int := 0): (r: NumberLookup)
    ensures key !in env ==> r == UseDefault(default)
    ensures key in env ==> r == Convert(env[key], default)
  {
    match GetEnv(env, key, None)
    case None => UseDefault(default)
    case Some(text) => Convert(text, default)
  }

  /** `getCurrentEnv()`: `VITE_APP_ENV || 'development'`, so an empty value falls back too. */
  function GetCurrentEnv(env: Environment): (r: string)
    ensures r != ""
    ensures AppEnvKey in env && env[AppEnvKey] != "" ==> r == env[AppEnvKey]
    ensures (AppEnvKey !in env || env[AppEnvKey] == "") ==> r == DefaultEnv
  {
    OrElse(GetEnv(env, AppEnvKey, None), DefaultEnv)
  }

  /** `isDebugMode()`: debug exactly when `VITE_APP_DEBUG` is the string "true". */
  function IsDebugMode(env: Environment): (r: bool)
    ensures r <==> DebugKey in env && env[DebugKey] == "true"
  {
    GetBooleanEnv(env, DebugKey)
  }

  /** `getApiBaseUrl()`: the configured value, or "" when undefined. */
  function GetApiBaseUrl(env: Environment): (r: string)
    ensures ApiBaseUrlKey in env ==> r == env[ApiBaseUrlKey]
    ensures ApiBaseUrlKey !in env ==> r == ""
  {
    GetEnv(env, ApiBaseUrlKey, Some("")).value
  }

  /** `getAppTitle()`: the configured title, or "个人博客" when undefined (an empty title is kept). */
  function GetAppTitle(env: Environment): (r: string)
    ensures TitleKey in env ==> r == env[TitleKey]
    ensures TitleKey !in env ==> r == DefaultTitle
  {
    GetEnv(env, TitleKey, Some(DefaultTitle)).value
  }

  /**
   * `getCurrentEnv` and `getEnv` differ on exactly one input: a defined but
   * empty `VITE_APP_ENV`, which `getEnv` returns and `getCurrentEnv` replaces.
   */
  lemma CurrentEnvVersusGetEnv(env: Environment)
    ensures Some(GetCurrentEnv(env)) != GetEnv(env, AppEnvKey, Some(DefaultEnv))
        <==> AppEnvKey in env && env[AppEnvKey] == ""
  {
  }

  /** Only the exact lower-case string enables a flag: "TRUE", "1" and "" all read as false. */
  lemma BooleanEnvIsExact(env: Environment, key: string, default: bool)
    requires key in env && env[key] in {"TRUE", "True", "1", "yes", ""}
    ensures !GetBooleanEnv(env, key, default)
  {
  }
}

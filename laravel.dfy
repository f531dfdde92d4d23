/**
 * Laravel's `config()` and `env()` helpers, seen as lookups in flat maps.
 * Configuration keys are the dotted names (`stellar-user.base_url`); the
 * environment maps variable names to their values.
 */
module Laravel {
  import opened Wrappers

  /** `config($key, $fallback)`: the configured value, or the fallback when the key is not set. */
  function Config(config: map<string, string>, key: string, fallback: string): string
  {
    if key in config then config[key] else fallback
  }

  /** `env($key)` with its default of `null`. */
  function Env(env: map<string, string>, key: string): Option<string>
  {
    if key in env then Some(env[key]) else None
  }
}

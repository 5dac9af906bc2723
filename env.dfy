/** The process environment and JavaScript truthiness of the strings read from it. */
module Env {
  import opened Wrappers

  /** `process.env`: the variables that are defined, with their values. */
  type Env = map<string, string>

  /** `process.env[name]`. */
  function Lookup(env: Env, name: string): (r: Option<string>)
    ensures r.Some? <==> name in env
    ensures r.Some? ==> r.value == env[name]
  {
    if name in env then Some(env[name]) else None
  }

  /** A string-or-nullish value is truthy in JavaScript iff it is a non-empty string. */
  predicate Truthy(v: Option<string>) {
    v.Some? && v.value != ""
  }

  /** `v || default` for a string-or-nullish value. */
  function Or(v: Option<string>, default: string): (r: string)
    ensures Truthy(v) ==> r == v.value
    ensures !Truthy(v) ==> r == default
  {
    if Truthy(v) then v.value else default
  }

  /** `!!process.env[name]`: the variable is defined and not empty. */
  predicate IsSet(env: Env, name: string) {
    Truthy(Lookup(env, name))
  }
}

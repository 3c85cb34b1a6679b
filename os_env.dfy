/** The process environment as the proxy's start-up code reads it. */
module OsEnv {

  /** The environment: variable names to values. */
  type Env = map<string, string>

  /** Go's os.Getenv: the value of the variable, or "" when it is unset. */
  function Getenv(env: Env, name: string): string {
    if name in env then env[name] else ""
  }

  /** The `if v := os.Getenv(name); v != "" { x = v }` pattern: a non-empty value replaces `current`. */
  function Override(env: Env, name: string, current: string): (r: string)
    ensures Getenv(env, name) != "" ==> r == env[name]
    ensures Getenv(env, name) == "" ==> r == current
  {
    var v := Getenv(env, name);
    if v != "" then v else current
  }
}

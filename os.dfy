/** The process environment as Go's os package exposes it. */
module Os {
  type Environment = map<string, string>

  /** os.Getenv: the value of `key`, or the empty string when the variable is not set. */
  function Getenv(env: Environment, key: string): string {
    if key in env then env[key] else ""
  }
}

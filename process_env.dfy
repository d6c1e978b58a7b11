/** The process environment `os.environ`, shared by every back-end in a process. */
module ProcessEnv {
  import opened Outcomes

  /**
   * Whether `os.environ[k] = v` succeeds on a POSIX system: `putenv` rejects an
   * empty name, a name holding '=', and a NUL character in either string.
   */
  predicate PutEnvAccepts(k: string, v: string) {
    k != [] && '=' !in k && '\0' !in k && '\0' !in v
  }

  class Environment {
    var vars: map<string, string>

    constructor(initial: map<string, string>)
      ensures vars == initial
    {
      vars := initial;
    }

    /** `os.environ.get(k)` */
    function Get(k: string): Option<string>
      reads this
    {
      Lookup(vars, k)
    }
  }
}

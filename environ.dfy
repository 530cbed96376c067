/**
 * The process environment as the settings loaders read it: `os.getenv` on a
 * map that already holds the variables `load_dotenv()` merged in.
 */
module Environ {
  import opened Text

  type Env = map<string, string>

  /** `os.getenv(key, default)`: a present variable is used as it is, even when empty. */
  function Getenv(env: Env, key: string, default: string): string {
    if key in env then env[key] else default
  }

  /** `os.getenv(key, "true").lower() == "true"`. */
  predicate Flag(env: Env, key: string) {
    IsTrueFlag(Getenv(env, key, "true"))
  }

  /**
   * A flag is true iff its variable is absent or spells "true" in some mix of
   * cases; a present-but-empty variable makes it false.
   */
  lemma FlagFromEnv(env: Env, key: string)
    ensures Flag(env, key) <==>
      key !in env || (|env[key]| == 4 && env[key][0] in "tT" && env[key][1] in "rR" && env[key][2] in "uU" && env[key][3] in "eE")
    ensures key in env && env[key] == "" ==> !Flag(env, key)
  {
    if key in env {
      IsTrueFlagSpellings(env[key]);
    } else {
      DefaultFlagIsTrue();
    }
  }
}

/**
 * Configuration flags. The process environment is given as a map from
 * variable name to value; reading it is `os.getenv(name, default)`.
 */
module Config {
  import opened Strings

  /** The words `str2bool` accepts, as its tuple lists them. */
  const TruthyWords: seq<string> := ["yes", "true", "True", "t", "1"]

  /** `str2bool`: true iff the lower-cased input is one of the accepted words. */
  predicate Str2Bool(v: string)
  {
    Lower(v) in TruthyWords
  }

  /** The tuple's `"True"` entry can never match a lower-cased string, so
      the flag is true iff the lowered input is `yes`, `true`, `t` or `1`. */
  lemma Str2BoolAccepts(v: string)
    ensures Str2Bool(v) <==> Lower(v) in {"yes", "true", "t", "1"}
  {
  }

  /** The flag ignores ASCII case. */
  lemma Str2BoolIgnoresCase(u: string, v: string)
    requires Lower(u) == Lower(v)
    ensures Str2Bool(u) == Str2Bool(v)
  {
  }

  lemma Str2BoolTrueExamples()
    ensures Str2Bool("True") && Str2Bool("YES") && Str2Bool("t") && Str2Bool("1")
  {
    assert Lower("True") == "true";
    assert Lower("YES") == "yes";
    assert Lower("t") == "t";
    assert Lower("1") == "1";
  }

  lemma Str2BoolFalseExamples()
    ensures !Str2Bool("False") && !Str2Bool("") && !Str2Bool("y") && !Str2Bool("0")
  {
    assert Lower("False") == "false";
    assert Lower("y") == "y";
    assert Lower("0") == "0";
  }

  /** `os.getenv(name, default)`. */
  function Getenv(env: map<string, string>, name: string, default: string): (v: string)
  {
    if name in env then env[name] else default
  }

  /** An `ENABLE_*` switch: read with default `"True"`, then `str2bool`. */
  predicate Enabled(env: map<string, string>, name: string)
  {
    Str2Bool(Getenv(env, name, "True"))
  }

  /** An unset switch is on; a set one is whatever `str2bool` makes of it. */
  lemma EnabledByDefault(env: map<string, string>, name: string)
    ensures name !in env ==> Enabled(env, name)
    ensures name in env ==> (Enabled(env, name) <==> Lower(env[name]) in {"yes", "true", "t", "1"})
  {
    assert Lower("True") == "true";
    if name in env {
      Str2BoolAccepts(env[name]);
    }
  }

  const SlackSwitch := "ENABLE_Slack_Notifications"
}

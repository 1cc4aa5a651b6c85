/** Which environment variable each context-scoped accessor of src/lib.rs
    reads under each service, as the match arms of the accessors name it, and the proof that
    the accessors read exactly that and nothing else. */
module Footprints {
  import opened Wrappers
  import opened Env
  import Rci

  /** The context-scoped accessors that return text. */
  datatype Field =
    | Branch | BuildUrl | BuildId | BuildDir | Commit | PullRequest
    | Version(lang: Rci.Language)

  /** Dispatch to the accessor a field names. */
  function Get(ci: Rci.Ci, f: Field, env: Environment): Outcome<Option<string>>
  {
    match f
    case Branch => Rci.Branch(ci, env)
    case BuildUrl => Rci.BuildUrl(ci, env)
    case BuildId => Rci.BuildId(ci, env)
    case BuildDir => Rci.BuildDir(ci, env)
    case Commit => Rci.Commit(ci, env)
    case PullRequest => Rci.PullRequest(ci, env)
    case Version(lang) => Rci.LangVersion(ci, lang, env)
  }

  /** The variable behind a field under a service; none where the
      service does not define the concept. */
  function Source(s: Rci.CiService, f: Field): Option<string>
  {
    match (s, f)
    case (Travis, Branch) => Some("TRAVIS_BRANCH")
    case (Circle, Branch) => Some("CIRCLE_BRANCH")
    case (Circle, BuildUrl) => Some("CIRCLE_BUILD_URL")
    case (Travis, BuildId) => Some("TRAVIS_BUILD_NUMBER")
    case (Circle, BuildId) => Some("CIRCLE_BUILD_NUM")
    case (Travis, BuildDir) => Some("TRAVIS_BUILD_DIR")
    case (Travis, Commit) => Some("TRAVIS_COMMIT")
    case (Circle, Commit) => Some("CIRCLE_SHA1")
    case (Travis, PullRequest) => Some("TRAVIS_PULL_REQUEST")
    case (Circle, PullRequest) => Some("CIRCLE_PR_NUMBER")
    case (Travis, Version(lang)) => Some(Rci.VersionVar(lang))
    case _ => None
  }

  /** The set of variables a field may read under a service. */
  function Reads(s: Rci.CiService, f: Field): (names: set<string>)
  {
    match Source(s, f)
    case Some(n) => {n}
    case None => {}
  }

  /** Every accessor but the Travis pull request is exactly the lookup of its
      own variable, and absent where the service has none. */
  lemma GetFollowsSource(ci: Rci.Ci, f: Field, env: Environment)
    requires !(ci.service == Rci.Travis && f == PullRequest)
    ensures Source(ci.service, f).None? ==> Get(ci, f, env) == Success(None)
    ensures Source(ci.service, f).Some? ==> Reports(env, Source(ci.service, f).value, Get(ci, f, env))
  {
  }

  /** An accessor depends on its own variable and on nothing else;
      where the service defines no variable it is the same for every
      environment. */
  lemma OnlyItsVariableMatters(ci: Rci.Ci, f: Field, e1: Environment, e2: Environment)
    requires AgreeOn(e1, e2, Reads(ci.service, f))
    ensures Get(ci, f, e1) == Get(ci, f, e2)
  {
  }

  /** The Travis variables other than the version ones. */
  lemma NotAVersionVar(lang: Rci.Language, n: string)
    requires n in {"TRAVIS_BRANCH", "TRAVIS_BUILD_NUMBER", "TRAVIS_BUILD_DIR",
                   "TRAVIS_COMMIT", "TRAVIS_PULL_REQUEST"}
    ensures Rci.VersionVar(lang) != n
  {
  }

  /** Under one service, different accessors never read the same variable. */
  lemma {:induction false} ReadsDisjoint(s: Rci.CiService, f: Field, g: Field)
    requires f != g
    ensures Reads(s, f) !! Reads(s, g)
  {
    match (Source(s, f), Source(s, g))
    case (Some(m), Some(n)) =>
      if f.Version? && g.Version? {
        if m == n { Rci.VersionVarInjective(f.lang, g.lang); }
      } else if f.Version? {
        NotAVersionVar(f.lang, n);
      } else if g.Version? {
        NotAVersionVar(g.lang, m);
      }
    case _ =>
  }

  /** Setting a variable one accessor reads leaves every other accessor unchanged. */
  lemma SettingOneVariable(ci: Rci.Ci, f: Field, g: Field, env: Environment, n: string, v: EnvVal)
    requires f != g && n in Reads(ci.service, f)
    ensures Get(ci, g, env[n := v]) == Get(ci, g, env)
  {
    ReadsDisjoint(ci.service, f, g);
    OnlyItsVariableMatters(ci, g, env[n := v], env);
  }
}

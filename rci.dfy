/** Detection of the continuous-integration service (Travis or CircleCI) the
    process runs under, and the accessors for the metadata each service puts
    in the environment (src/lib.rs). The environment is a parameter of every
    member; nothing is cached, so each accessor reads it afresh. */
module Rci {
  import opened Wrappers
  import opened Env

  datatype CiService = Travis | Circle | Unknown

  /** The handle `Ci::new` returns; it holds nothing but the service. */
  datatype Ci = Ci(service: CiService)

  /** The marker variables; only their presence counts, never their value. */
  const TravisMarker := "TRAVIS"
  const CircleMarker := "CIRCLECI"

  /** `Ci::which_ci`: the two markers are looked up as a pair, Travis first,
      and only an exclusive pair names a service. */
  function WhichCi(env: Environment): (r: Outcome<CiService>)
    ensures r.Failure? <==> !Readable(env, TravisMarker) || !Readable(env, CircleMarker)
    ensures r.Failure? ==>
      r.error == Abort(if Readable(env, TravisMarker) then CircleMarker else TravisMarker)
    ensures r == Success(Travis) <==>
      Readable(env, TravisMarker) && TravisMarker in env && CircleMarker !in env
    ensures r == Success(Circle) <==>
      Readable(env, CircleMarker) && TravisMarker !in env && CircleMarker in env
    ensures r == Success(Unknown) <==>
      Readable(env, TravisMarker) && Readable(env, CircleMarker)
      && (TravisMarker in env <==> CircleMarker in env)
  {
    var travis := Lookup(env, TravisMarker);
    if travis.Failure? then Failure(travis.error)
    else
      var circle := Lookup(env, CircleMarker);
      if circle.Failure? then Failure(circle.error)
      else
        match (travis.value, circle.value)
        case (Some(_), None) => Success(Travis)
        case (None, Some(_)) => Success(Circle)
        case _ => Success(Unknown)
  }

  /** The values of the markers are never inspected, only decoded: two
      environments with the same markers set give the same service. */
  lemma WhichCiIgnoresValues(e1: Environment, e2: Environment)
    requires Readable(e1, TravisMarker) && Readable(e1, CircleMarker)
    requires Readable(e2, TravisMarker) && Readable(e2, CircleMarker)
    requires TravisMarker in e1 <==> TravisMarker in e2
    requires CircleMarker in e1 <==> CircleMarker in e2
    ensures WhichCi(e1) == WhichCi(e2)
  {
  }

  /** `Ci::new`: a handle exactly when a known service is detected. */
  function New(env: Environment): (r: Outcome<Option<Ci>>)
    ensures r.Failure? <==> WhichCi(env).Failure?
    ensures r.Failure? ==> r.error == WhichCi(env).error
    ensures r.Success? ==> (r.value.Some? <==> WhichCi(env).value != Unknown)
    ensures r.Success? && r.value.Some? ==>
      r.value.value.service == WhichCi(env).value && r.value.value.service != Unknown
  {
    match WhichCi(env)
    case Failure(e) => Failure(e)
    case Success(s) =>
      match s
      case Travis | Circle => Success(Some(Ci(s)))
      case _ => Success(None)
  }

  /** `Ci::lang`: the locale, read without any service. */
  function Locale(env: Environment): (r: Outcome<Option<string>>)
    ensures Reports(env, "LANG", r)
  {
    Lookup(env, "LANG")
  }

  /** `Ci::path`: the executable search path. */
  function SearchPath(env: Environment): (r: Outcome<Option<string>>)
    ensures Reports(env, "PATH", r)
  {
    Lookup(env, "PATH")
  }

  /** `Ci::home`: the user's home directory. */
  function Home(env: Environment): (r: Outcome<Option<string>>)
    ensures Reports(env, "HOME", r)
  {
    Lookup(env, "HOME")
  }

  /** `is_travis`. */
  predicate IsTravis(ci: Ci)
    ensures IsTravis(ci) <==> ci.service == Travis
  {
    match ci.service
    case Travis => true
    case _ => false
  }

  /** `is_circle`. */
  predicate IsCircle(ci: Ci)
    ensures IsCircle(ci) <==> ci.service == Circle
  {
    match ci.service
    case Circle => true
    case _ => false
  }

  /** A constructed handle is under exactly one service, the one whose marker
      alone is present. */
  lemma NewMembership(env: Environment, ci: Ci)
    requires New(env) == Success(Some(ci))
    ensures IsTravis(ci) != IsCircle(ci)
    ensures IsTravis(ci) <==> TravisMarker in env && CircleMarker !in env
    ensures IsCircle(ci) <==> CircleMarker in env && TravisMarker !in env
  {
  }

  function Branch(ci: Ci, env: Environment): (r: Outcome<Option<string>>)
    ensures ci.service == Travis ==> Reports(env, "TRAVIS_BRANCH", r)
    ensures ci.service == Circle ==> Reports(env, "CIRCLE_BRANCH", r)
    ensures ci.service == Unknown ==> r == Success(None)
  {
    match ci.service
    case Circle => Lookup(env, "CIRCLE_BRANCH")
    case Travis => Lookup(env, "TRAVIS_BRANCH")
    case _ => Success(None)
  }

  /** Circle only: a permanent link to the build. */
  function BuildUrl(ci: Ci, env: Environment): (r: Outcome<Option<string>>)
    ensures ci.service == Circle ==> Reports(env, "CIRCLE_BUILD_URL", r)
    ensures ci.service != Circle ==> r == Success(None)
  {
    match ci.service
    case Circle => Lookup(env, "CIRCLE_BUILD_URL")
    case _ => Success(None)
  }

  /** The build number, left as text. */
  function BuildId(ci: Ci, env: Environment): (r: Outcome<Option<string>>)
    ensures ci.service == Travis ==> Reports(env, "TRAVIS_BUILD_NUMBER", r)
    ensures ci.service == Circle ==> Reports(env, "CIRCLE_BUILD_NUM", r)
    ensures ci.service == Unknown ==> r == Success(None)
  {
    match ci.service
    case Circle => Lookup(env, "CIRCLE_BUILD_NUM")
    case Travis => Lookup(env, "TRAVIS_BUILD_NUMBER")
    case _ => Success(None)
  }

  /** Travis only: where the repository was copied on the worker. */
  function BuildDir(ci: Ci, env: Environment): (r: Outcome<Option<string>>)
    ensures ci.service == Travis ==> Reports(env, "TRAVIS_BUILD_DIR", r)
    ensures ci.service != Travis ==> r == Success(None)
  {
    match ci.service
    case Travis => Lookup(env, "TRAVIS_BUILD_DIR")
    case _ => Success(None)
  }

  /** The hash of the commit under test. */
  function Commit(ci: Ci, env: Environment): (r: Outcome<Option<string>>)
    ensures ci.service == Travis ==> Reports(env, "TRAVIS_COMMIT", r)
    ensures ci.service == Circle ==> Reports(env, "CIRCLE_SHA1", r)
    ensures ci.service == Unknown ==> r == Success(None)
  {
    match ci.service
    case Circle => Lookup(env, "CIRCLE_SHA1")
    case Travis => Lookup(env, "TRAVIS_COMMIT")
    case _ => Success(None)
  }

  /** Travis writes the literal "false" when a build is not for a pull request. */
  const NoPullRequest := "false"

  /** The pull request the build forms part of. Under Travis an unset variable
      counts as "false", and "false" means there is none. */
  function PullRequest(ci: Ci, env: Environment): (r: Outcome<Option<string>>)
    ensures ci.service == Travis && "TRAVIS_PULL_REQUEST" !in env ==> r == Success(None)
    ensures ci.service == Travis && "TRAVIS_PULL_REQUEST" in env ==>
      match env["TRAVIS_PULL_REQUEST"]
      case Invalid => r == Failure(Abort("TRAVIS_PULL_REQUEST"))
      case Valid(v) => r == if v == NoPullRequest then Success(None) else Success(Some(v))
    ensures ci.service == Circle ==> Reports(env, "CIRCLE_PR_NUMBER", r)
    ensures ci.service == Unknown ==> r == Success(None)
  {
    match ci.service
    case Circle => Lookup(env, "CIRCLE_PR_NUMBER")
    case Travis =>
      (match Lookup(env, "TRAVIS_PULL_REQUEST")
       case Failure(e) => Failure(e)
       case Success(o) =>
         var pr := o.GetOr(NoPullRequest);
         if pr == NoPullRequest then Success(None) else Success(Some(pr)))
    case _ => Success(None)
  }

  /** Under Travis a reported pull request is never the "no pull request" marker. */
  lemma PullRequestNeverFalse(ci: Ci, env: Environment, v: string)
    requires ci.service == Travis
    requires PullRequest(ci, env) == Success(Some(v))
    ensures v != NoPullRequest
    ensures "TRAVIS_PULL_REQUEST" in env && env["TRAVIS_PULL_REQUEST"] == Valid(v)
  {
  }

  /** The languages whose version Travis reports, one accessor each. */
  datatype Language =
    | Dart | Go | Haxe | Java | Julia | Node | Otp
    | Perl | Php | Python | R | Ruby | Rust | Scala

  /** The token that names a language in Travis's variables. */
  function Token(lang: Language): (t: string)
    ensures 0 < |t| && forall i :: 0 <= i < |t| ==> 'A' <= t[i] <= 'Z'
  {
    match lang
    case Dart => "DART"
    case Go => "GO"
    case Haxe => "HAXE"
    case Java => "JDK"
    case Julia => "JULIA"
    case Node => "NODE"
    case Otp => "OTP"
    case Perl => "PERL"
    case Php => "PHP"
    case Python => "PYTHON"
    case R => "R"
    case Ruby => "RUBY"
    case Rust => "RUST"
    case Scala => "SCALA"
  }

  /** The table read backwards: which language a token names. The library
      has no such function; it serves only to prove that no two languages
      share a token (TokenRoundTrip). */
  function LanguageOfToken(token: string): (r: Option<Language>)
    ensures r.Some? ==> Token(r.value) == token
  {
    match token
    case "DART" => Some(Dart)
    case "GO" => Some(Go)
    case "HAXE" => Some(Haxe)
    case "JDK" => Some(Java)
    case "JULIA" => Some(Julia)
    case "NODE" => Some(Node)
    case "OTP" => Some(Otp)
    case "PERL" => Some(Perl)
    case "PHP" => Some(Php)
    case "PYTHON" => Some(Python)
    case "R" => Some(R)
    case "RUBY" => Some(Ruby)
    case "RUST" => Some(Rust)
    case "SCALA" => Some(Scala)
    case _ => None
  }

  /** Every token names its own language, so no two languages share one. */
  lemma TokenRoundTrip(lang: Language)
    ensures LanguageOfToken(Token(lang)) == Some(lang)
  {
  }

  const VersionPrefix := "TRAVIS_"
  const VersionSuffix := "_VERSION"

  /** The variable Travis sets to a language's version: TRAVIS_<token>_VERSION. */
  function VersionVar(lang: Language): (name: string)
    ensures |name| == |VersionPrefix| + |Token(lang)| + |VersionSuffix|
    ensures name[..|VersionPrefix|] == VersionPrefix
    ensures name[|name| - |VersionSuffix|..] == VersionSuffix
  {
    VersionPrefix + Token(lang) + VersionSuffix
  }

  /** The token is recovered from the variable name by dropping the prefix
      and the suffix. */
  lemma VersionVarToken(lang: Language)
    ensures |VersionVar(lang)| == |VersionPrefix| + |Token(lang)| + |VersionSuffix|
    ensures VersionVar(lang)[|VersionPrefix|..|VersionVar(lang)| - |VersionSuffix|] == Token(lang)
  {
  }

  /** Distinct languages read distinct variables. */
  lemma {:induction false} VersionVarInjective(a: Language, b: Language)
    requires VersionVar(a) == VersionVar(b)
    ensures a == b
  {
    VersionVarToken(a);
    VersionVarToken(b);
    TokenRoundTrip(a);
    TokenRoundTrip(b);
  }

  /** The macro-generated `dart` … `scala` accessors: Travis only. */
  function LangVersion(ci: Ci, lang: Language, env: Environment): (r: Outcome<Option<string>>)
    ensures ci.service == Travis ==> Reports(env, VersionVar(lang), r)
    ensures ci.service != Travis ==> r == Success(None)
  {
    match ci.service
    case Travis => Lookup(env, VersionVar(lang))
    case _ => Success(None)
  }

  /** The `Debug` name of a service, as `derive(Debug)` prints it. */
  function ServiceName(s: CiService): (name: string)
    ensures s == Travis ==> name == "Travis"
    ensures s == Circle ==> name == "Circle"
    ensures s == Unknown ==> name == "Unknown"
  {
    match s
    case Travis => "Travis"
    case Circle => "Circle"
    case Unknown => "Unknown"
  }

  const DisplayPrefix := "Continuous Integration Service: "

  /** `Display for Ci`. */
  function Display(ci: Ci): (r: string)
    ensures |r| > |DisplayPrefix| && r[..|DisplayPrefix|] == DisplayPrefix
    ensures ci.service == Travis ==> r == "Continuous Integration Service: Travis"
    ensures ci.service == Circle ==> r == "Continuous Integration Service: Circle"
    ensures ci.service == Unknown ==> r == "Continuous Integration Service: Unknown"
  {
    DisplayPrefix + ServiceName(ci.service)
  }

  /** The displayed text names the service: different handles never show the same text. */
  lemma DisplayInjective(a: Ci, b: Ci)
    requires Display(a) == Display(b)
    ensures a == b
  {
  }
}

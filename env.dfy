/** The process environment, injected as a finite map, and the library's one
    way of reading it: the `err!` lookup of src/lib.rs. */
module Env {
  import opened Wrappers

  /** What the operating system holds for a variable that is set: text, or
      bytes that are not valid Unicode. */
  datatype EnvVal = Valid(s: string) | Invalid

  /** A name outside the map's domain is not set. */
  type Environment = map<string, EnvVal>

  /** The error of `std::env::var`. */
  datatype VarError = NotPresent | NotUnicode

  /** The process abort of `err!`: the named variable holds invalid Unicode. */
  datatype Fault = Abort(name: string)

  /** What every accessor yields: a value, or the abort. */
  type Outcome<T> = Result<T, Fault>

  /** `std::env::var`: the boundary to the operating system. */
  function Var(env: Environment, name: string): (r: Result<string, VarError>)
    ensures r == Failure(NotPresent) <==> name !in env
    ensures r == Failure(NotUnicode) <==> name in env && env[name].Invalid?
    ensures r.Success? ==> name in env && env[name] == Valid(r.value)
  {
    if name !in env then Failure(NotPresent)
    else match env[name]
      case Valid(s) => Success(s)
      case Invalid => Failure(NotUnicode)
  }

  /** The name can be read without aborting: it is unset or holds text. */
  predicate Readable(env: Environment, name: string)
  {
    name !in env || env[name].Valid?
  }

  /** What the environment says about `name`, as a result of a lookup:
      nothing when unset, the text when it is text, the abort otherwise. */
  ghost predicate Reports(env: Environment, name: string, r: Outcome<Option<string>>)
  {
    if name !in env then r == Success(None)
    else if env[name].Valid? then r == Success(Some(env[name].s))
    else r == Failure(Abort(name))
  }

  /** The `err!` macro applied to `env::var(name)`: unset becomes `None`, text
      becomes `Some`, invalid Unicode aborts and is never turned into `None`. */
  function Lookup(env: Environment, name: string): (r: Outcome<Option<string>>)
    ensures Reports(env, name, r)
    ensures r == Success(None) <==> name !in env
    ensures r.Failure? <==> !Readable(env, name)
  {
    match Var(env, name)
    case Success(val) => Success(Some(val))
    case Failure(NotPresent) => Success(None)
    case Failure(_) => Failure(Abort(name))
  }

  /** Two environments agree on every name of `names`. */
  ghost predicate AgreeOn(e1: Environment, e2: Environment, names: set<string>)
  {
    forall n :: n in names ==> (n in e1 <==> n in e2) && (n in e1 ==> e1[n] == e2[n])
  }

  /** A lookup depends on its own variable and on nothing else in the environment. */
  lemma LookupDependsOnlyOnName(e1: Environment, e2: Environment, name: string)
    requires AgreeOn(e1, e2, {name})
    ensures Lookup(e1, name) == Lookup(e2, name)
  {
    assert name in {name};
  }
}

# rci: which CI service is this, and what does it say?

A model of the `rci` Rust library (`src/lib.rs`). The library tells whether the
process runs under Travis CI, under CircleCI or under neither. It then offers
optional accessors for the metadata each service puts into the environment:
branch, build URL, build number, build directory, commit, pull request, and the
versions of 14 languages (Travis only).

The process environment is injected as a map from variable names to values. A
value `Valid(s)` is valid text. `Invalid` is a value that is not valid Unicode.
A name that is not in the map is not set. Every operation that reads the environment
takes this map as a parameter, so each accessor reads the environment afresh, as the library does.

The library aborts the process (`panic!`) when a variable it reads is set to
invalid Unicode. The model keeps this as a separate outcome,
`Failure(Abort(name))`, which every accessor passes on. It is never turned into
"absent". `which_ci` reads `TRAVIS` before `CIRCLECI` (the tuple is evaluated
left to right), so if both are invalid the abort names `TRAVIS`.

Modules:
- `Wrappers`: `Option` and `Result`.
- `Env`: the environment, `std::env::var` (`Env.Var`), and the `err!` lookup (`Env.Lookup`).
  The predicate `Env.Reports(env, name, r)` says that `r` is what the environment holds for `name`.
- `Rci`: `CiService`, the handle `Ci`, detection, construction, every accessor,
  the language-to-token table and `Display`.
- `Footprints`: an enumeration of the text accessors, and a table of the variable
  each one reads under each service, taken from the accessors' match arms (`Footprints.Source`). It also
  proves that each accessor reads that variable and nothing else, and that
  different accessors read different variables.

`Ci` is an ordinary datatype that could hold `Unknown`. The Rust struct could
too, and its accessors keep their `_ => None` arms, so the model keeps those
arms as well. `Rci.New` proves that a constructed handle never holds `Unknown`.


## Model

| member | source | states |
|---|---|---|
| `Env.Lookup` | src/lib.rs:32-42 | an unset variable gives `None`; valid text `s` gives `Some(s)`; an invalid value gives the abort for that name, never `None` (both directions) |
| `Env.LookupDependsOnlyOnName` | src/lib.rs:32-42 | a lookup's result depends only on the looked-up variable |
| `Env.Var` | src/lib.rs:34-39 | `std::env::var` as `err!` receives it: `NotPresent` iff the variable is unset, `NotUnicode` iff it holds invalid Unicode, otherwise the text it holds |
| `Rci.WhichCi` | src/lib.rs:68-74 | Travis iff `TRAVIS` is set and `CIRCLECI` is not; Circle iff `CIRCLECI` is set and `TRAVIS` is not; Unknown iff both are set or neither is; aborts iff either marker holds invalid Unicode, naming `TRAVIS` first |
| `Rci.WhichCiIgnoresValues` | src/lib.rs:68-74 | only whether the markers are set matters, not what they hold |
| `Rci.New` | src/lib.rs:60-66 | a handle iff detection names a known service; the handle holds exactly that service, never Unknown; a detection abort is passed on |
| `Rci.IsTravis` | src/lib.rs:91-96 | `is_travis`: true iff the handle's service is Travis |
| `Rci.IsCircle` | src/lib.rs:98-103 | `is_circle`: true iff the handle's service is Circle |
| `Rci.NewMembership` | src/lib.rs:91-103 | for a constructed handle exactly one of `is_travis` and `is_circle` holds, and each holds iff its marker alone is set |
| `Rci.Locale` | src/lib.rs:76-79 | reports `LANG`, with no service involved |
| `Rci.SearchPath` | src/lib.rs:81-84 | reports `PATH` |
| `Rci.Home` | src/lib.rs:86-89 | reports `HOME` |
| `Rci.Branch` | src/lib.rs:105-111 | reports `TRAVIS_BRANCH` under Travis and `CIRCLE_BRANCH` under Circle |
| `Rci.BuildUrl` | src/lib.rs:113-121 | reports `CIRCLE_BUILD_URL` under Circle; absent under any other service, whatever the environment holds |
| `Rci.BuildId` | src/lib.rs:123-131 | reports `TRAVIS_BUILD_NUMBER` under Travis and `CIRCLE_BUILD_NUM` under Circle |
| `Rci.BuildDir` | src/lib.rs:133-141 | reports `TRAVIS_BUILD_DIR` under Travis; absent under any other service, whatever the environment holds |
| `Rci.Commit` | src/lib.rs:143-150 | reports `TRAVIS_COMMIT` under Travis and `CIRCLE_SHA1` under Circle |
| `Rci.PullRequest` | src/lib.rs:152-168 | under Travis: absent when `TRAVIS_PULL_REQUEST` is unset or `"false"`, `Some(v)` for any other text `v`, an abort for invalid Unicode; under Circle it reports `CIRCLE_PR_NUMBER` |
| `Rci.PullRequestNeverFalse` | src/lib.rs:155-168 | under Travis a reported pull request is never `"false"`, and it is the value `TRAVIS_PULL_REQUEST` holds |
| `Rci.Token` | src/lib.rs:170-183 | the `lang_version!` table from language to token (`java` to `JDK`, `otp` to `OTP`, ...); every token is a non-empty word of upper-case letters |
| `Rci.LanguageOfToken` | src/lib.rs:170-183 | not a library function: the table read backwards, used to prove tokens distinct; a token it recognises is the token of the language it returns |
| `Rci.TokenRoundTrip` | src/lib.rs:170-183 | every language's token leads back to that language, so no two languages share a token |
| `Rci.VersionVar` | src/lib.rs:49 | the variable name `format!("TRAVIS_{}_VERSION", token)` builds: `TRAVIS_`, then the token, then `_VERSION` |
| `Rci.VersionVarToken` | src/lib.rs:44-54 | the token is what lies between `TRAVIS_` and `_VERSION` in a version variable's name |
| `Rci.VersionVarInjective` | src/lib.rs:44-54 | different languages read different `TRAVIS_<token>_VERSION` variables |
| `Rci.LangVersion` | src/lib.rs:44-54 | under Travis reports `TRAVIS_<token>_VERSION` for the language's token; absent under any other service, whatever the environment holds |
| `Rci.ServiceName` | src/lib.rs:25-30 | the name `derive(Debug)` prints for each service: `Travis`, `Circle`, `Unknown` |
| `Rci.Display` | src/lib.rs:185-189 | the text is `Continuous Integration Service: ` followed by the service's `Debug` name: `Travis`, `Circle` or `Unknown` |
| `Rci.DisplayInjective` | src/lib.rs:185-189 | different handles never display the same text |
| `Footprints.GetFollowsSource` | src/lib.rs:105-183 | every text accessor except Travis's pull request reports exactly the variable its match arm names, and is absent where the service has none |
| `Footprints.OnlyItsVariableMatters` | src/lib.rs:105-183 | each accessor's result depends only on the variable its match arm names, and on no variable where the service does not define the concept |
| `Footprints.NotAVersionVar` | src/lib.rs:44-54 | no version variable coincides with another Travis variable |
| `Footprints.ReadsDisjoint` | src/lib.rs:105-183 | under one service, two different accessors never read the same variable |
| `Footprints.SettingOneVariable` | src/lib.rs:105-183 | setting the variable one accessor reads leaves every other accessor's result unchanged |

## Left out

- The call to the operating system and OS string encoding: the environment is a parameter, and a value is only valid text or invalid.
- The process abort of `panic!`: it is the outcome `Failure(Abort(name))`. The payload of the real panic, which carries the raw OS string, is not modelled.
- `fmt::Formatter`: `Display` is modelled as the string it writes.
- The crate's doc-comment example, and the TODO notes about converting numbers and returning filesystem paths: these are not implemented behaviour.
- The integration tests under `tests/`: they read the host's real environment and return early depending on where they run.
- Concurrent writes to the environment by a host program: these are outside the library.

# Verified model of the tsconfig package's test utilities

The repository publishes a tsconfig-style configuration package and ships two
scripts with exact, statable logic:

- `utils/exports.mjs` lists the package's export specifiers: every key of the
  manifest's `exports` object with its first `.` replaced by the package name.
- `utils/execute-tests.mjs` runs an end-to-end test for every pair of example
  project and specifier (the manifest's own `./package.json` export excluded):
  it creates a temporary directory from a sanitised prefix, copies the project
  into it, installs the package, writes a one-line `tsconfig.json` that extends
  the specifier and runs the build.

The model is pure where the scripts are pure and imperative where they await
effects one after another:

| file | module | what it holds |
|---|---|---|
| `wrappers.dfy` | `Wrappers` | `Option` and `Result` |
| `arithmetic.dfy` | `Arithmetic` | row offsets, multiplication and division facts for matrix positions |
| `js_string.dfy` | `JsString` | `String.prototype.replace` with a one-character string pattern (first occurrence only, GetSubstitution `$` patterns expanded) and with a global one-character regular expression |
| `manifest.dfy` | `Manifest` | the parsed manifest and `key.replace(".", name)` |
| `discover_exports.dfy` | `DiscoverExports` | the discovery script's list |
| `execute_tests.dfy` | `ExecuteTests` | `pkgExports`, sanitising, the temporary-directory prefix, the tsconfig text |
| `test_matrix.dfy` | `TestMatrix` | the `allConfigs` cross product |
| `test_case.dfy` | `TestCase` | `execPromise` and the five awaited steps of `runTest`, as methods over an environment that says how each step answers |

Where the code does something other than what its names and messages suggest,
the model follows the code:

- Discovery does not drop the `./package.json` key. Only the test runner does.
- The first `.` anywhere in a key is replaced, not only a leading `.` segment.
  A name holding `$` patterns is expanded as a JavaScript replacement string.
- A manifest without `exports` makes `Object.keys` throw a TypeError, modelled
  as `ExportsNotAnObject`.
- Sanitised prefixes are not collision-free (`TempPrefixNotInjective`). Each
  case's directory is distinct only through the suffix `mkdtemp` appends.
- A failing step does not reject the case's promise (see Findings).

## Model

| member | source | states |
|---|---|---|
| `JsString.IndexOf` | utils/exports.mjs:20 | the search for the first `.` gives the first position holding it, or none exactly when the key has no `.` |
| `JsString.FirstOccurrenceIsIndexOf` | utils/exports.mjs:20 | a position holding the character with none before it is the one the search finds |
| `JsString.Substitution` | utils/exports.mjs:20 | the replacement-pattern table: `$$` gives one `$`, `` $& `` the matched text, `` $` `` the text before the match, `$'` the text after it; `$1` (no capture groups) and a lone `$` stay literal |
| `JsString.SubstitutionWithoutDollar` | utils/exports.mjs:20 | a replacement string without `$` is inserted verbatim |
| `JsString.ReplaceFirst` | utils/exports.mjs:20 | a string without the pattern character is returned unchanged |
| `JsString.ReplaceFirstAt` | utils/exports.mjs:20 | with a `$`-free replacement only the first occurrence is replaced; text before and after it is kept |
| `JsString.NextMatch` | utils/execute-tests.mjs:39-40 | the regular-expression scan finds the next character of the class and skips none |
| `JsString.GlobalReplaceFrom` | utils/execute-tests.mjs:39-40 | every character of the result is a character of the replacement or a character of the scanned text outside the class |
| `JsString.GlobalReplaceCharwise` | utils/execute-tests.mjs:39-40 | a global one-character replace keeps the length and maps each character of the class to the replacement and every other character to itself |
| `Manifest.NameText` | utils/exports.mjs:19-20 | the name interpolated into each key is the manifest's name, or `undefined` when the manifest has none |
| `Manifest.Specifier` | utils/exports.mjs:20 | a key with no `.` is emitted unchanged |
| `Manifest.SpecifierReplacesFirstDot` | utils/exports.mjs:20 | the specifier is the key with its first `.` replaced by the name; later dots stay |
| `Manifest.SpecifierOfRelativeKey` | utils/exports.mjs:20 | a key starting with `.` yields the name followed by the rest of the key |
| `Manifest.SpecifierExamples` | utils/exports.mjs:20 | `./node`, `./a.b`, `./cfg.base` and `.` give name + `/node`, name + `/a.b`, name + `/cfg.base` and the name |
| `Manifest.SpecifierExpandsDollarPatterns` | utils/exports.mjs:20 | a name `$&` puts the matched dot back and `$$` inserts one dollar sign |
| `Manifest.Specifiers` | utils/exports.mjs:20 | mapping keeps one specifier per key, in key order |
| `DiscoverExports.ListExports` | utils/exports.mjs:18-20 | fails exactly when there is no exports object; otherwise one entry per key, in key order, unfiltered, each the key's specifier |
| `DiscoverExports.ListsPackageJsonEntry` | utils/exports.mjs:20 | a `./package.json` key is listed as name + `/package.json` |
| `DiscoverExports.EntriesStartWithName` | utils/exports.mjs:19-20 | every relative key's entry is the name followed by the key without its dot |
| `DiscoverExports.SubPathAndPackageJsonListing` | utils/exports.mjs:20 | keys `./node` and `./package.json` list name + `/node` and name + `/package.json` |
| `ExecuteTests.DropManifestKey` | utils/execute-tests.mjs:23 | the filter removes every `./package.json` key and keeps every other key; the length drops by the number of `./package.json` keys; it equals dropping the entries whose key is `./package.json` position by position |
| `ExecuteTests.PkgExports` | utils/execute-tests.mjs:21-23 | fails exactly when there is no exports object; otherwise one specifier per key other than `./package.json` |
| `ExecuteTests.SpecifiersOfKeptKeys` | utils/execute-tests.mjs:23 | filtering the keys and then mapping equals mapping and then dropping the entries of `./package.json` keys |
| `ExecuteTests.PkgExportsIsListingWithoutManifestEntries` | utils/execute-tests.mjs:23 | the runner tests exactly the discovery list of the same manifest without the `./package.json` entries, in the same order |
| `ExecuteTests.SubPathAndPackageJsonTested` | utils/execute-tests.mjs:23 | keys `./node` and `./package.json` give the single specifier name + `/node` |
| `ExecuteTests.Sanitise` | utils/execute-tests.mjs:39-40 | length kept; each `@`, `-` and `/` becomes `-`, other characters unchanged; no `@` or `/` remains |
| `ExecuteTests.SanitiseIdempotent` | utils/execute-tests.mjs:39-40 | sanitising twice equals sanitising once |
| `ExecuteTests.SanitiseFixedPoints` | utils/execute-tests.mjs:39-40 | a string is left unchanged exactly when it has no `@` and no `/` |
| `ExecuteTests.SanitiseConcat` | utils/execute-tests.mjs:39-40 | sanitising a concatenation sanitises each part |
| `ExecuteTests.SanitiseProjectPath` | utils/execute-tests.mjs:39 | a project path `dir/name/` becomes `dir-name-` (so `tests/example-project-01-simple/` becomes `tests-example-project-01-simple-`) |
| `ExecuteTests.TempPrefix` | utils/execute-tests.mjs:41 | the prefix is the temp root, a separator and a leaf free of `/` and `@`, of the combined length |
| `ExecuteTests.TempPrefixOfProject` | utils/execute-tests.mjs:39-41 | for `dir/name/` the prefix is root + `/dir-name--` + the sanitised specifier |
| `ExecuteTests.TempPrefixNotInjective` | utils/execute-tests.mjs:39-41 | two different specifiers differing in `-` versus `/` get the same prefix |
| `ExecuteTests.TsconfigText` | utils/execute-tests.mjs:55 | the text is `{ "extends": "` + specifier + `" }` and a newline; reading the extends value back gives the specifier |
| `TestMatrix.Row` | utils/execute-tests.mjs:64-66 | one case per specifier, in order, all with the same project |
| `TestMatrix.AllConfigs` | utils/execute-tests.mjs:63-67 | the matrix has projects times specifiers cases |
| `TestMatrix.AllConfigsAtRowStart` | utils/execute-tests.mjs:63-67 | the row of project i starts after i full rows |
| `TestMatrix.AllConfigsAt` | utils/execute-tests.mjs:63-67 | config-major order: pair (i, j) sits at position i * number of specifiers + j |
| `TestMatrix.AllConfigsPosition` | utils/execute-tests.mjs:63-67 | every position holds exactly one index pair, recovered by division and remainder |
| `TestMatrix.RepositoryMatrixSize` | utils/execute-tests.mjs:16-19 | with the two example projects every specifier gives two cases |
| `TestCase.ExecPromise` | utils/execute-tests.mjs:25-36 | once exec has called back, the command promise settles: fulfilled with stdout exactly when exec reports a null error, otherwise rejected with that error |
| `TestCase.InstallCommand` | utils/execute-tests.mjs:54 | the install command is `npm i --save-dev ` followed by the repository root, unchanged |
| `TestCase.FirstFailureFrom` | utils/execute-tests.mjs:46-59 | finds the first failing step at or after a position, with every step before it succeeding |
| `TestCase.CaseResult` | utils/execute-tests.mjs:46-60 | the awaited sequence yields the build's stdout exactly when all five steps succeed, otherwise the error of the first failing step |
| `TestCase.Attempted` | utils/execute-tests.mjs:46-59 | the number of steps started: every step before the last started one succeeded, a run that stops early stops at a failing step, and all five are started with the build succeeding exactly when every step succeeds |
| `TestCase.Plan` | utils/execute-tests.mjs:44-60 | the five requests: mkdtemp with the case's prefix, cp of the project into the folder, the install command in the folder, writing `tsconfig.json` in the folder whose extends value is the specifier, and `npm run build` in the folder |
| `TestCase.Steps` | utils/execute-tests.mjs:44-60 | requests are issued in the order mkdtemp, cp, install, writeFile, build, up to and including the first failing step, with the prefix, folder, commands and tsconfig text of the case; the result is `CaseResult` |
| `TestCase.ExecutorOutcome` | utils/execute-tests.mjs:44-61 | as written the case promise is never rejected: fulfilled with the stdout on success, otherwise pending with an unhandled rejection |
| `TestCase.IntendedOutcome` | utils/execute-tests.mjs:44-61 | corrected: once every started step has answered, the case promise settles, rejecting with the first failure |
| `TestCase.RunTest` | utils/execute-tests.mjs:38-62 | as written: steps as in `Steps`; fulfilled only after all five succeed, with the build's stdout; never rejected; pending with the failing step's error left unhandled otherwise |
| `TestCase.RunTestIntended` | utils/execute-tests.mjs:38-62 | corrected: same steps; fulfilled after all five succeed, rejected with the failing step's error otherwise; it settles once every started step has answered |
| `TestCase.FailingStepIsLast` | utils/execute-tests.mjs:46-59 | a failing step prevents every later step and fails the case |
| `TestCase.CopyFailureRunsNoCommand` | utils/execute-tests.mjs:52-54 | a project that cannot be copied fails the case before install or build runs; once the folder exists the case fails with the copy's error |
| `TestCase.MkdtempFailureLeavesCasePending` | utils/execute-tests.mjs:44-46 | a failing mkdtemp leaves the case pending as written, while the corrected case rejects |

Derivation is deterministic: `ListExports` and `PkgExports` are functions of
the manifest, so equal manifests give equal, order-identical lists.

## Findings

| source | as written | input that shows it | evidently intended | confidence | as-written member | corrected member |
|---|---|---|---|---|---|---|
| utils/execute-tests.mjs:44-61 | the promise executor is `async` and no step's failure is passed to `rej1`; a failing await only rejects the executor's own promise, which nobody handles | an environment in which `mkdtemp` fails (for instance permission denied) | the case's promise rejects with the first failure | high; not executed | `TestCase.RunTest`, `TestCase.MkdtempFailureLeavesCasePending` | `TestCase.RunTestIntended` |

## Left out

- A step that never answers (a hung install or build) is not modelled: the model starts from each step's answer, and the code passes no time-out to `exec`, so such a case stays pending, as written and as corrected.
- Child processes and the file system: `exec`, `mkdtemp`, `cp` and `writeFile` are not performed; an `Environment` value says how each would answer, and `mkdtemp`'s generated suffix is part of it.
- Reading standard input or `package.json` and `JSON.parse`: the model starts from a parsed manifest. A `name` that is not a string and an `exports` value that is not an object (a string or array would enumerate its indices) are not modelled; a missing name is the string "undefined".
- `Object.keys` ordering: the keys are taken in the order `Object.keys` returns them; its placing of integer-like keys first is not modelled.
- `Promise.all` over the matrix, the concurrent interleaving of cases and the process exit status: the cases share no state, and their timing is outside a sequential model.
- `console.log` output, the real `tmpdir()` value and the repository root computed from `import.meta.url`: they are parameters.
- `ExecuteTests.Join`: models `path.join` as plain concatenation with `/`; normalisation of `..`, `.` and doubled separators is not modelled.
- `JsString.GlobalReplaceFrom`: uses the replacement string literally; `$` patterns are not expanded, which agrees with JavaScript for the only replacement used, `-`.
- JavaScript strings are sequences of UTF-16 code units; the model uses `char` sequences.
- `utils/validate-tsconfig.mjs` is not part of this model: it only calls the TypeScript compiler's configuration parser.
- The example projects' `src/api-route.js` files are not part of this model: they are placeholder handlers returning constants.

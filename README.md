# Faucet core, modelled in Dafny

Ignite's faucet is a command-line program. It starts an HTTP token faucet for a
Cosmos SDK chain and reports its own build version. This project models the
program's decision logic and proves properties of it:

- **version package** (`version.dfy`). Covers:
  - the update check `CheckNext`, with the semantic-version precedence it relies
    on (`semver.dfy`);
  - the latest-release tag lookup `getLatestReleaseTag`;
  - the display version `resolveDevVersion`;
  - the build-settings loop of `GetInfo` and the `Info` record it assembles;
  - the line list `Long` writes.
- **root command** (`root.dfy`). Covers:
  - the guard of the pre-run hook;
  - the update advisory `checkNewVersion`;
  - the version endpoint `versionHTTP` with `responseError` and
    `responseSuccess`.
- **faucet start-up** (`faucet.dfy`, `legacy_faucet.dfy`). Two compilers turn
  settings into the options handed to the chain-command runner and to the
  faucet:
  - `runCmdHandler`, the newer one;
  - the older `main` of `cmd/faucet`, which fills an array by index, always asks
    for the latest SDK version and converts `uint64` amounts to `int64`.

Shared pieces:

- `base.dfy` holds Go's `(value, error)` returns as `Result`, an optional value,
  and the `int64(uint64)` conversion.
- `text.dfy` holds:
  - Go's `strings.Split` on one separator character, with its inverse `Join`;
  - `strings.TrimSpace` over Unicode white space;
  - `strings.HasPrefix`;
  - the byte-wise string order.
- `options.dfy` holds the runner and faucet options as tagged values.

Work with the outside world enters the model as parameters:

- The release registry's answer is a `Release`: a tag, no tag, or a failure.
- `semver.ParseTolerant` is a `Parser` function supplied by the caller.
- `chaincmd.KeyringBackendFromString` and `cosmosver.Parse` are supplied
  functions, and `cosmosver.Latest` is a supplied value.
- What `GetInfo` probes is a `Host` record: the embedded build settings, `go
  version`, `uname -a`, the OS and architecture, and the working directory.

Design points worth knowing:

- `RunCmdHandler`, `LegacyMain`, `FoldSettings`, `GetInfo`, `WriteReport`, `Long` and
  `VersionHTTP` are methods. They follow the source's step-by-step updates (the
  appends, the array filled by index, the settings loop). Each is proved against
  a specification (`IsFaucetOptions`, `LastValue`, `ExpectedInfo`, `Report`).
- The rest is functions and lemmas.

## Model

| member | source | states |
|---|---|---|
| Base.ToInt64 | cmd/faucet/main.go:51-52 | `int64(u)` keeps `u` up to 2^63 - 1 and wraps anything larger to `u - 2^64`, which is negative exactly then |
| Text.Split | cmd/faucet.go:160 | splitting always gives at least one piece, and no piece contains the separator |
| Text.JoinSplit | cmd/faucet.go:160 | joining the pieces of `Split(s, sep)` with `sep` gives back `s` |
| Text.SplitJoin | cmd/faucet.go:160 | for a non-empty list of separator-free pieces, `Split(Join(parts))` gives back the list |
| Text.SplitNoSeparator | cmd/faucet.go:160 | a string without the separator splits into itself alone |
| Text.SplitAfterPiece | cmd/faucet.go:160 | a separator-free piece followed by the separator splits off as the first piece |
| Text.TrimSpace | version/version.go:187 | the result neither starts nor ends with a white-space character |
| Text.TrimSpaceSlice | version/version.go:196 | the result is a contiguous slice of the input, so only leading and trailing white space is removed |
| Text.TrimSpaceKeepsTrimmed | version/version.go:196 | a string with no white space at either end is unchanged |
| Text.TrimSpaceIdempotent | version/version.go:196 | trimming twice equals trimming once |
| Text.LessIrreflexive | version/version.go:61 | no pre-release identifier string is below itself in byte order |
| Text.LessAsymmetric | version/version.go:61 | byte order never puts two strings below each other |
| Text.LessTransitive | version/version.go:61 | byte order is transitive |
| Text.LessTotal | version/version.go:61 | any two different strings are ordered one way or the other |
| SemVer.CompareIdentifiers | version/version.go:61 | comparing pre-release identifier lists gives -1, 0 or 1, and 0 exactly when the lists are equal |
| SemVer.Compare | version/version.go:61 | a comparison gives -1, 0 or 1, and gives 0 exactly when the versions have equal precedence, build metadata ignored |
| SemVer.CompareIdentifiersAntisymmetric | version/version.go:61 | swapping two identifier lists negates their comparison |
| SemVer.CompareAntisymmetric | version/version.go:61 | swapping two versions negates their comparison |
| SemVer.CompareIdentifiersTransitive | version/version.go:61 | identifier-list order is transitive |
| SemVer.GTIrreflexive | version/version.go:61 | no version is greater than itself |
| SemVer.GTAsymmetric | version/version.go:61 | `a > b` rules out `b > a` |
| SemVer.GTTransitive | version/version.go:61 | `a > b` and `b > c` give `a > c` |
| SemVer.GTTotal | version/version.go:61 | of two versions with different precedence, one is greater |
| SemVer.ReleaseAbovePreRelease | version/version.go:61 | a release is greater than any pre-release with the same major, minor and patch |
| Version.LatestReleaseTag | version/version.go:66-80 | only a registry failure is an error, and it carries that failure; a release without a tag name gives the empty tag; a tagged release gives its tag |
| Version.CheckNext | version/version.go:41-64 | builds whose tag is a sentinel (`IsSentinel`: "development" or "nightly") report nothing. Otherwise the first failure (registry, current version, latest tag) is the error, with no update and no tag. There is no error when the registry answers and both tags parse. Then the tag is returned, and an update is reported exactly when the latest tag is greater than the current version |
| Version.SentinelIgnoresRegistry | version/version.go:42-44 | for a sentinel build the answer does not depend on the registry |
| Version.EqualVersionIsNoUpdate | version/version.go:61 | a latest tag with the same precedence as the build is no update, and the tag is still returned |
| Version.UpdateIsOneWay | version/version.go:56-63 | if `b` is an update over `a`, then `a` is no update over `b` |
| Version.UntaggedReleaseIsParsedAsEmpty | version/version.go:46-59 | a release without a tag is checked as "", which a parser refusing "" turns into an error with no update |
| Version.ResolveDevVersion | version/version.go:89-108 | tagged builds show their tag; sentinels show themselves when the registry fails, and otherwise the latest tag with "-dev" or "-nightly" appended |
| Version.ResolvedIsNotSentinel | version/version.go:100-105 | once the registry answers, the shown version is never a sentinel |
| Version.ResolveIdempotent | version/version.go:89-108 | once the registry has answered the first resolution, resolving the shown version again changes nothing |
| Version.OfflineBuildShowsSentinel | version/version.go:95-98 | when the registry fails, a sentinel build shows the sentinel itself, so resolving again once the registry answers gives a different, "-dev" version |
| Version.LastValueIsLastOccurrence | version/version.go:156-161 | the value kept for a key is the value of the key's last setting, and nothing follows that setting with the same key, in both directions |
| Version.LastValueAbsent | version/version.go:152-165 | no value is found exactly when no setting has the key, so the "undefined" default stays |
| Version.FoldSettings | version/version.go:152-165 | the loop leaves the revision and date of the last matching settings (else "undefined"), and a modified flag that is true exactly when the last `vcs.modified` value is "true" |
| Version.DirtyFollowsLastFlag | version/version.go:162-163 | a later `vcs.modified` overrides earlier ones, and only the exact value "true" counts |
| Version.SourceHashMarksDirty | version/version.go:152-169 | `SourceHash`, the revision kept by the loop, has one "*" appended exactly when the tree is modified |
| Version.GetInfo | version/version.go:147-204 | failing `go version` (first), or `uname -a` when `uname` exists, is the error. Otherwise every `Info` field comes from its source: resolved version, trimmed go version and uname, build date (`BuildDate`: the last `vcs.time`, else "undefined") and source hash (`SourceHash`) from the settings, OS, arch, the working directory or "" when unknown, and from-source exactly for "development" |
| Version.FromSourceShowsDevSuffix | version/version.go:83-85 | a build reports from-source (`FromSource`) exactly when its tag is "development"; once the registry answers, its shown version then ends in "-dev" and is never a sentinel |
| Version.WriteReport | version/version.go:127-137 | the lines written one after another are the `Report` of the information: the seven fixed keys in fixed order with their `Info` values, then "Your cwd" only when the working directory is known |
| Version.Long | version/version.go:111-144 | a `GetInfo` failure is passed on; otherwise the lines are the `Report` of the information `GetInfo` gathers |
| Version.ReportKeysDistinct | version/version.go:127-137 | the report's keys are pairwise distinct, and each reported `Info` field appears under its own key; `BuildFromSource` is not part of the report and does not change it. "Your cwd" appears, as the eighth and last line, exactly when the working directory is known |
| Options.CoinDenomsOfCoinRun | cmd/faucet.go:170-174 | when the coin options are exactly one contiguous run, their denominations are that run's denominations in order |
| Faucet.RunCmdHandler | cmd/faucet.go:115-174 | an unknown keyring backend is the first error and an unparsable SDK version the second; it succeeds exactly when both parse. The runner options are then password, backend, chain-ID detection, node, SDK version and, only when set, home. The faucet options are version, account, the fee in the first denomination, and one coin per split denomination in order |
| Faucet.DenomsRoundTrip | cmd/faucet.go:160-174 | the compiled coin denominations are the split list, joining them gives back the configured setting, and the fee is in the first coin's denomination |
| Faucet.SplitTwoDenominations | cmd/faucet.go:160 | "uatom,stake" splits into "uatom" and "stake" |
| Faucet.TwoDenominations | cmd/faucet.go:165-174 | "uatom,stake" with amounts 100 and 1000 gives exactly two coins with those amounts and the fee in "uatom" |
| LegacyFaucet.LegacyMain | cmd/faucet/main.go:19-59 | only an unknown keyring backend fails. Otherwise the runner options end with the latest SDK version, after the optional home. The faucet options are one coin per denomination with the `int64`-converted amounts, then the account, then the fee in the first denomination |
| LegacyFaucet.LegacyCoinDenoms | cmd/faucet/main.go:47-55 | the array filled by index holds one coin per split denomination, in order |
| LegacyFaucet.LegacyDenomsRoundTrip | cmd/faucet/main.go:47-59 | the coin denominations give back the configured list, and the last option is the fee in the first coin's denomination |
| LegacyFaucet.LargeAmountsWrap | cmd/faucet/main.go:51 | a credit amount above 2^63 - 1 reaches the faucet as the negative number `amount - 2^64` |
| LegacyFaucet.VariantsAgree | cmd/faucet/main.go:27-59 | for the same settings (`SameSettings`), with amounts that fit `int64` and the latest SDK version, the older faucet options are the newer ones without the version option, coins first, and the runner options are the same multiset |
| LegacyFaucet.FaucetOptionsAgree | cmd/faucet/main.go:47-59 | the older faucet options are exactly the newer coins, then the account, then the fee |
| LegacyFaucet.RunnerOptionsAgree | cmd/faucet/main.go:27-40 | the older runner options equal the newer ones without a home, and have the home and the SDK version swapped with one; either way they are the same multiset |
| Root.GuardAlwaysHolds | cmd/root.go:27 | the pre-run guard as written (`ShouldCheckVersion`) holds for every command name |
| Root.IntendedGuardSkipsCompletion | cmd/root.go:25-27 | the guard the comment describes (`ShouldCheckVersionIntended`) skips "completion" and "__complete" requests, keeps "version" and "faucet", and differs from the written guard on "completion" |
| Root.AdvisoryNamesTagTwice | cmd/root.go:68 | the advisory (`AdvisoryMessage`) names the release tag both after "Gex " and at the end of the releases URL |
| Root.CheckNewVersion | cmd/root.go:59-69 | an advisory is printed exactly when the check succeeds and reports an update, and it names the returned tag |
| Root.AdvisoryExactlyForNewerRelease | cmd/root.go:63-68 | sentinel builds and registry failures print nothing. An advisory appears exactly when both versions parse and the latest tag is greater, and it names that tag |
| Root.PersistentPreRun | cmd/root.go:24-32 | the hook never fails a command, and every command gets the advisory decision of `checkNewVersion` |
| Root.VersionHTTP | cmd/root.go:71-91 | status 200 exactly when `GetInfo` succeeds, with the info as body (`ResponseSuccess`); otherwise 400 with the error's text as body (`ResponseError`); no other status |

## Left out

- Strings are sequences of Unicode scalar values. Go strings are byte strings
  and may hold invalid UTF-8, for example in `uname -a` output or build
  settings. Such strings, and `TrimSpace` and string order on them, are not
  modelled.
- The GitHub API call of `getLatestReleaseTag` is not modelled. Neither is
  the 600 ms timeout `checkNewVersion` puts on the update check, nor the
  `context` plumbing. The registry's answer is the
  `Release` input.
- `semver.ParseTolerant`, `chaincmd.KeyringBackendFromString` and
  `cosmosver.Parse` are input functions; their internal rules are not modelled.
  `SemVer.Compare` models how blang/semver orders versions once they are parsed.
- Process probes (`debug.ReadBuildInfo`, `exec` of `go version` and `uname -a`,
  `IsCommandAvailable`, `os.Getwd`, `runtime.GOOS`/`GOARCH`) are fields of the
  `Host` input.
- Version.Long: models the key/value lines, not the tabwriter layout or the
  final string. `Flush` into a memory buffer cannot fail, so that error path is
  not modelled.
- Cobra wiring, `cmd.Println`, `fmt.Printf`, logging, and `flag`/pflag or
  environment parsing are not modelled. Settings are plain `Config` and
  `LegacyConfig` inputs. In particular, `cmd/faucet.go` reads some flags with
  `GetInt64`; whether that succeeds for flags registered with another type is
  not modelled.
- Faucet.RunCmdHandler and LegacyFaucet.LegacyMain stop where the options are
  handed to `chaincmdrunner.New` and `cosmosfaucet.New`. Failures of those
  factories, `http.HandleFunc` and `ListenAndServe` are not modelled. In the
  newer handler a runner-factory failure would come before the denomination
  split.
- `log.Fatal` in the legacy `main` becomes an `Err` result.
- Root.VersionHTTP: models the status code and body value, not JSON encoding
  (including `omitempty` for an empty error text).
- `main.go`, the other commands' registration, and `cmd/faucet/config.go`'s flag
  table are not part of this model.

## Notes on the code

- Every command is checked for updates. The code's guard is always true (see
  Findings), so the version command and the completion commands get the update
  check too. `Root.PersistentPreRun` models the code as written.
- A release without a tag is not skipped. The code passes the empty tag to the
  parser, and the outcome depends on the parser:
  `Version.UntaggedReleaseIsParsedAsEmpty` covers a parser that refuses "".
- The empty-denominations error of `runCmdHandler` (cmd/faucet.go:161-163) can
  never occur, because `strings.Split` always returns at least one piece. The
  model keeps the branch and proves it dead. Empty pieces, such as those from
  "" or "a,,b", are passed through as denominations, as in the code.
- The advisory text names "Gex" and links the gex releases page. It is kept as
  written.

## Findings

| source | as written | input that shows it | evidently intended | confidence | as-written member | corrected member |
|---|---|---|---|---|---|---|
| cmd/root.go:27 | `cmd.Use != "completion" \|\| !strings.HasPrefix(cmd.Use, "__complete")` is always true, so the update check also runs while completion output is produced | `cmd.Use == "completion"`: the second disjunct holds because "completion" does not start with "__complete" | `&&`: skip the check for "completion" and for "__complete…" requests, as the comment above the guard says | not executed | Root.GuardAlwaysHolds | Root.IntendedGuardSkipsCompletion |

# helmit in Dafny

helmit is a small command-line front end for Helm charts. It loads a chart from a path (a flat
directory or an archive), checks a few required fields, and can smoke-test the chart against a
cluster: install it under a timestamped release name, check that exactly one release came up
`deployed`, then uninstall it. This project models helmit's own decision logic and proves properties
of it. Everything it hands off to Helm, client-go, the file system, the environment or the clock is
an *oracle*: a function-typed field of a record parameter that answers each call with a value or an
error. The answers are arbitrary, so every property holds whatever those libraries do.

Files and modules:

- `outcomes.dfy` (`Outcomes`): `Option` for nil-able pointers and slices, `Result` for `(T, error)`
  returns, `Outcome` for bare `error` returns. An error is its message text, and
  `fmt.Errorf("ctx: %v", err)` becomes `"ctx: " + e`.
- `gostrings.dfy` (`GoStrings`): `strings.HasSuffix`, the conversion `[]byte(s)` (UTF-8 encoding),
  and fmt's `%d`.
- `charts.dfy` (`Charts`): from `charts/charts.go`, the lint (`LintChart`) and the load pipeline. The
  pipeline is the imperative `LoadChart`, whose directory loop is proved against the function
  `LoadChartSpec`.
- `k8stesting.dfy` (`K8sTesting`): from `k8s/k8stesting/k8stesting.go`, the classification of chart
  paths by suffix and the smoke test. The smoke test is the imperative `TestHelmChart`, which sets the
  fields of an `InstallAction` object one by one and is proved against the function `SmokeTest`.
- `helmit.dfy` (`Helmit`): from `main.go`, the dispatch after flag parsing (`SelectAction`), and the
  process outcome (`Run`): its exit code and the lines it writes to stdout and stderr.

The stages a piece of code never reaches are stated as *independence*. For example, "no decode happens
after a stat failure" becomes "the result is the same for every decoder". Likewise, "uninstall is not
attempted" becomes "the result is the same for every uninstall oracle".

Uninstall is not attempted when listing or verification fails (k8s/k8stesting/k8stesting.go:99-110),
so a failed verification leaves the release installed; `UninstallOnlyAfterVerification` states this.

Some behaviour is modelled as written, even where it looks unintended:

- The YAML branch of the smoke test passes the bytes of the path string itself to the archive
  decoder (`YamlBranchDecodesPathBytes`).
- The directory branch of `LoadChart` skips sub-directories such as `templates/`
  (`ReadEntriesSkipsDirectories`, `OnlyTheChartDirectoryIsListed`). With Helm's loader, a chart
  loaded from a directory then has no templates, and the lint rejects it (`LintErrorYieldsNoChart`).

## Model

| member | source | states |
|---|---|---|
| `Charts.LintChart` | charts/charts.go:85-106 | passes exactly when the chart is well formed: metadata present, name non-empty, version non-empty, templates non-nil and non-empty; each of the four messages is returned exactly when its guard is the first to fail |
| `Charts.LintIsFirstBrokenRule` | charts/charts.go:85-106 | the lint equals "message of the first broken rule" over the ordered five-rule list (metadata, name, version, nil templates, empty templates): no aggregation, first failure wins |
| `Charts.NoMetadataWhateverTemplates` | charts/charts.go:86-88 | a chart without metadata fails with "chart has no metadata" whatever its templates are |
| `Charts.NilAndEmptyTemplatesAlike` | charts/charts.go:98-104 | nil templates and empty templates give the same lint result, and it is a failure |
| `Charts.NonDirs` | charts/charts.go:33-36 | the entries of a listing that are not directories, in listing order: none of them is a directory, and never more than the listing |
| `Charts.NonDirsKeepsExactlyFiles` | charts/charts.go:33-36 | an entry is kept exactly when it is in the listing and is not a directory |
| `Charts.ReadEntries` | charts/charts.go:31-46 | the directory loop as a function; on success it yields one file per non-directory entry |
| `Charts.ReadEntriesErrorPersists` | charts/charts.go:40-43 | once a prefix of the listing has hit a read error, the whole directory loop returns that same error |
| `Charts.ReadEntriesOkIff` | charts/charts.go:33-46 | the directory loop succeeds if and only if every non-directory entry can be read |
| `Charts.ReadEntriesContents` | charts/charts.go:31-46 | on success the collected files are the non-directory entries in listing order, each under its base name and holding exactly what reading it returned |
| `Charts.ReadEntriesFirstFailure` | charts/charts.go:38-43 | the first unreadable non-directory entry (in listing order) decides the error the loop returns |
| `Charts.ReadEntriesSkipsDirectories` | charts/charts.go:33-40 | the loop's result depends on file reads only at the paths of non-directory entries; what a sub-directory's path would read never matters |
| `Charts.ReadEntriesIgnoresListing` | charts/charts.go:31-46 | the directory loop never lists a directory: its result does not depend on the listing oracle |
| `Charts.Decode` | charts/charts.go:17-69 | a stat error, a directory-listing error and the first entry-read error are each returned as they are; a readable directory's collected files go to the multi-file decoder; a non-directory is opened, read in full and handed to the archive decoder, each error returned as it is |
| `Charts.LoadChartSpec` | charts/charts.go:15-82 | a returned chart is the decoded one, it passed Validate and is well formed; a decode error, among them a directory-listing error, is returned unchanged |
| `Charts.LoadChart` | charts/charts.go:15-82 | the imperative load (stat, then the directory loop with early return on a read error or the archive read, then decode, Validate and lint) returns exactly `LoadChartSpec` |
| `Charts.StatFailureStopsLoad` | charts/charts.go:17-20 | when stat fails the load returns that error, the same for every decoder and validator |
| `Charts.DirectoryBranchDecodesNonDirs` | charts/charts.go:24-51 | in the directory branch the multi-file decoder receives exactly the collected files, one per non-directory entry, in listing order, named by base name |
| `Charts.DirectoryReadFailureAborts` | charts/charts.go:38-43 | a read failure on a non-directory entry aborts the load with that entry's error, the same for every decoder |
| `Charts.OnlyTheChartDirectoryIsListed` | charts/charts.go:24-36 | only the chart path itself is listed: changing what listing any other path returns leaves the load unchanged |
| `Charts.LoadChartOkIff` | charts/charts.go:48-81 | the load returns chart `c` if and only if decoding gave `c`, Validate passed and `c` is well formed; the returned chart is the decoded one, unchanged |
| `Charts.DecodeAndValidateErrorsComeFirst` | charts/charts.go:48-74 | a decode error, then a Validate error, is returned as it is, before the lint is consulted |
| `Charts.LintErrorYieldsNoChart` | charts/charts.go:76-79 | a decoded, validated chart that is not well formed yields the lint's message and no chart |
| `Charts.LoadedChartIsWellFormed` | charts/charts.go:71-81 | every chart the load returns has metadata, a non-empty name and version, and at least one template |
| `GoStrings.HasSuffix` | k8s/k8stesting/k8stesting.go:45 | `strings.HasSuffix`: the string is at least as long as the suffix and splits into a stem followed by it |
| `GoStrings.HasSuffixOfConcat` | k8s/k8stesting/k8stesting.go:45 | any string followed by a suffix has that suffix |
| `GoStrings.EncodeRune` | k8s/k8stesting/k8stesting.go:72 | one character encodes to one to four bytes; to one byte, equal to the character, exactly when it is ASCII; to continuation bytes after the first otherwise |
| `GoStrings.ToBytes` | k8s/k8stesting/k8stesting.go:72 | `[]byte(s)` has at least one and at most four bytes per character |
| `GoStrings.ToBytesAscii` | k8s/k8stesting/k8stesting.go:72 | on an ASCII string `[]byte(s)` is the string itself, byte for character |
| `GoStrings.DigitChar` | k8s/k8stesting/k8stesting.go:105 | a digit value below ten maps to a character between '0' and '9' |
| `GoStrings.FormatInt` | k8s/k8stesting/k8stesting.go:105 | `%d` of a count is a non-empty string of decimal digits without a leading zero |
| `GoStrings.FormatIntRoundTrip` | k8s/k8stesting/k8stesting.go:105 | reading the formatted numeral back gives the count that was formatted |
| `K8sTesting.Classify` | k8s/k8stesting/k8stesting.go:45-81 | archive exactly when the path ends in `.tgz` or `.tar.gz`; yaml exactly when it does not but ends in `.yaml` or `.yml`; generic otherwise (the archive test is checked first) |
| `K8sTesting.ClassifyBySuffix` | k8s/k8stesting/k8stesting.go:45-76 | whatever precedes them, `.tgz` and `.tar.gz` select the archive branch and `.yaml` and `.yml` the yaml branch |
| `K8sTesting.YamlBranchDecodesPathBytes` | k8s/k8stesting/k8stesting.go:71-75 | in the yaml branch the archive decoder receives the bytes of the path string, and the result does not depend on opening or reading any file |
| `K8sTesting.ReleaseNameInjective` | k8s/k8stesting/k8stesting.go:86 | distinct timestamps give distinct release names |
| `K8sTesting.InstallAction.constructor` | k8s/k8stesting/k8stesting.go:84 | a new install action has every field at its zero value |
| `K8sTesting.RequestFor` | k8s/k8stesting/k8stesting.go:84-88 | install runs in namespace `helmit-test-release` with release name `helmit-test-release-` + timestamp, namespace creation on, and a 5-minute timeout |
| `K8sTesting.VerifyReleases` | k8s/k8stesting/k8stesting.go:104-110 | verification passes if and only if the list holds exactly one release whose status is `deployed`; a wrong count reports the count, a single release in another status reports that status |
| `K8sTesting.Connect` | k8s/k8stesting/k8stesting.go:24-40 | passes exactly when the config builds from `/tmp/helmit_kubeconfig`, the client is created and the action configuration initialises; a config, client or action-configuration failure each carries its own context message |
| `K8sTesting.LoadForTest` | k8s/k8stesting/k8stesting.go:42-81 | a loaded chart is what the branch's decoder returned: an archive after open, gzip and tar reading succeeded, the path's bytes for yaml, `loader.Load` otherwise |
| `K8sTesting.LoadStageErrors` | k8s/k8stesting/k8stesting.go:44-81 | in each branch the load returns `Ok` of the decoder's chart when every stage succeeds, and otherwise the first failing stage's error under its context message (open, gzip, tar read, archive decode; yaml decode; generic load) |
| `K8sTesting.Deploy` | k8s/k8stesting/k8stesting.go:84-117 | passes exactly when install, listing, verification and uninstall all succeed |
| `K8sTesting.SmokeTest` | k8s/k8stesting/k8stesting.go:22-120 | a connect failure is the result; after it a load failure is the result; otherwise the result is the install-to-uninstall sequence under the generated request |
| `K8sTesting.LaterStageErrors` | k8s/k8stesting/k8stesting.go:91-117 | an install, listing or uninstall failure is the result of the sequence, carrying its own context message |
| `K8sTesting.TestHelmChart` | k8s/k8stesting/k8stesting.go:22-120 | the imperative smoke test (early returns at each stage, install fields set one by one) returns exactly `SmokeTest` |
| `K8sTesting.ConnectFailureStopsEverything` | k8s/k8stesting/k8stesting.go:24-40 | a config, client or action-configuration failure is the result, the same for every chart source and every install, list and uninstall oracle |
| `K8sTesting.LoadFailureStopsBeforeInstall` | k8s/k8stesting/k8stesting.go:42-81 | after a successful connection a load failure is the result, the same for every install, list and uninstall oracle |
| `K8sTesting.UninstallOnlyAfterVerification` | k8s/k8stesting/k8stesting.go:91-117 | unless install, listing and both checks pass, the result fails and does not depend on the uninstall oracle |
| `K8sTesting.VerificationNeedsOneDeployedRelease` | k8s/k8stesting/k8stesting.go:104-110 | after install and listing succeed, a count other than one or a status other than deployed is the result, and it is a failure |
| `K8sTesting.SmokeTestPassIff` | k8s/k8stesting/k8stesting.go:22-119 | the smoke test succeeds if and only if every stage succeeds, from config to uninstall, with the release listed under its generated name |
| `Helmit.SelectAction` | main.go:35-63 | usage exactly when help is set or no flag was given; otherwise fatal exactly when the chart path is empty; then inittestenv, then test, then load-and-print, each carrying the flag value it acts on |
| `Helmit.HelpOverridesEverything` | main.go:35-38 | with help set the action is usage whatever the other flags are |
| `Helmit.MissingChartIsFatalInEveryMode` | main.go:40-42 | an empty chart path stays fatal whatever inittestenv and test say |
| `Helmit.ModePrecedence` | main.go:44-63 | setting inittestenv turns a test run into an init; setting test turns load-and-print into a test of the same path; test is ignored once inittestenv is selected |
| `Helmit.Run` | main.go:35-71 | the exit code is 0 or 1; it is 1 exactly when main wrote to stderr, and then it is one line and main wrote nothing to stdout (output of the Helm log callback and of the initializer is not modelled) |
| `Helmit.ExitZeroIffActionSucceeded` | main.go:35-71 | the process exits 0 exactly when the selected action succeeded: always for usage, never for a missing chart path, and otherwise when init, the smoke test or the load succeeded |
| `Helmit.UsageExitsZero` | main.go:29-38 | with help or no flags the only output is the usage text, and the exit code is 0 |
| `Helmit.LoadAndPrintShowsChart` | main.go:63-71 | after a successful load the output is the name, description and version lines in that order; the metadata is present and name and version are non-empty |
| `Helmit.MissingChartPathIsFatal` | main.go:63-66 | in load-and-print mode a path that fails to stat gives a fatal exit carrying the stat error |

## Left out

- Go's `flag` parsing is not modelled. The model starts from the parsed values and from `flag.NFlag()`. Also outside the model: the fact that `-c` and `-t` are advertised in the usage text (main.go:17-20) but never registered.
- `log.Fatal` writes a date and time before the message on stderr. The model records only the message and exit status 1.
- `k8s/k8stestinit/k8stestinit.go` is not part of this model. main's call to it is the oracle `Env.initTestEnv`. That oracle may fail, although the code always returns nil.
- The following are oracles with arbitrary answers: Helm's `loader.LoadFiles`, `loader.LoadArchive`, `loader.Load`, `Chart.Validate`, `action.Configuration.Init`, `Install.Run`, `List.Run` and `Uninstall.Run`, and client-go's config building and client construction.
- The smoke test builds a client from `/tmp/helmit_kubeconfig` and then discards it (k8s/k8stesting/k8stesting.go:29-32); Helm's actions are configured from `cli.New()`, that is from the environment and its default kubeconfig, not from that file. `Kube.initAction` stands for that whole configuration step and is given only `HELM_DRIVER`; the model does not relate the cluster Helm talks to with the one the discarded client was built for.
- The Helm logging callback (k8s/k8stesting/k8stesting.go:36-38) writes to stdout, and so does the initializer's confirmation line (k8s/k8stestinit/k8stestinit.go:50); `Helmit.Run`'s stdout holds only main's own lines.
- The gzip and tar reading of the archive branch are three oracles (open, gzip reader, buffered tar copy), and the bytes they produce are an opaque blob.
- File-system calls and `filepath.Join` are oracles. `defer`-ed `Close` calls are omitted because they have no effect on any result. The order of the directory listing is whatever the listing oracle returns.
- A chart carries only its metadata and its templates; Helm's other chart fields are not modelled.
- The model does not cover a decoder that reports success with a nil chart.
- `time.Now()` formatting is replaced by the `now` parameter, which holds the already formatted timestamp. The same goes for `os.Getenv("HELM_DRIVER")` and the `helmDriver` parameter.
- `GoStrings.ToBytes`: Go strings are byte strings, while Dafny strings are Unicode characters. `[]byte(s)` is therefore modelled as the UTF-8 encoding of the characters, and byte strings that are not valid UTF-8 are not modelled.
- `Helmit.Run` is a function from the parsed flags to an exit value. It does not model an imperative `main` that prints and exits. Every `fmt.Println` or `Printf` line is one element of the stdout sequence, without its newline.
- Some test expectations are not modelled because the code contradicts them: the directory-load tests expect success, and `main_test.go` expects an "open" error on stdout.

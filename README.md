# minikube update notification, modelled in Dafny

This project models the update-notification logic of minikube's `notify`
package (`pkg/minikube/notify/notify.go`). On each invocation the notifier:

1. checks a throttle gate, which is closed when `WantUpdateNotification` is
   off and otherwise opens once `ReminderWaitPeriodInHours` have passed since
   the time stored in the last-check file;
2. fetches the release list, where an empty list is an error;
3. takes the first release's name, trims the version prefix and parses it as
   a semantic version;
4. compares that version with the running one. If it is newer, the check
   time is written to the package-level `lastUpdateCheckFilePath` and an
   advisory naming the version and its release page is printed.

Every I/O step is an input or a recorded effect:

- `Notify.Env` holds the configuration, the two clock readings, the fetch
  result, the local version and whether the write succeeds.
- `Notify.Libraries` holds the time codec, the semantic-version operations
  and the version prefix.
- `Notify.Host` is a class holding the file system (a map from the paths of
  readable files to their contents) and the output log (`Effect`s).

Modules:

- `GoTime` (`go_time.dfy`): Go instants in nanoseconds since the zero
  `time.Time`. `Time.Sub` saturates at the int64 bounds of `time.Duration`,
  and `Duration.Hours` is computed as an exact real.
- `Notify` (`notify.dfy`): the data model and the pure gate, fetch and
  selection functions. `Run` is the specification of one invocation.
  `Host.MaybePrintUpdateText` is the imperative method, proved equal to
  `Run`.
- `Throttle` (`throttle.dfy`): repeated invocations by one caller
  (`RunAll`). Its lemmas show how the timestamp file throttles later calls.
  For a caller whose path is not the package-level one, the file at its path
  never changes. Only the time already stored there can throttle that
  caller, and with no file there nothing does.

## Behaviour to note

- When the fetch fails, the release list is empty, or the latest or local
  version cannot be parsed, `MaybePrintUpdateText` logs a warning and returns
  `true` (notify.go:55-64).
- `getJSON` never inspects the HTTP status (notify.go:106-112). A non-2xx
  response is an error only when its body fails to decode as a release list.
  The fetch is an input here, so this is outside the model.
- The timestamp is written only when the local version compares lower than
  the latest one (notify.go:65-66).
- The gate reads the `lastUpdatePath` argument (notify.go:52), but the write
  goes to the package-level `lastUpdateCheckFilePath` (notify.go:66). The
  model keeps these as two separate paths.

## Model

| member | source | states |
|---|---|---|
| `GoTime.Sub` | pkg/minikube/notify/notify.go:82 | `t.Sub(u)` is the exact difference when it fits in a Duration, otherwise the int64 bound on the side it overflows |
| `GoTime.Since` | pkg/minikube/notify/notify.go:82 | `time.Since` of the stored time is the elapsed nanoseconds when they fit in a Duration, otherwise the int64 bound on the side it overflows |
| `GoTime.Hours` | pkg/minikube/notify/notify.go:82 | the hours of a duration, times one hour in nanoseconds, give back the duration exactly |
| `GoTime.HoursAtLeast` | pkg/minikube/notify/notify.go:82 | comparing hours with a threshold is comparing nanoseconds with the threshold times an hour |
| `Notify.TrimPrefix` | pkg/minikube/notify/notify.go:120 | the prefix is removed once, and only if it is a prefix: prefix + result is the name; otherwise the name is unchanged |
| `Notify.TimeFromFile` | pkg/minikube/notify/notify.go:144-154 | the parsed stored time when the file exists and parses; the zero time when it is missing, unreadable or unparsable |
| `Notify.ShouldCheck` | pkg/minikube/notify/notify.go:77-83 | a due check implies notifications are enabled, so disabled means no check |
| `Notify.GateDueIffElapsed` | pkg/minikube/notify/notify.go:81-82 | when enabled, the stored time parses and the elapsed time fits in a Duration, a check is due iff elapsed nanoseconds are at least the wait period in nanoseconds; equality counts as due |
| `Notify.FallbackIsZeroTime` | pkg/minikube/notify/notify.go:144-153 | a missing file and an unparsable file gate exactly like a file holding the zero time, and like a removed file |
| `Notify.NeverCheckedGate` | pkg/minikube/notify/notify.go:81-82 | with the zero-time fallback and any present-day clock, the saturated elapsed time opens the gate iff enabled and the wait period is at most MaxDuration nanoseconds |
| `Notify.AllVersions` | pkg/minikube/notify/notify.go:124-134 | success iff the fetch decoded a non-empty list, which is returned whole; a fetch error is wrapped; an empty list is the no-releases error for the URL |
| `Notify.LatestVersion` | pkg/minikube/notify/notify.go:115-121 | success iff the list is non-empty and element 0's name, with the prefix trimmed, parses, and then the result is that parse; list errors pass through; a parse failure is an invalid-version error |
| `Notify.Run` | pkg/minikube/notify/notify.go:51-75 | closed gate or disabled: false, no fetch, write or advisory; open gate: the fetch comes first and only once; version errors: true and quiet; up to date: false and quiet; newer: true, then exactly one write attempt at the global path, a logged write error only if it fails, and exactly one advisory last, naming the latest version whatever the write's outcome; every write attempt and every advisory belongs to the newer case; only a successful write changes only the global path |
| `Notify.NewerReleaseAdvised` | pkg/minikube/notify/notify.go:65-72 | a feed whose first release is "v1.3.0", newer than local, yields true, the advisory for 1.3.0 and, if the write succeeds, the new timestamp at the global path |
| `Notify.SameReleaseQuiet` | pkg/minikube/notify/notify.go:65-74 | a feed whose latest compares equal to local yields false, only the fetch, and no write |
| `Notify.EmptyFeedLogged` | pkg/minikube/notify/notify.go:130-131 | an empty feed yields true with the no-releases error logged and nothing written or advised |
| `Notify.Host.constructor` | pkg/minikube/notify/notify.go:40-43 | the host starts with the given global path, release URL and files, and an empty log |
| `Notify.Host.WriteTimeToFile` | pkg/minikube/notify/notify.go:136-142 | on success only the given path changes, to the formatted time; on failure the files are unchanged and a write error is returned |
| `Notify.Host.MaybePrintUpdateText` | pkg/minikube/notify/notify.go:51-75 | the result, the new file map and the appended effects are those of `Run` with the gate on the argument path and the write on `lastUpdateCheckFilePath` |
| `Notify.Host.MaybePrintUpdateTextFromGithub` | pkg/minikube/notify/notify.go:46-48 | the same with the release URL and with the global path for both reading and writing |
| `Throttle.RunAll` | pkg/minikube/notify/notify.go:51-75 | one outcome per invocation; each invocation runs on the file map the previous one left |
| `Throttle.ThrottleHolds` | pkg/minikube/notify/notify.go:77-83 | while every invocation is within the wait period of the stored time, or disabled, each returns false and leaves no effect and no file change |
| `Throttle.CallerPathNeverWritten` | pkg/minikube/notify/notify.go:66 | for a caller path other than the global one, the file at that path never changes over any sequence of invocations |
| `Throttle.CallerPathNeverThrottled` | pkg/minikube/notify/notify.go:52 | such a caller with no file at its path fetches on every enabled invocation whose wait is met from the zero time, even after advisories |
| `Throttle.DefaultCallerThrottles` | pkg/minikube/notify/notify.go:46-48 | for the default caller, an advisory whose write succeeds silences every later invocation within the wait period of the time read back |

## Left out

- HTTP fetching and JSON decoding in `getJSON` (the client, the request, the User-Agent header, body decoding) are network I/O. The fetch is an input: an error or the decoded releases.
- The viper configuration store: its two values are passed in as `Config`.
- Floating-point hours: `Duration.Hours` and `ReminderWaitPeriodInHours` are exact reals, so float64 rounding near the threshold is not modelled.
- Go's monotonic clock reading is not modelled. Every elapsed time is measured on the wall clock, as it is for a time parsed from the file.
- RFC 1123 formatting and parsing (`time.Format`, `time.Parse`): an abstract codec of a format function and a partial parse function. A whole-second round trip is stated as a hypothesis (`DefaultCallerThrottles`), not proved.
- Semantic-version parsing, comparison and printing (`github.com/blang/semver`), `version.GetSemverVersion` and `version.VersionPrefix`: the operations and the prefix are parameters, and the local version is an input. Version ordering is not re-implemented.
- File I/O and locking (`ioutil.ReadFile`, `lock.WriteFile`, the 0644 mode): a map of readable files, and the write's outcome is an input. The model assumes that a failed write leaves the file as it was; `lock.WriteFile` is not part of this model. A write that failed after truncating the file would leave contents that do not parse, and the gate reads those as the zero time (notify.go:149-151).
- Log and output text (`glog`, `out.ErrT` templates, the tip line): recorded as `Logged(error)` and `Advised(version, url)` effects.
- `localpath.MakeMiniPath` and `constants.GithubMinikubeReleasesURL` are outside this model. Their values are given to the `Host` constructor.
- `hack/boilerplate/boilerplate.go` is not part of this model. It is a separate file-scanning tool whose `filePasses` returns only on its open-error path (line 63) and has no return at its end (line 69), so it does not compile, and whose `fileExtension` indexes past the end of its slice, so it has no behaviour to state.

/** The update-notification logic of minikube's `notify` package: a gate
    throttled by a timestamp file, a fetch of the release list, the choice
    of the latest release and the advisory printed when it is newer than the
    running version. Every I/O step is an input (`Env`) or a recorded effect
    (`Effect`, and the file map of `Host`). */
module Notify {
  import opened GoTime

  datatype Option<T> = None | Some(value: T)

  datatype Result<T, E> = Ok(value: T) | Err(error: E)

  /** The two configuration values read through viper. */
  datatype Config = Config(wantUpdateNotification: bool, reminderWaitPeriodInHours: real)

  /** One published release, as decoded from the JSON feed. */
  datatype Release = Release(name: string, checksums: map<string, string>)

  /** What `getJSON` produced: an error (request, transport or decoding),
      or the decoded list of releases. */
  datatype Fetch = FetchFailed(cause: string) | Decoded(releases: seq<Release>)

  datatype Error =
    | JsonError(cause: string)          // wrapped error of getJSON
    | NoReleases(url: string)           // the feed held no releases
    | InvalidVersion(cause: string)     // semver.Make refused the latest name
    | LocalVersionError(cause: string)  // version.GetSemverVersion failed
    | WriteError(path: string)          // the timestamp could not be written

  /** What one invocation makes visible outside its return value. */
  datatype Effect =
    | CheckingForUpdates(url: string)       // the info line, then the GET of the feed
    | Logged(err: Error)                    // a warning or error line
    | WriteTime(path: string, t: Instant)   // a call of writeTimeToFile
    | Advised(version: string, url: string) // the advisory and its tip

  /** The result of an invocation, the file map after it, and its effects. */
  datatype Outcome = Outcome(result: bool, files: map<string, string>, effects: seq<Effect>)

  /** Go's `time.Format` and `time.Parse` with the RFC 1123 layout. */
  datatype TimeCodec = TimeCodec(format: Instant -> string, parse: string -> Option<Instant>)

  /** What is used of `github.com/blang/semver`: `Make`, `Compare` and `String`. */
  datatype Semver<!V> = Semver(make: string -> Result<V, string>, compare: (V, V) -> int, render: V -> string)

  /** The libraries and constants that do not change between invocations;
      `versionPrefix` is `version.VersionPrefix`. */
  datatype Libraries<!V> = Libraries(codec: TimeCodec, semver: Semver<V>, versionPrefix: string)

  /** The two readings of the clock: `time.Since` in the gate and
      `time.Now` when the timestamp is written. */
  datatype Clock = Clock(gateNow: Instant, writeNow: Instant)

  /** Everything one invocation learns from outside. */
  datatype Env<!V> = Env(config: Config, clock: Clock, fetch: Fetch,
                         localVersion: Result<V, string>, writeSucceeds: bool)

  /** The base of the release page named in the advisory. */
  const ReleaseTagURL: string := "https://github.com/kubernetes/minikube/releases/tag/v"

  /** `strings.TrimPrefix`: removes `prefix` once, and only when it is one. */
  function TrimPrefix(s: string, prefix: string): (r: string)
    ensures prefix <= s ==> prefix + r == s
    ensures !(prefix <= s) ==> r == s
  {
    if prefix <= s then s[|prefix|..] else s
  }

  /** `getTimeFromFileIfExists`: the time stored at `path`, falling back to
      the zero time when the file is missing or unreadable (absent from the
      map) or does not parse. */
  function TimeFromFile(files: map<string, string>, path: string, parse: string -> Option<Instant>): (t: Instant)
    ensures path in files && parse(files[path]).Some? ==> t == parse(files[path]).value
    ensures path !in files || parse(files[path]).None? ==> t == ZeroTime
  {
    if path !in files then ZeroTime
    else match parse(files[path])
      case None => ZeroTime
      case Some(stored) => stored
  }

  /** `shouldCheckURLVersion`: no check when notifications are disabled,
      otherwise a check is due once the hours since the stored time reach
      the reminder wait period. */
  function ShouldCheck(config: Config, files: map<string, string>, path: string, now: Instant,
                       parse: string -> Option<Instant>): (due: bool)
    ensures due ==> config.wantUpdateNotification
  {
    config.wantUpdateNotification &&
    Hours(Since(now, TimeFromFile(files, path, parse))) >= config.reminderWaitPeriodInHours
  }

  /** `GetAllVersionsFromURL`: a fetch error or an empty list is an error;
      a success is the whole, non-empty list. */
  function AllVersions(fetch: Fetch, url: string): (r: Result<seq<Release>, Error>)
    ensures r.Ok? <==> fetch.Decoded? && |fetch.releases| > 0
    ensures r.Ok? ==> r.value == fetch.releases && |r.value| > 0
    ensures fetch.FetchFailed? ==> r == Err(JsonError(fetch.cause))
    ensures fetch.Decoded? && fetch.releases == [] ==> r == Err(NoReleases(url))
  {
    match fetch
    case FetchFailed(cause) => Err(JsonError(cause))
    case Decoded(releases) => if |releases| == 0 then Err(NoReleases(url)) else Ok(releases)
  }

  /** `getLatestVersionFromURL`: the first release's name, with the version
      prefix trimmed, parsed as a semantic version. */
  function LatestVersion<V>(fetch: Fetch, url: string, prefix: string,
                            make: string -> Result<V, string>): (r: Result<V, Error>)
    ensures r.Ok? ==> fetch.Decoded? && |fetch.releases| > 0 &&
                      make(TrimPrefix(fetch.releases[0].name, prefix)) == Ok(r.value)
    ensures AllVersions(fetch, url).Err? ==> r.Err? && r.error == AllVersions(fetch, url).error
    ensures fetch.Decoded? && |fetch.releases| > 0 && make(TrimPrefix(fetch.releases[0].name, prefix)).Err? ==>
              r.Err? && r.error == InvalidVersion(make(TrimPrefix(fetch.releases[0].name, prefix)).error)
    ensures fetch.Decoded? && |fetch.releases| > 0 && make(TrimPrefix(fetch.releases[0].name, prefix)).Ok? ==>
              r == Ok(make(TrimPrefix(fetch.releases[0].name, prefix)).value)
  {
    match AllVersions(fetch, url)
    case Err(e) => Err(e)
    case Ok(releases) =>
      match make(TrimPrefix(releases[0].name, prefix))
      case Ok(v) => Ok(v)
      case Err(cause) => Err(InvalidVersion(cause))
  }

  /** With notifications on and a stored time `t` within a Duration of
      `now`, a check is due exactly when the elapsed nanoseconds reach the
      wait period; reaching it exactly counts as due. */
  lemma GateDueIffElapsed(config: Config, files: map<string, string>, path: string, now: Instant,
                          parse: string -> Option<Instant>, t: Instant)
    requires config.wantUpdateNotification
    requires path in files && parse(files[path]) == Some(t)
    requires MinDuration <= now - t <= MaxDuration
    ensures ShouldCheck(config, files, path, now, parse) <==>
            (now - t) as real >= config.reminderWaitPeriodInHours * Hour as real
  {
    HoursAtLeast(Since(now, t), config.reminderWaitPeriodInHours);
  }

  /** A missing or unreadable file and one that does not parse both gate
      exactly as a file holding the zero time does. */
  lemma FallbackIsZeroTime(config: Config, files: map<string, string>, path: string, now: Instant,
                           parse: string -> Option<Instant>, zero: string)
    requires path !in files || parse(files[path]).None?
    requires parse(zero) == Some(ZeroTime)
    ensures ShouldCheck(config, files, path, now, parse) == ShouldCheck(config, files[path := zero], path, now, parse)
    ensures ShouldCheck(config, files, path, now, parse) == ShouldCheck(config, files - {path}, path, now, parse)
  {
  }

  /** More than a Duration after the zero time (more than about 292 years
      after it), the zero-time fallback measures the saturated maximum Duration,
      so a never-checked gate opens exactly when the wait period is at most
      that many hours. */
  lemma NeverCheckedGate(config: Config, files: map<string, string>, path: string, now: Instant,
                         parse: string -> Option<Instant>)
    requires path !in files || parse(files[path]).None?
    requires now > MaxDuration
    ensures ShouldCheck(config, files, path, now, parse) <==>
            config.wantUpdateNotification && config.reminderWaitPeriodInHours * Hour as real <= MaxDuration as real
  {
    HoursAtLeast(MaxDuration, config.reminderWaitPeriodInHours);
  }

  /** No effect is a timestamp write or an advisory. */
  predicate Quiet(effects: seq<Effect>)
  {
    forall e :: e in effects ==> !e.WriteTime? && !e.Advised?
  }

  /** The gate of an invocation that reads its timestamp from `path`. */
  predicate GatePasses<V>(lib: Libraries<V>, env: Env<V>, path: string, files: map<string, string>)
  {
    ShouldCheck(env.config, files, path, env.clock.gateNow, lib.codec.parse)
  }

  /** The gate passes, the latest and the local version are known, and the
      local one compares lower. */
  predicate FoundNewer<V>(lib: Libraries<V>, env: Env<V>, url: string, path: string, files: map<string, string>)
  {
    GatePasses(lib, env, path, files) &&
    var latest := LatestVersion(env.fetch, url, lib.versionPrefix, lib.semver.make);
    latest.Ok? && env.localVersion.Ok? && lib.semver.compare(env.localVersion.value, latest.value) < 0
  }

  /** The gate passes, both versions are known, and the local one does not
      compare lower. */
  predicate UpToDate<V>(lib: Libraries<V>, env: Env<V>, url: string, path: string, files: map<string, string>)
  {
    GatePasses(lib, env, path, files) &&
    var latest := LatestVersion(env.fetch, url, lib.versionPrefix, lib.semver.make);
    latest.Ok? && env.localVersion.Ok? && lib.semver.compare(env.localVersion.value, latest.value) >= 0
  }

  /** `MaybePrintUpdateText(url, path)` on the file map `files`, with the
      package-level `lastUpdateCheckFilePath` equal to `globalPath`. */
  function Run<V>(lib: Libraries<V>, env: Env<V>, url: string, path: string, globalPath: string,
                  files: map<string, string>): (o: Outcome)
    // a closed gate: no fetch, no write, no advisory, false
    ensures !GatePasses(lib, env, path, files) ==> o == Outcome(false, files, [])
    ensures !env.config.wantUpdateNotification ==> o == Outcome(false, files, [])
    // an open gate always fetches first
    ensures GatePasses(lib, env, path, files) ==> |o.effects| > 0 && o.effects[0] == CheckingForUpdates(url)
    // a missing latest or local version: true, nothing written, nothing advised
    ensures GatePasses(lib, env, path, files) &&
            (LatestVersion(env.fetch, url, lib.versionPrefix, lib.semver.make).Err? || env.localVersion.Err?) ==>
              o.result && o.files == files && Quiet(o.effects)
    // up to date: false, nothing written, nothing advised
    ensures UpToDate(lib, env, url, path, files) ==> !o.result && o.files == files && Quiet(o.effects)
    // newer: true, the write is attempted at the global path, and the
    // advisory names the latest version whether or not the write succeeded
    ensures FoundNewer(lib, env, url, path, files) ==>
              var shown := lib.semver.render(LatestVersion(env.fetch, url, lib.versionPrefix, lib.semver.make).value);
              o.result && WriteTime(globalPath, env.clock.writeNow) in o.effects &&
              Advised(shown, ReleaseTagURL + shown) in o.effects
    ensures !FoundNewer(lib, env, url, path, files) ==> Quiet(o.effects)
    // the only write attempt is at the global path, and the only advisory
    // names the latest version
    ensures forall e :: e in o.effects && e.WriteTime? ==>
              FoundNewer(lib, env, url, path, files) && e == WriteTime(globalPath, env.clock.writeNow)
    ensures forall e :: e in o.effects && e.Advised? ==>
              FoundNewer(lib, env, url, path, files) &&
              var shown := lib.semver.render(LatestVersion(env.fetch, url, lib.versionPrefix, lib.semver.make).value);
              e == Advised(shown, ReleaseTagURL + shown)
    // the fetch happens once, first; in the newer case the write attempt
    // comes second, a failed write is logged once, and the advisory is last
    ensures GatePasses(lib, env, path, files) ==>
              forall k :: 0 < k < |o.effects| ==> !o.effects[k].CheckingForUpdates?
    ensures FoundNewer(lib, env, url, path, files) ==>
              |o.effects| == (if env.writeSucceeds then 3 else 4) &&
              o.effects[1] == WriteTime(globalPath, env.clock.writeNow) &&
              o.effects[|o.effects| - 1].Advised? &&
              (forall k :: 0 <= k < |o.effects| && o.effects[k].WriteTime? ==> k == 1) &&
              (forall k :: 0 <= k < |o.effects| && o.effects[k].Advised? ==> k == |o.effects| - 1) &&
              (forall k :: 0 <= k < |o.effects| && o.effects[k].Logged? ==>
                 !env.writeSucceeds && k == 2 && o.effects[k] == Logged(WriteError(globalPath)))
    // at most the global path changes, and only by a successful write
    ensures o.files == if FoundNewer(lib, env, url, path, files) && env.writeSucceeds
                       then files[globalPath := lib.codec.format(env.clock.writeNow)]
                       else files
    ensures !o.result <==> !GatePasses(lib, env, path, files) || UpToDate(lib, env, url, path, files)
  {
    if !ShouldCheck(env.config, files, path, env.clock.gateNow, lib.codec.parse) then
      Outcome(false, files, [])
    else
      var latest := LatestVersion(env.fetch, url, lib.versionPrefix, lib.semver.make);
      if latest.Err? then
        Outcome(true, files, [CheckingForUpdates(url), Logged(latest.error)])
      else if env.localVersion.Err? then
        Outcome(true, files, [CheckingForUpdates(url), Logged(LocalVersionError(env.localVersion.error))])
      else if lib.semver.compare(env.localVersion.value, latest.value) < 0 then
        var written := if env.writeSucceeds then files[globalPath := lib.codec.format(env.clock.writeNow)] else files;
        var failure := if env.writeSucceeds then [] else [Logged(WriteError(globalPath))];
        var shown := lib.semver.render(latest.value);
        Outcome(true, written,
                [CheckingForUpdates(url), WriteTime(globalPath, env.clock.writeNow)] + failure +
                [Advised(shown, ReleaseTagURL + shown)])
      else
        Outcome(false, files, [CheckingForUpdates(url)])
  }

  /** A feed whose first release is the prefixed name of a version newer
      than the local one: an advisory for it, and the timestamp written to
      the global path when the write succeeds. */
  lemma NewerReleaseAdvised<V>(lib: Libraries<V>, env: Env<V>, url: string, path: string, globalPath: string,
                               files: map<string, string>, latest: V, local: V)
    requires GatePasses(lib, env, path, files)
    requires lib.versionPrefix == "v" && lib.semver.make("1.3.0") == Ok(latest)
    requires env.fetch == Decoded([Release("v1.3.0", map[])])
    requires env.localVersion == Ok(local) && lib.semver.compare(local, latest) < 0
    ensures Run(lib, env, url, path, globalPath, files).result
    ensures Advised(lib.semver.render(latest), ReleaseTagURL + lib.semver.render(latest))
              in Run(lib, env, url, path, globalPath, files).effects
    ensures env.writeSucceeds ==>
              Run(lib, env, url, path, globalPath, files).files == files[globalPath := lib.codec.format(env.clock.writeNow)]
  {
  }

  /** A feed whose latest release compares equal to the local version: no
      advisory, no write, false. */
  lemma SameReleaseQuiet<V>(lib: Libraries<V>, env: Env<V>, url: string, path: string, globalPath: string,
                            files: map<string, string>, latest: V, local: V)
    requires GatePasses(lib, env, path, files)
    requires lib.versionPrefix == "v" && lib.semver.make("1.3.0") == Ok(latest)
    requires env.fetch == Decoded([Release("v1.3.0", map[])])
    requires env.localVersion == Ok(local) && lib.semver.compare(local, latest) == 0
    ensures Run(lib, env, url, path, globalPath, files) == Outcome(false, files, [CheckingForUpdates(url)])
  {
  }

  /** An empty feed: the no-releases error is logged, nothing is written or
      advised, and the result is true. */
  lemma EmptyFeedLogged<V>(lib: Libraries<V>, env: Env<V>, url: string, path: string, globalPath: string,
                           files: map<string, string>)
    requires GatePasses(lib, env, path, files)
    requires env.fetch == Decoded([])
    ensures Run(lib, env, url, path, globalPath, files) ==
            Outcome(true, files, [CheckingForUpdates(url), Logged(NoReleases(url))])
  {
  }

  /** The process that runs the notifier: its file system (a map from the
      paths of readable files to their contents) and its output. */
  class Host {
    /** The package-level `lastUpdateCheckFilePath`. */
    const lastUpdateCheckFilePath: string
    /** `constants.GithubMinikubeReleasesURL`. */
    const releasesURL: string
    var files: map<string, string>
    var log: seq<Effect>

    constructor (lastUpdateCheckFilePath: string, releasesURL: string, files: map<string, string>)
      ensures this.lastUpdateCheckFilePath == lastUpdateCheckFilePath && this.releasesURL == releasesURL
      ensures this.files == files && log == []
    {
      this.lastUpdateCheckFilePath := lastUpdateCheckFilePath;
      this.releasesURL := releasesURL;
      this.files := files;
      log := [];
    }

    /** `writeTimeToFile`: replaces the file at `path` by the formatted time
        when the write succeeds, and reports an error otherwise. */
    method WriteTimeToFile(path: string, inputTime: Instant, codec: TimeCodec, succeeds: bool)
      returns (err: Option<Error>)
      modifies this
      ensures files == if succeeds then old(files)[path := codec.format(inputTime)] else old(files)
      ensures log == old(log) + [WriteTime(path, inputTime)]
      ensures err == if succeeds then None else Some(WriteError(path))
    {
      log := log + [WriteTime(path, inputTime)];
      if succeeds {
        files := files[path := codec.format(inputTime)];
        err := None;
      } else {
        err := Some(WriteError(path));
      }
    }

    /** `MaybePrintUpdateText`: the gate reads `lastUpdatePath`, but the
        timestamp goes to `lastUpdateCheckFilePath`. */
    method MaybePrintUpdateText<V>(url: string, lastUpdatePath: string, lib: Libraries<V>, env: Env<V>)
      returns (ok: bool)
      modifies this
      ensures var o := Run(lib, env, url, lastUpdatePath, lastUpdateCheckFilePath, old(files));
              ok == o.result && files == o.files && log == old(log) + o.effects
    {
      if !ShouldCheck(env.config, files, lastUpdatePath, env.clock.gateNow, lib.codec.parse) {
        return false;
      }
      log := log + [CheckingForUpdates(url)];
      var latest := LatestVersion(env.fetch, url, lib.versionPrefix, lib.semver.make);
      if latest.Err? {
        log := log + [Logged(latest.error)];
        return true;
      }
      if env.localVersion.Err? {
        log := log + [Logged(LocalVersionError(env.localVersion.error))];
        return true;
      }
      if lib.semver.compare(env.localVersion.value, latest.value) < 0 {
        var err := WriteTimeToFile(lastUpdateCheckFilePath, env.clock.writeNow, lib.codec, env.writeSucceeds);
        if err.Some? {
          log := log + [Logged(err.value)];
        }
        var shown := lib.semver.render(latest.value);
        log := log + [Advised(shown, ReleaseTagURL + shown)];
        return true;
      }
      return false;
    }

    /** `MaybePrintUpdateTextFromGithub`: the default caller, for which the
        path the gate reads and the path written are the same. */
    method MaybePrintUpdateTextFromGithub<V>(lib: Libraries<V>, env: Env<V>) returns (ok: bool)
      modifies this
      ensures var o := Run(lib, env, releasesURL, lastUpdateCheckFilePath, lastUpdateCheckFilePath, old(files));
              ok == o.result && files == o.files && log == old(log) + o.effects
    {
      ok := MaybePrintUpdateText(releasesURL, lastUpdateCheckFilePath, lib, env);
    }
  }
}

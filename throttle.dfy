/** Repeated invocations of the notifier by one caller, each seeing the file
    map the previous one left, and what the timestamp file does to them. */
module Throttle {
  import opened GoTime
  import opened Notify

  /** The outcomes of invoking `MaybePrintUpdateText(url, path)` once per
      environment in `envs`, starting from `files`. */
  function RunAll<V>(lib: Libraries<V>, envs: seq<Env<V>>, url: string, path: string, globalPath: string,
                     files: map<string, string>): (outs: seq<Outcome>)
    ensures |outs| == |envs|
    ensures |outs| > 0 ==> outs[0] == Run(lib, envs[0], url, path, globalPath, files)
    ensures forall i :: 0 < i < |outs| ==> outs[i] == Run(lib, envs[i], url, path, globalPath, outs[i - 1].files)
    decreases |envs|
  {
    if envs == [] then []
    else
      var first := Run(lib, envs[0], url, path, globalPath, files);
      [first] + RunAll(lib, envs[1..], url, path, globalPath, first.files)
  }

  /** While every invocation falls inside the wait period of the time
      stored at `path` (or has notifications off), none fetches, writes or
      advises, and all return false. */
  lemma {:induction false} ThrottleHolds<V>(lib: Libraries<V>, envs: seq<Env<V>>, url: string, path: string,
                                           globalPath: string, files: map<string, string>, t: Instant)
    requires path in files && lib.codec.parse(files[path]) == Some(t)
    requires forall i :: 0 <= i < |envs| ==>
               !envs[i].config.wantUpdateNotification ||
               Hours(Since(envs[i].clock.gateNow, t)) < envs[i].config.reminderWaitPeriodInHours
    ensures forall i :: 0 <= i < |envs| ==>
              RunAll(lib, envs, url, path, globalPath, files)[i] == Outcome(false, files, [])
    decreases |envs|
  {
    if envs != [] {
      var first := Run(lib, envs[0], url, path, globalPath, files);
      assert first == Outcome(false, files, []);
      ThrottleHolds(lib, envs[1..], url, path, globalPath, files, t);
      assert RunAll(lib, envs, url, path, globalPath, files)
          == [first] + RunAll(lib, envs[1..], url, path, globalPath, files);
    }
  }

  /** A caller whose path is not the package-level one never sees its file
      change: every write goes elsewhere. */
  lemma {:induction false} CallerPathNeverWritten<V>(lib: Libraries<V>, envs: seq<Env<V>>, url: string, path: string,
                                                    globalPath: string, files: map<string, string>)
    requires path != globalPath
    ensures forall i :: 0 <= i < |envs| ==>
              (path in RunAll(lib, envs, url, path, globalPath, files)[i].files <==> path in files)
    ensures forall i :: 0 <= i < |envs| && path in files ==>
              RunAll(lib, envs, url, path, globalPath, files)[i].files[path] == files[path]
    decreases |envs|
  {
    if envs != [] {
      var first := Run(lib, envs[0], url, path, globalPath, files);
      CallerPathNeverWritten(lib, envs[1..], url, path, globalPath, first.files);
      assert RunAll(lib, envs, url, path, globalPath, files)
          == [first] + RunAll(lib, envs[1..], url, path, globalPath, first.files);
    }
  }

  /** So such a caller with no file at its path is never throttled: when
      every invocation is enabled and its wait period is met from the zero
      time, every invocation fetches, advisories notwithstanding. */
  lemma {:induction false} CallerPathNeverThrottled<V>(lib: Libraries<V>, envs: seq<Env<V>>, url: string, path: string,
                                                      globalPath: string, files: map<string, string>)
    requires path != globalPath && path !in files
    requires forall i :: 0 <= i < |envs| ==>
               envs[i].config.wantUpdateNotification &&
               Hours(Since(envs[i].clock.gateNow, ZeroTime)) >= envs[i].config.reminderWaitPeriodInHours
    ensures forall i :: 0 <= i < |envs| ==>
              CheckingForUpdates(url) in RunAll(lib, envs, url, path, globalPath, files)[i].effects
    decreases |envs|
  {
    if envs != [] {
      var first := Run(lib, envs[0], url, path, globalPath, files);
      assert path !in first.files;
      CallerPathNeverThrottled(lib, envs[1..], url, path, globalPath, first.files);
      assert RunAll(lib, envs, url, path, globalPath, files)
          == [first] + RunAll(lib, envs[1..], url, path, globalPath, first.files);
    }
  }

  /** For the default caller, an advisory whose timestamp write succeeded
      and reads back as `w` silences every later invocation that falls
      inside the wait period measured from `w`. */
  lemma DefaultCallerThrottles<V>(lib: Libraries<V>, envs: seq<Env<V>>, url: string,
                                  globalPath: string, files: map<string, string>, w: Instant)
    requires |envs| > 0
    requires FoundNewer(lib, envs[0], url, globalPath, files) && envs[0].writeSucceeds
    requires lib.codec.parse(lib.codec.format(envs[0].clock.writeNow)) == Some(w)
    requires forall i :: 1 <= i < |envs| ==>
               !envs[i].config.wantUpdateNotification ||
               Hours(Since(envs[i].clock.gateNow, w)) < envs[i].config.reminderWaitPeriodInHours
    ensures RunAll(lib, envs, url, globalPath, globalPath, files)[0].result
    ensures forall i :: 1 <= i < |envs| ==>
              RunAll(lib, envs, url, globalPath, globalPath, files)[i] ==
              Outcome(false, files[globalPath := lib.codec.format(envs[0].clock.writeNow)], [])
  {
    var first := Run(lib, envs[0], url, globalPath, globalPath, files);
    var rest := envs[1..];
    assert forall i :: 0 <= i < |rest| ==> rest[i] == envs[i + 1];
    ThrottleHolds(lib, rest, url, globalPath, globalPath, first.files, w);
    assert RunAll(lib, envs, url, globalPath, globalPath, files)
        == [first] + RunAll(lib, rest, url, globalPath, globalPath, first.files);
  }
}

/** kivy_downloader.py: the Android-only download engine of the Kivy app,
    paired with kivy_ffmpeg.py and kivy_debug.py. Exceptions of the child
    process are not caught in `run_with_progress`; they reach the download
    function's `except`. */
module KivyDownloader {
  import opened Wrappers
  import opened Text
  import opened Paths
  import opened Fs
  import opened Resolver
  import opened Journal
  import KivyDebug
  import KivyFfmpeg
  import opened Formats
  import opened Progress
  import opened Commands

  // ---------------------------------------------------------------------
  // get_ytdlp_path

  const BundledYtdlp := "/data/data/org.yourapp.ytdownloader/files/app/binaries/yt-dlp"

  /** `get_ytdlp_path()`: the bundled binary, then the relative one, then the
      bare name; existence is all that is checked. */
  function YtdlpPath(existing: set<string>): string {
    if BundledYtdlp in existing then BundledYtdlp
    else if "binaries/yt-dlp" in existing then "binaries/yt-dlp"
    else "yt-dlp"
  }

  method GetYtdlpPath(fs: FileSystem) returns (p: string)
    ensures p == YtdlpPath(fs.existing)
  {
    var bundled := fs.Exists(BundledYtdlp);
    if bundled {
      return BundledYtdlp;
    }
    var relative := fs.Exists("binaries/yt-dlp");
    if relative {
      return "binaries/yt-dlp";
    }
    return "yt-dlp";
  }

  /** The same search as the desktop engine's candidate walk, over two
      candidates and with no `chmod`: the first existing one, else the bare
      name. */
  lemma YtdlpPathIsSearch(existing: set<string>)
    ensures YtdlpPath(existing) == Chosen([BundledYtdlp, "binaries/yt-dlp"], existing, {}).GetOr("yt-dlp")
  {
    var cands := [BundledYtdlp, "binaries/yt-dlp"];
    if BundledYtdlp in existing {
      ChosenFirst(cands, existing, {}, 0);
    } else if "binaries/yt-dlp" in existing {
      ChosenFirst(cands, existing, {}, 1);
    } else {
      ChosenNone(cands, existing, {});
    }
  }

  // ---------------------------------------------------------------------
  // get_download_dir

  /** `get_download_dir()`: `Download` when it exists, else `Downloads`
      (whether or not it exists); the fixed fallback when the storage call
      raises. */
  function DownloadDir(storage: Result<string, string>, existing: set<string>): string {
    match storage
    case Failure(_) => "/sdcard/Download/"
    case Success(s) =>
      if Join(s, "Download") in existing then Join(s, "Download") else Join(s, "Downloads")
  }

  method GetDownloadDir(fs: FileSystem, storage: Result<string, string>) returns (d: string)
    ensures d == DownloadDir(storage, fs.existing)
  {
    if storage.Failure? {
      return "/sdcard/Download/";
    }
    d := Join(storage.value, "Download");
    var present := fs.Exists(d);
    if !present {
      d := Join(storage.value, "Downloads");
    }
  }

  /** The answer always lies in the storage root, and the Kivy engine prefers
      the singular folder where the desktop engine prefers the plural one. */
  lemma DownloadDirInStorage(storage: string, existing: set<string>)
    ensures DownloadDir(Success(storage), existing) in {Join(storage, "Download"), Join(storage, "Downloads")}
    ensures Join(storage, "Download") in existing ==> DownloadDir(Success(storage), existing) == Join(storage, "Download")
    ensures Join(storage, "Download") !in existing ==> DownloadDir(Success(storage), existing) == Join(storage, "Downloads")
  {
  }

  // ---------------------------------------------------------------------
  // get_available_formats

  /** The answer: the filter's map when the query ran cleanly and the filter
      did not raise, otherwise `{}`. */
  function FormatsAnswer(f: Fetched): (r: map<string, FormatInfo>)
    ensures r.Keys <= TargetLabels
  {
    if f.Ran? && f.code == 0 && f.document.Decoded? && Filter(f.document.formats).Success?
    then FilterBounded(f.document.formats); Filter(f.document.formats).value
    else map[]
  }

  /** The only log lines: one per failure, none on success; a timeout is
      reported as an unexpected error. */
  function FormatsNotes(f: Fetched): seq<string> {
    match f
    case TimedOut(e) => ["Unexpected error: " + e]
    case Raised(e) => ["Unexpected error: " + e]
    case Ran(code, doc, _, failure) =>
      if code != 0 then ["Error fetching formats: " + failure]
      else match doc
        case Undecodable(e) => ["Unexpected error: " + e]
        case Decoded(records) =>
          match Filter(records)
          case Failure(e) => ["Unexpected error: " + e]
          case Success(_) => []
  }

  /** `get_available_formats(url)` with the tool at `ytdlp`. */
  method GetAvailableFormats(sink: KivyDebug.Sink, fetch: Fetcher, ytdlp: string, url: string)
    returns (r: map<string, FormatInfo>)
    modifies sink
    ensures r == FormatsAnswer(fetch([ytdlp, "-j", url]))
    ensures sink.State() == LoggedAll(old(sink.State()), sink.clock, FormatsNotes(fetch([ytdlp, "-j", url])))
  {
    var f := fetch([ytdlp, "-j", url]);
    r := map[];
    match f {
      case TimedOut(e) =>
        LogFailure(sink, "Unexpected error: " + e);
      case Raised(e) =>
        LogFailure(sink, "Unexpected error: " + e);
      case Ran(code, doc, _, err) =>
        if code != 0 {
          LogFailure(sink, "Error fetching formats: " + err);
        } else if doc.Undecodable? {
          LogFailure(sink, "Unexpected error: " + doc.error);
        } else {
          var filtered := FilterFormats(doc.formats);
          if filtered.Failure? {
            LogFailure(sink, "Unexpected error: " + filtered.error);
            assert FormatsNotes(f) == ["Unexpected error: " + filtered.error];
          } else {
            r := filtered.value;
            assert FormatsNotes(f) == [];
            assert FormatsAnswer(f) == r;
          }
        }
    }
  }

  /** The one log line of a failed query. */
  method LogFailure(sink: KivyDebug.Sink, msg: string)
    modifies sink
    ensures sink.State() == LoggedAll(old(sink.State()), sink.clock, [msg])
  {
    LoggedSingle(sink.State(), sink.clock, msg);
    sink.Log(msg);
  }

  /** Success is silent and every failure leaves exactly one log line and the
      empty map. */
  lemma FormatsQuiet(f: Fetched)
    ensures |FormatsNotes(f)| <= 1
    ensures FormatsNotes(f) == [] <==> f.Ran? && f.code == 0 && f.document.Decoded? && Filter(f.document.formats).Success?
    ensures FormatsNotes(f) != [] ==> FormatsAnswer(f) == map[]
  {
  }

  // ---------------------------------------------------------------------
  // run_with_progress

  /** The `for line in process.stdout:` loop. */
  method ReadOutput(sink: KivyDebug.Sink, prefix: string, out: seq<string>)
    modifies sink
    ensures sink.State() == RunLines(Kivy, KivyRules, prefix, sink.clock, sink.writeFault, old(sink.State()), out)
  {
    var i := 0;
    while i < |out|
      invariant 0 <= i <= |out|
      invariant sink.State() == RunLines(Kivy, KivyRules, prefix, sink.clock, sink.writeFault, old(sink.State()), out[..i])
    {
      HandleLine(sink, prefix, out[i]);
      RunLinesPrefix(Kivy, KivyRules, prefix, sink.clock, sink.writeFault, old(sink.State()), out, i);
      i := i + 1;
    }
    assert out[..i] == out;
  }

  /** The body of the read loop for one line of output. */
  method HandleLine(sink: KivyDebug.Sink, prefix: string, raw: string)
    modifies sink
    ensures sink.State() == StepLine(Kivy, KivyRules, prefix, sink.clock, sink.writeFault, old(sink.State()), raw)
  {
    var line := Strip(raw);
    var a := Classify(KivyRules, prefix, line);
    if a.write.Some? {
      sink.WriteProgress(a.write.value);
    }
    if a.logged {
      sink.Log(line);
    }
  }

  /** The sink after `run_with_progress`: the lines read, with nothing
      logged before them and nothing after a failure. */
  function RunState(s: SinkState, clock: Clock, fault: Option<string>, prefix: string, child: Child): SinkState {
    match child
    case SpawnFailed(_, _) => s
    case Spawned(out, _) => RunLines(Kivy, KivyRules, prefix, clock, fault, s, out)
  }

  /** What `run_with_progress` returns or raises. */
  function RunOutcome(child: Child): Result<int, string> {
    match child
    case SpawnFailed(e, _) => Failure(e)
    case Spawned(_, Exited(code)) => Success(code)
    case Spawned(_, StreamFailed(e, _)) => Failure(e)
  }

  /** `run_with_progress(cmd, prefix)`; an exception is returned as
      `Failure` with its text. */
  method RunWithProgress(sink: KivyDebug.Sink, fs: FileSystem, env: Env, spawn: Spawner,
                         cmd: seq<string>, prefix: string) returns (r: Result<int, string>)
    modifies sink, fs`executable
    ensures var child := spawn(cmd, ChildEnv(env, KivyFfmpeg.Found(fs.existing, fs.chmodDenied, fs.which)));
            && r == RunOutcome(child)
            && sink.State() == RunState(old(sink.State()), sink.clock, sink.writeFault, prefix, child)
    ensures fs.executable == MarkedExecutable(old(fs.executable), Chosen(KivyFfmpeg.Candidates, fs.existing, fs.chmodDenied))
  {
    var found := KivyFfmpeg.GetFfmpegPath(fs);
    var child := spawn(cmd, ChildEnv(env, found));
    match child {
      case SpawnFailed(e, _) =>
        r := Failure(e);
      case Spawned(out, ending) =>
        ReadOutput(sink, prefix, out);
        r := if ending.Exited? then Success(ending.code) else Failure(ending.error);
    }
  }

  // ---------------------------------------------------------------------
  // download_video / download_audio

  datatype Job = Video(selected: Option<string>) | Audio

  function JobCommand(job: Job, ytdlp: string, url: string, ffmpeg: string, dir: string): seq<string> {
    match job
    case Video(selected) => KivyVideo(ytdlp, url, selected, ffmpeg, dir)
    case Audio => KivyAudio(ytdlp, url, ffmpeg, dir)
  }

  function Noun(job: Job): string {
    if job.Video? then "Video" else "Audio"
  }

  function JobPrefix(job: Job): string {
    if job.Video? then "VIDEO" else "AUDIO"
  }

  function StartNote(job: Job, url: string): string {
    if job.Video? then "Starting video download for: " + url else "Starting audio download for: " + url
  }

  function StartMessage(job: Job): string {
    if job.Video? then "Starting video download..." else "Starting audio download..."
  }

  function DoneProgress(job: Job, code: int): string {
    if code == 0 then "SUCCESS: " + Noun(job) + " download complete"
    else "ERROR: " + Noun(job) + " download failed"
  }

  function DoneNote(job: Job, code: int): string {
    if code == 0 then Noun(job) + " download successful"
    else Noun(job) + " download failed with code " + IntStr(code)
  }

  const FfmpegMissing := "ERROR: FFmpeg not found"
  const InvalidUrl := "ERROR: Invalid URL"
  const UnexpectedProgress := "ERROR: Unexpected error occurred"

  /** What the download function returns: `ffmpeg` is what the first
      `get_ffmpeg_path()` gave, `run` what `run_with_progress` gave. */
  function Reply(job: Job, ffmpeg: Option<string>, url: string, dir: string, run: Result<int, string>): string {
    if ffmpeg.None? || ffmpeg.value == "" then FfmpegMissing
    else if Strip(url) == "" then InvalidUrl
    else match run
      case Failure(e) => "Error: " + e
      case Success(code) =>
        if code == 0 then Noun(job) + " download complete! Saved to " + dir
        else Noun(job) + " download failed (error code: " + IntStr(code) + ")"
  }

  /** The sink after the outcome of the run is reported. */
  function Reported(job: Job, s: SinkState, clock: Clock, fault: Option<string>, run: Result<int, string>): SinkState {
    match run
    case Failure(e) => Written(Kivy, Logged(s, clock, "Unexpected error: " + e), clock, fault, UnexpectedProgress)
    case Success(code) => Logged(Written(Kivy, s, clock, fault, DoneProgress(job, code)), clock, DoneNote(job, code))
  }

  /** The child the job's command runs as; `found` is what the second
      `get_ffmpeg_path()`, inside `run_with_progress`, gives. */
  function JobChild(job: Job, ytdlp: string, url: string, ffmpeg: string, dir: string,
                    found: Option<string>, spawn: Spawner, env: Env): Child
  {
    spawn(JobCommand(job, ytdlp, url, ffmpeg, dir), ChildEnv(env, found))
  }

  /** The sink from the announcement of the download through the end of
      `run_with_progress`. */
  function RanState(job: Job, s: SinkState, clock: Clock, fault: Option<string>, url: string, child: Child): SinkState {
    RunState(Written(Kivy, Logged(s, clock, StartNote(job, url)), clock, fault, StartMessage(job)),
             clock, fault, JobPrefix(job), child)
  }

  /** The whole sink history of one download call. */
  function DownloadState(job: Job, s: SinkState, clock: Clock, fault: Option<string>, found: Option<string>,
                         url: string, dir: string, ytdlp: string, spawn: Spawner, env: Env): SinkState
  {
    if found.None? || found.value == "" || Strip(url) == "" then s
    else
      var c := JobChild(job, ytdlp, url, found.value, dir, found, spawn, env);
      Reported(job, RanState(job, s, clock, fault, url, c), clock, fault, RunOutcome(c))
  }

  /** What `run_with_progress` returns for the job, when the call gets that far. */
  function JobRun(job: Job, found: Option<string>, url: string, dir: string, ytdlp: string,
                  spawn: Spawner, env: Env): Result<int, string>
  {
    if found.Some? then RunOutcome(JobChild(job, ytdlp, url, found.value, dir, found, spawn, env)) else Success(1)
  }

  /** `download_video(url, selected_res)` and `download_audio(url)`, with
      the module-level `YTDLP_PATH` and `DOWNLOAD_DIR` as `ytdlp` and `dir`. */
  method Download(sink: KivyDebug.Sink, fs: FileSystem, env: Env, spawn: Spawner,
                  ytdlp: string, dir: string, url: string, job: Job) returns (reply: string)
    modifies sink, fs`executable
    ensures var found := KivyFfmpeg.Found(fs.existing, fs.chmodDenied, fs.which);
            && reply == Reply(job, found, url, dir, JobRun(job, found, url, dir, ytdlp, spawn, env))
            && sink.State() == DownloadState(job, old(sink.State()), sink.clock, sink.writeFault, found, url, dir, ytdlp, spawn, env)
    ensures fs.executable == MarkedExecutable(old(fs.executable), Chosen(KivyFfmpeg.Candidates, fs.existing, fs.chmodDenied))
  {
    var found := KivyFfmpeg.GetFfmpegPath(fs);
    if found.None? || found.value == "" {
      return FfmpegMissing;
    }
    if Strip(url) == "" {
      return InvalidUrl;
    }
    reply := Proceed(sink, fs, env, spawn, ytdlp, dir, url, job, found.value);
  }

  /** A download function once ffmpeg is found and the URL is not blank. */
  method Proceed(sink: KivyDebug.Sink, fs: FileSystem, env: Env, spawn: Spawner,
                 ytdlp: string, dir: string, url: string, job: Job, ffmpeg: string) returns (reply: string)
    requires ffmpeg != "" && Strip(url) != ""
    modifies sink, fs`executable
    ensures var found := KivyFfmpeg.Found(fs.existing, fs.chmodDenied, fs.which);
            var c := JobChild(job, ytdlp, url, ffmpeg, dir, found, spawn, env);
            && reply == Reply(job, Some(ffmpeg), url, dir, RunOutcome(c))
            && sink.State() == Reported(job, RanState(job, old(sink.State()), sink.clock, sink.writeFault, url, c),
                                        sink.clock, sink.writeFault, RunOutcome(c))
    ensures fs.executable == MarkedExecutable(old(fs.executable), Chosen(KivyFfmpeg.Candidates, fs.existing, fs.chmodDenied))
  {
    ghost var s0 := sink.State();
    sink.Log(StartNote(job, url));
    var cmd := JobCommand(job, ytdlp, url, ffmpeg, dir);
    sink.WriteProgress(StartMessage(job));
    var run := RunWithProgress(sink, fs, env, spawn, cmd, JobPrefix(job));
    reply := Report(sink, job, ffmpeg, url, dir, run);
  }

  /** Logs and shows the outcome of the run and phrases the reply. */
  method Report(sink: KivyDebug.Sink, job: Job, ffmpeg: string, url: string, dir: string,
                run: Result<int, string>) returns (reply: string)
    requires ffmpeg != "" && Strip(url) != ""
    modifies sink
    ensures reply == Reply(job, Some(ffmpeg), url, dir, run)
    ensures sink.State() == Reported(job, old(sink.State()), sink.clock, sink.writeFault, run)
  {
    match run {
      case Failure(e) =>
        sink.Log("Unexpected error: " + e);
        sink.WriteProgress(UnexpectedProgress);
        reply := "Error: " + e;
      case Success(code) =>
        sink.WriteProgress(DoneProgress(job, code));
        sink.Log(DoneNote(job, code));
        reply := if code == 0 then Noun(job) + " download complete! Saved to " + dir
                 else Noun(job) + " download failed (error code: " + IntStr(code) + ")";
    }
  }

  method DownloadVideo(sink: KivyDebug.Sink, fs: FileSystem, env: Env, spawn: Spawner,
                       ytdlp: string, dir: string, url: string, selected: Option<string>) returns (reply: string)
    modifies sink, fs`executable
    ensures var found := KivyFfmpeg.Found(fs.existing, fs.chmodDenied, fs.which);
            && reply == Reply(Video(selected), found, url, dir, JobRun(Video(selected), found, url, dir, ytdlp, spawn, env))
            && sink.State() == DownloadState(Video(selected), old(sink.State()), sink.clock, sink.writeFault, found, url, dir, ytdlp, spawn, env)
    ensures fs.executable == MarkedExecutable(old(fs.executable), Chosen(KivyFfmpeg.Candidates, fs.existing, fs.chmodDenied))
  {
    reply := Download(sink, fs, env, spawn, ytdlp, dir, url, Video(selected));
  }

  method DownloadAudio(sink: KivyDebug.Sink, fs: FileSystem, env: Env, spawn: Spawner,
                       ytdlp: string, dir: string, url: string) returns (reply: string)
    modifies sink, fs`executable
    ensures var found := KivyFfmpeg.Found(fs.existing, fs.chmodDenied, fs.which);
            && reply == Reply(Audio, found, url, dir, JobRun(Audio, found, url, dir, ytdlp, spawn, env))
            && sink.State() == DownloadState(Audio, old(sink.State()), sink.clock, sink.writeFault, found, url, dir, ytdlp, spawn, env)
    ensures fs.executable == MarkedExecutable(old(fs.executable), Chosen(KivyFfmpeg.Candidates, fs.existing, fs.chmodDenied))
  {
    reply := Download(sink, fs, env, spawn, ytdlp, dir, url, Audio);
  }

  /** An exception of the child is never read as an exit code. */
  lemma RunOutcomeCases(child: Child)
    ensures RunOutcome(child).Success? <==> child.Spawned? && child.ending.Exited?
    ensures RunOutcome(child) == Success(0) <==> child.Spawned? && child.ending == Exited(0)
  {
  }

  /** Without ffmpeg, or with a blank URL, neither the log nor the progress
      file is touched. */
  lemma EarlyExitsSilent(job: Job, s: SinkState, clock: Clock, fault: Option<string>, found: Option<string>,
                         url: string, dir: string, ytdlp: string, spawn: Spawner, env: Env)
    requires found.None? || found.value == "" || AllSpace(url)
    ensures DownloadState(job, s, clock, fault, found, url, dir, ytdlp, spawn, env) == s
  {
  }

  /** The progress file's last message after a download that ran: the
      verdict, or the unexpected-error notice after an exception. */
  lemma ReportedProgress(job: Job, s: SinkState, clock: Clock, run: Result<int, string>)
    ensures Reported(job, s, clock, None, run).progress
            == Some(if run.Failure? then UnexpectedProgress else DoneProgress(job, run.value))
    ensures Reported(job, s, clock, None, run).ticks == s.ticks + 1
  {
  }

  lemma FinalProgress(job: Job, s: SinkState, clock: Clock, found: Option<string>,
                      url: string, dir: string, ytdlp: string, spawn: Spawner, env: Env)
    requires found.Some? && found.value != "" && !AllSpace(url)
    ensures var run := JobRun(job, found, url, dir, ytdlp, spawn, env);
            DownloadState(job, s, clock, None, found, url, dir, ytdlp, spawn, env).progress
            == Some(if run.Failure? then UnexpectedProgress else DoneProgress(job, run.value))
  {
    assert Strip(url) != "";
    var c := JobChild(job, ytdlp, url, found.value, dir, found, spawn, env);
    var s2 := RanState(job, s, clock, None, url, c);
    assert DownloadState(job, s, clock, None, found, url, dir, ytdlp, spawn, env) == Reported(job, s2, clock, None, RunOutcome(c));
    ReportedProgress(job, s2, clock, RunOutcome(c));
  }

  /** Replies in the order the function checks: no ffmpeg, blank URL,
      exception, then the exit code. */
  lemma ReplyOutcomes(job: Job, ffmpeg: Option<string>, url: string, dir: string, run: Result<int, string>)
    ensures ffmpeg.None? || ffmpeg.value == "" ==> Reply(job, ffmpeg, url, dir, run) == FfmpegMissing
    ensures ffmpeg.Some? && ffmpeg.value != "" && AllSpace(url) ==> Reply(job, ffmpeg, url, dir, run) == InvalidUrl
    ensures ffmpeg.Some? && ffmpeg.value != "" && !AllSpace(url) && run.Failure? ==>
              Reply(job, ffmpeg, url, dir, run) == "Error: " + run.error
    ensures ffmpeg.Some? && ffmpeg.value != "" && !AllSpace(url) && run == Success(0) ==>
              Reply(job, ffmpeg, url, dir, run) == Noun(job) + " download complete! Saved to " + dir
  {
  }
}

/** downloader.py: the desktop/Android download engine. The external tool
    is a `Spawner` (how it runs for a command and environment) and a
    `Fetcher` (what the format query gives); files are a `FileSystem`,
    progress and log a `Debug.Sink`. */
module Downloader {
  import opened Wrappers
  import opened Text
  import opened Paths
  import opened Fs
  import opened Resolver
  import opened Journal
  import Debug
  import Ffmpeg
  import opened Formats
  import opened Progress
  import opened Commands

  // ---------------------------------------------------------------------
  // get_ytdlp_path

  /** The five places searched for the download tool, in priority order. */
  function YtdlpCandidates(app: string): (r: seq<string>)
    ensures |r| == 5 && r[4] == "yt-dlp"
  {
    [ Join3(app, "binaries", "yt-dlp"),
      "binaries/yt-dlp",
      Ffmpeg.AndroidFiles + "/app/binaries/yt-dlp",
      Ffmpeg.AndroidFiles + "/binaries/yt-dlp",
      "yt-dlp" ]
  }

  /** What `get_ytdlp_path()` returns: the search's answer, or `yt-dlp`. */
  function YtdlpPath(app: string, existing: set<string>, denied: set<string>): string {
    Chosen(YtdlpCandidates(app), existing, denied).GetOr("yt-dlp")
  }

  function YtdlpNote(app: string, existing: set<string>, denied: set<string>): string {
    match Chosen(YtdlpCandidates(app), existing, denied)
    case Some(p) => "Using yt-dlp from: " + p
    case None => "Warning: yt-dlp not found in expected locations, using 'yt-dlp'"
  }

  /** `get_ytdlp_path()`. */
  method GetYtdlpPath(fs: FileSystem, sink: Debug.Sink, app: string) returns (p: string)
    modifies fs`executable, sink
    ensures p == YtdlpPath(app, fs.existing, fs.chmodDenied)
    ensures fs.executable == MarkedExecutable(old(fs.executable), Chosen(YtdlpCandidates(app), fs.existing, fs.chmodDenied))
    ensures sink.State() == Logged(old(sink.State()), sink.clock, YtdlpNote(app, fs.existing, fs.chmodDenied))
  {
    var r := FirstUsableCandidate(fs, YtdlpCandidates(app));
    if r.Some? {
      sink.Log("Using yt-dlp from: " + r.value);
      p := r.value;
    } else {
      sink.Log("Warning: yt-dlp not found in expected locations, using 'yt-dlp'");
      p := "yt-dlp";
    }
  }

  /** The tool path is always one of the candidates, never an error: the
      first usable one, or the bare name when none qualifies. */
  lemma YtdlpPathResolved(app: string, existing: set<string>, denied: set<string>)
    ensures YtdlpPath(app, existing, denied) in YtdlpCandidates(app)
    ensures (forall j :: 0 <= j < 5 ==> !Usable(YtdlpCandidates(app)[j], existing, denied))
            ==> YtdlpPath(app, existing, denied) == "yt-dlp"
    ensures forall i :: 0 <= i < 5 && Usable(YtdlpCandidates(app)[i], existing, denied)
                        && (forall j :: 0 <= j < i ==> !Usable(YtdlpCandidates(app)[j], existing, denied))
                        ==> YtdlpPath(app, existing, denied) == YtdlpCandidates(app)[i]
  {
    ChosenIsUsableCandidate(YtdlpCandidates(app), existing, denied);
    ChosenNone(YtdlpCandidates(app), existing, denied);
    forall i | 0 <= i < 5 && Usable(YtdlpCandidates(app)[i], existing, denied)
               && (forall j :: 0 <= j < i ==> !Usable(YtdlpCandidates(app)[j], existing, denied))
      ensures YtdlpPath(app, existing, denied) == YtdlpCandidates(app)[i]
    {
      ChosenFirst(YtdlpCandidates(app), existing, denied, i);
    }
  }

  // ---------------------------------------------------------------------
  // get_download_dir

  const SdcardDownload := "/sdcard/Download/"

  /** `os.path.expanduser('~/Downloads')` for home directory `home`. */
  function HomeDownloads(home: string): string {
    RStripSlash(home) + "/Downloads"
  }

  /** Where the download directory ends up, the one log line written on the
      way (if any) and whether `makedirs` created it. */
  datatype DirChoice = DirChoice(dir: string, note: Option<string>, created: bool)

  /** `get_download_dir()`; `storage` is the external storage path or the
      text of the exception the storage call raised. */
  function DownloadDir(android: bool, storage: Result<string, string>, home: string,
                       existing: set<string>, mkdirErrors: map<string, string>): DirChoice
  {
    if !android then DirChoice(HomeDownloads(home), None, false)
    else match storage
      case Failure(e) => DirChoice(SdcardDownload, Some("Error getting Android storage: " + e), false)
      case Success(s) =>
        var plural := Join(s, "Downloads");
        var singular := Join(s, "Download");
        if plural in existing then DirChoice(plural, Some("Using download directory: " + plural), false)
        else if singular in existing then DirChoice(singular, Some("Using download directory: " + singular), false)
        else if plural in mkdirErrors then
          DirChoice(SdcardDownload, Some("Error getting Android storage: " + mkdirErrors[plural]), false)
        else DirChoice(plural, Some("Created download directory: " + plural), true)
  }

  method GetDownloadDir(fs: FileSystem, sink: Debug.Sink, android: bool, storage: Result<string, string>, home: string)
    returns (d: string)
    modifies fs`existing, sink
    ensures var c := DownloadDir(android, storage, home, old(fs.existing), fs.mkdirErrors);
            && d == c.dir
            && fs.existing == (if c.created then old(fs.existing) + {c.dir} else old(fs.existing))
            && sink.State() == (if c.note.Some? then Logged(old(sink.State()), sink.clock, c.note.value) else old(sink.State()))
  {
    if !android {
      assert DownloadDir(android, storage, home, fs.existing, fs.mkdirErrors) == DirChoice(HomeDownloads(home), None, false);
      return HomeDownloads(home);
    }
    if storage.Failure? {
      sink.Log("Error getting Android storage: " + storage.error);
      return SdcardDownload;
    }
    var folders := ["Downloads", "Download"];
    var i := 0;
    while i < 2
      invariant 0 <= i <= 2
      invariant forall j :: 0 <= j < i ==> Join(storage.value, folders[j]) !in fs.existing
      invariant unchanged(sink) && fs.existing == old(fs.existing)
    {
      var candidate := Join(storage.value, folders[i]);
      var present := fs.Exists(candidate);
      if present {
        assert i == 1 ==> Join(storage.value, folders[0]) !in fs.existing;
        sink.Log("Using download directory: " + candidate);
        return candidate;
      }
      i := i + 1;
    }
    assert folders[0] == "Downloads" && folders[1] == "Download";
    assert Join(storage.value, folders[0]) !in fs.existing && Join(storage.value, folders[1]) !in fs.existing;
    d := Join(storage.value, "Downloads");
    var err := fs.Makedirs(d);
    if err.Some? {
      sink.Log("Error getting Android storage: " + err.value);
      return SdcardDownload;
    }
    sink.Log("Created download directory: " + d);
  }

  /** On Android the answer is `Downloads` when it exists, else `Download`,
      else a freshly created `Downloads`, with the fixed fallback only after
      an error; `makedirs` runs only when neither folder exists. */
  lemma DownloadDirChoices(storage: string, home: string, existing: set<string>, mkdirErrors: map<string, string>)
    ensures var c := DownloadDir(true, Success(storage), home, existing, mkdirErrors);
            && c.dir in {Join(storage, "Downloads"), Join(storage, "Download"), SdcardDownload}
            && (Join(storage, "Downloads") in existing ==> c.dir == Join(storage, "Downloads"))
            && (c.created <==> (Join(storage, "Downloads") !in existing && Join(storage, "Download") !in existing
                                && Join(storage, "Downloads") !in mkdirErrors))
            && ((Join(storage, "Downloads") !in existing && Join(storage, "Download") !in existing
                 && Join(storage, "Downloads") in mkdirErrors) ==> c.dir == SdcardDownload)
  {
  }

  // ---------------------------------------------------------------------
  // get_available_formats

  /** The answer of `get_available_formats`: the filter's map when the
      query ran cleanly and the filter did not raise, otherwise `{}`. */
  function FormatsAnswer(f: Fetched): (r: map<string, FormatInfo>)
    ensures r.Keys <= TargetLabels
  {
    FilterBoundedQuiet(f);
    if f.Ran? && f.code == 0 && f.document.Decoded? && Filter(f.document.formats).Success?
    then Filter(f.document.formats).value
    else map[]
  }

  lemma FilterBoundedQuiet(f: Fetched)
    ensures f.Ran? && f.code == 0 && f.document.Decoded? && Filter(f.document.formats).Success? ==>
              Filter(f.document.formats).value.Keys <= TargetLabels
  {
    if f.Ran? && f.code == 0 && f.document.Decoded? && Filter(f.document.formats).Success? {
      FilterBounded(f.document.formats);
    }
  }

  /** The log lines of one format query after `Fetching formats for: ...`;
      `traceback` is what `traceback.format_exc()` gives for the unexpected
      exception. */
  function FormatsNotes(f: Fetched, traceback: string): seq<string> {
    match f
    case TimedOut(_) => ["Timeout while fetching formats"]
    case Raised(e) => ["Unexpected error: " + e, traceback]
    case Ran(code, doc, stderr, failure) =>
      if code != 0 then ["Error fetching formats: " + failure, "stderr: " + stderr]
      else match doc
        case Undecodable(e) => ["Unexpected error: " + e, traceback]
        case Decoded(records) =>
          match Filter(records)
          case Failure(e) => ["Unexpected error: " + e, traceback]
          case Success(m) => ["Found " + IntStr(|m|) + " formats"]
  }

  /** `get_available_formats(url)` with the tool at `ytdlp`. */
  method GetAvailableFormats(sink: Debug.Sink, fetch: Fetcher, ytdlp: string, url: string, traceback: string)
    returns (r: map<string, FormatInfo>)
    modifies sink
    ensures r == FormatsAnswer(fetch([ytdlp, "-j", url]))
    ensures sink.State() == LoggedAll(Logged(old(sink.State()), sink.clock, "Fetching formats for: " + url),
                                      sink.clock, FormatsNotes(fetch([ytdlp, "-j", url]), traceback))
  {
    sink.Log("Fetching formats for: " + url);
    var s1 := sink.State();
    var f := fetch([ytdlp, "-j", url]);
    r := map[];
    match f {
      case TimedOut(_) =>
        sink.Log("Timeout while fetching formats");
        LoggedSingle(s1, sink.clock, "Timeout while fetching formats");
      case Raised(e) =>
        sink.Log("Unexpected error: " + e);
        sink.Log(traceback);
        LoggedPair(s1, sink.clock, "Unexpected error: " + e, traceback);
      case Ran(code, doc, stderr, failure) =>
        if code != 0 {
          sink.Log("Error fetching formats: " + failure);
          sink.Log("stderr: " + stderr);
          LoggedPair(s1, sink.clock, "Error fetching formats: " + failure, "stderr: " + stderr);
        } else if doc.Undecodable? {
          sink.Log("Unexpected error: " + doc.error);
          sink.Log(traceback);
          LoggedPair(s1, sink.clock, "Unexpected error: " + doc.error, traceback);
        } else {
          var filtered := FilterFormats(doc.formats);
          if filtered.Failure? {
            sink.Log("Unexpected error: " + filtered.error);
            sink.Log(traceback);
            LoggedPair(s1, sink.clock, "Unexpected error: " + filtered.error, traceback);
            assert FormatsNotes(f, traceback) == ["Unexpected error: " + filtered.error, traceback];
            assert FormatsAnswer(f) == r;
          } else {
            sink.Log("Found " + IntStr(|filtered.value|) + " formats");
            LoggedSingle(s1, sink.clock, "Found " + IntStr(|filtered.value|) + " formats");
            r := filtered.value;
            assert FormatsNotes(f, traceback) == ["Found " + IntStr(|filtered.value|) + " formats"];
            assert FormatsAnswer(f) == r;
          }
        }
    }
  }

  /** Never raises and never offers anything outside the five labels; any
      failure of the query gives the empty map and a log line saying why. */
  lemma FormatsAnswerFacts(f: Fetched, traceback: string)
    ensures |FormatsAnswer(f)| <= 5
    ensures !(f.Ran? && f.code == 0) ==> FormatsAnswer(f) == map[]
    ensures FormatsAnswer(f) != map[] ==>
              f.Ran? && f.document.Decoded? && Filter(f.document.formats) == Success(FormatsAnswer(f))
    ensures |FormatsNotes(f, traceback)| >= 1
  {
    SubsetCard(FormatsAnswer(f).Keys, TargetLabels);
  }

  // ---------------------------------------------------------------------
  // run_with_progress

  /** The sink after the lines before `try:` of `run_with_progress`. */
  function RunPrelude(s: SinkState, clock: Clock, ffmpeg: Option<string>, cmd: seq<string>): SinkState {
    var s1 := if ffmpeg.Some? && ffmpeg.value != "" then Logged(s, clock, "FFmpeg path added to PATH: " + Dirname(ffmpeg.value)) else s;
    Logged(s1, clock, "Running command: " + JoinWith(" ", cmd))
  }

  /** The sink after the `try:` block of `run_with_progress`, given how the
      child behaved; `Spawned` with a stream error means the read loop raised
      after the lines before it. */
  function RunBody(s: SinkState, clock: Clock, fault: Option<string>, prefix: string, child: Child): SinkState {
    match child
    case SpawnFailed(e, tb) => LoggedAll(s, clock, ["Error running command: " + e, tb])
    case Spawned(out, ending) =>
      var s1 := RunLines(Desktop, DesktopRules, prefix, clock, fault, s, out);
      match ending
      case Exited(_) => s1
      case StreamFailed(e, tb) => LoggedAll(s1, clock, ["Error running command: " + e, tb])
  }

  /** The return code: the child's, or 1 when an exception was caught. */
  function RunCode(child: Child): int {
    match child
    case Spawned(_, Exited(code)) => code
    case _ => 1
  }

  /** A caught exception never reads as success. */
  lemma RunCodeSuccess(child: Child)
    ensures RunCode(child) == 0 <==> child.Spawned? && child.ending == Exited(0)
    ensures !child.Spawned? || !child.ending.Exited? ==> RunCode(child) == 1
  {
  }

  /** The `for line in process.stdout:` loop. */
  method ReadOutput(sink: Debug.Sink, prefix: string, out: seq<string>)
    modifies sink
    ensures sink.State() == RunLines(Desktop, DesktopRules, prefix, sink.clock, sink.writeFault, old(sink.State()), out)
  {
    var i := 0;
    while i < |out|
      invariant 0 <= i <= |out|
      invariant sink.State() == RunLines(Desktop, DesktopRules, prefix, sink.clock, sink.writeFault, old(sink.State()), out[..i])
    {
      HandleLine(sink, prefix, out[i]);
      RunLinesPrefix(Desktop, DesktopRules, prefix, sink.clock, sink.writeFault, old(sink.State()), out, i);
      i := i + 1;
    }
    assert out[..i] == out;
  }

  /** The body of the read loop for one line of output. */
  method HandleLine(sink: Debug.Sink, prefix: string, raw: string)
    modifies sink
    ensures sink.State() == StepLine(Desktop, DesktopRules, prefix, sink.clock, sink.writeFault, old(sink.State()), raw)
  {
    var line := Strip(raw);
    var a := Classify(DesktopRules, prefix, line);
    if a.write.Some? {
      sink.WriteProgress(a.write.value);
    }
    if a.logged {
      sink.Log(line);
    }
  }

  /** `run_with_progress(cmd, prefix)`: ffmpeg's directory goes in front of
      `PATH`, the tool's merged output is classified line by line, and the
      exit code is returned (1 after an exception). */
  method RunWithProgress(sink: Debug.Sink, fs: FileSystem, app: string, env: Env, spawn: Spawner,
                         cmd: seq<string>, prefix: string) returns (code: int)
    modifies sink, fs`executable
    ensures var found := Ffmpeg.Found(app, fs.existing, fs.chmodDenied, fs.which);
            var child := spawn(cmd, ChildEnv(env, found));
            && code == RunCode(child)
            && sink.State() == RunBody(RunPrelude(old(sink.State()), sink.clock, found, cmd), sink.clock, sink.writeFault, prefix, child)
    ensures fs.executable == MarkedExecutable(old(fs.executable), Chosen(Ffmpeg.Candidates(app), fs.existing, fs.chmodDenied))
  {
    var found := Ffmpeg.GetFfmpegPath(fs, app);
    code := RunChild(sink, env, spawn, cmd, prefix, found);
  }

  /** `run_with_progress` once ffmpeg's location `found` is known. */
  method RunChild(sink: Debug.Sink, env: Env, spawn: Spawner, cmd: seq<string>, prefix: string,
                  found: Option<string>) returns (code: int)
    modifies sink
    ensures var child := spawn(cmd, ChildEnv(env, found));
            && code == RunCode(child)
            && sink.State() == RunBody(RunPrelude(old(sink.State()), sink.clock, found, cmd), sink.clock, sink.writeFault, prefix, child)
  {
    var childEnv := ChildEnv(env, found);
    if found.Some? && found.value != "" {
      sink.Log("FFmpeg path added to PATH: " + Dirname(found.value));
    }
    sink.Log("Running command: " + JoinWith(" ", cmd));
    var child := spawn(cmd, childEnv);
    match child {
      case SpawnFailed(e, tb) =>
        LogRunError(sink, e, tb);
        code := 1;
      case Spawned(out, ending) =>
        ReadOutput(sink, prefix, out);
        match ending {
          case Exited(c) =>
            code := c;
          case StreamFailed(e, tb) =>
            LogRunError(sink, e, tb);
            code := 1;
        }
    }
  }

  /** The `except` clause of `run_with_progress`: the error, then the traceback. */
  method LogRunError(sink: Debug.Sink, e: string, tb: string)
    modifies sink
    ensures sink.State() == LoggedAll(old(sink.State()), sink.clock, ["Error running command: " + e, tb])
  {
    LoggedPair(sink.State(), sink.clock, "Error running command: " + e, tb);
    sink.Log("Error running command: " + e);
    sink.Log(tb);
  }

  // ---------------------------------------------------------------------
  // download_video / download_audio

  /** Which of the two download functions runs (with the video one's
      `selected_res`). */
  datatype Job = Video(selected: Option<string>) | Audio

  const OutputTemplate := "%(title)s.%(ext)s"

  /** The argument vector the job hands to `run_with_progress`. */
  function JobCommand(job: Job, ytdlp: string, url: string, ffmpeg: string, dir: string): seq<string> {
    match job
    case Video(selected) => DesktopVideo(ytdlp, url, selected, ffmpeg, dir)
    case Audio => DesktopAudio(ytdlp, url, ffmpeg, dir)
  }

  function JobPrefix(job: Job): string {
    if job.Video? then "VIDEO" else "AUDIO"
  }

  /** `f"{selected_res}"`. */
  function ShowSelected(selected: Option<string>): string {
    selected.GetOr("None")
  }

  /** The log lines between the URL check and the first progress write. */
  function JobNotes(job: Job, url: string, dir: string): seq<string> {
    match job
    case Video(selected) =>
      ["Starting video download for: " + url, "Selected resolution: " + ShowSelected(selected),
       "Output template: " + Join(dir, OutputTemplate)]
    case Audio =>
      ["Starting audio download for: " + url, "Output template: " + Join(dir, OutputTemplate)]
  }

  function StartMessage(job: Job): string {
    if job.Video? then "Starting video download..." else "Starting audio download..."
  }

  function Noun(job: Job): string {
    if job.Video? then "Video" else "Audio"
  }

  function DoneProgress(job: Job, code: int): string {
    if code == 0 then "SUCCESS: " + Noun(job) + " download complete"
    else "ERROR: " + Noun(job) + " download failed"
  }

  function DoneNote(job: Job, code: int): string {
    if code == 0 then Noun(job) + " download successful"
    else Noun(job) + " download failed with code " + IntStr(code)
  }

  const Tick := '\U{2713}'
  const Cross := '\U{2717}'
  const Bullet := '\U{2022}'

  function SuccessReply(job: Job, dir: string): string {
    [Tick] + SuccessText(job, dir)
  }

  function SuccessText(job: Job, dir: string): string {
    if job.Video? then " Video downloaded successfully!\n\nSaved to: " + dir + "\n\nCheck your Downloads folder."
    else " Audio downloaded successfully!\n\nSaved to: " + dir + "\n\nCheck your Downloads folder for the MP3 file."
  }

  function FailureReply(code: int): string {
    FailureHead + IntStr(code) + FailureTail
  }

  const FailureHead := [Cross] + FailureWords
  const FailureWords := " Download failed (error code: "
  const FailureTail := ")\n\nPlease check:\n"
    + [Bullet] + " Internet connection\n" + [Bullet] + " URL is valid\n" + [Bullet] + " Storage permissions"

  function FfmpegMissing(e: Ffmpeg.FfmpegError): string {
    "ERROR: FFmpeg not found - " + e.message
  }

  const InvalidUrl := "ERROR: Invalid URL"

  /** What the download function returns, given what `ensure_ffmpeg()` gave
      and the code `run_with_progress` returned. */
  function Reply(job: Job, ensured: Result<string, Ffmpeg.FfmpegError>, url: string, dir: string, code: int): string {
    if ensured.Failure? then FfmpegMissing(ensured.error)
    else if Strip(url) == "" then InvalidUrl
    else if code == 0 then SuccessReply(job, dir)
    else FailureReply(code)
  }

  /** The sink after the lines that run when the download proceeds past the
      URL check, up to the call of `run_with_progress`. */
  function Announced(job: Job, s: SinkState, clock: Clock, fault: Option<string>, url: string, dir: string): SinkState {
    Written(Desktop, LoggedAll(s, clock, JobNotes(job, url, dir)), clock, fault, StartMessage(job))
  }

  /** The sink after the outcome is reported. */
  function Reported(job: Job, s: SinkState, clock: Clock, fault: Option<string>, code: int): SinkState {
    Logged(Written(Desktop, s, clock, fault, DoneProgress(job, code)), clock, DoneNote(job, code))
  }

  /** The whole sink history of one download call. */
  function DownloadState(job: Job, s: SinkState, clock: Clock, fault: Option<string>,
                         ensured: Result<string, Ffmpeg.FfmpegError>, url: string, dir: string,
                         ytdlp: string, found: Option<string>, spawn: Spawner, env: Env): SinkState
  {
    match ensured
    case Failure(e) => Logged(s, clock, FfmpegMissing(e))
    case Success(p) =>
      var s1 := Logged(s, clock, "FFmpeg verified at: " + p);
      if Strip(url) == "" then s1
      else
        var cmd := JobCommand(job, ytdlp, url, p, dir);
        var c := spawn(cmd, ChildEnv(env, found));
        Reported(job, RanState(job, s1, clock, fault, url, dir, cmd, found, c), clock, fault, RunCode(c))
  }

  /** The sink from the announcement of the download through the end of
      `run_with_progress`, which runs `cmd` as `child`. */
  function RanState(job: Job, s: SinkState, clock: Clock, fault: Option<string>, url: string, dir: string,
                    cmd: seq<string>, found: Option<string>, child: Child): SinkState
  {
    RunBody(RunPrelude(Announced(job, s, clock, fault, url, dir), clock, found, cmd), clock, fault, JobPrefix(job), child)
  }

  /** How the download tool behaves for the job's command. */
  function JobChild(job: Job, ytdlp: string, url: string, ffmpeg: string, dir: string,
                    found: Option<string>, spawn: Spawner, env: Env): Child
  {
    spawn(JobCommand(job, ytdlp, url, ffmpeg, dir), ChildEnv(env, found))
  }

  /** The code the run returns, when the download gets that far. */
  function JobCode(job: Job, ensured: Result<string, Ffmpeg.FfmpegError>, ytdlp: string, url: string, dir: string,
                   found: Option<string>, spawn: Spawner, env: Env): int
  {
    if ensured.Success? then RunCode(JobChild(job, ytdlp, url, ensured.value, dir, found, spawn, env)) else 1
  }

  /** `get_ffmpeg_path()` running again inside `run_with_progress` changes no
      executable bit: the first search already made its choice executable. */
  lemma SearchAgain(app: string, existing: set<string>, executable: set<string>,
                    denied: set<string>, which: map<string, string>)
    ensures MarkedExecutable(Ffmpeg.EnsuredExecutable(app, existing, executable, denied, which),
                             Chosen(Ffmpeg.Candidates(app), existing, denied))
            == Ffmpeg.EnsuredExecutable(app, existing, executable, denied, which)
  {
  }

  /** `download_video(url, selected_res)` and `download_audio(url)`, with the
      module-level `YTDLP_PATH` and `DOWNLOAD_DIR` as `ytdlp` and `dir`. */
  method Download(sink: Debug.Sink, fs: FileSystem, app: string, env: Env, spawn: Spawner,
                  ytdlp: string, dir: string, url: string, job: Job) returns (reply: string)
    modifies sink, fs`executable
    ensures var ensured := Ffmpeg.EnsureOutcome(app, fs.existing, old(fs.executable), fs.chmodDenied, fs.which);
            var found := Ffmpeg.Found(app, fs.existing, fs.chmodDenied, fs.which);
            && reply == Reply(job, ensured, url, dir, JobCode(job, ensured, ytdlp, url, dir, found, spawn, env))
            && sink.State() == DownloadState(job, old(sink.State()), sink.clock, sink.writeFault, ensured, url, dir,
                                             ytdlp, found, spawn, env)
    ensures fs.executable == Ffmpeg.EnsuredExecutable(app, fs.existing, old(fs.executable), fs.chmodDenied, fs.which)
  {
    ghost var exec0 := fs.executable;
    var ensured := Ffmpeg.EnsureFfmpeg(fs, app);
    reply := Respond(sink, fs, app, env, spawn, ytdlp, dir, url, job, ensured);
    SearchAgain(app, fs.existing, exec0, fs.chmodDenied, fs.which);
  }

  /** A download function after `ensure_ffmpeg()` has answered `ensured`. */
  method Respond(sink: Debug.Sink, fs: FileSystem, app: string, env: Env, spawn: Spawner,
                 ytdlp: string, dir: string, url: string, job: Job,
                 ensured: Result<string, Ffmpeg.FfmpegError>) returns (reply: string)
    modifies sink, fs`executable
    ensures var found := Ffmpeg.Found(app, fs.existing, fs.chmodDenied, fs.which);
            && reply == Reply(job, ensured, url, dir, JobCode(job, ensured, ytdlp, url, dir, found, spawn, env))
            && sink.State() == DownloadState(job, old(sink.State()), sink.clock, sink.writeFault, ensured, url, dir,
                                             ytdlp, found, spawn, env)
    ensures fs.executable == if ensured.Success? && Strip(url) != ""
                             then MarkedExecutable(old(fs.executable), Chosen(Ffmpeg.Candidates(app), fs.existing, fs.chmodDenied))
                             else old(fs.executable)
  {
    if ensured.Failure? {
      var msg := FfmpegMissing(ensured.error);
      sink.Log(msg);
      return msg;
    }
    reply := Verified(sink, fs, app, env, spawn, ytdlp, dir, url, job, ensured.value);
  }

  /** A download function once `ensure_ffmpeg()` has returned the path `ffmpeg`. */
  method Verified(sink: Debug.Sink, fs: FileSystem, app: string, env: Env, spawn: Spawner,
                  ytdlp: string, dir: string, url: string, job: Job, ffmpeg: string) returns (reply: string)
    modifies sink, fs`executable
    ensures var found := Ffmpeg.Found(app, fs.existing, fs.chmodDenied, fs.which);
            && reply == Reply(job, Success(ffmpeg), url, dir, JobCode(job, Success(ffmpeg), ytdlp, url, dir, found, spawn, env))
            && sink.State() == DownloadState(job, old(sink.State()), sink.clock, sink.writeFault, Success(ffmpeg), url, dir,
                                             ytdlp, found, spawn, env)
    ensures fs.executable == if Strip(url) != ""
                             then MarkedExecutable(old(fs.executable), Chosen(Ffmpeg.Candidates(app), fs.existing, fs.chmodDenied))
                             else old(fs.executable)
  {
    if Strip(url) == "" {
      reply := RejectBlank(sink, fs, app, env, spawn, ytdlp, dir, url, job, ffmpeg);
    } else {
      reply := Proceed(sink, fs, app, env, spawn, ytdlp, dir, url, job, ffmpeg);
    }
  }

  /** A download function once ffmpeg is found, with a blank URL. */
  method RejectBlank(sink: Debug.Sink, fs: FileSystem, app: string, env: Env, spawn: Spawner,
                     ytdlp: string, dir: string, url: string, job: Job, ffmpeg: string) returns (reply: string)
    requires Strip(url) == ""
    modifies sink
    ensures var found := Ffmpeg.Found(app, fs.existing, fs.chmodDenied, fs.which);
            && reply == Reply(job, Success(ffmpeg), url, dir, JobCode(job, Success(ffmpeg), ytdlp, url, dir, found, spawn, env))
            && sink.State() == DownloadState(job, old(sink.State()), sink.clock, sink.writeFault, Success(ffmpeg), url, dir,
                                             ytdlp, found, spawn, env)
  {
    ghost var s0 := sink.State();
    sink.Log("FFmpeg verified at: " + ffmpeg);
    BlankUrl(job, s0, sink.clock, sink.writeFault, ffmpeg, url, dir, ytdlp,
             Ffmpeg.Found(app, fs.existing, fs.chmodDenied, fs.which), spawn, env);
    reply := InvalidUrl;
  }

  /** With a blank URL the download stops after the ffmpeg line. */
  lemma BlankUrl(job: Job, s: SinkState, clock: Clock, fault: Option<string>, ffmpeg: string,
                 url: string, dir: string, ytdlp: string, found: Option<string>, spawn: Spawner, env: Env)
    requires Strip(url) == ""
    ensures DownloadState(job, s, clock, fault, Success(ffmpeg), url, dir, ytdlp, found, spawn, env)
            == Logged(s, clock, "FFmpeg verified at: " + ffmpeg)
    ensures Reply(job, Success(ffmpeg), url, dir, JobCode(job, Success(ffmpeg), ytdlp, url, dir, found, spawn, env))
            == InvalidUrl
  {
  }

  /** A download function once ffmpeg is found and the URL is not blank:
      log the path, announce, run the tool, report. */
  method Proceed(sink: Debug.Sink, fs: FileSystem, app: string, env: Env, spawn: Spawner,
                 ytdlp: string, dir: string, url: string, job: Job, ffmpeg: string) returns (reply: string)
    requires Strip(url) != ""
    modifies sink, fs`executable
    ensures var found := Ffmpeg.Found(app, fs.existing, fs.chmodDenied, fs.which);
            && reply == Reply(job, Success(ffmpeg), url, dir, JobCode(job, Success(ffmpeg), ytdlp, url, dir, found, spawn, env))
            && sink.State() == DownloadState(job, old(sink.State()), sink.clock, sink.writeFault, Success(ffmpeg), url, dir,
                                             ytdlp, found, spawn, env)
    ensures fs.executable == MarkedExecutable(old(fs.executable), Chosen(Ffmpeg.Candidates(app), fs.existing, fs.chmodDenied))
  {
    ghost var s0 := sink.State();
    sink.Log("FFmpeg verified at: " + ffmpeg);
    var code := Execute(sink, fs, app, env, spawn, ytdlp, dir, url, job, ffmpeg, s0);
    reply := if code == 0 then SuccessReply(job, dir) else FailureReply(code);
    RanReply(job, ffmpeg, url, dir, code);
  }

  lemma RanReply(job: Job, ffmpeg: string, url: string, dir: string, code: int)
    requires Strip(url) != ""
    ensures Reply(job, Success(ffmpeg), url, dir, code) == if code == 0 then SuccessReply(job, dir) else FailureReply(code)
  {
  }

  /** Announce, run the tool, report, once the log holds the line naming the
      verified ffmpeg after `s0`; the code the run returned. */
  method Execute(sink: Debug.Sink, fs: FileSystem, app: string, env: Env, spawn: Spawner,
                 ytdlp: string, dir: string, url: string, job: Job, ffmpeg: string, ghost s0: SinkState)
    returns (code: int)
    requires Strip(url) != ""
    requires sink.State() == Logged(s0, sink.clock, "FFmpeg verified at: " + ffmpeg)
    modifies sink, fs`executable
    ensures var found := Ffmpeg.Found(app, fs.existing, fs.chmodDenied, fs.which);
            && code == JobCode(job, Success(ffmpeg), ytdlp, url, dir, found, spawn, env)
            && sink.State() == DownloadState(job, s0, sink.clock, sink.writeFault, Success(ffmpeg), url, dir,
                                             ytdlp, found, spawn, env)
    ensures fs.executable == MarkedExecutable(old(fs.executable), Chosen(Ffmpeg.Candidates(app), fs.existing, fs.chmodDenied))
  {
    Announce(sink, job, url, dir);
    var cmd := JobCommand(job, ytdlp, url, ffmpeg, dir);
    code := RunWithProgress(sink, fs, app, env, spawn, cmd, JobPrefix(job));
    Report(sink, job, code);
    RanDownloadState(job, s0, sink.clock, sink.writeFault, ffmpeg, url, dir, ytdlp,
                     Ffmpeg.Found(app, fs.existing, fs.chmodDenied, fs.which), spawn, env);
  }

  /** Past the URL check, a download's sink history is the ffmpeg line
      followed by the run. */
  lemma RanDownloadState(job: Job, s: SinkState, clock: Clock, fault: Option<string>, ffmpeg: string,
                         url: string, dir: string, ytdlp: string, found: Option<string>, spawn: Spawner, env: Env)
    requires Strip(url) != ""
    ensures var cmd := JobCommand(job, ytdlp, url, ffmpeg, dir);
            var c := spawn(cmd, ChildEnv(env, found));
            && DownloadState(job, s, clock, fault, Success(ffmpeg), url, dir, ytdlp, found, spawn, env)
               == Reported(job, RanState(job, Logged(s, clock, "FFmpeg verified at: " + ffmpeg), clock, fault, url, dir,
                                         cmd, found, c), clock, fault, RunCode(c))
            && JobCode(job, Success(ffmpeg), ytdlp, url, dir, found, spawn, env) == RunCode(c)
  {
  }

  /** The lines of a download function between the URL check and the call
      of `run_with_progress`: the job's log lines, then the start message. */
  method Announce(sink: Debug.Sink, job: Job, url: string, dir: string)
    modifies sink
    ensures sink.State() == Announced(job, old(sink.State()), sink.clock, sink.writeFault, url, dir)
  {
    ghost var s1 := sink.State();
    var output := Join(dir, OutputTemplate);
    match job {
      case Video(selected) =>
        sink.Log("Starting video download for: " + url);
        sink.Log("Selected resolution: " + ShowSelected(selected));
        sink.Log("Output template: " + output);
        LoggedTriple(s1, sink.clock, "Starting video download for: " + url,
                     "Selected resolution: " + ShowSelected(selected), "Output template: " + output);
      case Audio =>
        sink.Log("Starting audio download for: " + url);
        sink.Log("Output template: " + output);
        LoggedPair(s1, sink.clock, "Starting audio download for: " + url, "Output template: " + output);
    }
    sink.WriteProgress(StartMessage(job));
  }

  /** The verdict written to the progress file and the matching log line. */
  method Report(sink: Debug.Sink, job: Job, code: int)
    modifies sink
    ensures sink.State() == Reported(job, old(sink.State()), sink.clock, sink.writeFault, code)
  {
    sink.WriteProgress(DoneProgress(job, code));
    sink.Log(DoneNote(job, code));
  }

  method DownloadVideo(sink: Debug.Sink, fs: FileSystem, app: string, env: Env, spawn: Spawner,
                       ytdlp: string, dir: string, url: string, selected: Option<string>) returns (reply: string)
    modifies sink, fs`executable
    ensures var ensured := Ffmpeg.EnsureOutcome(app, fs.existing, old(fs.executable), fs.chmodDenied, fs.which);
            var found := Ffmpeg.Found(app, fs.existing, fs.chmodDenied, fs.which);
            && reply == Reply(Video(selected), ensured, url, dir, JobCode(Video(selected), ensured, ytdlp, url, dir, found, spawn, env))
            && sink.State() == DownloadState(Video(selected), old(sink.State()), sink.clock, sink.writeFault, ensured, url, dir,
                                             ytdlp, found, spawn, env)
    ensures fs.executable == Ffmpeg.EnsuredExecutable(app, fs.existing, old(fs.executable), fs.chmodDenied, fs.which)
  {
    reply := Download(sink, fs, app, env, spawn, ytdlp, dir, url, Video(selected));
  }

  method DownloadAudio(sink: Debug.Sink, fs: FileSystem, app: string, env: Env, spawn: Spawner,
                       ytdlp: string, dir: string, url: string) returns (reply: string)
    modifies sink, fs`executable
    ensures var ensured := Ffmpeg.EnsureOutcome(app, fs.existing, old(fs.executable), fs.chmodDenied, fs.which);
            var found := Ffmpeg.Found(app, fs.existing, fs.chmodDenied, fs.which);
            && reply == Reply(Audio, ensured, url, dir, JobCode(Audio, ensured, ytdlp, url, dir, found, spawn, env))
            && sink.State() == DownloadState(Audio, old(sink.State()), sink.clock, sink.writeFault, ensured, url, dir,
                                             ytdlp, found, spawn, env)
    ensures fs.executable == Ffmpeg.EnsuredExecutable(app, fs.existing, old(fs.executable), fs.chmodDenied, fs.which)
  {
    reply := Download(sink, fs, app, env, spawn, ytdlp, dir, url, Audio);
  }

  lemma HeadOfAppend(x: string, y: string)
    requires x != []
    ensures x + y != [] && (x + y)[0] == x[0]
  {
  }

  lemma ReplyHeads(job: Job, dir: string, code: int, e: Ffmpeg.FfmpegError)
    ensures SuccessReply(job, dir) != [] && SuccessReply(job, dir)[0] == Tick
    ensures FailureReply(code) != [] && FailureReply(code)[0] == Cross
    ensures FfmpegMissing(e) != [] && FfmpegMissing(e)[0] == 'E'
    ensures InvalidUrl[0] == 'E'
  {
    HeadOfAppend([Cross], FailureWords);
    HeadOfAppend(FailureHead, IntStr(code));
    HeadOfAppend(FailureHead + IntStr(code), FailureTail);
    assert FfmpegMissing(e) == "ERROR: FFmpeg not found - " + e.message;
  }

  /** Only a run that exits with code 0 is reported as a success; a missing
      ffmpeg wins over a blank URL, which wins over running the tool. */
  lemma ReplyOutcomes(job: Job, ensured: Result<string, Ffmpeg.FfmpegError>, url: string, dir: string, code: int)
    ensures var r := Reply(job, ensured, url, dir, code);
            && r != []
            && (r[0] == Tick <==> ensured.Success? && !AllSpace(url) && code == 0)
            && (ensured.Failure? ==> r == "ERROR: FFmpeg not found - " + ensured.error.message)
            && (ensured.Success? && AllSpace(url) ==> r == InvalidUrl)
  {
    if ensured.Failure? {
      ReplyHeads(job, dir, code, ensured.error);
    } else {
      ReplyHeads(job, dir, code, Ffmpeg.NotFound(""));
    }
  }

  /** A failed run's reply quotes its exit code. */
  lemma FailureReplyQuotesCode(code: int)
    ensures Contains(FailureReply(code), IntStr(code))
  {
    ContainsMiddle(FailureHead, IntStr(code), FailureTail);
  }

  /** Without ffmpeg, or with a blank URL, the call logs exactly one line
      and never touches the progress file. */
  lemma EarlyExitsLogOnce(job: Job, s: SinkState, clock: Clock, fault: Option<string>,
                          ensured: Result<string, Ffmpeg.FfmpegError>, url: string, dir: string,
                          ytdlp: string, found: Option<string>, spawn: Spawner, env: Env)
    requires ensured.Failure? || AllSpace(url)
    ensures var t := DownloadState(job, s, clock, fault, ensured, url, dir, ytdlp, found, spawn, env);
            t.progress == s.progress && t.ticks == s.ticks + 1
  {
  }

  /** The verdict written to the progress file reads `SUCCESS` exactly for
      exit code 0. */
  lemma DoneProgressVerdict(job: Job, code: int)
    ensures "SUCCESS: " <= DoneProgress(job, code) <==> code == 0
  {
    if code != 0 {
      HeadOfAppend("ERROR: ", Noun(job));
      HeadOfAppend("ERROR: " + Noun(job), " download failed");
      assert DoneProgress(job, code)[0] == 'E';
    } else {
      PrefixOfAppend("SUCCESS: ", Noun(job), " download complete");
    }
  }

  lemma PrefixOfAppend(a: string, b: string, c: string)
    ensures a <= a + b + c
  {
    assert (a + b + c)[..|a|] == a;
  }

  /** Reporting leaves the verdict in the progress file (when it can be
      written) and its log line last in the log. */
  lemma ReportedLast(job: Job, s: SinkState, clock: Clock, code: int)
    ensures var t := Reported(job, s, clock, None, code);
            && t.progress == Some(DoneProgress(job, code))
            && t.ticks == s.ticks + 1
            && LastEntryIs(t, clock, DoneNote(job, code))
  {
  }

  /** The last entry of the log is `msg`, stamped with the last tick. */
  predicate LastEntryIs(t: SinkState, clock: Clock, msg: string) {
    t.log.Some? && t.ticks >= 1
    && var e := Entry(clock(t.ticks - 1), msg);
       |e| <= |t.log.value| && t.log.value[|t.log.value| - |e|..] == e
  }

  /** When the progress file can be written, the last thing it holds after a
      download that ran is the verdict; the last log line is the verdict's
      log line. */
  lemma FinalProgress(job: Job, s: SinkState, clock: Clock,
                      ensured: Result<string, Ffmpeg.FfmpegError>, url: string, dir: string,
                      ytdlp: string, found: Option<string>, spawn: Spawner, env: Env)
    requires ensured.Success? && !AllSpace(url)
    ensures var code := JobCode(job, ensured, ytdlp, url, dir, found, spawn, env);
            var t := DownloadState(job, s, clock, None, ensured, url, dir, ytdlp, found, spawn, env);
            t.progress == Some(DoneProgress(job, code)) && LastEntryIs(t, clock, DoneNote(job, code))
  {
    var p := ensured.value;
    assert Strip(url) != "";
    var s1 := Logged(s, clock, "FFmpeg verified at: " + p);
    var cmd := JobCommand(job, ytdlp, url, p, dir);
    var c := JobChild(job, ytdlp, url, p, dir, found, spawn, env);
    var s2 := RanState(job, s1, clock, None, url, dir, cmd, found, c);
    assert DownloadState(job, s, clock, None, ensured, url, dir, ytdlp, found, spawn, env) == Reported(job, s2, clock, None, RunCode(c));
    ReportedLast(job, s2, clock, RunCode(c));
  }
}

/** ffmpeg.py: where the desktop/Android build looks for the ffmpeg binary
    and how it insists on one being there. */
module Ffmpeg {
  import opened Wrappers
  import opened Paths
  import opened Fs
  import opened Resolver

  /** The app's private storage when the Android storage call fails. */
  const AndroidFiles := "/data/data/org.wilddrs.ytdownloader/files"

  /** `get_app_dir()`: on Android the storage path (`None` when the call
      raises), otherwise the home directory. */
  function AppDir(android: bool, storage: Option<string>, home: string): (r: string)
    ensures android && storage.None? ==> r == AndroidFiles
    ensures android && storage.Some? ==> r == storage.value
    ensures !android ==> r == home
  {
    if android then storage.GetOr(AndroidFiles) else home
  }

  /** The ten places searched, in priority order. */
  function Candidates(app: string): (r: seq<string>)
    ensures |r| == 10
  {
    [ Join3(app, "binaries", "ffmpeg"),
      Join3(app, "binaries", "ffmpeg-arm64"),
      Join3(app, "binaries", "ffmpeg-armv7"),
      "binaries/ffmpeg",
      "binaries/ffmpeg-arm64",
      "binaries/ffmpeg-armv7",
      AndroidFiles + "/app/binaries/ffmpeg",
      AndroidFiles + "/binaries/ffmpeg",
      AndroidFiles + "/app/binaries/ffmpeg-arm64",
      AndroidFiles + "/binaries/ffmpeg-arm64" ]
  }

  /** The first three candidates lie under the app directory and the rest
      do not depend on it. */
  lemma RootedAtAppDir(app: string, other: string)
    ensures forall i :: 0 <= i < 3 ==> app <= Candidates(app)[i]
    ensures Candidates(app)[3..] == Candidates(other)[3..]
  {
    JoinExtends(app, "binaries");
    var b := Join(app, "binaries");
    JoinExtends(b, "ffmpeg");
    JoinExtends(b, "ffmpeg-arm64");
    JoinExtends(b, "ffmpeg-armv7");
  }

  /** What `get_ffmpeg_path()` returns. */
  function Found(app: string, existing: set<string>, denied: set<string>, which: map<string, string>): Option<string> {
    Resolve(Candidates(app), existing, denied, which, "ffmpeg")
  }

  /** `get_ffmpeg_path()`: the first bundled candidate that exists and can
      be made executable, else the PATH search, else nothing. */
  method GetFfmpegPath(fs: FileSystem, app: string) returns (r: Option<string>)
    modifies fs`executable
    ensures r == Found(app, fs.existing, fs.chmodDenied, fs.which)
    ensures fs.executable == MarkedExecutable(old(fs.executable), Chosen(Candidates(app), fs.existing, fs.chmodDenied))
  {
    r := FirstUsableCandidate(fs, Candidates(app));
    if r.None? {
      var w := fs.Which("ffmpeg");
      if w.Some? && w.value != "" {
        r := w;
      }
    }
  }

  /** The two exceptions `ensure_ffmpeg()` raises. */
  datatype FfmpegError = NotFound(message: string) | NotExecutable(message: string)

  const NotFoundMessage :=
    "FFmpeg not found!\n\n"
    + "The app requires FFmpeg to process videos.\n"
    + "Please ensure the binaries are properly packaged in the APK.\n\n"
    + "If you built this yourself, run:\n"
    + "./setup_binaries_simple.sh\n"
    + "before building with buildozer."

  function NotExecutableMessage(p: string): string {
    "FFmpeg found at " + p + " but is not executable"
  }

  /** The executable bits after `get_ffmpeg_path()` ran. */
  function AfterSearch(app: string, existing: set<string>, executable: set<string>, denied: set<string>): set<string> {
    MarkedExecutable(executable, Chosen(Candidates(app), existing, denied))
  }

  /** What `ensure_ffmpeg()` returns or raises: no path is `FileNotFoundError`;
      a path that is not executable and whose `chmod` fails is
      `PermissionError`; otherwise the path. */
  function EnsureOutcome(app: string, existing: set<string>, executable: set<string>,
                         denied: set<string>, which: map<string, string>): Result<string, FfmpegError>
  {
    var found := Found(app, existing, denied, which);
    if found.None? || found.value == "" then Failure(NotFound(NotFoundMessage))
    else if found.value in AfterSearch(app, existing, executable, denied) || Usable(found.value, existing, denied)
    then Success(found.value)
    else Failure(NotExecutable(NotExecutableMessage(found.value)))
  }

  /** The executable bits after `ensure_ffmpeg()`: its own `chmod` adds the
      found path when that path was not executable yet and can be changed. */
  function EnsuredExecutable(app: string, existing: set<string>, executable: set<string>,
                             denied: set<string>, which: map<string, string>): set<string>
  {
    var found := Found(app, existing, denied, which);
    var after := AfterSearch(app, existing, executable, denied);
    if found.Some? && found.value != "" && found.value !in after && Usable(found.value, existing, denied)
    then after + {found.value} else after
  }

  /** `ensure_ffmpeg()`. */
  method EnsureFfmpeg(fs: FileSystem, app: string) returns (r: Result<string, FfmpegError>)
    modifies fs`executable
    ensures r == EnsureOutcome(app, fs.existing, old(fs.executable), fs.chmodDenied, fs.which)
    ensures fs.executable == EnsuredExecutable(app, fs.existing, old(fs.executable), fs.chmodDenied, fs.which)
  {
    var p := GetFfmpegPath(fs, app);
    if p.None? || p.value == "" {
      return Failure(NotFound(NotFoundMessage));
    }
    var x := fs.IsExecutable(p.value);
    if !x {
      var ok := fs.Chmod(p.value);
      if !ok {
        return Failure(NotExecutable(NotExecutableMessage(p.value)));
      }
    }
    return Success(p.value);
  }

  /** A bundled binary the search accepted is never refused afterwards: the
      search already made it executable. */
  lemma BundledAccepted(app: string, existing: set<string>, executable: set<string>,
                        denied: set<string>, which: map<string, string>, i: nat)
    requires i < 10 && Usable(Candidates(app)[i], existing, denied)
    ensures EnsureOutcome(app, existing, executable, denied, which).Success?
    ensures EnsureOutcome(app, existing, executable, denied, which).value in Candidates(app)
  {
    ChosenIsUsableCandidate(Candidates(app), existing, denied);
    ChosenNone(Candidates(app), existing, denied);
  }

  /** `FileNotFoundError` exactly when no candidate is usable and the PATH
      search finds nothing. */
  lemma NotFoundExactly(app: string, existing: set<string>, executable: set<string>,
                        denied: set<string>, which: map<string, string>)
    ensures EnsureOutcome(app, existing, executable, denied, which) == Failure(NotFound(NotFoundMessage))
            <==> (forall j :: 0 <= j < 10 ==> !Usable(Candidates(app)[j], existing, denied))
                 && WhichResult(which, "ffmpeg").None?
  {
    ChosenNone(Candidates(app), existing, denied);
    ChosenIsUsableCandidate(Candidates(app), existing, denied);
  }

  /** `PermissionError` can only come from the PATH search: every bundled
      candidate failed, the PATH answer was not executable and could not be
      changed. */
  lemma NotExecutableOnlyFromPath(app: string, existing: set<string>, executable: set<string>,
                                  denied: set<string>, which: map<string, string>)
    requires EnsureOutcome(app, existing, executable, denied, which).Failure?
    requires EnsureOutcome(app, existing, executable, denied, which).error.NotExecutable?
    ensures forall j :: 0 <= j < 10 ==> !Usable(Candidates(app)[j], existing, denied)
    ensures var w := WhichResult(which, "ffmpeg");
            w.Some? && w.value !in executable && !Usable(w.value, existing, denied)
            && EnsureOutcome(app, existing, executable, denied, which).error.message == NotExecutableMessage(w.value)
  {
    ChosenIsUsableCandidate(Candidates(app), existing, denied);
    ChosenNone(Candidates(app), existing, denied);
  }

  /** Whatever `ensure_ffmpeg()` returns is executable afterwards. */
  lemma EnsuredIsExecutable(app: string, existing: set<string>, executable: set<string>,
                            denied: set<string>, which: map<string, string>)
    requires EnsureOutcome(app, existing, executable, denied, which).Success?
    ensures EnsureOutcome(app, existing, executable, denied, which).value
            in EnsuredExecutable(app, existing, executable, denied, which)
  {
  }
}

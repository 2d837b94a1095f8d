/** kivy_ffmpeg.py: the Kivy build's ffmpeg lookup. */
module KivyFfmpeg {
  import opened Wrappers
  import opened Fs
  import opened Resolver

  /** The three places searched, in priority order. */
  const Candidates: seq<string> := [
    "/data/data/org.yourapp.ytdownloader/files/app/binaries/ffmpeg",
    "binaries/ffmpeg",
    "/data/data/org.yourapp.ytdownloader/files/ffmpeg"
  ]

  /** What `get_ffmpeg_path()` returns. */
  function Found(existing: set<string>, denied: set<string>, which: map<string, string>): Option<string> {
    Resolve(Candidates, existing, denied, which, "ffmpeg")
  }

  /** `get_ffmpeg_path()`: first existing candidate whose `chmod(0o755)`
      succeeds, else the PATH search, else nothing. */
  method GetFfmpegPath(fs: FileSystem) returns (r: Option<string>)
    modifies fs`executable
    ensures r == Found(fs.existing, fs.chmodDenied, fs.which)
    ensures fs.executable == MarkedExecutable(old(fs.executable), Chosen(Candidates, fs.existing, fs.chmodDenied))
  {
    r := FirstUsableCandidate(fs, Candidates);
    if r.None? {
      var w := fs.Which("ffmpeg");
      if w.Some? && w.value != "" {
        r := w;
      }
    }
  }

  const NotFoundMessage :=
    "FFmpeg not found! The app requires FFmpeg to work. "
    + "Please ensure the binaries are properly packaged."

  /** What `ensure_ffmpeg()` returns, or the message of its `FileNotFoundError`;
      unlike ffmpeg.py it does not check the executable bit. */
  function EnsureOutcome(found: Option<string>): Result<string, string> {
    if found.None? || found.value == "" then Failure(NotFoundMessage) else Success(found.value)
  }

  /** `ensure_ffmpeg()`. */
  method EnsureFfmpeg(fs: FileSystem) returns (r: Result<string, string>)
    modifies fs`executable
    ensures r == EnsureOutcome(Found(fs.existing, fs.chmodDenied, fs.which))
    ensures fs.executable == MarkedExecutable(old(fs.executable), Chosen(Candidates, fs.existing, fs.chmodDenied))
  {
    var p := GetFfmpegPath(fs);
    if p.None? || p.value == "" {
      return Failure(NotFoundMessage);
    }
    return Success(p.value);
  }

  /** The Kivy build fails only when nothing at all was found; otherwise
      it returns the found path unchanged. */
  lemma EnsureOutcomeExactly(existing: set<string>, denied: set<string>, which: map<string, string>)
    ensures EnsureOutcome(Found(existing, denied, which)).Failure?
            <==> (forall j :: 0 <= j < |Candidates| ==> !Usable(Candidates[j], existing, denied))
                 && WhichResult(which, "ffmpeg").None?
    ensures EnsureOutcome(Found(existing, denied, which)).Success? ==>
              Some(EnsureOutcome(Found(existing, denied, which)).value) == Found(existing, denied, which)
  {
    ChosenNone(Candidates, existing, denied);
    ChosenIsUsableCandidate(Candidates, existing, denied);
  }
}

# YouTube-Video-Downloader engine in Dafny

This project models the download engine of the YouTube video downloader app.
The app comes in two builds, and the model covers both:

- the desktop/Android build: `downloader.py`, `ffmpeg.py` and `debug.py`;
- the Kivy build: `kivy_downloader.py`, `kivy_ffmpeg.py` and `kivy_debug.py`.

The engine does five things:

- It finds the `yt-dlp` and `ffmpeg` binaries by walking ordered candidate lists.
- It builds the `yt-dlp` argument vectors.
- It classifies the tool's output lines into progress messages and log lines.
- It filters the format list down to five resolution labels.
- It keeps a progress file and an append-only log.

The external world is passed in as parameters:

- The filesystem is a class `Fs.FileSystem` with sets of existing and executable paths. Two fixed sets say where `chmod` and `makedirs` fail, and a map stands in for `shutil.which`.
- The progress file and log are a class `Debug.Sink` (or `KivyDebug.Sink`). Its fields are the progress file's content (`None` when the file is absent), the log file's text and a tick counter. Timestamps come from a `clock: nat -> string`.
- The download tool is a `Spawner`, a function from argument vector and environment to what the child does. The child either fails to start, or prints lines and then exits with a code or breaks off with an exception.
- The format query is a `Fetcher`, a function from argument vector to a decoded outcome: the exit code and format records, a timeout, or an exception's text.
- The module-level values `YTDLP_PATH`, `DOWNLOAD_DIR` and the app directory are explicit parameters.

Modules follow the source files:

- `Resolver` holds the candidate search that every lookup shares.
- `Commands` holds the command lists of both downloaders.
- `Progress` holds the percent regex, the classifier and the read loop of both `run_with_progress` versions.
- `Formats` holds the format filter shared by both downloaders.
- `Journal` holds the state transitions of the sink, which `Debug` and `KivyDebug` wrap in classes.

Where code loops or changes state, the model does so too: the candidate walk, the read loop, the format loop and the sink operations. Each such method is proved equal to a specification function, and the lemmas are stated about those functions.

`kivy_downloader.py` imports `ffmpeg` and `debug`. In the Kivy build these are taken to be the `kivy_ffmpeg.py` and `kivy_debug.py` files, so `KivyDownloader` uses `KivyFfmpeg` and `KivyDebug.Sink`.

## Model

| member | source | states |
|---|---|---|
| Resolver.FirstUsableCandidate | downloader.py:28-35 | the candidate loop returns the first candidate that exists and whose `chmod` succeeds, and marks exactly that one executable |
| Resolver.ChosenFirst | ffmpeg.py:43-49 | if candidate i is usable and no earlier one is, the search returns candidate i (first match wins) |
| Resolver.ChosenNone | ffmpeg.py:43-52 | the search finds nothing exactly when no candidate exists with a working `chmod` |
| Resolver.SkipsDenied | ffmpeg.py:50-51 | an existing candidate whose `chmod` fails is skipped, and the search goes on with the rest |
| Resolver.ChosenAppend | ffmpeg.py:26-49 | a usable candidate earlier in the list wins over anything after it; a prefix with none defers to the rest |
| Resolver.ChosenIsUsableCandidate | ffmpeg.py:43-49 | whatever the search returns is a listed candidate that exists and could be made executable |
| Resolver.WhichOnlyAsFallback | ffmpeg.py:53-57 | with any usable candidate the result does not depend on the `which` answer |
| Resolver.ResolveSound | ffmpeg.py:43-60 | the result is never a non-existent candidate: it is a usable candidate, or the non-empty `which` answer after all candidates failed |
| Fs.FileSystem.Chmod | ffmpeg.py:45-47 | `chmod` succeeds exactly on existing, non-denied paths and then makes the path executable |
| Fs.FileSystem.Makedirs | downloader.py:62-63 | `makedirs` either fails with the given error or adds the directory |
| Ffmpeg.AppDir | ffmpeg.py:12-19 | the storage path on Android, the fixed private directory when the storage call raises, the home directory otherwise |
| Ffmpeg.Candidates | ffmpeg.py:26-41 | the ten ffmpeg candidates in priority order |
| Ffmpeg.RootedAtAppDir | ffmpeg.py:26-30 | the first three candidates lie under the app directory; the other seven do not depend on it |
| Ffmpeg.GetFfmpegPath | ffmpeg.py:21-60 | returns the candidate search with the `which("ffmpeg")` fallback; only the chosen candidate becomes executable |
| Ffmpeg.EnsureFfmpeg | ffmpeg.py:62-83 | returns or raises as `EnsureOutcome` says, with the executable bits as `EnsuredExecutable` says |
| Ffmpeg.NotFoundExactly | ffmpeg.py:64-74 | `FileNotFoundError` with the exact message iff no candidate is usable and `which` finds nothing |
| Ffmpeg.BundledAccepted | ffmpeg.py:77-83 | a usable bundled candidate is always accepted, and the result is that candidate |
| Ffmpeg.NotExecutableOnlyFromPath | ffmpeg.py:77-81 | `PermissionError` arises only for a `which` answer that is not executable and whose `chmod` fails |
| Ffmpeg.EnsuredIsExecutable | ffmpeg.py:76-83 | the returned path is executable afterwards |
| KivyFfmpeg.GetFfmpegPath | kivy_ffmpeg.py:4-27 | the same search over the three Kivy candidates, then `which`, then `None` |
| KivyFfmpeg.EnsureFfmpeg | kivy_ffmpeg.py:29-37 | `FileNotFoundError` when nothing is found, otherwise the found path |
| KivyFfmpeg.EnsureOutcomeExactly | kivy_ffmpeg.py:29-37 | fails iff no candidate is usable and `which` finds nothing; otherwise returns the found path unchanged |
| Downloader.YtdlpCandidates | downloader.py:17-26 | the five yt-dlp candidates, ending with the bare name `yt-dlp` |
| Downloader.GetYtdlpPath | downloader.py:15-39 | returns the first usable candidate or `'yt-dlp'`, logs which, and makes only the chosen one executable |
| Downloader.YtdlpPathResolved | downloader.py:28-39 | the answer is always one of the candidates, never an error: the first usable one, or `yt-dlp` when none qualifies |
| Downloader.GetDownloadDir | downloader.py:50-72 | tries `Downloads` then `Download`, else creates `Downloads`; falls back to `/sdcard/Download/` on error; on desktop uses `~/Downloads`; logs as the code does |
| Downloader.DownloadDirChoices | downloader.py:56-69 | the result is one of the two folders or the fallback; `Downloads` wins; the directory is created iff neither exists and `makedirs` works; a `makedirs` error gives the fallback |
| Downloader.FormatsAnswer | downloader.py:80-122 | the answer never has a key outside the five labels |
| Downloader.GetAvailableFormats | downloader.py:80-122 | returns the filter's map on a clean run, `{}` on every error, and logs the fetch line plus the branch's lines |
| Downloader.FormatsAnswerFacts | downloader.py:109-122 | at most 5 entries; a failed or non-zero run gives `{}`; a non-empty answer is the filter of the decoded records; some line always explains the outcome |
| Downloader.ReadOutput | downloader.py:143-168 | the read loop leaves the sink as the classifier fold over the lines says |
| Downloader.RunWithProgress | downloader.py:124-176 | prepends ffmpeg's directory to `PATH`, logs, folds the classifier over the output, and returns the exit code or 1 after an exception |
| Downloader.RunCodeSuccess | downloader.py:170-176 | code 0 means the child exited with 0; any exception gives 1 |
| Downloader.SearchAgain | downloader.py:127 | the second ffmpeg search inside `run_with_progress` changes no executable bit |
| Downloader.Download | downloader.py:178-309 | the reply and the whole sink history of a download, in the code's order; executable bits as after `ensure_ffmpeg` |
| Downloader.Execute | downloader.py:191-239 | after the ffmpeg line, the job's log lines, the start message, the run and the verdict follow in that order, and the code is the run's |
| Downloader.DownloadVideo | downloader.py:178-248 | `download_video` is the video job of `Download` |
| Downloader.DownloadAudio | downloader.py:250-309 | `download_audio` is the audio job of `Download` |
| Downloader.ReplyOutcomes | downloader.py:180-241 | a reply starts with the tick iff ffmpeg was found, the URL is not blank and the code is 0; ffmpeg errors come before the URL check |
| Downloader.FailureReplyQuotesCode | downloader.py:240 | a failed download's reply contains the exit code |
| Downloader.EarlyExitsLogOnce | downloader.py:180-189 | without ffmpeg or with a blank URL, exactly one line is logged and the progress file is untouched |
| Downloader.DoneProgressVerdict | downloader.py:233-239 | the final progress message starts with `SUCCESS: ` iff the code is 0 |
| Downloader.FinalProgress | downloader.py:229-241 | after a download that ran, the progress file holds the verdict and the last log entry is the verdict's line |
| KivyDownloader.GetYtdlpPath | kivy_downloader.py:9-16 | the bundled path if it exists, else `binaries/yt-dlp` if it exists, else `yt-dlp` |
| KivyDownloader.YtdlpPathIsSearch | kivy_downloader.py:9-16 | the if/elif chain is the shared candidate search over two candidates with no `chmod` |
| KivyDownloader.GetDownloadDir | kivy_downloader.py:20-29 | `Download` if it exists, else `Downloads` unchecked, else the fallback on exception |
| KivyDownloader.DownloadDirInStorage | kivy_downloader.py:24-27 | the result is one of the two folders in storage, and `Download` is preferred |
| KivyDownloader.GetAvailableFormats | kivy_downloader.py:36-70 | returns the filter's map on a clean run, `{}` otherwise; logs only on failure |
| KivyDownloader.FormatsQuiet | kivy_downloader.py:64-70 | success is silent; each failure leaves exactly one line and `{}` |
| KivyDownloader.ReadOutput | kivy_downloader.py:89-109 | the read loop is the Kivy classifier fold over the lines |
| KivyDownloader.RunWithProgress | kivy_downloader.py:72-112 | folds the classifier over the output and returns the code; exceptions propagate as `Failure` |
| KivyDownloader.RunOutcomeCases | kivy_downloader.py:80-112 | an exception is never read as an exit code |
| KivyDownloader.Download | kivy_downloader.py:114-226 | reply and sink history of a Kivy download |
| KivyDownloader.DownloadVideo | kivy_downloader.py:114-173 | `download_video` is the video job of `Download` |
| KivyDownloader.DownloadAudio | kivy_downloader.py:175-226 | `download_audio` is the audio job of `Download` |
| KivyDownloader.EarlyExitsSilent | kivy_downloader.py:116-121 | without ffmpeg or with a blank URL, neither log nor progress changes |
| KivyDownloader.ReportedProgress | kivy_downloader.py:161-172 | the final progress message is the verdict, or the unexpected-error notice after an exception |
| KivyDownloader.FinalProgress | kivy_downloader.py:156-172 | after a download that ran, the progress file holds the verdict or the error notice |
| KivyDownloader.ReplyOutcomes | kivy_downloader.py:116-173 | the order is: no ffmpeg, then blank URL, then exception, then exit code; code 0 gives the `complete! Saved to` reply |
| Commands.HeightFor | downloader.py:194-202 | the height is always one of the five table values |
| Commands.HeightDefault | downloader.py:202 | no selection, an empty one or an unknown label gives `1080` |
| Commands.SelectorTiers | downloader.py:210 | the desktop selector has four `/`-separated tiers, the Kivy one three (kivy_downloader.py:138) |
| Commands.DesktopTiers | downloader.py:210 | the four desktop tiers, each capped at the height |
| Commands.KivyTiers | kivy_downloader.py:138 | the three Kivy tiers, each capped at the height |
| Commands.UrlLast | downloader.py:208-227 | all four commands start with the tool path and end with the URL (also 268-288, kivy_downloader.py:136-154, 188-207) |
| Commands.DesktopVideoOptions | downloader.py:209-215 | in the video command, `-f`, `-o`, `--ffmpeg-location` and `--referer` carry the selector, the output template, ffmpeg's directory and the URL |
| Commands.DesktopAudioOptions | downloader.py:269-277 | in the desktop audio command, `-f` is `bestaudio/best`, `-o` the `%(title)s.%(ext)s` template, `--ffmpeg-location` ffmpeg's directory and `--referer` the URL |
| Commands.KivyVideoOptions | kivy_downloader.py:137-143 | in the Kivy video command, `-f` is the three-tier Kivy selector, `-o` the `%(title)s.mp4` template, `--ffmpeg-location` ffmpeg's directory and `--referer` the URL |
| Commands.KivyAudioOptions | kivy_downloader.py:189-197 | in the Kivy audio command, `-f` is `bestaudio/best`, `-o` the `%(title)s.mp3` template, `--ffmpeg-location` ffmpeg's directory and `--referer` the URL |
| Commands.Switches | downloader.py:212-224 | only video has `--merge-output-format` and `--http-chunk-size`; only audio has `--extract-audio`; the Kivy commands lack `--no-check-certificates` (downloader.py:272, kivy_downloader.py:140-151) |
| Formats.FilterFormats | downloader.py:102-107 | the in-place loop computes the filter and the result satisfies its description |
| Formats.FilterCorrect | downloader.py:102-107 | a label is a key iff it is a target label with a qualifying record; the entry is the first such record's id and fps (fps 0 by default) |
| Formats.FilterEntry | downloader.py:103-107 | the pointwise statement of the filter's description |
| Formats.FilterFailure | downloader.py:107 | the filter fails only with the missing-`format_id` error of a first-seen qualifying record |
| Formats.FilterBounded | downloader.py:94-107 | keys are within the five labels, so at most 5 entries |
| Formats.FirstSeenWins | downloader.py:106-107 | records appended later never replace an existing entry |
| Formats.FilterAbort | downloader.py:107 | once the loop raises, later records do not matter |
| Formats.FirstWhere | downloader.py:102-106 | the index found is the first one satisfying the predicate |
| Progress.PercentTokenCorrect | downloader.py:151-153 | the token is the leftmost match of `(\d+\.?\d*)%`, and there is none iff the line has no match |
| Progress.SearchFromCorrect | downloader.py:151 | the regex search from a position returns the leftmost match from there |
| Progress.SearchSkips | downloader.py:151 | the regex search passes over positions that hold no digit |
| Progress.MatchEndSound | downloader.py:151 | a match ending found at a position really is a match |
| Progress.MatchEndComplete | downloader.py:151 | a match starting at a position is the one found |
| Progress.DownloadLinesStayInBranch | downloader.py:149-157 | a `[download]` line writes `prefix: P%` with a token, `prefix: line` with `ETA`, else nothing and is not logged |
| Progress.OtherLinesByPriority | downloader.py:158-168 | other lines are always logged, and merge, Extracting and Destination are tried in that order |
| Progress.SilentLines | downloader.py:149-168 | a line is unlogged iff it is a `[download]` line with neither token nor `ETA`; every write is logged |
| Progress.KivyNeverPreparing | kivy_downloader.py:102-109 | the Kivy classifier never writes `Preparing download...` |
| Progress.RunLinesProgress | downloader.py:143-168 | after the loop the progress file holds the last line's write, or is unchanged when no line writes |
| Progress.RunLinesLog | downloader.py:143-168 | the log grows by exactly the logged lines, in order, one tick each |
| Progress.RunLinesKeepsLog | downloader.py:143-168 | the loop never removes or rewrites earlier log text |
| Progress.PercentExample | downloader.py:150-155 | a concrete `[download]  42.5% of 10MiB` line writes `VIDEO: 42.5%` and is logged |
| Progress.FinishedExample | downloader.py:143-168 | a concrete run ending at 100% leaves `VIDEO: 100%` in the progress file |
| Progress.ChildEnv | downloader.py:128-131 | with ffmpeg found, `PATH` becomes `dirname(ffmpeg) + ':' + old PATH` and nothing else changes |
| Paths.DirnameOfJoin | downloader.py:207 | `dirname(join(d, name)) == d` for a plain directory and name |
| Text.Strip | downloader.py:146 | `strip()` result has no whitespace at the ends and is empty iff the input is all whitespace |
| Text.StripIdempotent | downloader.py:146 | stripping twice is stripping once |
| Text.ContainsAt | downloader.py:149 | Python's `in` holds iff the substring occurs at some index |
| Debug.Sink.Log | debug.py:46-54 | appends exactly one entry `[ts] msg\n` |
| Debug.Sink.WriteProgress | debug.py:61-68 | overwrites the progress file, or on a write fault logs the error and keeps the old content |
| Debug.Sink.GetProgress | debug.py:70-80 | never empty; the sentinel for a missing file or one that strips to nothing, otherwise the stripped content |
| Debug.Sink.ClearProgress | debug.py:82-90 | removes the file and logs that it did; a no-op when absent |
| Debug.Sink.GetLogContent | debug.py:92-101 | the last n lines of the log (none for n ≤ 0), all of them when fewer, or the no-log notice |
| Debug.Sink.ClearLogs | debug.py:103-113 | removes both files, logs `All logs cleared` and returns true |
| Journal.ReadAfterWrite | debug.py:61-77 | after a write, the read is the stripped message, or the sentinel in debug.py when it strips to nothing; the last write wins |
| Journal.WriteAndLog | debug.py:61-68 | a successful write touches only the progress file; a failed one logs one entry in debug.py and nothing in kivy_debug.py |
| Journal.ClearProgressFacts | debug.py:82-87 | after clearing, the read is the sentinel; clearing is idempotent; kivy_debug.py never logs it |
| Journal.LogAppendsOneLine | debug.py:46-54 | logging adds one line at the end and leaves earlier lines unchanged |
| Journal.ClearLogsFacts | debug.py:103-110 | afterwards the log is exactly the one `All logs cleared` entry and the progress read is the sentinel |
| Journal.LogContentTail | debug.py:92-99 | the tail is whole lines from the end, and asking for at least all lines returns the whole log as read |
| Journal.SplitConcat | debug.py:97-98 | joining the lines `readlines` gives restores the text |
| Journal.TailAsWrittenZero | debug.py:98 | as written, `lines[-0:]` returns the whole non-empty log where the last 0 lines are empty |
| Journal.TailAsWrittenNegative | debug.py:98 | as written, `lines[-n:]` with a negative count drops the first -n lines and returns the rest, where the last n lines are none |
| Journal.TailAgreesForPositive | debug.py:98 | for positive n the slice as written and the corrected tail agree |
| Journal.LastLines | debug.py:92-98 | the corrected tail has min(n, count) lines, none for n ≤ 0, taken from the end |
| KivyDebug.Sink.Log | kivy_debug.py:14-21 | appends exactly one entry `[ts] msg\n` |
| KivyDebug.Sink.WriteProgress | kivy_debug.py:23-29 | overwrites the progress file; a write fault changes nothing |
| KivyDebug.Sink.GetProgress | kivy_debug.py:31-39 | the stripped content even when empty; the sentinel only for a missing file |
| KivyDebug.Sink.ClearProgress | kivy_debug.py:41-47 | removes the file, never logs; a no-op when absent |

## Left out

- Process spawning, stream reading, `process.wait` and the 30-second timeout are abstract, supplied as the `Spawner` and `Fetcher` parameters. Likewise `json.loads`: the format records arrive decoded.
- Exception texts are supplied as strings: `str(CalledProcessError)`, the timeout's text and tracebacks. Python's formatting of them is not modelled.
- `print` output is not modelled. Nor are the console messages in the ffmpeg and logging code.
- Timestamps come from an abstract clock, one tick per log entry. `datetime.now` is not modelled.
- `os.environ` is a parameter, `os.path.expanduser` is the given home directory, and the Android storage calls are parameters (an `Option` or `Result` whose failure stands for the exception).
- Module-import side effects are not modelled: the log banner and start-up lines (debug.py:26-44, 116-118), `makedirs(APP_DIR)` and the module-level `YTDLP_PATH`, `DOWNLOAD_DIR` and `APP_DIR`. These are parameters instead, and debug.py:12-21's `get_app_dir` is not a separate member.
- Failures of the log write itself, and of reading the progress file, the log file or removing files, are not modelled: every `log` is taken to succeed. So `Debug.Sink.ClearProgress`, `Debug.Sink.ClearLogs` and `Debug.Sink.GetLogContent` never take their `except` paths, and `ClearLogs` always returns true.
- A JSON `null` as `format_id` is not modelled (`Formats.FormatRecord`): the code would store `None` as the id, while the model reads `None` only as the missing key that raises `KeyError`.
- Debug.Sink.GetLogContent: returns the corrected tail, so for every n ≤ 0 it gives the empty string where the code as written gives the whole log (n = 0) or the log without its first -n lines (n < 0); see "## Findings". The default argument `lines=50` is not modelled: the count is always passed explicitly.
- `Debug.Sink.WriteProgress` and `KivyDebug.Sink.WriteProgress`: a write failure is one fixed fault per sink (`writeFault`), not a per-call event.
- Downloader.Download: the outer `except` of `download_video`/`download_audio` is not modelled. `run_with_progress` catches everything itself, and every other call in the `try` block is taken not to raise.
- The regex `\d` is taken as ASCII digits. Python also matches other Unicode decimal digits.
- Format records: `width` and `height` are integers (the `f"{w}x{h}"` text of floats is not modelled), and `format_id` is a string or missing. A record that is not a dictionary is part of the decode failure.
- `Text.Lower` lower-cases ASCII letters only. No other character lower-cases to a letter of `merge`, so the merge test is unaffected.
- `test_ffmpeg` (ffmpeg.py:85-103) and the `__main__` block are not part of this model. They only spawn the binary and print.
- main.py, kivy_main.py and binary_installer.py are not part of this model (GUI, threads and installer plumbing).
- The `chmod` mode bits are not modelled: a successful `chmod` just makes the path executable.

## Findings

| source | as written | input that shows it | evidently intended | confidence | as-written member | corrected member |
|---|---|---|---|---|---|---|
| debug.py:98 | `''.join(all_lines[-lines:])` with `lines <= 0` takes `all_lines[-0:]`, the whole list, for 0, and `all_lines[k:]`, the log without its first k lines, for `lines = -k` | `get_log_content(0)` on a log with at least one line returns the whole log; `get_log_content(-1)` on a two-line log returns its second line | the last 0 lines (none for a negative count), i.e. the empty string | not executed | Journal.TailAsWritten (Journal.TailAsWrittenZero, Journal.TailAsWrittenNegative) | Journal.LastLines (Journal.LogContentTail, used by Debug.Sink.GetLogContent) |

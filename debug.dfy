/** debug.py: the progress file and the debug log as one object. */
module Debug {
  import opened Wrappers
  import opened Text
  import opened Journal

  class Sink {
    /** Contents of `progress.txt`, `None` when the file does not exist. */
    var progress: Option<string>
    /** Contents of `download.log`, `None` when the file does not exist. */
    var log: Option<string>
    /** Number of `log` calls so far; the n-th entry is stamped `clock(n)`. */
    var ticks: nat
    const clock: Clock
    /** `Some(e)`: opening `progress.txt` for writing raises with text `e`. */
    const writeFault: Option<string>

    function State(): SinkState
      reads this
    {
      SinkState(progress, log, ticks)
    }

    /** The sink over the files as they are when the engine starts. */
    constructor (clock: Clock, writeFault: Option<string>, progress: Option<string>, log: Option<string>)
      ensures State() == SinkState(progress, log, 0)
      ensures this.clock == clock && this.writeFault == writeFault
    {
      this.clock := clock;
      this.writeFault := writeFault;
      this.progress := progress;
      this.log := log;
      this.ticks := 0;
    }

    /** `log(message)`. */
    method Log(msg: string)
      modifies this
      ensures State() == Logged(old(State()), clock, msg)
    {
      log := Some(log.GetOr("") + Entry(clock(ticks), msg));
      ticks := ticks + 1;
    }

    /** `write_progress(message)`. */
    method WriteProgress(msg: string)
      modifies this
      ensures State() == Written(Desktop, old(State()), clock, writeFault, msg)
    {
      if writeFault.None? {
        progress := Some(msg);
      } else {
        Log("Progress write error: " + writeFault.value);
      }
    }

    /** `get_progress()`: never empty; the sentinel unless the file holds
        something other than whitespace, and then that content stripped. */
    function GetProgress(): (r: string)
      reads this
      ensures r != ""
      ensures progress.None? ==> r == Waiting
      ensures r != Waiting ==> progress.Some? && r == Strip(ReadBack(progress.value))
      ensures progress.Some? && !AllSpace(ReadBack(progress.value)) ==> r == Strip(ReadBack(progress.value))
    {
      ProgressText(Desktop, progress)
    }

    /** `clear_progress()`. */
    method ClearProgress()
      modifies this
      ensures State() == ProgressCleared(Desktop, old(State()), clock)
    {
      if progress.Some? {
        progress := None;
        Log("Progress file cleared");
      }
    }

    /** `get_log_content(lines)`: the last `n` lines of the log, all of them
        when it has fewer, or a notice when there is no log file. */
    function GetLogContent(n: int): (r: string)
      reads this
      ensures log.None? ==> r == NoLogFile
      ensures log.Some? ==> r == Concat(Lines(log)[|Lines(log)| - |LastLines(Lines(log), n)|..])
      ensures log.Some? && n >= |Lines(log)| ==> r == ReadBack(log.value)
    {
      if log.Some? then LogContentTail(log.value, n); LogContent(log, n) else NoLogFile
    }

    /** `clear_logs()`: removes both files, then logs that it did. */
    method ClearLogs() returns (ok: bool)
      modifies this
      ensures ok
      ensures State() == LogsCleared(old(State()), clock)
    {
      log := None;
      progress := None;
      Log("All logs cleared");
      ok := true;
    }
  }
}

/** kivy_debug.py: the older sink, without the log tail and log clearing. */
module KivyDebug {
  import opened Wrappers
  import opened Text
  import opened Journal

  class Sink {
    /** Contents of `progress.txt`, `None` when the file does not exist. */
    var progress: Option<string>
    /** Contents of `download.log`, `None` when the file does not exist. */
    var log: Option<string>
    /** Number of `log` calls so far; the n-th entry is stamped `clock(n)`. */
    var ticks: nat
    const clock: Clock
    /** `Some(e)`: opening `progress.txt` for writing raises with text `e`. */
    const writeFault: Option<string>

    function State(): SinkState
      reads this
    {
      SinkState(progress, log, ticks)
    }

    constructor (clock: Clock, writeFault: Option<string>, progress: Option<string>, log: Option<string>)
      ensures State() == SinkState(progress, log, 0)
      ensures this.clock == clock && this.writeFault == writeFault
    {
      this.clock := clock;
      this.writeFault := writeFault;
      this.progress := progress;
      this.log := log;
      this.ticks := 0;
    }

    /** `log(message)`. */
    method Log(msg: string)
      modifies this
      ensures State() == Logged(old(State()), clock, msg)
    {
      log := Some(log.GetOr("") + Entry(clock(ticks), msg));
      ticks := ticks + 1;
    }

    /** `write_progress(message)`: a failed write is only printed. */
    method WriteProgress(msg: string)
      modifies this
      ensures State() == Written(Kivy, old(State()), clock, writeFault, msg)
    {
      if writeFault.None? {
        progress := Some(msg);
      }
    }

    /** `get_progress()`: the file's stripped content, even when that is
        empty; the sentinel only when the file is missing. */
    function GetProgress(): (r: string)
      reads this
      ensures progress.None? ==> r == Waiting
      ensures progress.Some? ==> r == Strip(ReadBack(progress.value))
      ensures progress.Some? && AllSpace(ReadBack(progress.value)) ==> r == ""
    {
      ProgressText(Kivy, progress)
    }

    /** `clear_progress()`: removes the file if present, and logs nothing. */
    method ClearProgress()
      modifies this
      ensures State() == ProgressCleared(Kivy, old(State()), clock)
    {
      if progress.Some? {
        progress := None;
      }
    }
  }
}

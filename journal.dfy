/** The state behind the progress sink and the debug log, shared by
    debug.py and kivy_debug.py, and the effect of each of their operations
    on it. Both files keep two text files in the app directory:
    `progress.txt`, overwritten on every write, and `download.log`,
    appended to one timestamped entry at a time. */
module Journal {
  import opened Wrappers
  import opened Text

  /** Which of the two sink modules: debug.py or kivy_debug.py. */
  datatype Flavor = Desktop | Kivy

  /** `progress` and `log` hold the contents of the two files (`None`: the
      file does not exist); `ticks` counts the `log` calls made so far and
      picks each entry's timestamp from the clock. */
  datatype SinkState = SinkState(progress: Option<string>, log: Option<string>, ticks: nat)

  /** The wall clock, `datetime.now().strftime(...)` at the n-th `log` call. */
  type Clock = nat -> string

  const Waiting := "Waiting..."
  const NoLogFile := "No log file found"

  /** One line of `download.log`: `"[ts] message\n"`. */
  function Entry(ts: string, msg: string): string {
    "[" + ts + "] " + msg + "\n"
  }

  /** `log(msg)`: one entry appended, the file created if absent. */
  function Logged(s: SinkState, clock: Clock, msg: string): SinkState {
    SinkState(s.progress, Some(s.log.GetOr("") + Entry(clock(s.ticks), msg)), s.ticks + 1)
  }

  /** `write_progress(msg)`. With `fault == Some(e)` opening the file raises
      with text `e`: debug.py then logs the error, kivy_debug.py only prints it. */
  function Written(flavor: Flavor, s: SinkState, clock: Clock, fault: Option<string>, msg: string): SinkState {
    if fault.None? then s.(progress := Some(msg))
    else if flavor == Desktop then Logged(s, clock, "Progress write error: " + fault.value)
    else s
  }

  /** `get_progress()`: the stripped file content; a missing file reads as
      the sentinel, and in debug.py so does one that strips to nothing. */
  function ProgressText(flavor: Flavor, progress: Option<string>): string {
    match progress
    case None => Waiting
    case Some(c) =>
      var t := Strip(ReadBack(c));
      if flavor == Desktop && t == "" then Waiting else t
  }

  /** `clear_progress()`: removes the file if present; debug.py logs that it did. */
  function ProgressCleared(flavor: Flavor, s: SinkState, clock: Clock): SinkState {
    if s.progress.None? then s
    else if flavor == Desktop then Logged(s.(progress := None), clock, "Progress file cleared")
    else s.(progress := None)
  }

  /** `clear_logs()` of debug.py: both files removed, then one entry logged. */
  function LogsCleared(s: SinkState, clock: Clock): SinkState {
    Logged(SinkState(None, None, s.ticks), clock, "All logs cleared")
  }

  /** A log file made of whole entries: empty or ending in a newline. */
  predicate LogWellFormed(log: Option<string>) {
    log.Some? ==> log.value == "" || log.value[|log.value| - 1] == '\n'
  }

  /** Text-mode reading (universal newlines): `"\r\n"` and a lone `"\r"`
      read back as `"\n"`. */
  function ReadBack(t: string): string
    decreases |t|
  {
    if t == [] then []
    else [if t[0] == '\r' then '\n' else t[0]] + ReadBack(t[Unit(t)..])
  }

  /** How many characters the first character read back consumes: two for
      `"\r\n"`, otherwise one. */
  function Unit(t: string): (n: nat)
    requires t != []
    ensures 1 <= n <= |t|
  {
    if |t| > 1 && t[0] == '\r' && t[1] == '\n' then 2 else 1
  }

  /** Length of the first line of a non-empty text, newline included. */
  function FirstLineLength(t: string): (k: nat)
    requires t != []
    ensures 0 < k <= |t|
    ensures t[k - 1] == '\n' || k == |t|
  {
    if t[0] == '\n' || |t| == 1 then 1 else 1 + FirstLineLength(t[1..])
  }

  lemma {:induction false} FirstLineWhole(t: string)
    requires t != [] && forall i :: 0 <= i < |t| - 1 ==> t[i] != '\n'
    ensures FirstLineLength(t) == |t|
    decreases |t|
  {
    if |t| > 1 {
      assert t[0] != '\n';
      FirstLineWhole(t[1..]);
    }
  }

  /** `f.readlines()`: the text cut after every newline. */
  function SplitLines(t: string): seq<string>
    decreases |t|
  {
    if t == [] then [] else
      var k := FirstLineLength(t);
      [t[..k]] + SplitLines(t[k..])
  }

  /** `''.join(lines)`. */
  function Concat(ls: seq<string>): string {
    if ls == [] then "" else ls[0] + Concat(ls[1..])
  }

  /** The lines a reader of the log file sees. */
  function Lines(log: Option<string>): seq<string> {
    SplitLines(ReadBack(log.GetOr("")))
  }

  /** The last `n` lines, none for `n <= 0`: what "the last N lines" means
      (the list slice `lines[-n:]` that debug.py writes gives more; see
      `TailAsWritten`). */
  function LastLines(ls: seq<string>, n: int): (r: seq<string>)
    ensures |r| == if n <= 0 then 0 else if n < |ls| then n else |ls|
    ensures r == ls[|ls| - |r|..]
  {
    if n <= 0 then [] else if n < |ls| then ls[|ls| - n..] else ls
  }

  /** Python's `lines[-n:]`, the slice debug.py's `get_log_content` takes. */
  function TailAsWritten(ls: seq<string>, n: int): seq<string> {
    if n > 0 then (if n < |ls| then ls[|ls| - n..] else ls)
    else if n == 0 then ls
    else if -n < |ls| then ls[-n..] else []
  }

  /** `get_log_content(n)` of debug.py with the tail taken as intended. */
  function LogContent(log: Option<string>, n: int): string {
    match log
    case None => NoLogFile
    case Some(_) => Concat(LastLines(Lines(log), n))
  }

  // ---------------------------------------------------------------------
  // Reading back what was written

  lemma {:induction false} ReadBackPlain(m: string)
    requires forall k :: 0 <= k < |m| ==> m[k] != '\r'
    ensures ReadBack(m) == m
    decreases |m|
  {
    if m != [] {
      ReadBackPlain(m[1..]);
      assert m == [m[0]] + m[1..];
    }
  }

  lemma {:induction false} ReadBackAppend(a: string, b: string)
    requires a == [] || a[|a| - 1] != '\r'
    ensures ReadBack(a + b) == ReadBack(a) + ReadBack(b)
    decreases |a|
  {
    if a == [] {
      assert a + b == b;
    } else {
      var n := Unit(a);
      var rest := a[n..];
      assert Unit(a + b) == n && (a + b)[0] == a[0] && (a + b)[n..] == rest + b;
      assert rest == [] || rest[|rest| - 1] != '\r';
      ReadBackAppend(rest, b);
    }
  }

  /** After a successful `write_progress(m)` the reader gets `m` stripped; in
      debug.py a message that strips to nothing reads as the sentinel, in
      kivy_debug.py as the empty string. The last write wins: whatever the
      file held before is gone. */
  lemma ReadAfterWrite(flavor: Flavor, s: SinkState, clock: Clock, m: string)
    requires forall k :: 0 <= k < |m| ==> m[k] != '\r'
    ensures ProgressText(flavor, Written(flavor, s, clock, None, m).progress)
            == if flavor == Desktop && AllSpace(m) then Waiting else Strip(m)
  {
    ReadBackPlain(m);
  }

  /** A successful write touches only the progress file; a failed one keeps
      the old progress and, in debug.py only, adds exactly one log entry. */
  lemma WriteAndLog(flavor: Flavor, s: SinkState, clock: Clock, fault: Option<string>, m: string)
    ensures fault.None? ==> Written(flavor, s, clock, fault, m) == s.(progress := Some(m))
    ensures fault.Some? ==> Written(flavor, s, clock, fault, m).progress == s.progress
    ensures fault.Some? && flavor == Desktop ==>
              Written(flavor, s, clock, fault, m).log
              == Some(s.log.GetOr("") + Entry(clock(s.ticks), "Progress write error: " + fault.value))
    ensures fault.Some? && flavor == Kivy ==> Written(flavor, s, clock, fault, m) == s
  {
  }

  /** After `clear_progress` the reader sees the sentinel; clearing twice is
      clearing once; kivy_debug.py never logs it. */
  lemma ClearProgressFacts(flavor: Flavor, s: SinkState, clock: Clock)
    ensures ProgressText(flavor, ProgressCleared(flavor, s, clock).progress) == Waiting
    ensures ProgressCleared(flavor, ProgressCleared(flavor, s, clock), clock) == ProgressCleared(flavor, s, clock)
    ensures flavor == Kivy ==> ProgressCleared(flavor, s, clock).log == s.log
    ensures s.progress.None? ==> ProgressCleared(flavor, s, clock) == s
  {
  }

  // ---------------------------------------------------------------------
  // Lines of the log file

  lemma {:induction false} SplitConcat(t: string)
    ensures Concat(SplitLines(t)) == t
    decreases |t|
  {
    if t != [] {
      var k := FirstLineLength(t);
      SplitConcat(t[k..]);
      assert t == t[..k] + t[k..];
    }
  }

  lemma {:induction false} SplitLinesAppend(a: string, b: string)
    requires a == [] || a[|a| - 1] == '\n'
    ensures SplitLines(a + b) == SplitLines(a) + SplitLines(b)
    decreases |a|
  {
    if a == [] {
      assert a + b == b;
    } else {
      var k := FirstLineLength(a);
      var line, rest := a[..k], a[k..];
      assert line != [] && FirstLineLength(line + rest) == |line|
             && FirstLineLength(line + (rest + b)) == |line| by {
        assert a == line + rest;
        assert a + b == line + (rest + b);
        FirstLineSame(a, b);
      }
      assert rest == [] || rest[|rest| - 1] == '\n';
      SplitLinesAppend(rest, b);
      SplitConsAppend(line, rest, b);
      assert SplitLines(a) == SplitLines(line + rest) by {
        assert a == line + rest;
      }
      assert SplitLines(a + b) == SplitLines(line + (rest + b)) by {
        assert a + b == line + (rest + b);
      }
    }
  }

  /** The inductive step of `SplitLinesAppend`, with the first line named. */
  lemma SplitConsAppend(line: string, rest: string, b: string)
    requires line != []
    requires FirstLineLength(line + rest) == |line| && FirstLineLength(line + (rest + b)) == |line|
    requires SplitLines(rest + b) == SplitLines(rest) + SplitLines(b)
    ensures SplitLines(line + (rest + b)) == SplitLines(line + rest) + SplitLines(b)
  {
    SplitStep(line + (rest + b), line, rest + b);
    SplitStep(line + rest, line, rest);
    ConsAssoc(line, SplitLines(rest), SplitLines(b));
  }

  lemma ConsAssoc(x: string, ys: seq<string>, zs: seq<string>)
    ensures [x] + (ys + zs) == ([x] + ys) + zs
  {
  }

  /** One step of `readlines`, with the first line and the rest named. */
  lemma SplitStep(t: string, line: string, rest: string)
    requires t != [] && FirstLineLength(t) == |line| && t == line + rest
    ensures SplitLines(t) == [line] + SplitLines(rest)
  {
    assert t[..|line|] == line && t[|line|..] == rest;
  }

  lemma {:induction false} FirstLineSame(a: string, b: string)
    requires a != [] && a[|a| - 1] == '\n'
    ensures FirstLineLength(a + b) == FirstLineLength(a)
    decreases |a|
  {
    if a[0] != '\n' {
      assert |a| > 1;
      assert (a + b)[1..] == a[1..] + b;
      FirstLineSame(a[1..], b);
    }
  }

  predicate NoLineBreak(s: string) {
    forall k :: 0 <= k < |s| ==> s[k] != '\n' && s[k] != '\r'
  }

  /** A single entry is a single line. */
  lemma SingleLine(ts: string, msg: string)
    requires NoLineBreak(ts) && NoLineBreak(msg)
    ensures SplitLines(Entry(ts, msg)) == [Entry(ts, msg)]
    ensures ReadBack(Entry(ts, msg)) == Entry(ts, msg)
  {
    var e := Entry(ts, msg);
    assert forall k :: 0 <= k < |e| - 1 ==> e[k] != '\n' && e[k] != '\r';
    ReadBackPlain(e);
    FirstLineWhole(e);
    assert e[..|e|] == e;
    assert e[|e|..] == [];
  }

  /** `log(msg)` adds exactly one line at the end of the log and leaves the
      earlier lines as they were. */
  lemma LogAppendsOneLine(s: SinkState, clock: Clock, msg: string)
    requires LogWellFormed(s.log)
    requires NoLineBreak(clock(s.ticks)) && NoLineBreak(msg)
    ensures Lines(Logged(s, clock, msg).log) == Lines(s.log) + [Entry(clock(s.ticks), msg)]
    ensures LogWellFormed(Logged(s, clock, msg).log)
  {
    var old_ := s.log.GetOr("");
    var e := Entry(clock(s.ticks), msg);
    ReadBackAppend(old_, e);
    SingleLine(clock(s.ticks), msg);
    var r := ReadBack(old_);
    assert r == [] || r[|r| - 1] == '\n' by { ReadBackLast(old_); }
    SplitLinesAppend(r, e);
  }

  lemma {:induction false} ReadBackLast(t: string)
    requires t == [] || t[|t| - 1] == '\n'
    ensures ReadBack(t) == [] || ReadBack(t)[|ReadBack(t)| - 1] == '\n'
    decreases |t|
  {
    if t != [] {
      if t[0] == '\r' {
        if |t| > 1 && t[1] == '\n' {
          if |t| > 2 { ReadBackLast(t[2..]); }
        } else {
          ReadBackLast(t[1..]);
        }
      } else {
        if |t| > 1 {
          ReadBackLast(t[1..]);
        }
      }
    }
  }

  /** `clear_logs()` leaves a log of exactly one line, "All logs cleared",
      and a progress reader sees the sentinel. */
  lemma ClearLogsFacts(s: SinkState, clock: Clock)
    requires NoLineBreak(clock(s.ticks))
    ensures Lines(LogsCleared(s, clock).log) == [Entry(clock(s.ticks), "All logs cleared")]
    ensures ProgressText(Desktop, LogsCleared(s, clock).progress) == Waiting
  {
    var e := Entry(clock(s.ticks), "All logs cleared");
    assert "" + e == e;
    SingleLine(clock(s.ticks), "All logs cleared");
  }

  /** The log tail is made of whole lines from the end of the log, and asking
      for at least as many lines as there are gives back the whole text as
      read. */
  lemma LogContentTail(t: string, n: int)
    ensures var ls := Lines(Some(t));
            LogContent(Some(t), n) == Concat(ls[|ls| - |LastLines(ls, n)|..])
    ensures n >= |Lines(Some(t))| ==> LogContent(Some(t), n) == ReadBack(t)
  {
    SplitConcat(ReadBack(t));
  }

  /** What debug.py's slice does with zero: `lines[-0:]` is the whole list, so
      asking for the last 0 lines of a non-empty log returns all of it. */
  lemma TailAsWrittenZero(ls: seq<string>)
    requires ls != []
    ensures TailAsWritten(ls, 0) == ls
    ensures |TailAsWritten(ls, 0)| > 0 == |LastLines(ls, 0)|
  {
  }

  /** What debug.py's slice does with a negative count: `lines[-n:]` with
      `n == -k` drops the first `k` lines and keeps the rest, where the last
      `n` lines are none. */
  lemma TailAsWrittenNegative(ls: seq<string>, n: int)
    requires 0 < -n < |ls|
    ensures TailAsWritten(ls, n) == ls[-n..]
    ensures |TailAsWritten(ls, n)| > 0 == |LastLines(ls, n)|
  {
  }

  /** For a positive count the slice and the intended tail agree. */
  lemma TailAgreesForPositive(ls: seq<string>, n: int)
    requires n > 0
    ensures TailAsWritten(ls, n) == LastLines(ls, n)
  {
  }

  /** Several log calls in a row. */
  function LoggedAll(s: SinkState, clock: Clock, msgs: seq<string>): SinkState {
    if msgs == [] then s else Logged(LoggedAll(s, clock, msgs[..|msgs| - 1]), clock, msgs[|msgs| - 1])
  }

  lemma LoggedPair(s: SinkState, clock: Clock, a: string, b: string)
    ensures LoggedAll(s, clock, [a, b]) == Logged(Logged(s, clock, a), clock, b)
  {
    assert [a, b][..1] == [a];
    LoggedSingle(s, clock, a);
    assert LoggedAll(s, clock, [a, b]) == Logged(LoggedAll(s, clock, [a]), clock, b);
  }

  lemma LoggedSingle(s: SinkState, clock: Clock, a: string)
    ensures LoggedAll(s, clock, [a]) == Logged(s, clock, a)
  {
    assert [a][..0] == [];
  }

  lemma LoggedTriple(s: SinkState, clock: Clock, a: string, b: string, c: string)
    ensures LoggedAll(s, clock, [a, b, c]) == Logged(Logged(Logged(s, clock, a), clock, b), clock, c)
  {
    assert [a, b, c][..2] == [a, b];
    LoggedPair(s, clock, a, b);
  }
}

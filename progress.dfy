/** The pure part of `run_with_progress` in downloader.py and
    kivy_downloader.py: how one output line of the download tool is
    classified, and what a whole run's output does to the sink. */
module Progress {
  import opened Wrappers
  import opened Text
  import opened Paths
  import opened Journal
  import Formats

  // ---------------------------------------------------------------------
  // The percent token: leftmost match of the pattern (\d+\.?\d*)%

  predicate IsDigit(c: char) {
    '0' <= c <= '9'
  }

  /** Every position in `[a, b)` of `s` holds a digit. */
  predicate DigitsIn(s: string, a: int, b: int)
    requires 0 <= a <= b <= |s|
  {
    forall m :: a <= m < b ==> IsDigit(s[m])
  }

  /** `s[i..j]` is text the group `\d+\.?\d*` matches in full: digits, then
      optionally a dot and more digits. */
  predicate NumeralAt(s: string, i: int, j: int)
    requires 0 <= i <= j <= |s|
  {
    exists p :: i < p <= j && DigitsIn(s, i, p) && (p == j || (s[p] == '.' && DigitsIn(s, p + 1, j)))
  }

  /** The pattern matches at `i` with the group ending at `j` (the `%` is at `j`). */
  predicate PercentMatch(s: string, i: int, j: int) {
    0 <= i < j < |s| && NumeralAt(s, i, j) && s[j] == '%'
  }

  /** End of the run of digits starting at `i`. */
  function DigitRun(s: string, i: nat): (j: nat)
    requires i <= |s|
    ensures i <= j <= |s|
    ensures DigitsIn(s, i, j)
    ensures j < |s| ==> !IsDigit(s[j])
    decreases |s| - i
  {
    if i == |s| || !IsDigit(s[i]) then i else DigitRun(s, i + 1)
  }

  /** A maximal run of digits is the one `DigitRun` finds. */
  lemma DigitRunUnique(s: string, i: nat, k: nat)
    requires i <= k <= |s| && DigitsIn(s, i, k)
    requires k == |s| || !IsDigit(s[k])
    ensures DigitRun(s, i) == k
  {
  }

  /** Where the group ends when the regex engine tries position `i`
      (greedy `\d+`, optional dot, greedy `\d*`, then `%`). */
  function MatchEnd(s: string, i: nat): (r: Option<nat>)
    requires i <= |s|
    ensures r.Some? ==> i < r.value < |s|
  {
    if i == |s| || !IsDigit(s[i]) then None
    else
      var e1 := DigitRun(s, i);
      if e1 < |s| && s[e1] == '%' then Some(e1)
      else if e1 < |s| && s[e1] == '.' then
        var e2 := DigitRun(s, e1 + 1);
        if e2 < |s| && s[e2] == '%' then Some(e2) else None
      else None
  }

  /** `re.search` from position `i` on: the first position where a match starts. */
  function SearchFrom(s: string, i: nat): (r: Option<(nat, nat)>)
    requires i <= |s|
    ensures r.Some? ==> i <= r.value.0 < r.value.1 < |s|
    decreases |s| - i
  {
    if i == |s| then None
    else match MatchEnd(s, i)
      case Some(j) => Some((i, j))
      case None => SearchFrom(s, i + 1)
  }

  /** `match.group(1)` of `re.search(r'(\d+\.?\d*)%', line)`, or `None`. */
  function PercentToken(s: string): Option<string> {
    match SearchFrom(s, 0)
    case None => None
    case Some((i, j)) => Some(s[i..j])
  }

  lemma MatchEndSound(s: string, i: nat)
    requires i <= |s|
    ensures MatchEnd(s, i).Some? ==> PercentMatch(s, i, MatchEnd(s, i).value)
  {
    if MatchEnd(s, i).Some? {
      var j := MatchEnd(s, i).value;
      var e1 := DigitRun(s, i);
      assert i < e1 <= j && DigitsIn(s, i, e1);
      if e1 != j {
        assert s[e1] == '.' && DigitsIn(s, e1 + 1, j);
      }
    }
  }

  lemma MatchEndComplete(s: string, i: nat, j: nat)
    requires i <= |s| && PercentMatch(s, i, j)
    ensures MatchEnd(s, i) == Some(j)
  {
    var p :| i < p <= j && DigitsIn(s, i, p) && (p == j || (s[p] == '.' && DigitsIn(s, p + 1, j)));
    if p == j {
      DigitRunUnique(s, i, j);
    } else {
      DigitRunUnique(s, i, p);
      DigitRunUnique(s, p + 1, j);
    }
  }

  lemma {:induction false} SearchFromCorrect(s: string, i: nat)
    requires i <= |s|
    ensures SearchFrom(s, i).Some? ==>
              var (a, b) := SearchFrom(s, i).value;
              PercentMatch(s, a, b) && forall a', b' :: i <= a' < a ==> !PercentMatch(s, a', b')
    ensures SearchFrom(s, i).None? ==> forall a', b' :: i <= a' ==> !PercentMatch(s, a', b')
    decreases |s| - i
  {
    if i < |s| {
      MatchEndSound(s, i);
      if MatchEnd(s, i).None? {
        forall b' ensures !PercentMatch(s, i, b') {
          if PercentMatch(s, i, b') { MatchEndComplete(s, i, b'); }
        }
        SearchFromCorrect(s, i + 1);
      }
    }
  }

  /** The percent token is the numeral of the leftmost match: it is followed
      by `%` in the line, no match starts earlier, and there is no token
      exactly when nothing in the line matches. */
  lemma PercentTokenCorrect(s: string)
    ensures PercentToken(s).Some? ==>
              exists i, j :: PercentMatch(s, i, j) && PercentToken(s).value == s[i..j]
                             && forall a, b :: 0 <= a < i ==> !PercentMatch(s, a, b)
    ensures PercentToken(s).None? <==> forall a, b :: !PercentMatch(s, a, b)
  {
    SearchFromCorrect(s, 0);
    if SearchFrom(s, 0).Some? {
      var (i, j) := SearchFrom(s, 0).value;
      assert PercentMatch(s, i, j);
    }
  }

  // ---------------------------------------------------------------------
  // Classifying one line

  /** What differs between the two downloaders' classifiers. */
  datatype Rules = Rules(mergeMessage: string, destinationBranch: bool)

  /** downloader.py */
  const DesktopRules := Rules("Merging video and audio...", true)
  /** kivy_downloader.py: another merge message and no `Destination` branch. */
  const KivyRules := Rules("Merging files...", false)

  const Extracting := "Extracting audio..."
  const Preparing := "Preparing download..."

  /** What one stripped line does: the progress message it writes, if any,
      and whether it is appended to the log. */
  datatype Action = Action(write: Option<string>, logged: bool)

  predicate MentionsMerge(line: string) {
    Contains(line, "Merging") || Contains(Lower(line), "merge")
  }

  /** The if/elif chain of the read loop, on an already stripped line. */
  function Classify(rules: Rules, prefix: string, line: string): Action {
    if Contains(line, "[download]") then
      match PercentToken(line)
      case Some(p) => Action(Some(prefix + ": " + p + "%"), true)
      case None =>
        if Contains(line, "ETA") then Action(Some(prefix + ": " + line), true)
        else Action(None, false)
    else if MentionsMerge(line) then Action(Some(rules.mergeMessage), true)
    else if Contains(line, "Extracting") then Action(Some(Extracting), true)
    else if rules.destinationBranch && Contains(line, "Destination") then Action(Some(Preparing), true)
    else Action(None, true)
  }

  /** A line is left out of the log exactly when it is a `[download]` line
      with neither a percent token nor `ETA`; every progress write is logged. */
  lemma SilentLines(rules: Rules, prefix: string, line: string)
    ensures !Classify(rules, prefix, line).logged
            <==> Contains(line, "[download]") && PercentToken(line).None? && !Contains(line, "ETA")
    ensures Classify(rules, prefix, line).write.Some? ==> Classify(rules, prefix, line).logged
  {
  }

  /** A `[download]` line never reaches the merge, extract or destination
      branches: whatever it writes is `"<prefix>: ..."`, the percent token
      when there is one and the whole line otherwise. */
  lemma DownloadLinesStayInBranch(rules: Rules, prefix: string, line: string)
    requires Contains(line, "[download]")
    ensures var a := Classify(rules, prefix, line);
            a.write.Some? ==> prefix + ": " <= a.write.value
    ensures PercentToken(line).Some? ==>
              Classify(rules, prefix, line).write == Some(prefix + ": " + PercentToken(line).value + "%")
    ensures PercentToken(line).None? && Contains(line, "ETA") ==>
              Classify(rules, prefix, line).write == Some(prefix + ": " + line)
  {
  }

  /** Other lines are always logged, and the fixed messages go by priority:
      merge before extracting before destination. */
  lemma OtherLinesByPriority(rules: Rules, prefix: string, line: string)
    requires !Contains(line, "[download]")
    ensures Classify(rules, prefix, line).logged
    ensures MentionsMerge(line) ==> Classify(rules, prefix, line).write == Some(rules.mergeMessage)
    ensures !MentionsMerge(line) && Contains(line, "Extracting") ==>
              Classify(rules, prefix, line).write == Some(Extracting)
    ensures !MentionsMerge(line) && !Contains(line, "Extracting") ==>
              Classify(rules, prefix, line).write
              == if rules.destinationBranch && Contains(line, "Destination") then Some(Preparing) else None
  {
  }

  /** kivy_downloader.py never announces "Preparing download...": a
      `Destination` line is only logged there. */
  lemma KivyNeverPreparing(prefix: string, line: string)
    ensures Classify(KivyRules, prefix, line).write != Some(Preparing)
  {
    var a := Classify(KivyRules, prefix, line);
    if a.write.Some? && prefix + ": " <= a.write.value {
      if |prefix| < |Preparing| {
        assert a.write.value[|prefix|] == ':';
        assert Preparing[|prefix|] != ':';
      }
    }
  }

  // ---------------------------------------------------------------------
  // A whole run's output

  /** What one raw output line does to the sink: strip it, classify it,
      write the progress message if any, then log the line if it is logged. */
  function StepLine(flavor: Flavor, rules: Rules, prefix: string, clock: Clock,
                    fault: Option<string>, s: SinkState, raw: string): SinkState
  {
    var line := Strip(raw);
    var a := Classify(rules, prefix, line);
    var s1 := if a.write.Some? then Written(flavor, s, clock, fault, a.write.value) else s;
    if a.logged then Logged(s1, clock, line) else s1
  }

  /** The read loop over the output lines, in order. */
  function RunLines(flavor: Flavor, rules: Rules, prefix: string, clock: Clock,
                    fault: Option<string>, s: SinkState, lines: seq<string>): SinkState
  {
    if lines == [] then s
    else StepLine(flavor, rules, prefix, clock, fault,
                  RunLines(flavor, rules, prefix, clock, fault, s, lines[..|lines| - 1]),
                  lines[|lines| - 1])
  }

  /** One more line of the read loop is one more step. */
  lemma RunLinesPrefix(flavor: Flavor, rules: Rules, prefix: string, clock: Clock,
                       fault: Option<string>, s: SinkState, lines: seq<string>, i: nat)
    requires i < |lines|
    ensures RunLines(flavor, rules, prefix, clock, fault, s, lines[..i + 1])
            == StepLine(flavor, rules, prefix, clock, fault, RunLines(flavor, rules, prefix, clock, fault, s, lines[..i]), lines[i])
  {
    assert lines[..i + 1][..i] == lines[..i];
  }

  function WriteOf(rules: Rules, prefix: string, raw: string): Option<string> {
    Classify(rules, prefix, Strip(raw)).write
  }

  /** One step with working writes: the progress file gets the line's
      message if it has one, and the log gains one entry if it is logged. */
  lemma StepLineFacts(flavor: Flavor, rules: Rules, prefix: string, clock: Clock,
                      s: SinkState, raw: string)
    ensures var r := StepLine(flavor, rules, prefix, clock, None, s, raw);
            var a := Classify(rules, prefix, Strip(raw));
            && r.progress == (if a.write.Some? then a.write else s.progress)
            && r.log == (if a.logged then Some(s.log.GetOr("") + Entry(clock(s.ticks), Strip(raw))) else s.log)
            && r.ticks == (if a.logged then s.ticks + 1 else s.ticks)
  {
  }

  /** Last write wins: after the loop the progress file holds the message of
      the last line that writes one, or is untouched when no line does. */
  lemma {:induction false} RunLinesProgress(flavor: Flavor, rules: Rules, prefix: string, clock: Clock,
                                            s: SinkState, lines: seq<string>, k: int)
    requires -1 <= k < |lines|
    requires k >= 0 ==> WriteOf(rules, prefix, lines[k]).Some?
    requires forall m :: k < m < |lines| ==> WriteOf(rules, prefix, lines[m]).None?
    ensures RunLines(flavor, rules, prefix, clock, None, s, lines).progress
            == if k >= 0 then WriteOf(rules, prefix, lines[k]) else s.progress
  {
    if lines != [] {
      var init := lines[..|lines| - 1];
      var last := lines[|lines| - 1];
      StepLineFacts(flavor, rules, prefix, clock, RunLines(flavor, rules, prefix, clock, None, s, init), last);
      if k < |lines| - 1 {
        RunLinesProgress(flavor, rules, prefix, clock, s, init, k);
        if k >= 0 { assert init[k] == lines[k]; }
      }
    }
  }

  /** The stripped lines the loop logs, in output order. */
  function LoggedLines(rules: Rules, prefix: string, lines: seq<string>): seq<string> {
    if lines == [] then []
    else
      var init := LoggedLines(rules, prefix, lines[..|lines| - 1]);
      var line := Strip(lines[|lines| - 1]);
      if Classify(rules, prefix, line).logged then init + [line] else init
  }

  /** Entries for `msgs`, stamped from tick `t0` on. */
  function Entries(clock: Clock, t0: nat, msgs: seq<string>): string {
    if msgs == [] then ""
    else Entries(clock, t0, msgs[..|msgs| - 1]) + Entry(clock(t0 + |msgs| - 1), msgs[|msgs| - 1])
  }

  /** Appending to an optional log file, created only if something is written. */
  function AppendLog(log: Option<string>, text: string): Option<string> {
    if text == "" then log else Some(log.GetOr("") + text)
  }

  lemma EntryNonEmpty(ts: string, msg: string)
    ensures Entry(ts, msg) != ""
  {
    assert Entry(ts, msg)[0] == '[';
  }

  /** With working writes, the loop appends exactly the logged lines to the
      log, in the order the tool printed them, one stamped entry each. */
  lemma {:induction false} RunLinesLog(flavor: Flavor, rules: Rules, prefix: string, clock: Clock,
                                       s: SinkState, lines: seq<string>)
    ensures var r := RunLines(flavor, rules, prefix, clock, None, s, lines);
            var ls := LoggedLines(rules, prefix, lines);
            r.log == AppendLog(s.log, Entries(clock, s.ticks, ls)) && r.ticks == s.ticks + |ls|
  {
    if lines != [] {
      var init := lines[..|lines| - 1];
      var r0 := RunLines(flavor, rules, prefix, clock, None, s, init);
      var line := Strip(lines[|lines| - 1]);
      RunLinesLog(flavor, rules, prefix, clock, s, init);
      StepLineFacts(flavor, rules, prefix, clock, r0, lines[|lines| - 1]);
      if Classify(rules, prefix, line).logged {
        LoggedStep(clock, s.log, s.ticks, LoggedLines(rules, prefix, init), line, r0,
                   RunLines(flavor, rules, prefix, clock, None, s, lines));
      }
    }
  }

  /** The log bookkeeping of one logged line. */
  lemma LoggedStep(clock: Clock, log0: Option<string>, t0: nat, ls0: seq<string>, line: string,
                   r0: SinkState, r: SinkState)
    requires r0.log == AppendLog(log0, Entries(clock, t0, ls0)) && r0.ticks == t0 + |ls0|
    requires r.log == Some(r0.log.GetOr("") + Entry(clock(r0.ticks), line)) && r.ticks == r0.ticks + 1
    ensures r.log == AppendLog(log0, Entries(clock, t0, ls0 + [line])) && r.ticks == t0 + |ls0 + [line]|
  {
    var ls := ls0 + [line];
    assert ls[..|ls| - 1] == ls0;
    var e0 := Entries(clock, t0, ls0);
    var e := Entry(clock(t0 + |ls0|), line);
    assert Entries(clock, t0, ls) == e0 + e;
    EntryNonEmpty(clock(t0 + |ls0|), line);
    AppendLogTwice(log0, e0, e);
  }

  lemma AppendLogTwice(log: Option<string>, a: string, b: string)
    requires b != ""
    ensures Some(AppendLog(log, a).GetOr("") + b) == AppendLog(log, a + b)
  {
    if a == "" {
      assert a + b == b;
    } else {
      assert log.GetOr("") + a + b == log.GetOr("") + (a + b);
    }
  }

  /** The loop only ever appends to the log, whatever happens to the writes. */
  lemma {:induction false} RunLinesKeepsLog(flavor: Flavor, rules: Rules, prefix: string, clock: Clock,
                                            fault: Option<string>, s: SinkState, lines: seq<string>)
    requires s.log.Some?
    ensures var r := RunLines(flavor, rules, prefix, clock, fault, s, lines);
            r.log.Some? && s.log.value <= r.log.value && r.ticks >= s.ticks
  {
    if lines != [] {
      RunLinesKeepsLog(flavor, rules, prefix, clock, fault, s, lines[..|lines| - 1]);
    }
  }

  // ---------------------------------------------------------------------
  // Worked examples

  /** The token of a typical progress line. */
  lemma TokenExample()
    ensures PercentToken("[download]  42.5% of 10MiB") == Some("42.5")
  {
    var line := "[download]  42.5% of 10MiB";
    TokenFound();
    assert line[12..16] == "42.5";
  }

  /** The search finds the match at 12, ending at 16. */
  lemma TokenFound()
    ensures SearchFrom("[download]  42.5% of 10MiB", 0) == Some((12, 16))
  {
    var line := "[download]  42.5% of 10MiB";
    TokenMatch();
    assert SearchFrom(line, 12) == Some((12, 16));
    assert forall k :: 0 <= k < 12 ==> !IsDigit(line[k]);
    SearchSkips(line, 0, 12);
  }

  /** The number `42.5` spans indices 12 to 16 of the line. */
  lemma TokenMatch()
    ensures MatchEnd("[download]  42.5% of 10MiB", 12) == Some(16)
  {
    var line := "[download]  42.5% of 10MiB";
    assert DigitRun(line, 17) == 17;
    assert DigitRun(line, 16) == 16;
    assert DigitRun(line, 15) == 16;
    assert DigitRun(line, 14) == 14;
    assert DigitRun(line, 13) == 14;
    assert DigitRun(line, 12) == 14;
  }

  /** No match starts where there is no digit: the search moves on. */
  lemma {:induction false} SearchSkips(s: string, i: nat, j: nat)
    requires i <= j <= |s|
    requires forall k :: i <= k < j ==> !IsDigit(s[k])
    ensures SearchFrom(s, i) == SearchFrom(s, j)
    decreases j - i
  {
    if i < j {
      SearchSkips(s, i + 1, j);
    }
  }

  /** A typical progress line is announced as `VIDEO: 42.5%` and logged. */
  lemma PercentExample()
    ensures Classify(DesktopRules, "VIDEO", "[download]  42.5% of 10MiB") == Action(Some("VIDEO: 42.5%"), true)
  {
    var line := "[download]  42.5% of 10MiB";
    TokenExample();
    PercentLineHead();
    ClassifyPercent(DesktopRules, "VIDEO", line, "42.5");
    PercentMessage();
  }

  lemma PercentLineHead()
    ensures Contains("[download]  42.5% of 10MiB", "[download]")
  {
    assert "[download]  42.5% of 10MiB" == "[download]" + "  42.5% of 10MiB";
    HeadContains("[download]", "  42.5% of 10MiB");
  }

  lemma PercentMessage()
    ensures "VIDEO" + ": " + "42.5" + "%" == "VIDEO: 42.5%"
  {
    assert "VIDEO" + ": " == "VIDEO: ";
    assert "VIDEO: " + "42.5" == "VIDEO: 42.5";
    assert "VIDEO: 42.5" + "%" == "VIDEO: 42.5%";
  }

  lemma CompleteTokenExample()
    ensures PercentToken("[download] 100%") == Some("100")
  {
    var line := "[download] 100%";
    assert DigitRun(line, 14) == 14;
    assert DigitRun(line, 13) == 14;
    assert DigitRun(line, 12) == 14;
    assert DigitRun(line, 11) == 14;
    assert MatchEnd(line, 11) == Some(14);
    assert SearchFrom(line, 11) == Some((11, 14));
    assert forall k :: 0 <= k < 11 ==> !IsDigit(line[k]);
    SearchSkips(line, 0, 11);
    assert line[11..14] == "100";
  }

  /** Two progress lines: the file ends up with the second one's message. */
  lemma FinishedExample(clock: Clock, s: SinkState)
    ensures RunLines(Desktop, DesktopRules, "VIDEO", clock, None, s,
                     ["[download]  10.0%", "[download] 100%"]).progress
            == Some("VIDEO: 100%")
  {
    var lines := ["[download]  10.0%", "[download] 100%"];
    CompleteWrite();
    RunLinesProgress(Desktop, DesktopRules, "VIDEO", clock, s, lines, 1);
  }

  /** `[download] 100%` writes the prefix and `100%`. */
  lemma CompleteWrite()
    ensures WriteOf(DesktopRules, "VIDEO", "[download] 100%") == Some("VIDEO: 100%")
  {
    var line := "[download] 100%";
    StripTrimmed(line);
    CompleteTokenExample();
    CompleteLineHead();
    WritePercent(DesktopRules, "VIDEO", line, "100");
    CompleteMessage();
  }

  lemma CompleteLineHead()
    ensures Contains("[download] 100%", "[download]")
  {
    assert "[download] 100%" == "[download]" + " 100%";
    HeadContains("[download]", " 100%");
  }

  lemma CompleteMessage()
    ensures "VIDEO" + ": " + "100" + "%" == "VIDEO: 100%"
  {
    assert "VIDEO" + ": " == "VIDEO: ";
    assert "VIDEO: " + "100" == "VIDEO: 100";
    assert "VIDEO: 100" + "%" == "VIDEO: 100%";
  }

  lemma WritePercent(rules: Rules, prefix: string, raw: string, p: string)
    requires Strip(raw) == raw && Contains(raw, "[download]") && PercentToken(raw) == Some(p)
    ensures WriteOf(rules, prefix, raw) == Some(prefix + ": " + p + "%")
  {
    ClassifyPercent(rules, prefix, raw, p);
  }

  /** A `[download]` line with a percentage writes that percentage. */
  lemma ClassifyPercent(rules: Rules, prefix: string, line: string, p: string)
    requires Contains(line, "[download]") && PercentToken(line) == Some(p)
    ensures Classify(rules, prefix, line) == Action(Some(prefix + ": " + p + "%"), true)
  {
  }

  // ---------------------------------------------------------------------
  // The child process

  /** How the merged output stream ends: the process exits with a code, or
      reading raises (the exception's text and formatted traceback). */
  datatype Ending = Exited(code: int) | StreamFailed(error: string, traceback: string)

  /** What spawning the download tool gives: `Popen` raises, or the process
      prints its lines and the stream ends. */
  datatype Child = SpawnFailed(error: string, traceback: string) | Spawned(output: seq<string>, ending: Ending)

  type Env = map<string, string>

  /** The external tool: what it does with an argument vector and environment. */
  type Spawner = (seq<string>, Env) -> Child

  /** The child's environment: with ffmpeg found, its directory goes in front
      of `PATH` (`dirname(ffmpeg) + ':' + env.get('PATH', '')`). The two
      middle clauses carry the promise of `env.copy()`: no key other than
      `PATH` changes, and none appears; the first and last only name the
      value `PATH` gets. */
  function ChildEnv(env: Env, ffmpeg: Option<string>): (r: Env)
    ensures ffmpeg.Some? && ffmpeg.value != "" ==>
              "PATH" in r && r["PATH"] == Dirname(ffmpeg.value) + ":" + (if "PATH" in env then env["PATH"] else "")
    ensures forall k :: k in env && k != "PATH" ==> k in r && r[k] == env[k]
    ensures forall k :: k in r && k != "PATH" ==> k in env
    ensures ffmpeg.None? || ffmpeg.value == "" ==> r == env
  {
    if ffmpeg.Some? && ffmpeg.value != "" then
      env["PATH" := Dirname(ffmpeg.value) + ":" + (if "PATH" in env then env["PATH"] else "")]
    else env
  }

  /** What the format query `[tool, "-j", url]` gives: the process ran
      (exit code, decoded standard output, standard error and the text of
      the `CalledProcessError` a nonzero code raises), it timed out, or
      running it raised (text of the exception). */
  datatype Fetched =
    | Ran(code: int, document: Decoded, stderr: string, failure: string)
    | TimedOut(error: string)
    | Raised(error: string)

  /** `json.loads(stdout)` and `info.get("formats", [])`: the records, or the
      text of the exception decoding or iterating them raises. */
  datatype Decoded = Decoded(formats: seq<Formats.FormatRecord>) | Undecodable(error: string)

  type Fetcher = seq<string> -> Fetched
}

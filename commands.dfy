/** The argument vectors `download_video` and `download_audio` hand to the
    download tool (downloader.py and kivy_downloader.py). */
module Commands {
  import opened Wrappers
  import opened Paths

  const UserAgent :=
    "Mozilla/5.0 (Linux; Android 13) "
    + "AppleWebKit/537.36 (KHTML, like Gecko) "
    + "Chrome/118.0.0.0 Mobile Safari/537.36"

  const AcceptHeader := "Accept:text/html,application/xhtml+xml,application/xml;q=0.9,*/*;q=0.8"
  const LanguageHeader := "Accept-Language:en-us,en;q=0.5"

  /** `height_map.get(selected_res or "1920x1080", "1080")`. */
  function HeightFor(selected: Option<string>): (h: string)
    ensures h in {"4320", "2160", "1440", "1080", "720"}
  {
    var key := if selected.None? || selected.value == "" then "1920x1080" else selected.value;
    if key == "7680x4320" then "4320"
    else if key == "3840x2160" then "2160"
    else if key == "2560x1440" then "1440"
    else if key == "1920x1080" then "1080"
    else if key == "1280x720" then "720"
    else "1080"
  }

  /** No resolution, an empty one, the 1080p label or an unknown label
      all cap the height at 1080. */
  lemma HeightDefault(selected: Option<string>)
    requires selected.Some? ==> selected.value !in {"7680x4320", "3840x2160", "2560x1440", "1280x720"}
    ensures HeightFor(selected) == "1080"
  {
  }

  /** The desktop format selector: mp4+m4a, then any video+audio, then the
      best single file, each capped at `h`, then anything. The f-string of
      the source is written here tier by tier, joined by `/`. */
  function DesktopSelector(h: string): string {
    "bestvideo[height<=" + h + "][ext=mp4]+bestaudio[ext=m4a]" + "/"
    + ("bestvideo[height<=" + h + "]+bestaudio" + "/" + ("best[height<=" + h + "]" + "/" + "best"))
  }

  /** The Kivy selector has no mp4/m4a tier. */
  function KivySelector(h: string): string {
    "bestvideo[height<=" + h + "]+bestaudio" + "/" + ("best[height<=" + h + "]" + "/" + "best")
  }

  predicate NoSlash(s: string) {
    forall k :: 0 <= k < |s| ==> s[k] != '/'
  }

  /** `s.split('/')`. */
  function SplitSlash(s: string): (r: seq<string>)
    ensures |r| >= 1
  {
    if s == [] then [""]
    else
      var rest := SplitSlash(s[1..]);
      if s[0] == '/' then [""] + rest else [[s[0]] + rest[0]] + rest[1..]
  }

  lemma {:induction false} SplitNoSlash(a: string)
    requires NoSlash(a)
    ensures SplitSlash(a) == [a]
  {
    if a != [] {
      SplitNoSlash(a[1..]);
      assert [a[0]] + a[1..] == a;
    }
  }

  lemma {:induction false} SplitFirst(a: string, b: string)
    requires NoSlash(a)
    ensures SplitSlash(a + "/" + b) == [a] + SplitSlash(b)
  {
    if a == [] {
      assert a + "/" + b == "/" + b;
      assert ("/" + b)[1..] == b;
    } else {
      var s := a + "/" + b;
      assert s[0] == a[0];
      assert s[1..] == a[1..] + "/" + b;
      SplitFirst(a[1..], b);
      assert [a[0]] + a[1..] == a;
    }
  }

  lemma NoSlashJoin(a: string, b: string)
    requires NoSlash(a) && NoSlash(b)
    ensures NoSlash(a + b)
  {
    forall k | 0 <= k < |a + b| ensures (a + b)[k] != '/' {
      if k < |a| { assert (a + b)[k] == a[k]; } else { assert (a + b)[k] == b[k - |a|]; }
    }
  }

  /** The desktop selector splits at `/` into its four fallback tiers, the
      first three capped at `h` and the last unrestricted. */
  lemma DesktopTiers(h: string)
    requires NoSlash(h)
    ensures SplitSlash(DesktopSelector(h))
            == ["bestvideo[height<=" + h + "][ext=mp4]+bestaudio[ext=m4a]",
                "bestvideo[height<=" + h + "]+bestaudio",
                "best[height<=" + h + "]",
                "best"]
  {
    var t1 := "bestvideo[height<=" + h + "][ext=mp4]+bestaudio[ext=m4a]";
    var t2 := "bestvideo[height<=" + h + "]+bestaudio";
    var t3 := "best[height<=" + h + "]";
    var r3 := t3 + "/" + "best";
    var r2 := t2 + "/" + r3;
    NoSlashTier("bestvideo[height<=", h, "][ext=mp4]+bestaudio[ext=m4a]");
    NoSlashTier("bestvideo[height<=", h, "]+bestaudio");
    NoSlashTier("best[height<=", h, "]");
    SplitFirst(t1, r2);
    SplitFirst(t2, r3);
    SplitFirst(t3, "best");
    SplitNoSlash("best");
  }

  /** The Kivy selector splits into three tiers. */
  lemma KivyTiers(h: string)
    requires NoSlash(h)
    ensures SplitSlash(KivySelector(h))
            == ["bestvideo[height<=" + h + "]+bestaudio", "best[height<=" + h + "]", "best"]
  {
    var t2 := "bestvideo[height<=" + h + "]+bestaudio";
    var t3 := "best[height<=" + h + "]";
    var r3 := t3 + "/" + "best";
    NoSlashTier("bestvideo[height<=", h, "]+bestaudio");
    NoSlashTier("best[height<=", h, "]");
    SplitFirst(t2, r3);
    SplitFirst(t3, "best");
    SplitNoSlash("best");
  }

  lemma NoSlashTier(a: string, h: string, b: string)
    requires NoSlash(a) && NoSlash(h) && NoSlash(b)
    ensures NoSlash(a + h + b)
  {
    NoSlashJoin(a, h);
    NoSlashJoin(a + h, b);
  }

  /** Every height the table yields is free of `/`, so both selectors split
      into their tiers at the chosen height. */
  lemma SelectorTiers(selected: Option<string>)
    ensures |SplitSlash(DesktopSelector(HeightFor(selected)))| == 4
    ensures |SplitSlash(KivySelector(HeightFor(selected)))| == 3
  {
    var h := HeightFor(selected);
    assert NoSlash(h);
    DesktopTiers(h);
    KivyTiers(h);
  }

  // The four argument vectors share their blocks; each is written below as
  // the concatenation of the blocks it lists, in the order of the source.

  /** Tool, selector and output template. */
  function Head(ytdlp: string, selector: string, output: string): seq<string> {
    [ytdlp, "-f", selector, "-o", output]
  }

  const Merge: seq<string> := ["--merge-output-format", "mp4"]
  const Extract: seq<string> := ["--extract-audio", "--audio-format", "mp3", "--audio-quality", "0"]

  function FfmpegLocation(ffmpeg: string): seq<string> {
    ["--ffmpeg-location", Dirname(ffmpeg)]
  }

  /** Identity headers and retry counts. */
  function Network(url: string): seq<string> {
    [ "--user-agent", UserAgent,
      "--referer", url,
      "--add-header", AcceptHeader,
      "--add-header", LanguageHeader,
      "--retries", "10",
      "--fragment-retries", "10",
      "--extractor-retries", "5" ]
  }

  const NoCertificates: seq<string> := ["--no-check-certificates"]
  const Pacing: seq<string> := ["--geo-bypass", "--sleep-requests", "1"]
  const Chunking: seq<string> := ["--http-chunk-size", "10M"]

  function Tail(url: string): seq<string> {
    ["--newline", url]
  }

  /** downloader.py's video command. */
  function DesktopVideo(ytdlp: string, url: string, selected: Option<string>, ffmpeg: string, dir: string): seq<string> {
    Head(ytdlp, DesktopSelector(HeightFor(selected)), Join(dir, "%(title)s.%(ext)s"))
    + Merge + FfmpegLocation(ffmpeg) + Network(url) + NoCertificates + Pacing + Chunking + Tail(url)
  }

  /** downloader.py's audio command. */
  function DesktopAudio(ytdlp: string, url: string, ffmpeg: string, dir: string): seq<string> {
    Head(ytdlp, "bestaudio/best", Join(dir, "%(title)s.%(ext)s"))
    + Extract + FfmpegLocation(ffmpeg) + Network(url) + NoCertificates + Pacing + Tail(url)
  }

  /** kivy_downloader.py's video command. */
  function KivyVideo(ytdlp: string, url: string, selected: Option<string>, ffmpeg: string, dir: string): seq<string> {
    Head(ytdlp, KivySelector(HeightFor(selected)), Join(dir, "%(title)s.mp4"))
    + Merge + FfmpegLocation(ffmpeg) + Network(url) + Pacing + Chunking + Tail(url)
  }

  /** kivy_downloader.py's audio command. */
  function KivyAudio(ytdlp: string, url: string, ffmpeg: string, dir: string): seq<string> {
    Head(ytdlp, "bestaudio/best", Join(dir, "%(title)s.mp3"))
    + Extract + FfmpegLocation(ffmpeg) + Network(url) + Pacing + Tail(url)
  }

  /** A value that cannot be mistaken for an option. */
  predicate Plain(v: string) {
    v == [] || v[0] != '-'
  }

  /** What follows the first occurrence of `flag` (how the tool reads an
      option's value). */
  function OptionValue(cmd: seq<string>, flag: string): Option<string> {
    if |cmd| < 2 then None
    else if cmd[0] == flag then Some(cmd[1])
    else OptionValue(cmd[1..], flag)
  }

  /** Arguments before the first occurrence of a flag do not change what
      the tool reads for it. */
  lemma {:induction false} OptionValueSkip(a: seq<string>, b: seq<string>, flag: string)
    requires flag !in a && |b| >= 1
    ensures OptionValue(a + b, flag) == OptionValue(b, flag)
  {
    if a != [] {
      assert (a + b)[0] == a[0] && a[0] != flag;
      assert (a + b)[1..] == a[1..] + b;
      assert OptionValue(a + b, flag) == OptionValue(a[1..] + b, flag);
      OptionValueSkip(a[1..], b, flag);
    } else {
      assert a + b == b;
    }
  }

  lemma DirnamePlain(p: string)
    requires Plain(p)
    ensures Plain(Dirname(p))
  {
    var d := Dirname(p);
    assert d <= p;
    if d != [] { assert d[0] == p[0]; }
  }

  lemma JoinPlain(dir: string, name: string)
    requires Plain(dir) && Plain(name) && (name == [] || name[0] != '/')
    ensures Plain(Join(dir, name))
  {
  }

  /** The URL block: `--referer` is read as the URL, and the tail ends with it. */
  lemma NetworkReferer(url: string)
    ensures OptionValue(Network(url), "--referer") == Some(url)
    ensures Tail(url)[|Tail(url)| - 1] == url
  {
    OptionValueAt(Network(url), "--referer", 2);
  }

  /** The value read is the one after the first occurrence of the flag. */
  lemma {:induction false} OptionValueAt(cmd: seq<string>, flag: string, k: nat)
    requires k + 1 < |cmd| && cmd[k] == flag
    requires forall j :: 0 <= j < k ==> cmd[j] != flag
    ensures OptionValue(cmd, flag) == Some(cmd[k + 1])
  {
    if k > 0 {
      assert cmd[0] != flag;
      OptionValueAt(cmd[1..], flag, k - 1);
    }
  }

  /** In every command the tool path comes first and the URL last. */
  lemma UrlLast(ytdlp: string, url: string, selected: Option<string>, ffmpeg: string, dir: string)
    ensures var dv := DesktopVideo(ytdlp, url, selected, ffmpeg, dir);
            dv[0] == ytdlp && dv[|dv| - 1] == url
    ensures var da := DesktopAudio(ytdlp, url, ffmpeg, dir);
            da[0] == ytdlp && da[|da| - 1] == url
    ensures var kv := KivyVideo(ytdlp, url, selected, ffmpeg, dir);
            kv[0] == ytdlp && kv[|kv| - 1] == url
    ensures var ka := KivyAudio(ytdlp, url, ffmpeg, dir);
            ka[0] == ytdlp && ka[|ka| - 1] == url
  {
    var dv := DesktopVideo(ytdlp, url, selected, ffmpeg, dir);
    var hv := Head(ytdlp, DesktopSelector(HeightFor(selected)), Join(dir, "%(title)s.%(ext)s"));
    FirstAndLast(hv, Merge + FfmpegLocation(ffmpeg) + Network(url) + NoCertificates + Pacing + Chunking, Tail(url));
    var da := DesktopAudio(ytdlp, url, ffmpeg, dir);
    var ha := Head(ytdlp, "bestaudio/best", Join(dir, "%(title)s.%(ext)s"));
    FirstAndLast(ha, Extract + FfmpegLocation(ffmpeg) + Network(url) + NoCertificates + Pacing, Tail(url));
    var hk := Head(ytdlp, KivySelector(HeightFor(selected)), Join(dir, "%(title)s.mp4"));
    FirstAndLast(hk, Merge + FfmpegLocation(ffmpeg) + Network(url) + Pacing + Chunking, Tail(url));
    var hm := Head(ytdlp, "bestaudio/best", Join(dir, "%(title)s.mp3"));
    FirstAndLast(hm, Extract + FfmpegLocation(ffmpeg) + Network(url) + Pacing, Tail(url));
  }

  lemma FirstAndLast(h: seq<string>, mid: seq<string>, t: seq<string>)
    requires h != [] && t != []
    ensures var c := h + mid + t;
            c[0] == h[0] && c[|c| - 1] == t[|t| - 1]
  {
  }

  /** With plain caller values, the tool reads the chosen selector, the
      output template under the download directory, the ffmpeg directory
      and the URL as referer from the desktop video command. */
  lemma DesktopVideoOptions(ytdlp: string, url: string, selected: Option<string>, ffmpeg: string, dir: string)
    requires Plain(ytdlp) && Plain(ffmpeg) && Plain(dir)
    ensures var c := DesktopVideo(ytdlp, url, selected, ffmpeg, dir);
            && OptionValue(c, "-f") == Some(DesktopSelector(HeightFor(selected)))
            && OptionValue(c, "-o") == Some(Join(dir, "%(title)s.%(ext)s"))
            && OptionValue(c, "--ffmpeg-location") == Some(Dirname(ffmpeg))
            && OptionValue(c, "--referer") == Some(url)
  {
    var selector := DesktopSelector(HeightFor(selected));
    var output := Join(dir, "%(title)s.%(ext)s");
    var back := NoCertificates + Pacing + Chunking + Tail(url);
    DirnamePlain(ffmpeg);
    JoinPlain(dir, "%(title)s.%(ext)s");
    SelectorStart(HeightFor(selected));
    CommandOptions(ytdlp, url, selector, output, Merge, ffmpeg, back);
    assert DesktopVideo(ytdlp, url, selected, ffmpeg, dir)
           == Head(ytdlp, selector, output) + Merge + FfmpegLocation(ffmpeg) + Network(url) + back;
  }

  /** The same four values in the desktop audio command, with the fixed
      audio selector. */
  lemma DesktopAudioOptions(ytdlp: string, url: string, ffmpeg: string, dir: string)
    requires Plain(ytdlp) && Plain(ffmpeg) && Plain(dir)
    ensures var c := DesktopAudio(ytdlp, url, ffmpeg, dir);
            && OptionValue(c, "-f") == Some("bestaudio/best")
            && OptionValue(c, "-o") == Some(Join(dir, "%(title)s.%(ext)s"))
            && OptionValue(c, "--ffmpeg-location") == Some(Dirname(ffmpeg))
            && OptionValue(c, "--referer") == Some(url)
  {
    var output := Join(dir, "%(title)s.%(ext)s");
    var back := NoCertificates + Pacing + Tail(url);
    DirnamePlain(ffmpeg);
    JoinPlain(dir, "%(title)s.%(ext)s");
    CommandOptions(ytdlp, url, "bestaudio/best", output, Extract, ffmpeg, back);
    assert DesktopAudio(ytdlp, url, ffmpeg, dir)
           == Head(ytdlp, "bestaudio/best", output) + Extract + FfmpegLocation(ffmpeg) + Network(url) + back;
  }

  /** The four values in the Kivy video command: the Kivy selector and an
      `.mp4` template. */
  lemma KivyVideoOptions(ytdlp: string, url: string, selected: Option<string>, ffmpeg: string, dir: string)
    requires Plain(ytdlp) && Plain(ffmpeg) && Plain(dir)
    ensures var c := KivyVideo(ytdlp, url, selected, ffmpeg, dir);
            && OptionValue(c, "-f") == Some(KivySelector(HeightFor(selected)))
            && OptionValue(c, "-o") == Some(Join(dir, "%(title)s.mp4"))
            && OptionValue(c, "--ffmpeg-location") == Some(Dirname(ffmpeg))
            && OptionValue(c, "--referer") == Some(url)
  {
    var selector := KivySelector(HeightFor(selected));
    var output := Join(dir, "%(title)s.mp4");
    var back := Pacing + Chunking + Tail(url);
    DirnamePlain(ffmpeg);
    JoinPlain(dir, "%(title)s.mp4");
    SelectorStart(HeightFor(selected));
    CommandOptions(ytdlp, url, selector, output, Merge, ffmpeg, back);
    assert KivyVideo(ytdlp, url, selected, ffmpeg, dir)
           == Head(ytdlp, selector, output) + Merge + FfmpegLocation(ffmpeg) + Network(url) + back;
  }

  /** The four values in the Kivy audio command: the audio selector and an
      `.mp3` template. */
  lemma KivyAudioOptions(ytdlp: string, url: string, ffmpeg: string, dir: string)
    requires Plain(ytdlp) && Plain(ffmpeg) && Plain(dir)
    ensures var c := KivyAudio(ytdlp, url, ffmpeg, dir);
            && OptionValue(c, "-f") == Some("bestaudio/best")
            && OptionValue(c, "-o") == Some(Join(dir, "%(title)s.mp3"))
            && OptionValue(c, "--ffmpeg-location") == Some(Dirname(ffmpeg))
            && OptionValue(c, "--referer") == Some(url)
  {
    var output := Join(dir, "%(title)s.mp3");
    var back := Pacing + Tail(url);
    DirnamePlain(ffmpeg);
    JoinPlain(dir, "%(title)s.mp3");
    CommandOptions(ytdlp, url, "bestaudio/best", output, Extract, ffmpeg, back);
    assert KivyAudio(ytdlp, url, ffmpeg, dir)
           == Head(ytdlp, "bestaudio/best", output) + Extract + FfmpegLocation(ffmpeg) + Network(url) + back;
  }

  /** Any command built as head, a merge or extract block, the ffmpeg
      location, the network block and further blocks carries the four values. */
  lemma CommandOptions(ytdlp: string, url: string, selector: string, output: string,
                       mid: seq<string>, ffmpeg: string, back: seq<string>)
    requires Plain(ytdlp) && Plain(output) && Plain(Dirname(ffmpeg)) && selector != [] && selector[0] == 'b'
    requires mid == Merge || mid == Extract
    ensures var c := Head(ytdlp, selector, output) + mid + FfmpegLocation(ffmpeg) + Network(url) + back;
            && OptionValue(c, "-f") == Some(selector)
            && OptionValue(c, "-o") == Some(output)
            && OptionValue(c, "--ffmpeg-location") == Some(Dirname(ffmpeg))
            && OptionValue(c, "--referer") == Some(url)
  {
    FrontOptions(ytdlp, url, selector, output, mid, ffmpeg);
    var front := Head(ytdlp, selector, output) + mid + FfmpegLocation(ffmpeg) + Network(url);
    OptionValueAtFront(front, back, "-f");
    OptionValueAtFront(front, back, "-o");
    OptionValueAtFront(front, back, "--ffmpeg-location");
    OptionValueAtFront(front, back, "--referer");
  }

  /** The blocks up to the network options carry the four values. */
  lemma FrontOptions(ytdlp: string, url: string, selector: string, output: string, mid: seq<string>, ffmpeg: string)
    requires Plain(ytdlp) && Plain(output) && Plain(Dirname(ffmpeg)) && selector != [] && selector[0] == 'b'
    requires mid == Merge || mid == Extract
    ensures var front := Head(ytdlp, selector, output) + mid + FfmpegLocation(ffmpeg) + Network(url);
            && OptionValue(front, "-f") == Some(selector)
            && OptionValue(front, "-o") == Some(output)
            && OptionValue(front, "--ffmpeg-location") == Some(Dirname(ffmpeg))
            && OptionValue(front, "--referer") == Some(url)
  {
    var h := Head(ytdlp, selector, output);
    var rest := mid + FfmpegLocation(ffmpeg) + Network(url);
    assert h + mid + FfmpegLocation(ffmpeg) + Network(url) == h + rest;
    OptionValueAt(h, "-f", 1);
    OptionValueAt(h, "-o", 3);
    OptionValueAtFront(h, rest, "-f");
    OptionValueAtFront(h, rest, "-o");
    LocationAndReferer(ytdlp, url, selector, output, mid, ffmpeg);
  }

  /** The ffmpeg location and the referer, read past the head and the
      merge or extract block. */
  lemma LocationAndReferer(ytdlp: string, url: string, selector: string, output: string, mid: seq<string>, ffmpeg: string)
    requires Plain(ytdlp) && Plain(output) && Plain(Dirname(ffmpeg)) && selector != [] && selector[0] == 'b'
    requires mid == Merge || mid == Extract
    ensures var front := Head(ytdlp, selector, output) + mid + FfmpegLocation(ffmpeg) + Network(url);
            && OptionValue(front, "--ffmpeg-location") == Some(Dirname(ffmpeg))
            && OptionValue(front, "--referer") == Some(url)
  {
    var hm := Head(ytdlp, selector, output) + mid;
    var hmf := hm + FfmpegLocation(ffmpeg);
    assert "--ffmpeg-location" !in hm && "--referer" !in hm;
    OptionValueSkip(hm, FfmpegLocation(ffmpeg), "--ffmpeg-location");
    OptionValueSkip(hmf, Network(url), "--referer");
    NetworkReferer(url);
    OptionValueAtFront(hmf, Network(url), "--ffmpeg-location");
  }

  lemma SelectorStart(h: string)
    ensures DesktopSelector(h)[0] == 'b' && KivySelector(h)[0] == 'b'
  {
  }

  lemma OptionValueAtFront(a: seq<string>, b: seq<string>, flag: string)
    requires OptionValue(a, flag).Some?
    ensures OptionValue(a + b, flag) == OptionValue(a, flag)
    decreases |a|
  {
    if a[0] != flag {
      assert (a + b)[1..] == a[1..] + b;
      OptionValueAtFront(a[1..], b, flag);
    }
  }

  /** The deliberate differences between the commands: only video asks for
      chunked transfer and an mp4 merge, only audio for extraction to mp3,
      and only the desktop build skips certificate checks. */
  lemma Switches(ytdlp: string, url: string, selected: Option<string>, ffmpeg: string, dir: string)
    requires Plain(ytdlp) && Plain(url) && Plain(ffmpeg) && Plain(dir)
    ensures var dv := DesktopVideo(ytdlp, url, selected, ffmpeg, dir);
            var da := DesktopAudio(ytdlp, url, ffmpeg, dir);
            var kv := KivyVideo(ytdlp, url, selected, ffmpeg, dir);
            var ka := KivyAudio(ytdlp, url, ffmpeg, dir);
            && "--http-chunk-size" in dv && "--http-chunk-size" !in da
            && "--merge-output-format" in dv && "--merge-output-format" !in da
            && "--extract-audio" in da && "--extract-audio" !in dv
            && "--no-check-certificates" in dv && "--no-check-certificates" in da
            && "--no-check-certificates" !in kv && "--no-check-certificates" !in ka
  {
    DirnamePlain(ffmpeg);
    VideoSwitches(ytdlp, url, selected, ffmpeg, dir);
    AudioSwitches(ytdlp, url, ffmpeg, dir);
    KivyCertificates(ytdlp, url, selected, ffmpeg, dir);
  }

  lemma VideoSwitches(ytdlp: string, url: string, selected: Option<string>, ffmpeg: string, dir: string)
    requires Plain(ytdlp) && Plain(url) && Plain(Dirname(ffmpeg)) && Plain(dir)
    ensures var dv := DesktopVideo(ytdlp, url, selected, ffmpeg, dir);
            "--http-chunk-size" in dv && "--merge-output-format" in dv
            && "--extract-audio" !in dv && "--no-check-certificates" in dv
  {
    VideoHas(ytdlp, url, selected, ffmpeg, dir);
    VideoLacksExtract(ytdlp, url, selected, ffmpeg, dir);
  }

  lemma VideoHas(ytdlp: string, url: string, selected: Option<string>, ffmpeg: string, dir: string)
    ensures var dv := DesktopVideo(ytdlp, url, selected, ffmpeg, dir);
            "--http-chunk-size" in dv && "--merge-output-format" in dv && "--no-check-certificates" in dv
  {
  }

  lemma VideoLacksExtract(ytdlp: string, url: string, selected: Option<string>, ffmpeg: string, dir: string)
    requires Plain(ytdlp) && Plain(url) && Plain(Dirname(ffmpeg)) && Plain(dir)
    ensures "--extract-audio" !in DesktopVideo(ytdlp, url, selected, ffmpeg, dir)
  {
    JoinPlain(dir, "%(title)s.%(ext)s");
    SelectorStart(HeightFor(selected));
    AbsentFromShared(ytdlp, url, ffmpeg, DesktopSelector(HeightFor(selected)), Join(dir, "%(title)s.%(ext)s"), "--extract-audio");
  }

  lemma AudioSwitches(ytdlp: string, url: string, ffmpeg: string, dir: string)
    requires Plain(ytdlp) && Plain(url) && Plain(Dirname(ffmpeg)) && Plain(dir)
    ensures var da := DesktopAudio(ytdlp, url, ffmpeg, dir);
            "--http-chunk-size" !in da && "--merge-output-format" !in da
            && "--extract-audio" in da && "--no-check-certificates" in da
  {
    AudioHas(ytdlp, url, ffmpeg, dir);
    AudioLacks(ytdlp, url, ffmpeg, dir);
  }

  lemma AudioHas(ytdlp: string, url: string, ffmpeg: string, dir: string)
    ensures var da := DesktopAudio(ytdlp, url, ffmpeg, dir);
            "--extract-audio" in da && "--no-check-certificates" in da
  {
  }

  lemma AudioLacks(ytdlp: string, url: string, ffmpeg: string, dir: string)
    requires Plain(ytdlp) && Plain(url) && Plain(Dirname(ffmpeg)) && Plain(dir)
    ensures var da := DesktopAudio(ytdlp, url, ffmpeg, dir);
            "--http-chunk-size" !in da && "--merge-output-format" !in da
  {
    JoinPlain(dir, "%(title)s.%(ext)s");
    AbsentFromShared(ytdlp, url, ffmpeg, "bestaudio/best", Join(dir, "%(title)s.%(ext)s"), "--http-chunk-size");
    AbsentFromShared(ytdlp, url, ffmpeg, "bestaudio/best", Join(dir, "%(title)s.%(ext)s"), "--merge-output-format");
  }

  lemma KivyCertificates(ytdlp: string, url: string, selected: Option<string>, ffmpeg: string, dir: string)
    requires Plain(ytdlp) && Plain(url) && Plain(Dirname(ffmpeg)) && Plain(dir)
    ensures "--no-check-certificates" !in KivyVideo(ytdlp, url, selected, ffmpeg, dir)
    ensures "--no-check-certificates" !in KivyAudio(ytdlp, url, ffmpeg, dir)
  {
    KivyVideoCertificates(ytdlp, url, selected, ffmpeg, dir);
    KivyAudioCertificates(ytdlp, url, ffmpeg, dir);
  }

  lemma KivyVideoCertificates(ytdlp: string, url: string, selected: Option<string>, ffmpeg: string, dir: string)
    requires Plain(ytdlp) && Plain(url) && Plain(Dirname(ffmpeg)) && Plain(dir)
    ensures "--no-check-certificates" !in KivyVideo(ytdlp, url, selected, ffmpeg, dir)
  {
    JoinPlain(dir, "%(title)s.mp4");
    SelectorStart(HeightFor(selected));
    AbsentFromShared(ytdlp, url, ffmpeg, KivySelector(HeightFor(selected)), Join(dir, "%(title)s.mp4"), "--no-check-certificates");
  }

  lemma KivyAudioCertificates(ytdlp: string, url: string, ffmpeg: string, dir: string)
    requires Plain(ytdlp) && Plain(url) && Plain(Dirname(ffmpeg)) && Plain(dir)
    ensures "--no-check-certificates" !in KivyAudio(ytdlp, url, ffmpeg, dir)
  {
    JoinPlain(dir, "%(title)s.mp3");
    AbsentFromShared(ytdlp, url, ffmpeg, "bestaudio/best", Join(dir, "%(title)s.mp3"), "--no-check-certificates");
  }

  /** A flag missing from the blocks every command has is decided by the
      variant blocks alone. */
  lemma AbsentFromShared(ytdlp: string, url: string, ffmpeg: string, selector: string, output: string, flag: string)
    requires Plain(ytdlp) && Plain(url) && Plain(Dirname(ffmpeg)) && Plain(output)
    requires flag in {"--http-chunk-size", "--merge-output-format", "--extract-audio", "--no-check-certificates"}
    requires selector != [] && selector[0] == 'b'
    ensures flag !in Head(ytdlp, selector, output) && flag !in FfmpegLocation(ffmpeg)
    ensures flag !in Network(url) && flag !in Pacing && flag !in Tail(url)
  {
    AbsentFromNetwork(url, flag);
    AbsentFromHead(ytdlp, selector, output, flag);
  }

  lemma AbsentFromHead(ytdlp: string, selector: string, output: string, flag: string)
    requires Plain(ytdlp) && Plain(output) && selector != [] && selector[0] == 'b'
    requires flag in {"--http-chunk-size", "--merge-output-format", "--extract-audio", "--no-check-certificates"}
    ensures flag !in Head(ytdlp, selector, output)
  {
  }

  lemma AbsentFromNetwork(url: string, flag: string)
    requires Plain(url)
    requires flag in {"--http-chunk-size", "--merge-output-format", "--extract-audio", "--no-check-certificates"}
    ensures flag !in Network(url)
  {
  }
}

/**
 * `SocialVideoDownloader.download_single_video` of src/social_video_downloader.py:
 * title sanitisation, the result record and the order of the external steps.
 * The extractor (yt_dlp) and the filesystem are inputs: a `Tool` says how each
 * external call ends and which files it leaves behind, and the filesystem is
 * the set of paths that exist.
 */
module SingleDownload {
  import opened Wrappers
  import opened Strings
  import opened Paths
  import opened Classify

  /** A model of `str.isalnum` on one character: whatever it says, '/' is not alphanumeric. */
  type Alnum = f: char -> bool | !f('/') witness (c: char) => false

  /** The downloader's configuration: the dated download directory and the `str.isalnum` it runs with. */
  datatype Downloader = Downloader(downloadDir: string, currentDate: string, isAlnum: Alnum)

  /** `SocialVideoDownloader(download_dir)`: downloads go to `<download_dir>/<current date>`. */
  function NewDownloader(baseDir: string, currentDate: string, isAlnum: Alnum): (d: Downloader)
    ensures d.currentDate == currentDate && d.isAlnum == isAlnum
    ensures EndsWith(d.downloadDir, currentDate)
    ensures !StartsWith(currentDate, "/") ==> StartsWith(d.downloadDir, baseDir)
  {
    Downloader(Join(baseDir, currentDate), currentDate, isAlnum)
  }

  // ---------------------------------------------------------------------------
  // Title sanitisation

  /** A character the title filter keeps. */
  predicate Allowed(isAlnum: char -> bool, c: char)
  {
    isAlnum(c) || c == ' ' || c == '-' || c == '_'
  }

  /** The characters of `s` the filter keeps, in order. */
  function Filter(isAlnum: char -> bool, s: string): (r: string)
    ensures |r| <= |s|
    ensures forall i :: 0 <= i < |r| ==> Allowed(isAlnum, r[i])
    ensures (forall i :: 0 <= i < |s| ==> Allowed(isAlnum, s[i])) ==> r == s
  {
    if s == [] then []
    else if Allowed(isAlnum, s[0]) then [s[0]] + Filter(isAlnum, s[1..])
    else Filter(isAlnum, s[1..])
  }

  /** On one character the filter keeps it exactly when it is allowed. */
  lemma FilterChar(isAlnum: char -> bool, c: char)
    ensures Filter(isAlnum, [c]) == (if Allowed(isAlnum, c) then [c] else [])
  {
    assert [c][1..] == [];
  }

  /** The filter works character by character, keeping the order. */
  lemma {:induction false} FilterAppend(isAlnum: char -> bool, a: string, b: string)
    ensures Filter(isAlnum, a + b) == Filter(isAlnum, a) + Filter(isAlnum, b)
  {
    if a == [] {
      assert a + b == b;
    } else {
      assert (a + b)[0] == a[0];
      assert (a + b)[1..] == a[1..] + b;
      FilterAppend(isAlnum, a[1..], b);
    }
  }

  /**
   * The ASCII whitespace of `str.isspace`, which also holds for non-ASCII
   * whitespace such as U+00A0. Applied to a filtered title the two agree:
   * `str.isalnum` holds for no whitespace, so ' ' is the only whitespace left.
   */
  predicate IsSpace(c: char)
  {
    c == ' ' || c == '\t' || c == '\n' || c == '\r' || c == '\U{0B}' || c == '\U{0C}'
    || c == '\U{1C}' || c == '\U{1D}' || c == '\U{1E}' || c == '\U{1F}'
  }

  /** `s.rstrip()`: `s` without its trailing whitespace. */
  function RStrip(s: string): (r: string)
    ensures StartsWith(s, r)
    ensures r == [] || !IsSpace(r[|r| - 1])
    ensures forall k :: |r| <= k < |s| ==> IsSpace(s[k])
  {
    if s == [] || !IsSpace(s[|s| - 1]) then s else RStrip(s[..|s| - 1])
  }

  /** The folder name made from a title: filter, strip trailing whitespace, then keep at most 100 characters. */
  function SafeTitle(isAlnum: char -> bool, title: string): (t: string)
    ensures |t| <= 100
    ensures forall i :: 0 <= i < |t| ==> Allowed(isAlnum, t[i])
    ensures StartsWith(RStrip(Filter(isAlnum, title)), t)
    ensures |RStrip(Filter(isAlnum, title))| <= 100 ==> t == RStrip(Filter(isAlnum, title))
    ensures |RStrip(Filter(isAlnum, title))| > 100 ==> t == RStrip(Filter(isAlnum, title))[..100]
  {
    var s := RStrip(Filter(isAlnum, title));
    if |s| <= 100 then s else s[..100]
  }

  /** A string without trailing whitespace is its own `rstrip`. */
  lemma RStripNoTrailingSpace(s: string)
    requires s == [] || !IsSpace(s[|s| - 1])
    ensures RStrip(s) == s
  {
  }

  /** Sanitising twice only strips the whitespace the first truncation exposed. */
  lemma SafeTitleTwice(isAlnum: char -> bool, title: string)
    ensures SafeTitle(isAlnum, SafeTitle(isAlnum, title)) == RStrip(SafeTitle(isAlnum, title))
  {
    var t := SafeTitle(isAlnum, title);
    assert Filter(isAlnum, t) == t;
  }

  /** Truncation after `rstrip` can end the name in a space, so sanitising is not idempotent. */
  lemma SafeTitleNotIdempotent(isAlnum: char -> bool, title: string)
    requires isAlnum('a')
    requires title == seq(99, _ => 'a') + " a"
    ensures SafeTitle(isAlnum, title) == seq(99, _ => 'a') + " "
    ensures SafeTitle(isAlnum, SafeTitle(isAlnum, title)) == seq(99, _ => 'a')
  {
    var a99 := seq(99, _ => 'a');
    assert Filter(isAlnum, title) == title;
    RStripNoTrailingSpace(title);
    assert title[..100] == a99 + " ";
    var t := a99 + " ";
    SafeTitle2(isAlnum, title, t);
    SafeTitleTwice(isAlnum, title);
    assert RStrip(t) == RStrip(a99);
    RStripNoTrailingSpace(a99);
  }

  /** Helper for `SafeTitleNotIdempotent`: the first sanitisation. */
  lemma SafeTitle2(isAlnum: char -> bool, title: string, t: string)
    requires RStrip(Filter(isAlnum, title)) == title && |title| == 101 && t == title[..100]
    ensures SafeTitle(isAlnum, title) == t
  {
  }

  // ---------------------------------------------------------------------------
  // External steps

  /** How an external call ends: it returns, or it raises an exception with a message. */
  datatype Call = Returns | Raises(message: string)

  /** The `"title"` entry of the extracted info: missing, present but `None`, or a string. */
  datatype TitleField = NoTitle | NullTitle | Title(text: string)

  /** `info.get("title", "unknown")` for a title that is not `None`. */
  function TitleText(t: TitleField): (s: string)
    ensures t.NoTitle? ==> s == "unknown"
    ensures t.Title? ==> s == t.text
  {
    match t
    case NoTitle => "unknown"
    case NullTitle => ""
    case Title(text) => text
  }

  /** The message of the `TypeError` raised when a `None` title is iterated. */
  const NotIterable: string := "'NoneType' object is not iterable"

  /** The external steps of one download, in the order the source runs them. */
  datatype Step = Probe | MakeFolder | FetchVideo | FetchAudio | FetchSubtitles

  /**
   * The environment of one download: the clock, how each external call ends,
   * the title `extract_info` reports, and the files each `ydl.download` writes.
   */
  datatype Tool = Tool(
    clock: nat,
    probe: Call, title: TitleField,
    makeFolder: Call,
    fetchVideo: Call, videoFiles: set<string>,
    fetchAudio: Call, audioFiles: set<string>,
    fetchSubtitles: Call, subtitleFiles: set<string>)
  {
    /** How step `s` ends; probing also fails when the title is `None`. */
    function Outcome(s: Step): Call
    {
      match s
      case Probe => if probe.Returns? && title.NullTitle? then Raises(NotIterable) else probe
      case MakeFolder => makeFolder
      case FetchVideo => fetchVideo
      case FetchAudio => fetchAudio
      case FetchSubtitles => fetchSubtitles
    }
  }

  /** The fetches a run with these flags performs when nothing raises; `separate` is whether the separate subtitle fetch happens. */
  function FetchPlan(video: bool, audio: bool, separate: bool): (p: seq<Step>)
    ensures Probe !in p && MakeFolder !in p
    ensures FetchVideo in p <==> video
    ensures FetchAudio in p <==> audio
    ensures FetchSubtitles in p <==> separate
  {
    (if video then [FetchVideo] else []) + (if audio then [FetchAudio] else [])
    + (if separate then [FetchSubtitles] else [])
  }

  /** The steps a run with these flags performs when nothing raises: probe, make the folder, then fetch. */
  function Plan(video: bool, audio: bool, separate: bool): (p: seq<Step>)
    ensures |p| >= 2 && p[0] == Probe && p[1] == MakeFolder && p[2..] == FetchPlan(video, audio, separate)
    ensures FetchVideo in p <==> video
    ensures FetchAudio in p <==> audio
    ensures FetchSubtitles in p <==> separate
  {
    [Probe, MakeFolder] + FetchPlan(video, audio, separate)
  }

  /** Every step of `steps` returned. */
  predicate AllReturned(tool: Tool, steps: seq<Step>)
  {
    forall i :: 0 <= i < |steps| ==> tool.Outcome(steps[i]).Returns?
  }

  /**
   * The step of `plan` whose exception ends the run (the single `try`
   * around the whole download), or `None` when every step returns.
   */
  function FirstRaise(plan: seq<Step>, tool: Tool): (s: Option<Step>)
    ensures s.Some? ==> s.value in plan && tool.Outcome(s.value).Raises?
    decreases |plan|
  {
    if plan == [] then None
    else if tool.Outcome(plan[0]).Raises? then Some(plan[0])
    else FirstRaise(plan[1..], tool)
  }

  /**
   * No step raises exactly when every step returns; otherwise the step found
   * is one of the plan that raises, and every step before it returned.
   */
  lemma {:induction false} FirstRaiseSpec(plan: seq<Step>, tool: Tool)
    ensures FirstRaise(plan, tool).None? <==> AllReturned(tool, plan)
    ensures FirstRaise(plan, tool).Some? ==>
      exists i :: 0 <= i < |plan| && plan[i] == FirstRaise(plan, tool).value && tool.Outcome(plan[i]).Raises?
        && forall k :: 0 <= k < i ==> tool.Outcome(plan[k]).Returns?
    decreases |plan|
  {
    if plan != [] && tool.Outcome(plan[0]).Returns? {
      FirstRaiseSpec(plan[1..], tool);
      if FirstRaise(plan, tool).Some? {
        var i :| 0 <= i < |plan[1..]| && plan[1..][i] == FirstRaise(plan, tool).value && tool.Outcome(plan[1..][i]).Raises?
          && forall k :: 0 <= k < i ==> tool.Outcome(plan[1..][k]).Returns?;
        assert plan[i + 1] == plan[1..][i];
        assert forall k :: 0 <= k < i + 1 ==> tool.Outcome(plan[k]).Returns? by {
          forall k | 0 <= k < i + 1
            ensures tool.Outcome(plan[k]).Returns?
          {
            if k > 0 { assert plan[k] == plan[1..][k - 1]; }
          }
        }
      } else {
        forall k | 0 <= k < |plan|
          ensures tool.Outcome(plan[k]).Returns?
        {
          if k > 0 { assert plan[k] == plan[1..][k - 1]; }
        }
      }
    }
  }

  /** The first step that raises in a plan that starts with `step`. */
  lemma FirstRaiseCons(step: Step, rest: seq<Step>, tool: Tool)
    ensures FirstRaise([step] + rest, tool) == if tool.Outcome(step).Raises? then Some(step) else FirstRaise(rest, tool)
  {
    assert ([step] + rest)[1..] == rest;
  }

  /** The first fetch that raises, in the order video, audio, subtitles. */
  lemma FirstRaiseFetches(video: bool, audio: bool, separate: bool, tool: Tool)
    ensures FirstRaise(FetchPlan(video, audio, separate), tool) ==
      if video && tool.fetchVideo.Raises? then Some(FetchVideo)
      else if audio && tool.fetchAudio.Raises? then Some(FetchAudio)
      else if separate && tool.fetchSubtitles.Raises? then Some(FetchSubtitles)
      else None
  {
    var s := if separate then [FetchSubtitles] else [];
    var a := (if audio then [FetchAudio] else []) + s;
    assert FetchPlan(video, audio, separate) == (if video then [FetchVideo] else []) + a;
    FirstRaiseCons(FetchSubtitles, [], tool);
    FirstRaiseCons(FetchAudio, s, tool);
    FirstRaiseCons(FetchVideo, a, tool);
  }

  /** The first step of the whole plan that raises: the probe, the mkdir, then the fetches. */
  lemma FirstRaisePlan(video: bool, audio: bool, separate: bool, tool: Tool)
    ensures FirstRaise(Plan(video, audio, separate), tool) ==
      if tool.Outcome(Probe).Raises? then Some(Probe)
      else if tool.makeFolder.Raises? then Some(MakeFolder)
      else FirstRaise(FetchPlan(video, audio, separate), tool)
  {
    var f := FetchPlan(video, audio, separate);
    assert Plan(video, audio, separate) == [Probe] + ([MakeFolder] + f);
    FirstRaiseCons(Probe, [MakeFolder] + f, tool);
    FirstRaiseCons(MakeFolder, f, tool);
  }


  // ---------------------------------------------------------------------------
  // Result record

  /** `result["paths"]`: the video and audio files found and the renamed subtitle file of each language. */
  datatype PathsRecord = PathsRecord(video: Option<string>, audio: Option<string>, subtitles: map<string, string>)

  /** The dictionary `download_single_video` returns. */
  datatype DownloadResult = DownloadResult(
    url: string, platform: Platform, timestamp: string,
    success: bool, paths: PathsRecord, error: Option<string>)

  /** The languages whose subtitle files are looked for, in order. */
  const LangCodes: seq<string> := ["vie-VN", "eng-US"]

  /** The folder of a video: the sanitised title under the download directory. */
  function VideoFolder(d: Downloader, title: TitleField): (f: string)
    ensures StartsWith(f, d.downloadDir)
  {
    var name := SafeTitle(d.isAlnum, TitleText(title));
    assert name == [] || name[0] != '/' by {
      if name != [] { assert Allowed(d.isAlnum, name[0]); }
    }
    Join(d.downloadDir, name)
  }

  /** The file name yt_dlp gives the subtitles of language `lang` when the output template starts with `stem`. */
  function SourceName(stem: string, lang: string): string
  {
    stem + lang + ".vtt"
  }

  /** The name a subtitle file of language `lang` is renamed to. */
  function TargetName(lang: string): string
  {
    "sub-" + lang + ".vtt"
  }

  /** The two output-template stems subtitles are written under. */
  predicate IsStem(stem: string)
  {
    stem == "video." || stem == "sub."
  }

  /** No two elements of `xs` are equal. */
  predicate Distinct(xs: seq<string>)
  {
    forall j, k :: 0 <= j < k < |xs| ==> xs[j] != xs[k]
  }

  /** A rename plan: languages with their file and its new name, no file named twice and no new name clashing with an old one. */
  predicate RenamePlan(langs: seq<string>, sources: seq<string>, targets: seq<string>)
  {
    |sources| == |langs| && |targets| == |langs|
    && Distinct(langs) && Distinct(sources) && Distinct(targets)
    && forall j, k :: 0 <= j < |sources| && 0 <= k < |targets| ==> sources[j] != targets[k]
  }

  /** No name of `names` starts with a slash, so joining it to a folder keeps the folder. */
  predicate Relative(names: seq<string>)
  {
    forall j :: 0 <= j < |names| ==> !StartsWith(names[j], "/")
  }

  /** Each name of `names` joined to `folder`. */
  function InFolder(folder: string, names: seq<string>): (ps: seq<string>)
    ensures |ps| == |names|
    ensures forall j :: 0 <= j < |names| ==> ps[j] == Join(folder, names[j])
  {
    if names == [] then [] else [Join(folder, names[0])] + InFolder(folder, names[1..])
  }

  /** Joining relative names to one folder keeps a rename plan a rename plan. */
  lemma JoinPlan(folder: string, langs: seq<string>, sources: seq<string>, targets: seq<string>)
    requires RenamePlan(langs, sources, targets) && Relative(sources) && Relative(targets)
    ensures RenamePlan(langs, InFolder(folder, sources), InFolder(folder, targets))
  {
    var ps, pt := InFolder(folder, sources), InFolder(folder, targets);
    forall j, k | 0 <= j < k < |ps|
      ensures ps[j] != ps[k]
    {
      JoinDistinct(folder, sources[j], sources[k]);
    }
    forall j, k | 0 <= j < k < |pt|
      ensures pt[j] != pt[k]
    {
      JoinDistinct(folder, targets[j], targets[k]);
    }
    forall j, k | 0 <= j < |ps| && 0 <= k < |pt|
      ensures ps[j] != pt[k]
    {
      JoinDistinct(folder, sources[j], targets[k]);
    }
  }

  /** The subtitle file names looked for under `stem`, one per language of `LangCodes`. */
  function SourceNames(stem: string): (s: seq<string>)
    ensures |s| == |LangCodes|
    ensures forall j :: 0 <= j < |s| ==> s[j] == SourceName(stem, LangCodes[j])
  {
    [SourceName(stem, LangCodes[0]), SourceName(stem, LangCodes[1])]
  }

  /** The names those files are renamed to. */
  function TargetNames(): (t: seq<string>)
    ensures |t| == |LangCodes|
    ensures forall j :: 0 <= j < |t| ==> t[j] == TargetName(LangCodes[j])
  {
    [TargetName(LangCodes[0]), TargetName(LangCodes[1])]
  }

  /** A subtitle file is never named like a renamed one: the stems differ from `sub-` at the fourth character. */
  lemma SourceNotTarget(stem: string, l: string, m: string)
    requires IsStem(stem)
    ensures SourceName(stem, l) != TargetName(m)
  {
    assert SourceName(stem, l)[3] != TargetName(m)[3];
  }

  /** The two languages name different subtitle files. */
  lemma SourcesDiffer(stem: string)
    requires IsStem(stem)
    ensures SourceName(stem, LangCodes[0]) != SourceName(stem, LangCodes[1])
  {
    assert SourceName(stem, LangCodes[0])[|stem|] != SourceName(stem, LangCodes[1])[|stem|];
  }

  /** The two languages get different new names. */
  lemma TargetsDiffer()
    ensures TargetName(LangCodes[0]) != TargetName(LangCodes[1])
  {
    assert TargetName(LangCodes[0])[4] != TargetName(LangCodes[1])[4];
  }

  /** Subtitle file names are relative. */
  lemma NamesRelative(stem: string, l: string)
    requires IsStem(stem)
    ensures !StartsWith(SourceName(stem, l), "/") && !StartsWith(TargetName(l), "/")
  {
    assert SourceName(stem, l)[0] == stem[0] && TargetName(l)[0] == 's';
  }

  /** No subtitle file looked for is the video or the audio file. */
  lemma NotMedia(stem: string, l: string)
    requires IsStem(stem) && l in LangCodes
    ensures "video.mp4" != SourceName(stem, l) && "audio.wav" != SourceName(stem, l)
  {
    var s := SourceName(stem, l);
    assert s[0] != 'v' || s[6] != 'm';
    assert s[0] != 'a';
  }

  /** Two languages whose six names are pairwise apart as required form a rename plan. */
  lemma PairPlan(langs: seq<string>, sources: seq<string>, targets: seq<string>)
    requires |langs| == 2 && |sources| == 2 && |targets| == 2
    requires langs[0] != langs[1] && sources[0] != sources[1] && targets[0] != targets[1]
    requires sources[0] != targets[0] && sources[0] != targets[1]
    requires sources[1] != targets[0] && sources[1] != targets[1]
    ensures RenamePlan(langs, sources, targets)
  {
  }

  /** The subtitle file names of either stem form a rename plan and never name the video or the audio file. */
  lemma NamePlan(stem: string)
    requires IsStem(stem)
    ensures RenamePlan(LangCodes, SourceNames(stem), TargetNames())
    ensures Relative(SourceNames(stem)) && Relative(TargetNames())
    ensures "video.mp4" !in SourceNames(stem) && "audio.wav" !in SourceNames(stem)
  {
    var v, e := LangCodes[0], LangCodes[1];
    SourceNotTarget(stem, v, v);
    SourceNotTarget(stem, v, e);
    SourceNotTarget(stem, e, v);
    SourceNotTarget(stem, e, e);
    SourcesDiffer(stem);
    TargetsDiffer();
    PairPlan(LangCodes, SourceNames(stem), TargetNames());
    NamesRelative(stem, v);
    NamesRelative(stem, e);
    NotMedia(stem, v);
    NotMedia(stem, e);
  }

  /** The subtitle files looked for in `folder` under `stem`. */
  function SourcesFor(folder: string, stem: string): (s: seq<string>)
    ensures |s| == |LangCodes|
  {
    InFolder(folder, SourceNames(stem))
  }

  /** The names those files are renamed to in `folder`. */
  function TargetsFor(folder: string): (t: seq<string>)
    ensures |t| == |LangCodes|
  {
    InFolder(folder, TargetNames())
  }

  /** A relative name outside `names` stays outside once everything is joined to one folder. */
  lemma JoinNotIn(folder: string, x: string, names: seq<string>)
    requires !StartsWith(x, "/") && Relative(names) && x !in names
    ensures Join(folder, x) !in InFolder(folder, names)
  {
    var ps := InFolder(folder, names);
    forall j | 0 <= j < |ps|
      ensures ps[j] != Join(folder, x)
    {
      JoinDistinct(folder, names[j], x);
    }
  }

  /** The subtitle files of either stem form a rename plan. */
  lemma SubtitlePlan(folder: string, stem: string)
    requires IsStem(stem)
    ensures RenamePlan(LangCodes, SourcesFor(folder, stem), TargetsFor(folder))
  {
    NamePlan(stem);
    JoinPlan(folder, LangCodes, SourceNames(stem), TargetNames());
  }

  /** Renaming subtitles never touches the video or the audio file. */
  lemma MediaNotSubtitle(folder: string, stem: string, media: string)
    requires IsStem(stem) && (media == "video.mp4" || media == "audio.wav")
    ensures Join(folder, media) !in SourcesFor(folder, stem)
  {
    NamePlan(stem);
    assert media[0] != '/';
    JoinNotIn(folder, media, SourceNames(stem));
  }

  /** The filesystem after the rename loop has visited the first `n` entries of the plan. */
  function Moved(fs0: set<string>, sources: seq<string>, targets: seq<string>, n: nat): set<string>
    requires n <= |sources| && n <= |targets|
  {
    if n == 0 then fs0
    else
      var fs := Moved(fs0, sources, targets, n - 1);
      if sources[n - 1] in fs then (fs - {sources[n - 1]}) + {targets[n - 1]} else fs
  }

  /** The language map after the rename loop has visited the first `n` entries of the plan. */
  function Found(fs0: set<string>, langs: seq<string>, sources: seq<string>, targets: seq<string>, n: nat): map<string, string>
    requires n <= |langs| && n <= |sources| && n <= |targets|
  {
    if n == 0 then map[]
    else
      var found := Found(fs0, langs, sources, targets, n - 1);
      if sources[n - 1] in Moved(fs0, sources, targets, n - 1) then found[langs[n - 1] := targets[n - 1]] else found
  }

  /** A file not yet visited by the loop is where it was. */
  lemma {:induction false} Unvisited(fs0: set<string>, langs: seq<string>, sources: seq<string>, targets: seq<string>, n: nat, j: nat)
    requires RenamePlan(langs, sources, targets) && n <= j < |langs|
    ensures sources[j] in Moved(fs0, sources, targets, n) <==> sources[j] in fs0
  {
    if n > 0 {
      Unvisited(fs0, langs, sources, targets, n - 1, j);
    }
  }

  /** After visiting `n` entries, the map holds exactly the visited languages whose file existed. */
  lemma {:induction false} FoundKeys(fs0: set<string>, langs: seq<string>, sources: seq<string>, targets: seq<string>, n: nat)
    requires RenamePlan(langs, sources, targets) && n <= |langs|
    ensures forall l :: l in Found(fs0, langs, sources, targets, n) ==> l in langs[..n]
    ensures forall j :: 0 <= j < n ==> (langs[j] in Found(fs0, langs, sources, targets, n) <==> sources[j] in fs0)
  {
    if n > 0 {
      FoundKeys(fs0, langs, sources, targets, n - 1);
      Unvisited(fs0, langs, sources, targets, n - 1, n - 1);
      assert langs[..n] == langs[..n - 1] + [langs[n - 1]];
    }
  }

  /** Each recorded language maps to its new name, which exists while the old name does not. */
  lemma {:induction false} FoundValues(fs0: set<string>, langs: seq<string>, sources: seq<string>, targets: seq<string>, n: nat)
    requires RenamePlan(langs, sources, targets) && n <= |langs|
    ensures forall j :: 0 <= j < n && langs[j] in Found(fs0, langs, sources, targets, n) ==>
      Found(fs0, langs, sources, targets, n)[langs[j]] == targets[j]
      && targets[j] in Moved(fs0, sources, targets, n) && sources[j] !in Moved(fs0, sources, targets, n)
  {
    if n > 0 {
      FoundValues(fs0, langs, sources, targets, n - 1);
      FoundKeys(fs0, langs, sources, targets, n - 1);
    }
  }

  /** The loop removes only files of the plan and adds only new names of recorded languages. */
  lemma {:induction false} MovedFrame(fs0: set<string>, langs: seq<string>, sources: seq<string>, targets: seq<string>, n: nat)
    requires RenamePlan(langs, sources, targets) && n <= |langs|
    ensures forall p :: p in fs0 && p !in sources ==> p in Moved(fs0, sources, targets, n)
    ensures forall p :: p in Moved(fs0, sources, targets, n) && p !in fs0 ==>
      exists j :: 0 <= j < n && langs[j] in Found(fs0, langs, sources, targets, n) && p == targets[j]
  {
    if n > 0 {
      MovedFrame(fs0, langs, sources, targets, n - 1);
      FoundKeys(fs0, langs, sources, targets, n);
    }
  }

  /** When no file of the plan exists, the loop changes nothing. */
  lemma {:induction false} NothingMoved(fs0: set<string>, sources: seq<string>, targets: seq<string>, n: nat)
    requires n <= |sources| && n <= |targets|
    requires forall j :: 0 <= j < n ==> sources[j] !in fs0
    ensures Moved(fs0, sources, targets, n) == fs0
  {
    if n > 0 {
      NothingMoved(fs0, sources, targets, n - 1);
    }
  }

  /**
   * The loop over `["vie-VN", "eng-US"]`: each subtitle file that exists is
   * renamed to `sub-<lang>.vtt` and recorded under its language.
   */
  method RelocateSubtitles(langs: seq<string>, sources: seq<string>, targets: seq<string>, fs0: set<string>)
    returns (found: map<string, string>, fs: set<string>)
    requires |sources| == |langs| && |targets| == |langs|
    ensures found == Found(fs0, langs, sources, targets, |langs|)
    ensures fs == Moved(fs0, sources, targets, |langs|)
  {
    found := map[];
    fs := fs0;
    for i := 0 to |langs|
      invariant found == Found(fs0, langs, sources, targets, i)
      invariant fs == Moved(fs0, sources, targets, i)
    {
      if sources[i] in fs {
        fs := (fs - {sources[i]}) + {targets[i]};
        found := found[langs[i] := targets[i]];
      }
    }
  }

  /**
   * The rename loop over a rename plan: afterwards the map holds, for each
   * language whose file existed, that file's new name, which now exists.
   */
  method Rename(langs: seq<string>, sources: seq<string>, targets: seq<string>, fs0: set<string>)
    returns (found: map<string, string>, fs: set<string>)
    requires RenamePlan(langs, sources, targets)
    ensures forall l :: l in found ==> l in langs
    ensures forall j :: 0 <= j < |langs| ==> (langs[j] in found <==> sources[j] in fs0)
    ensures forall j :: 0 <= j < |langs| && langs[j] in found ==> found[langs[j]] == targets[j] && targets[j] in fs
    ensures forall p :: p in fs0 && p !in sources ==> p in fs
    ensures found == map[] ==> fs == fs0
  {
    found, fs := RelocateSubtitles(langs, sources, targets, fs0);
    FoundKeys(fs0, langs, sources, targets, |langs|);
    FoundValues(fs0, langs, sources, targets, |langs|);
    MovedFrame(fs0, langs, sources, targets, |langs|);
    assert langs[..|langs|] == langs;
    if found == map[] {
      assert forall j :: 0 <= j < |sources| ==> sources[j] !in fs0 by {
        forall j | 0 <= j < |sources|
          ensures sources[j] !in fs0
        {
          assert langs[j] !in found;
        }
      }
      NothingMoved(fs0, sources, targets, |sources|);
    }
  }

  /** The files of one video folder the download looks at. */
  datatype Layout = Layout(
    langs: seq<string>, video: string, audio: string,
    videoSubs: seq<string>, subSubs: seq<string>, targets: seq<string>)

  /** No two roles of a layout share a file: both subtitle stems form a rename plan, sparing video and audio. */
  predicate Sound(l: Layout)
  {
    RenamePlan(l.langs, l.videoSubs, l.targets) && RenamePlan(l.langs, l.subSubs, l.targets)
    && l.video !in l.videoSubs && l.video !in l.subSubs
    && l.audio !in l.videoSubs && l.audio !in l.subSubs
  }

  /** The files `download_single_video` looks at in `folder`; whatever the folder, they are laid out soundly. */
  function FolderLayout(folder: string): (l: Layout)
    ensures Sound(l)
  {
    SubtitlePlan(folder, "video.");
    SubtitlePlan(folder, "sub.");
    MediaNotSubtitle(folder, "video.", "video.mp4");
    MediaNotSubtitle(folder, "sub.", "video.mp4");
    MediaNotSubtitle(folder, "video.", "audio.wav");
    MediaNotSubtitle(folder, "sub.", "audio.wav");
    Layout(LangCodes, Join(folder, "video.mp4"), Join(folder, "audio.wav"),
      SourcesFor(folder, "video."), SourcesFor(folder, "sub."), TargetsFor(folder))
  }

  /** None of `files` exists in `fs`. */
  predicate NoneFound(files: seq<string>, fs: set<string>)
  {
    forall j :: 0 <= j < |files| ==> files[j] !in fs
  }

  /** The filesystem right after the video fetch, when there is one. */
  function AfterVideo(video: bool, tool: Tool, fs0: set<string>): (fs: set<string>)
    ensures fs0 <= fs
    ensures video ==> tool.videoFiles <= fs
  {
    fs0 + (if video then tool.videoFiles else {})
  }

  /** Whether the separate subtitle fetch runs: subtitles were asked for and none came with the video. */
  predicate Separate(l: Layout, video: bool, subtitles: bool, tool: Tool, fs0: set<string>)
  {
    subtitles && (!video || NoneFound(l.videoSubs, AfterVideo(video, tool, fs0)))
  }

  /**
   * What follows a video fetch that returned, having written `files`: the
   * video path if the file is there, then (with `subtitles`) the rename of
   * the subtitle files written beside it.
   */
  method VideoPhase(l: Layout, subtitles: bool, files: set<string>, fs0: set<string>)
    returns (video: Option<string>, subs: map<string, string>, fs: set<string>)
    requires Sound(l)
    ensures video.Some? <==> l.video in fs0 + files
    ensures video.Some? ==> video.value == l.video
    ensures forall p :: p in fs0 + files && p !in l.videoSubs ==> p in fs
    ensures forall k :: k in subs ==> subtitles && k in l.langs
    ensures forall j :: 0 <= j < |l.langs| && l.langs[j] in subs ==> subs[l.langs[j]] == l.targets[j] && l.targets[j] in fs
    ensures subtitles ==> forall j :: 0 <= j < |l.langs| ==> (l.langs[j] in subs <==> l.videoSubs[j] in fs0 + files)
    ensures subs == map[] ==> fs == fs0 + files
  {
    fs := fs0 + files;
    video := if l.video in fs then Some(l.video) else None;
    subs := map[];
    if subtitles {
      subs, fs := Rename(l.langs, l.videoSubs, l.targets, fs);
    }
  }

  /** The probe and the mkdir both returned. */
  predicate Prepared(tool: Tool)
  {
    tool.Outcome(Probe).Returns? && tool.makeFolder.Returns?
  }

  /**
   * The fetches that follow a successful probe and mkdir, in a folder laid
   * out as `l`: the paths found, the fetch that raised (if one did) and the
   * filesystem afterwards.
   */
  method Fetches(l: Layout, video: bool, audio: bool, subtitles: bool, tool: Tool, fs0: set<string>)
    returns (paths: PathsRecord, failed: Option<Step>, fs: set<string>)
    requires Sound(l)
    ensures failed == FirstRaise(FetchPlan(video, audio, Separate(l, video, subtitles, tool, fs0)), tool)
    ensures paths.video.Some? ==> video && paths.video.value == l.video && l.video in fs
    ensures video && tool.fetchVideo.Returns? ==>
      (paths.video.Some? <==> l.video in AfterVideo(video, tool, fs0))
    ensures paths.audio.Some? ==> audio && paths.audio.value == l.audio && l.audio in fs
    ensures (audio && (!video || tool.fetchVideo.Returns?) && tool.fetchAudio.Returns?
      && l.audio in AfterVideo(video, tool, fs0) + tool.audioFiles) ==> paths.audio.Some?
    ensures forall k :: k in paths.subtitles ==> subtitles && k in l.langs
    ensures forall j :: 0 <= j < |l.langs| && l.langs[j] in paths.subtitles ==>
      paths.subtitles[l.langs[j]] == l.targets[j] && l.targets[j] in fs
    ensures video && tool.fetchVideo.Returns? && subtitles ==>
      forall j :: 0 <= j < |l.langs| && l.videoSubs[j] in AfterVideo(video, tool, fs0) ==> l.langs[j] in paths.subtitles
    ensures (Separate(l, video, subtitles, tool, fs0) && (!video || tool.fetchVideo.Returns?)
      && (!audio || tool.fetchAudio.Returns?) && tool.fetchSubtitles.Returns?) ==>
      forall j :: 0 <= j < |l.langs| ==>
        (l.langs[j] in paths.subtitles <==>
          l.subSubs[j] in AfterVideo(video, tool, fs0) + (if audio then tool.audioFiles else {}) + tool.subtitleFiles)
    // the clean-up never removes a file: what was there stays unless it is a
    // renamed subtitle, and a fetched video or audio file is kept
    ensures forall p :: p in fs0 && p !in l.videoSubs && p !in l.subSubs ==> p in fs
    ensures video && tool.fetchVideo.Returns? && l.video in AfterVideo(video, tool, fs0) ==> l.video in fs
    ensures (audio && (!video || tool.fetchVideo.Returns?) && tool.fetchAudio.Returns?
      && l.audio in AfterVideo(video, tool, fs0) + tool.audioFiles) ==> l.audio in fs
  {
    paths := PathsRecord(None, None, map[]);
    failed := None;
    fs := fs0;
    // whether `actual_video_path` and `actual_audio_path` are bound
    var videoBound, audioBound := false, false;
    FirstRaiseFetches(video, audio, Separate(l, video, subtitles, tool, fs0), tool);
    if video {
      if tool.fetchVideo.Raises? {
        failed := Some(FetchVideo);
        return;
      }
      videoBound := true;
      var v, subs;
      v, subs, fs := VideoPhase(l, subtitles, tool.videoFiles, fs);
      paths := paths.(video := v, subtitles := subs);
    }
    if audio {
      if tool.fetchAudio.Raises? {
        failed := Some(FetchAudio);
        return;
      }
      audioBound := true;
      fs := fs + tool.audioFiles;
      if l.audio in fs {
        paths := paths.(audio := Some(l.audio));
      }
    }
    if subtitles && paths.subtitles == map[] {
      if tool.fetchSubtitles.Raises? {
        failed := Some(FetchSubtitles);
        return;
      }
      var subs;
      subs, fs := Rename(l.langs, l.subSubs, l.targets, fs + tool.subtitleFiles);
      paths := paths.(subtitles := subs);
      // the clean-up of a video or audio file fetched against its flag
      if !video && videoBound && l.video in fs {
        fs := fs - {l.video};
      }
      if !audio && audioBound && l.audio in fs {
        fs := fs - {l.audio};
      }
    }
  }

  /**
   * The body of `download_single_video` once the video's folder `folder`
   * and its layout `L` are known: probe, make the folder, fetch.
   */
  method Attempt(folder: string, L: Layout, url: string, video: bool, audio: bool, subtitles: bool, tool: Tool, fs0: set<string>)
    returns (r: DownloadResult, failed: Option<Step>, fs: set<string>)
    requires Sound(L)
    ensures r.url == url && r.platform == IdentifyPlatform(url) && r.timestamp == NatToString(tool.clock)
    // the step that raised: the first of the plan, in the order the source runs them
    ensures failed == FirstRaise(Plan(video, audio, Separate(L, video, subtitles, tool, fs0 + {folder})), tool)
    ensures r.success <==> failed.None?
    ensures r.error.Some? <==> failed.Some?
    ensures r.error.Some? ==> tool.Outcome(failed.value) == Raises(r.error.value)
    // the video and audio paths: reported exactly when the file is there after its fetch
    ensures r.paths.video.Some? ==> video && r.paths.video.value == L.video && L.video in fs
    ensures Prepared(tool) && video && tool.fetchVideo.Returns? ==>
      (r.paths.video.Some? <==> L.video in AfterVideo(video, tool, fs0 + {folder}))
    ensures r.paths.audio.Some? ==> audio && r.paths.audio.value == L.audio && L.audio in fs
    ensures (Prepared(tool) && audio && (!video || tool.fetchVideo.Returns?) && tool.fetchAudio.Returns?
      && L.audio in AfterVideo(video, tool, fs0 + {folder}) + tool.audioFiles) ==> r.paths.audio.Some?
    // the subtitles: renamed files of the listed languages
    ensures forall k :: k in r.paths.subtitles ==> subtitles && k in L.langs
    ensures forall j :: 0 <= j < |L.langs| && L.langs[j] in r.paths.subtitles ==>
      r.paths.subtitles[L.langs[j]] == L.targets[j] && L.targets[j] in fs
    ensures Prepared(tool) && video && tool.fetchVideo.Returns? && subtitles ==>
      forall j :: 0 <= j < |L.langs| && L.videoSubs[j] in AfterVideo(video, tool, fs0 + {folder}) ==> L.langs[j] in r.paths.subtitles
    ensures (Prepared(tool) && Separate(L, video, subtitles, tool, fs0 + {folder}) && (!video || tool.fetchVideo.Returns?)
      && (!audio || tool.fetchAudio.Returns?) && tool.fetchSubtitles.Returns?) ==>
      forall j :: 0 <= j < |L.langs| ==>
        (L.langs[j] in r.paths.subtitles <==>
          L.subSubs[j] in AfterVideo(video, tool, fs0 + {folder}) + (if audio then tool.audioFiles else {}) + tool.subtitleFiles)
    // the filesystem: only subtitle files are ever removed, and the clean-up
    // keeps a video or audio file that its fetch left
    ensures forall p :: p in fs0 && p !in L.videoSubs && p !in L.subSubs ==> p in fs
    ensures Prepared(tool) && video && tool.fetchVideo.Returns? && L.video in AfterVideo(video, tool, fs0 + {folder}) ==> L.video in fs
    ensures (Prepared(tool) && audio && (!video || tool.fetchVideo.Returns?) && tool.fetchAudio.Returns?
      && L.audio in AfterVideo(video, tool, fs0 + {folder}) + tool.audioFiles) ==> L.audio in fs
  {
    r := DownloadResult(url, IdentifyPlatform(url), NatToString(tool.clock), false, PathsRecord(None, None, map[]), None);
    fs := fs0;
    FirstRaisePlan(video, audio, Separate(L, video, subtitles, tool, fs0 + {folder}), tool);
    if tool.Outcome(Probe).Raises? {
      failed := Some(Probe);
      r := r.(error := Some(tool.Outcome(Probe).message));
      return;
    }
    if tool.makeFolder.Raises? {
      failed := Some(MakeFolder);
      r := r.(error := Some(tool.makeFolder.message));
      return;
    }
    var paths;
    paths, failed, fs := Fetches(L, video, audio, subtitles, tool, fs + {folder});
    r := r.(paths := paths, success := failed.None?,
      error := if failed.Some? then Some(tool.Outcome(failed.value).message) else None);
  }

  /**
   * `download_single_video(url, video, audio, subtitles)` run against `tool`
   * on the filesystem `fs0`: the result record, the step whose exception was
   * caught (if one was), and the filesystem afterwards. `folder` is the
   * video's folder and `L` its layout.
   */
  method DownloadSingleVideo(d: Downloader, url: string, video: bool, audio: bool, subtitles: bool, tool: Tool, fs0: set<string>)
    returns (r: DownloadResult, failed: Option<Step>, fs: set<string>, ghost folder: string, ghost L: Layout)
    ensures Sound(L) && L.langs == LangCodes
    ensures r.url == url && r.platform == IdentifyPlatform(url) && r.timestamp == NatToString(tool.clock)
    // the step that raised: the first of the plan, in the order the source runs them
    ensures failed == FirstRaise(Plan(video, audio, Separate(L, video, subtitles, tool, fs0 + {folder})), tool)
    ensures r.success <==> failed.None?
    ensures r.error.Some? <==> failed.Some?
    ensures r.error.Some? ==> tool.Outcome(failed.value) == Raises(r.error.value)
    // the video and audio paths: reported exactly when the file is there after its fetch
    ensures r.paths.video.Some? ==> video && r.paths.video.value == L.video && L.video in fs
    ensures Prepared(tool) && video && tool.fetchVideo.Returns? ==>
      (r.paths.video.Some? <==> L.video in AfterVideo(video, tool, fs0 + {folder}))
    ensures r.paths.audio.Some? ==> audio && r.paths.audio.value == L.audio && L.audio in fs
    ensures (Prepared(tool) && audio && (!video || tool.fetchVideo.Returns?) && tool.fetchAudio.Returns?
      && L.audio in AfterVideo(video, tool, fs0 + {folder}) + tool.audioFiles) ==> r.paths.audio.Some?
    // the subtitles: renamed files of the listed languages
    ensures forall k :: k in r.paths.subtitles ==> subtitles && k in L.langs
    ensures forall j :: 0 <= j < |L.langs| && L.langs[j] in r.paths.subtitles ==>
      r.paths.subtitles[L.langs[j]] == L.targets[j] && L.targets[j] in fs
    ensures Prepared(tool) && video && tool.fetchVideo.Returns? && subtitles ==>
      forall j :: 0 <= j < |L.langs| && L.videoSubs[j] in AfterVideo(video, tool, fs0 + {folder}) ==> L.langs[j] in r.paths.subtitles
    ensures (Prepared(tool) && Separate(L, video, subtitles, tool, fs0 + {folder}) && (!video || tool.fetchVideo.Returns?)
      && (!audio || tool.fetchAudio.Returns?) && tool.fetchSubtitles.Returns?) ==>
      forall j :: 0 <= j < |L.langs| ==>
        (L.langs[j] in r.paths.subtitles <==>
          L.subSubs[j] in AfterVideo(video, tool, fs0 + {folder}) + (if audio then tool.audioFiles else {}) + tool.subtitleFiles)
    // the filesystem: only subtitle files are ever removed, and the clean-up
    // keeps a video or audio file that its fetch left
    ensures forall p :: p in fs0 && p !in L.videoSubs && p !in L.subSubs ==> p in fs
    ensures Prepared(tool) && video && tool.fetchVideo.Returns? && L.video in AfterVideo(video, tool, fs0 + {folder}) ==> L.video in fs
    ensures (Prepared(tool) && audio && (!video || tool.fetchVideo.Returns?) && tool.fetchAudio.Returns?
      && L.audio in AfterVideo(video, tool, fs0 + {folder}) + tool.audioFiles) ==> L.audio in fs
    ensures folder == VideoFolder(d, tool.title) && L == FolderLayout(folder)
  {
    var dir := VideoFolder(d, tool.title);
    var layout := FolderLayout(dir);
    folder, L := dir, layout;
    r, failed, fs := Attempt(dir, layout, url, video, audio, subtitles, tool, fs0);
  }
}

/**
 * The browser-based downloader of the top-level social_video_downloader.py:
 * its platform table, the recursive search of a page's JSON for a media URL,
 * the three helpers that save a video, subtitles and a caption, and the
 * `download_from_url` dispatch.
 *
 * The page extractors are an oracle returning the scraped info record.
 * The HTTP client and the file system are the `Env` oracle: whether a
 * request to a URL succeeds and whether a path can be opened for writing.
 * What the downloader does to the outside world is recorded, in order, as
 * a sequence of effects.
 */
module BrowserDownloader {
  import opened Wrappers
  import opened Strings
  import Classify

  // ---------------------------------------------------------------------------
  // identify_platform

  /** The needle table of this file's `identify_platform`, in branch order. */
  const Rules: seq<(string, Classify.Platform)> := [
    ("tiktok.com", Classify.TikTok), ("instagram.com", Classify.Instagram),
    ("facebook.com", Classify.Facebook), ("fb.com", Classify.Facebook),
    ("youtube.com", Classify.YouTube), ("youtu.be", Classify.YouTube),
    ("twitter.com", Classify.Twitter), ("x.com", Classify.Twitter)]

  /** `identify_platform(url)`: the first rule whose needle occurs in the lower-cased netloc. */
  function IdentifyPlatform(url: string): (p: Classify.Platform)
    ensures p == Classify.IdentifyPlatform(url)
  {
    Classify.ClassifyDomainIsFirstMatch(Lower(Classify.Netloc(url)));
    Classify.FirstMatch(Rules, Lower(Classify.Netloc(url)))
  }

  // ---------------------------------------------------------------------------
  // extract_url_from_json

  /** A value produced by `json.loads`; objects keep their keys in iteration order. */
  datatype Json =
    | JNull
    | JBool(b: bool)
    | JNumber(n: int)
    | JString(s: string)
    | JArray(items: seq<Json>)
    | JObject(members: seq<Member>)

  /** One key and its value in an object. */
  datatype Member = Member(key: string, value: Json)

  /** `isinstance(v, (dict, list))`. */
  predicate IsContainer(d: Json)
  {
    d.JArray? || d.JObject?
  }

  /** The member is `key` holding a string that starts with "http". */
  predicate Qualifies(m: Member, key: string)
  {
    m.key == key && m.value.JString? && StartsWith(m.value.s, "http")
  }

  /**
   * `extract_url_from_json(data, key)`. A found URL starts with "http" and so
   * is never empty: the source's `if result:` is the same test as `r.Some?`.
   */
  function ExtractUrl(data: Json, key: string): (r: Option<string>)
    ensures r.Some? ==> StartsWith(r.value, "http")
    ensures !IsContainer(data) ==> r == None
    decreases data
  {
    match data
    case JObject(ms) => ExtractFromMembers(ms, key, 0)
    case JArray(items) => ExtractFromItems(items, key, 0)
    case _ => None
  }

  /** The `for k, v in data.items()` loop, from member `k` on. */
  function ExtractFromMembers(ms: seq<Member>, key: string, k: nat): (r: Option<string>)
    ensures r.Some? ==> StartsWith(r.value, "http")
    decreases ms, |ms| - k
  {
    if k >= |ms| then None
    else if Qualifies(ms[k], key) then Some(ms[k].value.s)
    else if IsContainer(ms[k].value) && ExtractUrl(ms[k].value, key).Some? then ExtractUrl(ms[k].value, key)
    else ExtractFromMembers(ms, key, k + 1)
  }

  /** The `for item in data` loop, from item `k` on. */
  function ExtractFromItems(items: seq<Json>, key: string, k: nat): (r: Option<string>)
    ensures r.Some? ==> StartsWith(r.value, "http")
    decreases items, |items| - k
  {
    if k >= |items| then None
    else if ExtractUrl(items[k], key).Some? then ExtractUrl(items[k], key)
    else ExtractFromItems(items, key, k + 1)
  }

  /** One hop into a container: the member or the item at a position. */
  datatype Hop = Key(i: nat) | Index(i: nat)

  /**
   * Following `path` from `d` reaches a member named `key` whose value is the
   * string `s`: the path ends with the hop to that member.
   */
  predicate HeldAt(d: Json, path: seq<Hop>, key: string, s: string)
    decreases path
  {
    path != [] &&
    match d
    case JObject(ms) =>
      path[0].Key? && path[0].i < |ms| &&
      if |path| == 1 then ms[path[0].i].key == key && ms[path[0].i].value == JString(s)
      else HeldAt(ms[path[0].i].value, path[1..], key, s)
    case JArray(items) =>
      path[0].Index? && path[0].i < |items| && |path| > 1 && HeldAt(items[path[0].i], path[1..], key, s)
    case _ => false
  }

  /**
   * The reference order of the search: every string starting with "http" held
   * by a member named `key`, depth first, members and items in iteration order.
   */
  function Candidates(d: Json, key: string): (cs: seq<string>)
    decreases d
  {
    match d
    case JObject(ms) => MemberCandidates(ms, key, 0)
    case JArray(items) => ItemCandidates(items, key, 0)
    case _ => []
  }

  /** The candidates under the members from position `k` on. */
  function MemberCandidates(ms: seq<Member>, key: string, k: nat): (cs: seq<string>)
    decreases ms, |ms| - k
  {
    if k >= |ms| then []
    else
      (if Qualifies(ms[k], key) then [ms[k].value.s] else [])
      + Candidates(ms[k].value, key) + MemberCandidates(ms, key, k + 1)
  }

  /** The candidates under the items from position `k` on. */
  function ItemCandidates(items: seq<Json>, key: string, k: nat): (cs: seq<string>)
    decreases items, |items| - k
  {
    if k >= |items| then []
    else Candidates(items[k], key) + ItemCandidates(items, key, k + 1)
  }

  /** The first element of a sequence, if any. */
  function First(cs: seq<string>): (r: Option<string>)
    ensures r.Some? <==> cs != []
    ensures r.Some? ==> r.value == cs[0]
  {
    if cs == [] then None else Some(cs[0])
  }

  /** The search returns the first candidate in depth-first order, and None when there is none. */
  lemma {:induction false} ExtractIsFirstCandidate(d: Json, key: string)
    ensures ExtractUrl(d, key) == First(Candidates(d, key))
    decreases d
  {
    match d
    case JObject(ms) => MembersFirstCandidate(ms, key, 0);
    case JArray(items) => ItemsFirstCandidate(items, key, 0);
    case _ =>
  }

  lemma {:induction false} MembersFirstCandidate(ms: seq<Member>, key: string, k: nat)
    ensures ExtractFromMembers(ms, key, k) == First(MemberCandidates(ms, key, k))
    decreases ms, |ms| - k
  {
    if k < |ms| {
      ExtractIsFirstCandidate(ms[k].value, key);
      MembersFirstCandidate(ms, key, k + 1);
    }
  }

  lemma {:induction false} ItemsFirstCandidate(items: seq<Json>, key: string, k: nat)
    ensures ExtractFromItems(items, key, k) == First(ItemCandidates(items, key, k))
    decreases items, |items| - k
  {
    if k < |items| {
      ExtractIsFirstCandidate(items[k], key);
      ItemsFirstCandidate(items, key, k + 1);
    }
  }

  /** A found URL is the value of a member named `key` somewhere in the structure. */
  lemma {:induction false} ExtractFoundAt(d: Json, key: string) returns (path: seq<Hop>)
    requires ExtractUrl(d, key).Some?
    ensures HeldAt(d, path, key, ExtractUrl(d, key).value)
    decreases d
  {
    match d
    case JObject(ms) => path := MembersFoundAt(ms, key, 0);
    case JArray(items) => path := ItemsFoundAt(items, key, 0);
  }

  lemma {:induction false} MembersFoundAt(ms: seq<Member>, key: string, k: nat) returns (path: seq<Hop>)
    requires ExtractFromMembers(ms, key, k).Some?
    ensures HeldAt(JObject(ms), path, key, ExtractFromMembers(ms, key, k).value)
    decreases ms, |ms| - k
  {
    if Qualifies(ms[k], key) {
      path := [Key(k)];
    } else if IsContainer(ms[k].value) && ExtractUrl(ms[k].value, key).Some? {
      var rest := ExtractFoundAt(ms[k].value, key);
      path := [Key(k)] + rest;
      assert path[1..] == rest;
    } else {
      path := MembersFoundAt(ms, key, k + 1);
    }
  }

  lemma {:induction false} ItemsFoundAt(items: seq<Json>, key: string, k: nat) returns (path: seq<Hop>)
    requires ExtractFromItems(items, key, k).Some?
    ensures HeldAt(JArray(items), path, key, ExtractFromItems(items, key, k).value)
    decreases items, |items| - k
  {
    if ExtractUrl(items[k], key).Some? {
      var rest := ExtractFoundAt(items[k], key);
      path := [Index(k)] + rest;
      assert path[1..] == rest;
    } else {
      path := ItemsFoundAt(items, key, k + 1);
    }
  }

  /**
   * The search misses nothing: if any member named `key` anywhere holds a
   * string starting with "http", the result is not None.
   */
  lemma {:induction false} ExtractFindsAny(d: Json, path: seq<Hop>, key: string, s: string)
    requires HeldAt(d, path, key, s) && StartsWith(s, "http")
    ensures ExtractUrl(d, key).Some?
    decreases path
  {
    var i := path[0].i;
    match d
    case JObject(ms) =>
      if |path| > 1 {
        ExtractFindsAny(ms[i].value, path[1..], key, s);
      }
      MembersReach(ms, key, 0, i);
    case JArray(items) =>
      ExtractFindsAny(items[i], path[1..], key, s);
      ItemsReach(items, key, 0, i);
  }

  /** The members loop reaches member `i` unless it has already returned a URL. */
  lemma {:induction false} MembersReach(ms: seq<Member>, key: string, k: nat, i: nat)
    requires k <= i < |ms|
    requires Qualifies(ms[i], key) || ExtractUrl(ms[i].value, key).Some?
    ensures ExtractFromMembers(ms, key, k).Some?
    decreases i - k
  {
    if k < i && !Qualifies(ms[k], key) && !(IsContainer(ms[k].value) && ExtractUrl(ms[k].value, key).Some?) {
      MembersReach(ms, key, k + 1, i);
    }
  }

  /** The items loop reaches item `i` unless it has already returned a URL. */
  lemma {:induction false} ItemsReach(items: seq<Json>, key: string, k: nat, i: nat)
    requires k <= i < |items|
    requires ExtractUrl(items[i], key).Some?
    ensures ExtractFromItems(items, key, k).Some?
    decreases i - k
  {
    if k < i && ExtractUrl(items[k], key).None? {
      ItemsReach(items, key, k + 1, i);
    }
  }

  /** A matching key whose value is an object is searched into, not returned. */
  lemma ContainerValueSearchedInto(key: string, inner: string)
    requires StartsWith(inner, "http")
    ensures ExtractUrl(JObject([Member(key, JObject([Member(key, JString(inner))]))]), key) == Some(inner)
  {
    var inside := JObject([Member(key, JString(inner))]);
    assert ExtractFromMembers(inside.members, key, 0) == Some(inner);
    assert ExtractUrl(inside, key) == Some(inner);
    assert !Qualifies(Member(key, inside), key);
  }

  // ---------------------------------------------------------------------------
  // Saving a video, subtitles and a caption

  /** What the downloader did: sent a GET request, or opened a file and wrote it. */
  datatype Effect = Request(url: string) | Write(path: string)

  /** The outside world: whether a GET of a URL succeeds, and whether a path can be opened for writing. */
  datatype Env = Env(fetches: string -> bool, writable: string -> bool)

  /** One subtitle track as scraped from the page: its `src` and `srclang` keys. */
  datatype Track = Track(src: Field, srclang: Field)

  /** Python's truth value of an optional string. */
  predicate TextTruthy(o: Option<string>)
  {
    o.Some? && o.value != ""
  }

  /** Python's truth value of an optional list of tracks. */
  predicate TracksTruthy(o: Option<seq<Track>>)
  {
    o.Some? && o.value != []
  }

  function VideoPath(dir: string, filename: string): string { dir + "/videos/" + filename + ".mp4" }
  function SubtitlePath(dir: string, filename: string): string { dir + "/subtitles/" + filename + ".json" }
  function VttPath(dir: string, filename: string, lang: string): string { dir + "/subtitles/" + filename + "_" + lang + ".vtt" }
  function CaptionPath(dir: string, filename: string): string { dir + "/subtitles/" + filename + "_caption.txt" }

  /** `download_video` returns True: a non-empty URL whose request succeeded and whose file could be opened. */
  predicate VideoSaved(dir: string, videoUrl: Option<string>, filename: string, env: Env)
  {
    TextTruthy(videoUrl) && env.fetches(videoUrl.value) && env.writable(VideoPath(dir, filename))
  }

  /** The log after `download_video`: the request, then the file if the request succeeded. */
  function AfterVideo(log: seq<Effect>, dir: string, videoUrl: Option<string>, filename: string, env: Env): (after: seq<Effect>)
  {
    if !TextTruthy(videoUrl) then log
    else if VideoSaved(dir, videoUrl, filename, env) then log + [Request(videoUrl.value)] + [Write(VideoPath(dir, filename))]
    else log + [Request(videoUrl.value)]
  }

  /** `sub.get('srclang', f'lang{i}')`: the index stands in only when the key is missing. */
  function TrackLang(i: nat, t: Track): (lang: string)
    ensures t.srclang.Absent? ==> lang == "lang" + NatToString(i)
    ensures t.srclang.Text? ==> lang == t.srclang.s
  {
    if t.srclang.Absent? then "lang" + NatToString(i) else FieldText(t.srclang)
  }

  /** The log after track `i`: its request when `src` is truthy, then its `.vtt` file if that succeeded. */
  function AfterTrack(log: seq<Effect>, dir: string, filename: string, i: nat, t: Track, env: Env): (after: seq<Effect>)
  {
    if !Truthy(t.src) then log
    else if env.fetches(t.src.s) && env.writable(VttPath(dir, filename, TrackLang(i, t)))
    then log + [Request(t.src.s)] + [Write(VttPath(dir, filename, TrackLang(i, t)))]
    else log + [Request(t.src.s)]
  }

  /** The log after the first `n` tracks, in list order. */
  function AfterTracks(log: seq<Effect>, dir: string, filename: string, tracks: seq<Track>, n: nat, env: Env): (after: seq<Effect>)
    requires n <= |tracks|
  {
    if n == 0 then log
    else AfterTrack(AfterTracks(log, dir, filename, tracks, n - 1, env), dir, filename, n - 1, tracks[n - 1], env)
  }

  /** `download_subtitles` returns True: a non-empty track list whose JSON file could be opened. */
  predicate SubtitlesSaved(dir: string, subtitles: Option<seq<Track>>, filename: string, env: Env)
  {
    TracksTruthy(subtitles) && env.writable(SubtitlePath(dir, filename))
  }

  /**
   * The log after `download_subtitles`: the JSON file, then, when the first
   * track has a `src` key, every track's request and `.vtt` file.
   */
  function AfterSubtitles(log: seq<Effect>, dir: string, subtitles: Option<seq<Track>>, filename: string, env: Env): (after: seq<Effect>)
  {
    if !SubtitlesSaved(dir, subtitles, filename, env) then log
    else if subtitles.value[0].src.Absent? then log + [Write(SubtitlePath(dir, filename))]
    else AfterTracks(log + [Write(SubtitlePath(dir, filename))], dir, filename, subtitles.value, |subtitles.value|, env)
  }

  /** `save_caption` returns True: a non-empty caption whose file could be opened. */
  predicate CaptionSaved(dir: string, caption: Option<string>, filename: string, env: Env)
  {
    TextTruthy(caption) && env.writable(CaptionPath(dir, filename))
  }

  /** The log after `save_caption`. */
  function AfterCaption(log: seq<Effect>, dir: string, caption: Option<string>, filename: string, env: Env): (after: seq<Effect>)
  {
    if CaptionSaved(dir, caption, filename, env) then log + [Write(CaptionPath(dir, filename))] else log
  }

  /**
   * The three helpers return False, and send no request and write nothing,
   * when their input is falsy.
   */
  lemma FalsyInputsDoNothing(log: seq<Effect>, dir: string, filename: string, env: Env,
                             videoUrl: Option<string>, subtitles: Option<seq<Track>>, caption: Option<string>)
    requires !TextTruthy(videoUrl) && !TracksTruthy(subtitles) && !TextTruthy(caption)
    ensures !VideoSaved(dir, videoUrl, filename, env) && AfterVideo(log, dir, videoUrl, filename, env) == log
    ensures !SubtitlesSaved(dir, subtitles, filename, env) && AfterSubtitles(log, dir, subtitles, filename, env) == log
    ensures !CaptionSaved(dir, caption, filename, env) && AfterCaption(log, dir, caption, filename, env) == log
  {
  }

  /** The track loop only appends: the log after `m` tracks is a prefix of the log after `n >= m`. */
  lemma {:induction false} TracksOnlyAppend(log: seq<Effect>, dir: string, filename: string, tracks: seq<Track>, m: nat, n: nat, env: Env)
    requires m <= n <= |tracks|
    ensures AfterTracks(log, dir, filename, tracks, m, env) <= AfterTracks(log, dir, filename, tracks, n, env)
  {
    if m < n {
      TracksOnlyAppend(log, dir, filename, tracks, m, n - 1, env);
      var mid := AfterTracks(log, dir, filename, tracks, n - 1, env);
      var last := AfterTracks(log, dir, filename, tracks, n, env);
      assert mid <= last;
      PrefixTransitive(AfterTracks(log, dir, filename, tracks, m, env), mid, last);
    }
  }

  lemma PrefixTransitive(a: seq<Effect>, b: seq<Effect>, c: seq<Effect>)
    requires a <= b && b <= c
    ensures a <= c
  {
    assert c[..|b|] == b;
    assert c[..|a|] == b[..|a|];
  }

  /**
   * A track without a `srclang` key whose `src` could be fetched is saved as
   * `<filename>_lang<i>.vtt`, `i` being its position in the list.
   */
  lemma TrackWithoutLangUsesIndex(dir: string, filename: string, tracks: seq<Track>, i: nat, env: Env)
    requires SubtitlesSaved(dir, Some(tracks), filename, env) && !tracks[0].src.Absent?
    requires i < |tracks| && Truthy(tracks[i].src) && tracks[i].srclang.Absent?
    requires env.fetches(tracks[i].src.s)
    requires env.writable(dir + "/subtitles/" + filename + "_lang" + NatToString(i) + ".vtt")
    ensures Write(dir + "/subtitles/" + filename + "_lang" + NatToString(i) + ".vtt") in AfterSubtitles([], dir, Some(tracks), filename, env)
  {
    var path := dir + "/subtitles/" + filename + "_lang" + NatToString(i) + ".vtt";
    var start := [Write(SubtitlePath(dir, filename))];
    assert VttPath(dir, filename, TrackLang(i, tracks[i])) == path;
    var upto := AfterTracks(start, dir, filename, tracks, i + 1, env);
    assert upto[|upto| - 1] == Write(path);
    TracksOnlyAppend(start, dir, filename, tracks, i + 1, |tracks|, env);
    var all := AfterTracks(start, dir, filename, tracks, |tracks|, env);
    assert all[|upto| - 1] == Write(path);
    assert [] + start == start;
    assert AfterSubtitles([], dir, Some(tracks), filename, env) == all;
  }

  /** Tracks without a `srclang` key at different positions are written to different `.vtt` paths. */
  lemma IndexedLangsDiffer(dir: string, filename: string, i: nat, j: nat, t: Track, u: Track)
    requires i != j && t.srclang.Absent? && u.srclang.Absent?
    ensures VttPath(dir, filename, TrackLang(i, t)) != VttPath(dir, filename, TrackLang(j, u))
  {
    var prefix := dir + "/subtitles/" + filename + "_lang";
    NatToStringInjective(i, j);
    assert VttPath(dir, filename, TrackLang(i, t)) == prefix + NatToString(i) + ".vtt";
    assert VttPath(dir, filename, TrackLang(j, u)) == prefix + NatToString(j) + ".vtt";
    EnclosedEqual(prefix, NatToString(i), NatToString(j), ".vtt");
  }

  /** Two tracks whose `srclang` is the same string, empty included, are written to the same `.vtt` path. */
  lemma SameLangSamePath(dir: string, filename: string, i: nat, j: nat, t: Track, u: Track)
    requires t.srclang.Text? && t.srclang == u.srclang
    ensures VttPath(dir, filename, TrackLang(i, t)) == VttPath(dir, filename, TrackLang(j, u))
  {
  }

  // ---------------------------------------------------------------------------
  // download_from_url

  /** The page extractor a platform is dispatched to. */
  datatype Extractor = TikTokPage | InstagramPage | YouTubePage | GenericPage

  /** TikTok, Instagram and YouTube have their own extractor; every other platform gets the generic one. */
  function ExtractorFor(p: Classify.Platform): (e: Extractor)
    ensures e == TikTokPage <==> p == Classify.TikTok
    ensures e == InstagramPage <==> p == Classify.Instagram
    ensures e == YouTubePage <==> p == Classify.YouTube
  {
    match p
    case TikTok => TikTokPage
    case Instagram => InstagramPage
    case YouTube => YouTubePage
    case _ => GenericPage
  }

  /** The `subtitles` key of an info record: missing, `None`, or a list of tracks. */
  datatype Subtitles = NoSubtitles | NullSubtitles | TrackList(tracks: seq<Track>)

  /** The keys of an info record returned by an extractor. */
  datatype VideoInfo = VideoInfo(videoUrl: Field, caption: Field, title: Field, subtitles: Subtitles)

  /** A dictionary is truthy when it has at least one key. */
  predicate InfoTruthy(info: Option<VideoInfo>)
  {
    info.Some? &&
    (!info.value.videoUrl.Absent? || !info.value.caption.Absent? || !info.value.title.Absent?
     || !info.value.subtitles.NoSubtitles?)
  }

  /** The file stem `f"{platform}_{timestamp}"`. */
  function Stem(url: string, timestamp: nat): (stem: string)
    ensures StartsWith(stem, IdentifyPlatform(url).Tag() + "_")
    ensures stem[|IdentifyPlatform(url).Tag()| + 1..] == NatToString(timestamp)
  {
    IdentifyPlatform(url).Tag() + "_" + NatToString(timestamp)
  }

  /** `video_info.get('video_url')` as the argument of `download_video`. */
  function VideoArg(info: VideoInfo): Option<string>
  {
    if info.videoUrl.Text? then Some(info.videoUrl.s) else None
  }

  /** `video_info.get('caption')` as the argument of `save_caption`. */
  function CaptionArg(info: VideoInfo): Option<string>
  {
    if info.caption.Text? then Some(info.caption.s) else None
  }

  /** `video_info.get('subtitles')` as the argument of `download_subtitles`. */
  function SubtitlesArg(info: VideoInfo): Option<seq<Track>>
  {
    if info.subtitles.TrackList? then Some(info.subtitles.tracks) else None
  }

  /**
   * The log after the three helpers have run for a truthy record `v`, each
   * called only when its key is truthy, with `stem` as the file name.
   */
  function AfterInfo(log: seq<Effect>, dir: string, v: VideoInfo, stem: string, env: Env): (after: seq<Effect>)
  {
    var afterVideo := if TextTruthy(VideoArg(v)) then AfterVideo(log, dir, VideoArg(v), stem, env) else log;
    var afterSubtitles :=
      if TracksTruthy(SubtitlesArg(v)) then AfterSubtitles(afterVideo, dir, SubtitlesArg(v), stem, env) else afterVideo;
    if TextTruthy(CaptionArg(v)) then AfterCaption(afterSubtitles, dir, CaptionArg(v), stem, env) else afterSubtitles
  }

  /**
   * The log after `download_from_url` once the extractor has returned `info`:
   * unchanged for a falsy record, otherwise extended by the three helpers.
   */
  function AfterDownload(log: seq<Effect>, dir: string, url: string, timestamp: nat, info: Option<VideoInfo>, env: Env): (after: seq<Effect>)
  {
    if InfoTruthy(info) then AfterInfo(log, dir, info.value, Stem(url, timestamp), env) else log
  }

  /** Every file in `es` is written under one of the two prefixes. */
  predicate WritesUnder(es: seq<Effect>, videos: string, subtitles: string)
  {
    forall e :: e in es && e.Write? ==> StartsWith(e.path, videos) || StartsWith(e.path, subtitles)
  }

  /** `after` extends `log`, and every file written in the extension lies under one of the two prefixes. */
  predicate AddsWritesUnder(log: seq<Effect>, after: seq<Effect>, videos: string, subtitles: string)
  {
    log <= after && WritesUnder(after[|log|..], videos, subtitles)
  }

  lemma AddsNothing(log: seq<Effect>, videos: string, subtitles: string)
    ensures AddsWritesUnder(log, log, videos, subtitles)
  {
    assert log[|log|..] == [];
  }

  lemma ExtendWritesUnder(log: seq<Effect>, mid: seq<Effect>, es: seq<Effect>, videos: string, subtitles: string)
    requires AddsWritesUnder(log, mid, videos, subtitles) && WritesUnder(es, videos, subtitles)
    ensures AddsWritesUnder(log, mid + es, videos, subtitles)
  {
    assert (mid + es)[|log|..] == mid[|log|..] + es;
  }

  lemma AddsTransitive(a: seq<Effect>, b: seq<Effect>, c: seq<Effect>, videos: string, subtitles: string)
    requires AddsWritesUnder(a, b, videos, subtitles) && AddsWritesUnder(b, c, videos, subtitles)
    ensures AddsWritesUnder(a, c, videos, subtitles)
  {
    PrefixTransitive(a, b, c);
    assert c[|a|..] == b[|a|..] + c[|b|..] by {
      assert c[..|b|] == b;
    }
  }

  /** A path built as `prefix + rest` starts with `prefix`. */
  lemma WritesPrefix(prefix: string, rest: string)
    ensures StartsWith(prefix + rest, prefix)
  {
    assert (prefix + rest)[..|prefix|] == prefix;
  }

  /** Every `.vtt` file of the track loop is named after the stem. */
  lemma {:induction false} TracksWritesUseStem(log: seq<Effect>, dir: string, stem: string, tracks: seq<Track>, n: nat, env: Env, videos: string)
    requires n <= |tracks|
    ensures AddsWritesUnder(log, AfterTracks(log, dir, stem, tracks, n, env), videos, dir + "/subtitles/" + stem)
  {
    var sub := dir + "/subtitles/" + stem;
    if n == 0 {
      AddsNothing(log, videos, sub);
    } else {
      TracksWritesUseStem(log, dir, stem, tracks, n - 1, env, videos);
      var mid := AfterTracks(log, dir, stem, tracks, n - 1, env);
      var t := tracks[n - 1];
      if Truthy(t.src) {
        ExtendWritesUnder(log, mid, [Request(t.src.s)], videos, sub);
        var lang := TrackLang(n - 1, t);
        if env.fetches(t.src.s) && env.writable(VttPath(dir, stem, lang)) {
          WritesPrefix(sub, "_" + lang + ".vtt");
          ExtendWritesUnder(log, mid + [Request(t.src.s)], [Write(VttPath(dir, stem, lang))], videos, sub);
        }
      }
    }
  }

  /** The JSON file and every `.vtt` file of `download_subtitles` are named after the stem. */
  lemma SubtitlesWritesUseStem(log: seq<Effect>, dir: string, subtitles: Option<seq<Track>>, stem: string, env: Env, videos: string)
    ensures AddsWritesUnder(log, AfterSubtitles(log, dir, subtitles, stem, env), videos, dir + "/subtitles/" + stem)
  {
    var sub := dir + "/subtitles/" + stem;
    AddsNothing(log, videos, sub);
    if SubtitlesSaved(dir, subtitles, stem, env) {
      var start := log + [Write(SubtitlePath(dir, stem))];
      WritesPrefix(sub, ".json");
      ExtendWritesUnder(log, log, [Write(SubtitlePath(dir, stem))], videos, sub);
      if !subtitles.value[0].src.Absent? {
        TracksWritesUseStem(start, dir, stem, subtitles.value, |subtitles.value|, env, videos);
        AddsTransitive(log, start, AfterSubtitles(log, dir, subtitles, stem, env), videos, sub);
      }
    }
  }

  /**
   * `download_from_url` only adds to the log, and every file it writes lies
   * under `videos/` or `subtitles/` and is named after the stem.
   */
  lemma FromUrlWritesUseStem(log: seq<Effect>, dir: string, url: string, timestamp: nat, info: Option<VideoInfo>, env: Env)
    ensures AddsWritesUnder(log, AfterDownload(log, dir, url, timestamp, info, env),
                            dir + "/videos/" + Stem(url, timestamp), dir + "/subtitles/" + Stem(url, timestamp))
  {
    var stem := Stem(url, timestamp);
    var vid := dir + "/videos/" + stem;
    var sub := dir + "/subtitles/" + stem;
    AddsNothing(log, vid, sub);
    if InfoTruthy(info) {
      var v := info.value;
      var afterVideo := log;
      if TextTruthy(VideoArg(v)) {
        afterVideo := AfterVideo(log, dir, VideoArg(v), stem, env);
        ExtendWritesUnder(log, log, [Request(VideoArg(v).value)], vid, sub);
        if VideoSaved(dir, VideoArg(v), stem, env) {
          WritesPrefix(vid, ".mp4");
          ExtendWritesUnder(log, log + [Request(VideoArg(v).value)], [Write(VideoPath(dir, stem))], vid, sub);
        }
      }
      var afterSubtitles := afterVideo;
      if TracksTruthy(SubtitlesArg(v)) {
        afterSubtitles := AfterSubtitles(afterVideo, dir, SubtitlesArg(v), stem, env);
        SubtitlesWritesUseStem(afterVideo, dir, SubtitlesArg(v), stem, env, vid);
        AddsTransitive(log, afterVideo, afterSubtitles, vid, sub);
      }
      if TextTruthy(CaptionArg(v)) && CaptionSaved(dir, CaptionArg(v), stem, env) {
        WritesPrefix(sub, "_caption.txt");
        ExtendWritesUnder(log, afterSubtitles, [Write(CaptionPath(dir, stem))], vid, sub);
      }
    }
  }

  /** A falsy record, or an extractor that failed, leads to no request and no file. */
  lemma NoInfoNoEffects(log: seq<Effect>, dir: string, url: string, timestamp: nat, info: Option<VideoInfo>, env: Env)
    requires !InfoTruthy(info)
    ensures AfterDownload(log, dir, url, timestamp, info, env) == log
  {
  }

  // ---------------------------------------------------------------------------
  // The downloader object

  /** A `SocialVideoDownloader` with its download directory and the effects it has had so far. */
  class Browser {
    const downloadDir: string
    var effects: seq<Effect>

    constructor (downloadDir: string)
      ensures this.downloadDir == downloadDir && effects == []
    {
      this.downloadDir := downloadDir;
      effects := [];
    }

    /** `download_video(video_url, filename)`. */
    method DownloadVideo(videoUrl: Option<string>, filename: string, env: Env) returns (ok: bool)
      modifies this
      ensures ok == VideoSaved(downloadDir, videoUrl, filename, env)
      ensures effects == AfterVideo(old(effects), downloadDir, videoUrl, filename, env)
    {
      if !TextTruthy(videoUrl) {
        return false;
      }
      effects := effects + [Request(videoUrl.value)];
      if !env.fetches(videoUrl.value) {
        return false;
      }
      var path := VideoPath(downloadDir, filename);
      if !env.writable(path) {
        return false;
      }
      effects := effects + [Write(path)];
      return true;
    }

    /** `download_subtitles(subtitles, filename)`: the JSON file, then the `.vtt` loop over the tracks. */
    method DownloadSubtitles(subtitles: Option<seq<Track>>, filename: string, env: Env) returns (ok: bool)
      modifies this
      ensures ok == SubtitlesSaved(downloadDir, subtitles, filename, env)
      ensures effects == AfterSubtitles(old(effects), downloadDir, subtitles, filename, env)
    {
      if !TracksTruthy(subtitles) {
        return false;
      }
      var path := SubtitlePath(downloadDir, filename);
      if !env.writable(path) {
        return false;
      }
      effects := effects + [Write(path)];
      var tracks := subtitles.value;
      if !tracks[0].src.Absent? {
        ghost var base := effects;
        for i := 0 to |tracks|
          invariant effects == AfterTracks(base, downloadDir, filename, tracks, i, env)
        {
          SaveTrack(i, tracks[i], filename, env);
        }
      }
      return true;
    }

    /** One pass of the track loop: request a truthy `src` and save its text as a `.vtt` file. */
    method SaveTrack(i: nat, t: Track, filename: string, env: Env)
      modifies this
      ensures effects == AfterTrack(old(effects), downloadDir, filename, i, t, env)
    {
      if Truthy(t.src) {
        effects := effects + [Request(t.src.s)];
        if env.fetches(t.src.s) {
          var lang := if t.srclang.Absent? then "lang" + NatToString(i) else FieldText(t.srclang);
          var vtt := VttPath(downloadDir, filename, lang);
          if env.writable(vtt) {
            effects := effects + [Write(vtt)];
          }
        }
      }
    }

    /** `save_caption(caption, filename)`. */
    method SaveCaption(caption: Option<string>, filename: string, env: Env) returns (ok: bool)
      modifies this
      ensures ok == CaptionSaved(downloadDir, caption, filename, env)
      ensures effects == AfterCaption(old(effects), downloadDir, caption, filename, env)
    {
      if !TextTruthy(caption) {
        return false;
      }
      var path := CaptionPath(downloadDir, filename);
      if !env.writable(path) {
        return false;
      }
      effects := effects + [Write(path)];
      return true;
    }

    /** The part of `download_from_url` after a truthy record `v` was extracted. */
    method SaveInfo(v: VideoInfo, filename: string, env: Env)
      modifies this
      ensures effects == AfterInfo(old(effects), downloadDir, v, filename, env)
    {
      if TextTruthy(VideoArg(v)) {
        var _ := DownloadVideo(VideoArg(v), filename, env);
      }
      if TracksTruthy(SubtitlesArg(v)) {
        var _ := DownloadSubtitles(SubtitlesArg(v), filename, env);
      }
      if TextTruthy(CaptionArg(v)) {
        var _ := SaveCaption(CaptionArg(v), filename, env);
      }
    }

    /**
     * `download_from_url(url)`: True iff the dispatched extractor returned a
     * truthy record, whatever the helpers then manage to save.
     */
    method DownloadFromUrl(url: string, timestamp: nat, extract: (Extractor, string) -> Option<VideoInfo>, env: Env)
      returns (ok: bool)
      modifies this
      ensures ok <==> InfoTruthy(extract(ExtractorFor(IdentifyPlatform(url)), url))
      ensures effects == AfterDownload(old(effects), downloadDir, url, timestamp, extract(ExtractorFor(IdentifyPlatform(url)), url), env)
    {
      var platform := IdentifyPlatform(url);
      var filename := Stem(url, timestamp);
      var info := extract(ExtractorFor(platform), url);
      if !InfoTruthy(info) {
        return false;
      }
      SaveInfo(info.value, filename, env);
      return true;
    }
  }
}

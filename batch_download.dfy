/**
 * `download_playlist_or_channel` and `download_from_urls` of
 * src/social_video_downloader.py: how the per-video results of a playlist, a
 * channel or a list of URLs are collected and counted.
 *
 * The extractor and `download_single_video` are oracles of a `World`, asked
 * call by call. A call is named by the position of its input URL in the list
 * and, inside a collection, by the position of the member being downloaded,
 * so two calls with the same URL may end differently.
 */
module BatchDownload {
  import opened Wrappers
  import opened Strings
  import opened Classify
  import SD = SingleDownload

  // ---------------------------------------------------------------------------
  // Download options

  /** The `download_options` dictionary: each of its three keys may be missing. */
  datatype Options = Options(video: Option<bool>, audio: Option<bool>, subtitles: Option<bool>)

  /** The three flags one `download_single_video` call receives. */
  datatype Flags = Flags(video: bool, audio: bool, subtitles: bool)

  /** `options.get(key, True)`. */
  function GetOr(v: Option<bool>): (b: bool)
    ensures b <==> v != Some(false)
  {
    match v
    case None => true
    case Some(x) => x
  }

  /**
   * The flags every download of a batch is asked with: a missing key means
   * true and no dictionary at all means all three true.
   */
  function Defaults(options: Option<Options>): (f: Flags)
    ensures options.None? ==> f == Flags(true, true, true)
    ensures options.Some? ==>
      && (f.video <==> options.value.video != Some(false))
      && (f.audio <==> options.value.audio != Some(false))
      && (f.subtitles <==> options.value.subtitles != Some(false))
  {
    match options
    case None => Flags(true, true, true)
    case Some(o) => Flags(GetOr(o.video), GetOr(o.audio), GetOr(o.subtitles))
  }

  /** The message of the `AttributeError` raised by `None.get(...)`. */
  const NoGet: string := "'NoneType' object has no attribute 'get'"

  /**
   * The flags the single-video branch of `download_from_urls` computes, as
   * written: it calls `.get` on the options without the `None` default that
   * `download_playlist_or_channel` applies, so no options means a crash.
   */
  function SingleFlagsAsWritten(options: Option<Options>): (r: Result<Flags>)
    ensures r.Err? <==> options.None?
    ensures r.Err? ==> r.error == NoGet
    ensures r.Ok? ==> r.value == Defaults(options)
  {
    match options
    case None => Err(NoGet)
    case Some(_) => Ok(Defaults(options))
  }

  /** The URL of the repository's `__main__` block, which passes no options. */
  const MainUrl: string := "https://vt.tiktok.com/ZSAo286Hf"

  lemma MainUrlNoYouTube(url: string)
    requires url == MainUrl
    ensures !Contains(url, "youtube.com")
  {
    NotContainsMissingChar(url, "youtube.com", 'y');
  }

  lemma MainUrlNoTikTokProfile(url: string)
    requires url == MainUrl
    ensures !Contains(url, "tiktok.com/@")
  {
    NotContainsMissingChar(url, "tiktok.com/@", '@');
  }

  /**
   * As written, the `__main__` block crashes: its only URL is not a playlist or
   * channel, so it reaches the single-video branch, and it passes no options.
   */
  lemma MainBlockCrashes(url: string)
    requires url == MainUrl
    ensures !IsCollection(url)
    ensures SingleFlagsAsWritten(None) == Err(NoGet)
  {
    MainUrlNoYouTube(url);
    MainUrlNoTikTokProfile(url);
  }

  /**
   * The corrected single-video branch uses `Defaults`, like the collection
   * branch: it never fails, and it agrees with the code as written wherever
   * that does not crash.
   */
  lemma DefaultsCorrectSingleFlags(options: Option<Options>)
    ensures SingleFlagsAsWritten(options).Ok? ==> SingleFlagsAsWritten(options).value == Defaults(options)
    ensures options.None? ==> Defaults(options) == Flags(true, true, true)
    ensures options.Some? ==> SingleFlagsAsWritten(options) == Ok(Defaults(options))
  {
  }

  // ---------------------------------------------------------------------------
  // Playlist entries

  /** One item of `"entries"`: a falsy value (`None`, `{}`) or a non-empty dictionary. */
  datatype Entry = Falsy | Item(url: Field, id: Field)

  /** The `"entries"` key of the listing: missing, `None`, or a list. */
  datatype EntriesField = NoEntries | NullEntries | Entries(items: seq<Entry>)

  /** What `extract_info(url, download=False)` does: raise, return `None`, or return a listing. */
  datatype Listing = ListingRaises(message: string) | NoListing | Listing(entries: EntriesField)

  /** The message of the `TypeError` raised by `"entries" in None`. */
  const NotContainer: string := "argument of type 'NoneType' is not iterable"

  const WatchPrefix: string := "https://www.youtube.com/watch?v="

  /** The URL of a playlist member: its `url` when truthy, otherwise the watch URL of its `id`. */
  function MemberUrl(url: Field, id: Field): (u: string)
    ensures Truthy(url) ==> u == url.s
    ensures !Truthy(url) ==> StartsWith(u, WatchPrefix) && u[|WatchPrefix|..] == FieldText(id)
  {
    if Truthy(url) then url.s else WatchPrefix + FieldText(id)
  }

  /** The URLs downloaded for a list of entries: one per non-empty entry, in order. */
  function MemberUrls(entries: seq<Entry>): (us: seq<string>)
    ensures |us| <= |entries|
    decreases |entries|
  {
    if entries == [] then []
    else
      var last := entries[|entries| - 1];
      MemberUrls(entries[..|entries| - 1]) + (if last.Item? then [MemberUrl(last.url, last.id)] else [])
  }

  /** Without empty entries, every entry is downloaded. */
  lemma {:induction false} MemberUrlsAllItems(entries: seq<Entry>)
    requires forall i :: 0 <= i < |entries| ==> entries[i].Item?
    ensures |MemberUrls(entries)| == |entries|
    decreases |entries|
  {
    if entries != [] {
      var init := entries[..|entries| - 1];
      assert forall i :: 0 <= i < |init| ==> init[i] == entries[i];
      MemberUrlsAllItems(init);
    }
  }

  /** `MemberUrls` grows by one entry at a time. */
  lemma MemberUrlsSnoc(entries: seq<Entry>, e: Entry)
    ensures MemberUrls(entries + [e]) == MemberUrls(entries) + (if e.Item? then [MemberUrl(e.url, e.id)] else [])
  {
    assert (entries + [e])[..|entries|] == entries;
  }

  /** Every member URL is that of a non-empty entry: `i` is the entry the k-th URL comes from. */
  lemma {:induction false} MemberUrlOrigin(entries: seq<Entry>, k: nat) returns (i: nat)
    requires k < |MemberUrls(entries)|
    ensures i < |entries| && entries[i].Item?
    ensures MemberUrls(entries)[k] == MemberUrl(entries[i].url, entries[i].id)
    decreases |entries|
  {
    var init := entries[..|entries| - 1];
    var last := entries[|entries| - 1];
    assert entries == init + [last];
    MemberUrlsSnoc(init, last);
    if k < |MemberUrls(init)| {
      i := MemberUrlOrigin(init, k);
      assert entries[i] == init[i];
    } else {
      i := |entries| - 1;
    }
  }

  // ---------------------------------------------------------------------------
  // The outside world

  /**
   * The answers of the outside world for the input URL at position `i`:
   * `probe(i, url)` is what its `extract_info(url, download=False)` does, and
   * `single(i, j, url, flags)` what its j-th `download_single_video` call
   * returns. Every call is taken to return: the method catches what its
   * fetches raise, and the `ValueError` that `identify_platform` can raise
   * before the method's `try` is not part of this model.
   */
  datatype World = World(
    probe: (nat, string) -> Listing,
    single: (nat, nat, string, Flags) -> SD.DownloadResult)

  /** The number of successful results. */
  function Successes(vs: seq<SD.DownloadResult>): (n: nat)
    ensures n <= |vs|
    decreases |vs|
  {
    if vs == [] then 0
    else
      var init := vs[..|vs| - 1];
      assert forall i :: 0 <= i < |init| ==> init[i] == vs[i];
      Successes(init) + (if vs[|vs| - 1].success then 1 else 0)
  }

  lemma SuccessesSnoc(vs: seq<SD.DownloadResult>, v: SD.DownloadResult)
    ensures Successes(vs + [v]) == Successes(vs) + (if v.success then 1 else 0)
  {
    assert (vs + [v])[..|vs|] == vs;
  }

  // ---------------------------------------------------------------------------
  // A playlist or channel

  /** `download_playlist_or_channel`'s result dictionary. */
  datatype CollectionResult = CollectionResult(
    url: string, kind: string, totalVideos: nat, successful: nat, failed: nat,
    videos: seq<SD.DownloadResult>, error: Option<string>)

  /** The `"type"` of a collection. */
  function Kind(url: string): (k: string)
    ensures k == "playlist" || k == "channel"
    ensures k == "playlist" <==> Contains(url, "playlist")
  {
    if Contains(url, "playlist") then "playlist" else "channel"
  }

  /** The URLs a collection downloads: the member URLs of a list, or the URL itself when the listing has no `"entries"`. */
  function Requests(url: string, listing: Listing): (us: seq<string>)
    ensures listing.Listing? && listing.entries.NoEntries? ==> us == [url]
    ensures listing.Listing? && listing.entries.Entries? ==> us == MemberUrls(listing.entries.items)
    ensures !listing.Listing? || listing.entries.NullEntries? ==> us == []
  {
    match listing
    case Listing(Entries(items)) => MemberUrls(items)
    case Listing(NoEntries) => [url]
    case _ => []
  }

  /** `"total_videos"`: the number of entries, 1 without an `"entries"` key, 0 when the listing fails. */
  function TotalOf(listing: Listing): (n: nat)
    ensures listing.Listing? && listing.entries.Entries? ==> n == |listing.entries.items|
    ensures listing.Listing? && listing.entries.NoEntries? ==> n == 1
    ensures !listing.Listing? || listing.entries.NullEntries? ==> n == 0
  {
    match listing
    case Listing(Entries(items)) => |items|
    case Listing(NoEntries) => 1
    case _ => 0
  }

  /** `"error"`: the message of the exception the listing step raises, if any. */
  function ListingError(listing: Listing): (e: Option<string>)
    ensures e.None? <==> listing.Listing? && !listing.entries.NullEntries?
    ensures listing.ListingRaises? ==> e == Some(listing.message)
  {
    match listing
    case ListingRaises(m) => Some(m)
    case NoListing => Some(NotContainer)
    case Listing(NullEntries) => Some(SD.NotIterable)
    case Listing(_) => None
  }

  /** The results of downloading `reqs` in order, for the input URL at position `pos`. */
  function DownloadAll(reqs: seq<string>, flags: Flags, w: World, pos: nat): (vs: seq<SD.DownloadResult>)
    ensures |vs| == |reqs|
    ensures forall j :: 0 <= j < |reqs| ==> vs[j] == w.single(pos, j, reqs[j], flags)
  {
    seq(|reqs|, j requires 0 <= j < |reqs| => w.single(pos, j, reqs[j], flags))
  }

  /**
   * What `download_playlist_or_channel(url, options)` returns for the input
   * URL at position `pos`: one listing call, then one download per requested
   * URL, in order, each with the defaulted flags.
   */
  function CollectionOf(url: string, options: Option<Options>, w: World, pos: nat): (c: CollectionResult)
    ensures c.url == url && c.kind == Kind(url)
    ensures c.successful + c.failed == |c.videos| <= c.totalVideos
    ensures c.error.Some? ==> c.videos == [] && c.totalVideos == 0
  {
    var listing := w.probe(pos, url);
    var videos := DownloadAll(Requests(url, listing), Defaults(options), w, pos);
    var succeeded := Successes(videos);
    CollectionResult(url, Kind(url), TotalOf(listing), succeeded, |videos| - succeeded, videos, ListingError(listing))
  }

  /**
   * The counters of a collection add up to its total when every entry is
   * non-empty, or when there is no `"entries"` key (one video).
   */
  lemma CollectionCountsExact(url: string, options: Option<Options>, w: World, pos: nat)
    ensures var listing := w.probe(pos, url);
      var c := CollectionOf(url, options, w, pos);
      listing.Listing? && listing.entries.Entries? &&
      (forall i :: 0 <= i < |listing.entries.items| ==> listing.entries.items[i].Item?)
      ==> c.successful + c.failed == c.totalVideos
    ensures var listing := w.probe(pos, url);
      var c := CollectionOf(url, options, w, pos);
      listing.Listing? && listing.entries.NoEntries? ==> c.successful + c.failed == c.totalVideos == 1
  {
    var listing := w.probe(pos, url);
    if listing.Listing? && listing.entries.Entries? &&
       (forall i :: 0 <= i < |listing.entries.items| ==> listing.entries.items[i].Item?) {
      MemberUrlsAllItems(listing.entries.items);
    }
  }

  /** Two collection results with the same fields and the same videos are equal. */
  lemma CollectionEq(c: CollectionResult, url: string, options: Option<Options>, w: World, pos: nat)
    requires var d := CollectionOf(url, options, w, pos);
      && c.url == d.url && c.kind == d.kind && c.totalVideos == d.totalVideos && c.error == d.error
      && |c.videos| == |d.videos| && (forall i :: 0 <= i < |c.videos| ==> c.videos[i] == d.videos[i])
      && c.successful == Successes(c.videos) && c.failed == |c.videos| - c.successful
    ensures c == CollectionOf(url, options, w, pos)
  {
    var d := CollectionOf(url, options, w, pos);
    assert c.videos == d.videos;
  }

  /** The downloads of a listing's member URLs, the `k`-th from the `k`-th call. */
  function Fetched(us: seq<string>, flags: Flags, w: World, pos: nat): (vs: seq<SD.DownloadResult>)
    ensures |vs| == |us|
    ensures forall k :: 0 <= k < |us| ==> vs[k] == w.single(pos, k, us[k], flags)
  {
    seq(|us|, k requires 0 <= k < |us| => w.single(pos, k, us[k], flags))
  }

  /** One more member URL adds its download at the end. */
  lemma FetchedSnoc(us: seq<string>, u: string, flags: Flags, w: World, pos: nat)
    ensures Fetched(us + [u], flags, w, pos) == Fetched(us, flags, w, pos) + [w.single(pos, |us|, u, flags)]
  {
  }

  /**
   * The loop over the entries of a listing: one download per non-empty entry,
   * in order, counting successes and failures as it goes.
   */
  method DownloadEntries(entries: seq<Entry>, flags: Flags, w: World, pos: nat)
    returns (videos: seq<SD.DownloadResult>, succeeded: nat, failed: nat)
    ensures |videos| == |MemberUrls(entries)|
    ensures forall k :: 0 <= k < |videos| ==> videos[k] == w.single(pos, k, MemberUrls(entries)[k], flags)
    ensures succeeded == Successes(videos) && failed == |videos| - succeeded
  {
    videos, succeeded, failed := [], 0, 0;
    for i := 0 to |entries|
      invariant videos == Fetched(MemberUrls(entries[..i]), flags, w, pos)
      invariant succeeded == Successes(videos) && failed == |videos| - succeeded
    {
      var e := entries[i];
      assert entries[..i + 1] == entries[..i] + [e];
      MemberUrlsSnoc(entries[..i], e);
      if e.Item? {
        var v := w.single(pos, |videos|, MemberUrl(e.url, e.id), flags);
        SuccessesSnoc(videos, v);
        FetchedSnoc(MemberUrls(entries[..i]), MemberUrl(e.url, e.id), flags, w, pos);
        videos := videos + [v];
        if v.success {
          succeeded := succeeded + 1;
        } else {
          failed := failed + 1;
        }
      }
    }
    assert entries[..|entries|] == entries;
  }

  /** A listing without `"entries"` is downloaded as one video. */
  lemma SingleListing(c: CollectionResult, url: string, options: Option<Options>, w: World, pos: nat)
    requires w.probe(pos, url) == Listing(NoEntries)
    requires c.url == url && c.kind == Kind(url) && c.totalVideos == 1 && c.error == None
    requires |c.videos| == 1 && c.videos[0] == w.single(pos, 0, url, Defaults(options))
    requires c.successful == (if c.videos[0].success then 1 else 0) && c.failed == 1 - c.successful
    ensures c == CollectionOf(url, options, w, pos)
  {
    assert c.videos[..0] == [];
    CollectionEq(c, url, options, w, pos);
  }

  /** A listing with `"entries"` downloads its member URLs in order. */
  lemma EntriesListing(c: CollectionResult, url: string, options: Option<Options>, w: World, pos: nat, entries: seq<Entry>)
    requires w.probe(pos, url) == Listing(Entries(entries))
    requires c.url == url && c.kind == Kind(url) && c.totalVideos == |entries| && c.error == None
    requires |c.videos| == |MemberUrls(entries)|
    requires forall k :: 0 <= k < |c.videos| ==> c.videos[k] == w.single(pos, k, MemberUrls(entries)[k], Defaults(options))
    requires c.successful == Successes(c.videos) && c.failed == |c.videos| - c.successful
    ensures c == CollectionOf(url, options, w, pos)
  {
    CollectionEq(c, url, options, w, pos);
  }

  /** `download_playlist_or_channel(url, options)` for the input URL at position `pos`. */
  method DownloadPlaylistOrChannel(url: string, options: Option<Options>, w: World, pos: nat)
    returns (c: CollectionResult)
    ensures c == CollectionOf(url, options, w, pos)
  {
    var flags := Defaults(options);
    var kind := Kind(url);
    var listing := w.probe(pos, url);
    if !listing.Listing? || listing.entries.NullEntries? {
      // `extract_info` raised, or `"entries" in None` / `list(None)` did
      c := CollectionResult(url, kind, 0, 0, 0, [], ListingError(listing));
    } else if listing.entries.NoEntries? {
      var v := w.single(pos, 0, url, flags);
      if v.success {
        c := CollectionResult(url, kind, 1, 1, 0, [v], None);
      } else {
        c := CollectionResult(url, kind, 1, 0, 1, [v], None);
      }
      SingleListing(c, url, options, w, pos);
    } else {
      var entries := listing.entries.items;
      var videos, succeeded, failed;
      videos, succeeded, failed := DownloadEntries(entries, flags, w, pos);
      c := CollectionResult(url, kind, |entries|, succeeded, failed, videos, None);
      EntriesListing(c, url, options, w, pos, entries);
    }
  }

  // ---------------------------------------------------------------------------
  // A list of URLs

  /** The `urls` argument: one URL or a list of them. */
  datatype Urls = One(url: string) | Many(urls: seq<string>)

  /** `[urls]` for a bare string, the list itself otherwise. */
  function UrlList(urls: Urls): (us: seq<string>)
    ensures urls.One? ==> us == [urls.url]
    ensures urls.Many? ==> us == urls.urls
  {
    match urls
    case One(u) => [u]
    case Many(us) => us
  }

  /** One element of `"downloads"`: a single video's result or a collection's. */
  datatype Download = Single(single: SD.DownloadResult) | Collection(collection: CollectionResult)

  /** `download_from_urls`'s result dictionary. */
  datatype Results = Results(
    date: string, directory: string,
    totalUrls: nat, totalVideos: nat, successful: nat, failed: nat,
    downloads: seq<Download>)

  /** What one download adds to `"total_videos"`. */
  function VideosOf(dl: Download): (n: nat)
    ensures dl.Single? ==> n == 1
  {
    match dl
    case Single(_) => 1
    case Collection(c) => c.totalVideos
  }

  /** What one download adds to `"successful_downloads"`. */
  function SuccessOf(dl: Download): (n: nat)
    ensures dl.Single? ==> (n == 1 <==> dl.single.success) && n <= 1
  {
    match dl
    case Single(v) => if v.success then 1 else 0
    case Collection(c) => c.successful
  }

  /** What one download adds to `"failed_downloads"`. */
  function FailureOf(dl: Download): (n: nat)
    ensures dl.Single? ==> (n == 1 <==> !dl.single.success) && n <= 1
  {
    match dl
    case Single(v) => if v.success then 0 else 1
    case Collection(c) => c.failed
  }

  /** The total of `f` over a list of downloads. */
  function Sum(ds: seq<Download>, f: Download -> nat): (n: nat)
    ensures ds == [] ==> n == 0
    decreases |ds|
  {
    if ds == [] then 0 else Sum(ds[..|ds| - 1], f) + f(ds[|ds| - 1])
  }

  /** Appending one download adds its own count to a total. */
  lemma SumSnoc(ds: seq<Download>, dl: Download, f: Download -> nat)
    ensures Sum(ds + [dl], f) == Sum(ds, f) + f(dl)
  {
    assert (ds + [dl])[..|ds|] == ds;
  }

  /** Appending one download adds its counts to the three totals. */
  lemma Tally(ds: seq<Download>, dl: Download)
    requires SuccessOf(dl) + FailureOf(dl) <= VideosOf(dl)
    requires Sum(ds, SuccessOf) + Sum(ds, FailureOf) <= Sum(ds, VideosOf)
    ensures Sum(ds + [dl], VideosOf) == Sum(ds, VideosOf) + VideosOf(dl)
    ensures Sum(ds + [dl], SuccessOf) == Sum(ds, SuccessOf) + SuccessOf(dl)
    ensures Sum(ds + [dl], FailureOf) == Sum(ds, FailureOf) + FailureOf(dl)
    ensures Sum(ds + [dl], SuccessOf) + Sum(ds + [dl], FailureOf) <= Sum(ds + [dl], VideosOf)
  {
    SumSnoc(ds, dl, VideosOf);
    SumSnoc(ds, dl, SuccessOf);
    SumSnoc(ds, dl, FailureOf);
  }

  /** A single video adds exactly one video, and exactly one success or one failure. */
  lemma SingleAddsOne(ds: seq<Download>, v: SD.DownloadResult)
    ensures Sum(ds + [Single(v)], VideosOf) == Sum(ds, VideosOf) + 1
    ensures Sum(ds + [Single(v)], SuccessOf) + Sum(ds + [Single(v)], FailureOf)
         == Sum(ds, SuccessOf) + Sum(ds, FailureOf) + 1
    ensures v.success ==> Sum(ds + [Single(v)], FailureOf) == Sum(ds, FailureOf)
    ensures !v.success ==> Sum(ds + [Single(v)], SuccessOf) == Sum(ds, SuccessOf)
  {
    SumSnoc(ds, Single(v), VideosOf);
    SumSnoc(ds, Single(v), SuccessOf);
    SumSnoc(ds, Single(v), FailureOf);
  }

  /** The counters never decrease: the total over a shorter prefix is never larger. */
  lemma {:induction false} SumMonotone(ds: seq<Download>, i: nat, j: nat, f: Download -> nat)
    requires i <= j <= |ds|
    ensures Sum(ds[..i], f) <= Sum(ds[..j], f)
    decreases j - i
  {
    if i < j {
      SumMonotone(ds, i, j - 1, f);
      assert ds[..j][..j - 1] == ds[..j - 1];
    }
  }

  /**
   * The download for the input URL `url` at position `pos`: a collection's
   * result when `url` is a playlist or channel, and otherwise the single
   * download of `url` itself.
   */
  function DownloadFor(url: string, options: Option<Options>, w: World, pos: nat): (dl: Download)
    ensures dl.Collection? <==> IsCollection(url)
    ensures dl.Collection? ==> dl.collection.url == url
    ensures SuccessOf(dl) + FailureOf(dl) <= VideosOf(dl)
  {
    if IsCollection(url) then Collection(CollectionOf(url, options, w, pos))
    else Single(w.single(pos, 0, url, Defaults(options)))
  }

  /** One iteration of `download_from_urls`: a collection or a single video, by `is_playlist_or_channel`. */
  method DownloadOne(url: string, options: Option<Options>, w: World, pos: nat) returns (dl: Download)
    ensures dl == DownloadFor(url, options, w, pos)
  {
    if IsCollection(url) {
      var c := DownloadPlaylistOrChannel(url, options, w, pos);
      dl := Collection(c);
    } else {
      dl := Single(w.single(pos, 0, url, Defaults(options)));
    }
  }

  /** The downloads of the first `n` URLs, each from the call at its position. */
  function Planned(us: seq<string>, options: Option<Options>, w: World, n: nat): (ds: seq<Download>)
    requires n <= |us|
    ensures |ds| == n
    ensures forall k :: 0 <= k < n ==> ds[k] == DownloadFor(us[k], options, w, k)
  {
    seq(n, k requires 0 <= k < n => DownloadFor(us[k], options, w, k))
  }

  /** One more URL adds its download at the end. */
  lemma PlannedSnoc(us: seq<string>, options: Option<Options>, w: World, n: nat)
    requires n < |us|
    ensures Planned(us, options, w, n + 1) == Planned(us, options, w, n) + [DownloadFor(us[n], options, w, n)]
  {
  }

  /**
   * `download_from_urls(urls, options)` with the single-video branch
   * corrected to use `Defaults`: one download per input URL, in input order,
   * and counters that add up what each download reports.
   */
  method DownloadFromUrls(d: SD.Downloader, urls: Urls, options: Option<Options>, w: World)
    returns (r: Results)
    ensures r.date == d.currentDate && r.directory == d.downloadDir
    ensures r.totalUrls == |UrlList(urls)| == |r.downloads|
    ensures forall i :: 0 <= i < |r.downloads| ==> r.downloads[i] == DownloadFor(UrlList(urls)[i], options, w, i)
    ensures r.totalVideos == Sum(r.downloads, VideosOf)
    ensures r.successful == Sum(r.downloads, SuccessOf)
    ensures r.failed == Sum(r.downloads, FailureOf)
    ensures r.successful + r.failed <= r.totalVideos
  {
    var us := UrlList(urls);
    var downloads: seq<Download> := [];
    var total, succeeded, failed := 0, 0, 0;
    for i := 0 to |us|
      invariant downloads == Planned(us, options, w, i)
      invariant total == Sum(downloads, VideosOf)
      invariant succeeded == Sum(downloads, SuccessOf)
      invariant failed == Sum(downloads, FailureOf)
      invariant succeeded + failed <= total
    {
      var dl := DownloadOne(us[i], options, w, i);
      Tally(downloads, dl);
      PlannedSnoc(us, options, w, i);
      downloads := downloads + [dl];
      total := total + VideosOf(dl);
      succeeded := succeeded + SuccessOf(dl);
      failed := failed + FailureOf(dl);
    }
    r := Results(d.currentDate, d.downloadDir, |us|, total, succeeded, failed, downloads);
  }
}

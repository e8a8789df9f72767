# social-video-crawl, modelled in Dafny

social-video-crawl downloads videos, audio and subtitles from TikTok, Instagram, Facebook, YouTube and X/Twitter. It has four parts:

- `src/social_video_downloader.py` wraps yt-dlp. It classifies a URL by platform and as a single video or a collection (playlist, channel, profile). It sanitises the video title into a folder name. It downloads one video into `<download dir>/<date>/<title>/` and renames the subtitle files it finds. It aggregates per-video results into per-collection and per-batch counters.
- `social_video_downloader.py` at the top level is an older, browser-driven downloader. It shares the platform table. It searches a page's JSON depth first for a media URL. It saves the video, the subtitle tracks and the caption it scraped, naming every file `<platform>_<timestamp>`.
- `src/api.py` is an HTTP service. It keeps an in-memory registry `task_results` from task id to record. Submissions create "pending" records. Workflow steps move them to "processing", then "completed" or "failed". Tasks can be looked up, deleted and listed (filtered by status, sorted newest first, limited). Downloaded files are served after a containment check.
- `src/worker.py` has the workflow handlers. They run one download, a batch of downloads with a success count, or an info extraction.

The model keeps each part's own form:
- Pure string and tree code is datatypes, functions and lemmas: platform and collection classification, title sanitisation, the JSON search, path joining and `abspath`.
- The code that builds its result step by step is methods with loop invariants, proved against specification functions: `download_single_video`, the collection and batch loops, the worker's batch loop, the browser helpers.
- The registry is a class whose methods change its map.

Everything outside the repository is a parameter of the model:
- yt-dlp, the page extractors, the HTTP client, the file system, the clock, uuid and the workflow scheduler;
- each is modelled as a `Result`, an oracle function or a set of existing paths, and every call that can raise yields either a value or an exception message.

Modules:
- `Wrappers`: `Option`, `Result` and a Python dictionary field (missing, `None` or a string).
- `Strings`: `startswith`, `in`, `lower`, `str(int)` and the lexicographic order of Python strings.
- `Paths`: `os.path.join`, and `os.path.abspath` as split, "."/".." collapsing and render.
- `Classify`: `urlparse(url).netloc`, `identify_platform` and `is_playlist_or_channel`.
- `ClassifyExamples`: concrete URLs.
- `SingleDownload`: the title and `download_single_video`.
- `BatchDownload`: `download_playlist_or_channel` and `download_from_urls`.
- `BrowserDownloader`: the top-level downloader.
- `Listing`: filtering and Python's stable `sort(reverse=True)`, used by `list_tasks`.
- `TaskApi`: `src/api.py`.
- `Worker`: `src/worker.py`.

## Model

| member | source | states |
|---|---|---|
| `Strings.Lower` | src/social_video_downloader.py:23 | `str.lower` on ASCII: same length, each capital letter shifted to lower case, every other character kept |
| `Strings.ContainsIffOccurs` | src/social_video_downloader.py:24 | `needle in s` holds exactly when the needle occurs at some offset of `s` |
| `Strings.NatToString` | src/social_video_downloader.py:62 | `str(int(...))` of a non-negative number is a non-empty string of decimal digits whose first digit is '0' only for 0 |
| `Strings.NatToStringValue` | src/social_video_downloader.py:62 | the decimal digits of `str(n)` spell `n` (`int(str(n)) == n`) |
| `Strings.NatToStringInjective` | social_video_downloader.py:298 | distinct numbers have distinct decimal strings, so the timestamps and `lang<i>` names of distinct numbers differ |
| `Strings.NotContainsAny` | src/social_video_downloader.py:24-35 | needles each holding a character the string lacks never occur in it |
| `Strings.LexLeqTotal` | src/api.py:534-537 | the string order the listing sort uses is total |
| `Strings.LexLeqTransitive` | src/api.py:534-537 | the string order the listing sort uses is transitive |
| `Strings.LexLeqAntisymmetric` | src/api.py:534-537 | two strings each at most the other are equal |
| `Paths.Join` | src/social_video_downloader.py:83 | `os.path.join(a, b)` ends with `b`; a relative `b` keeps `a` as prefix, with one '/' between when `a` does not end in one |
| `Paths.JoinInjective` | src/social_video_downloader.py:114-121 | joining two relative names to one folder gives the same path only when the names are equal |
| `Paths.Split` | src/api.py:490 | splitting a path at '/' gives at least one segment, none holding a '/' |
| `Paths.SplitJoin` | src/api.py:490 | splitting the '/'-join of slash-free segments gives the segments back |
| `Paths.JoinSplit` | src/api.py:490 | joining the segments of a split gives the path back |
| `Paths.Step` | src/api.py:490-491 | one segment of `abspath`: a name is pushed, ".." pops (not above the root), "" and "." change nothing; the stack stays normalised |
| `Paths.ResolveNames` | src/api.py:490-491 | resolving plain names onto a stack appends them |
| `Paths.Abspath` | src/api.py:490-491 | `os.path.abspath` of a path against a working directory is an absolute path |
| `Paths.AbspathIdempotent` | src/api.py:490-491 | `abspath` of an absolute path it produced changes nothing |
| `Paths.SplitRender` | src/api.py:490-491 | the rendered absolute path splits into "" followed by its names |
| `Paths.UnderRootIffPrefix` | src/api.py:493 | a rendered path is the root or lies below it (root followed by '/') exactly when the root's names are a prefix of its names |
| `Paths.NamesEqualWhenFlatEqual` | src/api.py:490-491 | two normalised name lists that render to the same text are equal |
| `Classify.Platform.Tag` | src/social_video_downloader.py:21-35 | every platform tag is one of tiktok, instagram, facebook, youtube, twitter, unknown |
| `Classify.IndexOf` | src/social_video_downloader.py:23 | the first position of a character in a string, or none when it does not occur |
| `Classify.AfterScheme` | src/social_video_downloader.py:23 | what follows a valid `scheme:` prefix is a suffix of the URL, and the whole URL otherwise |
| `Classify.TakeHost` | src/social_video_downloader.py:23 | the netloc is the longest prefix of the authority without '/', '?' or '#' |
| `Classify.LStripBlanks` | src/social_video_downloader.py:23 | urlsplit's first step: the URL loses its leading C0 controls and spaces, and nothing else |
| `Classify.RemoveUnsafe` | src/social_video_downloader.py:23 | urlsplit's second step: tab, CR and LF are taken out and the first other character stays first |
| `Classify.RemoveUnsafeAppend` | src/social_video_downloader.py:23 | the removal works piece by piece: on `a + b` it is the removal on `a` followed by that on `b` |
| `Classify.Cleaned` | src/social_video_downloader.py:23 | the URL urlsplit splits has no tab, CR or LF and does not start with a blank |
| `Classify.CleanedClean` | src/social_video_downloader.py:23 | a URL without leading blank and without tab, CR or LF is split as given |
| `Classify.CleanedIdempotent` | src/social_video_downloader.py:23 | cleaning a cleaned URL changes nothing |
| `Classify.CleanedIgnoresBlanks` | src/social_video_downloader.py:23 | leading blanks make no difference to what is split |
| `Classify.CleanedDropsUnsafe` | src/social_video_downloader.py:23 | a tab, CR or LF anywhere makes no difference to what is split |
| `Classify.Netloc` | src/social_video_downloader.py:23 | `urlparse(url).netloc` of the cleaned URL holds no '/', '?' or '#' |
| `Classify.NetlocOfCleaned` | src/social_video_downloader.py:23 | the netloc of a URL is that of its cleaned form |
| `Classify.NetlocOfAuthority` | src/social_video_downloader.py:23 | for `scheme://host<tail>` with a valid scheme the netloc is exactly `host` |
| `Classify.FirstMatchWins` | src/social_video_downloader.py:24-35 | a first-match rule table returns the platform of the first rule whose needle occurs, and unknown when none occurs |
| `Classify.ClassifyDomainIsFirstMatch` | src/social_video_downloader.py:24-35 | the elif chain is the first-match search of the table tiktok.com, instagram.com, facebook.com, fb.com, youtube.com, youtu.be, twitter.com, x.com, in that order |
| `Classify.IdentifyPlatformFirstRuleWins` | src/social_video_downloader.py:21-35 | `identify_platform` returns one of the six tags: the first table rule matching the lower-cased netloc wins, and no match means unknown |
| `Classify.IdentifyPlatformIgnoresBlanks` | src/social_video_downloader.py:21-35 | leading blanks do not change the platform (`" https://www.tiktok.com/@a"` is tiktok) |
| `Classify.IdentifyPlatformIgnoresUnsafe` | src/social_video_downloader.py:21-35 | a tab, CR or LF anywhere in the URL does not change the platform |
| `Classify.ClassifyDomainByMissing` | src/social_video_downloader.py:24-35 | a domain holding rule `i`'s needle and lacking a character of each earlier needle gets rule `i`'s platform |
| `Classify.CollectionEitherRule` | src/social_video_downloader.py:37-44 | with "youtube.com" present a URL is a collection iff it has "/playlist?", "/channel/", "/@" or "/c/"; overall it is a collection iff the YouTube rule or the TikTok rule ("tiktok.com/@" and no "/video/") holds, so the branch order does not change the answer |
| `ClassifyExamples.HttpsHost` | src/social_video_downloader.py:23 | an `https://` URL with a lower-case host has that host as its lower-cased netloc |
| `ClassifyExamples.YouTubeWatchUrl` | src/social_video_downloader.py:21-44 | `https://www.youtube.com/watch?v=AAA` is youtube and not a collection |
| `ClassifyExamples.TikTokVideoUrl` | src/social_video_downloader.py:21-44 | `https://www.tiktok.com/@user/video/123` is tiktok and not a collection |
| `ClassifyExamples.TikTokProfileUrl` | src/social_video_downloader.py:37-44 | `https://www.tiktok.com/@user` is a collection |
| `ClassifyExamples.SubstringMatchTagsNetflixAsTwitter` | src/social_video_downloader.py:32-33 | the substring test tags `https://www.netflix.com/title/1` as twitter, because "netflix.com" contains "x.com" |
| `SingleDownload.NewDownloader` | src/social_video_downloader.py:12-16 | the download directory is the base directory joined with the current date |
| `SingleDownload.Filter` | src/social_video_downloader.py:78-79 | the filter keeps only alphanumerics, ' ', '-' and '_', never lengthens, and keeps a title made only of those |
| `SingleDownload.FilterChar` | src/social_video_downloader.py:78-79 | on one character the filter keeps it exactly when it is alphanumeric, ' ', '-' or '_' |
| `SingleDownload.FilterAppend` | src/social_video_downloader.py:78-79 | the filter on `a + b` is the filter on `a` followed by the filter on `b`, so the kept characters stay in order |
| `SingleDownload.RStrip` | src/social_video_downloader.py:80 | `rstrip()` is a prefix ending in a non-space, and everything it drops is whitespace (ASCII whitespace, which is all that can reach it after the filter) |
| `SingleDownload.SafeTitle` | src/social_video_downloader.py:78-81 | the folder name has at most 100 characters, all of them alphanumerics, ' ', '-' or '_'; it is a prefix of the stripped filtered title, equal to it when that has at most 100 characters and to its first 100 characters otherwise |
| `SingleDownload.RStripNoTrailingSpace` | src/social_video_downloader.py:80 | a string not ending in whitespace is its own `rstrip` |
| `SingleDownload.SafeTitleTwice` | src/social_video_downloader.py:78-81 | sanitising twice equals stripping the once-sanitised name: the second pass only removes whitespace exposed by the truncation |
| `SingleDownload.SafeTitleNotIdempotent` | src/social_video_downloader.py:78-81 | for 99 letters followed by " a" the name ends in a space and a second pass changes it, so sanitising is not idempotent |
| `SingleDownload.TitleText` | src/social_video_downloader.py:77 | `info.get("title", "unknown")`: "unknown" when the key is missing, the title otherwise |
| `SingleDownload.FetchPlan` | src/social_video_downloader.py:87-169 | the video fetch happens iff `video`, the audio fetch iff `audio`, the separate subtitle fetch iff its condition holds |
| `SingleDownload.Plan` | src/social_video_downloader.py:73-169 | a run probes, makes the folder, then fetches in the order video, audio, subtitles |
| `SingleDownload.FirstRaise` | src/social_video_downloader.py:73-200 | the step whose exception is caught is a step of the plan that raised |
| `SingleDownload.FirstRaiseSpec` | src/social_video_downloader.py:73-200 | no step is caught exactly when every planned step returned; otherwise the caught step raised and every step before it returned |
| `SingleDownload.FirstRaisePlan` | src/social_video_downloader.py:73-200 | the caught step is the probe if it raised, else the mkdir if it raised, else the first fetch that raised |
| `SingleDownload.VideoFolder` | src/social_video_downloader.py:83 | a video's folder lies under the dated download directory |
| `SingleDownload.InFolder` | src/social_video_downloader.py:114-120 | each name joined to one folder, in order |
| `SingleDownload.JoinPlan` | src/social_video_downloader.py:113-124 | joining relative names to one folder keeps old names distinct, new names distinct and no new name equal to an old one |
| `SingleDownload.SourceNames` | src/social_video_downloader.py:113-116 | the subtitle files looked for: `<stem>.<lang>.vtt` for vie-VN and eng-US |
| `SingleDownload.TargetNames` | src/social_video_downloader.py:118-120 | the names they are renamed to: `sub-<lang>.vtt` |
| `SingleDownload.SourceNotTarget` | src/social_video_downloader.py:114-120 | no subtitle file looked for is named like a renamed one |
| `SingleDownload.SourcesDiffer` | src/social_video_downloader.py:114-116 | the two languages look for different files |
| `SingleDownload.TargetsDiffer` | src/social_video_downloader.py:118-120 | the two languages are renamed to different files |
| `SingleDownload.NamesRelative` | src/social_video_downloader.py:114-120 | every subtitle file name is relative, so joining keeps the folder |
| `SingleDownload.NotMedia` | src/social_video_downloader.py:106-116 | no subtitle file looked for is `video.mp4` or `audio.wav` |
| `SingleDownload.PairPlan` | src/social_video_downloader.py:113-124 | two languages whose six file names are pairwise apart form a rename plan |
| `SingleDownload.NamePlan` | src/social_video_downloader.py:113-124 | the names under either stem form a rename plan, are relative and spare the video and audio files |
| `SingleDownload.SourcesFor` | src/social_video_downloader.py:114-116 | one subtitle file per language in the folder |
| `SingleDownload.TargetsFor` | src/social_video_downloader.py:118-120 | one renamed file per language in the folder |
| `SingleDownload.JoinNotIn` | src/social_video_downloader.py:114-120 | a relative name outside a list stays outside once everything is joined to one folder |
| `SingleDownload.SubtitlePlan` | src/social_video_downloader.py:170-179 | the subtitle files of either stem in a folder form a rename plan |
| `SingleDownload.MediaNotSubtitle` | src/social_video_downloader.py:106-179 | renaming subtitles never touches the video or the audio file |
| `SingleDownload.Unvisited` | src/social_video_downloader.py:113-127 | a file the rename loop has not reached yet is where it was |
| `SingleDownload.FoundKeys` | src/social_video_downloader.py:113-127 | after n iterations the map holds exactly the visited languages whose file existed |
| `SingleDownload.FoundValues` | src/social_video_downloader.py:113-127 | each recorded language maps to its new name, which exists while the old name does not |
| `SingleDownload.MovedFrame` | src/social_video_downloader.py:113-127 | the loop removes only files of the plan and adds only new names of recorded languages |
| `SingleDownload.NothingMoved` | src/social_video_downloader.py:113-127 | when no file of the plan exists the loop changes nothing |
| `SingleDownload.RelocateSubtitles` | src/social_video_downloader.py:113-127 | the rename loop computes the language map and file system of the reference definitions |
| `SingleDownload.Rename` | src/social_video_downloader.py:170-180 | afterwards the map has a key only for a language whose file existed, mapped to its new name which now exists; other files stay; nothing found means nothing changed |
| `SingleDownload.FolderLayout` | src/social_video_downloader.py:88-177 | in every folder the video, audio and subtitle files of both stems are laid out with no two roles on one file |
| `SingleDownload.AfterVideo` | src/social_video_downloader.py:104-108 | the video fetch only adds files, and with `video` it adds the files it wrote |
| `SingleDownload.VideoPhase` | src/social_video_downloader.py:104-127 | the video path is set iff `video.mp4` exists; subtitle keys appear only with `subtitles`, exactly for the languages whose file came with the video; only those files move |
| `SingleDownload.Fetches` | src/social_video_downloader.py:86-194 | the caught fetch is the first that raised; `paths.video` only with `video` and `paths.audio` only with `audio`, each set when its fetch returned and the file exists; subtitle keys only vie-VN/eng-US and only with `subtitles`; the separate fetch only when the map is still empty; the clean-up of a video or audio file fetched against its flag is modelled, bound as `actual_video_path`/`actual_audio_path` are, and never fires: only subtitle files are removed, and a fetched video or audio file is still there at the end |
| `SingleDownload.Attempt` | src/social_video_downloader.py:73-200 | the result carries url, platform and timestamp; `success` iff no step raised, `error` the caught message otherwise; the path and clean-up properties of `Fetches` after a successful probe and mkdir |
| `SingleDownload.DownloadSingleVideo` | src/social_video_downloader.py:46-202 | `download_single_video`: the properties of `Attempt` in the folder of the sanitised title, laid out by `FolderLayout` with the languages vie-VN and eng-US; the clean-up branches, which are modelled, never remove a video or audio file |
| `SingleDownload.FirstRaiseFetches` | src/social_video_downloader.py:87-169 | among the fetches the caught one is the video fetch if it raised, else the audio fetch, else the separate subtitle fetch |
| `BatchDownload.GetOr` | src/social_video_downloader.py:256-258 | `options.get(key, True)` is false only for an explicit false |
| `BatchDownload.Defaults` | src/social_video_downloader.py:216-217 | without options all three flags are true; with options each flag is false only when its key says false |
| `BatchDownload.SingleFlagsAsWritten` | src/social_video_downloader.py:330-335 | the single-video branch as written raises `AttributeError` exactly when no options were passed, and otherwise uses the defaulted flags |
| `BatchDownload.MainBlockCrashes` | src/social_video_downloader.py:395-398 | the main block's URL is not a collection, so it reaches that branch without options and raises |
| `BatchDownload.DefaultsCorrectSingleFlags` | src/social_video_downloader.py:216-217 | the corrected flags agree with the code as written wherever that does not raise |
| `BatchDownload.MemberUrl` | src/social_video_downloader.py:246-249 | a member URL is the entry's `url` when truthy, otherwise the YouTube watch URL of its `id` |
| `BatchDownload.MemberUrls` | src/social_video_downloader.py:244-249 | at most one member URL per entry |
| `BatchDownload.MemberUrlsAllItems` | src/social_video_downloader.py:244-245 | without empty entries every entry gives one URL |
| `BatchDownload.MemberUrlOrigin` | src/social_video_downloader.py:244-249 | every member URL comes from a non-empty entry |
| `BatchDownload.Successes` | src/social_video_downloader.py:262-265 | the successes are at most the results |
| `BatchDownload.Kind` | src/social_video_downloader.py:221 | `type` is "playlist" iff the URL contains "playlist", and "channel" otherwise |
| `BatchDownload.Requests` | src/social_video_downloader.py:239-273 | a collection downloads its member URLs, the URL itself when there is no "entries" key, and nothing when the listing fails |
| `BatchDownload.TotalOf` | src/social_video_downloader.py:222-275 | `total_videos` is the number of entries, 1 without an "entries" key, 0 when the listing raises |
| `BatchDownload.ListingError` | src/social_video_downloader.py:281-282 | `error` is set exactly when the listing step raises |
| `BatchDownload.DownloadAll` | src/social_video_downloader.py:254-260 | one result per requested URL, in order |
| `BatchDownload.CollectionOf` | src/social_video_downloader.py:204-285 | a collection result keeps the URL and type; successful + failed is the number of videos, which is at most `total_videos`; a failed listing has no videos |
| `BatchDownload.CollectionCountsExact` | src/social_video_downloader.py:239-279 | successful + failed equals `total_videos` when every entry is non-empty, and both are 1 without an "entries" key |
| `BatchDownload.DownloadEntries` | src/social_video_downloader.py:244-265 | the entry loop downloads each member URL in order and counts successes and failures |
| `BatchDownload.SingleListing` | src/social_video_downloader.py:266-279 | a listing without "entries" gives the one-video result of the reference definition |
| `BatchDownload.EntriesListing` | src/social_video_downloader.py:239-265 | a listing with entries gives the result of the reference definition |
| `BatchDownload.DownloadPlaylistOrChannel` | src/social_video_downloader.py:204-285 | `download_playlist_or_channel` returns the reference collection result |
| `BatchDownload.UrlList` | src/social_video_downloader.py:299-300 | a bare string is a one-element list; a list is kept |
| `BatchDownload.VideosOf` | src/social_video_downloader.py:323-337 | a single video adds exactly one to `total_videos` |
| `BatchDownload.SuccessOf` | src/social_video_downloader.py:324-339 | a single video adds one success iff its result succeeded |
| `BatchDownload.FailureOf` | src/social_video_downloader.py:327-341 | a single video adds one failure iff its result failed |
| `BatchDownload.Sum` | src/social_video_downloader.py:305-308 | the counters start at 0 |
| `BatchDownload.Tally` | src/social_video_downloader.py:322-341 | one more download adds its own counts to the three totals and keeps successful + failed at most `total_videos` |
| `BatchDownload.SingleAddsOne` | src/social_video_downloader.py:336-341 | a single video adds exactly one video and exactly one of success or failure |
| `BatchDownload.SumMonotone` | src/social_video_downloader.py:322-341 | the counters never decrease as the loop advances |
| `BatchDownload.DownloadFor` | src/social_video_downloader.py:317-341 | the download of an input is a collection iff `is_playlist_or_channel`, for that URL, and adds no more successes + failures than videos |
| `BatchDownload.DownloadOne` | src/social_video_downloader.py:317-341 | one iteration produces the reference download for that URL |
| `BatchDownload.Planned` | src/social_video_downloader.py:312-341 | the k-th download is that of the k-th URL |
| `BatchDownload.DownloadFromUrls` | src/social_video_downloader.py:287-355 | `total_urls` is the number of inputs and `downloads` has one entry per input in input order; the date and directory are the downloader's; the counters are the totals over the downloads, successful + failed at most `total_videos` |
| `BrowserDownloader.IdentifyPlatform` | social_video_downloader.py:65-78 | this file's table gives the same platform as the other file's for every URL |
| `BrowserDownloader.ExtractUrl` | social_video_downloader.py:237-251 | a found URL starts with "http"; anything that is not a dict or list gives None |
| `BrowserDownloader.ExtractFromMembers` | social_video_downloader.py:239-245 | a URL the member loop returns starts with "http" |
| `BrowserDownloader.ExtractFromItems` | social_video_downloader.py:246-250 | a URL the item loop returns starts with "http" |
| `BrowserDownloader.ExtractIsFirstCandidate` | social_video_downloader.py:237-251 | the search returns the first qualifying value in depth-first iteration order, and None when there is none |
| `BrowserDownloader.MembersFirstCandidate` | social_video_downloader.py:239-245 | the member loop from position k returns the first candidate under those members |
| `BrowserDownloader.ItemsFirstCandidate` | social_video_downloader.py:246-250 | the item loop from position k returns the first candidate under those items |
| `BrowserDownloader.ExtractFoundAt` | social_video_downloader.py:237-251 | a found URL is the string value of a key equal to `key` somewhere in the structure |
| `BrowserDownloader.MembersFoundAt` | social_video_downloader.py:239-245 | a URL the member loop returns is held by a member named `key` under those members |
| `BrowserDownloader.ItemsFoundAt` | social_video_downloader.py:246-250 | a URL the item loop returns is held by a member named `key` under those items |
| `BrowserDownloader.ExtractFindsAny` | social_video_downloader.py:237-251 | if any key equal to `key` holds a string starting with "http", the search finds a URL |
| `BrowserDownloader.MembersReach` | social_video_downloader.py:239-245 | the member loop reaches a qualifying member unless it returned earlier |
| `BrowserDownloader.ItemsReach` | social_video_downloader.py:246-250 | the item loop reaches a qualifying item unless it returned earlier |
| `BrowserDownloader.ContainerValueSearchedInto` | social_video_downloader.py:240-245 | a matching key whose value is a dict is searched into, and the URL inside is returned |
| `BrowserDownloader.TrackLang` | social_video_downloader.py:298 | a track without `srclang` is named `lang<i>`, i its list index; a present `srclang` is used as is |
| `BrowserDownloader.FalsyInputsDoNothing` | social_video_downloader.py:253-314 | the three helpers return False and send no request and write no file when their input is falsy |
| `BrowserDownloader.TracksOnlyAppend` | social_video_downloader.py:293-304 | the track loop only appends effects |
| `BrowserDownloader.TrackWithoutLangUsesIndex` | social_video_downloader.py:291-302 | a fetched track without `srclang` is written as `<filename>_lang<i>.vtt` |
| `BrowserDownloader.IndexedLangsDiffer` | social_video_downloader.py:296-302 | tracks without `srclang` at different positions are written to different `.vtt` paths |
| `BrowserDownloader.SameLangSamePath` | social_video_downloader.py:298-299 | two tracks with the same `srclang` string are written to the same `.vtt` path |
| `BrowserDownloader.ExtractorFor` | social_video_downloader.py:333-341 | tiktok, instagram and youtube get their own extractor, every other platform the generic one |
| `BrowserDownloader.Stem` | social_video_downloader.py:327-331 | the file stem is `<platform>_<timestamp>` |
| `BrowserDownloader.TracksWritesUseStem` | social_video_downloader.py:291-302 | every `.vtt` file of the track loop lies under `subtitles/` and is named after the stem |
| `BrowserDownloader.SubtitlesWritesUseStem` | social_video_downloader.py:279-302 | the JSON file and every `.vtt` file of `download_subtitles` lie under `subtitles/` and are named after the stem |
| `BrowserDownloader.FromUrlWritesUseStem` | social_video_downloader.py:326-357 | `download_from_url` only adds effects, and every file it writes lies under `videos/` or `subtitles/` and is named after the stem |
| `BrowserDownloader.NoInfoNoEffects` | social_video_downloader.py:343-357 | a falsy or failed extraction sends no request and writes nothing |
| `BrowserDownloader.Browser.constructor` | social_video_downloader.py:15-19 | a new downloader has its directory and no effects |
| `BrowserDownloader.Browser.DownloadVideo` | social_video_downloader.py:253-277 | True iff the URL is truthy, its request succeeded and the file could be opened; the request and then the file are recorded |
| `BrowserDownloader.Browser.DownloadSubtitles` | social_video_downloader.py:279-310 | True iff the track list is non-empty and the JSON file could be opened; with a `src` on the first track every track is fetched and saved in order, a failing track being skipped |
| `BrowserDownloader.Browser.SaveTrack` | social_video_downloader.py:293-304 | one track: a request when `src` is truthy, then its `.vtt` file when that succeeded |
| `BrowserDownloader.Browser.SaveCaption` | social_video_downloader.py:312-324 | True iff the caption is non-empty and its file could be opened |
| `BrowserDownloader.Browser.SaveInfo` | social_video_downloader.py:343-355 | each helper runs only when its key is truthy, in the order video, subtitles, caption |
| `BrowserDownloader.Browser.DownloadFromUrl` | social_video_downloader.py:326-357 | True iff the dispatched extractor returned a truthy record, whatever the downloads then do; the effects are those of the three helpers with the stem as file name |
| `Listing.Keep` | src/api.py:531 | the filter keeps only items that pass the test, each at most as often as it occurs (its order is fixed by `KeepOne` and `KeepAppend`) |
| `Listing.KeepOne` | src/api.py:531 | one item is kept exactly when it passes the test |
| `Listing.KeepAppend` | src/api.py:531 | filtering a concatenation gives the filtered parts in the same order, so the kept items keep the input's order |
| `Listing.KeepComplete` | src/api.py:531 | every item that passes the test is kept |
| `Listing.Insert` | src/api.py:534-537 | one insertion step of the sort adds exactly that item |
| `Listing.SortDesc` | src/api.py:534-537 | the sort is a permutation of its input |
| `Listing.InsertSorted` | src/api.py:534-537 | inserting into a descending list keeps it descending |
| `Listing.SortDescSorted` | src/api.py:534-537 | `sort(reverse=True)` leaves the list in descending key order |
| `Listing.PrefixSorted` | src/api.py:540 | the slice `[:limit]` of a sorted list is sorted |
| `Listing.WithKey` | src/api.py:534-537 | the items with one key, in order, all carry that key |
| `Listing.InsertStable` | src/api.py:534-537 | an inserted item goes after every item with its key |
| `Listing.SortDescStable` | src/api.py:534-537 | the sort is stable: items sharing a key keep their relative order |
| `TaskApi.Pending` | src/api.py:335-339 | a submission stores status "pending", its target and `created_at`, and nothing else |
| `TaskApi.Processing` | src/api.py:77-81 | a step's first write replaces the whole entry: status "processing", `started_at` and the target; `created_at` is gone |
| `TaskApi.SingleStepRecord` | src/api.py:77-116 | "completed" iff the downloader returned with `success`, else "failed"; a raise stores its message, a failed result its `error` (possibly `None`); `created_at` is gone and `completed_at` is set |
| `TaskApi.BatchStepRecord` | src/api.py:135-176 | "completed" whenever `download_from_urls` returned, whatever its per-video failures; "failed" with the message only when it raised |
| `TaskApi.InfoStepRecord` | src/api.py:196-231 | "completed" with the info iff extraction returned a non-empty dictionary; "failed" with "Could not extract video information" for an empty result, with the message on a raise |
| `TaskApi.SortKey` | src/api.py:535 | the sort key is `created_at`, else `started_at`, else "" |
| `TaskApi.ItemKey` | src/api.py:535 | the key of a pair is that of its record |
| `TaskApi.Items` | src/api.py:527 | the pairs of the registry in its iteration order |
| `TaskApi.HasStatus` | src/api.py:531 | the filter test holds exactly for records with that status |
| `TaskApi.Selected` | src/api.py:527-540 | at most `limit` pairs are listed |
| `TaskApi.ShownTarget` | src/api.py:551 | `task.get("url") or task.get("urls")`: a non-empty URL or a URL list is shown; an empty URL shows as missing |
| `TaskApi.Summarize` | src/api.py:546-552 | a summary keeps its pair's id and status |
| `TaskApi.Kept` | src/api.py:527-531 | the filtered pairs come from the registry and, with a status filter, have that status |
| `TaskApi.SelectedKept` | src/api.py:527-540 | every listed pair passed the filter |
| `TaskApi.SelectedSorted` | src/api.py:534-540 | the listing is in descending order of `created_at`, else `started_at`, else "" |
| `TaskApi.SelectedFromRegistry` | src/api.py:527-540 | every listed pair is a registered task with its current record |
| `TaskApi.SelectedHaveStatus` | src/api.py:530-531 | with a status filter every listed task has exactly that status |
| `TaskApi.MatchingTaskListed` | src/api.py:527-540 | with no more tasks than the limit, every task with the requested status is listed |
| `TaskApi.KeptContains` | src/api.py:530-531 | every task with the requested status passes the filter |
| `TaskApi.KeptAllSelected` | src/api.py:539-540 | with no more tasks than the limit, the slice cuts nothing off |
| `TaskApi.SelectedAllWhenFew` | src/api.py:527-540 | without a filter and with no more tasks than the limit, every task is listed exactly once |
| `Listing.WithKeyPrefix` | src/api.py:540 | slicing a list keeps a prefix of its items with any one key |
| `Listing.WithKeyOfKeep` | src/api.py:530-531 | picking the items with one key and filtering by a test commute, both keeping the input's order |
| `TaskApi.ListingStable` | src/api.py:527-540 | with or without a status filter, the listed tasks with one sort key are, in registration order, a prefix of the registered tasks with that key that pass the filter, and all of them when no more than `limit` tasks are registered |
| `TaskApi.DownloadFileAsWritten` | src/api.py:484-500 | 404 exactly for a missing file, checked first; then 403 exactly when the absolute path string does not start with the absolute root string; otherwise the file |
| `TaskApi.DownloadFile` | src/api.py:484-500 | the corrected check: 404 exactly for a missing file; then 403 exactly when the absolute path is neither the root nor below it |
| `TaskApi.ResolvedNames` | src/api.py:490 | `abspath` of the file path is the rendering of normalised names |
| `TaskApi.RootNames` | src/api.py:491 | the root resolves to the working directory followed by "download" |
| `TaskApi.DownloadFileContained` | src/api.py:489-494 | the corrected check serves only files whose resolved path lies inside the root directory |
| `TaskApi.SiblingRendered` | src/api.py:493 | a sibling directory such as "download2" has an absolute path that starts with the root's string but does not lie below the root |
| `TaskApi.SiblingServedAsWritten` | src/api.py:484-494 | as written, `..` reaches any existing file in a sibling directory whose name begins with "download", and it is served; the corrected check refuses it with 403 |
| `TaskApi.SiblingDirectoryServed` | src/api.py:484-494 | with working directory "/srv", `/files/../download2/a.mp4` is served as written and refused when corrected |
| `TaskApi.Registry.constructor` | src/api.py:38 | the registry starts empty |
| `TaskApi.Registry.Put` | src/api.py:38 | dictionary assignment: the record is stored; a new key goes last in iteration order, an existing key keeps its place |
| `TaskApi.Registry.DownloadSingle` | src/api.py:322-367 | the new id is stored as "pending" with the URL before spawning; on success the reply is "pending" with "Download task created for <url>" and the run id; if spawning raises, the entry becomes "failed" with the error and a 500 "Failed to create task: <e>" is raised |
| `TaskApi.Registry.DownloadBatch` | src/api.py:370-415 | as `download_single` for a URL list, with "Batch download task created for <n> URLs" and "Failed to create batch task: <e>" |
| `TaskApi.Registry.GetTaskStatus` | src/api.py:418-428 | the stored record iff the id is present, otherwise 404 "Task not found"; the registry is unchanged |
| `TaskApi.Registry.DeleteTask` | src/api.py:503-518 | removes exactly that id and keeps every other entry and the order of the rest; an absent id gives 404 and changes nothing, so a second delete gives 404 |
| `TaskApi.Registry.ListTasks` | src/api.py:521-555 | `total` is the registry size, `filtered` the number returned, at most `limit`; the tasks are the summaries of the filtered, sorted, sliced pairs |
| `TaskApi.Registry.SingleStep` | src/api.py:72-122 | the entry becomes the single-step record; the step returns its id and the downloader's `success` |
| `TaskApi.Registry.BatchStep` | src/api.py:130-182 | the entry becomes the batch-step record; the step reports success iff `download_from_urls` returned |
| `TaskApi.Registry.InfoStep` | src/api.py:190-237 | the entry becomes the info-step record; the step reports success iff the info was stored as completed |
| `TaskApi.Without` | src/api.py:513 | deletion leaves exactly the other ids, and nothing changes for an id that is absent |
| `TaskApi.WithoutDistinct` | src/api.py:513 | deletion keeps the ids distinct |
| `TaskApi.Summaries` | src/api.py:545-554 | one summary per listed pair, in order |
| `TaskApi.CountKeys` | src/api.py:543 | `len(task_results)` equals the number of ids in iteration order |
| `Worker.NewWorker` | src/worker.py:43-45 | a definition, whose contract is the value itself: `DOWNLOAD_DIR` defaults to "./download" and `WORKER_ID` to "1" |
| `Worker.FlagsOf` | src/worker.py:90-92 | each flag is false only when the input says false |
| `Worker.KeyErrorText` | src/worker.py:131-137 | a definition, whose contract is the value itself: the text of the `KeyError` for a missing key is the quoted key |
| `Worker.ProcessSingleDownload` | src/worker.py:53-84 | a missing "url" lets the exception escape (the handler reads the unbound `url`); otherwise "success" with the result whenever the download returns, even with `success` false, and "error" with the message when it raises |
| `Worker.ExtractVideoInfo` | src/worker.py:139-161 | a missing "url" escapes; otherwise "success" with the info when extraction returns and "error" with the message when it raises |
| `Worker.ExtractVideoInfoAlwaysErrors` | src/worker.py:146 | with the extraction fixed to the `AttributeError` the downloader class gives (it defines no `extract_info`), a request with a URL always answers "error" with that message, and one without a URL escapes |
| `Worker.Status` | src/worker.py:108-115 | an entry's status is "success" iff its download returned and "error" iff it raised |
| `Worker.EntryFor` | src/worker.py:99-117 | the entry keeps its URL; it holds the result iff the download returned and the message iff it raised |
| `Worker.Entries` | src/worker.py:96-117 | one entry per input URL, in input order, from the download at that position |
| `Worker.CountSuccess` | src/worker.py:119 | the successes are at most the entries |
| `Worker.CountErrors` | src/worker.py:126 | the errors are at most the entries |
| `Worker.SuccessesAndErrors` | src/worker.py:119-126 | successes and errors add up to the number of entries |
| `Worker.NoRaiseAllSuccessful` | src/worker.py:99-119 | a batch where no download raises counts every URL as successful, whatever the results say |
| `Worker.ProcessBatchDownload` | src/worker.py:86-137 | a missing "urls" gives "error" with `'urls'`; otherwise one entry per URL in order, a raising download recorded as "error" while later URLs go on, `total` the number of URLs, `successful` the "success" count, `failed` the "error" count, and successful + failed = total |

## Left out

- yt-dlp, Selenium and `requests` are not modelled; only their outcomes are. In `SingleDownload` each external call is a `Call` that returns or raises, and `Tool` also gives the title and the files each call writes. In `BatchDownload` a `World` oracle, indexed by the input position, gives the listing and each per-video result. In the browser module `Env` says whether a request succeeds and whether a path can be opened. The postprocessors, format selection and yt-dlp options are not modelled.
- The page extractors of the browser downloader (`extract_video_info_tiktok`, `_instagram`, `_youtube`, `extract_generic_video_info`, `extract_subtitles_from_page`, social_video_downloader.py:80-235 and 359-378) and `setup_driver` are DOM scraping. They are the `extract` oracle of `Browser.DownloadFromUrl`, which returns the scraped record.
- The file system is modelled as a set of existing paths (`SingleDownload`) or an oracle (`TaskApi`, browser `Env`). File contents, streamed chunks and JSON serialisation are not modelled. An effect records only the URL requested or the path written.
- Clock values, `uuid4` task ids and Hatchet run ids are parameters of the operations that use them.
- `get_video_info` of src/social_video_downloader.py:357-392 is not modelled as a function. Its outcome, a dictionary or None, is the parameter of `TaskApi.InfoStepRecord`.
- The `/video-info` handler (src/api.py:431-472) spawns a workflow and then polls the registry after `asyncio.sleep(2)`. What it finds depends on timing, so it is left out. The records the info step writes are modelled by `TaskApi.Registry.InfoStep`.
- `root`, `health_check`, Hatchet workflow registration and spawning, `start_worker`, the worker's `register_workflows`, `run` and `main` (src/api.py:291-319, 558-588; src/worker.py:163-237) are plumbing. A spawn is a `Result` parameter of the submission methods.
- FastAPI request validation is not modelled. `HttpUrl` normalisation of the URL text is left out: the URL string is used as given. The `Query(ge=1, le=100)` bounds of `list_tasks` become its precondition.
- Path parameters of `/files/{date}/{folder}/{filename}` cannot contain '/', and the lemmas about sibling directories assume that. `os.path.abspath` is modelled on a normalised working directory: symbolic links are not followed, and `//` at the start of a path is not special.
- `urlparse` is modelled only as far as the netloc text, by the steps of Python 3.12's urllib that shape it: leading C0 controls and spaces stripped, tab, CR and LF taken out, the scheme rule, then the text up to '/', '?' or '#'. User info and ports are kept in the netloc text. urlsplit's two `ValueError` checks are not modelled; the next line says what that leaves out.
- `Classify.Netloc` does not raise urlsplit's `ValueError`s; it returns the text. There are two: `"Invalid IPv6 URL"` for a netloc with only one of '[' and ']' (and the check of the address inside brackets), and the check `_checknetloc`, which raises when a netloc holding non-ASCII characters contains '/', '?', '#', '@' or ':' after NFKC normalisation, as `https://a\uFF0Fb.com/x` (a fullwidth solidus) does. As `identify_platform` is called before the `try` of `download_single_video` (src/social_video_downloader.py:61), either such URL makes the call raise in the source, which aborts `download_from_urls` at that URL and, inside a collection, ends the collection with its error after the videos done so far. The model's `World.single` always returns, so it does not capture this.
- `SingleDownload.Rename`: `os.rename` (src/social_video_downloader.py:121, 178) is taken to succeed. In the source an `OSError` there is caught by the `try` and reported as the result's error, which `SingleDownload.Attempt`'s outcomes do not include.
- `str.isalnum` is a parameter (`Alnum`). The model only assumes that '/' is not alphanumeric. Unicode case rules are left out: `lower()` is ASCII only.
- The registry is shared with the worker thread (src/api.py:576). The model is sequential, so races are not modelled.
- src/worker.py:146 calls `extract_info`, which the downloader class (src/social_video_downloader.py:11-392) does not define, nor does it define `__getattr__`. The call therefore always raises `AttributeError`. `Worker.ExtractVideoInfo` takes the extraction as a parameter so that its contract reads as the handler's code does; `Worker.ExtractVideoInfoAlwaysErrors` fixes that parameter to the raise the source actually gets, whose reply is always "error".
- Logging (`logger`, `print`) and the `json.dumps` of `download_from_url` are not modelled.
- main.py and test_docker.py are not part of this model.
- `Worker.ProcessBatchDownload` takes the `"urls"` value as a list of strings. A value that is not a list, which would raise inside the loop, is not modelled.
- `BatchDownload.DownloadFromUrls` models the corrected single-video branch (see Findings). The branch as written is `BatchDownload.SingleFlagsAsWritten`.

## Findings

| source | as written | input that shows it | evidently intended | confidence | as-written member | corrected member |
|---|---|---|---|---|---|---|
| src/social_video_downloader.py:330-335 | the single-video branch of `download_from_urls` calls `download_options.get(...)` with no default for `None`, unlike `download_playlist_or_channel` (lines 216-217) | `download_from_urls(["https://vt.tiktok.com/ZSAo286Hf"])` with no options, as in the main block at lines 395-398: the URL is not a collection, and a `None` options value raises `AttributeError` | missing options mean all three flags true, as for collections | not executed | `BatchDownload.SingleFlagsAsWritten`, `BatchDownload.MainBlockCrashes` | `BatchDownload.Defaults`, `BatchDownload.DownloadFromUrls` |
| src/api.py:489-494 | `download_file` compares the absolute path and the absolute root as strings with `startswith` | working directory `/srv`, date `..`, folder `download2`, filename `a.mp4`: `/srv/download2/a.mp4` starts with `/srv/download` and is served although it lies outside the root | serve only the root or paths below it, component by component | not executed | `TaskApi.DownloadFileAsWritten`, `TaskApi.SiblingServedAsWritten`, `TaskApi.SiblingDirectoryServed` | `TaskApi.DownloadFile`, `TaskApi.DownloadFileContained` |

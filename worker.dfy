/**
 * The workflow handlers of src/worker.py: one download, a batch of downloads
 * with its success count, and info extraction. The downloader is an oracle
 * indexed by the position of the call, so the same URL may fare differently
 * at two positions; a call either returns a result or raises with a message.
 */
module Worker {
  import opened Wrappers
  import SD = SingleDownload
  import BatchDownload

  /** `VideoDownloadWorker`: its directory and id come from the environment, with defaults. */
  datatype VideoDownloadWorker = VideoDownloadWorker(downloadDir: string, workerId: string)

  function NewWorker(envDownloadDir: Option<string>, envWorkerId: Option<string>): (w: VideoDownloadWorker)
    ensures w.downloadDir == (if envDownloadDir.Some? then envDownloadDir.value else "./download")
    ensures w.workerId == (if envWorkerId.Some? then envWorkerId.value else "1")
  {
    VideoDownloadWorker(
      if envDownloadDir.Some? then envDownloadDir.value else "./download",
      if envWorkerId.Some? then envWorkerId.value else "1")
  }

  /** A workflow's input: the `"url"` or `"urls"` key may be missing; the flags default to true. */
  datatype WorkflowInput = WorkflowInput(url: Option<string>, urls: Option<seq<string>>, options: BatchDownload.Options)

  /** The flags passed to every download of one workflow. */
  function FlagsOf(input: WorkflowInput): (f: BatchDownload.Flags)
    ensures f.video <==> input.options.video != Some(false)
    ensures f.audio <==> input.options.audio != Some(false)
    ensures f.subtitles <==> input.options.subtitles != Some(false)
  {
    BatchDownload.Defaults(Some(input.options))
  }

  /** `download_single_video(url, ...)` at call position `pos`. */
  type Download = (nat, string, BatchDownload.Flags) -> Result<SD.DownloadResult>

  /** `str(KeyError(key))` */
  function KeyErrorText(key: string): (m: string)
    ensures m == "'" + key + "'"
  {
    "'" + key + "'"
  }

  /**
   * The outcome of a handler: the dictionary it returns, or an exception it
   * lets escape. A missing `"url"` makes the handler's own except clause
   * read the unbound `url`, so that exception escapes.
   */
  datatype Handled<T> = Returns(reply: T) | Escapes

  /** The reply of `process_single_download` and `extract_video_info`. */
  datatype Reply<T> = Success(value: T, workerId: string) | Error(error: string, workerId: string)

  /** `process_single_download`: "success" whenever the download returns, whatever its own `success` says. */
  function ProcessSingleDownload(w: VideoDownloadWorker, input: WorkflowInput, download: Download): (h: Handled<Reply<SD.DownloadResult>>)
    ensures h.Escapes? <==> input.url.None?
    ensures input.url.Some? ==>
      var outcome := download(0, input.url.value, FlagsOf(input));
      h.reply == (if outcome.Ok? then Success(outcome.value, w.workerId) else Error(outcome.error, w.workerId))
  {
    if input.url.None? then Escapes
    else
      match download(0, input.url.value, FlagsOf(input))
      case Ok(result) => Returns(Success(result, w.workerId))
      case Err(message) => Returns(Error(message, w.workerId))
  }

  /** A dictionary of video information. */
  type InfoDict = seq<(string, string)>

  /** `extract_video_info`: the extractor's outcome wrapped as a reply. */
  function ExtractVideoInfo(w: VideoDownloadWorker, input: WorkflowInput, extract: string -> Result<InfoDict>): (h: Handled<Reply<InfoDict>>)
    ensures h.Escapes? <==> input.url.None?
    ensures input.url.Some? && extract(input.url.value).Ok? ==> h.reply == Success(extract(input.url.value).value, w.workerId)
    ensures input.url.Some? && extract(input.url.value).Err? ==> h.reply == Error(extract(input.url.value).error, w.workerId)
  {
    if input.url.None? then Escapes
    else
      match extract(input.url.value)
      case Ok(info) => Returns(Success(info, w.workerId))
      case Err(message) => Returns(Error(message, w.workerId))
  }

  /** `str(e)` for the `AttributeError` of calling `extract_info` on the downloader class, which defines no such method. */
  const MissingExtractInfo := "'SocialVideoDownloader' object has no attribute 'extract_info'"

  /**
   * As the source stands the extraction always raises, so every info request
   * that carries a URL answers "error" with that message, and none succeeds.
   */
  lemma ExtractVideoInfoAlwaysErrors(w: VideoDownloadWorker, input: WorkflowInput)
    ensures ExtractVideoInfo(w, input, (u: string) => Err(MissingExtractInfo)) ==
      (if input.url.None? then Escapes else Returns(Error(MissingExtractInfo, w.workerId)))
  {
  }

  // ---------------------------------------------------------------------------
  // Batches

  /** One entry of a batch's `"results"`, tagged with its URL. */
  datatype Entry = Returned(url: string, result: SD.DownloadResult) | Raised(url: string, error: string)

  /** The entry's `"status"`. */
  function Status(e: Entry): (s: string)
    ensures s == "success" <==> e.Returned?
    ensures s == "error" <==> e.Raised?
  {
    if e.Returned? then "success" else "error"
  }

  /** The entry for one URL, from its download's outcome. */
  function EntryFor(url: string, outcome: Result<SD.DownloadResult>): (e: Entry)
    ensures e.url == url
    ensures e.Returned? <==> outcome.Ok?
    ensures e.Returned? ==> e.result == outcome.value
    ensures e.Raised? ==> e.error == outcome.error
  {
    match outcome
    case Ok(result) => Returned(url, result)
    case Err(message) => Raised(url, message)
  }

  /** The entries of a batch: one per URL, in input order, from the download at that position. */
  function Entries(urls: seq<string>, flags: BatchDownload.Flags, download: Download): (es: seq<Entry>)
    ensures |es| == |urls|
    ensures forall i :: 0 <= i < |urls| ==> es[i] == EntryFor(urls[i], download(i, urls[i], flags))
  {
    seq(|urls|, i requires 0 <= i < |urls| => EntryFor(urls[i], download(i, urls[i], flags)))
  }

  /** The number of "success" entries. */
  function CountSuccess(es: seq<Entry>): (n: nat)
    ensures n <= |es|
  {
    if es == [] then 0
    else CountSuccess(es[..|es| - 1]) + (if Status(es[|es| - 1]) == "success" then 1 else 0)
  }

  /** The number of "error" entries. */
  function CountErrors(es: seq<Entry>): (n: nat)
    ensures n <= |es|
  {
    if es == [] then 0
    else CountErrors(es[..|es| - 1]) + (if Status(es[|es| - 1]) == "error" then 1 else 0)
  }

  /** Every entry is either a success or an error, so `total - successful` counts the errors. */
  lemma {:induction false} SuccessesAndErrors(es: seq<Entry>)
    ensures CountSuccess(es) + CountErrors(es) == |es|
  {
    if es != [] {
      SuccessesAndErrors(es[..|es| - 1]);
    }
  }

  /** A batch in which no download raises counts every URL as successful, whatever the results say. */
  lemma {:induction false} NoRaiseAllSuccessful(es: seq<Entry>)
    requires forall i :: 0 <= i < |es| ==> es[i].Returned?
    ensures CountSuccess(es) == |es|
  {
    if es != [] {
      NoRaiseAllSuccessful(es[..|es| - 1]);
    }
  }

  /** The reply of `process_batch_download`. */
  datatype BatchReply =
    | Completed(total: nat, successful: nat, failed: nat, results: seq<Entry>, workerId: string)
    | BatchError(error: string, workerId: string)

  /**
   * `process_batch_download`: a missing `"urls"` key is reported as an error;
   * otherwise every URL is downloaded in order, a raising download becomes an
   * "error" entry and the loop goes on, and the counts add up the entries.
   */
  method ProcessBatchDownload(w: VideoDownloadWorker, input: WorkflowInput, download: Download) returns (r: BatchReply)
    ensures input.urls.None? ==> r == BatchError(KeyErrorText("urls"), w.workerId)
    ensures input.urls.Some? ==>
      && r.Completed? && r.workerId == w.workerId
      && r.results == Entries(input.urls.value, FlagsOf(input), download)
      && r.total == |input.urls.value|
      && r.successful == CountSuccess(r.results)
      && r.failed == CountErrors(r.results)
      && r.successful + r.failed == r.total
  {
    if input.urls.None? {
      return BatchError(KeyErrorText("urls"), w.workerId);
    }
    var urls := input.urls.value;
    var flags := FlagsOf(input);
    var results: seq<Entry> := [];
    for i := 0 to |urls|
      invariant |results| == i
      invariant forall k :: 0 <= k < i ==> results[k] == EntryFor(urls[k], download(k, urls[k], flags))
    {
      var outcome := download(i, urls[i], flags);
      match outcome {
        case Ok(result) =>
          results := results + [Returned(urls[i], result)];
        case Err(message) =>
          results := results + [Raised(urls[i], message)];
      }
    }
    var successful := 0;
    for j := 0 to |results|
      invariant successful == CountSuccess(results[..j])
    {
      assert results[..j + 1][..j] == results[..j];
      if Status(results[j]) == "success" {
        successful := successful + 1;
      }
    }
    assert results[..|results|] == results;
    SuccessesAndErrors(results);
    return Completed(|urls|, successful, |urls| - successful, results, w.workerId);
  }
}

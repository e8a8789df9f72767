/**
 * The HTTP service of src/api.py: the in-memory `task_results` registry, the
 * two submission handlers, task lookup, deletion and listing, the status
 * updates made by the three workflow steps, and the checks of the file
 * download handler.
 *
 * The registry is a `Registry` object: a map from task id to record, plus the
 * ids in the dictionary's insertion order, which `list_tasks` starts from.
 * Clock values, task ids and the outcomes of spawning a workflow or of the
 * downloader are parameters.
 */
module TaskApi {
  import opened Wrappers
  import opened Strings
  import Paths
  import SD = SingleDownload
  import BatchDownload
  import Listing

  // ---------------------------------------------------------------------------
  // Records

  /** The `"url"` or `"urls"` key of a record, or neither. */
  datatype Target = NoTarget | OneUrl(url: string) | UrlList(urls: seq<string>)

  /** A plain dictionary with string values, such as the one `get_video_info` returns. */
  type InfoDict = seq<(string, string)>

  /** The `"result"` or `"info"` key of a record, or neither. */
  datatype Payload =
    | NoPayload
    | SingleOutcome(single: SD.DownloadResult)
    | BatchOutcome(batch: BatchDownload.Results)
    | InfoOutcome(info: InfoDict)

  /**
   * One value of `task_results`. A missing timestamp key is `None`; the
   * `"error"` key may be missing, `None` or a string.
   */
  datatype Record = Record(
    status: string, target: Target,
    createdAt: Option<string>, startedAt: Option<string>, completedAt: Option<string>,
    error: Field, payload: Payload)

  /** The record a submission handler stores before spawning its workflow. */
  function Pending(target: Target, createdAt: string): (rec: Record)
    ensures rec.status == "pending" && rec.target == target && rec.createdAt == Some(createdAt)
    ensures rec.startedAt.None? && rec.completedAt.None? && rec.error.Absent? && rec.payload.NoPayload?
  {
    Record("pending", target, Some(createdAt), None, None, Absent, NoPayload)
  }

  /** The record a workflow step stores when it starts: the whole entry is replaced and `created_at` is gone. */
  function Processing(target: Target, startedAt: string): (rec: Record)
    ensures rec.status == "processing" && rec.target == target && rec.startedAt == Some(startedAt)
    ensures rec.createdAt.None? && rec.completedAt.None? && rec.error.Absent? && rec.payload.NoPayload?
  {
    Record("processing", target, None, Some(startedAt), None, Absent, NoPayload)
  }

  /** An `HTTPException` raised by a handler, or the value it returns. */
  datatype Reply<T> = Success(value: T) | HttpException(statusCode: nat, detail: string)

  /** The `TaskResponse` of a submission. */
  datatype TaskResponse = TaskResponse(taskId: string, status: string, message: string, runId: string)

  /** What a workflow step returns to the scheduler. */
  datatype StepReturn = StepReturn(taskId: string, success: bool, error: Option<string>)

  // ---------------------------------------------------------------------------
  // Workflow steps, as functions of the outcome

  /**
   * The record the single-download step leaves: "completed" iff the
   * downloader returned a result with `success`, "failed" with the error
   * otherwise; `started_at` and the URL survive, `created_at` does not.
   */
  function SingleStepRecord(url: string, startedAt: string, outcome: Result<SD.DownloadResult>, completedAt: string): (rec: Record)
    ensures rec.status == "completed" <==> outcome.Ok? && outcome.value.success
    ensures rec.status != "completed" ==> rec.status == "failed"
    ensures rec.target == OneUrl(url) && rec.startedAt == Some(startedAt) && rec.createdAt.None?
    ensures rec.completedAt == Some(completedAt)
    ensures outcome.Err? ==> rec.error == Text(outcome.error) && rec.payload.NoPayload?
    ensures outcome.Ok? ==> rec.payload == SingleOutcome(outcome.value)
    ensures outcome.Ok? && !outcome.value.success ==>
      rec.error == (if outcome.value.error.Some? then Text(outcome.value.error.value) else Null)
    ensures outcome.Ok? && outcome.value.success ==> rec.error.Absent?
  {
    var start := Processing(OneUrl(url), startedAt);
    match outcome
    case Ok(result) =>
      var done := start.(status := if result.success then "completed" else "failed",
                         payload := SingleOutcome(result), completedAt := Some(completedAt));
      if result.success then done
      else done.(error := if result.error.Some? then Text(result.error.value) else Null)
    case Err(message) =>
      start.(status := "failed", error := Text(message), completedAt := Some(completedAt))
  }

  /**
   * The record the batch step leaves: "completed" whenever `download_from_urls`
   * returned, however many of its downloads failed; "failed" only when it raised.
   */
  function BatchStepRecord(urls: seq<string>, startedAt: string, outcome: Result<BatchDownload.Results>, completedAt: string): (rec: Record)
    ensures rec.status == (if outcome.Ok? then "completed" else "failed")
    ensures rec.target == UrlList(urls) && rec.startedAt == Some(startedAt) && rec.createdAt.None?
    ensures rec.completedAt == Some(completedAt)
    ensures outcome.Ok? ==> rec.payload == BatchOutcome(outcome.value) && rec.error.Absent?
    ensures outcome.Err? ==> rec.error == Text(outcome.error) && rec.payload.NoPayload?
  {
    var start := Processing(UrlList(urls), startedAt);
    match outcome
    case Ok(result) => start.(status := "completed", payload := BatchOutcome(result), completedAt := Some(completedAt))
    case Err(message) => start.(status := "failed", error := Text(message), completedAt := Some(completedAt))
  }

  const NoInfo: string := "Could not extract video information"

  /**
   * The record the info step stores, replacing the whole entry: "completed"
   * with the info when it is a non-empty dictionary, "failed" otherwise.
   */
  function InfoStepRecord(outcome: Result<Option<InfoDict>>, completedAt: string): (rec: Record)
    ensures rec.status == "completed" <==> outcome.Ok? && outcome.value.Some? && outcome.value.value != []
    ensures rec.status != "completed" ==> rec.status == "failed"
    ensures rec.target.NoTarget? && rec.createdAt.None? && rec.startedAt.None? && rec.completedAt == Some(completedAt)
    ensures rec.status == "completed" ==> rec.payload == InfoOutcome(outcome.value.value) && rec.error.Absent?
    ensures outcome.Ok? && rec.status == "failed" ==> rec.error == Text(NoInfo)
    ensures outcome.Err? ==> rec.error == Text(outcome.error)
  {
    match outcome
    case Ok(info) =>
      if info.Some? && info.value != [] then Record("completed", NoTarget, None, None, Some(completedAt), Absent, InfoOutcome(info.value))
      else Record("failed", NoTarget, None, None, Some(completedAt), Text(NoInfo), NoPayload)
    case Err(message) => Record("failed", NoTarget, None, None, Some(completedAt), Text(message), NoPayload)
  }

  // ---------------------------------------------------------------------------
  // Listing

  /** One `(task_id, task)` pair of `task_results.items()`. */
  type Item = (string, Record)

  /** The sort key of `list_tasks`: `created_at`, else `started_at`, else "". */
  function SortKey(rec: Record): (k: string)
    ensures rec.createdAt.Some? ==> k == rec.createdAt.value
    ensures rec.createdAt.None? && rec.startedAt.Some? ==> k == rec.startedAt.value
    ensures rec.createdAt.None? && rec.startedAt.None? ==> k == ""
  {
    if rec.createdAt.Some? then rec.createdAt.value
    else if rec.startedAt.Some? then rec.startedAt.value
    else ""
  }

  /** The sort key of one pair. */
  function ItemKey(x: Item): (k: string)
    ensures k == SortKey(x.1)
  {
    SortKey(x.1)
  }

  /** The `(task_id, task)` pairs in the registry's iteration order. */
  function Items(ids: seq<string>, records: map<string, Record>): (items: seq<Item>)
    requires forall id :: id in ids ==> id in records
    ensures |items| == |ids|
    ensures forall i :: 0 <= i < |ids| ==> items[i] == (ids[i], records[ids[i]])
  {
    seq(|ids|, i requires 0 <= i < |ids| => (ids[i], records[ids[i]]))
  }

  /** `task.get("status") == status`. */
  function HasStatus(status: string): (test: Item -> bool)
    ensures forall x :: test(x) <==> x.1.status == status
  {
    (x: Item) => x.1.status == status
  }

  /** Python's truth value of the optional `status` query parameter. */
  predicate StatusTruthy(status: Option<string>)
  {
    status.Some? && status.value != ""
  }

  /** The pairs `list_tasks` returns, before they are turned into summaries. */
  function Selected(ids: seq<string>, records: map<string, Record>, status: Option<string>, limit: nat): (r: seq<Item>)
    requires forall id :: id in ids ==> id in records
    ensures |r| <= limit
  {
    var sorted := Listing.SortDesc(Kept(ids, records, status), ItemKey);
    sorted[..if limit < |sorted| then limit else |sorted|]
  }

  /** The summary `list_tasks` gives of one pair. */
  datatype Summary = Summary(taskId: string, status: string, createdAt: Option<string>, completedAt: Option<string>, url: Target)

  /** `task.get("url") or task.get("urls")`: an empty URL falls through to the (missing) URL list. */
  function ShownTarget(t: Target): (shown: Target)
    ensures t.OneUrl? && t.url != "" ==> shown == t
    ensures t.UrlList? ==> shown == t
    ensures t.NoTarget? || (t.OneUrl? && t.url == "") ==> shown.NoTarget?
  {
    if t.OneUrl? && t.url == "" then NoTarget else t
  }

  function Summarize(x: Item): (s: Summary)
    ensures s.taskId == x.0 && s.status == x.1.status
  {
    Summary(x.0, x.1.status, x.1.createdAt, x.1.completedAt, ShownTarget(x.1.target))
  }

  /** The reply of `list_tasks`. */
  datatype TaskList = TaskList(total: nat, filtered: nat, tasks: seq<Summary>)

  /** The pairs `list_tasks` keeps before sorting. */
  function Kept(ids: seq<string>, records: map<string, Record>, status: Option<string>): (kept: seq<Item>)
    requires forall id :: id in ids ==> id in records
    ensures multiset(kept) <= multiset(Items(ids, records))
    ensures StatusTruthy(status) ==> forall x :: x in kept ==> x.1.status == status.value
  {
    if StatusTruthy(status) then Listing.Keep(Items(ids, records), HasStatus(status.value)) else Items(ids, records)
  }

  /** Every selected pair is one the sort was given. */
  lemma SelectedKept(ids: seq<string>, records: map<string, Record>, status: Option<string>, limit: nat, x: Item)
    requires forall id :: id in ids ==> id in records
    requires x in Selected(ids, records, status, limit)
    ensures x in Kept(ids, records, status)
  {
    var sorted := Listing.SortDesc(Kept(ids, records, status), ItemKey);
    var n := if limit < |sorted| then limit else |sorted|;
    assert x in sorted[..n];
    assert x in multiset(sorted);
  }

  /** The listing is in descending order of `created_at`, else `started_at`. */
  lemma SelectedSorted(ids: seq<string>, records: map<string, Record>, status: Option<string>, limit: nat)
    requires forall id :: id in ids ==> id in records
    ensures Listing.SortedDesc(Selected(ids, records, status, limit), ItemKey)
  {
    var sorted := Listing.SortDesc(Kept(ids, records, status), ItemKey);
    Listing.SortDescSorted(Kept(ids, records, status), ItemKey);
    Listing.PrefixSorted(sorted, ItemKey, if limit < |sorted| then limit else |sorted|);
  }

  /** Every listed pair is a registered task with its current record. */
  lemma SelectedFromRegistry(ids: seq<string>, records: map<string, Record>, status: Option<string>, limit: nat)
    requires forall id :: id in ids ==> id in records
    ensures forall x :: x in Selected(ids, records, status, limit) ==> x.0 in records && x.1 == records[x.0]
  {
    forall x | x in Selected(ids, records, status, limit) ensures x.0 in records && x.1 == records[x.0] {
      SelectedKept(ids, records, status, limit, x);
      var all := Items(ids, records);
      assert x in multiset(all);
      var i :| 0 <= i < |all| && all[i] == x;
    }
  }

  /** With a status filter, every listed task has that status. */
  lemma SelectedHaveStatus(ids: seq<string>, records: map<string, Record>, status: Option<string>, limit: nat)
    requires forall id :: id in ids ==> id in records
    requires StatusTruthy(status)
    ensures forall x :: x in Selected(ids, records, status, limit) ==> x.1.status == status.value
  {
    forall x | x in Selected(ids, records, status, limit) ensures x.1.status == status.value {
      SelectedKept(ids, records, status, limit, x);
    }
  }

  /** Every registered task with the requested status is a candidate for the listing. */
  lemma MatchingTaskListed(ids: seq<string>, records: map<string, Record>, status: Option<string>, limit: nat, id: string)
    requires forall id :: id in ids ==> id in records
    requires id in ids && StatusTruthy(status) && records[id].status == status.value
    requires |ids| <= limit
    ensures (id, records[id]) in Selected(ids, records, status, limit)
  {
    KeptContains(ids, records, status, id);
    KeptAllSelected(ids, records, status, limit, (id, records[id]));
  }

  /** A task whose status matches passes the filter. */
  lemma KeptContains(ids: seq<string>, records: map<string, Record>, status: Option<string>, id: string)
    requires forall id :: id in ids ==> id in records
    requires id in ids && StatusTruthy(status) && records[id].status == status.value
    ensures (id, records[id]) in Kept(ids, records, status)
  {
    var all := Items(ids, records);
    var i :| 0 <= i < |ids| && ids[i] == id;
    assert all[i] == (id, records[id]);
    Listing.KeepComplete(all, HasStatus(status.value), (id, records[id]));
  }

  /** With no more than `limit` tasks, nothing that passes the filter is cut off. */
  lemma KeptAllSelected(ids: seq<string>, records: map<string, Record>, status: Option<string>, limit: nat, x: Item)
    requires forall id :: id in ids ==> id in records
    requires |ids| <= limit && x in Kept(ids, records, status)
    ensures x in Selected(ids, records, status, limit)
  {
    var sorted := Listing.SortDesc(Kept(ids, records, status), ItemKey);
    assert x in multiset(sorted);
    assert sorted[..|sorted|] == sorted;
  }

  /** Without a status filter and with no more than `limit` tasks, every pair is listed, each once. */
  lemma SelectedAllWhenFew(ids: seq<string>, records: map<string, Record>, status: Option<string>, limit: nat)
    requires forall id :: id in ids ==> id in records
    requires !StatusTruthy(status) && |ids| <= limit
    ensures multiset(Selected(ids, records, status, limit)) == multiset(Items(ids, records))
  {
    var sorted := Listing.SortDesc(Items(ids, records), ItemKey);
    assert sorted[..|sorted|] == sorted;
  }

  /**
   * Tasks with the same sort key are listed in registration order, with or
   * without a status filter: the listing's tasks with key `k` are the first
   * of the registered tasks with key `k` that pass the filter, and all of
   * them when no more than `limit` tasks are registered.
   */
  lemma ListingStable(ids: seq<string>, records: map<string, Record>, status: Option<string>, limit: nat, k: string)
    requires forall id :: id in ids ==> id in records
    ensures StatusTruthy(status) ==>
      Listing.WithKey(Kept(ids, records, status), ItemKey, k) == Listing.Keep(Listing.WithKey(Items(ids, records), ItemKey, k), HasStatus(status.value))
    ensures !StatusTruthy(status) ==>
      Listing.WithKey(Kept(ids, records, status), ItemKey, k) == Listing.WithKey(Items(ids, records), ItemKey, k)
    ensures Listing.WithKey(Selected(ids, records, status, limit), ItemKey, k) <= Listing.WithKey(Kept(ids, records, status), ItemKey, k)
    ensures |ids| <= limit ==> Listing.WithKey(Selected(ids, records, status, limit), ItemKey, k) == Listing.WithKey(Kept(ids, records, status), ItemKey, k)
  {
    var kept := Kept(ids, records, status);
    var sorted := Listing.SortDesc(kept, ItemKey);
    var n := if limit < |sorted| then limit else |sorted|;
    if StatusTruthy(status) {
      Listing.WithKeyOfKeep(Items(ids, records), HasStatus(status.value), ItemKey, k);
    }
    Listing.SortDescStable(kept, ItemKey, k);
    Listing.WithKeyPrefix(sorted, ItemKey, k, n);
    assert sorted[..|sorted|] == sorted;
  }

  // ---------------------------------------------------------------------------
  // download_file

  /** The directory files are served from. */
  const DownloadRoot: string := "./download"

  /** `os.path.join("./download", date, folder, filename)`. */
  function FilePath(date: string, folder: string, filename: string): string
  {
    Paths.Join(Paths.Join(Paths.Join(DownloadRoot, date), folder), filename)
  }

  /** The outcome of `download_file`: 404, 403, or the file. */
  datatype FileReply = NotFound | AccessDenied | FileResponse(path: string, filename: string)

  /**
   * `download_file` as written: 404 for a missing file first, then 403 unless
   * the absolute path string starts with the absolute root string.
   */
  function DownloadFileAsWritten(cwd: seq<string>, present: string -> bool, date: string, folder: string, filename: string): (r: FileReply)
    requires Paths.Normalized(cwd)
    ensures r.NotFound? <==> !present(FilePath(date, folder, filename))
    ensures r.AccessDenied? <==>
      present(FilePath(date, folder, filename))
      && !StartsWith(Paths.Abspath(cwd, FilePath(date, folder, filename)), Paths.Abspath(cwd, DownloadRoot))
    ensures r.FileResponse? ==> r == FileResponse(FilePath(date, folder, filename), filename)
  {
    var path := FilePath(date, folder, filename);
    if !present(path) then NotFound
    else if !StartsWith(Paths.Abspath(cwd, path), Paths.Abspath(cwd, DownloadRoot)) then AccessDenied
    else FileResponse(path, filename)
  }

  /** The check as evidently intended: the absolute path is the root or lies below it, segment by segment. */
  function DownloadFile(cwd: seq<string>, present: string -> bool, date: string, folder: string, filename: string): (r: FileReply)
    requires Paths.Normalized(cwd)
    ensures r.NotFound? <==> !present(FilePath(date, folder, filename))
    ensures r.AccessDenied? <==>
      present(FilePath(date, folder, filename))
      && !Paths.UnderRoot(Paths.Abspath(cwd, FilePath(date, folder, filename)), Paths.Abspath(cwd, DownloadRoot))
    ensures r.FileResponse? ==> r == FileResponse(FilePath(date, folder, filename), filename)
  {
    var path := FilePath(date, folder, filename);
    if !present(path) then NotFound
    else if !Paths.UnderRoot(Paths.Abspath(cwd, path), Paths.Abspath(cwd, DownloadRoot)) then AccessDenied
    else FileResponse(path, filename)
  }

  /** The path names `abspath` resolves a path to. */
  function ResolvedNames(cwd: seq<string>, p: string): (names: seq<string>)
    requires Paths.Normalized(cwd)
    ensures Paths.Normalized(names)
    ensures Paths.Abspath(cwd, p) == Paths.Render(names)
  {
    Paths.Resolve(if StartsWith(p, "/") then [] else cwd, Paths.Split(p))
  }

  /** Splitting the join of some '/'-free segments. */
  lemma SplitLiteral(p: string, segs: seq<string>)
    requires |segs| >= 1 && Paths.SlashFree(segs) && Paths.JoinSegs(segs) == p
    ensures Paths.Split(p) == segs
  {
    Paths.SplitJoin(segs);
  }

  /** The root resolves to the working directory followed by "download". */
  lemma RootNames(cwd: seq<string>)
    requires Paths.Normalized(cwd)
    ensures ResolvedNames(cwd, DownloadRoot) == cwd + ["download"]
  {
    assert !StartsWith(DownloadRoot, "/");
    assert Paths.JoinSegs([".", "download"]) == "." + "/" + "download";
    SplitLiteral(DownloadRoot, [".", "download"]);
  }

  /** The corrected check serves a file only when its resolved path lies inside the root directory. */
  lemma DownloadFileContained(cwd: seq<string>, present: string -> bool, date: string, folder: string, filename: string)
    requires Paths.Normalized(cwd)
    requires DownloadFile(cwd, present, date, folder, filename).FileResponse?
    ensures cwd + ["download"] <= ResolvedNames(cwd, FilePath(date, folder, filename))
  {
    RootNames(cwd);
    Paths.UnderRootIffPrefix(cwd + ["download"], ResolvedNames(cwd, FilePath(date, folder, filename)));
  }

  /** A directory next to the root whose name begins with "download", such as "download2". */
  predicate SiblingOfRoot(sibling: string)
  {
    Paths.IsName(sibling) && StartsWith(sibling, "download") && sibling != "download"
  }

  /**
   * As written, `..` can step out of the root into any sibling directory whose
   * name begins with "download": its absolute path string still starts with
   * the root's. The corrected check refuses every such file.
   */
  lemma SiblingServedAsWritten(cwd: seq<string>, present: string -> bool, sibling: string, filename: string)
    requires Paths.Normalized(cwd) && SiblingOfRoot(sibling) && Paths.IsName(filename)
    requires present(FilePath("..", sibling, filename))
    ensures DownloadFileAsWritten(cwd, present, "..", sibling, filename).FileResponse?
    ensures DownloadFile(cwd, present, "..", sibling, filename) == AccessDenied
  {
    var path := FilePath("..", sibling, filename);
    SiblingSplit(sibling, filename);
    SiblingResolves(cwd, sibling, filename);
    assert ResolvedNames(cwd, path) == cwd + [sibling, filename];
    RootNames(cwd);
    SiblingRendered(cwd, sibling, filename);
  }

  /** The instance with working directory "/srv": "./download/../download2/a.mp4" is served. */
  lemma SiblingDirectoryServed(present: string -> bool)
    requires present(FilePath("..", "download2", "a.mp4"))
    ensures DownloadFileAsWritten(["srv"], present, "..", "download2", "a.mp4").FileResponse?
    ensures DownloadFile(["srv"], present, "..", "download2", "a.mp4") == AccessDenied
  {
    assert "download2" == "download" + "2";
    assert Paths.Normalized(["srv"]) by {
      assert Paths.IsName("srv");
    }
    SiblingServedAsWritten(["srv"], present, "download2", "a.mp4");
  }

  /** The path of a file in a sibling directory, as text. */
  lemma SiblingPathText(sibling: string, filename: string)
    requires Paths.IsName(sibling) && Paths.IsName(filename)
    ensures FilePath("..", sibling, filename) == "./download/.." + "/" + sibling + "/" + filename
  {
    var up := "./download/..";
    assert Paths.Join(DownloadRoot, "..") == up;
    Paths.JoinRelative(up, sibling);
    var dir := up + "/" + sibling;
    assert dir[|dir| - 1] == sibling[|sibling| - 1];
    Paths.JoinRelative(dir, filename);
  }

  /** The segments of a sibling path, joined back. */
  lemma SiblingJoinSegs(sibling: string, filename: string)
    ensures Paths.JoinSegs([".", "download", "..", sibling, filename]) == "./download/.." + "/" + sibling + "/" + filename
  {
    var s3 := [sibling, filename];
    var s2 := [".."] + s3;
    var s1 := ["download"] + s2;
    var s0 := ["."] + s1;
    assert s0 == [".", "download", "..", sibling, filename];
    assert s3[1..] == [filename] && s2[1..] == s3 && s1[1..] == s2 && s0[1..] == s1;
    assert Paths.JoinSegs(s3) == sibling + "/" + filename;
    assert Paths.JoinSegs(s2) == ".." + "/" + Paths.JoinSegs(s3);
    assert Paths.JoinSegs(s1) == "download" + "/" + Paths.JoinSegs(s2);
    assert Paths.JoinSegs(s0) == "." + "/" + Paths.JoinSegs(s1);
    assert "./download/.." == "." + "/" + "download" + "/" + "..";
  }

  /** The segments of the path of a file in a sibling directory. */
  lemma SiblingSplit(sibling: string, filename: string)
    requires Paths.IsName(sibling) && Paths.IsName(filename)
    ensures !StartsWith(FilePath("..", sibling, filename), "/")
    ensures Paths.Split(FilePath("..", sibling, filename)) == [".", "download", "..", sibling, filename]
  {
    var segs := [".", "download", "..", sibling, filename];
    assert Paths.SlashFree(segs) by {
      assert '/' !in "." && '/' !in "download" && '/' !in "..";
    }
    Paths.SplitJoin(segs);
    SiblingJoinSegs(sibling, filename);
    SiblingPathText(sibling, filename);
  }

  /** ".." cancels "download", leaving the sibling directory. */
  lemma SiblingResolves(cwd: seq<string>, sibling: string, filename: string)
    requires Paths.Normalized(cwd) && Paths.IsName(sibling) && Paths.IsName(filename)
    ensures Paths.Resolve(cwd, [".", "download", "..", sibling, filename]) == cwd + [sibling, filename]
  {
    var segs := [".", "download", "..", sibling, filename];
    var inside := cwd + ["download"];
    assert Paths.IsName("download");
    assert inside[..|inside| - 1] == cwd;
    assert Paths.Resolve(cwd, segs) == Paths.Resolve(cwd, segs[1..]);
    assert Paths.Resolve(cwd, segs[1..]) == Paths.Resolve(inside, segs[2..]);
    assert Paths.Resolve(inside, segs[2..]) == Paths.Resolve(cwd, segs[3..]);
    assert Paths.Resolve(cwd, segs[3..]) == Paths.Resolve(cwd + [sibling], segs[4..]);
    assert Paths.Resolve(cwd + [sibling], segs[4..]) == Paths.Resolve(cwd + [sibling] + [filename], []);
    assert cwd + [sibling] + [filename] == cwd + [sibling, filename];
  }

  /** The sibling's rendered path starts with the root's but does not lie below it. */
  lemma SiblingRendered(cwd: seq<string>, sibling: string, filename: string)
    requires Paths.Normalized(cwd) && SiblingOfRoot(sibling) && Paths.IsName(filename)
    ensures StartsWith(Paths.Render(cwd + [sibling, filename]), Paths.Render(cwd + ["download"]))
    ensures !Paths.UnderRoot(Paths.Render(cwd + [sibling, filename]), Paths.Render(cwd + ["download"]))
  {
    SiblingNotBelow(cwd, sibling, filename);
    SiblingSharesPrefix(cwd, sibling, filename);
  }

  /** The root's names are not a prefix of the sibling's, so the file is not below the root. */
  lemma SiblingNotBelow(cwd: seq<string>, sibling: string, filename: string)
    requires Paths.Normalized(cwd) && SiblingOfRoot(sibling) && Paths.IsName(filename)
    ensures !Paths.UnderRoot(Paths.Render(cwd + [sibling, filename]), Paths.Render(cwd + ["download"]))
  {
    var names := cwd + [sibling, filename];
    var root := cwd + ["download"];
    assert Paths.Normalized(names) && Paths.Normalized(root) by {
      assert Paths.IsName("download");
    }
    assert names[|cwd|] == sibling && root[|cwd|] == "download";
    Paths.UnderRootIffPrefix(root, names);
  }

  /** The sibling's path text extends the root's: "download" begins its name. */
  lemma SiblingSharesPrefix(cwd: seq<string>, sibling: string, filename: string)
    requires SiblingOfRoot(sibling)
    ensures StartsWith(Paths.Render(cwd + [sibling, filename]), Paths.Render(cwd + ["download"]))
  {
    var head := Paths.Flatten(cwd);
    var u := Paths.Flatten(["download"]);
    var tail := sibling[8..] + Paths.Flatten([filename]);
    assert Paths.Render(cwd + [sibling, filename]) == (head + u) + tail by {
      SiblingTail(sibling, filename);
      Paths.FlattenAppend(cwd, [sibling, filename]);
    }
    assert Paths.Render(cwd + ["download"]) == head + u by {
      Paths.FlattenAppend(cwd, ["download"]);
    }
    PrefixOfAppend(head + u, tail);
  }

  /** A string starts with any of its prefixes. */
  lemma PrefixOfAppend(a: string, b: string)
    ensures StartsWith(a + b, a)
  {
    assert (a + b)[..|a|] == a;
  }

  /** The names after the working directory, rendered: the sibling's extends the root's. */
  lemma SiblingTail(sibling: string, filename: string)
    requires SiblingOfRoot(sibling)
    ensures Paths.Flatten([sibling, filename]) == Paths.Flatten(["download"]) + (sibling[8..] + Paths.Flatten([filename]))
  {
    assert sibling == "download" + sibling[8..];
    assert [sibling, filename][1..] == [filename];
    assert Paths.Flatten(["download"]) == "/" + "download" + Paths.Flatten([]);
  }

  // ---------------------------------------------------------------------------
  // The registry

  /** The global `task_results` dictionary. */
  class Registry {
    /** The keys in insertion order. */
    var ids: seq<string>
    var records: map<string, Record>

    ghost predicate Valid()
      reads this
    {
      Distinct(ids) && (forall id :: id in ids <==> id in records)
    }

    constructor ()
      ensures Valid() && ids == [] && records == map[]
    {
      ids := [];
      records := map[];
    }

    /** `task_results[id] = rec`: a new key is appended to the order, an existing one keeps its place. */
    method Put(id: string, rec: Record)
      requires Valid()
      modifies this
      ensures Valid()
      ensures records == old(records)[id := rec]
      ensures ids == if id in old(records) then old(ids) else old(ids) + [id]
    {
      if id !in records {
        ids := ids + [id];
      }
      records := records[id := rec];
    }

    /**
     * `download_single`: store a pending record, then spawn the workflow; if
     * spawning raises, the record becomes "failed" with the error and a 500 is raised.
     */
    method DownloadSingle(id: string, url: string, createdAt: string, spawn: Result<string>) returns (r: Reply<TaskResponse>)
      requires Valid()
      modifies this
      ensures Valid()
      ensures ids == if id in old(records) then old(ids) else old(ids) + [id]
      ensures spawn.Ok? ==>
        r == Success(TaskResponse(id, "pending", "Download task created for " + url, spawn.value))
        && records == old(records)[id := Pending(OneUrl(url), createdAt)]
      ensures spawn.Err? ==>
        r == HttpException(500, "Failed to create task: " + spawn.error)
        && records == old(records)[id := Pending(OneUrl(url), createdAt).(status := "failed", error := Text(spawn.error))]
    {
      Put(id, Pending(OneUrl(url), createdAt));
      if spawn.Err? {
        Put(id, records[id].(status := "failed", error := Text(spawn.error)));
        return HttpException(500, "Failed to create task: " + spawn.error);
      }
      return Success(TaskResponse(id, "pending", "Download task created for " + url, spawn.value));
    }

    /** `download_batch`: as `download_single`, for a list of URLs. */
    method DownloadBatch(id: string, urls: seq<string>, createdAt: string, spawn: Result<string>) returns (r: Reply<TaskResponse>)
      requires Valid()
      modifies this
      ensures Valid()
      ensures ids == if id in old(records) then old(ids) else old(ids) + [id]
      ensures spawn.Ok? ==>
        r == Success(TaskResponse(id, "pending", "Batch download task created for " + NatToString(|urls|) + " URLs", spawn.value))
        && records == old(records)[id := Pending(UrlList(urls), createdAt)]
      ensures spawn.Err? ==>
        r == HttpException(500, "Failed to create batch task: " + spawn.error)
        && records == old(records)[id := Pending(UrlList(urls), createdAt).(status := "failed", error := Text(spawn.error))]
    {
      Put(id, Pending(UrlList(urls), createdAt));
      if spawn.Err? {
        Put(id, records[id].(status := "failed", error := Text(spawn.error)));
        return HttpException(500, "Failed to create batch task: " + spawn.error);
      }
      return Success(TaskResponse(id, "pending", "Batch download task created for " + NatToString(|urls|) + " URLs", spawn.value));
    }

    /** `get_task_status`: the stored record iff the id is present, otherwise 404; nothing changes. */
    method GetTaskStatus(id: string) returns (r: Reply<Record>)
      ensures r.Success? <==> id in records
      ensures r.Success? ==> r.value == records[id]
      ensures r.HttpException? ==> r.statusCode == 404 && r.detail == "Task not found"
    {
      if id !in records {
        return HttpException(404, "Task not found");
      }
      return Success(records[id]);
    }

    /** `delete_task`: remove exactly that id, or 404 when it is absent, so a second delete gives 404. */
    method DeleteTask(id: string) returns (r: Reply<string>)
      requires Valid()
      modifies this
      ensures Valid()
      ensures id !in records
      ensures r.Success? <==> id in old(records)
      ensures r.Success? ==> r.value == "Task " + id + " deleted"
      ensures r.HttpException? ==> r.statusCode == 404 && r.detail == "Task not found" && records == old(records)
      ensures records == old(records) - {id}
      ensures ids == Without(old(ids), id)
    {
      if id !in records {
        return HttpException(404, "Task not found");
      }
      WithoutDistinct(ids, id);
      ids := Without(ids, id);
      records := records - {id};
      return Success("Task " + id + " deleted");
    }

    /** `list_tasks(status, limit)`; the query parameter admits only limits from 1 to 100. */
    method ListTasks(status: Option<string>, limit: int) returns (r: TaskList)
      requires Valid() && 1 <= limit <= 100
      ensures r.total == |records| && r.filtered == |r.tasks| <= limit
      ensures r.tasks == Summaries(Selected(ids, records, status, limit))
    {
      CountKeys(ids, records);
      var tasks := Items(ids, records);
      if StatusTruthy(status) {
        tasks := Listing.Keep(tasks, HasStatus(status.value));
      }
      tasks := Listing.SortDesc(tasks, ItemKey);
      if limit < |tasks| {
        tasks := tasks[..limit];
      }
      assert tasks == Selected(ids, records, status, limit);
      return TaskList(|records|, |tasks|, Summaries(tasks));
    }

    /** The single-download step: the whole entry is replaced, then updated from the downloader's outcome. */
    method SingleStep(id: string, url: string, startedAt: string, outcome: Result<SD.DownloadResult>, completedAt: string)
      returns (ret: StepReturn)
      requires Valid()
      modifies this
      ensures Valid()
      ensures ids == if id in old(records) then old(ids) else old(ids) + [id]
      ensures records == old(records)[id := SingleStepRecord(url, startedAt, outcome, completedAt)]
      ensures ret.taskId == id && ret.success == (outcome.Ok? && outcome.value.success)
    {
      var rec := Processing(OneUrl(url), startedAt);
      match outcome {
        case Ok(result) =>
          rec := rec.(status := if result.success then "completed" else "failed");
          rec := rec.(payload := SingleOutcome(result), completedAt := Some(completedAt));
          if !result.success {
            rec := rec.(error := if result.error.Some? then Text(result.error.value) else Null);
          }
          ret := StepReturn(id, result.success, result.error);
        case Err(message) =>
          rec := rec.(status := "failed", error := Text(message), completedAt := Some(completedAt));
          ret := StepReturn(id, false, Some(message));
      }
      Put(id, rec);
    }

    /** The batch step: "completed" whenever `download_from_urls` returns, "failed" when it raises. */
    method BatchStep(id: string, urls: seq<string>, startedAt: string, outcome: Result<BatchDownload.Results>, completedAt: string)
      returns (ret: StepReturn)
      requires Valid()
      modifies this
      ensures Valid()
      ensures ids == if id in old(records) then old(ids) else old(ids) + [id]
      ensures records == old(records)[id := BatchStepRecord(urls, startedAt, outcome, completedAt)]
      ensures ret.taskId == id && ret.success == outcome.Ok?
    {
      var rec := Processing(UrlList(urls), startedAt);
      match outcome {
        case Ok(result) =>
          rec := rec.(status := "completed", payload := BatchOutcome(result), completedAt := Some(completedAt));
          ret := StepReturn(id, true, None);
        case Err(message) =>
          rec := rec.(status := "failed", error := Text(message), completedAt := Some(completedAt));
          ret := StepReturn(id, false, Some(message));
      }
      Put(id, rec);
    }

    /** The info step: the entry is replaced by a completed or a failed record. */
    method InfoStep(id: string, outcome: Result<Option<InfoDict>>, completedAt: string) returns (ret: StepReturn)
      requires Valid()
      modifies this
      ensures Valid()
      ensures ids == if id in old(records) then old(ids) else old(ids) + [id]
      ensures records == old(records)[id := InfoStepRecord(outcome, completedAt)]
      ensures ret.taskId == id && ret.success == (InfoStepRecord(outcome, completedAt).status == "completed")
    {
      match outcome {
        case Ok(info) =>
          if info.Some? && info.value != [] {
            Put(id, Record("completed", NoTarget, None, None, Some(completedAt), Absent, InfoOutcome(info.value)));
            return StepReturn(id, true, None);
          }
          Put(id, Record("failed", NoTarget, None, None, Some(completedAt), Text(NoInfo), NoPayload));
          return StepReturn(id, false, Some(NoInfo));
        case Err(message) =>
          Put(id, Record("failed", NoTarget, None, None, Some(completedAt), Text(message), NoPayload));
          return StepReturn(id, false, Some(message));
      }
    }
  }

  /** The ids without `id`, in order. */
  function Without(ids: seq<string>, id: string): (r: seq<string>)
    ensures forall x :: x in r <==> x in ids && x != id
    ensures id !in ids ==> r == ids
  {
    if ids == [] then []
    else
      assert ids == [ids[0]] + ids[1..];
      (if ids[0] == id then [] else [ids[0]]) + Without(ids[1..], id)
  }

  /** No id occurs twice. */
  predicate Distinct(ids: seq<string>)
  {
    forall i, j :: 0 <= i < j < |ids| ==> ids[i] != ids[j]
  }

  /** Removing an id keeps the others distinct. */
  lemma {:induction false} WithoutDistinct(ids: seq<string>, id: string)
    requires Distinct(ids)
    ensures Distinct(Without(ids, id))
  {
    if ids != [] {
      assert Distinct(ids[1..]) by {
        forall i, j | 0 <= i < j < |ids[1..]| ensures ids[1..][i] != ids[1..][j] {
          assert ids[1..][i] == ids[i + 1] && ids[1..][j] == ids[j + 1];
        }
      }
      WithoutDistinct(ids[1..], id);
      var rest := Without(ids[1..], id);
      if ids[0] != id {
        assert ids[0] !in ids[1..] by {
          forall k | 0 <= k < |ids[1..]| ensures ids[1..][k] != ids[0] {
            assert ids[1..][k] == ids[k + 1];
          }
        }
        assert ids[0] !in rest;
        var r := [ids[0]] + rest;
        forall i, j | 0 <= i < j < |r| ensures r[i] != r[j] {
          assert r[j] == rest[j - 1];
          if i > 0 {
            assert r[i] == rest[i - 1];
          }
        }
      }
    }
  }

  /** The summaries of the selected pairs, in order. */
  function Summaries(items: seq<Item>): (r: seq<Summary>)
    ensures |r| == |items|
    ensures forall i :: 0 <= i < |items| ==> r[i] == Summarize(items[i])
  {
    seq(|items|, i requires 0 <= i < |items| => Summarize(items[i]))
  }

  /** Distinct ids make a set of the same size. */
  lemma {:induction false} DistinctCard(ids: seq<string>)
    requires Distinct(ids)
    ensures |(set x | x in ids)| == |ids|
  {
    if ids != [] {
      var init := ids[..|ids| - 1];
      var last := ids[|ids| - 1];
      assert Distinct(init) by {
        forall i, j | 0 <= i < j < |init| ensures init[i] != init[j] {
          assert init[i] == ids[i] && init[j] == ids[j];
        }
      }
      DistinctCard(init);
      assert ids == init + [last];
      assert (set x | x in ids) == (set x | x in init) + {last};
      assert last !in (set x | x in init) by {
        forall k | 0 <= k < |init| ensures init[k] != last {
          assert init[k] == ids[k];
        }
      }
    }
  }

  /** A registry holds as many records as it has ids. */
  lemma CountKeys(ids: seq<string>, records: map<string, Record>)
    requires Distinct(ids)
    requires forall id :: id in ids <==> id in records
    ensures |records| == |ids|
  {
    DistinctCard(ids);
    assert records.Keys == set x | x in ids;
  }
}

/** The job orchestration of the Flask web layer in app.py: accepting a
    single URL or a batch of URLs, the in-memory job records and the state
    machine the background worker drives them through, the expansion of
    detected clips into render tasks and the progress they report, the
    lookups behind the status, download and thumbnail endpoints, the upload
    extension filter and the duration the edit endpoint records. Threads,
    uuid4, the clock and the file system are replaced by explicit inputs. */
module App {
  import opened Common
  import CG = ClipGenerator
  import Lib = ClipLibrary

  // ---------------------------------------------------------------------
  // Job records
  // ---------------------------------------------------------------------

  /** A job id; uuid4 is modelled as a counter that never repeats. */
  type JobId = nat

  /** The text form of a job id, as the library stores it. */
  function JobKey(id: JobId): string {
    NatToString(id)
  }

  datatype Status = Queued | Processing | Completed | Error

  /** The job's 'message' field; constructors carry the values the
      f-strings interpolate. Failed(e) is "Error: {e}". */
  datatype Message =
    | StartingDownload
    | WaitingInQueue
    | Downloading
    | ExtractingTranscript
    | Analyzing
    | FoundClips(count: nat)
    | CreatingClip(current: nat, total: nat, title: Json, format: string)
    | CreatedClips(count: nat)
    | Failed(error: string)

  const DownloadError: string := "Failed to download video"
  const NoClipsError: string := "No engaging clips found"

  /** One rendered output as the worker records it (file size and measured
      duration are not modelled). */
  datatype FileInfo = FileInfo(
    filename: string, path: string, format: string, title: Json,
    reason: Json, thumbnail: Option<string>, engagementScore: Json)

  /** The in-memory job record; formats is whatever the request carried. */
  datatype Job = Job(
    status: Status, progress: nat, message: Message, url: string, formats: Json,
    outputFiles: seq<FileInfo>, error: Option<string>, batchId: Option<JobId>)

  /** What an endpoint answers. ServerError is the 500 reply carrying the
      text of an exception. */
  datatype Response =
    | Started(jobId: JobId)
    | BatchStarted(batchId: Option<JobId>, jobIds: seq<JobId>, count: nat)
    | StatusOf(status: Status, progress: nat, message: Message, outputFiles: seq<FileInfo>, error: Option<string>)
    | SendFile(path: string, attachment: bool)
    | Failure(code: nat, reason: string)
    | ServerError

  // ---------------------------------------------------------------------
  // Submission (process_video, process_batch)
  // ---------------------------------------------------------------------

  const DefaultFormats: Json := JArr([JStr("tiktok"), JStr("youtube_shorts")])

  /** url.startswith('http://') or url.startswith('https://') */
  predicate ValidUrl(url: string) {
    StartsWith(url, "http://") || StartsWith(url, "https://")
  }

  /** The fields process_video reads from the request body. */
  datatype Submission = Submission(url: string, urls: Json, formats: Json)

  /** data.get('url', '').strip(), data.get('urls', []) and
      data.get('formats', [...]); None when reading them raises: the body
      is not a dict, or its url is not a str. */
  function ReadSubmission(data: Json): (r: Option<Submission>)
    ensures r.Some? <==> data.JObj? && ("url" in data.fields ==> data.fields["url"].JStr?)
    ensures r.Some? && "url" !in data.fields ==> r.value.url == []
    ensures r.Some? && "urls" !in data.fields ==> r.value.urls == JArr([])
    ensures r.Some? && "formats" !in data.fields ==> r.value.formats == DefaultFormats
  {
    if !data.JObj? then None
    else
      var m := data.fields;
      var url := if "url" in m then m["url"] else JStr([]);
      if !url.JStr? then None
      else Some(Submission(
        Strip(url.s),
        if "urls" in m then m["urls"] else JArr([]),
        if "formats" in m then m["formats"] else DefaultFormats))
  }

  /** `urls and isinstance(urls, list)`: a non-empty list. */
  predicate IsBatch(urls: Json) {
    urls.JArr? && urls.items != []
  }

  /** How many leading batch items are strings; the next one, if any, makes
      url.startswith raise. */
  function StringPrefix(items: seq<Json>): (r: nat)
    ensures r <= |items|
    ensures forall j :: 0 <= j < r ==> items[j].JStr?
    ensures r < |items| ==> !items[r].JStr?
  {
    if items == [] || !items[0].JStr? then 0 else 1 + StringPrefix(items[1..])
  }

  /** The string items that are http(s) URLs, in order. */
  function AcceptedUrls(items: seq<Json>): (r: seq<string>)
    requires forall j :: 0 <= j < |items| ==> items[j].JStr?
  {
    if items == [] then []
    else
      var last := items[|items| - 1].s;
      AcceptedUrls(items[..|items| - 1]) + (if ValidUrl(last) then [last] else [])
  }

  /** Every accepted URL is an http(s) item of the batch, and there are at
      most as many as items. */
  lemma {:induction false} AcceptedUrlsSound(items: seq<Json>)
    requires forall j :: 0 <= j < |items| ==> items[j].JStr?
    ensures |AcceptedUrls(items)| <= |items|
    ensures forall u :: u in AcceptedUrls(items) ==> ValidUrl(u) && JStr(u) in items
  {
    if items != [] {
      var init := items[..|items| - 1];
      AcceptedUrlsSound(init);
      assert items == init + [items[|items| - 1]];
    }
  }

  /** Every http(s) item of the batch is accepted. */
  lemma {:induction false} AcceptedUrlsComplete(items: seq<Json>)
    requires forall j :: 0 <= j < |items| ==> items[j].JStr?
    ensures forall j :: 0 <= j < |items| && ValidUrl(items[j].s) ==> items[j].s in AcceptedUrls(items)
  {
    if items != [] {
      var init := items[..|items| - 1];
      AcceptedUrlsComplete(init);
      assert forall j :: 0 <= j < |init| ==> init[j] == items[j];
    }
  }

  /** A batch made only of http(s) URLs is accepted whole and in order. */
  lemma {:induction false} AcceptedUrlsAll(items: seq<Json>)
    requires forall j :: 0 <= j < |items| ==> items[j].JStr? && ValidUrl(items[j].s)
    ensures AcceptedUrls(items) == seq(|items|, j requires 0 <= j < |items| => items[j].s)
  {
    if items != [] {
      var init := items[..|items| - 1];
      AcceptedUrlsAll(init);
      assert forall j :: 0 <= j < |init| ==> init[j] == items[j];
    }
  }

  /** The record of a job that has just been created. */
  function NewJob(status: Status, message: Message, url: string, formats: Json, batchId: Option<JobId>): Job {
    Job(status, 0, message, url, formats, [], None, batchId)
  }

  /** The jobs a batch creates: consecutive ids from first, all carrying
      the first id as their batch id. */
  function BatchJobs(first: JobId, urls: seq<string>, formats: Json): map<JobId, Job> {
    if urls == [] then map[]
    else BatchJobs(first, urls[..|urls| - 1], formats)[first + |urls| - 1 :=
           NewJob(Queued, WaitingInQueue, urls[|urls| - 1], formats, Some(first))]
  }

  /** Accepting one more item appends it when it is an http(s) URL. */
  lemma AcceptedStep(items: seq<Json>, i: nat)
    requires i < |items| && forall j :: 0 <= j <= i ==> items[j].JStr?
    ensures AcceptedUrls(items[..i + 1])
      == AcceptedUrls(items[..i]) + (if ValidUrl(items[i].s) then [items[i].s] else [])
  {
    assert items[..i + 1][..i] == items[..i];
  }

  /** One more accepted URL adds one job under the next id. */
  lemma BatchJobsStep(first: JobId, urls: seq<string>, url: string, formats: Json)
    ensures BatchJobs(first, urls + [url], formats)
      == BatchJobs(first, urls, formats)[first + |urls| := NewJob(Queued, WaitingInQueue, url, formats, Some(first))]
  {
    var longer := urls + [url];
    assert longer[..|longer| - 1] == urls && longer[|longer| - 1] == url;
  }

  /** The string prefix ends at the first non-string item. */
  lemma StringPrefixAt(items: seq<Json>, i: nat)
    requires i <= |items| && forall j :: 0 <= j < i ==> items[j].JStr?
    requires i < |items| ==> !items[i].JStr?
    ensures StringPrefix(items) == i
  {
  }

  /** The ids a batch hands out, in order. */
  function BatchIds(first: JobId, n: nat): (r: seq<JobId>)
    ensures |r| == n && forall k :: 0 <= k < n ==> r[k] == first + k
  {
    seq(n, k requires 0 <= k < n => first + k)
  }

  /** One more job of the batch takes the next id. */
  lemma BatchIdsStep(first: JobId, n: nat)
    ensures BatchIds(first, n + 1) == BatchIds(first, n) + [first + n]
  {
  }

  // ---------------------------------------------------------------------
  // Render tasks (process_video_background, lines 153-179)
  // ---------------------------------------------------------------------

  /** The concatenation of a sequence of blocks. */
  function Flatten<T>(blocks: seq<seq<T>>): seq<T> {
    if blocks == [] then [] else Flatten(blocks[..|blocks| - 1]) + blocks[|blocks| - 1]
  }

  lemma MulStep(a: nat, w: nat)
    ensures (a + 1) * w == a * w + w
  {
  }

  lemma MulMonotone(a: nat, b: nat, w: nat)
    requires a <= b
    ensures a * w <= b * w
  {
  }

  /** Blocks of width w flatten to |blocks| * w elements. */
  lemma {:induction false} FlattenLength<T>(blocks: seq<seq<T>>, w: nat)
    requires forall i :: 0 <= i < |blocks| ==> |blocks[i]| == w
    ensures |Flatten(blocks)| == |blocks| * w
  {
    if blocks != [] {
      FlattenLength(blocks[..|blocks| - 1], w);
      MulStep(|blocks| - 1, w);
    }
  }

  /** Element j of block i sits at i * w + j. */
  lemma {:induction false} FlattenSlot<T>(blocks: seq<seq<T>>, w: nat, i: nat, j: nat)
    requires forall k :: 0 <= k < |blocks| ==> |blocks[k]| == w
    requires i < |blocks| && j < w
    ensures i * w + j < |Flatten(blocks)| && Flatten(blocks)[i * w + j] == blocks[i][j]
  {
    var init := blocks[..|blocks| - 1];
    FlattenLength(init, w);
    FlattenLength(blocks, w);
    if i < |blocks| - 1 {
      FlattenSlot(init, w, i, j);
      MulStep(i, w);
      MulMonotone(i + 1, |blocks| - 1, w);
    }
  }

  /** One entry of clip_tasks. */
  datatype Task = Task(
    index: nat, videoPath: string, start: Json, end: Json, outputPath: string,
    format: string, title: Json, filename: string, clip: CG.ClipInfo)

  /** The clip's own title, or "Clip n" with n counted from one. */
  function ClipTitle(clip: CG.ClipInfo, i: nat): Json {
    Lib.Get(clip, "title", JStr("Clip " + NatToString(i + 1)))
  }

  /** The task for clip i (the given clip) in formats[j]. */
  function TaskAt(videoPath: string, stem: string, clip: CG.ClipInfo, i: nat, formats: seq<string>, j: nat): Task
    requires CG.HasTimes(clip) && j < |formats|
  {
    var filename := CG.OutputFilename(stem, i, formats[j]);
    Task(i * |formats| + j, videoPath, clip["start_time"], clip["end_time"], CG.OutputPath(filename),
         formats[j], ClipTitle(clip, i), filename, clip)
  }

  /** The tasks of clip i, one per format in order. */
  function ClipTasks(videoPath: string, stem: string, clip: CG.ClipInfo, i: nat, formats: seq<string>): seq<Task>
    requires CG.HasTimes(clip)
  {
    seq(|formats|, j requires 0 <= j < |formats| => TaskAt(videoPath, stem, clip, i, formats, j))
  }

  /** The task blocks of the first n clips. */
  function Blocks(videoPath: string, stem: string, clips: seq<CG.ClipInfo>, formats: seq<string>, n: nat): seq<seq<Task>>
    requires n <= |clips| && forall k :: 0 <= k < |clips| ==> CG.HasTimes(clips[k])
  {
    seq(n, i requires 0 <= i < n => ClipTasks(videoPath, stem, clips[i], i, formats))
  }

  /** The tasks of the first n clips, clip-major. */
  function Tasks(videoPath: string, stem: string, clips: seq<CG.ClipInfo>, formats: seq<string>, n: nat): seq<Task>
    requires n <= |clips| && forall k :: 0 <= k < |clips| ==> CG.HasTimes(clips[k])
  {
    Flatten(Blocks(videoPath, stem, clips, formats, n))
  }

  /** The blocks of n + 1 clips are those of n and clip n's. */
  lemma BlocksStep(videoPath: string, stem: string, clips: seq<CG.ClipInfo>, formats: seq<string>, n: nat)
    requires n < |clips| && forall k :: 0 <= k < |clips| ==> CG.HasTimes(clips[k])
    ensures Tasks(videoPath, stem, clips, formats, n + 1)
      == Tasks(videoPath, stem, clips, formats, n) + ClipTasks(videoPath, stem, clips[n], n, formats)
  {
    var next := Blocks(videoPath, stem, clips, formats, n + 1);
    assert next[..n] == Blocks(videoPath, stem, clips, formats, n);
  }

  /** n clips give n * |formats| tasks. */
  lemma TasksLength(videoPath: string, stem: string, clips: seq<CG.ClipInfo>, formats: seq<string>, n: nat)
    requires n <= |clips| && forall k :: 0 <= k < |clips| ==> CG.HasTimes(clips[k])
    ensures |Tasks(videoPath, stem, clips, formats, n)| == n * |formats|
  {
    FlattenLength(Blocks(videoPath, stem, clips, formats, n), |formats|);
  }

  /** The last task is the last clip in the last format. */
  lemma LastTask(videoPath: string, stem: string, clips: seq<CG.ClipInfo>, formats: seq<string>)
    requires clips != [] && formats != [] && forall k :: 0 <= k < |clips| ==> CG.HasTimes(clips[k])
    ensures var tasks := Tasks(videoPath, stem, clips, formats, |clips|);
      |tasks| == |clips| * |formats|
      && tasks[|tasks| - 1].title == ClipTitle(clips[|clips| - 1], |clips| - 1)
      && tasks[|tasks| - 1].format == formats[|formats| - 1]
  {
    TasksLength(videoPath, stem, clips, formats, |clips|);
    TaskSlot(videoPath, stem, clips, formats, |clips|, |clips| - 1, |formats| - 1);
    assert (|clips| - 1) * |formats| + (|formats| - 1) == |clips| * |formats| - 1;
  }

  /** Clip i in formats[j] sits at position i * |formats| + j. */
  lemma TaskSlot(videoPath: string, stem: string, clips: seq<CG.ClipInfo>, formats: seq<string>, n: nat, i: nat, j: nat)
    requires n <= |clips| && forall k :: 0 <= k < |clips| ==> CG.HasTimes(clips[k])
    requires i < n && j < |formats|
    ensures i * |formats| + j < |Tasks(videoPath, stem, clips, formats, n)|
    ensures Tasks(videoPath, stem, clips, formats, n)[i * |formats| + j] == TaskAt(videoPath, stem, clips[i], i, formats, j)
  {
    var blocks := Blocks(videoPath, stem, clips, formats, n);
    FlattenSlot(blocks, |formats|, i, j);
    assert blocks[i][j] == TaskAt(videoPath, stem, clips[i], i, formats, j);
  }

  /** Each task's index is its position in clip_tasks. */
  lemma {:induction false} TasksIndex(videoPath: string, stem: string, clips: seq<CG.ClipInfo>, formats: seq<string>, n: nat)
    requires n <= |clips| && forall k :: 0 <= k < |clips| ==> CG.HasTimes(clips[k])
    ensures forall k :: 0 <= k < |Tasks(videoPath, stem, clips, formats, n)| ==> Tasks(videoPath, stem, clips, formats, n)[k].index == k
  {
    if n > 0 {
      var prev := Tasks(videoPath, stem, clips, formats, n - 1);
      var last := ClipTasks(videoPath, stem, clips[n - 1], n - 1, formats);
      var all := Tasks(videoPath, stem, clips, formats, n);
      TasksIndex(videoPath, stem, clips, formats, n - 1);
      TasksLength(videoPath, stem, clips, formats, n - 1);
      BlocksStep(videoPath, stem, clips, formats, n - 1);
      forall k | 0 <= k < |all|
        ensures all[k].index == k
      {
        if k >= |prev| {
          assert all[k] == last[k - |prev|];
        }
      }
    }
  }

  /** The k-th started task (1 <= k <= total) sets progress to
      50 + int(k / total * 40). */
  function Progress(k: nat, total: nat): nat
    requires 1 <= k <= total
  {
    50 + (40 * k) / total
  }

  /** Progress stays within 50..90 and reaches 90 with the last task. */
  lemma ProgressRange(k: nat, total: nat)
    requires 1 <= k <= total
    ensures 50 <= Progress(k, total) <= 90
    ensures k == total ==> Progress(k, total) == 90
  {
    assert 40 * k <= 40 * total;
    DivMonotone(40 * k, 40 * total, total);
    assert (40 * total) / total == 40;
  }

  /** Integer division by a positive number keeps order. */
  lemma DivMonotone(a: nat, b: nat, d: nat)
    requires a <= b && d > 0
    ensures a / d <= b / d
  {
    var qa, qb := a / d, b / d;
    assert qa * d <= a && b < qb * d + d;
    assert qb * d + d == (qb + 1) * d;
  }

  /** Later tasks never report less progress. */
  lemma ProgressMonotone(k1: nat, k2: nat, total: nat)
    requires 1 <= k1 <= k2 <= total
    ensures Progress(k1, total) <= Progress(k2, total)
  {
    DivMonotone(40 * k1, 40 * k2, total);
  }

  // ---------------------------------------------------------------------
  // Render outcomes (process_single_clip)
  // ---------------------------------------------------------------------

  /** create_clip(self, video_path, start_time, end_time, output_path,
      format_type="tiktok") takes four or five positional arguments;
      any other count raises TypeError, which process_single_clip catches
      and reports as a failed task. */
  predicate CreateClipAccepts(args: nat) {
    4 <= args <= 5
  }

  /** The call at app.py:195-196 passes the clip title as a sixth argument. */
  const AsWrittenArgs: nat := 6
  /** The call with the title left out. */
  const CorrectedArgs: nat := 5

  /** Whether task k yields an output: the call is accepted and the render
      succeeds. */
  predicate TaskSucceeds(args: nat, rendered: seq<bool>, k: nat) {
    CreateClipAccepts(args) && CG.RenderSucceeded(rendered, k)
  }

  /** output_dir / f"{Path(output_path).stem}.jpg" */
  function ThumbnailPath(outputPath: string): string {
    CG.OutputPath(CG.PathStem(outputPath) + ".jpg")
  }

  /** The file_info of a successful task; the thumbnail is recorded only
      when its file exists. */
  function InfoOf(task: Task, existing: set<string>): FileInfo {
    var thumb := ThumbnailPath(task.outputPath);
    FileInfo(task.filename, task.outputPath, task.format, task.title,
             Lib.Get(task.clip, "reason", JStr("Engaging moment")),
             if thumb in existing then Some(thumb) else None,
             Lib.Get(task.clip, "engagement_score", JNum(7.0)))
  }

  /** The output_files of the tasks processed in order. */
  function Outputs(tasks: seq<Task>, rendered: seq<bool>, args: nat, existing: set<string>): seq<FileInfo> {
    if tasks == [] then []
    else Outputs(tasks[..|tasks| - 1], rendered, args, existing)
         + (if TaskSucceeds(args, rendered, |tasks| - 1) then [InfoOf(tasks[|tasks| - 1], existing)] else [])
  }

  /** Running one more task appends its file record when it succeeds. */
  lemma OutputsStep(tasks: seq<Task>, k: nat, rendered: seq<bool>, args: nat, existing: set<string>)
    requires k < |tasks|
    ensures Outputs(tasks[..k + 1], rendered, args, existing)
      == Outputs(tasks[..k], rendered, args, existing)
         + (if TaskSucceeds(args, rendered, k) then [InfoOf(tasks[k], existing)] else [])
  {
    assert tasks[..k + 1][..k] == tasks[..k];
  }

  /** With the call as written no task ever produces an output. */
  lemma {:induction false} AsWrittenNoOutputs(tasks: seq<Task>, rendered: seq<bool>, existing: set<string>)
    ensures Outputs(tasks, rendered, AsWrittenArgs, existing) == []
  {
    if tasks != [] {
      AsWrittenNoOutputs(tasks[..|tasks| - 1], rendered, existing);
    }
  }

  /** With the corrected call there is at most one output per task, and
      each output is the record of a task whose render succeeded. */
  lemma {:induction false} OutputsSpec(tasks: seq<Task>, rendered: seq<bool>, existing: set<string>)
    ensures |Outputs(tasks, rendered, CorrectedArgs, existing)| <= |tasks|
    ensures forall x :: x in Outputs(tasks, rendered, CorrectedArgs, existing) ==>
      exists k :: 0 <= k < |tasks| && CG.RenderSucceeded(rendered, k) && x == InfoOf(tasks[k], existing)
  {
    if tasks != [] {
      var init := tasks[..|tasks| - 1];
      OutputsSpec(init, rendered, existing);
      forall x | x in Outputs(tasks, rendered, CorrectedArgs, existing)
        ensures exists k :: 0 <= k < |tasks| && CG.RenderSucceeded(rendered, k) && x == InfoOf(tasks[k], existing)
      {
        if x in Outputs(init, rendered, CorrectedArgs, existing) {
          var k :| 0 <= k < |init| && CG.RenderSucceeded(rendered, k) && x == InfoOf(init[k], existing);
          assert init[k] == tasks[k];
        }
      }
    }
  }

  /** When every render succeeds, every task yields its own record, in
      order. */
  lemma {:induction false} OutputsAllSucceed(tasks: seq<Task>, rendered: seq<bool>, existing: set<string>)
    requires forall k :: 0 <= k < |tasks| ==> CG.RenderSucceeded(rendered, k)
    ensures |Outputs(tasks, rendered, CorrectedArgs, existing)| == |tasks|
    ensures forall k :: 0 <= k < |tasks| ==> Outputs(tasks, rendered, CorrectedArgs, existing)[k] == InfoOf(tasks[k], existing)
  {
    if tasks != [] {
      var init := tasks[..|tasks| - 1];
      OutputsAllSucceed(init, rendered, existing);
      var outs := Outputs(tasks, rendered, CorrectedArgs, existing);
      var prev := Outputs(init, rendered, CorrectedArgs, existing);
      assert TaskSucceeds(CorrectedArgs, rendered, |tasks| - 1);
      assert outs == prev + [InfoOf(tasks[|tasks| - 1], existing)];
      forall k | 0 <= k < |tasks|
        ensures outs[k] == InfoOf(tasks[k], existing)
      {
        if k < |init| {
          assert outs[k] == prev[k] && init[k] == tasks[k];
        } else {
          assert outs[k] == InfoOf(tasks[|tasks| - 1], existing);
        }
      }
    }
  }

  // ---------------------------------------------------------------------
  // The worker (process_video_background)
  // ---------------------------------------------------------------------

  /** The version of the code a run executes: how many positional
      arguments the render call passes to create_clip, and which fence
      removal the detector applies to the chat reply. */
  datatype Code = Code(args: nat, fence: CG.Fence)

  /** The code as it stands: six arguments (app.py:195-196) and the fence
      removal of clip_generator.py:160-163. */
  const AsWritten: Code := Code(AsWrittenArgs, CG.FenceAsWritten)
  /** The code with both findings corrected. */
  const Corrected: Code := Code(CorrectedArgs, CG.FenceCorrected)

  /** What the worker's collaborators deliver. */
  datatype Env = Env(
    cfg: CG.Config,
    parsers: CG.Parsers,
    prepared: Option<string>,  // the file name yt-dlp prepared; None when the download raised
    subtitles: Option<string>, // the fetched subtitle text, if any
    duration: Option<real>,    // the video's duration; None when opening it raised
    reply: Option<string>,     // the chat completion's reply, if any
    rendered: seq<bool>,       // outcome of the render of task k
    existing: set<string>,     // thumbnail files present after rendering
    now: string,               // the timestamp the library records
    raised: string)            // str(e) of the exception the worker catches

  predicate ValidEnv(env: Env) {
    CG.ValidConfig(env.cfg) && (env.duration.Some? ==> env.duration.value >= 0.0)
  }

  /** The clips find_engaging_clips_ai returns for the downloaded video. */
  function Detected(env: Env, fence: CG.Fence): (clips: seq<CG.ClipInfo>)
    requires ValidEnv(env) && env.duration.Some?
    ensures forall k :: 0 <= k < |clips| ==> CG.HasTimes(clips[k])
  {
    var transcript := CG.VideoTranscript(env.subtitles);
    CG.DetectedClipsHaveTimes(fence, env.cfg, env.parsers, env.duration.value, transcript, env.reply);
    CG.FindEngagingClips(fence, env.cfg, env.parsers, env.duration.value, transcript, env.reply)
  }

  /** A run that gets past download, transcript and detection renders
      the clips: the video was fetched, its duration read, and the
      detector found at least one clip. */
  predicate Reaches(env: Env, fence: CG.Fence)
    requires ValidEnv(env)
  {
    CG.DownloadedPath(env.prepared).Some? && env.duration.Some? && Detected(env, fence) != []
  }

  /** The outputs of a run that reaches rendering. */
  function RunOutputs(formats: seq<string>, env: Env, code: Code): seq<FileInfo>
    requires ValidEnv(env) && Reaches(env, code.fence)
  {
    var videoPath := CG.DownloadedPath(env.prepared).value;
    var clips := Detected(env, code.fence);
    Outputs(Tasks(videoPath, CG.PathStem(videoPath), clips, formats, |clips|), env.rendered, code.args, env.existing)
  }

  /** An output whose clip record sqlite3 can bind: its title, reason and
      score, which come from the detector's dicts, are not a list or a
      dict. The other values the worker passes are strings or None. */
  predicate InfoBinds(info: FileInfo) {
    Lib.Bindable(info.title) && Lib.Bindable(info.reason) && Lib.Bindable(info.engagementScore)
  }

  /** How many outputs get their clip row saved before the first one whose
      save_clip raises. */
  function SavablePrefix(outs: seq<FileInfo>): (r: nat)
    ensures r <= |outs|
    ensures forall j :: 0 <= j < r ==> InfoBinds(outs[j])
    ensures r < |outs| ==> !InfoBinds(outs[r])
  {
    if outs == [] || !InfoBinds(outs[0]) then 0 else 1 + SavablePrefix(outs[1..])
  }

  /** The saved prefix ends at the first output that does not bind. */
  lemma SavablePrefixAt(outs: seq<FileInfo>, i: nat)
    requires i <= |outs| && forall j :: 0 <= j < i ==> InfoBinds(outs[j])
    requires i < |outs| ==> !InfoBinds(outs[i])
    ensures SavablePrefix(outs) == i
  {
  }

  /** The job as the worker marks it once its renders are done. */
  function CompletedJob(job: Job, outs: seq<FileInfo>): Job {
    job.(status := Completed, progress := 100, message := CreatedClips(|outs|), outputFiles := outs)
  }

  /** The final state of a job whose renders are done: completed, unless
      save_clip raised for one of the outputs, in which case the handler
      marks the job failed with the exception's text, at progress 100 and
      with its outputs kept. */
  function Finished(job: Job, outs: seq<FileInfo>, raised: string): Job {
    if SavablePrefix(outs) == |outs| then CompletedJob(job, outs)
    else CompletedJob(job, outs).(status := Error, error := Some(raised), message := Failed(raised))
  }

  /** The job record after the worker has run the given code. */
  function JobAfterRun(job: Job, formats: seq<string>, env: Env, code: Code): Job
    requires ValidEnv(env)
  {
    if CG.DownloadedPath(env.prepared).None? then
      job.(status := Error, progress := 10, message := Downloading, error := Some(DownloadError))
    else if env.duration.None? then
      job.(status := Error, progress := 40, message := Failed(env.raised), error := Some(env.raised))
    else if Detected(env, code.fence) == [] then
      job.(status := Error, progress := 40, message := Analyzing, error := Some(NoClipsError))
    else
      Finished(job, RunOutputs(formats, env, code), env.raised)
  }

  lemma RunDownloadFailed(job: Job, formats: seq<string>, env: Env, code: Code)
    requires ValidEnv(env) && CG.DownloadedPath(env.prepared).None?
    ensures JobAfterRun(job, formats, env, code)
      == job.(status := Error, progress := 10, message := Downloading, error := Some(DownloadError))
  {
  }

  lemma RunRaised(job: Job, formats: seq<string>, env: Env, code: Code)
    requires ValidEnv(env) && CG.DownloadedPath(env.prepared).Some? && env.duration.None?
    ensures JobAfterRun(job, formats, env, code)
      == job.(status := Error, progress := 40, message := Failed(env.raised), error := Some(env.raised))
  {
  }

  lemma RunFoundNothing(job: Job, formats: seq<string>, env: Env, code: Code)
    requires ValidEnv(env) && CG.DownloadedPath(env.prepared).Some? && env.duration.Some? && Detected(env, code.fence) == []
    ensures JobAfterRun(job, formats, env, code)
      == job.(status := Error, progress := 40, message := Analyzing, error := Some(NoClipsError))
  {
  }

  lemma RunRenders(job: Job, formats: seq<string>, env: Env, code: Code)
    requires ValidEnv(env) && Reaches(env, code.fence)
    ensures JobAfterRun(job, formats, env, code) == Finished(job, RunOutputs(formats, env, code), env.raised)
  {
  }

  /** The stages after the download set the job's progress and message
      themselves, so the ones reported before do not matter. */
  lemma RunIgnoresProgress(job: Job, progress: nat, message: Message, formats: seq<string>, env: Env, code: Code)
    requires ValidEnv(env) && CG.DownloadedPath(env.prepared).Some?
    ensures JobAfterRun(job.(progress := progress, message := message), formats, env, code)
      == JobAfterRun(job, formats, env, code)
  {
    var moved := job.(progress := progress, message := message);
    if env.duration.None? {
      RunRaised(job, formats, env, code);
      RunRaised(moved, formats, env, code);
    } else if Detected(env, code.fence) == [] {
      RunFoundNothing(job, formats, env, code);
      RunFoundNothing(moved, formats, env, code);
    } else {
      RunRenders(job, formats, env, code);
      RunRenders(moved, formats, env, code);
    }
  }

  /** Every run ends the job in 'completed' or 'error'. An error comes at
      progress 10 (download failed) or 40 (no clips, or opening the video
      raised) with the outputs untouched, or at 100 when saving a clip row
      raised; it always carries its text. A completed job is at 100 with
      "Successfully created n clips!". */
  lemma JobOutcome(job: Job, formats: seq<string>, env: Env, code: Code)
    requires ValidEnv(env)
    ensures var r := JobAfterRun(job, formats, env, code);
      && (r.status == Completed || r.status == Error)
      && (r.status == Error ==> r.error.Some? && (r.progress == 10 || r.progress == 40 || r.progress == 100))
      && (r.status == Error && r.progress != 100 ==> r.outputFiles == job.outputFiles)
      && (r.status == Error && r.progress == 100 ==>
            r.error == Some(env.raised) && r.message == Failed(env.raised) && SavablePrefix(r.outputFiles) < |r.outputFiles|)
      && (r.status == Completed ==>
            r.progress == 100 && r.message == CreatedClips(|r.outputFiles|) && SavablePrefix(r.outputFiles) == |r.outputFiles|)
      && (env.prepared.None? ==> r.status == Error && r.progress == 10 && r.error == Some(DownloadError))
      && r.url == job.url && r.formats == job.formats && r.batchId == job.batchId
  {
    if CG.DownloadedPath(env.prepared).Some? && env.duration.Some? && Detected(env, code.fence) != [] {
      RunRenders(job, formats, env, code);
    }
  }

  /** As written, a run that reaches rendering produces no output. */
  lemma AsWrittenRendersNothing(formats: seq<string>, env: Env)
    requires ValidEnv(env) && Reaches(env, AsWritten.fence)
    ensures RunOutputs(formats, env, AsWritten) == []
  {
    var videoPath := CG.DownloadedPath(env.prepared).value;
    var clips := Detected(env, AsWritten.fence);
    AsWrittenNoOutputs(Tasks(videoPath, CG.PathStem(videoPath), clips, formats, |clips|), env.rendered, env.existing);
  }

  /** As written, every run that reaches rendering completes with no
      output files and "Successfully created 0 clips!". */
  lemma AsWrittenCompletesEmpty(job: Job, formats: seq<string>, env: Env)
    requires ValidEnv(env) && Reaches(env, AsWritten.fence)
    ensures JobAfterRun(job, formats, env, AsWritten)
      == job.(status := Completed, progress := 100, message := CreatedClips(0), outputFiles := [])
  {
    AsWrittenRendersNothing(formats, env);
    RunRenders(job, formats, env, AsWritten);
  }

  /** With the corrected code, a run whose renders all succeed yields one
      output per detected clip and format, in clip-major order. */
  lemma CorrectedRendersAll(formats: seq<string>, env: Env)
    requires ValidEnv(env) && Reaches(env, Corrected.fence)
    requires |env.rendered| >= |Detected(env, Corrected.fence)| * |formats|
    requires forall k :: 0 <= k < |env.rendered| ==> env.rendered[k]
    ensures |RunOutputs(formats, env, Corrected)| == |Detected(env, Corrected.fence)| * |formats|
  {
    var videoPath := CG.DownloadedPath(env.prepared).value;
    var clips := Detected(env, Corrected.fence);
    var tasks := Tasks(videoPath, CG.PathStem(videoPath), clips, formats, |clips|);
    TasksLength(videoPath, CG.PathStem(videoPath), clips, formats, |clips|);
    assert forall k :: 0 <= k < |tasks| ==> CG.RenderSucceeded(env.rendered, k);
    OutputsAllSucceed(tasks, env.rendered, env.existing);
  }

  /** With the corrected code, a job that completes holds one output per
      clip and format when every render succeeds. */
  lemma CorrectedCompletesFull(job: Job, formats: seq<string>, env: Env)
    requires ValidEnv(env) && forall k :: 0 <= k < |env.rendered| ==> env.rendered[k]
    ensures var r := JobAfterRun(job, formats, env, Corrected);
      r.status == Completed && |env.rendered| >= |Detected(env, Corrected.fence)| * |formats| ==>
        |r.outputFiles| == |Detected(env, Corrected.fence)| * |formats|
  {
    if Reaches(env, Corrected.fence) && |env.rendered| >= |Detected(env, Corrected.fence)| * |formats| {
      CorrectedRendersAll(formats, env);
      RunRenders(job, formats, env, Corrected);
    }
  }

  /** The record save_job receives. */
  function JobRecord(id: JobId, url: string, status: string, formats: seq<string>, outputCount: nat): Lib.Record {
    map["job_id" := JStr(JobKey(id)), "video_url" := JStr(url), "status" := JStr(status),
        "formats" := FormatsJson(formats), "output_count" := JNum(outputCount as real)]
  }

  function FormatsJson(formats: seq<string>): Json {
    JArr(seq(|formats|, k requires 0 <= k < |formats| => JStr(formats[k])))
  }

  function ThumbnailJson(thumbnail: Option<string>): Json {
    if thumbnail.Some? then JStr(thumbnail.value) else JNull
  }

  /** The record save_clip receives for one output. */
  function ClipRecord(id: JobId, url: string, videoTitle: string, info: FileInfo): Lib.Record {
    map["job_id" := JStr(JobKey(id)), "video_url" := JStr(url), "video_title" := JStr(videoTitle),
        "filename" := JStr(info.filename), "path" := JStr(info.path),
        "thumbnail" := ThumbnailJson(info.thumbnail),
        "format" := JStr(info.format), "title" := info.title, "reason" := info.reason,
        "engagement_score" := info.engagementScore,
        "start_time" := JNull, "end_time" := JNull, "duration" := JNull, "tags" := JArr([])]
  }

  /** The clips-table row an output is stored as. */
  function ClipRowOf(id: JobId, url: string, videoTitle: string, info: FileInfo, now: string): Lib.ClipRow {
    Lib.ClipRow(JStr(JobKey(id)), JStr(url), JStr(videoTitle), JStr(info.filename), JStr(info.path),
                ThumbnailJson(info.thumbnail), JStr(info.format), info.title, info.reason, info.engagementScore,
                JNull, JNull, JNull, JArr([]), now, 0, 0)
  }

  /** save_clip stores the worker's record for an output as ClipRowOf,
      with the timing columns null and the tags an empty list, exactly when
      its title, reason and score bind; otherwise it raises. */
  lemma ClipRecordSaved(id: JobId, url: string, videoTitle: string, info: FileInfo, now: string)
    ensures Lib.NewClipRow(ClipRecord(id, url, videoTitle, info), now)
         == if InfoBinds(info) then Some(ClipRowOf(id, url, videoTitle, info, now)) else None
  {
    var r := ClipRecord(id, url, videoTitle, info);
    ClipRecordBindsIff(id, url, videoTitle, info);
    ClipRecordColumns(id, url, videoTitle, info);
  }

  /** The worker's record binds exactly when the detector's values do. */
  lemma ClipRecordBindsIff(id: JobId, url: string, videoTitle: string, info: FileInfo)
    ensures Lib.ClipRecordBinds(ClipRecord(id, url, videoTitle, info)) <==> InfoBinds(info)
  {
    var r := ClipRecord(id, url, videoTitle, info);
    ClipRecordColumns(id, url, videoTitle, info);
    assert Lib.BindsAt(r, "job_id") && Lib.BindsAt(r, "video_url") && Lib.BindsAt(r, "video_title");
    assert Lib.BindsAt(r, "filename") && Lib.BindsAt(r, "path") && Lib.BindsAt(r, "thumbnail") && Lib.BindsAt(r, "format");
    assert Lib.BindsAt(r, "start_time") && Lib.BindsAt(r, "end_time") && Lib.BindsAt(r, "duration");
    assert Lib.BindsAt(r, "title") <==> Lib.Bindable(info.title);
    assert Lib.BindsAt(r, "reason") <==> Lib.Bindable(info.reason);
    assert Lib.BindsAt(r, "engagement_score") <==> Lib.Bindable(info.engagementScore);
  }

  /** The columns save_clip reads from the worker's record. */
  lemma ClipRecordColumns(id: JobId, url: string, videoTitle: string, info: FileInfo)
    ensures var r := ClipRecord(id, url, videoTitle, info);
      && Lib.Present(r, "job_id") && Lib.Present(r, "video_url") && Lib.Present(r, "filename")
      && Lib.Present(r, "path") && Lib.Present(r, "format")
      && r["job_id"] == JStr(JobKey(id)) && r["video_url"] == JStr(url) && r["video_title"] == JStr(videoTitle)
      && r["filename"] == JStr(info.filename) && r["path"] == JStr(info.path)
      && r["thumbnail"] == ThumbnailJson(info.thumbnail) && r["format"] == JStr(info.format)
      && r["title"] == info.title && r["reason"] == info.reason && r["engagement_score"] == info.engagementScore
      && r["start_time"] == JNull && r["end_time"] == JNull && r["duration"] == JNull && r["tags"] == JArr([])
  {
    ClipRecordSource(id, url, videoTitle, info);
    ClipRecordOutput(id, url, videoTitle, info);
    ClipRecordDetector(id, url, videoTitle, info);
    ClipRecordTiming(id, url, videoTitle, info);
  }

  lemma ClipRecordSource(id: JobId, url: string, videoTitle: string, info: FileInfo)
    ensures var r := ClipRecord(id, url, videoTitle, info);
      && "job_id" in r && "video_url" in r && "video_title" in r
      && r["job_id"] == JStr(JobKey(id)) && r["video_url"] == JStr(url) && r["video_title"] == JStr(videoTitle)
  {
  }

  lemma ClipRecordOutput(id: JobId, url: string, videoTitle: string, info: FileInfo)
    ensures var r := ClipRecord(id, url, videoTitle, info);
      && "filename" in r && "path" in r && "thumbnail" in r && "format" in r
      && r["filename"] == JStr(info.filename) && r["path"] == JStr(info.path)
      && r["thumbnail"] == ThumbnailJson(info.thumbnail) && r["format"] == JStr(info.format)
  {
  }

  lemma ClipRecordDetector(id: JobId, url: string, videoTitle: string, info: FileInfo)
    ensures var r := ClipRecord(id, url, videoTitle, info);
      && "title" in r && "reason" in r && "engagement_score" in r
      && r["title"] == info.title && r["reason"] == info.reason && r["engagement_score"] == info.engagementScore
  {
  }

  lemma ClipRecordTiming(id: JobId, url: string, videoTitle: string, info: FileInfo)
    ensures var r := ClipRecord(id, url, videoTitle, info);
      && "start_time" in r && "end_time" in r && "duration" in r && "tags" in r
      && r["start_time"] == JNull && r["end_time"] == JNull && r["duration"] == JNull && r["tags"] == JArr([])
  {
  }

  /** The rows the worker saves, one per output, in order. */
  function ClipRows(id: JobId, url: string, videoTitle: string, outs: seq<FileInfo>, now: string): (r: seq<Lib.ClipRow>)
    ensures |r| == |outs|
  {
    if outs == [] then []
    else ClipRows(id, url, videoTitle, outs[..|outs| - 1], now) + [ClipRowOf(id, url, videoTitle, outs[|outs| - 1], now)]
  }

  /** Rows inserted after id last, numbered consecutively. */
  function SavedClips(last: nat, rows: seq<Lib.ClipRow>): map<int, Lib.ClipRow> {
    if rows == [] then map[]
    else SavedClips(last, rows[..|rows| - 1])[last + |rows| := rows[|rows| - 1]]
  }

  /** The jobs-table row a job record is stored as. */
  function JobRowOf(id: JobId, url: string, status: string, formats: seq<string>, outputCount: nat,
                    now: string, rowId: nat): Lib.JobRow {
    Lib.JobRow(rowId, JStr(url), JStr(status), FormatsJson(formats), JNum(outputCount as real), now,
               if status == "completed" then Some(now) else None)
  }

  /** save_job accepts every record the worker builds, keys it by the job
      id and stores it as JobRowOf, with completed_at set exactly for
      'completed'. */
  lemma JobRecordSaved(id: JobId, url: string, status: string, formats: seq<string>, outputCount: nat, now: string, rowId: nat)
    ensures "job_id" in JobRecord(id, url, status, formats, outputCount)
    ensures JobRecord(id, url, status, formats, outputCount)["job_id"] == JStr(JobKey(id))
    ensures Lib.NewJobRow(JobRecord(id, url, status, formats, outputCount), now, rowId)
         == Some(JobRowOf(id, url, status, formats, outputCount, now, rowId))
  {
  }

  /** save_job of the worker's job record. */
  method SaveJobRow(library: Lib.Library, id: JobId, url: string, status: string, formats: seq<string>,
                    outputCount: nat, now: string)
    requires library.Valid()
    modifies library
    ensures library.Valid()
    ensures library.jobs == old(library.jobs)[JStr(JobKey(id)) :=
      JobRowOf(id, url, status, formats, outputCount, now, old(library.lastJobRow) + 1)]
    ensures library.lastJobRow == old(library.lastJobRow) + 1
    ensures library.clips == old(library.clips) && library.lastClipId == old(library.lastClipId)
    ensures TablesOf(library) == SavedJob(old(TablesOf(library)), id, url, status, formats, outputCount, now)
  {
    var data := JobRecord(id, url, status, formats, outputCount);
    JobRecordSaved(id, url, status, formats, outputCount, now, library.lastJobRow + 1);
    var saved := library.SaveJob(data, now);
  }

  /** save_clip of the worker's record for one output: the row goes in
      under the next clip id when the record binds; otherwise save_clip
      raises and nothing changes. */
  method SaveClipRow(library: Lib.Library, id: JobId, url: string, videoTitle: string, info: FileInfo, now: string)
    returns (saved: bool)
    requires library.Valid()
    modifies library
    ensures library.Valid()
    ensures saved == InfoBinds(info)
    ensures saved ==> library.clips == old(library.clips)[old(library.lastClipId) + 1 := ClipRowOf(id, url, videoTitle, info, now)]
    ensures saved ==> library.lastClipId == old(library.lastClipId) + 1
    ensures !saved ==> library.clips == old(library.clips) && library.lastClipId == old(library.lastClipId)
    ensures library.jobs == old(library.jobs) && library.lastJobRow == old(library.lastJobRow)
  {
    var data := ClipRecord(id, url, videoTitle, info);
    ClipRecordSaved(id, url, videoTitle, info, now);
    var clipId := library.SaveClip(data, now);
    saved := clipId.Some?;
  }

  /** Updating a union updates its right operand. */
  lemma UnionUpdate<K, V>(left: map<K, V>, right: map<K, V>, key: K, value: V)
    ensures (left + right)[key := value] == left + right[key := value]
  {
  }

  /** One more output adds its row at the end. */
  lemma ClipRowsStep(id: JobId, url: string, videoTitle: string, outs: seq<FileInfo>, k: nat, now: string)
    requires k < |outs|
    ensures ClipRows(id, url, videoTitle, outs[..k + 1], now)
      == ClipRows(id, url, videoTitle, outs[..k], now) + [ClipRowOf(id, url, videoTitle, outs[k], now)]
  {
    assert outs[..k + 1][..k] == outs[..k];
  }

  /** Inserting the next row under the next id extends the saved rows. */
  lemma SavedClipsStep(base: map<int, Lib.ClipRow>, last: nat, rows: seq<Lib.ClipRow>, row: Lib.ClipRow)
    ensures (base + SavedClips(last, rows))[last + |rows| + 1 := row] == base + SavedClips(last, rows + [row])
  {
    assert (rows + [row])[..|rows|] == rows;
    UnionUpdate(base, SavedClips(last, rows), last + |rows| + 1, row);
  }

  lemma UpdateTwice<K, V>(m: map<K, V>, key: K, first: V, second: V)
    ensures m[key := first][key := second] == m[key := second]
  {
  }

  /** The library's tables and counters at one moment. */
  datatype Tables = Tables(jobs: map<Json, Lib.JobRow>, clips: map<int, Lib.ClipRow>, lastJobRow: nat, lastClipId: nat)

  function TablesOf(library: Lib.Library): Tables
    reads library
  {
    Tables(library.jobs, library.clips, library.lastJobRow, library.lastClipId)
  }

  /** The tables after save_job stored the worker's job record. */
  function SavedJob(t: Tables, id: JobId, url: string, status: string, formats: seq<string>,
                    outputCount: nat, now: string): Tables
  {
    t.(jobs := t.jobs[JStr(JobKey(id)) := JobRowOf(id, url, status, formats, outputCount, now, t.lastJobRow + 1)],
       lastJobRow := t.lastJobRow + 1)
  }

  /** The tables after one clip row per output was saved. */
  function SavedRows(t: Tables, id: JobId, url: string, videoTitle: string, outs: seq<FileInfo>, now: string): Tables {
    t.(clips := t.clips + SavedClips(t.lastClipId, ClipRows(id, url, videoTitle, outs, now)),
       lastClipId := t.lastClipId + |outs|)
  }

  /** The tables after the worker saved a job whose renders are done: the
      completed job row, the clip rows up to the first one save_clip
      refuses, and, when one was refused, the handler's failed job row with
      no outputs in place of the completed one. */
  function FinishedTables(t: Tables, id: JobId, url: string, formats: seq<string>, videoTitle: string,
                          outs: seq<FileInfo>, now: string): Tables
  {
    var k := SavablePrefix(outs);
    var saved := SavedRows(SavedJob(t, id, url, "completed", formats, |outs|, now), id, url, videoTitle, outs[..k], now);
    if k == |outs| then saved else SavedJob(saved, id, url, "error", formats, 0, now)
  }

  /** The tables after one worker run: nothing when the download failed
      or nothing was detected, a failed job when the video could not be
      opened, otherwise the job and its outputs as FinishedTables. */
  function TablesAfterRun(t: Tables, id: JobId, url: string, formats: seq<string>, env: Env, code: Code): Tables
    requires ValidEnv(env)
  {
    if CG.DownloadedPath(env.prepared).None? then t
    else if env.duration.None? then SavedJob(t, id, url, "error", formats, 0, env.now)
    else if Detected(env, code.fence) == [] then t
    else FinishedTables(t, id, url, formats, CG.PathStem(CG.DownloadedPath(env.prepared).value),
                        RunOutputs(formats, env, code), env.now)
  }

  /** The tables after a run whose video could not be opened. */
  lemma TablesRaised(t: Tables, id: JobId, url: string, formats: seq<string>, env: Env, code: Code)
    requires ValidEnv(env) && CG.DownloadedPath(env.prepared).Some? && env.duration.None?
    ensures TablesAfterRun(t, id, url, formats, env, code) == SavedJob(t, id, url, "error", formats, 0, env.now)
  {
  }

  /** The tables after a run that detected no clips. */
  lemma TablesFoundNothing(t: Tables, id: JobId, url: string, formats: seq<string>, env: Env, code: Code)
    requires ValidEnv(env) && CG.DownloadedPath(env.prepared).Some? && env.duration.Some? && Detected(env, code.fence) == []
    ensures TablesAfterRun(t, id, url, formats, env, code) == t
  {
  }

  /** The tables after a run that rendered. */
  lemma TablesRenders(t: Tables, id: JobId, url: string, formats: seq<string>, env: Env, code: Code)
    requires ValidEnv(env) && Reaches(env, code.fence)
    ensures TablesAfterRun(t, id, url, formats, env, code)
      == FinishedTables(t, id, url, formats, CG.PathStem(CG.DownloadedPath(env.prepared).value),
                        RunOutputs(formats, env, code), env.now)
  {
  }

  /** As written, a run that reaches rendering leaves the library with a
      'completed' job row counting 0 outputs and no new clip rows. */
  lemma AsWrittenTables(t: Tables, id: JobId, url: string, formats: seq<string>, env: Env)
    requires ValidEnv(env) && Reaches(env, AsWritten.fence)
    ensures TablesAfterRun(t, id, url, formats, env, AsWritten) == SavedJob(t, id, url, "completed", formats, 0, env.now)
  {
    AsWrittenRendersNothing(formats, env);
    FinishedNothing(t, id, url, formats, CG.PathStem(CG.DownloadedPath(env.prepared).value), env.now);
  }

  /** Finishing a job without outputs saves only its completed row. */
  lemma FinishedNothing(t: Tables, id: JobId, url: string, formats: seq<string>, videoTitle: string, now: string)
    ensures FinishedTables(t, id, url, formats, videoTitle, [], now) == SavedJob(t, id, url, "completed", formats, 0, now)
  {
    var done := SavedJob(t, id, url, "completed", formats, 0, now);
    var none: seq<FileInfo> := [];
    assert none[..0] == [];
    assert ClipRows(id, url, videoTitle, [], now) == [];
    assert SavedClips(done.lastClipId, []) == map[];
    assert done.clips + map[] == done.clips;
  }

  /** When save_clip refuses an output, the job row ends up 'error' with
      no completed_at and an output count of 0, and the clip rows before
      the refused one stay saved. */
  lemma SaveFailureTables(t: Tables, id: JobId, url: string, formats: seq<string>, videoTitle: string,
                          outs: seq<FileInfo>, now: string)
    requires SavablePrefix(outs) < |outs|
    ensures var r := FinishedTables(t, id, url, formats, videoTitle, outs, now);
      && r.jobs[JStr(JobKey(id))] == JobRowOf(id, url, "error", formats, 0, now, t.lastJobRow + 2)
      && r.jobs[JStr(JobKey(id))].completedAt.None?
      && r.lastClipId == t.lastClipId + SavablePrefix(outs)
      && r.clips == t.clips + SavedClips(t.lastClipId, ClipRows(id, url, videoTitle, outs[..SavablePrefix(outs)], now))
  {
  }

  /** Saving the job's outputs: the completed job row, then one clip row
      per output until save_clip raises; saved counts the rows stored. */
  method SaveCompleted(library: Lib.Library, id: JobId, url: string, formats: seq<string>,
                       videoTitle: string, outs: seq<FileInfo>, now: string) returns (saved: nat)
    requires library.Valid()
    modifies library
    ensures library.Valid()
    ensures saved == SavablePrefix(outs)
    ensures TablesOf(library) == SavedRows(SavedJob(old(TablesOf(library)), id, url, "completed", formats, |outs|, now),
                                           id, url, videoTitle, outs[..saved], now)
  {
    SaveJobRow(library, id, url, "completed", formats, |outs|, now);
    saved := SaveOutputRows(library, id, url, videoTitle, outs, now);
  }

  /** One clip row per output, under consecutive ids, stopping at the
      first output save_clip refuses; the jobs table stays as it is. */
  method SaveOutputRows(library: Lib.Library, id: JobId, url: string,
                        videoTitle: string, outs: seq<FileInfo>, now: string) returns (saved: nat)
    requires library.Valid()
    modifies library
    ensures library.Valid()
    ensures saved == SavablePrefix(outs)
    ensures TablesOf(library) == SavedRows(old(TablesOf(library)), id, url, videoTitle, outs[..saved], now)
  {
    ghost var start := TablesOf(library);
    var k := 0;
    assert ClipRows(id, url, videoTitle, outs[..0], now) == [];
    assert TablesOf(library) == SavedRows(start, id, url, videoTitle, outs[..0], now);
    while k < |outs|
      invariant 0 <= k <= |outs|
      invariant library.Valid()
      invariant forall j :: 0 <= j < k ==> InfoBinds(outs[j])
      invariant TablesOf(library) == SavedRows(start, id, url, videoTitle, outs[..k], now)
    {
      var ok := SaveNextRow(library, id, url, videoTitle, outs, k, now, start);
      if !ok {
        SavablePrefixAt(outs, k);
        return k;
      }
      k := k + 1;
    }
    SavablePrefixAt(outs, k);
    saved := k;
  }

  /** The clip row of output k goes in under the next id, after the rows
      of the outputs before it, unless save_clip refuses it. */
  method SaveNextRow(library: Lib.Library, id: JobId, url: string, videoTitle: string, outs: seq<FileInfo>, k: nat,
                     now: string, ghost start: Tables)
    returns (ok: bool)
    requires library.Valid() && k < |outs|
    requires TablesOf(library) == SavedRows(start, id, url, videoTitle, outs[..k], now)
    modifies library
    ensures library.Valid()
    ensures ok == InfoBinds(outs[k])
    ensures !ok ==> TablesOf(library) == old(TablesOf(library))
    ensures ok ==> TablesOf(library) == SavedRows(start, id, url, videoTitle, outs[..k + 1], now)
  {
    var row := ClipRowOf(id, url, videoTitle, outs[k], now);
    ok := SaveClipRow(library, id, url, videoTitle, outs[k], now);
    ClipRowsStep(id, url, videoTitle, outs, k, now);
    SavedClipsStep(start.clips, start.lastClipId, ClipRows(id, url, videoTitle, outs[..k], now), row);
  }

  // ---------------------------------------------------------------------
  // The job registry (the module-level jobs dict)
  // ---------------------------------------------------------------------

  class JobRegistry {
    var jobs: map<JobId, Job>
    /** Ids handed out so far. */
    var issued: nat

    ghost predicate Valid()
      reads this
    {
      forall id :: id in jobs ==> id < issued
    }

    constructor ()
      ensures Valid() && jobs == map[] && issued == 0
    {
      jobs := map[];
      issued := 0;
    }

    /** Records a new job under a fresh id. */
    method CreateJob(job: Job) returns (id: JobId)
      requires Valid()
      modifies this
      ensures Valid()
      ensures id == old(issued) && id !in old(jobs)
      ensures issued == old(issued) + 1 && jobs == old(jobs)[id := job]
    {
      id := issued;
      jobs := jobs[id := job];
      issued := issued + 1;
    }

    /** process_batch: one queued job per http(s) URL, in order, all
        tagged with the first job's id. A non-string item makes
        url.startswith raise, after the jobs for the items before it were
        created; the caller then answers 500. */
    method ProcessBatch(items: seq<Json>, formats: Json) returns (resp: Response)
      requires Valid()
      modifies this
      ensures Valid()
      ensures var accepted := AcceptedUrls(items[..StringPrefix(items)]);
        && issued == old(issued) + |accepted|
        && jobs == old(jobs) + BatchJobs(old(issued), accepted, formats)
        && (StringPrefix(items) < |items| ==> resp == ServerError)
        && (StringPrefix(items) == |items| ==>
              resp == BatchStarted(if accepted == [] then None else Some(old(issued)),
                                   BatchIds(old(issued), |accepted|), |accepted|))
    {
      var jobIds: seq<JobId> := [];
      ghost var accepted: seq<string> := [];
      var i := 0;
      while i < |items|
        invariant 0 <= i <= |items|
        invariant forall j :: 0 <= j < i ==> items[j].JStr?
        invariant Valid() && old(issued) <= issued
        invariant accepted == AcceptedUrls(items[..i])
        invariant issued == old(issued) + |accepted|
        invariant jobIds == BatchIds(old(issued), |accepted|)
        invariant jobs == old(jobs) + BatchJobs(old(issued), accepted, formats)
      {
        if !items[i].JStr? {
          StringPrefixAt(items, i);
          return ServerError;
        }
        AcceptedStep(items, i);
        jobIds, accepted := EnqueueIfValid(items[i].s, formats, jobIds, old(issued), old(jobs), accepted);
        i := i + 1;
      }
      StringPrefixAt(items, i);
      assert items[..|items|] == items;
      resp := BatchStarted(if jobIds == [] then None else Some(jobIds[0]), jobIds, |jobIds|);
    }

    /** One item of a batch: an http(s) URL gets a job, anything else is
        skipped. */
    method EnqueueIfValid(url: string, formats: Json, jobIds: seq<JobId>, ghost first: JobId,
                          ghost base: map<JobId, Job>, ghost accepted: seq<string>)
      returns (ids: seq<JobId>, ghost taken: seq<string>)
      requires Valid() && issued == first + |accepted| && jobIds == BatchIds(first, |accepted|)
      requires jobs == base + BatchJobs(first, accepted, formats)
      modifies this
      ensures Valid() && taken == accepted + (if ValidUrl(url) then [url] else [])
      ensures issued == first + |taken| && ids == BatchIds(first, |taken|)
      ensures jobs == base + BatchJobs(first, taken, formats)
    {
      ids, taken := jobIds, accepted;
      if ValidUrl(url) {
        var batchId := if jobIds == [] then issued else jobIds[0];
        var id := EnqueueBatchJob(url, formats, batchId, base, accepted);
        BatchIdsStep(first, |accepted|);
        ids := jobIds + [id];
        taken := accepted + [url];
      }
    }

    /** One job of a batch: queued, waiting, tagged with the batch id. */
    method EnqueueBatchJob(url: string, formats: Json, batchId: JobId,
                           ghost base: map<JobId, Job>, ghost accepted: seq<string>) returns (id: JobId)
      requires Valid() && batchId + |accepted| == issued
      requires jobs == base + BatchJobs(batchId, accepted, formats)
      modifies this
      ensures Valid() && issued == old(issued) + 1 && id == old(issued)
      ensures jobs == base + BatchJobs(batchId, accepted + [url], formats)
    {
      id := CreateJob(NewJob(Queued, WaitingInQueue, url, formats, Some(batchId)));
      BatchJobsStep(batchId, accepted, url, formats);
      UnionUpdate(base, BatchJobs(batchId, accepted, formats), id, NewJob(Queued, WaitingInQueue, url, formats, Some(batchId)));
    }

    /** process_video: a non-empty urls list goes to process_batch;
        otherwise a single http(s) URL gets a job in state 'processing',
        any other URL a 400 with no job, and no URL at all a 400. The
        worker thread it starts is the separate ProcessVideoBackground. */
    method ProcessVideo(data: Json) returns (resp: Response)
      requires Valid()
      modifies this
      ensures Valid()
      ensures ReadSubmission(data).None? ==> resp == ServerError && jobs == old(jobs) && issued == old(issued)
      ensures ReadSubmission(data).Some? && !IsBatch(ReadSubmission(data).value.urls) ==>
        var sub := ReadSubmission(data).value;
        && (sub.url == [] ==> resp == Failure(400, "URL or URLs array is required") && jobs == old(jobs) && issued == old(issued))
        && (sub.url != [] && !ValidUrl(sub.url) ==> resp == Failure(400, "Invalid URL format") && jobs == old(jobs) && issued == old(issued))
        && (ValidUrl(sub.url) ==>
              && resp == Started(old(issued)) && old(issued) !in old(jobs) && issued == old(issued) + 1
              && jobs == old(jobs)[old(issued) := NewJob(Processing, StartingDownload, sub.url, sub.formats, None)])
      ensures ReadSubmission(data).Some? && IsBatch(ReadSubmission(data).value.urls) ==>
        var sub := ReadSubmission(data).value;
        var accepted := AcceptedUrls(sub.urls.items[..StringPrefix(sub.urls.items)]);
        && issued == old(issued) + |accepted|
        && jobs == old(jobs) + BatchJobs(old(issued), accepted, sub.formats)
        && (StringPrefix(sub.urls.items) < |sub.urls.items| ==> resp == ServerError)
        && (StringPrefix(sub.urls.items) == |sub.urls.items| ==>
              resp == BatchStarted(if accepted == [] then None else Some(old(issued)),
                                   BatchIds(old(issued), |accepted|), |accepted|))
    {
      var sub := ReadSubmission(data);
      if sub.None? {
        return ServerError;
      }
      var url := sub.value.url;
      var urls := sub.value.urls;
      var formats := sub.value.formats;
      if IsBatch(urls) {
        resp := ProcessBatch(urls.items, formats);
      } else if url != [] {
        if !ValidUrl(url) {
          return Failure(400, "Invalid URL format");
        }
        var id := CreateJob(NewJob(Processing, StartingDownload, url, formats, None));
        resp := Started(id);
      } else {
        resp := Failure(400, "URL or URLs array is required");
      }
    }

    /** Sets the progress and message of a job. */
    method Report(id: JobId, progress: nat, message: Message)
      requires id in jobs
      modifies this
      ensures issued == old(issued)
      ensures jobs == old(jobs)[id := old(jobs)[id].(progress := progress, message := message)]
    {
      jobs := jobs[id := jobs[id].(progress := progress, message := message)];
    }

    /** Marks a job failed with the given error; progress and message stay. */
    method Fail(id: JobId, error: string)
      requires id in jobs
      modifies this
      ensures issued == old(issued)
      ensures jobs == old(jobs)[id := old(jobs)[id].(status := Error, error := Some(error))]
    {
      jobs := jobs[id := jobs[id].(status := Error, error := Some(error))];
    }

    /** The task expansion: every clip in every format, clip-major. */
    static method ExpandTasks(videoPath: string, stem: string, clips: seq<CG.ClipInfo>, formats: seq<string>)
      returns (tasks: seq<Task>)
      requires forall k :: 0 <= k < |clips| ==> CG.HasTimes(clips[k])
      ensures tasks == Tasks(videoPath, stem, clips, formats, |clips|)
    {
      tasks := [];
      var i := 0;
      while i < |clips|
        invariant 0 <= i <= |clips|
        invariant tasks == Tasks(videoPath, stem, clips, formats, i)
      {
        ghost var before := tasks;
        TasksLength(videoPath, stem, clips, formats, i);
        var j := 0;
        while j < |formats|
          invariant 0 <= j <= |formats|
          invariant tasks == before + ClipTasks(videoPath, stem, clips[i], i, formats)[..j]
        {
          var filename := CG.OutputFilename(stem, i, formats[j]);
          var title := ClipTitle(clips[i], i);
          ghost var block := ClipTasks(videoPath, stem, clips[i], i, formats);
          assert block[..j + 1] == block[..j] + [block[j]];
          tasks := tasks + [Task(|tasks|, videoPath, clips[i]["start_time"], clips[i]["end_time"],
                                 CG.OutputPath(filename), formats[j], title, filename, clips[i])];
          j := j + 1;
        }
        BlocksStep(videoPath, stem, clips, formats, i);
        i := i + 1;
      }
    }

    /** Runs the tasks in order: each reports its progress before its
        render, and each successful render appends its file record;
        create_clip is called with args positional arguments. */
    method RenderTasks(id: JobId, tasks: seq<Task>, rendered: seq<bool>, existing: set<string>, args: nat)
      returns (outs: seq<FileInfo>)
      requires id in jobs
      modifies this
      ensures issued == old(issued)
      ensures outs == Outputs(tasks, rendered, args, existing)
      ensures tasks == [] ==> jobs == old(jobs)
      ensures tasks != [] ==>
        var last := tasks[|tasks| - 1];
        jobs == old(jobs)[id := old(jobs)[id].(progress := 90, message := CreatingClip(|tasks|, |tasks|, last.title, last.format))]
    {
      outs := [];
      var total := |tasks|;
      var current := 0;
      while current < total
        invariant 0 <= current <= total
        invariant issued == old(issued)
        invariant outs == Outputs(tasks[..current], rendered, args, existing)
        invariant current == 0 ==> jobs == old(jobs)
        invariant current > 0 ==>
          jobs == old(jobs)[id := old(jobs)[id].(progress := Progress(current, total),
                                                 message := CreatingClip(current, total, tasks[current - 1].title, tasks[current - 1].format))]
      {
        var task := tasks[current];
        OutputsStep(tasks, current, rendered, args, existing);
        ghost var before := jobs;
        current := current + 1;
        Report(id, Progress(current, total), CreatingClip(current, total, task.title, task.format));
        UpdateTwice(old(jobs), id, before[id], jobs[id]);
        if CreateClipAccepts(args) && CG.RenderSucceeded(rendered, current - 1) {
          outs := outs + [InfoOf(task, existing)];
        }
      }
      assert tasks[..total] == tasks;
      if total > 0 {
        ProgressRange(total, total);
      }
    }

    /** The rendering steps of process_video_background, once clips were
        found: report the count, expand the tasks and render them. Only
        the job's progress and message change. */
    method RenderRun(id: JobId, formats: seq<string>, env: Env, code: Code) returns (outs: seq<FileInfo>)
      requires id in jobs && ValidEnv(env) && Reaches(env, code.fence)
      modifies this
      ensures outs == RunOutputs(formats, env, code)
      ensures issued == old(issued) && id in jobs
      ensures jobs == old(jobs)[id := jobs[id]]
      ensures jobs[id] == old(jobs)[id].(progress := jobs[id].progress, message := jobs[id].message)
      ensures var videoPath := CG.DownloadedPath(env.prepared).value;
        var clips := Detected(env, code.fence);
        var tasks := Tasks(videoPath, CG.PathStem(videoPath), clips, formats, |clips|);
        if tasks == [] then
          jobs[id].progress == 50 && jobs[id].message == FoundClips(|clips|)
        else
          jobs[id].progress == 90
          && jobs[id].message == CreatingClip(|tasks|, |tasks|, tasks[|tasks| - 1].title, tasks[|tasks| - 1].format)
    {
      var clips := Detected(env, code.fence);
      Report(id, 50, FoundClips(|clips|));
      ghost var found := jobs[id];
      var videoPath := CG.DownloadedPath(env.prepared).value;
      var videoName := CG.PathStem(videoPath);
      var tasks := ExpandTasks(videoPath, videoName, clips, formats);
      outs := RenderTasks(id, tasks, env.rendered, env.existing, code.args);
      UpdateTwice(old(jobs), id, found, jobs[id]);
    }

    /** The end of process_video_background once the renders are done:
        the job marked completed with its outputs, the job and one row per
        output saved to the library; when save_clip raises, the handler
        marks the job failed and saves a failed job in its place. */
    method Finish(id: JobId, url: string, formats: seq<string>, videoName: string, outs: seq<FileInfo>,
                  now: string, raised: string, library: Lib.Library)
      requires Valid() && library.Valid() && id in jobs
      modifies this, library
      ensures Valid() && library.Valid() && issued == old(issued)
      ensures jobs == old(jobs)[id := Finished(old(jobs)[id], outs, raised)]
      ensures TablesOf(library) == FinishedTables(old(TablesOf(library)), id, url, formats, videoName, outs, now)
    {
      ghost var job := jobs[id];
      jobs := jobs[id := CompletedJob(jobs[id], outs)];
      var saved := SaveCompleted(library, id, url, formats, videoName, outs, now);
      if saved < |outs| {
        jobs := jobs[id := jobs[id].(status := Error, error := Some(raised), message := Failed(raised))];
        UpdateTwice(old(jobs), id, CompletedJob(job, outs), Finished(job, outs, raised));
        SaveJobRow(library, id, url, "error", formats, 0, now);
      }
    }

    /** process_video_background after a successful download: the
        transcript, then detection and the renders below. */
    method AnalyzeVideo(id: JobId, url: string, formats: seq<string>, env: Env, code: Code, library: Lib.Library)
      requires Valid() && library.Valid() && id in jobs && ValidEnv(env) && CG.DownloadedPath(env.prepared).Some?
      modifies this, library
      ensures Valid() && library.Valid() && issued == old(issued)
      ensures jobs == old(jobs)[id := JobAfterRun(old(jobs)[id], formats, env, code)]
      ensures TablesOf(library) == TablesAfterRun(old(TablesOf(library)), id, url, formats, env, code)
    {
      ghost var job0 := jobs[id];
      Report(id, 30, ExtractingTranscript);
      var transcript: Option<string> := None;
      if env.subtitles.Some? {
        var text := CG.CleanTranscript(env.subtitles.value);
        transcript := Some(text);
      }
      Report(id, 40, Analyzing);
      ghost var job := job0.(progress := 40, message := Analyzing);
      assert jobs == old(jobs)[id := job];
      assert unchanged(library);
      DetectAndRender(id, url, formats, env, code, library, transcript);
      UpdateTwice(old(jobs), id, job, JobAfterRun(job, formats, env, code));
      RunIgnoresProgress(job0, 40, Analyzing, formats, env, code);
    }

    /** process_video_background once the transcript is known: an
        exception while opening the video marks the job failed with the
        exception's text and saves a failed job to the library; an empty
        detection marks it failed and saves nothing; otherwise the clips
        are rendered and saved. */
    method DetectAndRender(id: JobId, url: string, formats: seq<string>, env: Env, code: Code, library: Lib.Library,
                           transcript: Option<string>)
      requires Valid() && library.Valid() && id in jobs && ValidEnv(env) && CG.DownloadedPath(env.prepared).Some?
      requires transcript == CG.VideoTranscript(env.subtitles)
      requires jobs[id].progress == 40 && jobs[id].message == Analyzing
      modifies this, library
      ensures Valid() && library.Valid() && issued == old(issued)
      ensures jobs == old(jobs)[id := JobAfterRun(old(jobs)[id], formats, env, code)]
      ensures TablesOf(library) == TablesAfterRun(old(TablesOf(library)), id, url, formats, env, code)
    {
      ghost var job := jobs[id];
      ghost var t := TablesOf(library);
      var found := CG.FindEngagingClipsAi(code.fence, env.cfg, env.parsers, env.duration, transcript, env.reply);
      if found.None? {
        jobs := jobs[id := jobs[id].(status := Error, error := Some(env.raised), message := Failed(env.raised))];
        RunRaised(job, formats, env, code);
        TablesRaised(t, id, url, formats, env, code);
        SaveJobRow(library, id, url, "error", formats, 0, env.now);
        return;
      }
      var clips := found.value;
      assert clips == Detected(env, code.fence);
      if clips == [] {
        Fail(id, NoClipsError);
        RunFoundNothing(job, formats, env, code);
        TablesFoundNothing(t, id, url, formats, env, code);
        return;
      }
      RunRenders(job, formats, env, code);
      TablesRenders(t, id, url, formats, env, code);
      RenderAndSave(id, url, formats, env, code, library);
    }

    /** The renders of a run that found clips, then the job and its
        outputs saved. */
    method RenderAndSave(id: JobId, url: string, formats: seq<string>, env: Env, code: Code, library: Lib.Library)
      requires Valid() && library.Valid() && id in jobs && ValidEnv(env) && Reaches(env, code.fence)
      modifies this, library
      ensures Valid() && library.Valid() && issued == old(issued)
      ensures jobs == old(jobs)[id := Finished(old(jobs)[id], RunOutputs(formats, env, code), env.raised)]
      ensures TablesOf(library) == FinishedTables(old(TablesOf(library)), id, url, formats,
        CG.PathStem(CG.DownloadedPath(env.prepared).value), RunOutputs(formats, env, code), env.now)
    {
      ghost var job := jobs[id];
      var outs := RenderRun(id, formats, env, code);
      ghost var rendered := jobs[id];
      UpdateTwice(old(jobs), id, rendered, Finished(rendered, outs, env.raised));
      assert Finished(rendered, outs, env.raised) == Finished(job, outs, env.raised);
      assert unchanged(library);
      var videoPath := CG.DownloadedPath(env.prepared).value;
      Finish(id, url, formats, CG.PathStem(videoPath), outs, env.now, env.raised, library);
    }

    /** process_video_background: the download, then the stages above.
        A failed download marks the job failed and leaves the library
        alone. */
    method ProcessVideoBackground(id: JobId, url: string, formats: seq<string>, env: Env, code: Code, library: Lib.Library)
      requires Valid() && library.Valid() && id in jobs && ValidEnv(env)
      modifies this, library
      ensures Valid() && library.Valid() && issued == old(issued)
      ensures jobs == old(jobs)[id := JobAfterRun(old(jobs)[id], formats, env, code)]
      ensures TablesOf(library) == TablesAfterRun(old(TablesOf(library)), id, url, formats, env, code)
    {
      ghost var job0 := jobs[id];
      Report(id, 10, Downloading);
      ghost var job := job0.(progress := 10, message := Downloading);
      var videoPath := CG.DownloadedPath(env.prepared);
      if videoPath.None? {
        Fail(id, DownloadError);
        UpdateTwice(old(jobs), id, job, job.(status := Error, error := Some(DownloadError)));
        RunDownloadFailed(job0, formats, env, code);
        assert job.(status := Error, error := Some(DownloadError))
          == job0.(status := Error, progress := 10, message := Downloading, error := Some(DownloadError));
        return;
      }
      assert unchanged(library);
      AnalyzeVideo(id, url, formats, env, code, library);
      UpdateTwice(old(jobs), id, job, JobAfterRun(job, formats, env, code));
      RunIgnoresProgress(job0, 10, Downloading, formats, env, code);
    }

    /** get_status: 404 for an unknown job, otherwise its current record. */
    function StatusReply(id: JobId): (r: Response)
      reads this
      ensures r.Failure? <==> id !in jobs
      ensures id !in jobs ==> r == Failure(404, "Job not found")
      ensures id in jobs ==>
        && r.StatusOf? && r.status == jobs[id].status && r.progress == jobs[id].progress
        && r.message == jobs[id].message && r.outputFiles == jobs[id].outputFiles && r.error == jobs[id].error
    {
      if id !in jobs then Failure(404, "Job not found")
      else
        var job := jobs[id];
        StatusOf(job.status, job.progress, job.message, job.outputFiles, job.error)
    }

    /** download_file: 404 for an unknown job, 400 unless it completed,
        otherwise the first output with that file name whose file exists,
        streamed for a Range request and sent as an attachment otherwise;
        404 when there is none. */
    method DownloadFile(id: JobId, filename: string, range: bool, existing: set<string>) returns (resp: Response)
      ensures id !in jobs ==> resp == Failure(404, "Job not found")
      ensures id in jobs && jobs[id].status != Completed ==> resp == Failure(400, "Job not completed")
      ensures id in jobs && jobs[id].status == Completed ==>
        var files := jobs[id].outputFiles;
        && (resp.SendFile? <==> exists k :: 0 <= k < |files| && Servable(files[k], filename, existing))
        && (resp.SendFile? ==> resp.attachment == !range)
        && (resp.SendFile? ==> exists k :: FirstServable(files, k, filename, existing) && resp.path == files[k].path)
        && (!resp.SendFile? ==> resp == Failure(404, "File not found"))
    {
      if id !in jobs {
        return Failure(404, "Job not found");
      }
      var job := jobs[id];
      if job.status != Completed {
        return Failure(400, "Job not completed");
      }
      var files := job.outputFiles;
      var k := 0;
      while k < |files|
        invariant 0 <= k <= |files|
        invariant forall j :: 0 <= j < k ==> !Servable(files[j], filename, existing)
      {
        if files[k].filename == filename && files[k].path in existing {
          return SendFile(files[k].path, !range);
        }
        k := k + 1;
      }
      resp := Failure(404, "File not found");
    }

    /** get_thumbnail: 404 for an unknown job; otherwise the thumbnail of
        the first output with that file name that has an existing one, and
        404 when there is none. */
    method GetThumbnail(id: JobId, filename: string, existing: set<string>) returns (resp: Response)
      ensures id !in jobs ==> resp == Failure(404, "Job not found")
      ensures id in jobs ==>
        var files := jobs[id].outputFiles;
        && (resp.SendFile? <==> exists k :: 0 <= k < |files| && HasThumbnail(files[k], filename, existing))
        && (resp.SendFile? ==> !resp.attachment)
        && (resp.SendFile? ==> exists k :: FirstThumbnail(files, k, filename, existing) && resp.path == files[k].thumbnail.value)
        && (!resp.SendFile? ==> resp == Failure(404, "Thumbnail not found"))
    {
      if id !in jobs {
        return Failure(404, "Job not found");
      }
      var files := jobs[id].outputFiles;
      var k := 0;
      while k < |files|
        invariant 0 <= k <= |files|
        invariant forall j :: 0 <= j < k ==> !HasThumbnail(files[j], filename, existing)
      {
        var info := files[k];
        if info.filename == filename && info.thumbnail.Some? && info.thumbnail.value != [] {
          if info.thumbnail.value in existing {
            return SendFile(info.thumbnail.value, false);
          }
        }
        k := k + 1;
      }
      resp := Failure(404, "Thumbnail not found");
    }
  }

  /** An output download_file can serve: the name matches and the file exists. */
  predicate Servable(info: FileInfo, filename: string, existing: set<string>) {
    info.filename == filename && info.path in existing
  }

  /** An output whose thumbnail get_thumbnail can serve: the name matches,
      the thumbnail entry is truthy and its file exists. */
  predicate HasThumbnail(info: FileInfo, filename: string, existing: set<string>) {
    info.filename == filename && info.thumbnail.Some? && info.thumbnail.value != [] && info.thumbnail.value in existing
  }

  /** k is the first output download_file can serve. */
  predicate FirstServable(files: seq<FileInfo>, k: int, filename: string, existing: set<string>) {
    0 <= k < |files| && Servable(files[k], filename, existing)
    && forall j :: 0 <= j < k ==> !Servable(files[j], filename, existing)
  }

  /** k is the first output whose thumbnail get_thumbnail can serve. */
  predicate FirstThumbnail(files: seq<FileInfo>, k: int, filename: string, existing: set<string>) {
    0 <= k < |files| && HasThumbnail(files[k], filename, existing)
    && forall j :: 0 <= j < k ==> !HasThumbnail(files[j], filename, existing)
  }

  // ---------------------------------------------------------------------
  // Upload filter (allowed_file) and the edit record's duration
  // ---------------------------------------------------------------------

  const AllowedExtensions: set<string> := {"mp4", "avi", "mov", "mkv", "webm", "flv"}

  /** filename.rsplit('.', 1)[1] when the name holds a dot. */
  function Extension(filename: string): (r: Option<string>)
    ensures r.None? <==> '.' !in filename
    ensures r.Some? ==> '.' !in r.value && EndsWith(filename, "." + r.value)
  {
    match LastIndex(filename, '.')
    case None => None
    case Some(i) =>
      assert filename[|filename| - |filename[i + 1..]| - 1..] == "." + filename[i + 1..];
      Some(filename[i + 1..])
  }

  /** '.' in filename and the extension, lower-cased, is allowed. */
  predicate AllowedFile(filename: string) {
    '.' in filename && Lower(Extension(filename).value) in AllowedExtensions
  }

  /** The extension is exactly the text after the last dot. */
  lemma ExtensionOf(stem: string, ext: string)
    requires '.' !in ext
    ensures Extension(stem + "." + ext) == Some(ext)
  {
    var s := stem + "." + ext;
    var i := LastIndex(s, '.').value;
    assert s[|stem|] == '.' && s[|stem| + 1..] == ext;
    assert i == |stem|;
  }

  /** A name with a dot is accepted exactly when its last extension is one
      of the six, in any letter case. */
  lemma AllowedFileSpec(stem: string, ext: string)
    requires '.' !in ext
    ensures AllowedFile(stem + "." + ext) <==> Lower(ext) in AllowedExtensions
    ensures !AllowedFile(ext)
  {
    ExtensionOf(stem, ext);
  }

  /** Every file the downloader produces passes the upload filter. */
  lemma DownloadsAllowed(prepared: string)
    ensures AllowedFile(CG.NormalizeMp4(prepared))
  {
    var f := CG.NormalizeMp4(prepared);
    var stem := f[..|f| - 4];
    assert f == stem + "." + "mp4";
    Mp4Allowed();
    ExtensionOf(stem, "mp4");
  }

  lemma Mp4Allowed()
    ensures '.' !in "mp4" && Lower("mp4") == "mp4" && "mp4" in AllowedExtensions
  {
    assert Lower("mp4") == "mp4";
  }

  /** The numeric value subtraction sees: a number, or a bool as 1 or 0. */
  function Number(v: Json): Option<real> {
    match v
    case JNum(n) => Some(n)
    case JBool(b) => Some(if b then 1.0 else 0.0)
    case _ => None
  }

  /** The edit record's 'duration': trim_end - trim_start when both are
      truthy, otherwise None (JNull); None (the option) when the
      subtraction raises. */
  function EditDuration(trimStart: Json, trimEnd: Json): (r: Option<Json>)
    ensures r == Some(JNull) <==> !(Truthy(trimStart) && Truthy(trimEnd))
    ensures r.None? <==> Truthy(trimStart) && Truthy(trimEnd) && (Number(trimStart).None? || Number(trimEnd).None?)
    ensures Truthy(trimStart) && Truthy(trimEnd) && Number(trimStart).Some? && Number(trimEnd).Some? ==>
      r == Some(JNum(Number(trimEnd).value - Number(trimStart).value))
  {
    if Truthy(trimStart) && Truthy(trimEnd) then
      if Number(trimStart).Some? && Number(trimEnd).Some? then Some(JNum(Number(trimEnd).value - Number(trimStart).value))
      else None
    else Some(JNull)
  }

  /** A trim starting at 0 records no duration, however long the trim. */
  lemma EditFromZero(trimEnd: Json)
    ensures EditDuration(JNum(0.0), trimEnd) == Some(JNull)
  {
  }
}

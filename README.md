# ai-clipper, modelled in Dafny

ai-clipper takes the URL of a long video and returns short vertical clips of
it. The steps are:

1. It downloads the video with yt-dlp.
2. It picks "engaging" intervals, by asking an OpenAI chat model or by
   slicing the video evenly.
3. It renders every interval in every requested format (TikTok, YouTube
   Shorts) with moviepy.
4. It records the jobs and the clips in a SQLite library.

A Flask web layer accepts one URL or a batch of them. It tracks each job in
an in-memory record that a background worker moves from `processing` (or
`queued`) to `completed` or `error`, with a progress figure and a message.
Other endpoints report a job's status, serve the rendered files and their
thumbnails, and filter uploads by extension.

This project models the deterministic logic between those external calls.
It has four modules:

- `Common` (common.dfy): JSON values, Option, and the string operations
  the code relies on (strip, split, join, startswith/endswith, `in`,
  rsplit, upper/lower). split, join, startswith/endswith, `in` and rsplit
  behave as Python's. strip, `isdigit`, `lower` and `upper` are stand-ins
  that know only ASCII and a few Latin-1 characters (see "Left out").
- `ClipGenerator` (clip_generator.dfy): the `ClipGenerator` class. It covers
  the heuristic detector, the validation of the AI reply with its fall-back,
  transcript cleanup, `.mp4` renaming, detector dispatch, the crop and
  speed-up arithmetic, and the `process_url` loop.
- `ClipLibrary` (clip_library.dfy): the SQL text and parameter list
  `get_clips` builds. It also covers the rows `save_clip` and `save_job`
  write and the found/not-found rule of `delete_clip`. The tables are a
  `Library` class holding maps and AUTOINCREMENT counters.
- `App` (app.py's logic, in app.dfy): covers submission and batch creation,
  the job registry (a `JobRegistry` class whose `jobs` map the methods
  update field by field), and render-task expansion and the progress
  formula. It also covers the worker `process_video_background`, what the
  worker saves to the library, the status/download/thumbnail lookups,
  `allowed_file`, and the duration the edit endpoint records.

## What stands in for the outside world

- **Downloads:** the file name yt-dlp prepared, or None when the download
  raised (`CG.DownloadedPath`).
- **Subtitles:** the fetched subtitle text, if any.
- **The chat model:** its reply text, if any. `json.loads` and `float()` are
  function parameters (`CG.Parsers`) that return None where Python raises.
- **The video:** its duration, or None when opening it raised.
- **Versions of the code:** the worker takes a `Code` value. It names the
  argument count of the render call and the fence removal it uses.
  `AsWritten` is the code as it stands and `Corrected` is the code with
  both findings below fixed.
- **Renders:** the outcome of each render is the k-th entry of a `rendered`
  sequence of booleans. Outcomes past its end count as failures.
- **Files on disk:** a set `existing` of paths that exist.
- **Clock and ids:** `uuid4` is a counter (`issued`) that never repeats, and
  the timestamp is a parameter `now`.

## Model

| member | source | states |
|---|---|---|
| ClipGenerator.WindowCount | clip_generator.py:192 | the window count is at most 5; it is 0 exactly when duration < 2·preferred; and count·2·preferred never exceeds the duration |
| ClipGenerator.HeuristicClipDetection | clip_generator.py:184-206 | the loop returns exactly the windows the heuristic keeps (HeuristicClips), each padded and clamped, reason and title filled in |
| ClipGenerator.HeuristicShape | clip_generator.py:192-204 | the heuristic yields n = min(5, floor(d/(2p))) clips when preferred ≥ min_duration and none otherwise; at most 5; none when d < 2p; clip j is window j, titled "Clip {j+1}" |
| ClipGenerator.HeuristicUpToShape | clip_generator.py:194-204 | after k iterations the loop holds k windows (or none when preferred < min_duration), in index order |
| ClipGenerator.WindowFits | clip_generator.py:195-196 | every window starts at or after 0 and start + preferred stays within the video |
| ClipGenerator.WindowStartsIncrease | clip_generator.py:195 | window starts strictly increase with the index |
| ClipGenerator.HeuristicStartsOrdered | clip_generator.py:195-200 | the padded start times of the returned clips never decrease |
| ClipGenerator.WindowClipWithin | clip_generator.py:196-204 | with buffer ≥ 0 a kept window, padded and clamped, has 0 ≤ start < end ≤ duration and lasts at least min_duration |
| ClipGenerator.HeuristicBounds | clip_generator.py:184-206 | with buffer ≥ 0 every heuristic clip has numeric times with 0 ≤ start < end ≤ duration and end − start ≥ min_duration |
| ClipGenerator.HeuristicTwoMinuteVideo | clip_generator.py:192-204 | a 120 s video with min 15 and preferred 30 gets exactly two clips, windows starting at 40 s and 80 s |
| ClipGenerator.StripFenceCases | clip_generator.py:158-163 | the fence removal as written: a reply not starting with a backtick passes unchanged; one starting with three backticks becomes ""; any other fenced reply becomes a backtick-free piece |
| ClipGenerator.FencePiece | clip_generator.py:160-161 | the piece kept is the run of non-backticks right after the opening backtick, ending at the next backtick or the end |
| ClipGenerator.FencedReply | clip_generator.py:158-171 | for "```json body```" with a backtick-free body, the removal as written hands json.loads "" and the corrected one hands it the body |
| ClipGenerator.FencedReplyIgnored | clip_generator.py:124-182 | as written, an AI reply in a ```json fence is discarded for the heuristic result (json.loads("") raises) |
| ClipGenerator.CodeFenceRecovered | clip_generator.py:158-163 | for a body without backticks, the corrected removal returns the body of "```json body```" and of "```body```"; the removal as written returns "" for the first |
| ClipGenerator.Examine | clip_generator.py:172-176 | one entry is kept exactly when it is a dict whose two times convert to floats inside the video, ordered and at least min_duration apart; the kept entry is the dict itself, unchanged |
| ClipGenerator.ValidateClips | clip_generator.py:170-178 | the validation loop returns Validated of the entries: nothing when one raises, else the kept dicts |
| ClipGenerator.ValidatedSpec | clip_generator.py:170-178 | validation raises exactly when some entry raises; otherwise it keeps exactly the in-range dicts, never more entries than it was given |
| ClipGenerator.SliceTo | clip_generator.py:171 | the slice `[:k]` is a prefix of the list, and no longer than k when k ≥ 0 |
| ClipGenerator.ReplyClipsBounded | clip_generator.py:171-178 | with either fence removal, a reply that validates yields at most max_clips_per_video clips |
| ClipGenerator.SingleObjectReply | clip_generator.py:165-167 | with either fence removal, a reply parsing to one valid dict rather than a list is wrapped and kept as the single clip |
| ClipGenerator.AiClipDetection | clip_generator.py:124-182 | for the fence removal given (as written or corrected), the method returns the validated clips, or the heuristic result when there is no reply, parsing raises or an entry raises |
| ClipGenerator.AiDetectionWithin | clip_generator.py:124-182 | with buffer ≥ 0 and either fence removal, every clip the AI detector returns, by either path, has times inside the video, ordered, at least min_duration apart |
| ClipGenerator.FindEngagingClipsAi | clip_generator.py:108-122 | nothing (the exception) exactly when opening the video raises; otherwise the AI path only with a client and a non-empty transcript, the heuristic otherwise |
| ClipGenerator.DetectedClipsHaveTimes | clip_generator.py:108-122 | every detected clip has both time keys, so the render loops can read them |
| ClipGenerator.DetectedClipsWithin | clip_generator.py:108-122 | with buffer ≥ 0 every detected clip lies inside the video and lasts at least min_duration |
| ClipGenerator.CleanTranscript | clip_generator.py:97-102 | the loop keeps, in order and stripped, the lines that are non-empty, do not start with "<", hold no "-->" and are not all digits once stripped, joined by single spaces; the result never contains "-->" |
| ClipGenerator.CleanedLinesNoArrow | clip_generator.py:99-101 | no kept line contains "-->" |
| ClipGenerator.StripKeepsOut | clip_generator.py:101 | stripping a line cannot create a "-->" it did not hold |
| ClipGenerator.TranscriptNoArrow | clip_generator.py:97-102 | the joined transcript contains no "-->" |
| ClipGenerator.NormalizeMp4 | clip_generator.py:63-68 | the name ends with ".mp4": it is unchanged when it already did, otherwise the text after its last "." is replaced, or ".mp4" appended when it has no "." |
| ClipGenerator.NormalizeMp4Idempotent | clip_generator.py:63-68 | renaming twice is renaming once |
| ClipGenerator.AspectOrder | clip_generator.py:261-264 | comparing the two aspect ratios is comparing the cross products w·th and tw·h |
| ClipGenerator.CropSize | clip_generator.py:260-273 | None exactly where a division by zero raises; a wider frame keeps its height and gets a width below w with width/height ≤ target ratio; otherwise it keeps its width and gets a height ≤ h |
| ClipGenerator.CropWidth | clip_generator.py:266 | int(h · tw/th) is below w and its ratio to h stays within the target ratio |
| ClipGenerator.CropHeight | clip_generator.py:271 | int(w / (tw/th)) is at most h and w over it stays within the target ratio |
| ClipGenerator.SpeedFactor | clip_generator.py:226-229 | a clip is sped up exactly when it is longer than the maximum, by a factor above 1 that brings it to the maximum |
| ClipGenerator.RenderClips | clip_generator.py:311-323 | the nested loop collects, clip-major, the output path of each successful render (RenderedPaths) |
| ClipGenerator.ClipPathsBounds | clip_generator.py:318-323 | one clip's formats give at most one path per format, each named after its format and only for a successful render, and all of them when all succeed |
| ClipGenerator.RenderedPathsBounds | clip_generator.py:311-323 | at most one path per (clip, format) pair, each named "{stem}_clip{i+1}_{format}.mp4" in the output directory, and one per pair when every render succeeds |
| ClipGenerator.ProcessUrl | clip_generator.py:292-326 | [] when the download fails; nothing (the exception propagates) when opening the video raises; otherwise the successful paths over the detected clips (none when nothing is detected) for the downloaded file's stem |
| ClipLibrary.SortColumn | clip_library.py:160-163 | the sort column is one of the six whitelisted fields: the requested one when whitelisted, else "created_at" |
| ClipLibrary.SortDirection | clip_library.py:165-167 | the direction upper-cases to ASC or DESC; a valid request keeps its own letter case, anything else becomes "DESC" |
| ClipLibrary.AddFilter | clip_library.py:135-158 | an active filter appends its condition text and its values, an inactive one changes nothing |
| ClipLibrary.FilterQuery | clip_library.py:132-158 | the query is the SELECT followed by the active conditions in the fixed order (format, search, min, max, from, to); the parameters are their values in the same order |
| ClipLibrary.FilterHoles | clip_library.py:135-158 | the filter conditions hold exactly one "?" per bound value |
| ClipLibrary.OrderClauseHoles | clip_library.py:160-169 | the ORDER BY … LIMIT ? OFFSET ? tail holds exactly two "?" |
| ClipLibrary.QueryPlaceholders | clip_library.py:132-170 | the whole query holds exactly one "?" per parameter |
| ClipLibrary.GetClipsQuery | clip_library.py:132-170 | get_clips builds QueryText and QueryParams; the placeholders match the parameters, and limit and offset are the last two parameters |
| ClipLibrary.NewClipRow | clip_library.py:64-90 | an insert succeeds exactly when no directly bound value is a list or a dict and job id, URL, file name, path and format are present and not null; a missing score is stored as 0 and missing tags as an empty list; views and downloads start at 0 |
| ClipLibrary.NewJobRow | clip_library.py:97-113 | the insert succeeds exactly when no directly bound value is a list or a dict and job id, URL and status are present and not null; completed_at is set exactly when the status is "completed"; formats and output_count default to [] and 0 |
| ClipLibrary.Library.SaveClip | clip_library.py:64-95 | a save that NewClipRow accepts inserts the row under a fresh id one above the last one and returns that id; one that raises returns nothing and changes nothing; the jobs table is untouched |
| ClipLibrary.Library.SaveJob | clip_library.py:97-116 | a save replaces any row with the same job id and takes the next row id; a failed one changes nothing; the clips table is untouched |
| ClipLibrary.Library.DeleteClip | clip_library.py:218-243 | the result is true exactly when the id existed; the row with that id is removed and nothing else changes |
| App.ReadSubmission | app.py:38-42 | the body is read exactly when it is a dict whose url (if any) is a string; url defaults to "" (stripped), urls to [] and formats to ["tiktok", "youtube_shorts"] |
| App.JobRegistry.ProcessVideo | app.py:35-82 | a non-empty urls list goes to the batch, with ProcessBatch's jobs and reply; otherwise an http(s) URL gets a fresh 'processing' job with progress 0; any other URL gets 400 "Invalid URL format" and no URL 400 "URL or URLs array is required", both creating no job; an unreadable body gets 500 |
| App.JobRegistry.ProcessBatch | app.py:84-117 | one 'queued' job per http(s) URL in order, under consecutive fresh ids, each tagged with the first one's id; invalid URLs are skipped; count = number of valid URLs, batch id None when there is none; a non-string item gives 500 after the jobs before it were created |
| App.JobRegistry.EnqueueIfValid | app.py:88-105 | an http(s) URL adds one batch job under the next id; any other URL adds nothing |
| App.JobRegistry.EnqueueBatchJob | app.py:92-105 | one more batch job under the next id, queued and waiting, tagged with the batch id |
| App.AcceptedUrlsSound | app.py:88-90 | every accepted URL is an http(s) item of the batch, and there are at most as many as items |
| App.AcceptedUrlsComplete | app.py:88-90 | every http(s) item of the batch is accepted |
| App.AcceptedUrlsAll | app.py:88-93 | a batch of http(s) URLs only is accepted whole and in order |
| App.JobRegistry.CreateJob | app.py:54-66 | a new job goes in under an id never used before |
| App.JobRegistry.ExpandTasks | app.py:159-179 | the nested loop builds clip_tasks exactly as Tasks: clip-major, one per format |
| App.TasksLength | app.py:159-179 | n clips and f formats give n·f tasks |
| App.TaskSlot | app.py:160-179 | clip i in formats[j] is task i·f + j, with file name "{stem}_clip{i+1}_{format}.mp4", its clip's times and the title defaulting to "Clip {i+1}" |
| App.TasksIndex | app.py:170 | each task's index is its position in clip_tasks |
| App.ProgressRange | app.py:189-192 | the k-th started task reports progress between 50 and 90, and exactly 90 for the last task |
| App.ProgressMonotone | app.py:189-192 | later tasks never report less progress |
| App.JobRegistry.RenderTasks | app.py:186-260 | for the render call given (as written or corrected): the tasks run in order; each reports Progress(k, total) and "Creating clip k/total" before its render; the outputs are the records of the tasks that yield one, in task order |
| App.OutputsSpec | app.py:195-233 | with the corrected call, at most one output per task, each the record of a task whose render succeeded |
| App.OutputsAllSucceed | app.py:195-233 | with the corrected call and every render succeeding, task k yields output k |
| App.AsWrittenNoOutputs | app.py:195-236 | with the call as written no task yields an output |
| App.AsWrittenRendersNothing | app.py:195-196 | as written, a run that reaches rendering has no outputs |
| App.AsWrittenCompletesEmpty | app.py:195-265 | as written, every job that completes has no output files and the message "Successfully created 0 clips!" |
| App.CorrectedRendersAll | app.py:159-233 | with the corrected call and every render succeeding, a run yields clips × formats outputs |
| App.CorrectedCompletesFull | app.py:159-265 | with the corrected call and every render succeeding, a completed job holds clips × formats output files |
| App.JobOutcome | app.py:119-309 | for either version of the code, every run ends 'completed' or 'error'. An error at progress 10 (download failed) or 40 (no clips, or opening the video raised) keeps the outputs; an error at 100 comes from a clip row save_clip refused and carries "Error: …" with the exception text. Completed means 100, "Successfully created n clips!" and every row saved. URL, formats and batch id are kept |
| App.RunIgnoresProgress | app.py:132-150 | once the download succeeded, the progress and message reported before do not affect the final record |
| App.JobRegistry.RenderRun | app.py:149-260 | for the code given (as written or corrected), reaching the render stage changes only the job's progress and message, and the outputs are those of the task list; with an empty task list (no formats) the job is left at 50 with "Found n engaging clips…", otherwise at 90 with "Creating clip t/t" and the title and format of the last task (which `LastTask` shows is the last clip in the last format) |
| App.LastTask | app.py:159-179 | the last task is the last clip in the last format, and there are clips × formats tasks |
| App.JobRegistry.Finish | app.py:262-309 | the job becomes completed at 100 with its outputs, and the library gains the completed job row and the clip rows in order. When save_clip raises for an output, the rows before it stay, the job turns 'error' with "Error: …" (progress 100, outputs kept) and its row is replaced by an 'error' row with 0 outputs |
| App.JobRegistry.RenderAndSave | app.py:149-309 | for the code given (as written or corrected), a run that found clips ends in Finished and FinishedTables over its outputs |
| App.JobRegistry.DetectAndRender | app.py:141-309 | for the code given: an exception while opening the video sets error, "Error: …" and saves an 'error' job row; no clips sets "No engaging clips found" and saves nothing; otherwise the render and save path |
| App.JobRegistry.AnalyzeVideo | app.py:132-309 | for the code given, after the download the transcript and analysis steps lead to the final record JobAfterRun and the library state TablesAfterRun |
| App.JobRegistry.ProcessVideoBackground | app.py:119-309 | for the code given (as written or corrected), the worker leaves the job as JobAfterRun (download failure: error at 10 with "Failed to download video"), no other job changes, and the library as TablesAfterRun |
| App.ClipRecordSaved | app.py:277-295 | save_clip stores the worker's record as the expected row, with the timing columns null and the tags an empty list, exactly when its title, reason and score are not lists or dicts; otherwise it raises |
| App.ClipRecordBindsIff | app.py:277-293 | the worker's clip record binds exactly when the detector's title, reason and score do |
| App.SavablePrefix | app.py:276-295 | the count of outputs saved is the length of the longest prefix whose records bind: all before it bind, the one at it does not |
| App.JobRecordSaved | app.py:268-309 | the library accepts every job record the worker builds, keyed by the job id, with completed_at only for 'completed' |
| App.SaveJobRow | app.py:268-274 | save_job adds or replaces the job's row under the next row id and leaves the clips alone |
| App.SaveClipRow | app.py:279-295 | save_clip adds the output's row under the next clip id exactly when its record binds, otherwise nothing changes; the jobs stay as they are |
| App.SaveCompleted | app.py:267-295 | the completed job's row, then one clip row per output in order under consecutive ids, up to the first one save_clip refuses |
| App.SaveOutputRows | app.py:276-295 | one clip row per output, in order, under consecutive ids, stopping at the first output save_clip refuses; the count saved is SavablePrefix |
| App.AsWrittenTables | app.py:195-274 | as written, a run that reaches rendering leaves a 'completed' job row with output_count 0 and no clip rows |
| App.SaveFailureTables | app.py:276-309 | when save_clip refuses an output, the job row ends 'error' with output_count 0 and no completed_at, and the clip rows before the refused one stay |
| App.TablesRaised | app.py:141-309 | a run whose video could not be opened leaves an 'error' job row with 0 outputs and no clip rows |
| App.TablesFoundNothing | app.py:143-146 | a run that detects no clips leaves the library as it was |
| App.JobRegistry.StatusReply | app.py:311-324 | 404 "Job not found" exactly for an unknown job, otherwise its status, progress, message, outputs and error |
| App.JobRegistry.DownloadFile | app.py:326-356 | 404 for an unknown job and 400 unless it completed; otherwise the first output with that file name whose file exists, as an attachment unless a Range header is sent; 404 "File not found" when there is none |
| App.JobRegistry.GetThumbnail | app.py:358-373 | 404 for an unknown job; otherwise the existing thumbnail of the first output with that name and a truthy thumbnail, not as an attachment; 404 "Thumbnail not found" when there is none |
| App.Extension | app.py:465 | the extension exists exactly when the name holds a "."; it is the dot-free text after the last "." |
| App.AllowedFileSpec | app.py:462-465 | a name is accepted exactly when its last extension, lower-cased, is one of mp4/avi/mov/mkv/webm/flv; a name without "." is refused |
| App.DownloadsAllowed | app.py:462-465 | every name the downloader returns passes the upload filter |
| App.EditDuration | app.py:587 | if reached, the duration is the number trim_end − trim_start when both are truthy numbers (a bool counting as 1 or 0), None (null) when either is falsy, and an error exactly when both are truthy and one is not a number |
| App.EditFromZero | app.py:587 | if reached, a trim that starts at 0 records no duration |

## Left out

- **The external services.**
  - yt-dlp and the subtitle HTTP request.
  - The OpenAI call and its prompt.
  - moviepy: opening, cutting, cropping, resizing, speeding up, compositing and writing the video.

  Their results arrive as inputs. Only the arithmetic around them is modelled: `CropSize` and `SpeedFactor`.
- **Threads and timing:** the worker thread, the render threads, the lock, the polling loop and `time.sleep`. The renders run one after another, in task order.
- **The order of outputs:** with real threads, `output_files` holds the successful records in completion order. The model appends them in task order.
- **Job timestamps:** `created_at`, and uuid strings as job ids.
- **Floats:** Python floats are exact reals, and `int()` of a non-negative value is a floor.
- **File records:** `file_size`, `file_size_mb` and the measured `duration` are not modelled, because they read the file system and the rendered video.
- **The SQLite engine.** The model does not execute queries and has no LIKE or DATE semantics, and no column type affinity: a row holds each value as it was bound, so the string "8" in the REAL `engagement_score` column is not turned into 8.0, and the `jobs` map keys the number 1 and the string "1" apart where the UNIQUE TEXT `job_id` column treats them as one key. The worker always passes string job ids, so its runs are not affected. `get_clips` stops at the SQL text and parameters, and the rows it would fetch (and the `json.loads` of their tags) are not modelled. `get_clip_by_id`, `increment_views`, `increment_downloads` and `get_statistics` are not modelled either.
- **`delete_clip`:** the removal of the clip file from disk is not modelled.
- **`json.dumps` of `formats` and `tags`:** the row stores the JSON value itself, not its text.
- App.JobRegistry.ProcessVideo: it does not start the worker thread. The worker is the separate `ProcessVideoBackground`, called with the job's id, URL and formats. Its URL is stripped by the ASCII stand-in of `str.strip` (see `ReadSubmission`).
- App.JobRegistry.ProcessBatch: it does not start the worker threads of app.py:108-110 either; each batch job's worker is `ProcessVideoBackground`.
- App.ReadSubmission: `strip()` is `Common.Strip`, which removes ASCII whitespace, the separators U+001C to U+001F, U+0085 and U+00A0 only. Python also strips the other Unicode spaces (U+2000 to U+200A, U+2028, U+2029, U+3000 and the like), so a URL padded with those is stripped in Python and not in the model.
- ClipGenerator.CleanTranscript: `strip()` is the stand-in above, and `isdigit()` accepts only "0" to "9". Python's `isdigit` also accepts other Unicode digits (superscripts, Arabic-Indic and other scripts' digits), so a line of those is dropped in Python and kept in the model.
- ClipLibrary.SortDirection: `upper()` maps only "a" to "z". Python's full Unicode case mapping also turns other text into "ASC" or "DESC": the long s, U+017F, upper-cases to "S", so "aſc" is accepted in Python and replaced by "DESC" in the model.
- App.AllowedFileSpec: `lower()` maps only "A" to "Z". Python's full Unicode case mapping also turns other extensions into allowed ones: the Kelvin sign, U+212A, lower-cases to "k", so a name ending in ".m" + U+212A + "v" is accepted in Python and refused in the model.
- ClipGenerator.HeuristicClipDetection: it requires `preferred_duration > 0` (`ValidConfig`). A value of 0 raises ZeroDivisionError at clip_generator.py:192, and a negative value yields no clips.
- ClipGenerator.SpeedFactor: it requires `duration_max > 0`. A value of 0 raises ZeroDivisionError at clip_generator.py:228, which `create_clip` turns into a failed render.
- ClipLibrary.NewClipRow: numbers are reals, so a Python int too wide for SQLite's 64 bits, which makes `execute` raise OverflowError, is not told apart from one that fits. The same holds for ClipLibrary.NewJobRow. A str holding a lone surrogate is outside the model too: sqlite3 cannot encode it as UTF-8, so binding it raises UnicodeEncodeError. Dafny strings cannot hold such a str.
- App.InfoBinds: it treats every string as bindable. A title or reason holding a lone surrogate cannot be represented by a Dafny string. `json.loads` produces one from a "\ud800" escape in the AI reply. For such a value, `save_clip` at app.py:295 raises UnicodeEncodeError, and the job ends as 'error' at progress 100 (app.py:297-309).
- App.JobRegistry.ProcessVideoBackground:
  - It takes the formats as a list of strings. A `formats` value of another shape, which makes the Python loops raise or iterate oddly, is not modelled.
  - The exceptions it models are the one raised while opening the video for its duration, and the one `save_clip` raises for an output whose title, reason or score is a list or a dict. The job records always satisfy the NOT NULL columns and bind (`JobRecordSaved`), so `save_job` never raises.
  - Its body is split into stage methods (`AnalyzeVideo`, `DetectAndRender`, `RenderRun`, `RenderAndSave`, `Finish`) to keep each proof small.
- App.JobRegistry.RenderTasks: the progress of a task is `Progress(k, |tasks|)`. `TasksLength` shows that `|tasks|` is `len(clips) * len(formats)` (app.py:155).
- **Batch jobs:** app.py:108-110 starts a worker for each batch job, but the code never sets a batch job's status to `processing`. Its record reads `queued` until the worker marks it `completed` or `error`, and the model follows the code.
- **Behaviour with no code behind it:** there is no video cache, no AI retry or backoff, no max-duration check or score sort of AI clips, and the worker cap is fixed.
- **Endpoints not modelled:** `list_jobs`, the upload endpoint apart from its `allowed_file` check, `get_clip_info` and the library endpoints of app.py.
- **`edit_clip` and the upload endpoint:** the `ClipGenerator` class of clip_generator.py defines neither `edit_clip` nor `process_uploaded_video`. So every edit request that passes the path checks raises AttributeError at app.py:563 and is answered with a 500 (app.py:601-602). Likewise every upload that passes `allowed_file` is saved and then raises at app.py:495, and is answered with a 500 (app.py:524-525). The model does not cover these replies; of the two endpoints it keeps only the duration expression and the `allowed_file` check.
- App.EditDuration: in this version the expression of app.py:587 is never evaluated. It sits in the success branch of `generator.edit_clip(...)`, and that call always raises because `edit_clip` is missing from `ClipGenerator`. The member states what the expression computes if that branch is reached. The same holds for App.EditFromZero.
- **`_add_engaging_elements`:** not modelled. It only wraps the clip.
- **`main` of clip_generator.py:** not modelled. It is command-line plumbing.

## Findings

| source | as written | input that shows it | evidently intended | confidence | as-written member | corrected member |
|---|---|---|---|---|---|---|
| app.py:195-196 | `create_clip` is called with six positional arguments (the title last), but it takes five besides `self` (clip_generator.py:208-209). Every call raises TypeError, which app.py:234-236 turns into a failed task. | any job whose detector finds a clip: it completes with `output_files == []` and "Successfully created 0 clips!" | call `create_clip` with video path, start, end, output path and format, so that each successful render yields a file record | high, not executed | App.AsWrittenCompletesEmpty | App.CorrectedCompletesFull |
| clip_generator.py:160-163 | a fenced reply is cut down to the text between its first two backticks | the reply "```json\n[…]\n```" becomes "", `json.loads` raises, and the AI result is replaced by the heuristic | strip the Markdown code fence and keep the JSON inside it | high, not executed | ClipGenerator.FencedReplyIgnored | ClipGenerator.StripCodeFence |

- **First finding.**
  - As written: `AsWrittenNoOutputs`, `AsWrittenRendersNothing`, `AsWrittenCompletesEmpty` and `AsWrittenTables` state the outcome of the worker run with `AsWritten` (six-argument call): a completed job with no outputs, and a 'completed' job row counting 0 outputs with no clip rows.
  - Corrected: with `Corrected` (five-argument call), `CorrectedRendersAll` and `CorrectedCompletesFull` prove that a run whose renders all succeed holds one output per clip and format.
- **Second finding.**
  - As written: `StripFence` is the removal as written, and `FenceAsWritten` selects it in the detector. `CodeFenceRecovered` and `FencedReply` show it hands `json.loads` "" for a ```json fence, and `FencedReplyIgnored` that the AI result is then replaced by the heuristic one.
  - Corrected: `StripCodeFence` keeps the text inside a triple-backtick fence and behaves as written otherwise; `FenceCorrected` selects it. `CodeFenceRecovered` and `FencedReply` prove it hands `json.loads` the body.

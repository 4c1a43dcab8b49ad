/** The deterministic logic of the ClipGenerator class in clip_generator.py:
    the time-slicing heuristic, the checks applied to the AI's reply, the
    subtitle-to-transcript cleanup, the ".mp4" renaming after a download,
    the detector dispatch, the crop and speed-up arithmetic, and the
    download-detect-render loop of process_url. Downloads, the chat
    completion call and the video rendering are collaborators whose
    outcomes arrive as parameters. */
module ClipGenerator {
  import opened Common

  /** The entries of config.json that the detector reads, and whether an
      OpenAI client was constructed at start-up. */
  datatype Config = Config(
    minDuration: real,        // clip_settings.min_duration
    maxDuration: real,        // clip_settings.max_duration (read, never applied)
    preferredDuration: real,  // clip_settings.preferred_duration
    bufferSeconds: real,      // clip_settings.buffer_seconds
    maxClipsPerVideo: int,    // ai_settings.max_clips_per_video
    aiClient: bool)

  /** The heuristic divides by twice the preferred duration. */
  predicate ValidConfig(cfg: Config) {
    cfg.preferredDuration > 0.0
  }

  /** Library parsers the detector relies on: json.loads, and float()
      applied to a string. None stands for the exception they raise. */
  datatype Parsers = Parsers(loads: string -> Option<Json>, toFloat: string -> Option<real>)

  /** One detected clip: the dict the detector returns. */
  type ClipInfo = map<string, Json>

  /** Every clip the rest of the pipeline reads has both time keys. */
  predicate HasTimes(c: ClipInfo) {
    "start_time" in c && "end_time" in c
  }

  /** Both times are numbers, 0 <= start < end <= duration, and the clip
      lasts at least minDuration. */
  predicate NumericWithin(c: ClipInfo, duration: real, minDuration: real) {
    && HasTimes(c) && c["start_time"].JNum? && c["end_time"].JNum?
    && 0.0 <= c["start_time"].n < c["end_time"].n <= duration
    && c["end_time"].n - c["start_time"].n >= minDuration
  }

  // ---------------------------------------------------------------------
  // Heuristic detection (_heuristic_clip_detection)
  // ---------------------------------------------------------------------

  /** num_clips = min(5, int(duration / (preferred_duration * 2))). */
  function WindowCount(duration: real, preferred: real): (n: nat)
    requires duration >= 0.0 && preferred > 0.0
    ensures n <= 5
    ensures n == 0 <==> duration < 2.0 * preferred
    ensures 2.0 * preferred * n as real <= duration
  {
    var x := duration / (preferred * 2.0);
    var q := x.Floor;
    assert x * (preferred * 2.0) == duration;
    assert q as real <= x;
    assert q >= 0;
    assert q as real * (preferred * 2.0) <= x * (preferred * 2.0);
    assert duration < 2.0 * preferred ==> x < 1.0;
    Min(5, q)
  }

  /** start_time of window i of n: (duration / (n + 1)) * (i + 1). */
  function WindowStart(duration: real, n: nat, i: nat): real {
    (duration / (n + 1) as real) * (i + 1) as real
  }

  /** end_time of a window: min(start_time + preferred_duration, duration). */
  function WindowEnd(duration: real, cfg: Config, start: real): real {
    RMin(start + cfg.preferredDuration, duration)
  }

  predicate WindowKept(duration: real, cfg: Config, n: nat, i: nat) {
    var start := WindowStart(duration, n, i);
    WindowEnd(duration, cfg, start) - start >= cfg.minDuration
  }

  /** The dict appended for window i: times padded by the buffer and
      clamped to [0, duration], a reason and the title "Clip {i+1}". */
  function WindowClip(duration: real, cfg: Config, n: nat, i: nat): ClipInfo
    requires duration >= 0.0
  {
    var start := WindowStart(duration, n, i);
    var end := WindowEnd(duration, cfg, start);
    map[
      "start_time" := JNum(RMax(0.0, start - cfg.bufferSeconds)),
      "end_time" := JNum(RMin(end + cfg.bufferSeconds, duration)),
      "reason" := JStr("Engaging moment at " + NatToString(if start >= 0.0 then start.Floor else 0) + "s"),
      "title" := JStr("Clip " + NatToString(i + 1))]
  }

  /** The clips the loop has appended after examining windows 0 .. k-1. */
  function HeuristicUpTo(duration: real, cfg: Config, n: nat, k: nat): seq<ClipInfo>
    requires duration >= 0.0
  {
    if k == 0 then []
    else HeuristicUpTo(duration, cfg, n, k - 1)
         + (if WindowKept(duration, cfg, n, k - 1) then [WindowClip(duration, cfg, n, k - 1)] else [])
  }

  function HeuristicClips(duration: real, cfg: Config): seq<ClipInfo>
    requires duration >= 0.0 && ValidConfig(cfg)
  {
    var n := WindowCount(duration, cfg.preferredDuration);
    HeuristicUpTo(duration, cfg, n, n)
  }

  lemma WindowCountIs(duration: real, preferred: real)
    requires duration >= 0.0 && preferred > 0.0
    ensures Min(5, (duration / (preferred * 2.0)).Floor) == WindowCount(duration, preferred)
  {
  }

  method HeuristicClipDetection(cfg: Config, duration: real) returns (clips: seq<ClipInfo>)
    requires duration >= 0.0 && ValidConfig(cfg)
    ensures clips == HeuristicClips(duration, cfg)
  {
    clips := [];
    var numClips := Min(5, (duration / (cfg.preferredDuration * 2.0)).Floor);
    WindowCountIs(duration, cfg.preferredDuration);
    for i := 0 to numClips
      invariant clips == HeuristicUpTo(duration, cfg, numClips, i)
    {
      var startTime := WindowStart(duration, numClips, i);
      var endTime := RMin(startTime + cfg.preferredDuration, duration);
      if endTime - startTime >= cfg.minDuration {
        ghost var was := clips;
        clips := clips + [map[
          "start_time" := JNum(RMax(0.0, startTime - cfg.bufferSeconds)),
          "end_time" := JNum(RMin(endTime + cfg.bufferSeconds, duration)),
          "reason" := JStr("Engaging moment at " + NatToString(if startTime >= 0.0 then startTime.Floor else 0) + "s"),
          "title" := JStr("Clip " + NatToString(i + 1))]];
        assert clips == was + [WindowClip(duration, cfg, numClips, i)];
      }
    }
  }

  /** Every window the heuristic places ends a full preferred duration
      before the end of the video. */
  lemma WindowFits(duration: real, p: real, n: nat, i: nat)
    requires p > 0.0 && 1 <= n && 2.0 * p * n as real <= duration && i < n
    ensures 0.0 <= WindowStart(duration, n, i)
    ensures WindowStart(duration, n, i) + p <= duration
  {
    var m := (n + 1) as real;
    var dq := duration / m;
    assert dq * m == duration;
    assert p * m <= 2.0 * p * n as real by {
      assert p * m == p * n as real + p;
      assert p <= p * n as real;
    }
    assert duration >= p * m;
    assert dq >= p;
    var k := (i + 1) as real;
    assert WindowStart(duration, n, i) == dq * k;
    assert dq * k >= 0.0;
    assert dq * k + dq <= dq * m by {
      assert dq * m == dq * k + dq * (m - k);
      assert m - k >= 1.0;
      assert dq * (m - k) >= dq;
    }
    assert WindowStart(duration, n, i) + p <= dq * k + dq;
  }

  /** Window starts strictly increase with the window index. */
  lemma WindowStartsIncrease(duration: real, n: nat, i: nat, j: nat)
    requires duration > 0.0 && i < j
    ensures WindowStart(duration, n, i) < WindowStart(duration, n, j)
  {
    var dq := duration / (n + 1) as real;
    assert dq > 0.0;
    assert dq * (j + 1) as real == dq * (i + 1) as real + dq * (j - i) as real;
    assert dq * (j - i) as real > 0.0;
  }

  /** The heuristic keeps either every window or none of them: window i
      yields the dict WindowClip(i), titled "Clip {i+1}", exactly when the
      preferred duration reaches the minimum duration. */
  lemma {:induction false} HeuristicUpToShape(duration: real, cfg: Config, n: nat, k: nat)
    requires ValidConfig(cfg) && duration >= 2.0 * cfg.preferredDuration * n as real && k <= n
    ensures var h := HeuristicUpTo(duration, cfg, n, k);
      && |h| == (if cfg.preferredDuration >= cfg.minDuration then k else 0)
      && forall j :: 0 <= j < |h| ==> h[j] == WindowClip(duration, cfg, n, j)
  {
    if k > 0 {
      HeuristicUpToShape(duration, cfg, n, k - 1);
      WindowFits(duration, cfg.preferredDuration, n, k - 1);
      var start := WindowStart(duration, n, k - 1);
      assert WindowEnd(duration, cfg, start) == start + cfg.preferredDuration;
    }
  }

  lemma HeuristicShape(duration: real, cfg: Config)
    requires duration >= 0.0 && ValidConfig(cfg)
    ensures var h := HeuristicClips(duration, cfg);
      && var n := WindowCount(duration, cfg.preferredDuration);
      && |h| == (if cfg.preferredDuration >= cfg.minDuration then n else 0)
      && |h| <= 5
      && (duration < 2.0 * cfg.preferredDuration ==> h == [])
      && forall j :: 0 <= j < |h| ==> h[j] == WindowClip(duration, cfg, n, j)
  {
    var n := WindowCount(duration, cfg.preferredDuration);
    HeuristicUpToShape(duration, cfg, n, n);
  }

  /** With a non-negative buffer every heuristic window, padded and
      clamped, lies inside the video, is non-empty and still lasts at
      least the minimum duration. */
  lemma WindowClipWithin(duration: real, cfg: Config, n: nat, i: nat)
    requires ValidConfig(cfg) && cfg.bufferSeconds >= 0.0
    requires 1 <= n && 2.0 * cfg.preferredDuration * n as real <= duration && i < n
    requires WindowKept(duration, cfg, n, i)
    ensures NumericWithin(WindowClip(duration, cfg, n, i), duration, cfg.minDuration)
  {
    WindowFits(duration, cfg.preferredDuration, n, i);
  }

  lemma HeuristicBounds(duration: real, cfg: Config)
    requires duration >= 0.0 && ValidConfig(cfg) && cfg.bufferSeconds >= 0.0
    ensures forall c :: c in HeuristicClips(duration, cfg) ==> NumericWithin(c, duration, cfg.minDuration)
  {
    var h := HeuristicClips(duration, cfg);
    forall c | c in h
      ensures NumericWithin(c, duration, cfg.minDuration)
    {
      var j :| 0 <= j < |h| && h[j] == c;
      HeuristicClipWithin(duration, cfg, j);
    }
  }

  lemma HeuristicClipWithin(duration: real, cfg: Config, j: nat)
    requires duration >= 0.0 && ValidConfig(cfg) && cfg.bufferSeconds >= 0.0
    requires j < |HeuristicClips(duration, cfg)|
    ensures NumericWithin(HeuristicClips(duration, cfg)[j], duration, cfg.minDuration)
  {
    HeuristicAt(duration, cfg, j);
    CountedWindowWithin(duration, cfg, j);
  }

  lemma CountedWindowWithin(duration: real, cfg: Config, j: nat)
    requires duration >= 0.0 && ValidConfig(cfg) && cfg.bufferSeconds >= 0.0
    requires j < WindowCount(duration, cfg.preferredDuration) && cfg.preferredDuration >= cfg.minDuration
    ensures NumericWithin(WindowClip(duration, cfg, WindowCount(duration, cfg.preferredDuration), j), duration, cfg.minDuration)
  {
    var n := WindowCount(duration, cfg.preferredDuration);
    WindowKeptFits(duration, cfg, n, j);
    WindowClipWithin(duration, cfg, n, j);
  }

  /** Clip j of the heuristic is window j, and windows are kept at all
      only when there is one and the preferred duration is long enough. */
  lemma HeuristicAt(duration: real, cfg: Config, j: nat)
    requires duration >= 0.0 && ValidConfig(cfg)
    requires j < |HeuristicClips(duration, cfg)|
    ensures var n := WindowCount(duration, cfg.preferredDuration);
      && j < n && cfg.preferredDuration >= cfg.minDuration
      && HeuristicClips(duration, cfg)[j] == WindowClip(duration, cfg, n, j)
  {
    HeuristicShape(duration, cfg);
  }

  /** A window that fits in the video is kept once the preferred duration
      reaches the minimum one. */
  lemma WindowKeptFits(duration: real, cfg: Config, n: nat, i: nat)
    requires ValidConfig(cfg) && cfg.preferredDuration >= cfg.minDuration
    requires 1 <= n && 2.0 * cfg.preferredDuration * n as real <= duration && i < n
    ensures WindowKept(duration, cfg, n, i)
  {
    WindowFits(duration, cfg.preferredDuration, n, i);
  }

  /** The padded start times of the heuristic clips never decrease. */
  lemma HeuristicStartsOrdered(duration: real, cfg: Config, j: nat, k: nat)
    requires duration >= 0.0 && ValidConfig(cfg)
    requires j < k < |HeuristicClips(duration, cfg)|
    ensures var h := HeuristicClips(duration, cfg);
      && "start_time" in h[j] && "start_time" in h[k]
      && h[j]["start_time"].JNum? && h[k]["start_time"].JNum?
      && h[j]["start_time"].n <= h[k]["start_time"].n
  {
    var n := WindowCount(duration, cfg.preferredDuration);
    HeuristicShape(duration, cfg);
    WindowStartsIncrease(duration, n, j, k);
  }

  /** A 120-second video with min 15 and preferred 30 gets the two windows
      starting at 40 s and 80 s. */
  lemma HeuristicTwoMinuteVideo(buffer: real)
    ensures var cfg := Config(15.0, 60.0, 30.0, buffer, 5, false);
      HeuristicClips(120.0, cfg) == [WindowClip(120.0, cfg, 2, 0), WindowClip(120.0, cfg, 2, 1)]
    ensures WindowStart(120.0, 2, 0) == 40.0 && WindowStart(120.0, 2, 1) == 80.0
  {
    var cfg := Config(15.0, 60.0, 30.0, buffer, 5, false);
    assert (120.0 / (30.0 * 2.0)).Floor == 2;
    assert WindowCount(120.0, 30.0) == 2;
    HeuristicShape(120.0, cfg);
  }

  // ---------------------------------------------------------------------
  // Reply handling (_ai_clip_detection)
  // ---------------------------------------------------------------------

  /** The fence removal as written: a reply (already stripped) that starts
      with a backtick is cut down to the text between its first two
      backticks, and a leading "json" is dropped from that piece. */
  function StripFence(content: string): string {
    if StartsWith(content, "`") then
      var piece := Split(content, '`')[1];
      if StartsWith(piece, "json") then piece[4..] else piece
    else content
  }

  /** The first piece of a split is the text before the first separator. */
  lemma {:induction false} SplitFirstPiece(a: string, sep: char, rest: string)
    requires sep !in a
    ensures Split(a + [sep] + rest, sep)[0] == a
  {
    if |a| > 0 {
      assert (a + [sep] + rest)[1..] == a[1..] + [sep] + rest;
      SplitFirstPiece(a[1..], sep, rest);
    }
  }

  /** The piece kept by StripFence is the run of non-backticks that follows
      the opening backtick, up to the next backtick or the end. */
  lemma FencePiece(content: string)
    requires StartsWith(content, "`")
    ensures var piece := Split(content, '`')[1];
      && StartsWith(content, "`" + piece) && '`' !in piece
      && (|content| == 1 + |piece| || content[1 + |piece|] == '`')
  {
    var parts := Split(content, '`');
    var rest := Split(content[1..], '`');
    assert parts == [[]] + rest;
    JoinSplit(content[1..], '`');
    if |rest| == 1 {
      assert content[1..] == rest[0];
    } else {
      assert content[1..] == rest[0] + "`" + Join(rest[1..], "`");
    }
    assert content == "`" + content[1..];
  }

  /** What StripFence does: a reply not starting with a backtick passes
      unchanged; one starting with three backticks becomes empty; any other
      fenced reply becomes its first backtick-free piece, minus "json". */
  lemma StripFenceCases(content: string)
    ensures !StartsWith(content, "`") ==> StripFence(content) == content
    ensures StartsWith(content, "```") ==> StripFence(content) == []
    ensures StartsWith(content, "`") ==> '`' !in StripFence(content)
  {
    if StartsWith(content, "```") {
      assert content[0] == '`' && content[1] == '`';
      var rest := Split(content[1..], '`');
      assert Split(content, '`') == [[]] + rest;
      assert rest == [[]] + Split(content[2..], '`');
    }
  }

  /** The fence removal the comment at clip_generator.py:159 asks for: a
      reply wrapped in triple backticks yields the text inside them. */
  function StripCodeFence(content: string): string {
    if StartsWith(content, "```") then
      var inner := Split(content[3..], '`')[0];
      if StartsWith(inner, "json") then inner[4..] else inner
    else StripFence(content)
  }

  /** A reply fenced as a Markdown code block comes back as its body with
      the corrected removal, and as the empty string as written. */
  lemma CodeFenceRecovered(body: string)
    requires '`' !in body
    ensures StripCodeFence("```json" + body + "```") == body
    ensures !StartsWith(body, "json") ==> StripCodeFence("```" + body + "```") == body
    ensures StripFence("```json" + body + "```") == []
  {
    var tagged := "```json" + body + "```";
    assert tagged[3..] == "json" + body + [ '`' ] + "``";
    SplitFirstPiece("json" + body, '`', "``");
    assert ("json" + body)[4..] == body;
    var plain := "```" + body + "```";
    assert plain[3..] == body + ['`'] + "``";
    SplitFirstPiece(body, '`', "``");
    StripFenceCases(tagged);
  }

  /** Python's float() applied to a value from the parsed reply; None where
      it raises (None, a list or a dict, or a string float() rejects). */
  function AsFloat(v: Json, p: Parsers): Option<real> {
    match v
    case JNum(x) => Some(x)
    case JBool(b) => Some(if b then 1.0 else 0.0)
    case JStr(t) => p.toFloat(t)
    case _ => None
  }

  /** The times of a dict convert to floats that lie inside the video,
      in order, at least minDuration apart. */
  predicate FloatWithin(c: ClipInfo, duration: real, minDuration: real, p: Parsers) {
    && HasTimes(c)
    && AsFloat(c["start_time"], p).Some? && AsFloat(c["end_time"], p).Some?
    && var start := AsFloat(c["start_time"], p).value;
       var end := AsFloat(c["end_time"], p).value;
       0.0 <= start < end <= duration && end - start >= minDuration
  }

  /** What the validation loop does with one entry of the reply. */
  datatype Verdict = Raises | Skip | Keep(clip: ClipInfo)

  /** One pass of the loop body at clip_generator.py:172-176. `in` on a
      string is a substring test and on a list a membership test, after
      which indexing with a string raises; `in` on a number, a bool or None
      raises at once. */
  function Examine(v: Json, duration: real, cfg: Config, p: Parsers): (r: Verdict)
    ensures r.Keep? <==> v.JObj? && FloatWithin(v.fields, duration, cfg.minDuration, p)
    ensures r.Keep? ==> v == JObj(r.clip)
  {
    match v
    case JObj(m) =>
      if "start_time" in m && "end_time" in m then
        var start := AsFloat(m["start_time"], p);
        var end := AsFloat(m["end_time"], p);
        if start.None? || end.None? then Raises
        else if 0.0 <= start.value < end.value <= duration && end.value - start.value >= cfg.minDuration then Keep(m)
        else Skip
      else Skip
    case JStr(t) => if Contains(t, "start_time") && Contains(t, "end_time") then Raises else Skip
    case JArr(items) => if JStr("start_time") in items && JStr("end_time") in items then Raises else Skip
    case _ => Raises
  }

  /** The valid clips among entries, in order and unchanged, or None when
      examining one of them raises. */
  function Validated(entries: seq<Json>, duration: real, cfg: Config, p: Parsers): Option<seq<ClipInfo>> {
    if |entries| == 0 then Some([])
    else
      var before := Validated(entries[..|entries| - 1], duration, cfg, p);
      match Examine(entries[|entries| - 1], duration, cfg, p)
      case Raises => None
      case Skip => before
      case Keep(c) => if before.None? then None else Some(before.value + [c])
  }

  /** Validation raises exactly when some entry raises; otherwise it keeps
      exactly the dicts whose times are in range, and never more entries
      than it was given. */
  lemma {:induction false} ValidatedSpec(entries: seq<Json>, duration: real, cfg: Config, p: Parsers)
    ensures Validated(entries, duration, cfg, p).None?
        <==> exists i :: 0 <= i < |entries| && Examine(entries[i], duration, cfg, p).Raises?
    ensures Validated(entries, duration, cfg, p).Some? ==>
      var kept := Validated(entries, duration, cfg, p).value;
      && |kept| <= |entries|
      && forall c :: c in kept <==> exists i :: 0 <= i < |entries| && entries[i] == JObj(c) && FloatWithin(c, duration, cfg.minDuration, p)
  {
    if |entries| > 0 {
      var init := entries[..|entries| - 1];
      var last := entries[|entries| - 1];
      ValidatedSpec(init, duration, cfg, p);
      assert forall i :: 0 <= i < |init| ==> init[i] == entries[i];
      assert entries == init + [last];
      var v := Examine(last, duration, cfg, p);
      if v.Raises? {
        assert Examine(entries[|entries| - 1], duration, cfg, p).Raises?;
      }
      if Validated(entries, duration, cfg, p).Some? {
        var kept := Validated(entries, duration, cfg, p).value;
        forall c
          ensures c in kept <==> exists i :: 0 <= i < |entries| && entries[i] == JObj(c) && FloatWithin(c, duration, cfg.minDuration, p)
        {
          if c in kept && !(v.Keep? && c == v.clip) {
            var i :| 0 <= i < |init| && init[i] == JObj(c) && FloatWithin(c, duration, cfg.minDuration, p);
            assert entries[i] == JObj(c);
          }
          if exists i :: 0 <= i < |entries| && entries[i] == JObj(c) && FloatWithin(c, duration, cfg.minDuration, p) {
            var i :| 0 <= i < |entries| && entries[i] == JObj(c) && FloatWithin(c, duration, cfg.minDuration, p);
            if i < |init| {
              assert init[i] == JObj(c);
            }
          }
        }
      }
    }
  }

  /** clips_data[:k] with Python's slice semantics, negative k included. */
  function SliceTo<T>(xs: seq<T>, k: int): (r: seq<T>)
    ensures |r| <= |xs| && r == xs[..|r|]
    ensures k >= 0 ==> |r| <= k
  {
    if k >= 0 then (if k <= |xs| then xs[..k] else xs)
    else if |xs| + k >= 0 then xs[..|xs| + k]
    else []
  }

  /** Which fence removal the reply path applies: the one at
      clip_generator.py:160-163 (StripFence), or the corrected one
      (StripCodeFence). */
  datatype Fence = FenceAsWritten | FenceCorrected

  function RemoveFence(fence: Fence, content: string): string {
    match fence
    case FenceAsWritten => StripFence(content)
    case FenceCorrected => StripCodeFence(content)
  }

  /** What follows json.loads: wrap a non-list in a list, keep the first
      max_clips_per_video entries and validate them. None stands for an
      exception. */
  function ParsedClips(parsed: Option<Json>, duration: real, cfg: Config, p: Parsers): Option<seq<ClipInfo>> {
    match parsed
    case None => None
    case Some(v) =>
      var entries := if v.JArr? then v.items else [v];
      Validated(SliceTo(entries, cfg.maxClipsPerVideo), duration, cfg, p)
  }

  /** The body of the try block: strip the reply, remove a fence, parse,
      then ParsedClips. */
  function ReplyClips(fence: Fence, reply: string, duration: real, cfg: Config, p: Parsers): Option<seq<ClipInfo>> {
    ParsedClips(p.loads(RemoveFence(fence, Strip(reply))), duration, cfg, p)
  }

  /** _ai_clip_detection: the validated reply, or the heuristic result
      when the chat call or anything after it raises. */
  function AiDetection(fence: Fence, reply: Option<string>, duration: real, cfg: Config, p: Parsers): seq<ClipInfo>
    requires duration >= 0.0 && ValidConfig(cfg)
  {
    if reply.None? then HeuristicClips(duration, cfg)
    else match ReplyClips(fence, reply.value, duration, cfg, p)
      case None => HeuristicClips(duration, cfg)
      case Some(clips) => clips
  }

  /** A reply fenced as a Markdown code block: the removal as written
      hands "" to json.loads, the corrected one hands it the body. */
  lemma FencedReply(body: string, duration: real, cfg: Config, p: Parsers)
    requires '`' !in body
    ensures ReplyClips(FenceAsWritten, "```json" + body + "```", duration, cfg, p) == ParsedClips(p.loads([]), duration, cfg, p)
    ensures ReplyClips(FenceCorrected, "```json" + body + "```", duration, cfg, p) == ParsedClips(p.loads(body), duration, cfg, p)
  {
    var fenced := "```json" + body + "```";
    assert fenced[0] == '`' && fenced[|fenced| - 1] == '`';
    StripUnchanged(fenced);
    CodeFenceRecovered(body);
  }

  /** As written, a fenced reply goes to the heuristic whenever
      json.loads("") raises, as it does in Python, whatever the body. */
  lemma FencedReplyIgnored(body: string, duration: real, cfg: Config, p: Parsers)
    requires '`' !in body && p.loads([]) == None
    requires duration >= 0.0 && ValidConfig(cfg)
    ensures AiDetection(FenceAsWritten, Some("```json" + body + "```"), duration, cfg, p) == HeuristicClips(duration, cfg)
  {
    FencedReply(body, duration, cfg, p);
  }

  /** A successful reply never yields more clips than max_clips_per_video. */
  lemma ReplyClipsBounded(fence: Fence, reply: string, duration: real, cfg: Config, p: Parsers)
    requires ReplyClips(fence, reply, duration, cfg, p).Some? && cfg.maxClipsPerVideo >= 0
    ensures |ReplyClips(fence, reply, duration, cfg, p).value| <= cfg.maxClipsPerVideo
  {
    var v := p.loads(RemoveFence(fence, Strip(reply))).value;
    var entries := if v.JArr? then v.items else [v];
    ValidatedSpec(SliceTo(entries, cfg.maxClipsPerVideo), duration, cfg, p);
  }

  /** A parsed reply that is a single valid dict rather than a list is
      wrapped and kept on its own. */
  lemma SingleObjectReply(fence: Fence, reply: string, duration: real, cfg: Config, p: Parsers, m: ClipInfo)
    requires p.loads(RemoveFence(fence, Strip(reply))) == Some(JObj(m))
    requires FloatWithin(m, duration, cfg.minDuration, p) && cfg.maxClipsPerVideo >= 1
    ensures ReplyClips(fence, reply, duration, cfg, p) == Some([m])
  {
    var entries := [JObj(m)];
    assert SliceTo(entries, cfg.maxClipsPerVideo) == entries;
    assert entries[..0] == [];
    assert Examine(entries[0], duration, cfg, p) == Keep(m);
    assert Validated(entries[..0], duration, cfg, p) == Some([]);
    assert entries[|entries| - 1] == JObj(m);
    assert [] + [m] == [m];
  }

  /** The AI detector's clips all carry times in range, whichever way it
      went (a non-negative buffer keeps the heuristic ones in range). */
  lemma AiDetectionWithin(fence: Fence, reply: Option<string>, duration: real, cfg: Config, p: Parsers)
    requires duration >= 0.0 && ValidConfig(cfg) && cfg.bufferSeconds >= 0.0
    ensures forall c :: c in AiDetection(fence, reply, duration, cfg, p) ==> FloatWithin(c, duration, cfg.minDuration, p)
  {
    HeuristicBounds(duration, cfg);
    if reply.Some? && ReplyClips(fence, reply.value, duration, cfg, p).Some? {
      var v := p.loads(RemoveFence(fence, Strip(reply.value))).value;
      var entries := if v.JArr? then v.items else [v];
      ValidatedSpec(SliceTo(entries, cfg.maxClipsPerVideo), duration, cfg, p);
    }
  }

  method AiClipDetection(fence: Fence, cfg: Config, p: Parsers, reply: Option<string>, duration: real) returns (clips: seq<ClipInfo>)
    requires duration >= 0.0 && ValidConfig(cfg)
    ensures clips == AiDetection(fence, reply, duration, cfg, p)
  {
    if reply.None? {
      clips := HeuristicClipDetection(cfg, duration);
      return;
    }
    var content := RemoveFence(fence, Strip(reply.value));
    var parsed := p.loads(content);
    assert ReplyClips(fence, reply.value, duration, cfg, p) == ParsedClips(parsed, duration, cfg, p);
    if parsed.None? {
      clips := HeuristicClipDetection(cfg, duration);
      return;
    }
    var clipsData := if parsed.value.JArr? then parsed.value.items else [parsed.value];
    var validClips := ValidateClips(SliceTo(clipsData, cfg.maxClipsPerVideo), duration, cfg, p);
    if validClips.None? {
      clips := HeuristicClipDetection(cfg, duration);
    } else {
      clips := validClips.value;
    }
  }

  /** The validation loop at clip_generator.py:170-176; None when an
      entry raises. */
  method ValidateClips(examined: seq<Json>, duration: real, cfg: Config, p: Parsers) returns (valid: Option<seq<ClipInfo>>)
    ensures valid == Validated(examined, duration, cfg, p)
  {
    var validClips: seq<ClipInfo> := [];
    for i := 0 to |examined|
      invariant Validated(examined[..i], duration, cfg, p) == Some(validClips)
    {
      assert examined[..i + 1][..i] == examined[..i];
      match Examine(examined[i], duration, cfg, p)
      case Raises =>
        ValidatedSpec(examined, duration, cfg, p);
        return None;
      case Skip =>
      case Keep(c) =>
        validClips := validClips + [c];
    }
    assert examined[..|examined|] == examined;
    valid := Some(validClips);
  }

  // ---------------------------------------------------------------------
  // Detector dispatch (find_engaging_clips_ai)
  // ---------------------------------------------------------------------

  /** The AI path runs only with a client and a non-empty transcript. */
  function FindEngagingClips(fence: Fence, cfg: Config, p: Parsers, duration: real, transcript: Option<string>, reply: Option<string>): seq<ClipInfo>
    requires duration >= 0.0 && ValidConfig(cfg)
  {
    if cfg.aiClient && transcript.Some? && transcript.value != [] then AiDetection(fence, reply, duration, cfg, p)
    else HeuristicClips(duration, cfg)
  }

  /** find_engaging_clips_ai: None when opening the video to read its
      duration raises; otherwise the AI path with a client and a non-empty
      transcript, the heuristic otherwise. */
  method FindEngagingClipsAi(fence: Fence, cfg: Config, p: Parsers, duration: Option<real>,
                             transcript: Option<string>, reply: Option<string>)
    returns (clips: Option<seq<ClipInfo>>)
    requires ValidConfig(cfg) && (duration.Some? ==> duration.value >= 0.0)
    ensures clips.None? <==> duration.None?
    ensures duration.Some? ==> clips == Some(FindEngagingClips(fence, cfg, p, duration.value, transcript, reply))
  {
    if duration.None? {
      return None;
    }
    var found: seq<ClipInfo>;
    if cfg.aiClient && transcript.Some? && transcript.value != [] {
      found := AiClipDetection(fence, cfg, p, reply, duration.value);
    } else {
      found := HeuristicClipDetection(cfg, duration.value);
    }
    clips := Some(found);
  }

  /** Every detected clip has both time keys, so the render loops can read
      them. */
  lemma DetectedClipsHaveTimes(fence: Fence, cfg: Config, p: Parsers, duration: real, transcript: Option<string>, reply: Option<string>)
    requires duration >= 0.0 && ValidConfig(cfg)
    ensures forall c :: c in FindEngagingClips(fence, cfg, p, duration, transcript, reply) ==> HasTimes(c)
  {
    var h := HeuristicClips(duration, cfg);
    HeuristicShape(duration, cfg);
    assert forall j :: 0 <= j < |h| ==> HasTimes(h[j]);
    if reply.Some? && ReplyClips(fence, reply.value, duration, cfg, p).Some? {
      var v := p.loads(RemoveFence(fence, Strip(reply.value))).value;
      var entries := if v.JArr? then v.items else [v];
      ValidatedSpec(SliceTo(entries, cfg.maxClipsPerVideo), duration, cfg, p);
    }
  }

  /** With a non-negative buffer every detected clip, from either detector,
      lies inside the video, in order, at least min_duration long. */
  lemma DetectedClipsWithin(fence: Fence, cfg: Config, p: Parsers, duration: real, transcript: Option<string>, reply: Option<string>)
    requires duration >= 0.0 && ValidConfig(cfg) && cfg.bufferSeconds >= 0.0
    ensures forall c :: c in FindEngagingClips(fence, cfg, p, duration, transcript, reply) ==> FloatWithin(c, duration, cfg.minDuration, p)
  {
    AiDetectionWithin(fence, reply, duration, cfg, p);
    HeuristicBounds(duration, cfg);
  }

  // ---------------------------------------------------------------------
  // Transcript cleanup (get_video_transcript)
  // ---------------------------------------------------------------------

  /** A subtitle line survives unless it is empty, starts with "<",
      holds a "-->" timing arrow, or is a cue number. */
  predicate KeepsLine(line: string) {
    line != [] && !StartsWith(line, "<") && !Contains(line, "-->") && !IsDigits(Strip(line))
  }

  /** The stripped surviving lines among lines, in order. */
  function CleanedLines(lines: seq<string>): seq<string> {
    if |lines| == 0 then []
    else
      var last := lines[|lines| - 1];
      CleanedLines(lines[..|lines| - 1]) + (if KeepsLine(last) then [Strip(last)] else [])
  }

  function Transcript(subtitles: string): string {
    Join(CleanedLines(Split(subtitles, '\n')), " ")
  }

  lemma {:induction false} CleanedLinesNoArrow(lines: seq<string>)
    ensures forall k :: 0 <= k < |CleanedLines(lines)| ==> !Contains(CleanedLines(lines)[k], "-->")
  {
    if |lines| > 0 {
      var last := lines[|lines| - 1];
      CleanedLinesNoArrow(lines[..|lines| - 1]);
      if KeepsLine(last) {
        StripKeepsOut(last, "-->");
      }
    }
  }

  /** Stripping a line cannot create a needle it did not hold. */
  lemma StripKeepsOut(line: string, needle: string)
    requires !Contains(line, needle)
    ensures !Contains(Strip(line), needle)
  {
    var r := Strip(line);
    var i :| 0 <= i <= |line| && OccursAt(line, r, i);
    SliceNoNeedle(line, i, i + |r|, needle);
  }

  lemma {:induction false} JoinNoArrow(parts: seq<string>)
    requires forall k :: 0 <= k < |parts| ==> !Contains(parts[k], "-->")
    ensures !Contains(Join(parts, " "), "-->")
  {
    if |parts| > 1 {
      JoinNoArrow(parts[1..]);
      SpaceJoinNoNeedle(parts[0], Join(parts[1..], " "), "-->");
    }
  }

  /** The cleaned transcript never contains a timing arrow. */
  lemma TranscriptNoArrow(subtitles: string)
    ensures !Contains(Transcript(subtitles), "-->")
  {
    CleanedLinesNoArrow(Split(subtitles, '\n'));
    JoinNoArrow(CleanedLines(Split(subtitles, '\n')));
  }

  method CleanTranscript(subtitles: string) returns (transcript: string)
    ensures transcript == Transcript(subtitles)
    ensures !Contains(transcript, "-->")
  {
    var lines := Split(subtitles, '\n');
    var transcriptLines: seq<string> := [];
    for i := 0 to |lines|
      invariant transcriptLines == CleanedLines(lines[..i])
    {
      assert lines[..i + 1][..i] == lines[..i];
      var line := lines[i];
      if line != [] && !StartsWith(line, "<") && !Contains(line, "-->") && !IsDigits(Strip(line)) {
        transcriptLines := transcriptLines + [Strip(line)];
      }
    }
    assert lines[..|lines|] == lines;
    transcript := Join(transcriptLines, " ");
    TranscriptNoArrow(subtitles);
  }

  /** get_video_transcript once the English subtitle text has been
      fetched (None when there was none or the fetch failed). */
  function VideoTranscript(subtitles: Option<string>): Option<string> {
    if subtitles.Some? then Some(Transcript(subtitles.value)) else None
  }

  // ---------------------------------------------------------------------
  // Download file name (download_video)
  // ---------------------------------------------------------------------

  /** s.rsplit(c, 1)[0]: the text before the last c, or all of s. */
  function BeforeLast(s: string, c: char): string {
    match LastIndex(s, c)
    case None => s
    case Some(i) => s[..i]
  }

  /** The file name download_video returns: a name ending in ".mp4" is
      kept, otherwise its last extension (if any) is replaced by ".mp4". */
  function NormalizeMp4(filename: string): (r: string)
    ensures EndsWith(r, ".mp4")
    ensures EndsWith(filename, ".mp4") ==> r == filename
    ensures !EndsWith(filename, ".mp4") && '.' !in filename ==> r == filename + ".mp4"
    ensures !EndsWith(filename, ".mp4") && '.' in filename ==>
      r == filename[..LastIndex(filename, '.').value] + ".mp4"
  {
    if EndsWith(filename, ".mp4") then filename else BeforeLast(filename, '.') + ".mp4"
  }

  /** Renaming twice changes nothing more. */
  lemma NormalizeMp4Idempotent(filename: string)
    ensures NormalizeMp4(NormalizeMp4(filename)) == NormalizeMp4(filename)
  {
  }

  /** download_video's result: None when the download raised. */
  function DownloadedPath(prepared: Option<string>): Option<string> {
    if prepared.Some? then Some(NormalizeMp4(prepared.value)) else None
  }

  // ---------------------------------------------------------------------
  // Crop and speed arithmetic (_resize_to_vertical, create_clip)
  // ---------------------------------------------------------------------

  /** Comparing aspect ratios is comparing cross products. */
  lemma AspectOrder(w: nat, h: nat, tw: nat, th: nat)
    requires h > 0 && th > 0
    ensures (w as real / h as real > tw as real / th as real) <==> w * th > tw * h
  {
    var a := w as real / h as real;
    var b := tw as real / th as real;
    assert a * h as real == w as real;
    assert b * th as real == tw as real;
    var k := h as real * th as real;
    assert k > 0.0;
    assert a * k == w as real * th as real;
    assert b * k == tw as real * h as real;
    assert (w * th) as real == w as real * th as real;
    assert (tw * h) as real == tw as real * h as real;
    if a > b {
      assert a * k > b * k;
    } else {
      assert a * k <= b * k;
    }
  }

  /** The centre crop _resize_to_vertical takes from a w x h frame before
      scaling to tw x th: a narrower width when the frame is wider than the
      target, a lower height otherwise. None where a division by zero
      raises. */
  function CropSize(w: nat, h: nat, tw: nat, th: nat): (r: Option<(int, int)>)
    ensures r.None? <==> h == 0 || th == 0 || (w == 0 && tw == 0)
    ensures r.Some? && w * th > tw * h ==>
      r.value.1 == h && 0 <= r.value.0 < w && r.value.0 as real * th as real <= h as real * tw as real
    ensures r.Some? && w * th <= tw * h ==>
      r.value.0 == w && 0 <= r.value.1 <= h && r.value.1 as real * tw as real <= w as real * th as real
  {
    if h == 0 || th == 0 then None
    else
      var clipAspect := w as real / h as real;
      var targetAspect := tw as real / th as real;
      AspectOrder(w, h, tw, th);
      if clipAspect > targetAspect then
        CropWidth(w, h, tw, th);
        Some(((h as real * targetAspect).Floor, h))
      else if targetAspect == 0.0 then None
      else
        CropHeight(w, h, tw, th);
        Some((w, (w as real / targetAspect).Floor))
  }

  lemma CropWidth(w: nat, h: nat, tw: nat, th: nat)
    requires h > 0 && th > 0 && w * th > tw * h
    ensures var x := (h as real * (tw as real / th as real)).Floor;
      0 <= x < w && x as real * th as real <= h as real * tw as real
  {
    var t := tw as real / th as real;
    var y := h as real * t;
    assert t >= 0.0;
    assert y >= 0.0;
    assert y * th as real == h as real * tw as real;
    assert (w * th) as real == w as real * th as real;
    assert (tw * h) as real == tw as real * h as real;
    assert y * th as real < w as real * th as real;
    assert y < w as real;
    var x := y.Floor;
    assert x as real <= y;
    assert x as real * th as real <= y * th as real;
  }

  lemma CropHeight(w: nat, h: nat, tw: nat, th: nat)
    requires h > 0 && th > 0 && tw > 0 && w * th <= tw * h
    ensures var x := (w as real / (tw as real / th as real)).Floor;
      0 <= x <= h && x as real * tw as real <= w as real * th as real
  {
    var t := tw as real / th as real;
    assert t > 0.0;
    var y := w as real / t;
    assert y >= 0.0;
    assert y * t == w as real;
    assert y * tw as real == w as real * th as real by {
      assert t * th as real == tw as real;
      calc {
        y * tw as real;
        y * (t * th as real);
        (y * t) * th as real;
        w as real * th as real;
      }
    }
    assert (w * th) as real == w as real * th as real;
    assert (tw * h) as real == tw as real * h as real;
    assert y * tw as real <= h as real * tw as real;
    assert y <= h as real;
    var x := y.Floor;
    assert x as real <= y;
    assert x as real * tw as real <= y * tw as real;
  }

  /** create_clip speeds a clip longer than the format's maximum up by
      clip / maximum, so that the result lasts exactly the maximum. */
  function SpeedFactor(clipDuration: real, maxDuration: real): (r: Option<real>)
    requires maxDuration > 0.0
    ensures r.Some? <==> clipDuration > maxDuration
    ensures r.Some? ==> r.value > 1.0 && clipDuration / r.value == maxDuration
  {
    if clipDuration > maxDuration then Some(clipDuration / maxDuration) else None
  }

  // ---------------------------------------------------------------------
  // The pipeline (process_url)
  // ---------------------------------------------------------------------

  const OutputDir: string := "output"

  /** "{video_name}_clip{i+1}_{format_type}.mp4" */
  function OutputFilename(stem: string, i: nat, format: string): string {
    stem + "_clip" + NatToString(i + 1) + "_" + format + ".mp4"
  }

  function OutputPath(filename: string): string {
    OutputDir + "/" + filename
  }

  /** Path(path).name: the text after the last "/". */
  function PathName(path: string): string {
    match LastIndex(path, '/')
    case None => path
    case Some(i) => path[i + 1..]
  }

  /** Path(path).stem: the name without its last suffix; a leading dot or
      a trailing dot does not start a suffix. */
  function PathStem(path: string): string {
    var name := PathName(path);
    match LastIndex(name, '.')
    case None => name
    case Some(i) => if 0 < i < |name| - 1 then name[..i] else name
  }

  /** Whether the render of task k (clip-major) succeeded; outcomes past the
      end of the list count as failures. */
  predicate RenderSucceeded(rendered: seq<bool>, k: nat) {
    k < |rendered| && rendered[k]
  }

  /** Paths collected for formats[..j] of clip i, whose tasks start at base. */
  function ClipPaths(stem: string, i: nat, formats: seq<string>, rendered: seq<bool>, base: nat, j: nat): seq<string>
    requires j <= |formats|
  {
    if j == 0 then []
    else ClipPaths(stem, i, formats, rendered, base, j - 1)
         + (if RenderSucceeded(rendered, base + j - 1) then [OutputPath(OutputFilename(stem, i, formats[j - 1]))] else [])
  }

  /** Paths collected for the first n clips. */
  function RenderedPaths(stem: string, n: nat, formats: seq<string>, rendered: seq<bool>): seq<string> {
    if n == 0 then []
    else RenderedPaths(stem, n - 1, formats, rendered)
         + ClipPaths(stem, n - 1, formats, rendered, (n - 1) * |formats|, |formats|)
  }

  lemma {:induction false} ClipPathsBounds(stem: string, i: nat, formats: seq<string>, rendered: seq<bool>, base: nat, j: nat)
    requires j <= |formats|
    ensures |ClipPaths(stem, i, formats, rendered, base, j)| <= j
    ensures (forall k :: base <= k < base + j ==> RenderSucceeded(rendered, k))
        ==> |ClipPaths(stem, i, formats, rendered, base, j)| == j
    ensures forall x :: x in ClipPaths(stem, i, formats, rendered, base, j) ==>
      exists f :: 0 <= f < j && x == OutputPath(OutputFilename(stem, i, formats[f])) && RenderSucceeded(rendered, base + f)
  {
    if j > 0 {
      ClipPathsBounds(stem, i, formats, rendered, base, j - 1);
    }
  }

  /** process_url returns at most one path per (clip, format) pair, each
      named after its clip and format and only for a successful render, and
      one path for every pair when every render succeeds. */
  lemma {:induction false} RenderedPathsBounds(stem: string, n: nat, formats: seq<string>, rendered: seq<bool>)
    ensures |RenderedPaths(stem, n, formats, rendered)| <= n * |formats|
    ensures (forall k :: 0 <= k < n * |formats| ==> RenderSucceeded(rendered, k))
        ==> |RenderedPaths(stem, n, formats, rendered)| == n * |formats|
    ensures forall x :: x in RenderedPaths(stem, n, formats, rendered) ==>
      exists i, f :: 0 <= i < n && 0 <= f < |formats| && x == OutputPath(OutputFilename(stem, i, formats[f]))
  {
    if n > 0 {
      var base := (n - 1) * |formats|;
      assert n * |formats| == base + |formats|;
      RenderedPathsBounds(stem, n - 1, formats, rendered);
      ClipPathsBounds(stem, n - 1, formats, rendered, base, |formats|);
      forall x | x in RenderedPaths(stem, n, formats, rendered)
        ensures exists i, f :: 0 <= i < n && 0 <= f < |formats| && x == OutputPath(OutputFilename(stem, i, formats[f]))
      {
        if x !in RenderedPaths(stem, n - 1, formats, rendered) {
          var f :| 0 <= f < |formats| && x == OutputPath(OutputFilename(stem, n - 1, formats[f])) && RenderSucceeded(rendered, base + f);
        }
      }
    }
  }

  /** The nested render loop of process_url: every clip in every format,
      clip-major, collecting the output path of each successful render. */
  method RenderClips(videoName: string, clips: seq<ClipInfo>, formats: seq<string>, rendered: seq<bool>)
    returns (outputFiles: seq<string>)
    requires forall c :: c in clips ==> HasTimes(c)
    ensures outputFiles == RenderedPaths(videoName, |clips|, formats, rendered)
  {
    outputFiles := [];
    var i := 0;
    while i < |clips|
      invariant 0 <= i <= |clips|
      invariant outputFiles == RenderedPaths(videoName, i, formats, rendered)
    {
      assert clips[i] in clips;
      var start := clips[i]["start_time"];
      var end := clips[i]["end_time"];
      var base := i * |formats|;
      var j := 0;
      while j < |formats|
        invariant 0 <= j <= |formats|
        invariant outputFiles == RenderedPaths(videoName, i, formats, rendered)
                                 + ClipPaths(videoName, i, formats, rendered, base, j)
      {
        var outputFilename := OutputFilename(videoName, i, formats[j]);
        var outputPath := OutputPath(outputFilename);
        if RenderSucceeded(rendered, base + j) {
          outputFiles := outputFiles + [outputPath];
        }
        j := j + 1;
      }
      assert RenderedPaths(videoName, i + 1, formats, rendered)
          == RenderedPaths(videoName, i, formats, rendered) + ClipPaths(videoName, i, formats, rendered, base, |formats|);
      i := i + 1;
    }
  }

  /** process_url: download, transcript, detection, then every clip in
      every format. The download yields the file name yt-dlp prepared (None
      when it raised), the transcript comes from the fetched subtitles,
      duration is the video's duration (None when opening the video
      raises, an exception process_url does not catch: the result is then
      None), the chat reply feeds the AI path, and rendered[k] is the
      outcome of the k-th create_clip call. */
  method ProcessUrl(fence: Fence, cfg: Config, p: Parsers, prepared: Option<string>, subtitles: Option<string>,
                    duration: Option<real>, reply: Option<string>, formats: seq<string>, rendered: seq<bool>)
    returns (outputFiles: Option<seq<string>>)
    requires ValidConfig(cfg) && (duration.Some? ==> duration.value >= 0.0)
    ensures prepared.None? ==> outputFiles == Some([])
    ensures prepared.Some? && duration.None? ==> outputFiles.None?
    ensures prepared.Some? && duration.Some? ==>
      var clips := FindEngagingClips(fence, cfg, p, duration.value, VideoTranscript(subtitles), reply);
      outputFiles == Some(RenderedPaths(PathStem(NormalizeMp4(prepared.value)), |clips|, formats, rendered))
  {
    var videoPath := DownloadedPath(prepared);
    if videoPath.None? {
      return Some([]);
    }
    var transcript: Option<string> := None;
    if subtitles.Some? {
      var text := CleanTranscript(subtitles.value);
      transcript := Some(text);
    }
    assert transcript == VideoTranscript(subtitles);
    var found := FindEngagingClipsAi(fence, cfg, p, duration, transcript, reply);
    if found.None? {
      return None;
    }
    var clips := found.value;
    if clips == [] {
      return Some([]);
    }
    DetectedClipsHaveTimes(fence, cfg, p, duration.value, transcript, reply);
    var videoName := PathStem(videoPath.value);
    var paths := RenderClips(videoName, clips, formats, rendered);
    outputFiles := Some(paths);
  }
}

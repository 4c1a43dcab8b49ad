/** The clip library: the SQL text and parameter list that get_clips builds,
    the rows save_clip and save_job write, and the found/not-found rule of
    delete_clip, over an abstract table in place of the SQLite file. */
module ClipLibrary {
  import opened Common

  // ---------------------------------------------------------------------
  // Query building (get_clips)
  // ---------------------------------------------------------------------

  /** A value bound to one "?" of the query. */
  datatype Param = PText(text: string) | PReal(x: real) | PInt(n: int)

  /** The filters get_clips accepts, with the page and the requested order. */
  datatype ClipQuery = ClipQuery(
    limit: int, offset: int,
    formatType: Option<string>, search: Option<string>,
    minScore: Option<real>, maxScore: Option<real>,
    dateFrom: Option<string>, dateTo: Option<string>,
    sortBy: string, sortOrder: string)

  /** The number of "?" placeholders in a query text. */
  function Placeholders(s: string): nat {
    if |s| == 0 then 0 else Placeholders(s[..|s| - 1]) + (if s[|s| - 1] == '?' then 1 else 0)
  }

  /** Python truthiness of an optional string (None and "" are false):
      the truthiness of the JSON value it stands for. */
  predicate Given(o: Option<string>) {
    Truthy(if o.Some? then JStr(o.value) else JNull)
  }

  /** SQL text written as the pieces between its "?" placeholders. */
  function Sql(pieces: seq<string>): string {
    Join(pieces, "?")
  }

  const SelectAll: string := "SELECT * FROM clips WHERE 1=1"
  const FormatSql: seq<string> := [" AND format_type = ", ""]
  const SearchSql: seq<string> := [" AND (clip_title LIKE ", " OR reason LIKE ", " OR video_title LIKE ", ")"]
  const MinScoreSql: seq<string> := [" AND engagement_score >= ", ""]
  const MaxScoreSql: seq<string> := [" AND engagement_score <= ", ""]
  const DateFromSql: seq<string> := [" AND DATE(created_at) >= ", ""]
  const DateToSql: seq<string> := [" AND DATE(created_at) <= ", ""]
  const PageSql: seq<string> := [" LIMIT ", " OFFSET ", ""]

  /** The columns a caller may sort by. */
  const SortFields: seq<string> := ["created_at", "engagement_score", "views", "downloads", "duration", "clip_title"]

  /** A filter condition's text when the filter is active, else nothing. */
  function Part(active: bool, pieces: seq<string>): string {
    if active then Sql(pieces) else []
  }

  function SearchTerm(q: ClipQuery): string
    requires Given(q.search)
  {
    "%" + q.search.value + "%"
  }

  /** The filter conditions get_clips appends, in its fixed order: format,
      search, minimum score, maximum score, first date, last date. The text
      filters are skipped when falsy, the scores only when None. */
  function FilterText(q: ClipQuery): string {
    Part(Given(q.formatType), FormatSql)
    + Part(Given(q.search), SearchSql)
    + Part(q.minScore.Some?, MinScoreSql)
    + Part(q.maxScore.Some?, MaxScoreSql)
    + Part(Given(q.dateFrom), DateFromSql)
    + Part(Given(q.dateTo), DateToSql)
  }

  // The value each filter binds when it is active.
  function FormatArgs(q: ClipQuery): seq<Param> {
    if Given(q.formatType) then [PText(q.formatType.value)] else []
  }

  function SearchArgs(q: ClipQuery): seq<Param> {
    if Given(q.search) then [PText(SearchTerm(q)), PText(SearchTerm(q)), PText(SearchTerm(q))] else []
  }

  function MinScoreArgs(q: ClipQuery): seq<Param> {
    if q.minScore.Some? then [PReal(q.minScore.value)] else []
  }

  function MaxScoreArgs(q: ClipQuery): seq<Param> {
    if q.maxScore.Some? then [PReal(q.maxScore.value)] else []
  }

  function DateFromArgs(q: ClipQuery): seq<Param> {
    if Given(q.dateFrom) then [PText(q.dateFrom.value)] else []
  }

  function DateToArgs(q: ClipQuery): seq<Param> {
    if Given(q.dateTo) then [PText(q.dateTo.value)] else []
  }

  /** The values bound to the filter conditions, in the same order. */
  function FilterArgs(q: ClipQuery): seq<Param> {
    FormatArgs(q) + SearchArgs(q) + MinScoreArgs(q) + MaxScoreArgs(q) + DateFromArgs(q) + DateToArgs(q)
  }

  /** The sort column: the requested one when whitelisted, else created_at. */
  function SortColumn(sortBy: string): (r: string)
    ensures r in SortFields
    ensures r == sortBy || r == "created_at"
    ensures sortBy in SortFields ==> r == sortBy
  {
    if sortBy in SortFields then sortBy else "created_at"
  }

  /** The sort direction: the requested text, in its own case, when its
      upper-case form is ASC or DESC, otherwise DESC. */
  function SortDirection(sortOrder: string): (r: string)
    ensures Upper(r) == "ASC" || Upper(r) == "DESC"
    ensures Upper(sortOrder) == "ASC" || Upper(sortOrder) == "DESC" ==> r == sortOrder
    ensures '?' !in r
  {
    if Upper(sortOrder) == "ASC" || Upper(sortOrder) == "DESC" then
      UpperKeepsMark(sortOrder);
      sortOrder
    else
      "DESC"
  }

  lemma UpperKeepsMark(s: string)
    requires Upper(s) == "ASC" || Upper(s) == "DESC"
    ensures '?' !in s
  {
    forall i | 0 <= i < |s|
      ensures s[i] != '?'
    {
      assert Upper(s)[i] == UpperChar(s[i]);
    }
  }

  /** " ORDER BY {sort_by} {sort_order}" */
  function OrderHead(column: string, direction: string): string {
    " ORDER BY " + column + " " + direction
  }

  /** " ORDER BY {sort_by} {sort_order} LIMIT ? OFFSET ?" */
  function OrderClause(q: ClipQuery): string {
    OrderHead(SortColumn(q.sortBy), SortDirection(q.sortOrder)) + Sql(PageSql)
  }

  /** The SQL text get_clips runs. */
  function QueryText(q: ClipQuery): string {
    SelectAll + FilterText(q) + OrderClause(q)
  }

  /** The parameters bound to it: the filters' values, then limit and offset. */
  function QueryParams(q: ClipQuery): seq<Param> {
    FilterArgs(q) + [PInt(q.limit), PInt(q.offset)]
  }

  lemma {:induction false} PlaceholdersAppend(a: string, b: string)
    ensures Placeholders(a + b) == Placeholders(a) + Placeholders(b)
  {
    if |b| > 0 {
      PlaceholdersAppend(a, b[..|b| - 1]);
      assert (a + b)[..|a + b| - 1] == a + b[..|b| - 1];
    } else {
      assert a + b == a;
    }
  }

  lemma {:induction false} NoPlaceholders(s: string)
    requires '?' !in s
    ensures Placeholders(s) == 0
  {
    if |s| > 0 {
      assert forall c :: c in s[..|s| - 1] ==> c in s;
      NoPlaceholders(s[..|s| - 1]);
    }
  }

  /** Joining n + 1 pieces free of "?" with "?" puts n placeholders. */
  lemma {:induction false} SqlHoles(pieces: seq<string>)
    requires |pieces| >= 1 && forall k :: 0 <= k < |pieces| ==> '?' !in pieces[k]
    ensures Placeholders(Sql(pieces)) == |pieces| - 1
  {
    NoPlaceholders(pieces[0]);
    if |pieces| > 1 {
      SqlHoles(pieces[1..]);
      PlaceholdersAppend(pieces[0] + "?", Sql(pieces[1..]));
      PlaceholdersAppend(pieces[0], "?");
      assert Placeholders("?") == Placeholders([]) + 1;
    }
  }

  lemma PartHoles(active: bool, pieces: seq<string>)
    requires |pieces| >= 1 && forall k :: 0 <= k < |pieces| ==> '?' !in pieces[k]
    ensures Placeholders(Part(active, pieces)) == if active then |pieces| - 1 else 0
  {
    if active {
      SqlHoles(pieces);
    } else {
      NoPlaceholders([]);
    }
  }

  lemma SixParts(a: string, b: string, c: string, d: string, e: string, f: string)
    ensures Placeholders(a + b + c + d + e + f)
         == Placeholders(a) + Placeholders(b) + Placeholders(c) + Placeholders(d) + Placeholders(e) + Placeholders(f)
  {
    PlaceholdersAppend(a, b);
    PlaceholdersAppend(a + b, c);
    PlaceholdersAppend(a + b + c, d);
    PlaceholdersAppend(a + b + c + d, e);
    PlaceholdersAppend(a + b + c + d + e, f);
  }

  // One lemma per condition keeps each literal text in a proof of its own.
  lemma FormatHoles(q: ClipQuery)
    ensures Placeholders(Part(Given(q.formatType), FormatSql)) == |FormatArgs(q)|
  {
    PartHoles(Given(q.formatType), FormatSql);
  }

  lemma SearchHoles(q: ClipQuery)
    ensures Placeholders(Part(Given(q.search), SearchSql)) == |SearchArgs(q)|
  {
    PartHoles(Given(q.search), SearchSql);
  }

  lemma MinScoreHoles(q: ClipQuery)
    ensures Placeholders(Part(q.minScore.Some?, MinScoreSql)) == |MinScoreArgs(q)|
  {
    PartHoles(q.minScore.Some?, MinScoreSql);
  }

  lemma MaxScoreHoles(q: ClipQuery)
    ensures Placeholders(Part(q.maxScore.Some?, MaxScoreSql)) == |MaxScoreArgs(q)|
  {
    PartHoles(q.maxScore.Some?, MaxScoreSql);
  }

  lemma DateFromHoles(q: ClipQuery)
    ensures Placeholders(Part(Given(q.dateFrom), DateFromSql)) == |DateFromArgs(q)|
  {
    PartHoles(Given(q.dateFrom), DateFromSql);
  }

  lemma DateToHoles(q: ClipQuery)
    ensures Placeholders(Part(Given(q.dateTo), DateToSql)) == |DateToArgs(q)|
  {
    PartHoles(Given(q.dateTo), DateToSql);
  }

  /** The filter conditions bind one value per placeholder altogether. */
  lemma FilterHoles(q: ClipQuery)
    ensures Placeholders(FilterText(q)) == |FilterArgs(q)|
  {
    FormatHoles(q);
    SearchHoles(q);
    MinScoreHoles(q);
    MaxScoreHoles(q);
    DateFromHoles(q);
    DateToHoles(q);
    SixParts(Part(Given(q.formatType), FormatSql), Part(Given(q.search), SearchSql),
             Part(q.minScore.Some?, MinScoreSql), Part(q.maxScore.Some?, MaxScoreSql),
             Part(Given(q.dateFrom), DateFromSql), Part(Given(q.dateTo), DateToSql));
  }

  lemma OrderHeadFree(column: string, direction: string)
    requires '?' !in column && '?' !in direction
    ensures '?' !in OrderHead(column, direction)
  {
  }

  lemma OrderHoles(column: string, direction: string)
    requires '?' !in column && '?' !in direction
    ensures Placeholders(OrderHead(column, direction) + Sql(PageSql)) == 2
  {
    var head := OrderHead(column, direction);
    OrderHeadFree(column, direction);
    NoPlaceholders(head);
    SqlHoles(PageSql);
    PlaceholdersAppend(head, Sql(PageSql));
  }

  /** No sortable column name holds a placeholder. */
  lemma SortColumnFree(sortBy: string)
    ensures '?' !in SortColumn(sortBy)
  {
    var c := SortColumn(sortBy);
    if c == "created_at" {
    } else if c == "engagement_score" {
    } else if c == "views" {
    } else if c == "downloads" {
    } else if c == "duration" {
    } else {
      assert c == "clip_title";
    }
  }

  lemma OrderClauseHoles(q: ClipQuery)
    ensures Placeholders(OrderClause(q)) == 2
  {
    SortColumnFree(q.sortBy);
    OrderHoles(SortColumn(q.sortBy), SortDirection(q.sortOrder));
  }

  lemma SelectAllHoles()
    ensures Placeholders(SelectAll) == 0
  {
    NoPlaceholders(SelectAll);
  }

  lemma ThreeParts(a: string, b: string, c: string)
    ensures Placeholders(a + b + c) == Placeholders(a) + Placeholders(b) + Placeholders(c)
  {
    PlaceholdersAppend(a, b);
    PlaceholdersAppend(a + b, c);
  }

  /** Every "?" of the query has exactly one parameter. */
  lemma QueryPlaceholders(q: ClipQuery)
    ensures Placeholders(QueryText(q)) == |QueryParams(q)|
  {
    FilterHoles(q);
    OrderClauseHoles(q);
    SelectAllHoles();
    ThreeParts(SelectAll, FilterText(q), OrderClause(q));
  }

  lemma AppendAssoc<T>(a: seq<T>, b: seq<T>, c: seq<T>)
    ensures a + b + c == a + (b + c)
  {
  }

  /** Regrouping the seven pieces of the query text. */
  lemma RegroupQuery(s: string, p1: string, p2: string, p3: string, p4: string, p5: string, p6: string)
    ensures s + p1 + p2 + p3 + p4 + p5 + p6 == s + (p1 + p2 + p3 + p4 + p5 + p6)
  {
  }

  /** One step of get_clips: when the filter is active, append its
      condition to the query and its values to the parameters. */
  method AddFilter(query: string, params: seq<Param>, active: bool, pieces: seq<string>, values: seq<Param>)
    returns (query': string, params': seq<Param>)
    requires !active ==> values == []
    ensures query' == query + Part(active, pieces)
    ensures params' == params + values
  {
    query', params' := query, params;
    if active {
      query' := query' + Sql(pieces);
      params' := params' + values;
    }
  }

  /** The filtering half of get_clips: the SELECT with every active
      condition appended, and the values bound so far. */
  method FilterQuery(q: ClipQuery) returns (query: string, params: seq<Param>)
    ensures query == SelectAll + FilterText(q) && params == FilterArgs(q)
  {
    query := SelectAll;
    params := [];
    query, params := AddFilter(query, params, Given(q.formatType), FormatSql, FormatArgs(q));
    assert params == FormatArgs(q);
    query, params := AddFilter(query, params, Given(q.search), SearchSql, SearchArgs(q));
    query, params := AddFilter(query, params, q.minScore.Some?, MinScoreSql, MinScoreArgs(q));
    query, params := AddFilter(query, params, q.maxScore.Some?, MaxScoreSql, MaxScoreArgs(q));
    query, params := AddFilter(query, params, Given(q.dateFrom), DateFromSql, DateFromArgs(q));
    query, params := AddFilter(query, params, Given(q.dateTo), DateToSql, DateToArgs(q));
    RegroupQuery(SelectAll, Part(Given(q.formatType), FormatSql), Part(Given(q.search), SearchSql),
                 Part(q.minScore.Some?, MinScoreSql), Part(q.maxScore.Some?, MaxScoreSql),
                 Part(Given(q.dateFrom), DateFromSql), Part(Given(q.dateTo), DateToSql));
  }

  /** get_clips up to the execution of the query: the SQL text and the
      parameter list, in step with each other. */
  method GetClipsQuery(q: ClipQuery) returns (query: string, params: seq<Param>)
    ensures query == QueryText(q) && params == QueryParams(q)
    ensures Placeholders(query) == |params|
    ensures params[|params| - 2..] == [PInt(q.limit), PInt(q.offset)]
  {
    query, params := FilterQuery(q);
    var sortBy := q.sortBy;
    if sortBy !in SortFields {
      sortBy := "created_at";
    }
    var sortOrder := q.sortOrder;
    if !(Upper(sortOrder) == "ASC" || Upper(sortOrder) == "DESC") {
      sortOrder := "DESC";
    }
    AppendAssoc(query, OrderHead(sortBy, sortOrder), Sql(PageSql));
    query := query + OrderHead(sortBy, sortOrder) + Sql(PageSql);
    params := params + [PInt(q.limit), PInt(q.offset)];
    QueryPlaceholders(q);
  }

  // ---------------------------------------------------------------------
  // Rows (save_clip, save_job, delete_clip)
  // ---------------------------------------------------------------------

  /** A dict as the web layer passes it to the library. */
  type Record = map<string, Json>

  /** dict.get(key, default) */
  function Get(data: Record, key: string, default: Json): Json {
    if key in data then data[key] else default
  }

  /** The column bound from data[key] is not NULL. */
  predicate Present(data: Record, key: string) {
    key in data && data[key] != JNull
  }

  /** A row of the clips table, holding each value as it was bound. */
  datatype ClipRow = ClipRow(
    jobId: Json, videoUrl: Json, videoTitle: Json, filename: Json, path: Json,
    thumbnail: Json, format: Json, title: Json, reason: Json,
    engagementScore: Json, startTime: Json, endTime: Json, duration: Json,
    tags: Json, createdAt: string, views: int, downloads: int)

  /** A row of the jobs table. */
  datatype JobRow = JobRow(
    rowId: nat, videoUrl: Json, status: Json, formats: Json, outputCount: Json,
    createdAt: string, completedAt: Option<string>)

  /** A value sqlite3 can bind to a "?": None, a bool, a number or a str.
      A list or a dict makes execute raise. */
  predicate Bindable(v: Json) {
    !v.JArr? && !v.JObj?
  }

  /** The value bound from data.get(key) can be bound. */
  predicate BindsAt(data: Record, key: string) {
    key !in data || Bindable(data[key])
  }

  /** Every value save_clip binds directly can be bound; the tags go
      through json.dumps first. */
  predicate ClipRecordBinds(data: Record) {
    && BindsAt(data, "job_id") && BindsAt(data, "video_url") && BindsAt(data, "video_title")
    && BindsAt(data, "filename") && BindsAt(data, "path") && BindsAt(data, "thumbnail")
    && BindsAt(data, "format") && BindsAt(data, "title") && BindsAt(data, "reason")
    && BindsAt(data, "engagement_score") && BindsAt(data, "start_time") && BindsAt(data, "end_time")
    && BindsAt(data, "duration")
  }

  /** Every value save_job binds directly can be bound; the formats go
      through json.dumps first. */
  predicate JobRecordBinds(data: Record) {
    BindsAt(data, "job_id") && BindsAt(data, "video_url") && BindsAt(data, "status") && BindsAt(data, "output_count")
  }

  /** The row save_clip inserts at time now, or None when execute raises:
      a bound value is a list or a dict, or a NOT NULL column (job id, URL,
      file name, path, format) would be NULL. A missing score is stored as
      0 and missing tags as an empty list; views and downloads start at 0. */
  function NewClipRow(data: Record, now: string): (r: Option<ClipRow>)
    ensures r.Some? <==> && ClipRecordBinds(data)
                         && Present(data, "job_id") && Present(data, "video_url") && Present(data, "filename")
                         && Present(data, "path") && Present(data, "format")
    ensures r.Some? ==> r.value.engagementScore == (if "engagement_score" in data then data["engagement_score"] else JNum(0.0))
    ensures r.Some? ==> r.value.tags == (if "tags" in data then data["tags"] else JArr([]))
    ensures r.Some? ==> r.value.views == 0 && r.value.downloads == 0 && r.value.createdAt == now
  {
    if ClipRecordBinds(data)
       && Present(data, "job_id") && Present(data, "video_url") && Present(data, "filename")
       && Present(data, "path") && Present(data, "format")
    then
      Some(ClipRow(
        data["job_id"], data["video_url"], Get(data, "video_title", JNull), data["filename"], data["path"],
        Get(data, "thumbnail", JNull), data["format"], Get(data, "title", JNull), Get(data, "reason", JNull),
        Get(data, "engagement_score", JNum(0.0)), Get(data, "start_time", JNull), Get(data, "end_time", JNull),
        Get(data, "duration", JNull), Get(data, "tags", JArr([])), now, 0, 0))
    else None
  }

  /** The row save_job writes at time now with row id rowId, or None when
      execute raises: a bound value is a list or a dict, or the job id, URL
      or status would be NULL. completed_at is set exactly when the status
      is "completed". */
  function NewJobRow(data: Record, now: string, rowId: nat): (r: Option<JobRow>)
    ensures r.Some? <==> JobRecordBinds(data) && Present(data, "job_id") && Present(data, "video_url") && Present(data, "status")
    ensures r.Some? ==> (r.value.completedAt.Some? <==> data["status"] == JStr("completed"))
    ensures r.Some? ==> r.value.formats == (if "formats" in data then data["formats"] else JArr([]))
    ensures r.Some? ==> r.value.outputCount == (if "output_count" in data then data["output_count"] else JNum(0.0))
  {
    if JobRecordBinds(data) && Present(data, "job_id") && Present(data, "video_url") && Present(data, "status") then
      Some(JobRow(
        rowId, data["video_url"], data["status"], Get(data, "formats", JArr([])), Get(data, "output_count", JNum(0.0)),
        now, if Get(data, "status", JNull) == JStr("completed") then Some(now) else None))
    else None
  }

  /** The library's two tables; ids come from AUTOINCREMENT counters and
      are never reused. */
  class Library {
    var clips: map<int, ClipRow>
    var jobs: map<Json, JobRow>
    var lastClipId: nat
    var lastJobRow: nat

    ghost predicate Valid()
      reads this
    {
      && (forall id :: id in clips ==> 0 < id <= lastClipId)
      && (forall key :: key in jobs ==> 0 < jobs[key].rowId <= lastJobRow)
    }

    constructor ()
      ensures Valid()
      ensures clips == map[] && jobs == map[] && lastClipId == 0 && lastJobRow == 0
    {
      clips := map[];
      jobs := map[];
      lastClipId := 0;
      lastJobRow := 0;
    }

    /** save_clip: insert a row and return its id, or None when the insert
        raises; the new id was never used before. */
    method SaveClip(data: Record, now: string) returns (clipId: Option<int>)
      requires Valid()
      modifies this
      ensures Valid()
      ensures jobs == old(jobs) && lastJobRow == old(lastJobRow)
      ensures NewClipRow(data, now).None? ==> clipId.None? && clips == old(clips) && lastClipId == old(lastClipId)
      ensures NewClipRow(data, now).Some? ==>
        && clipId == Some(old(lastClipId) + 1)
        && clipId.value !in old(clips)
        && lastClipId == old(lastClipId) + 1
        && clips == old(clips)[clipId.value := NewClipRow(data, now).value]
    {
      var row := NewClipRow(data, now);
      if row.None? {
        return None;
      }
      lastClipId := lastClipId + 1;
      clips := clips[lastClipId := row.value];
      clipId := Some(lastClipId);
    }

    /** save_job: INSERT OR REPLACE keyed by the unique job id, so a second
        save of the same job replaces its row (with a fresh row id and
        creation time); false when execute raises (NewJobRow is None). */
    method SaveJob(data: Record, now: string) returns (saved: bool)
      requires Valid()
      modifies this
      ensures Valid()
      ensures clips == old(clips) && lastClipId == old(lastClipId)
      ensures saved <==> NewJobRow(data, now, old(lastJobRow) + 1).Some?
      ensures !saved ==> jobs == old(jobs) && lastJobRow == old(lastJobRow)
      ensures saved ==>
        && lastJobRow == old(lastJobRow) + 1
        && jobs == old(jobs)[data["job_id"] := NewJobRow(data, now, lastJobRow).value]
    {
      var row := NewJobRow(data, now, lastJobRow + 1);
      if row.None? {
        return false;
      }
      lastJobRow := lastJobRow + 1;
      jobs := jobs[data["job_id"] := row.value];
      saved := true;
    }

    /** delete_clip: true and the row removed exactly when a row with that
        id exists; otherwise false and nothing changes. */
    method DeleteClip(clipId: int) returns (found: bool)
      requires Valid()
      modifies this
      ensures Valid()
      ensures found <==> clipId in old(clips)
      ensures clips == old(clips) - {clipId}
      ensures jobs == old(jobs) && lastClipId == old(lastClipId) && lastJobRow == old(lastJobRow)
    {
      if clipId !in clips {
        return false;
      }
      clips := clips - {clipId};
      found := true;
    }
  }
}

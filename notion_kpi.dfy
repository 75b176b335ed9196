/** `getNotionKpi`: two date-filtered queries of a task database (from the
    most recent Sunday, and from day 1 of that Sunday's month) reduced by `aggregateTime` to minute totals and a per-category
    breakdown of the week. */
module NotionKpi {
  import opened Wrappers
  import opened Http
  import opened Calendar
  import Credentials
  import Decimal

  const CompletionDateProperty: string := "完了日"
  const Uncategorized: string := "その他"
  const DatabasesUrl: string := "https://api.notion.com/v1/databases/"

  /** One result row: its `作業時間` number, already rounded to whole
      minutes, and its `カテゴリ` select name; None where either is missing
      or null. */
  datatype Task = Task(workTime: Option<int>, category: Option<string>)

  /** `作業時間?.number || 0`: a missing time counts as zero; a negative
      one is kept. */
  function Minutes(t: Task): int {
    if t.workTime.Some? then t.workTime.value else 0
  }

  /** `カテゴリ?.select?.name || 'その他'`: a missing or empty name goes to
      the uncategorized bucket. */
  function Bucket(t: Task): (b: string)
    ensures b != ""
    ensures t.category.Some? && t.category.value != "" ==> b == t.category.value
    ensures t.category.None? || t.category.value == "" ==> b == Uncategorized
  {
    if t.category.Some? && t.category.value != "" then t.category.value else Uncategorized
  }

  /** The running total after each row, rows taken in order. */
  function TotalMinutes(tasks: seq<Task>): int
    decreases |tasks|
  {
    if tasks == [] then 0 else TotalMinutes(tasks[..|tasks| - 1]) + Minutes(tasks[|tasks| - 1])
  }

  /** The total does not depend on how the rows are split: each row adds
      its own minutes, whatever came before it. */
  lemma {:induction false} TotalMinutesAppend(a: seq<Task>, b: seq<Task>)
    ensures TotalMinutes(a + b) == TotalMinutes(a) + TotalMinutes(b)
    decreases |b|
  {
    if b == [] {
      assert a + b == a;
    } else {
      var b' := b[..|b| - 1];
      assert (a + b)[..|a + b| - 1] == a + b';
      TotalMinutesAppend(a, b');
    }
  }

  /** `m[k] = (m[k] || 0) + mins`. */
  function AddTo(m: map<string, int>, k: string, mins: int): map<string, int> {
    m[k := (if k in m then m[k] else 0) + mins]
  }

  /** The category map after each row, rows taken in order. */
  function CategoryMinutes(tasks: seq<Task>): map<string, int>
    decreases |tasks|
  {
    if tasks == [] then map[]
    else
      var last := tasks[|tasks| - 1];
      AddTo(CategoryMinutes(tasks[..|tasks| - 1]), Bucket(last), Minutes(last))
  }

  /** The minutes of the rows in bucket `k`. */
  function BucketTotal(tasks: seq<Task>, k: string): int
    decreases |tasks|
  {
    if tasks == [] then 0
    else
      var last := tasks[|tasks| - 1];
      BucketTotal(tasks[..|tasks| - 1], k) + if Bucket(last) == k then Minutes(last) else 0
  }

  /** The sum of the values of a map, in no particular key order. */
  ghost function SumValues(m: map<string, int>): int
    decreases |m|
  {
    if m == map[] then 0
    else
      var k :| k in m;
      m[k] + SumValues(m - {k})
  }

  /** SumValues may start from any key. */
  lemma {:induction false} SumValuesRemove(m: map<string, int>, k: string)
    requires k in m
    ensures SumValues(m) == m[k] + SumValues(m - {k})
    decreases |m|
  {
    var j :| j in m && SumValues(m) == m[j] + SumValues(m - {j});
    if j != k {
      SumValuesRemove(m - {j}, k);
      SumValuesRemove(m - {k}, j);
      assert m - {j} - {k} == m - {k} - {j};
    }
  }

  lemma SumValuesAddTo(m: map<string, int>, k: string, mins: int)
    ensures SumValues(AddTo(m, k, mins)) == SumValues(m) + mins
  {
    var m' := AddTo(m, k, mins);
    SumValuesRemove(m', k);
    if k in m {
      SumValuesRemove(m, k);
      assert m' - {k} == m - {k};
    } else {
      assert m' - {k} == m;
    }
  }

  /** The category map has a key for exactly the buckets that occur, each
      holding the minutes of that bucket's rows. */
  lemma {:induction false} CategoryMinutesByBucket(tasks: seq<Task>, k: string)
    ensures k in CategoryMinutes(tasks) <==> exists i :: 0 <= i < |tasks| && Bucket(tasks[i]) == k
    ensures k in CategoryMinutes(tasks) ==> CategoryMinutes(tasks)[k] == BucketTotal(tasks, k)
    ensures k !in CategoryMinutes(tasks) ==> BucketTotal(tasks, k) == 0
    decreases |tasks|
  {
    if tasks != [] {
      var init := tasks[..|tasks| - 1];
      CategoryMinutesByBucket(init, k);
      if exists i :: 0 <= i < |init| && Bucket(init[i]) == k {
        var i :| 0 <= i < |init| && Bucket(init[i]) == k;
        assert tasks[i] == init[i];
      }
      if exists i :: 0 <= i < |tasks| && Bucket(tasks[i]) == k {
        var i :| 0 <= i < |tasks| && Bucket(tasks[i]) == k;
        if i < |init| {
          assert init[i] == tasks[i];
        }
      }
    }
  }

  /** The category values add up to the total. */
  lemma {:induction false} CategorySumIsTotal(tasks: seq<Task>)
    ensures SumValues(CategoryMinutes(tasks)) == TotalMinutes(tasks)
    decreases |tasks|
  {
    if tasks != [] {
      var init, last := tasks[..|tasks| - 1], tasks[|tasks| - 1];
      CategorySumIsTotal(init);
      SumValuesAddTo(CategoryMinutes(init), Bucket(last), Minutes(last));
    }
  }

  /** `aggregateTime`: one pass over the rows that adds each row's minutes to
      the total and to its bucket. */
  method AggregateTime(tasks: seq<Task>) returns (totalMins: int, categoryWeekMins: map<string, int>)
    ensures totalMins == TotalMinutes(tasks) && categoryWeekMins == CategoryMinutes(tasks)
    ensures SumValues(categoryWeekMins) == totalMins
    ensures forall k :: k in categoryWeekMins ==> categoryWeekMins[k] == BucketTotal(tasks, k)
    ensures tasks == [] ==> totalMins == 0 && categoryWeekMins == map[]
  {
    totalMins := 0;
    categoryWeekMins := map[];
    for i := 0 to |tasks|
      invariant totalMins == TotalMinutes(tasks[..i])
      invariant categoryWeekMins == CategoryMinutes(tasks[..i])
    {
      assert tasks[..i + 1][..i] == tasks[..i];
      var task := tasks[i];
      var timeProperty := if task.workTime.Some? then task.workTime.value else 0;
      var categoryName := if task.category.Some? && task.category.value != "" then task.category.value else Uncategorized;
      var mins := timeProperty;
      totalMins := totalMins + mins;
      var previous := if categoryName in categoryWeekMins then categoryWeekMins[categoryName] else 0;
      categoryWeekMins := categoryWeekMins[categoryName := previous + mins];
    }
    assert tasks[..|tasks|] == tasks;
    CategorySumIsTotal(tasks);
    forall k | k in categoryWeekMins ensures categoryWeekMins[k] == BucketTotal(tasks, k) {
      CategoryMinutesByBucket(tasks, k);
    }
  }

  /** The filter both queries start from; each overwrites its `date`. */
  const FilterBase: QueryFilter := QueryFilter(CompletionDateProperty, IsNotEmpty)

  /** Rows completed on or after the most recent Sunday. */
  function WeekFilter(today: Date): (f: QueryFilter)
    ensures f.property == CompletionDateProperty && f.date.OnOrAfter?
    ensures Weekday(f.date.date) == 0
    ensures DayNumber(today) - 6 <= DayNumber(f.date.date) <= DayNumber(today)
  {
    WeekStartIsMostRecentSunday(today);
    FilterBase.(date := OnOrAfter(WeekStart(today)))
  }

  /** Rows completed on or after day 1 of the week start's month. */
  function MonthFilter(today: Date): (f: QueryFilter)
    ensures f.property == CompletionDateProperty && f.date.OnOrAfter?
    ensures var w := WeekFilter(today).date.date;
      f.date.date.day == 1 && f.date.date.year == w.year && f.date.date.month == w.month
      && DayNumber(f.date.date) <= DayNumber(w)
  {
    FilterBase.(date := OnOrAfter(MonthStart(WeekStart(today))))
  }

  /** A query: a POST with the Bearer credential, the version header and the
      JSON content type, carrying the filter. */
  function QueryCall(dataSourceId: Option<string>, token: string, filter: QueryFilter): (c: Call)
    ensures c.httpMethod == Some("POST") && c.payload == FilterQuery(filter) && !FetchRefuses(c)
    ensures c.url == DatabasesUrl + Interpolate(dataSourceId) + "/query"
  {
    Call(Some("POST"), DatabasesUrl + Interpolate(dataSourceId) + "/query",
         map["Authorization" := Credentials.BearerValue(token),
             "Notion-Version" := Credentials.NotionVersion,
             "Content-Type" := Credentials.JsonContentType],
         FilterQuery(filter))
  }

  function QueryError(status: int): string {
    "KPI Query failed: " + Decimal.IntToString(status)
  }

  /** `fetchTasks` after its call: the rows, or the message it throws. */
  function FetchTasks(response: Fetched<seq<Task>>): (r: Result<seq<Task>, string>)
    ensures r.Ok? <==> response.Responded? && IsOk(response.status) && response.json.Ok?
    ensures r.Ok? ==> r.value == response.json.value
    ensures response.Responded? && !IsOk(response.status) ==> r == Err(QueryError(response.status))
  {
    match response
    case Threw(message) => Err(message)
    case Responded(status, _, json) =>
      if !IsOk(status) then Err(QueryError(status))
      else match json
        case Err(message) => Err(message)
        case Ok(tasks) => Ok(tasks)
  }

  datatype Kpi = Kpi(totalWeekMins: int, totalMonthMins: int, categoryWeekMins: map<string, int>)

  /** Both queries are issued; the result needs both, and takes the week's
      total and breakdown and the month's total. */
  function GetNotionKpi(dataSourceId: Option<string>, token: string, today: Date,
                        week: Fetched<seq<Task>>, month: Fetched<seq<Task>>): (r: Run<Kpi>)
    ensures r.calls == [QueryCall(dataSourceId, token, WeekFilter(today)),
                        QueryCall(dataSourceId, token, MonthFilter(today))]
    ensures r.result.Ok? <==> FetchTasks(week).Ok? && FetchTasks(month).Ok?
    ensures r.result.Ok? ==>
      var kpi := r.result.value;
      && kpi.totalWeekMins == TotalMinutes(FetchTasks(week).value)
      && kpi.totalMonthMins == TotalMinutes(FetchTasks(month).value)
      && kpi.categoryWeekMins == CategoryMinutes(FetchTasks(week).value)
      && SumValues(kpi.categoryWeekMins) == kpi.totalWeekMins
  {
    var calls := [QueryCall(dataSourceId, token, WeekFilter(today)),
                  QueryCall(dataSourceId, token, MonthFilter(today))];
    var result :=
      match FetchTasks(week)
      case Err(message) => Err(message)
      case Ok(tasksWeek) =>
        match FetchTasks(month)
        case Err(message) => Err(message)
        case Ok(tasksMonth) =>
          (CategorySumIsTotal(tasksWeek);
           Ok(Kpi(TotalMinutes(tasksWeek), TotalMinutes(tasksMonth), CategoryMinutes(tasksWeek))));
    Run(calls, result)
  }

  /** Both filters target the completion date with `on_or_after`: the
      spread replaces the base's `is_not_empty`. */
  lemma FiltersAreOnOrAfter(today: Date)
    ensures WeekFilter(today) == QueryFilter("完了日", OnOrAfter(WeekStart(today)))
    ensures MonthFilter(today) == QueryFilter("完了日", OnOrAfter(CalendarDate(WeekStart(today).year, WeekStart(today).month, 1)))
  {
  }

  /** The query headers are those the relay builds for a document-service
      token. */
  lemma QueryHeadersAreNotionHeaders(dataSourceId: Option<string>, token: string, filter: QueryFilter)
    ensures Some(QueryCall(dataSourceId, token, filter).headers)
            == Credentials.OutboundHeaders(Some(Credentials.NotionTokenKey), token)
  {
    var h := QueryCall(dataSourceId, token, filter).headers;
    var o := Credentials.OutboundHeaders(Some(Credentials.NotionTokenKey), token).value;
    assert h.Keys == o.Keys;
    assert forall k :: k in h ==> h[k] == o[k];
    assert h == o;
  }

  /** Rows are not filtered by the sign of their minutes: a negative time
      lowers the total, and a zero time still creates its category key. */
  lemma NonPositiveMinutesCounted()
    ensures TotalMinutes([Task(Some(30), Some("dev")), Task(Some(-5), None)]) == 25
    ensures CategoryMinutes([Task(Some(0), Some("design"))]) == map["design" := 0]
    ensures TotalMinutes([Task(None, Some("dev"))]) == 0
    ensures CategoryMinutes([Task(None, None)]) == map[Uncategorized := 0]
  {
    assert [Task(None, Some("dev"))][..0] == [];
    assert [Task(None, None)][..0] == [];
    var ts := [Task(Some(30), Some("dev")), Task(Some(-5), None)];
    assert ts[..1] == [Task(Some(30), Some("dev"))];
    var one := [Task(Some(0), Some("design"))];
    assert one[..0] == [];
  }

  /** One week row `(30, dev)` in both windows gives 30, 30 and {dev: 30}. */
  lemma OneRowExample(ds: Option<string>, token: string, today: Date)
    ensures var rows := [Task(Some(30), Some("dev"))];
      GetNotionKpi(ds, token, today, Responded(200, "", Ok(rows)), Responded(200, "", Ok(rows))).result
      == Ok(Kpi(30, 30, map["dev" := 30]))
  {
    var rows := [Task(Some(30), Some("dev"))];
    assert rows[..0] == [];
  }
}

/** ozpcenter/tasks.py: the import task run by the scheduler. It fetches the
    store's payload over HTTP, runs the import service on it and records
    the outcome as `ImportTaskResult` rows. The HTTP request is a function
    parameter; the scheduler and e-mail tasks are not part of this model. */
module Tasks {
  import opened Wrappers
  import opened Exceptions
  import opened Json
  import opened Text
  import Store
  import ImportService

  /** `ImportTaskResult.RESULT_PASS` and `RESULT_FAIL`. */
  datatype Status = Pass | Fail

  /** One `ImportTaskResult` row: the task it belongs to, its result and its
      message. The run date is not modelled. */
  datatype TaskResult = TaskResult(importTask: int, result: Status, message: string)

  /** What `requests.get` returns: the status code and the decoded body. */
  datatype Response = Response(statusCode: int, body: Json)

  /** The stored `ImportTask` fields the run reads. */
  datatype TaskRow = TaskRow(url: Option<string>, extraUrlParams: Option<string>, affiliatedStore: nat)

  const NoTaskMessage: string := "ImportTask matching query does not exist."
  const StatusMessage: string := "Connection Error: Expected status code 200, but received "
  const EmptyMessage: string := "Empty Result"
  const SuccessMessage: string := "Import Successful"
  const ErrorsPrefix: string := "Errors Found: "
  const ExceptionPrefix: string := "Exception(Import Task): Task_ID: "

  /** Python's `if url_params:` on a nullable string. */
  predicate Given(params: Option<string>) {
    params.Some? && params.value != ""
  }

  /** The URL handed to `requests.get`: the task's URL, with the extra
      parameters appended only when there are any. A missing URL with
      parameters is `None + str`, a TypeError. */
  function RequestUrl(url: Option<string>, params: Option<string>): (r: Result<Option<string>, Exception>)
    ensures !Given(params) ==> r == Ok(url)
    ensures Given(params) && url.Some? ==>
              r.Ok? && r.value.Some? && StartsWith(r.value.value, url.value)
              && r.value.value[|url.value|..] == params.value
    ensures r.Err? <==> Given(params) && url.None?
  {
    if Given(params) then
      if url.Some? then Ok(Some(url.value + params.value))
      else Err(TypeError("unsupported operand type(s) for +: 'NoneType' and 'str'"))
    else Ok(url)
  }

  /** `get_import_data`: the response of `get` on the request URL when its
      status is 200; any other status raises ConnectionError naming it. */
  function GetImportData(task: TaskRow, get: Option<string> -> Result<Response, Exception>): (r: Result<Response, Exception>)
    ensures r.Ok? <==>
              && RequestUrl(task.url, task.extraUrlParams).Ok?
              && get(RequestUrl(task.url, task.extraUrlParams).value).Ok?
              && get(RequestUrl(task.url, task.extraUrlParams).value).value.statusCode == 200
    ensures r.Ok? ==> r == get(RequestUrl(task.url, task.extraUrlParams).value)
    ensures RequestUrl(task.url, task.extraUrlParams).Ok? ==>
              var response := get(RequestUrl(task.url, task.extraUrlParams).value);
              response.Ok? && response.value.statusCode != 200 ==>
                r == Err(ConnectionError(StatusMessage + IntToString(response.value.statusCode)))
  {
    match RequestUrl(task.url, task.extraUrlParams)
    case Err(e) => Err(e)
    case Ok(url) =>
      match get(url)
      case Err(e) => Err(e)
      case Ok(response) =>
        if response.statusCode != 200 then
          Err(ConnectionError(StatusMessage + IntToString(response.statusCode)))
        else Ok(response)
  }

  /** `str(e)`: a KeyError shows its key quoted, the others their message. */
  function ExceptionText(e: Exception): string {
    match e
    case KeyError(key) => "'" + key + "'"
    case TypeError(m) => m
    case AttributeError(m) => m
    case AssertionError(m) => m
    case ValueError(m) => m
    case ConnectionError(m) => m
    case DoesNotExist(m) => m
    case ValidationError(m) => m
  }

  /** `all(value == [] for value in result.values())`: every result list and
      the error list are empty. */
  predicate EmptyResult(res: ImportService.RunResult) {
    res.errors == [] && forall i :: 0 <= i < |res.lists| ==> res.lists[i].1 == []
  }

  /** True when `part` occurs in `s` starting at position `i`. */
  predicate OccursAt(s: string, part: string, i: int) {
    0 <= i <= |s| - |part| && s[i..i + |part|] == part
  }

  /** True when `part` occurs in `s` at some position. */
  predicate Contains(s: string, part: string) {
    exists i :: 0 <= i <= |s| && OccursAt(s, part, i)
  }

  /** The rows `run_import_task` creates for an outcome of the fetch and the
      import, in order; `show` renders the error list as `%s` does. An empty
      import records two passes, an import with errors exactly one failure,
      an exception exactly one failure naming the task. */
  function Records(taskId: int, outcome: Result<ImportService.RunResult, Exception>,
                   show: seq<ImportService.ImportError> -> string): (rs: seq<TaskResult>)
    ensures 1 <= |rs| <= 2
    ensures forall i :: 0 <= i < |rs| ==> rs[i].importTask == taskId
    ensures (forall i :: 0 <= i < |rs| ==> rs[i].result == Pass) <==> outcome.Ok? && outcome.value.errors == []
    ensures rs[|rs| - 1].result == Pass <==> outcome.Ok? && outcome.value.errors == []
    ensures |rs| == 2 <==> outcome.Ok? && EmptyResult(outcome.value)
    ensures outcome.Ok? && EmptyResult(outcome.value) ==>
              rs == [TaskResult(taskId, Pass, EmptyMessage), TaskResult(taskId, Pass, SuccessMessage)]
    ensures outcome.Ok? && outcome.value.errors != [] ==>
              |rs| == 1 && rs[0].result == Fail && StartsWith(rs[0].message, ErrorsPrefix)
    ensures outcome.Err? ==>
              |rs| == 1 && rs[0].result == Fail && Contains(rs[0].message, IntToString(taskId))
  {
    match outcome
    case Err(e) =>
      var message := ExceptionPrefix + IntToString(taskId) + " Exception: " + ExceptionText(e);
      assert OccursAt(message, IntToString(taskId), |ExceptionPrefix|);
      [TaskResult(taskId, Fail, message)]
    case Ok(res) =>
      var last := if res.errors == [] then TaskResult(taskId, Pass, SuccessMessage)
                  else TaskResult(taskId, Fail, ErrorsPrefix + show(res.errors));
      var rs := (if EmptyResult(res) then [TaskResult(taskId, Pass, EmptyMessage)] else []) + [last];
      assert rs[|rs| - 1] == last;
      rs
  }

  /** The `ImportTaskResult` table and the `last_run_result` link of each
      stored import task. */
  class TaskResults {
    var results: seq<TaskResult>
    /** `ImportTask.last_run_result` by task id: the index of a row of
        `results`, or None. */
    var lastRunResult: map<int, Option<nat>>

    constructor (taskIds: set<int>)
      ensures results == [] && lastRunResult == map id | id in taskIds :: None
    {
      results := [];
      lastRunResult := map id | id in taskIds :: None;
    }

    /** `create_result`: appends the row and points the task's
        `last_run_result` at it (a task that is not stored is not updated). */
    method CreateResult(taskId: int, result: Status, message: string)
      modifies this
      ensures results == old(results) + [TaskResult(taskId, result, message)]
      ensures lastRunResult ==
                if taskId in old(lastRunResult) then old(lastRunResult)[taskId := Some(|old(results)|)]
                else old(lastRunResult)
    {
      results := results + [TaskResult(taskId, result, message)];
      if taskId in lastRunResult {
        lastRunResult := lastRunResult[taskId := Some(|results| - 1)];
      }
    }

    /** The rows `run_import_task` creates for `outcome`, one
        `create_result` per branch taken. */
    method RecordOutcome(taskId: int, outcome: Result<ImportService.RunResult, Exception>,
                         show: seq<ImportService.ImportError> -> string)
      modifies this
      ensures results == old(results) + Records(taskId, outcome, show)
      ensures taskId in old(lastRunResult) ==>
                lastRunResult == old(lastRunResult)[taskId := Some(|results| - 1)]
      ensures taskId !in old(lastRunResult) ==> lastRunResult == old(lastRunResult)
    {
      match outcome
      case Err(e) =>
        CreateResult(taskId, Fail, ExceptionPrefix + IntToString(taskId) + " Exception: " + ExceptionText(e));
      case Ok(res) =>
        if EmptyResult(res) {
          CreateResult(taskId, Pass, EmptyMessage);
        }
        if res.errors == [] {
          CreateResult(taskId, Pass, SuccessMessage);
        } else {
          CreateResult(taskId, Fail, ErrorsPrefix + show(res.errors));
        }
    }

    /** `run_import_task`: looks the task up, fetches and imports its
        payload, and records the outcome, which is also returned. A stored
        task ends up linked to the last row created, which is a pass
        exactly when the import completed without errors. */
    method RunImportTask(taskId: int, task: Option<TaskRow>, get: Option<string> -> Result<Response, Exception>,
                         show: seq<ImportService.ImportError> -> string, db: Store.Database, now: int)
      returns (outcome: Result<ImportService.RunResult, Exception>)
      modifies this, db`tables
      ensures results == old(results) + Records(taskId, outcome, show)
      ensures taskId in old(lastRunResult) ==>
                lastRunResult == old(lastRunResult)[taskId := Some(|results| - 1)]
      ensures taskId !in old(lastRunResult) ==> lastRunResult == old(lastRunResult)
      ensures task.None? ==> outcome == Err(DoesNotExist(NoTaskMessage))
      ensures task.Some? && GetImportData(task.value, get).Err? ==> outcome == Err(GetImportData(task.value, get).error)
      ensures outcome.Ok? ==> task.Some? && GetImportData(task.value, get).Ok?
      ensures outcome.Ok? ==> ImportService.ListsStamped(outcome.value.lists, db.tables, task.value.affiliatedStore, now)
    {
      if task.None? {
        outcome := Err(DoesNotExist(NoTaskMessage));
      } else {
        outcome := Import(task.value, get, db, now);
      }
      RecordOutcome(taskId, outcome, show);
    }
  }

  /** The `try` block of `run_import_task` up to the import: fetch the
      task's payload and run the import service on it for the task's store
      at time `now`. */
  method Import(task: TaskRow, get: Option<string> -> Result<Response, Exception>, db: Store.Database, now: int)
    returns (outcome: Result<ImportService.RunResult, Exception>)
    modifies db`tables
    ensures GetImportData(task, get).Err? ==> outcome == Err(GetImportData(task, get).error)
    ensures outcome.Ok? ==> GetImportData(task, get).Ok?
    ensures outcome.Ok? ==> ImportService.ListsStamped(outcome.value.lists, db.tables, task.affiliatedStore, now)
  {
    var fetched := GetImportData(task, get);
    if fetched.Err? {
      return Err(fetched.error);
    }
    var service := new ImportService.ImportTask(fetched.value.body, task.affiliatedStore, db, None, now);
    outcome := service.Run();
  }
}

/**
  The ClickUp Custom node's `execute` for the `task` resource: `create` builds
  the task body from the name and the optional fields (the custom-field list
  first) and posts it; `setCustomField` collects the same custom-field list and
  posts each field on its own, without its id.
 */
module ClickUpCustom {
  import opened Wrappers
  import opened Json
  import Batch

  /** One row of a custom-field collection: the chosen field and its value. */
  datatype FieldEntry = FieldEntry(fieldId: string, fieldValue: string)

  /**
    The `customFieldsText` and `customFieldsOptions` collections (their
    `values` rows; an absent or empty collection has none).
   */
  datatype CustomFieldCollections = CustomFieldCollections(texts: seq<FieldEntry>, options: seq<FieldEntry>)

  /** The `additionalFields` collection; an absent key is `None`. */
  datatype AdditionalFields = AdditionalFields(
    isDateTime: Option<bool>,
    customFields: CustomFieldCollections,
    content: Option<string>,
    assignees: Option<seq<string>>,
    tags: Option<seq<string>>,
    status: Option<string>,
    priority: Option<int>,
    dueDate: Option<string>,
    dueDateTime: Option<bool>,
    timeEstimate: Option<int>,
    startDate: Option<string>,
    startDateTime: Option<bool>,
    notifyAll: Option<bool>,
    parentId: Option<string>,
    markdownContent: Option<bool>)

  // JavaScript truthiness of the optional values (an array, even an empty one, is truthy)
  predicate TruthyString(o: Option<string>) { o.Some? && o.value != "" }
  predicate TruthyNumber(o: Option<int>) { o.Some? && o.value != 0 }
  predicate TruthyFlag(o: Option<bool>) { o == Some(true) }

  /** `isDateTime` starts false and takes the option's value when that is truthy. */
  function IsDateTime(a: AdditionalFields): bool
  {
    TruthyFlag(a.isDateTime)
  }

  /** An entry of the custom-field list: `{id, value}`, and `value_options = {time: true}` when `timeOption`. */
  datatype CustomField = CustomField(id: string, value: string, timeOption: bool)

  function FieldObject(f: CustomField): map<string, Json>
  {
    var entry := map["id" := Str(f.id), "value" := Str(f.value)];
    if f.timeOption then entry["value_options" := Obj(map["time" := Bool(true)])] else entry
  }

  /** The custom-field list: every text row, then every option row; only text rows carry the date-time flag. */
  function CustomFields(cols: CustomFieldCollections, isDateTime: bool): seq<CustomField>
  {
    seq(|cols.texts|, i requires 0 <= i < |cols.texts| => CustomField(cols.texts[i].fieldId, cols.texts[i].fieldValue, isDateTime))
    + seq(|cols.options|, j requires 0 <= j < |cols.options| => CustomField(cols.options[j].fieldId, cols.options[j].fieldValue, false))
  }

  /** The two loops that fill `customFields`, text collection first. */
  method CollectCustomFields(cols: CustomFieldCollections, isDateTime: bool) returns (customFields: seq<CustomField>)
    ensures customFields == CustomFields(cols, isDateTime)
    ensures |customFields| == |cols.texts| + |cols.options|
    ensures forall i :: 0 <= i < |cols.texts| ==>
      customFields[i].id == cols.texts[i].fieldId && customFields[i].value == cols.texts[i].fieldValue
    ensures forall j :: 0 <= j < |cols.options| ==>
      customFields[|cols.texts| + j].id == cols.options[j].fieldId && customFields[|cols.texts| + j].value == cols.options[j].fieldValue
    ensures forall i :: 0 <= i < |customFields| ==>
      ("value_options" in FieldObject(customFields[i]) <==> i < |cols.texts| && isDateTime)
  {
    customFields := [];
    for i := 0 to |cols.texts|
      invariant |customFields| == i
      invariant forall k :: 0 <= k < i ==>
        customFields[k] == CustomField(cols.texts[k].fieldId, cols.texts[k].fieldValue, isDateTime)
    {
      var value := cols.texts[i];
      customFields := customFields + [CustomField(value.fieldId, value.fieldValue, isDateTime)];
    }
    for j := 0 to |cols.options|
      invariant |customFields| == |cols.texts| + j
      invariant forall k :: 0 <= k < |cols.texts| ==>
        customFields[k] == CustomField(cols.texts[k].fieldId, cols.texts[k].fieldValue, isDateTime)
      invariant forall k :: 0 <= k < j ==>
        customFields[|cols.texts| + k] == CustomField(cols.options[k].fieldId, cols.options[k].fieldValue, false)
    {
      var value := cols.options[j];
      customFields := customFields + [CustomField(value.fieldId, value.fieldValue, false)];
    }
  }

  function FieldsJson(fields: seq<CustomField>): Json
  {
    Arr(seq(|fields|, i requires 0 <= i < |fields| => Obj(FieldObject(fields[i]))))
  }

  /** The factor `execute` applies to the time estimate before posting it. */
  const EstimateFactor := 6000

  /** Milliseconds per minute: the factor the estimate's documented unit, minutes, calls for. */
  const MillisPerMinute := 60 * 1000

  const TaskKeys: set<string> := {
    "name", "custom_fields", "content", "assignees", "tags", "status", "priority", "due_date",
    "due_date_time", "time_estimate", "start_date", "start_date_time", "notify_all", "parent",
    "markdown_content"}

  /** `body[key] = v` when there is a value, and nothing otherwise. */
  function Put(body: map<string, Json>, key: string, v: Option<Json>): map<string, Json>
  {
    if v.Some? then body[key := v.value] else body
  }

  /** What `Put` does to one key `k`. */
  lemma PutAt(body: map<string, Json>, key: string, v: Option<Json>, k: string)
    ensures k in Put(body, key, v) <==> k in body || (k == key && v.Some?)
    ensures k in Put(body, key, v) ==> Put(body, key, v)[k] == if k == key && v.Some? then v.value else body[k]
  {
  }

  // The value an option contributes: only a truthy option contributes one.
  function StrIf(o: Option<string>): Option<Json> { if TruthyString(o) then Some(Str(o.value)) else None }
  function NumIf(o: Option<int>): Option<Json> { if TruthyNumber(o) then Some(Num(o.value)) else None }
  function FlagIf(o: Option<bool>): Option<Json> { if TruthyFlag(o) then Some(Bool(true)) else None }
  function ListIf(o: Option<seq<string>>): Option<Json> { if o.Some? then Some(Strs(o.value)) else None }
  function DateIf(o: Option<string>, parseDate: string -> int): Option<Json>
  {
    if TruthyString(o) then Some(Num(parseDate(o.value))) else None
  }
  function EstimateIf(o: Option<int>, factor: int): Option<Json>
  {
    if TruthyNumber(o) then Some(Num(o.value * factor)) else None
  }

  /** The task body before the markdown step: `name`, the custom-field list when not empty, every truthy option. */
  function OptionsBody(name: string, a: AdditionalFields, parseDate: string -> int, estimateFactor: int): map<string, Json>
  {
    var cf := CustomFields(a.customFields, IsDateTime(a));
    var b0 := map["name" := Str(name)];
    var b1 := Put(b0, "custom_fields", if |cf| > 0 then Some(FieldsJson(cf)) else None);
    var b2 := Put(b1, "content", StrIf(a.content));
    var b3 := Put(b2, "assignees", ListIf(a.assignees));
    var b4 := Put(b3, "tags", ListIf(a.tags));
    var b5 := Put(b4, "status", StrIf(a.status));
    var b6 := Put(b5, "priority", NumIf(a.priority));
    var b7 := Put(b6, "due_date", DateIf(a.dueDate, parseDate));
    var b8 := Put(b7, "due_date_time", FlagIf(a.dueDateTime));
    var b9 := Put(b8, "time_estimate", EstimateIf(a.timeEstimate, estimateFactor));
    var b10 := Put(b9, "start_date", DateIf(a.startDate, parseDate));
    var b11 := Put(b10, "start_date_time", FlagIf(a.startDateTime));
    var b12 := Put(b11, "notify_all", FlagIf(a.notifyAll));
    Put(b12, "parent", StrIf(a.parentId))
  }

  /**
    The task body, with the time estimate multiplied by `estimateFactor`: with
    markdown content the text moves from `content` to `markdown_content` (an
    undefined content leaves no key in the posted JSON). `parseDate` stands for
    the runtime's date parsing.
   */
  function TaskBodyWith(name: string, a: AdditionalFields, parseDate: string -> int, estimateFactor: int): map<string, Json>
  {
    var b := OptionsBody(name, a, parseDate, estimateFactor);
    if TruthyFlag(a.markdownContent) then
      Put(b - {"content"}, "markdown_content", if a.content.Some? then Some(Str(a.content.value)) else None)
    else b
  }

  /** The body `create` posts, as `execute` computes it. */
  function TaskBody(name: string, a: AdditionalFields, parseDate: string -> int): map<string, Json>
  {
    TaskBodyWith(name, a, parseDate, EstimateFactor)
  }

  /** The body with the estimate converted from minutes to milliseconds, as its documented unit requires. */
  function CorrectedTaskBody(name: string, a: AdditionalFields, parseDate: string -> int): map<string, Json>
  {
    TaskBodyWith(name, a, parseDate, MillisPerMinute)
  }

  /** The body of `create`, built field by field as `execute` does. */
  method BuildTaskBody(name: string, additionalFields: AdditionalFields, parseDate: string -> int) returns (body: map<string, Json>)
    ensures body == TaskBody(name, additionalFields, parseDate)
  {
    var a := additionalFields;
    body := map["name" := Str(name)];
    var customFields := CollectCustomFields(a.customFields, IsDateTime(a));
    body := Put(body, "custom_fields", if |customFields| > 0 then Some(FieldsJson(customFields)) else None);
    body := Put(body, "content", StrIf(a.content));
    body := Put(body, "assignees", ListIf(a.assignees));
    body := Put(body, "tags", ListIf(a.tags));
    body := Put(body, "status", StrIf(a.status));
    body := Put(body, "priority", NumIf(a.priority));
    body := Put(body, "due_date", DateIf(a.dueDate, parseDate));
    body := Put(body, "due_date_time", FlagIf(a.dueDateTime));
    body := Put(body, "time_estimate", EstimateIf(a.timeEstimate, EstimateFactor));
    body := Put(body, "start_date", DateIf(a.startDate, parseDate));
    body := Put(body, "start_date_time", FlagIf(a.startDateTime));
    body := Put(body, "notify_all", FlagIf(a.notifyAll));
    body := Put(body, "parent", StrIf(a.parentId));
    if TruthyFlag(a.markdownContent) {
      body := body - {"content"};
      if a.content.Some? {
        body := body["markdown_content" := Str(a.content.value)];
      }
    }
  }

  // ---------------------------------------------------------------- setCustomField

  const MinimumFieldsMessage := "Minimum 1 Custom Fields to Setting"

  /** The POST that sets one field: to `/task/{taskId}/field/{id}`, with the entry less its `id`. */
  function FieldRequest(taskId: string, f: CustomField): Request
  {
    Post("/task/" + taskId + "/field/" + f.id, Obj(FieldObject(f) - {"id"}))
  }

  type Reply = Result<Response, string>

  /** The requests issued so far and the responses collected, or the error that ended the fan-out. */
  datatype FanOutState = FanOutState(requests: seq<Request>, result: Result<seq<Json>, string>)

  /** The fan-out after its first `n` fields; `replies(k)` is the answer to the k-th POST. */
  function FanOut(taskId: string, fields: seq<CustomField>, replies: nat -> Reply, n: nat): FanOutState
    requires n <= |fields|
    decreases n
  {
    if n == 0 then FanOutState([], Ok([]))
    else
      var prev := FanOut(taskId, fields, replies, n - 1);
      if prev.result.Err? then prev
      else
        var requests := prev.requests + [FieldRequest(taskId, fields[n - 1])];
        match replies(n - 1)
        case Err(m) => FanOutState(requests, Err(m))
        case Ok(resp) => FanOutState(requests, Ok(prev.result.value + Flatten(resp)))
  }

  lemma {:induction false} FanOutErrorIsFinal(taskId: string, fields: seq<CustomField>, replies: nat -> Reply, i: nat, j: nat)
    requires i <= j <= |fields|
    requires FanOut(taskId, fields, replies, i).result.Err?
    ensures FanOut(taskId, fields, replies, j) == FanOut(taskId, fields, replies, i)
    decreases j - i
  {
    if i < j {
      FanOutErrorIsFinal(taskId, fields, replies, i + 1, j);
    }
  }

  /** The loop of `setCustomField`: one POST per field, in list order; a failed POST ends it. */
  method SetFields(taskId: string, customFields: seq<CustomField>, replies: nat -> Reply) returns (state: FanOutState)
    ensures state == FanOut(taskId, customFields, replies, |customFields|)
  {
    var requests: seq<Request> := [];
    var responseDatas: seq<Json> := [];
    for i := 0 to |customFields|
      invariant FanOut(taskId, customFields, replies, i) == FanOutState(requests, Ok(responseDatas))
    {
      var d := customFields[i];
      var request := FieldRequest(taskId, d);
      requests := requests + [request];
      var resp := replies(i);
      if resp.Err? {
        FanOutErrorIsFinal(taskId, customFields, replies, i + 1, |customFields|);
        return FanOutState(requests, Err(resp.error));
      }
      responseDatas := responseDatas + Flatten(resp.value);
    }
    state := FanOutState(requests, Ok(responseDatas));
  }

  // ---------------------------------------------------------------- per item

  /**
    One input item: its parameters, and `replies(k)`, the answer to the k-th
    POST the item issues.
   */
  datatype TaskItem = TaskItem(
    listId: string,
    name: string,
    taskId: string,
    field: CustomFieldCollections,
    additionalFields: AdditionalFields,
    replies: nat -> Reply)

  function Outcome(reply: Reply): Batch.Outcome
  {
    match reply
    case Ok(r) => Batch.Produced(r)
    case Err(m) => Batch.Raised(m)
  }

  /** `create`: one POST of the task body to `/list/{listId}/task`. */
  function CreateTask(item: TaskItem, parseDate: string -> int): (run: Batch.ItemRun)
    ensures run.requests == [Post("/list/" + item.listId + "/task", Obj(TaskBody(item.name, item.additionalFields, parseDate)))]
    ensures run.outcome.Raised? <==> item.replies(0).Err?
    ensures run.outcome.Raised? ==> run.outcome.message == item.replies(0).error
    ensures run.outcome.Produced? ==> run.outcome.response == item.replies(0).value
  {
    var post := Post("/list/" + item.listId + "/task", Obj(TaskBody(item.name, item.additionalFields, parseDate)));
    Batch.ItemRun([post], Outcome(item.replies(0)))
  }

  /** The result of a completed `setCustomField`. */
  function OkRecord(responseDatas: seq<Json>): Json
  {
    Obj(map["message" := Str("OK"), "responseData" := Arr(responseDatas)])
  }

  /** `setCustomField`: at least one field is required; then the fan-out. */
  function SetCustomField(item: TaskItem): Batch.ItemRun
  {
    var fields := CustomFields(item.field, IsDateTime(item.additionalFields));
    if |fields| < 1 then Batch.ItemRun([], Batch.Raised(MinimumFieldsMessage))
    else
      var s := FanOut(item.taskId, fields, item.replies, |fields|);
      Batch.ItemRun(s.requests, match s.result case Err(m) => Batch.Raised(m) case Ok(datas) => Batch.Produced(Defined(OkRecord(datas))))
  }

  /** The body of the item loop; any other resource or operation does nothing and adds nothing. */
  function ExecuteItem(resource: string, operation: string, item: TaskItem, parseDate: string -> int): Batch.ItemRun
  {
    if resource == "task" && operation == "create" then CreateTask(item, parseDate)
    else if resource == "task" && operation == "setCustomField" then SetCustomField(item)
    else Batch.ItemRun([], Batch.Produced(Undefined))
  }

  function Runs(resource: string, operation: string, items: seq<TaskItem>, parseDate: string -> int): seq<Batch.ItemRun>
  {
    seq(|items|, i requires 0 <= i < |items| => ExecuteItem(resource, operation, items[i], parseDate))
  }

  /** The record continue-on-fail leaves in place of a failing item. */
  function ErrorRecord(message: string): (record: Json)
    ensures record.Obj? && record.fields.Keys == {"error", "json"}
    ensures record.fields["error"] == Str(message) && record.fields["json"] == Obj(map[])
  {
    Obj(map["error" := Str(message), "json" := Obj(map[])])
  }

  /** `setCustomField` for one item, as `execute` performs it. */
  method SetCustomFieldItem(item: TaskItem) returns (run: Batch.ItemRun)
    ensures run == SetCustomField(item)
  {
    var customFields := CollectCustomFields(item.field, IsDateTime(item.additionalFields));
    if |customFields| < 1 {
      return Batch.ItemRun([], Batch.Raised(MinimumFieldsMessage));
    }
    var state := SetFields(item.taskId, customFields, item.replies);
    if state.result.Err? {
      return Batch.ItemRun(state.requests, Batch.Raised(state.result.error));
    }
    run := Batch.ItemRun(state.requests, Batch.Produced(Defined(OkRecord(state.result.value))));
  }

  /** `execute`: the item loop, with the continue-on-fail policy of `Batch`. */
  method Execute(resource: string, operation: string, items: seq<TaskItem>, continueOnFail: bool, parseDate: string -> int)
    returns (r: Batch.BatchResult)
    ensures r == Batch.Collect(Runs(resource, operation, items, parseDate), continueOnFail, ErrorRecord)
  {
    ghost var runs := Runs(resource, operation, items, parseDate);
    var requests: seq<Request> := [];
    var returnData: seq<Json> := [];
    for i := 0 to |items|
      invariant Batch.Collect(runs[..i], continueOnFail, ErrorRecord) == Batch.BatchResult(requests, Batch.Returned(returnData))
    {
      Batch.CollectStep(runs, i, continueOnFail, ErrorRecord);
      var item := items[i];
      var run := Batch.ItemRun([], Batch.Produced(Undefined));
      if resource == "task" {
        if operation == "create" {
          var body := BuildTaskBody(item.name, item.additionalFields, parseDate);
          run := Batch.ItemRun([Post("/list/" + item.listId + "/task", Obj(body))], Outcome(item.replies(0)));
        }
        if operation == "setCustomField" {
          run := SetCustomFieldItem(item);
        }
      }
      requests := requests + run.requests;
      if run.outcome.Raised? {
        if continueOnFail {
          returnData := returnData + [ErrorRecord(run.outcome.message)];
          continue;
        }
        Batch.RethrownIsFinal(runs, i + 1, |runs|, continueOnFail, ErrorRecord);
        assert runs[..|runs|] == runs;
        return Batch.BatchResult(requests, Batch.Rethrown(run.outcome.message));
      }
      returnData := returnData + Flatten(run.outcome.response);
    }
    assert runs[..|runs|] == runs;
    r := Batch.BatchResult(requests, Batch.Returned(returnData));
  }
}

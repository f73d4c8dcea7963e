/** What the `task` operations of the ClickUp Custom node promise, stated about the model. */
module ClickUpCustomProperties {
  import opened Wrappers
  import opened Json
  import Batch
  import opened ClickUpCustom

  /**
    Key by key, what the task body holds: an independent reading of the body
    builder, one rule per key.
   */
  function Entry(key: string, name: string, a: AdditionalFields, parseDate: string -> int, estimateFactor: int): Option<Json>
  {
    var cf := CustomFields(a.customFields, IsDateTime(a));
    if key == "name" then Some(Str(name))
    else if key == "custom_fields" then (if |cf| > 0 then Some(FieldsJson(cf)) else None)
    else if key == "content" then (if TruthyFlag(a.markdownContent) then None else StrIf(a.content))
    else if key == "markdown_content" then
      (if TruthyFlag(a.markdownContent) && a.content.Some? then Some(Str(a.content.value)) else None)
    else if key == "assignees" then ListIf(a.assignees)
    else if key == "tags" then ListIf(a.tags)
    else if key == "status" then StrIf(a.status)
    else if key == "priority" then NumIf(a.priority)
    else if key == "due_date" then DateIf(a.dueDate, parseDate)
    else if key == "due_date_time" then FlagIf(a.dueDateTime)
    else if key == "time_estimate" then EstimateIf(a.timeEstimate, estimateFactor)
    else if key == "start_date" then DateIf(a.startDate, parseDate)
    else if key == "start_date_time" then FlagIf(a.startDateTime)
    else if key == "notify_all" then FlagIf(a.notifyAll)
    else if key == "parent" then StrIf(a.parentId)
    else None
  }

  /** Before the markdown step, `content` and the other keys follow their own option only, and there is no `markdown_content`. */
  lemma OptionsBodyKey(key: string, name: string, a: AdditionalFields, parseDate: string -> int, estimateFactor: int)
    ensures var body := OptionsBody(name, a, parseDate, estimateFactor);
      var e := if key == "content" then StrIf(a.content)
        else if key == "markdown_content" then None
        else Entry(key, name, a, parseDate, estimateFactor);
      (key in body <==> e.Some?) && (key in body ==> body[key] == e.value)
  {
    var cf := CustomFields(a.customFields, IsDateTime(a));
    var b0 := map["name" := Str(name)];
    var b1 := Put(b0, "custom_fields", if |cf| > 0 then Some(FieldsJson(cf)) else None);
    var b2 := Put(b1, "content", StrIf(a.content));
    var b3 := Put(b2, "assignees", ListIf(a.assignees));
    var b4 := Put(b3, "tags", ListIf(a.tags));
    var b5 := Put(b4, "status", StrIf(a.status));
    var b6 := Put(b5, "priority", NumIf(a.priority));
    var b7 := Put(b6, "due_date", DateIf(a.dueDate, parseDate));
    var b8 := Put(b7, "due_date_time", FlagIf(a.dueDateTime));
    var b9 := Put(b8, "time_estimate", EstimateIf(a.timeEstimate, estimateFactor));
    var b10 := Put(b9, "start_date", DateIf(a.startDate, parseDate));
    var b11 := Put(b10, "start_date_time", FlagIf(a.startDateTime));
    var b12 := Put(b11, "notify_all", FlagIf(a.notifyAll));
    assert OptionsBody(name, a, parseDate, estimateFactor) == Put(b12, "parent", StrIf(a.parentId));
    PutAt(b0, "custom_fields", if |cf| > 0 then Some(FieldsJson(cf)) else None, key);
    PutAt(b1, "content", StrIf(a.content), key);
    PutAt(b2, "assignees", ListIf(a.assignees), key);
    PutAt(b3, "tags", ListIf(a.tags), key);
    PutAt(b4, "status", StrIf(a.status), key);
    PutAt(b5, "priority", NumIf(a.priority), key);
    PutAt(b6, "due_date", DateIf(a.dueDate, parseDate), key);
    PutAt(b7, "due_date_time", FlagIf(a.dueDateTime), key);
    PutAt(b8, "time_estimate", EstimateIf(a.timeEstimate, estimateFactor), key);
    PutAt(b9, "start_date", DateIf(a.startDate, parseDate), key);
    PutAt(b10, "start_date_time", FlagIf(a.startDateTime), key);
    PutAt(b11, "notify_all", FlagIf(a.notifyAll), key);
    PutAt(b12, "parent", StrIf(a.parentId), key);
  }

  /** The body holds exactly the keys whose rule gives a value, with that value. */
  lemma TaskBodyByKey(name: string, a: AdditionalFields, parseDate: string -> int, estimateFactor: int)
    ensures var body := TaskBodyWith(name, a, parseDate, estimateFactor);
      forall key :: (key in body <==> Entry(key, name, a, parseDate, estimateFactor).Some?)
        && (key in body ==> body[key] == Entry(key, name, a, parseDate, estimateFactor).value)
  {
    var b := OptionsBody(name, a, parseDate, estimateFactor);
    var body := TaskBodyWith(name, a, parseDate, estimateFactor);
    forall key
      ensures (key in body <==> Entry(key, name, a, parseDate, estimateFactor).Some?)
        && (key in body ==> body[key] == Entry(key, name, a, parseDate, estimateFactor).value)
    {
      OptionsBodyKey(key, name, a, parseDate, estimateFactor);
      PutAt(b - {"content"}, "markdown_content", if a.content.Some? then Some(Str(a.content.value)) else None, key);
    }
  }

  /** Every body has its `name`, and no key outside the documented ones. */
  lemma TaskBodyKeys(name: string, a: AdditionalFields, parseDate: string -> int)
    ensures var body := TaskBody(name, a, parseDate);
      "name" in body && body["name"] == Str(name) && body.Keys <= TaskKeys
  {
    TaskBodyByKey(name, a, parseDate, EstimateFactor);
  }

  /** With markdown content, the text is sent as `markdown_content` and never as `content`. */
  lemma MarkdownReplacesContent(name: string, a: AdditionalFields, parseDate: string -> int)
    requires TruthyFlag(a.markdownContent)
    ensures var body := TaskBody(name, a, parseDate);
      && "content" !in body
      && ("markdown_content" in body <==> a.content.Some?)
      && (a.content.Some? ==> body["markdown_content"] == Str(a.content.value))
  {
    TaskBodyByKey(name, a, parseDate, EstimateFactor);
  }

  /** Without markdown content, a non-empty text is sent as `content`. */
  lemma PlainContent(name: string, a: AdditionalFields, parseDate: string -> int)
    requires !TruthyFlag(a.markdownContent)
    ensures var body := TaskBody(name, a, parseDate);
      && "markdown_content" !in body
      && ("content" in body <==> TruthyString(a.content))
      && (TruthyString(a.content) ==> body["content"] == Str(a.content.value))
  {
    TaskBodyByKey(name, a, parseDate, EstimateFactor);
  }

  /** The estimate's key, in a body built with any factor: present when the estimate is non-zero, and then scaled by the factor. */
  lemma EstimateKey(name: string, a: AdditionalFields, parseDate: string -> int, estimateFactor: int)
    ensures var body := TaskBodyWith(name, a, parseDate, estimateFactor);
      && ("time_estimate" in body <==> a.timeEstimate.Some? && a.timeEstimate.value != 0)
      && ("time_estimate" in body ==> body["time_estimate"] == Num(a.timeEstimate.value * estimateFactor))
  {
    var b := OptionsBody(name, a, parseDate, estimateFactor);
    OptionsBodyKey("time_estimate", name, a, parseDate, estimateFactor);
    PutAt(b - {"content"}, "markdown_content", if a.content.Some? then Some(Str(a.content.value)) else None, "time_estimate");
  }

  /**
    As `execute` builds it, a non-zero estimate is sent multiplied by 6000, and
    zero or none sends nothing: one minute goes out as 6000 milliseconds.
   */
  lemma TimeEstimateAsWritten(name: string, a: AdditionalFields, parseDate: string -> int)
    ensures var body := TaskBody(name, a, parseDate);
      && ("time_estimate" in body <==> a.timeEstimate.Some? && a.timeEstimate.value != 0)
      && ("time_estimate" in body ==> body["time_estimate"] == Num(a.timeEstimate.value * 6000))
      && (a.timeEstimate == Some(1) ==> body["time_estimate"] == Num(6000) != Num(MillisPerMinute))
  {
    EstimateKey(name, a, parseDate, EstimateFactor);
  }

  /** In the corrected body, a non-zero estimate in minutes is sent in milliseconds, 60000 per minute. */
  lemma TimeEstimateInMillis(name: string, a: AdditionalFields, parseDate: string -> int)
    ensures var body := CorrectedTaskBody(name, a, parseDate);
      && ("time_estimate" in body <==> a.timeEstimate.Some? && a.timeEstimate.value != 0)
      && ("time_estimate" in body ==> body["time_estimate"] == Num(a.timeEstimate.value * 60000))
  {
    EstimateKey(name, a, parseDate, MillisPerMinute);
  }

  /** `create` posts the task body once, to the list's task collection, and its outcome is that POST's. */
  lemma CreatePostsTaskBody(item: TaskItem, parseDate: string -> int)
    ensures var run := ExecuteItem("task", "create", item, parseDate);
      && run.requests == [Post("/list/" + item.listId + "/task", Obj(TaskBody(item.name, item.additionalFields, parseDate)))]
      && (run.outcome.Raised? <==> item.replies(0).Err?)
  {
  }

  /**
    When every task is created, a `create` batch posts one body per item, in
    item order, and outputs every item's response.
   */
  lemma {:induction false} CreateBatchPostsEveryTask(items: seq<TaskItem>, continueOnFail: bool, parseDate: string -> int)
    requires forall k :: 0 <= k < |items| ==> items[k].replies(0).Ok?
    ensures var runs := Runs("task", "create", items, parseDate);
      Batch.Collect(runs, continueOnFail, ErrorRecord) == Batch.BatchResult(
        seq(|items|, k requires 0 <= k < |items| =>
          Post("/list/" + items[k].listId + "/task", Obj(TaskBody(items[k].name, items[k].additionalFields, parseDate)))),
        Batch.Returned(Batch.AllRecords(runs, ErrorRecord)))
  {
    var runs := Runs("task", "create", items, parseDate);
    Batch.NoFailureReturnsAll(runs, continueOnFail, ErrorRecord);
    CreateRequests(items, parseDate);
  }

  lemma {:induction false} CreateRequests(items: seq<TaskItem>, parseDate: string -> int)
    ensures Batch.AllRequests(Runs("task", "create", items, parseDate)) ==
      seq(|items|, k requires 0 <= k < |items| =>
        Post("/list/" + items[k].listId + "/task", Obj(TaskBody(items[k].name, items[k].additionalFields, parseDate))))
    decreases |items|
  {
    var runs := Runs("task", "create", items, parseDate);
    if items != [] {
      var prefix := items[..|items| - 1];
      CreateRequests(prefix, parseDate);
      assert runs[..|runs| - 1] == Runs("task", "create", prefix, parseDate);
    }
  }

  /**
    The body carries the custom-field list exactly when one of the two
    collections has a row: text rows first, each with the date-time flag.
   */
  lemma CustomFieldsInBody(name: string, a: AdditionalFields, parseDate: string -> int)
    ensures var body := TaskBody(name, a, parseDate);
      var cols := a.customFields;
      && ("custom_fields" in body <==> |cols.texts| + |cols.options| > 0)
      && ("custom_fields" in body ==>
        body["custom_fields"] == FieldsJson(CustomFields(cols, IsDateTime(a)))
        && |body["custom_fields"].elems| == |cols.texts| + |cols.options|)
  {
    TaskBodyByKey(name, a, parseDate, EstimateFactor);
  }

  /** The responses of the first `n` POSTs, flattened and concatenated. */
  function Answers(replies: nat -> Reply, n: nat): seq<Json>
    requires forall k :: 0 <= k < n ==> replies(k).Ok?
  {
    if n == 0 then [] else Answers(replies, n - 1) + Flatten(replies(n - 1).value)
  }

  /** When every POST succeeds, there is one per field, in list order, and every response is kept. */
  lemma {:induction false} FanOutAllAnswered(taskId: string, fields: seq<CustomField>, replies: nat -> Reply, n: nat)
    requires n <= |fields|
    requires forall k :: 0 <= k < n ==> replies(k).Ok?
    ensures FanOut(taskId, fields, replies, n) ==
      FanOutState(seq(n, k requires 0 <= k < n => FieldRequest(taskId, fields[k])), Ok(Answers(replies, n)))
  {
    if n > 0 {
      FanOutAllAnswered(taskId, fields, replies, n - 1);
      assert seq(n, k requires 0 <= k < n => FieldRequest(taskId, fields[k])) ==
        seq(n - 1, k requires 0 <= k < n - 1 => FieldRequest(taskId, fields[k])) + [FieldRequest(taskId, fields[n - 1])];
    }
  }

  /** The first failing POST ends the fan-out with its error; the fields after it are never sent. */
  lemma FanOutStopsAtFirstFailure(taskId: string, fields: seq<CustomField>, replies: nat -> Reply, k: nat)
    requires k < |fields|
    requires forall j :: 0 <= j < k ==> replies(j).Ok?
    requires replies(k).Err?
    ensures FanOut(taskId, fields, replies, |fields|) ==
      FanOutState(seq(k + 1, j requires 0 <= j < k + 1 => FieldRequest(taskId, fields[j])), Err(replies(k).error))
  {
    FanOutAllAnswered(taskId, fields, replies, k);
    assert seq(k + 1, j requires 0 <= j < k + 1 => FieldRequest(taskId, fields[j])) ==
      seq(k, j requires 0 <= j < k => FieldRequest(taskId, fields[j])) + [FieldRequest(taskId, fields[k])];
    FanOutErrorIsFinal(taskId, fields, replies, k + 1, |fields|);
  }

  /** A field is sent to its own path, without its id, with its value and its date-time flag. */
  lemma FieldRequestShape(taskId: string, f: CustomField)
    ensures var r := FieldRequest(taskId, f);
      && r.Post?
      && r.path == "/task/" + taskId + "/field/" + f.id
      && r.payload.Obj?
      && "id" !in r.payload.fields
      && "value" in r.payload.fields && r.payload.fields["value"] == Str(f.value)
      && ("value_options" in r.payload.fields <==> f.timeOption)
      && r.payload.fields.Keys <= {"value", "value_options"}
  {
  }

  /** Setting custom fields with both collections empty fails before any request. */
  lemma SetCustomFieldNeedsAField(item: TaskItem)
    requires |item.field.texts| + |item.field.options| == 0
    ensures SetCustomField(item) == Batch.ItemRun([], Batch.Raised(MinimumFieldsMessage))
  {
  }

  /** With at least one field and every POST answered, the item reports OK with all the responses. */
  lemma SetCustomFieldSucceeds(item: TaskItem)
    requires |item.field.texts| + |item.field.options| > 0
    requires forall k :: 0 <= k < |item.field.texts| + |item.field.options| ==> item.replies(k).Ok?
    ensures var fields := CustomFields(item.field, IsDateTime(item.additionalFields));
      SetCustomField(item) == Batch.ItemRun(
        seq(|fields|, k requires 0 <= k < |fields| => FieldRequest(item.taskId, fields[k])),
        Batch.Produced(Defined(OkRecord(Answers(item.replies, |fields|)))))
  {
    var fields := CustomFields(item.field, IsDateTime(item.additionalFields));
    FanOutAllAnswered(item.taskId, fields, item.replies, |fields|);
  }

  /** An unknown resource or operation issues nothing, fails nothing and outputs nothing. */
  lemma {:induction false} UnknownOperationOutputsNothing(resource: string, operation: string, items: seq<TaskItem>,
                                                           continueOnFail: bool, parseDate: string -> int)
    requires resource != "task" || (operation != "create" && operation != "setCustomField")
    ensures Batch.Collect(Runs(resource, operation, items, parseDate), continueOnFail, ErrorRecord) ==
      Batch.BatchResult([], Batch.Returned([]))
  {
    var runs := Runs(resource, operation, items, parseDate);
    Batch.NoFailureReturnsAll(runs, continueOnFail, ErrorRecord);
    NothingRuns(runs);
  }

  lemma {:induction false} NothingRuns(runs: seq<Batch.ItemRun>)
    requires forall k :: 0 <= k < |runs| ==> runs[k] == Batch.ItemRun([], Batch.Produced(Undefined))
    ensures Batch.AllRequests(runs) == [] && Batch.AllRecords(runs, ErrorRecord) == []
    decreases |runs|
  {
    if runs != [] {
      NothingRuns(runs[..|runs| - 1]);
    }
  }
}

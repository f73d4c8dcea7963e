/**
  The `loadOptions` helpers of the ClickUp Custom node that do more than copy a
  name and an id: the member listing whose URL depends on which parameter is
  set, and the three helpers that split a list's custom fields by type.
 */
module ClickUpLoadOptions {
  import opened Wrappers
  import opened Json

  /** An entry of a dropdown or label field's `type_config.options` (`labelText` is its `label`). */
  datatype FieldOption = FieldOption(id: string, name: string, labelText: string)

  /** A custom field of a list: `type` is the field's kind. */
  datatype Field = Field(id: string, name: string, kind: string, options: seq<FieldOption>)

  /** A list member, as the member listing returns it. */
  datatype Member = Member(id: string, username: string)

  /** An entry of a parameter's drop-down in the editor. */
  datatype PropertyOption = PropertyOption(name: string, value: string)

  // ---------------------------------------------------------------- getAssignees

  /** The member listing to fetch: the list's if a list is chosen, else the task's, else none. */
  function AssigneesPath(listId: string, taskId: string): Option<string>
  {
    if listId != "" then Some("/list/" + listId + "/member")
    else if taskId != "" then Some("/task/" + taskId + "/member")
    else None
  }

  function MemberOption(m: Member): PropertyOption
  {
    PropertyOption(m.username, m.id)
  }

  /**
    `getAssignees`: the requests it issues and the options it returns;
    `fetch(path)` stands for the members the GET of `path` answers.
   */
  method GetAssignees(listId: string, taskId: string, fetch: string -> seq<Member>)
    returns (requests: seq<Request>, returnData: seq<PropertyOption>)
    ensures AssigneesPath(listId, taskId).None? ==> requests == [] && returnData == []
    ensures AssigneesPath(listId, taskId).Some? ==>
      var members := fetch(AssigneesPath(listId, taskId).value);
      && requests == [Get(AssigneesPath(listId, taskId).value)]
      && |returnData| == |members|
      && forall i :: 0 <= i < |members| ==> returnData[i] == PropertyOption(members[i].username, members[i].id)
  {
    returnData := [];
    var url: string;
    if listId != "" {
      url := "/list/" + listId + "/member";
    } else if taskId != "" {
      url := "/task/" + taskId + "/member";
    } else {
      return [], returnData;
    }
    requests := [Get(url)];
    var members := fetch(url);
    for i := 0 to |members|
      invariant |returnData| == i
      invariant forall k :: 0 <= k < i ==> returnData[k] == MemberOption(members[k])
    {
      var member := members[i];
      returnData := returnData + [PropertyOption(member.username, member.id)];
    }
  }

  // ---------------------------------------------------------------- custom-field helpers

  /** Fields whose values are chosen from a list of options. */
  predicate HasOptions(f: Field)
  {
    f.kind == "drop_down" || f.kind == "labels"
  }

  function FieldOptionOf(f: Field): PropertyOption
  {
    PropertyOption(f.name, f.id)
  }

  /** `getCustomFields`: every field without options, in list order. */
  function PlainFields(fields: seq<Field>): seq<PropertyOption>
    decreases |fields|
  {
    if fields == [] then []
    else
      var last := fields[|fields| - 1];
      PlainFields(fields[..|fields| - 1]) + (if HasOptions(last) then [] else [FieldOptionOf(last)])
  }

  /** `getCustomFieldsOptions`: every dropdown or label field, in list order. */
  function OptionFields(fields: seq<Field>): seq<PropertyOption>
    decreases |fields|
  {
    if fields == [] then []
    else
      var last := fields[|fields| - 1];
      OptionFields(fields[..|fields| - 1]) + (if HasOptions(last) then [FieldOptionOf(last)] else [])
  }

  /** The text an option is shown by: `label` in a label field, `name` in a dropdown. */
  function OptionName(f: Field, o: FieldOption): string
  {
    if f.kind == "labels" then o.labelText else o.name
  }

  /** The entries one field contributes to `getCustomFieldsOptionsValue`. */
  function ValuesOf(f: Field): seq<PropertyOption>
  {
    if HasOptions(f) then seq(|f.options|, j requires 0 <= j < |f.options| => PropertyOption(OptionName(f, f.options[j]), f.options[j].id))
    else []
  }

  /** `getCustomFieldsOptionsValue`: every option of every dropdown or label field, in order. */
  function OptionValues(fields: seq<Field>): seq<PropertyOption>
    decreases |fields|
  {
    if fields == [] then [] else OptionValues(fields[..|fields| - 1]) + ValuesOf(fields[|fields| - 1])
  }

  /** The loop of `getCustomFields` over the fetched fields. */
  method GetCustomFields(fields: seq<Field>) returns (returnData: seq<PropertyOption>)
    ensures returnData == PlainFields(fields)
  {
    returnData := [];
    for i := 0 to |fields|
      invariant returnData == PlainFields(fields[..i])
    {
      assert fields[..i + 1][..i] == fields[..i];
      var field := fields[i];
      var data := PropertyOption(field.name, field.id);
      if field.kind != "drop_down" && field.kind != "labels" {
        returnData := returnData + [data];
      }
    }
    assert fields[..|fields|] == fields;
  }

  /** The loop of `getCustomFieldsOptions` over the fetched fields. */
  method GetCustomFieldsOptions(fields: seq<Field>) returns (returnData: seq<PropertyOption>)
    ensures returnData == OptionFields(fields)
  {
    returnData := [];
    for i := 0 to |fields|
      invariant returnData == OptionFields(fields[..i])
    {
      assert fields[..i + 1][..i] == fields[..i];
      var field := fields[i];
      var data := PropertyOption(field.name, field.id);
      if field.kind == "drop_down" || field.kind == "labels" {
        returnData := returnData + [data];
      }
    }
    assert fields[..|fields|] == fields;
  }

  /** The nested loops of `getCustomFieldsOptionsValue` over the fetched fields. */
  method GetCustomFieldsOptionsValue(fields: seq<Field>) returns (returnData: seq<PropertyOption>)
    ensures returnData == OptionValues(fields)
  {
    returnData := [];
    for i := 0 to |fields|
      invariant returnData == OptionValues(fields[..i])
    {
      assert fields[..i + 1][..i] == fields[..i];
      var field := fields[i];
      if field.kind == "drop_down" || field.kind == "labels" {
        var fieldName := "name";
        if field.kind == "labels" {
          fieldName := "label";
        }
        ghost var before := returnData;
        for j := 0 to |field.options|
          invariant |returnData| == |before| + j
          invariant returnData[..|before|] == before
          invariant forall k :: 0 <= k < j ==> returnData[|before| + k] == ValuesOf(field)[k]
        {
          var option := field.options[j];
          var data := PropertyOption(if fieldName == "label" then option.labelText else option.name, option.id);
          returnData := returnData + [data];
        }
        assert returnData == before + ValuesOf(field);
      }
    }
    assert fields[..|fields|] == fields;
  }

  // ---------------------------------------------------------------- properties

  /** No member listing is fetched exactly when neither a list nor a task is chosen. */
  lemma AssigneesNeedListOrTask(listId: string, taskId: string)
    ensures AssigneesPath(listId, taskId).None? <==> listId == "" && taskId == ""
  {
  }

  /** A chosen list takes precedence: the task is then ignored. */
  lemma AssigneesListWins(listId: string, taskId: string, otherTaskId: string)
    requires listId != ""
    ensures AssigneesPath(listId, taskId) == AssigneesPath(listId, otherTaskId) == Some("/list/" + listId + "/member")
  {
  }

  /** Without a list, the task's members are listed. */
  lemma AssigneesOfTask(taskId: string)
    requires taskId != ""
    ensures AssigneesPath("", taskId) == Some("/task/" + taskId + "/member")
  {
  }

  function AllFieldOptions(fields: seq<Field>): seq<PropertyOption>
  {
    seq(|fields|, i requires 0 <= i < |fields| => FieldOptionOf(fields[i]))
  }

  /** The two listings together have one entry per field. */
  lemma {:induction false} PartitionSizes(fields: seq<Field>)
    ensures |PlainFields(fields)| + |OptionFields(fields)| == |fields|
    decreases |fields|
  {
    if fields != [] {
      PartitionSizes(fields[..|fields| - 1]);
    }
  }

  lemma LastOfAppend(xs: seq<Field>, ys: seq<Field>)
    requires ys != []
    ensures (xs + ys)[..|xs + ys| - 1] == xs + ys[..|ys| - 1]
    ensures (xs + ys)[|xs + ys| - 1] == ys[|ys| - 1]
  {
  }

  /** `getCustomFields` keeps list order: the listing of a concatenation is the concatenation of the listings. */
  lemma {:induction false} PlainFieldsAppend(xs: seq<Field>, ys: seq<Field>)
    ensures PlainFields(xs + ys) == PlainFields(xs) + PlainFields(ys)
    decreases |ys|
  {
    if ys == [] {
      assert xs + ys == xs;
    } else {
      PlainFieldsAppend(xs, ys[..|ys| - 1]);
      LastOfAppend(xs, ys);
    }
  }

  /** `getCustomFieldsOptions` keeps list order. */
  lemma {:induction false} OptionFieldsAppend(xs: seq<Field>, ys: seq<Field>)
    ensures OptionFields(xs + ys) == OptionFields(xs) + OptionFields(ys)
    decreases |ys|
  {
    if ys == [] {
      assert xs + ys == xs;
    } else {
      OptionFieldsAppend(xs, ys[..|ys| - 1]);
      LastOfAppend(xs, ys);
    }
  }

  /** `getCustomFieldsOptionsValue` keeps list order. */
  lemma {:induction false} OptionValuesAppend(xs: seq<Field>, ys: seq<Field>)
    ensures OptionValues(xs + ys) == OptionValues(xs) + OptionValues(ys)
    decreases |ys|
  {
    if ys == [] {
      assert xs + ys == xs;
    } else {
      OptionValuesAppend(xs, ys[..|ys| - 1]);
      LastOfAppend(xs, ys);
    }
  }

  /** Every field appears in exactly one of the two listings: as multisets they make up all the fields. */
  lemma {:induction false} PartitionCoversAll(fields: seq<Field>)
    ensures multiset(PlainFields(fields)) + multiset(OptionFields(fields)) == multiset(AllFieldOptions(fields))
    decreases |fields|
  {
    if fields != [] {
      var prefix := fields[..|fields| - 1];
      PartitionCoversAll(prefix);
      assert AllFieldOptions(fields) == AllFieldOptions(prefix) + [FieldOptionOf(fields[|fields| - 1])];
    }
  }

  /** A field is listed by `getCustomFields` if it has no options, and by `getCustomFieldsOptions` if it has. */
  lemma {:induction false} ListingsComplete(fields: seq<Field>, i: nat)
    requires i < |fields|
    ensures !HasOptions(fields[i]) ==> FieldOptionOf(fields[i]) in PlainFields(fields)
    ensures HasOptions(fields[i]) ==> FieldOptionOf(fields[i]) in OptionFields(fields)
    decreases |fields|
  {
    var prefix := fields[..|fields| - 1];
    if i < |fields| - 1 {
      ListingsComplete(prefix, i);
      assert prefix[i] == fields[i];
    }
  }

  /** Everything `getCustomFields` lists is a field without options, and everything `getCustomFieldsOptions` lists has them. */
  lemma {:induction false} ListingsSound(fields: seq<Field>, o: PropertyOption)
    ensures o in PlainFields(fields) ==> exists i :: 0 <= i < |fields| && !HasOptions(fields[i]) && o == FieldOptionOf(fields[i])
    ensures o in OptionFields(fields) ==> exists i :: 0 <= i < |fields| && HasOptions(fields[i]) && o == FieldOptionOf(fields[i])
    decreases |fields|
  {
    if fields != [] {
      var n := |fields| - 1;
      var prefix := fields[..n];
      ListingsSound(prefix, o);
      if o in PlainFields(prefix) {
        var i :| 0 <= i < n && !HasOptions(prefix[i]) && o == FieldOptionOf(prefix[i]);
        assert fields[i] == prefix[i];
      }
      if o in OptionFields(prefix) {
        var i :| 0 <= i < n && HasOptions(prefix[i]) && o == FieldOptionOf(prefix[i]);
        assert fields[i] == prefix[i];
      }
    }
  }

  /** Every option of every dropdown or label field is offered, named by `label` or `name` and valued by its id. */
  lemma {:induction false} OptionValuesComplete(fields: seq<Field>, i: nat, j: nat)
    requires i < |fields| && HasOptions(fields[i]) && j < |fields[i].options|
    ensures PropertyOption(OptionName(fields[i], fields[i].options[j]), fields[i].options[j].id) in OptionValues(fields)
    decreases |fields|
  {
    var prefix := fields[..|fields| - 1];
    if i < |fields| - 1 {
      OptionValuesComplete(prefix, i, j);
      assert prefix[i] == fields[i];
    } else {
      assert ValuesOf(fields[i])[j] == PropertyOption(OptionName(fields[i], fields[i].options[j]), fields[i].options[j].id);
    }
  }

  /** `o` is the entry for option `j` of field `i`, a dropdown or label field. */
  predicate OfferedAs(fields: seq<Field>, i: int, j: int, o: PropertyOption)
  {
    0 <= i < |fields| && HasOptions(fields[i]) && 0 <= j < |fields[i].options|
    && o == PropertyOption(OptionName(fields[i], fields[i].options[j]), fields[i].options[j].id)
  }

  /** Everything offered is an option of a dropdown or label field. */
  lemma {:induction false} OptionValuesSound(fields: seq<Field>, o: PropertyOption)
    requires o in OptionValues(fields)
    ensures exists i, j :: OfferedAs(fields, i, j, o)
    decreases |fields|
  {
    var n := |fields| - 1;
    var prefix := fields[..n];
    if o in OptionValues(prefix) {
      OptionValuesSound(prefix, o);
      var i, j :| OfferedAs(prefix, i, j, o);
      assert fields[i] == prefix[i];
      assert OfferedAs(fields, i, j, o);
    } else {
      var last := fields[n];
      assert o in ValuesOf(last);
      var j :| 0 <= j < |ValuesOf(last)| && ValuesOf(last)[j] == o;
      assert OfferedAs(fields, n, j, o);
    }
  }
}

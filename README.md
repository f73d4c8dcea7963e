# Dialog360 and ClickUp Custom nodes: a Dafny model

This project models two workflow nodes and proves what their `execute` methods
promise.

**Dialog360** (WhatsApp templates through 360dialog):
- `templates/get` fetches the account's templates and returns one by name, or all of them.
- `messages/send` finds the named template and compiles its components into message parameters:
  - an IMAGE header takes one link per `|`-separated piece of the image input, and needs as many pieces as the template's example has handles;
  - a BODY with an example takes one text per `|`-separated piece of the body input, with the same count check.
- It then posts the envelope `{to, type: "template", template: {namespace, name, language, components}}`.

**ClickUp Custom**:
- `task/create` builds the task body:
  - the custom-field list (text rows first, then option rows, with the date-time flag on text rows);
  - every truthy option;
  - the markdown switch.
  It then posts the body.
- `task/setCustomField` posts each collected field to its own path, without its id. It stops at the first failure and reports `{message: "OK", responseData}`.
- Four `loadOptions` helpers: choosing the member listing, and splitting a list's custom fields by type.

Both nodes wrap their work in the same per-item driver (module `Batch`):
- responses are appended to the output, arrays element by element, and `undefined` is skipped;
- an item's error becomes an error record when continue-on-fail is set, and otherwise ends the run.

Each loop of the source is a Dafny `method` with a `for` loop and its invariants. Its `ensures` ties its result to a specification function, and the lemmas in `dialog360_properties.dfy`, `clickup_properties.dfy` and `clickup_load_options.dfy` prove the source's promises about those functions.

The network is abstract. An item carries the answers its requests receive:
- for Dialog360, the template listing and the reply to the message POST;
- for ClickUp, `replies(k)`, the reply to the item's k-th POST.

Every run records the requests the item issued, in order, so the model can say which requests are made and which are not.

Files:
- `wrappers.dfy`: `Option` and `Result`.
- `json.dfy`: JSON values, responses, requests, and the flattening of a response into records.
- `text.dfy`: JavaScript's `split` on one character and its inverse `Join`, and decimal rendering of counts in messages.
- `batch.dfy`: the per-item driver.
- `dialog360_interface.dfy`: the message envelope, its JSON encoding and a decoder for it (`IBody`).
- `dialog360.dfy`: template lookup, the component compiler, the envelope, the item operations and `execute`.
- `clickup.dfy`: the custom-field list, the task body, the `setCustomField` fan-out, and `execute`.
- `clickup_load_options.dfy`: `getAssignees`, `getCustomFields`, `getCustomFieldsOptions` and `getCustomFieldsOptionsValue`.
- `*_properties.dfy`: the lemmas.

## Model

| member | source | states |
|---|---|---|
| Json.Flatten | nodes/Dialog360/Dialog360.node.ts:213-217 | an array response contributes its elements, `undefined` nothing, any other value itself |
| Batch.ContinueOnFailProcessesAll | nodes/Dialog360/Dialog360.node.ts:97-224 | with continue-on-fail every item runs, every request is issued and a failing item leaves its error record in its place |
| Batch.NoFailureReturnsAll | nodes/Dialog360/Dialog360.node.ts:97-224 | when no item throws, the output is every item's records in order and every request is issued |
| Batch.FirstFailureIsRethrown | nodes/Dialog360/Dialog360.node.ts:218-224 | without continue-on-fail the first failing item's error is rethrown and no later item issues a request |
| Text.Split | nodes/Dialog360/Dialog360.node.ts:145 | splitting gives at least one piece, pieces joined by the separator give back the input, and no piece holds the separator |
| Text.SplitCount | nodes/Dialog360/Dialog360.node.ts:145-147 | the number of pieces is the number of separators plus one |
| Text.SplitJoin | nodes/Dialog360/Dialog360.node.ts:175 | splitting the join of separator-free pieces gives back those pieces |
| Text.SplitUnique | nodes/Dialog360/Dialog360.node.ts:175 | the split is the only separator-free decomposition of a string |
| Text.SplitExamples | nodes/Dialog360/Dialog360.node.ts:145 | the empty string splits into one empty piece; `"a\|b\|c"` into three pieces; `"\|"` into two empty pieces |
| Text.ParseNatToString | nodes/Dialog360/Dialog360.node.ts:148 | a count rendered in a message reads back as the same number |
| Text.NatToStringInjective | nodes/Dialog360/Dialog360.node.ts:178 | different counts render differently |
| Text.TwoCountsRecoverable | nodes/Dialog360/Dialog360.node.ts:148 | two counts embedded between fixed texts are determined by the resulting message |
| Dialog360.MismatchMessageStatesCounts | nodes/Dialog360/Dialog360.node.ts:147-178 | a count-mismatch message determines both the required and the given count |
| Dialog360.Message | nodes/Dialog360/Dialog360.node.ts:112-211 | each thrown error's message carries what it is about: the template name, the operation, the resource or the missing property sits between its fixed texts, and a failed request's message passes through unchanged |
| Dialog360.FindTemplate | nodes/Dialog360/Dialog360.node.ts:127-133 | the index found names the template, no earlier template has that name, and there is none exactly when no template has it |
| Dialog360.LookupTemplate | nodes/Dialog360/Dialog360.node.ts:127-133 | the search loop with `break` finds the first template with the name |
| Dialog360.BuildImageParameters | nodes/Dialog360/Dialog360.node.ts:150-158 | one image parameter per link, in order |
| Dialog360.BuildTextParameters | nodes/Dialog360/Dialog360.node.ts:180-186 | one text parameter per text, in order |
| Dialog360.CompileOne | nodes/Dialog360/Dialog360.node.ts:138-190 | one pass of the component loop compiles its component as the compiler specifies |
| Dialog360.CompileComponents | nodes/Dialog360/Dialog360.node.ts:137-191 | the component loop yields the compiled components, or the first component's error |
| Dialog360.SendMessageItem | nodes/Dialog360/Dialog360.node.ts:121-206 | `messages/send` issues the GET, compiles, and issues the POST of the envelope only when compiling succeeds |
| Dialog360.GetTemplatesItem | nodes/Dialog360/Dialog360.node.ts:99-117 | `templates/get` returns the first template with the given name, or the whole listing when no name is given |
| Dialog360.Execute | nodes/Dialog360/Dialog360.node.ts:97-225 | the item loop gives the driver's result over each item's run, unknown operations and resources raising their errors |
| Dialog360.ErrorRecord | nodes/Dialog360/Dialog360.node.ts:220 | the record continue-on-fail leaves is an object with the single key `error`, holding the message |
| Dialog360Interface.DecodeEncode | nodes/Dialog360/Dialog360Interface.ts:3-15 | the envelope's JSON decodes back to the envelope |
| Dialog360Interface.EncodeInjective | nodes/Dialog360/Dialog360Interface.ts:3-15 | different envelopes encode to different JSON |
| Dialog360Interface.DecodeEncodeComponents | nodes/Dialog360/Dialog360.node.ts:159-189 | the header and body components decode back to their parameters |
| Dialog360Properties.ImageHeaderValidation | nodes/Dialog360/Dialog360.node.ts:140-149 | an IMAGE header without an image input fails; with one, it compiles if and only if the number of pieces equals the number of example handles, and otherwise fails with both counts |
| Dialog360Properties.ImageLinksRoundTrip | nodes/Dialog360/Dialog360.node.ts:144-163 | links joined by `\|` come back as the header's parameters when their number matches; an empty image input counts as one link |
| Dialog360Properties.BodyValidation | nodes/Dialog360/Dialog360.node.ts:166-190 | a BODY without example compiles to a body without parameters; with an example it needs the body input, and compiles if and only if the piece count equals the example's first row |
| Dialog360Properties.BodyTextsRoundTrip | nodes/Dialog360/Dialog360.node.ts:174-188 | texts joined by `\|` come back as the body's parameters when their number matches |
| Dialog360Properties.OthersContributeNothing | nodes/Dialog360/Dialog360.node.ts:138-191 | a component that is neither an IMAGE header nor a BODY adds nothing and cannot fail |
| Dialog360Properties.ContributingCompilesToOne | nodes/Dialog360/Dialog360.node.ts:159-189 | an IMAGE header or BODY that compiles adds exactly one component, a header exactly for the IMAGE header |
| Dialog360Properties.CompileOkIffEveryComponentOk | nodes/Dialog360/Dialog360.node.ts:137-191 | the template compiles if and only if every component does |
| Dialog360Properties.CompileReportsFirstError | nodes/Dialog360/Dialog360.node.ts:137-191 | a failing template reports the error of its first failing component |
| Dialog360Properties.CompileFollowsTemplateOrder | nodes/Dialog360/Dialog360.node.ts:137-191 | the compiled components are the contributing components' compilations, in template order |
| Dialog360Properties.TwoComponents | nodes/Dialog360/Dialog360.node.ts:137-191 | a two-component template compiles to the concatenation of both compilations, or the first error |
| Dialog360Properties.SendUnknownTemplateFails | nodes/Dialog360/Dialog360.node.ts:134-136 | sending with an unknown template name fails after the GET, with the template-not-found error |
| Dialog360Properties.SendValidatesBeforePost | nodes/Dialog360/Dialog360.node.ts:126-206 | a send that fails for any reason other than the POST itself issues no POST |
| Dialog360Properties.SentEnvelope | nodes/Dialog360/Dialog360.node.ts:193-206 | a POST is made only for a found template that compiles, to `v1/messages`, and its payload decodes to the envelope: recipient, `"template"`, namespace, name, deterministic language and the compiled components |
| Dialog360Properties.GetReturnsFirstMatch | nodes/Dialog360/Dialog360.node.ts:103-114 | a named get returns the first template of that name, or fails with not-found |
| Dialog360Properties.UnknownResourceFailsEveryItem | nodes/Dialog360/Dialog360.node.ts:210-212 | an unknown resource issues no request and either rethrows its error or records it for every item |
| Dialog360Properties.AllFailedRuns | nodes/Dialog360/Dialog360.node.ts:218-222 | items that all fail alike leave one error record each and no request |
| Dialog360Properties.WelcomeScenario | nodes/Dialog360/Dialog360.node.ts:138-190 | a template with an image header and a two-slot body compiles a link and two texts into a header and a body |
| Dialog360Properties.WelcomeScenarioTooManyImages | nodes/Dialog360/Dialog360.node.ts:146-149 | two links for a one-handle header fail with required 1, given 2 |
| ClickUpCustom.CollectCustomFields | nodes/ClickUpCustom/ClickUpCustom.node.ts:355-383 | the custom-field list has every text row in order, then every option row in order, and an entry carries `value_options` exactly when it is a text row and the date-time flag is set |
| ClickUpCustom.BuildTaskBody | nodes/ClickUpCustom/ClickUpCustom.node.ts:352-424 | the body built field by field, including the deletion of `content`, is the task body, the estimate multiplied by 6000 as written |
| ClickUpCustom.CreateTask | nodes/ClickUpCustom/ClickUpCustom.node.ts:425 | `create` issues exactly one POST, of the task body to `/list/{listId}/task`, and fails exactly when that POST fails, with its error |
| ClickUpCustom.SetFields | nodes/ClickUpCustom/ClickUpCustom.node.ts:465-480 | the fan-out loop issues the POSTs and collects the responses as the fan-out specifies, ending at the first failure |
| ClickUpCustom.SetCustomFieldItem | nodes/ClickUpCustom/ClickUpCustom.node.ts:427-481 | `setCustomField` for one item, as specified: the minimum check, then the fan-out, then the OK record |
| ClickUpCustom.Execute | nodes/ClickUpCustom/ClickUpCustom.node.ts:345-497 | the item loop gives the driver's result over each item's run, with `{error, json: {}}` records |
| ClickUpCustom.ErrorRecord | nodes/ClickUpCustom/ClickUpCustom.node.ts:492 | the record continue-on-fail leaves has exactly the keys `error`, holding the message, and `json`, an empty object |
| ClickUpCustomProperties.OptionsBodyKey | nodes/ClickUpCustom/ClickUpCustom.node.ts:384-420 | before the markdown step each key holds exactly what its own option contributes, the estimate multiplied by the body's factor (6000 in the body `execute` posts), and there is no `markdown_content` |
| ClickUpCustomProperties.TaskBodyByKey | nodes/ClickUpCustom/ClickUpCustom.node.ts:352-424 | the body holds a key if and only if that key's rule (`name` always, custom fields when not empty, each option when truthy, the estimate times the body's factor, the markdown switch) gives a value, and then holds that value |
| ClickUpCustomProperties.TaskBodyKeys | nodes/ClickUpCustom/ClickUpCustom.node.ts:352-354 | `name` is always present, and no key outside the documented ones ever is |
| ClickUpCustomProperties.MarkdownReplacesContent | nodes/ClickUpCustom/ClickUpCustom.node.ts:421-424 | with markdown content there is no `content` key, and `markdown_content` holds the content input whenever it is given |
| ClickUpCustomProperties.PlainContent | nodes/ClickUpCustom/ClickUpCustom.node.ts:385-387 | without markdown content a non-empty content is sent as `content`, and `markdown_content` never appears |
| ClickUpCustomProperties.TimeEstimateAsWritten | nodes/ClickUpCustom/ClickUpCustom.node.ts:406-408 | the body `create` posts carries `time_estimate` if and only if the estimate is non-zero, and then as the estimate times 6000: one minute is sent as 6000, not 60000 |
| ClickUpCustomProperties.TimeEstimateInMillis | nodes/ClickUpCustom/ClickUpCustom.node.ts:406-408 | in the corrected body (see "## Findings"), not the one line 407 builds, a non-zero estimate is sent at 60000 ms per minute, and zero or none sends no key |
| ClickUpCustomProperties.CreatePostsTaskBody | nodes/ClickUpCustom/ClickUpCustom.node.ts:347-425 | the `create` operation issues exactly `[POST /list/{listId}/task with the task body]`, and fails exactly when that POST does |
| ClickUpCustomProperties.CreateBatchPostsEveryTask | nodes/ClickUpCustom/ClickUpCustom.node.ts:345-489 | when every POST succeeds, a `create` run posts one task body per item, in item order, and returns every response |
| ClickUpCustomProperties.CustomFieldsInBody | nodes/ClickUpCustom/ClickUpCustom.node.ts:384 | `custom_fields` is present if and only if some collection has a row, and then lists every row |
| ClickUpCustomProperties.FanOutAllAnswered | nodes/ClickUpCustom/ClickUpCustom.node.ts:465-480 | when every POST succeeds there is one POST per field in list order, and every response is kept, flattened, in order |
| ClickUpCustomProperties.FanOutStopsAtFirstFailure | nodes/ClickUpCustom/ClickUpCustom.node.ts:466-474 | the first failing POST ends the fan-out with its error, and no later field is sent |
| ClickUpCustomProperties.FieldRequestShape | nodes/ClickUpCustom/ClickUpCustom.node.ts:467-474 | each field is posted to `/task/{taskId}/field/{fieldId}` with its value and date-time flag and without `id` |
| ClickUpCustomProperties.SetCustomFieldNeedsAField | nodes/ClickUpCustom/ClickUpCustom.node.ts:460-464 | with no field collected the item fails with "Minimum 1 Custom Fields to Setting" before any request |
| ClickUpCustomProperties.SetCustomFieldSucceeds | nodes/ClickUpCustom/ClickUpCustom.node.ts:465-481 | with fields and every POST answered, the item posts each field and returns `{message: "OK", responseData}` with all the responses |
| ClickUpCustomProperties.UnknownOperationOutputsNothing | nodes/ClickUpCustom/ClickUpCustom.node.ts:345-489 | an unknown resource or operation issues no request, raises nothing and outputs nothing |
| ClickUpLoadOptions.GetAssignees | nodes/ClickUpCustom/ClickUpCustom.node.ts:173-195 | no request and no option when no listing applies; otherwise one GET of the listing and one option per member, named by username and valued by id |
| ClickUpLoadOptions.AssigneesNeedListOrTask | nodes/ClickUpCustom/ClickUpCustom.node.ts:177-184 | there is no member listing if and only if neither a list nor a task is chosen |
| ClickUpLoadOptions.AssigneesListWins | nodes/ClickUpCustom/ClickUpCustom.node.ts:177-178 | a chosen list's members are listed whatever the task |
| ClickUpLoadOptions.AssigneesOfTask | nodes/ClickUpCustom/ClickUpCustom.node.ts:179-180 | without a list, a chosen task's members are listed |
| ClickUpLoadOptions.GetCustomFields | nodes/ClickUpCustom/ClickUpCustom.node.ts:272-288 | the loop lists the fields without options |
| ClickUpLoadOptions.GetCustomFieldsOptions | nodes/ClickUpCustom/ClickUpCustom.node.ts:291-307 | the loop lists the dropdown and label fields |
| ClickUpLoadOptions.GetCustomFieldsOptionsValue | nodes/ClickUpCustom/ClickUpCustom.node.ts:310-331 | the nested loops list every option of the dropdown and label fields |
| ClickUpLoadOptions.PartitionSizes | nodes/ClickUpCustom/ClickUpCustom.node.ts:272-307 | the two field listings together have exactly one entry per field |
| ClickUpLoadOptions.PartitionCoversAll | nodes/ClickUpCustom/ClickUpCustom.node.ts:272-307 | as multisets the two field listings make up all the fields |
| ClickUpLoadOptions.PlainFieldsAppend | nodes/ClickUpCustom/ClickUpCustom.node.ts:272-288 | the listing of fields without options keeps list order (it distributes over concatenation) |
| ClickUpLoadOptions.OptionFieldsAppend | nodes/ClickUpCustom/ClickUpCustom.node.ts:291-307 | the listing of dropdown and label fields keeps list order |
| ClickUpLoadOptions.OptionValuesAppend | nodes/ClickUpCustom/ClickUpCustom.node.ts:310-331 | the option listing keeps field order and option order |
| ClickUpLoadOptions.ListingsComplete | nodes/ClickUpCustom/ClickUpCustom.node.ts:272-307 | every field is listed, by one helper or the other according to its type |
| ClickUpLoadOptions.ListingsSound | nodes/ClickUpCustom/ClickUpCustom.node.ts:272-307 | every entry of a listing is a field of the matching type |
| ClickUpLoadOptions.OptionValuesComplete | nodes/ClickUpCustom/ClickUpCustom.node.ts:310-331 | every option of every dropdown or label field is offered, named by `label` in a label field and by `name` in a dropdown, valued by its id |
| ClickUpLoadOptions.OptionValuesSound | nodes/ClickUpCustom/ClickUpCustom.node.ts:310-331 | everything offered is such an option |

## Left out

- Network plumbing: the request helpers, the API key header and the credentials. Each request is recorded, and its answer is an input of the item.
- `async`/`await`, the host's parameter accessors and item concurrency: parameters are fields of each item, and continue-on-fail is a flag.
- Dialog360's `apikey` parameter, which only travels to the request helper.
- Date parsing for `due_date` and `start_date`: the runtime's `Date` is a parameter `parseDate` of the task body, so an invalid date (which gives `NaN`) is not modelled.
- Floating point: numbers are integers, so a fractional priority or time estimate is not modelled.
- JSON key order: bodies are maps. The order in which `execute` inserts keys is not modelled.
- The parameter-schema files (TaskDescription.ts and the Dialog360 descriptions) and the `loadOptions` helpers that only copy a name and an id (spaces, lists, tags, time-entry tags, statuses, tasks).
- The GET that fetches a list's fields in the three custom-field helpers, and its failures: they take the fetched fields as input.
- ClickUpLoadOptions.OptionValuesComplete: a `labels` option without a `label` (or a dropdown option without a `name`) gives an undefined name in the source; here the name is always a string.
- A custom-field collection that has keys but no `values` array makes the source throw a TypeError; here a collection is its list of rows.
- Member ids are numbers in the listing's JSON; here they are strings.
- In the ClickUp loop `responseData` is declared once for all items. Every known operation assigns it before it is read, and an unknown one never assigns it, so no stale value can reach the output; the model gives each item its own result.
- A Dialog360 template with malformed component data (no `example`, no `header_handle`, no `body_text[0]`) fails with the runtime's TypeError message, `Malformed(property)`. This is stated as behaviour, not as a promise of the source.
- Substitution strings are split exactly as JavaScript's `split('|')`: it neither trims pieces nor drops empty ones, so `""` is one empty piece.
- A Dialog360 template's `raw` JSON, which `templates/get` returns, is an input of its own: the model does not tie it to the template's `name`, `namespace`, `language` or `components`, so what is proved about the returned value is which listing entry it is, not its content.

## Findings

`TaskBody`, which `create` and `execute` post, keeps the factor as written. `CorrectedTaskBody` is the same body with the factor 60000.

| source | as written | input that shows it | evidently intended | confidence | as-written member | corrected member |
|---|---|---|---|---|---|---|
| nodes/ClickUpCustom/ClickUpCustom.node.ts:407 | `time_estimate = timeEstimate * 6000`, while the parameter is documented as "Time estimate in minutes" (TaskDescription.ts:358) and a minute is 60000 ms | `timeEstimate = 1` sends 6000, six seconds | `timeEstimate * 60000`, one minute per unit | high; not executed | ClickUpCustomProperties.TimeEstimateAsWritten | ClickUpCustomProperties.TimeEstimateInMillis |

/**
  The 360 Dialog node's `execute`: `templates/get` lists the account's
  templates or finds one by name; `messages/send` finds the named template,
  compiles its components against the user's pipe-separated image URLs and body
  texts, wraps them in the message envelope and posts it. Every validation
  error is raised before the post.
 */
module Dialog360 {
  import opened Wrappers
  import opened Json
  import opened Text
  import opened Dialog360Interface
  import Batch

  /** The `example` data of a template component, as far as the compiler reads it. */
  datatype Example = Example(headerHandle: Option<seq<string>>, bodyText: Option<seq<seq<string>>>)

  /** A template component: its `type` (HEADER, BODY, FOOTER, ...), `format` and `example`. */
  datatype Component = Component(kind: string, format: Option<string>, example: Option<Example>)

  /**
    A template of the account's listing: the fields the compiler reads, and the
    object exactly as the listing holds it (what `templates/get` returns).
   */
  datatype Template = Template(name: string, namespace: string, language: string, components: seq<Component>, raw: Json)

  /** Everything an item can throw. */
  datatype Error =
    | TemplateNotFound(name: string)
    | UnknownOperation(operation: string)
    | UnknownResource(resource: string)
    | ImageRequired
    | ImageCountMismatch(required: nat, given: nat)
    | BodyRequired
    | BodyCountMismatch(required: nat, given: nat)
    | Malformed(property: string)   // the runtime's TypeError on a missing example property
    | Transport(message: string)    // a failed request, as the request helper reports it

  const ImageMismatchPrefix := "Images on Template need "
  const ImageMismatchMiddle := " image URL value, but given "
  const ImageMismatchSuffix := " URL value, please check the Image URL"
  const BodyMismatchPrefix := "Body Message on Template need "
  const BodyMismatchMiddle := " text value, but given "
  const BodyMismatchSuffix := " value, please check the Body Text"

  /**
    The `message` of the thrown error, which continue-on-fail records: the
    template, operation, resource or property it is about sits between fixed
    texts, and a failed request's message passes through unchanged.
   */
  function Message(e: Error): (m: string)
    ensures e.TemplateNotFound? ==> |m| == |e.name| + 25 && m[10..|m| - 15] == e.name
    ensures e.UnknownOperation? ==> |m| == |e.operation| + 30 && m[15..|m| - 15] == e.operation
    ensures e.UnknownResource? ==> |m| == |e.resource| + 29 && m[14..|m| - 15] == e.resource
    ensures e.Malformed? ==> |m| == |e.property| + 48 && m[46..|m| - 2] == e.property
    ensures e.Transport? ==> m == e.message
  {
    match e
    case TemplateNotFound(name) => "Template \"" + name + "\" is not found!"
    case UnknownOperation(operation) => "The operation \"" + operation + "\" is not known!"
    case UnknownResource(resource) => "The resource \"" + resource + "\" is not known!"
    case ImageRequired => "The Images URL is required"
    case ImageCountMismatch(required, given) =>
      ImageMismatchPrefix + (NatToString(required) + (ImageMismatchMiddle + (NatToString(given) + ImageMismatchSuffix)))
    case BodyRequired => "The Body Text Message is required"
    case BodyCountMismatch(required, given) =>
      BodyMismatchPrefix + (NatToString(required) + (BodyMismatchMiddle + (NatToString(given) + BodyMismatchSuffix)))
    case Malformed(property) => "Cannot read properties of undefined (reading '" + property + "')"
    case Transport(message) => message
  }

  /** A count-mismatch message states both the required and the given count: they can be read back from it. */
  lemma MismatchMessageStatesCounts(e: Error, e': Error)
    requires (e.ImageCountMismatch? && e'.ImageCountMismatch?) || (e.BodyCountMismatch? && e'.BodyCountMismatch?)
    requires Message(e) == Message(e')
    ensures e.required == e'.required && e.given == e'.given
  {
    if e.ImageCountMismatch? {
      TwoCountsRecoverable(ImageMismatchPrefix, ImageMismatchMiddle, ImageMismatchSuffix, e.required, e.given, e'.required, e'.given);
    } else {
      TwoCountsRecoverable(BodyMismatchPrefix, BodyMismatchMiddle, BodyMismatchSuffix, e.required, e.given, e'.required, e'.given);
    }
  }

  // ---------------------------------------------------------------- lookup

  /** The position of the first template whose name equals `name` exactly, if any. */
  function FindTemplate(templates: seq<Template>, name: string): (r: Option<nat>)
    ensures r.Some? ==> r.value < |templates| && templates[r.value].name == name
    ensures r.Some? ==> forall j :: 0 <= j < r.value ==> templates[j].name != name
    ensures r.None? <==> forall j :: 0 <= j < |templates| ==> templates[j].name != name
    decreases |templates|
  {
    if templates == [] then None
    else if templates[0].name == name then Some(0)
    else
      match FindTemplate(templates[1..], name)
      case None => None
      case Some(k) => Some(k + 1)
  }

  /** The search loop of both operations: the first exact match, by linear search with an early exit. */
  method LookupTemplate(templates: seq<Template>, name: string) returns (found: Option<nat>)
    ensures found == FindTemplate(templates, name)
  {
    found := None;
    for i := 0 to |templates|
      invariant found.None?
      invariant forall j :: 0 <= j < i ==> templates[j].name != name
    {
      if templates[i].name == name {
        found := Some(i);
        break;
      }
    }
  }

  // ---------------------------------------------------------------- compiler

  predicate IsImageHeader(c: Component)
  {
    c.kind == "HEADER" && c.format == Some("IMAGE")
  }

  /** Whether a component can appear in the compiled message at all. */
  predicate Contributes(c: Component)
  {
    IsImageHeader(c) || c.kind == "BODY"
  }

  function ImageParameters(links: seq<string>): seq<Parameter>
  {
    seq(|links|, i requires 0 <= i < |links| => ImageParameter(links[i]))
  }

  function TextParameters(texts: seq<string>): seq<Parameter>
  {
    seq(|texts|, i requires 0 <= i < |texts| => TextParameter(texts[i]))
  }

  /**
    What one template component contributes: nothing, one compiled component,
    or the error that stops compilation.
   */
  function CompileComponent(c: Component, image: Option<string>, body: Option<string>): Result<seq<CompiledComponent>, Error>
  {
    if IsImageHeader(c) then
      if image.None? then Err(ImageRequired)
      else
        var links := Split(image.value, '|');
        if c.example.None? then Err(Malformed("header_handle"))
        else if c.example.value.headerHandle.None? then Err(Malformed("length"))
        else
          var total := |c.example.value.headerHandle.value|;
          if |links| != total then Err(ImageCountMismatch(total, |links|))
          else Ok([Header(ImageParameters(links))])
    else if c.kind == "BODY" then
      if c.example.None? then Ok([Body(None)])
      else if body.None? then Err(BodyRequired)
      else
        var texts := Split(body.value, '|');
        if c.example.value.bodyText.None? then Err(Malformed("0"))
        else if |c.example.value.bodyText.value| == 0 then Err(Malformed("length"))
        else
          var total := |c.example.value.bodyText.value[0]|;
          if |texts| != total then Err(BodyCountMismatch(total, |texts|))
          else Ok([Body(Some(TextParameters(texts)))])
    else Ok([])
  }

  /** The components of a template compiled in order; the first error stops compilation. */
  function Compile(cs: seq<Component>, image: Option<string>, body: Option<string>): Result<seq<CompiledComponent>, Error>
    decreases |cs|
  {
    if cs == [] then Ok([])
    else
      match Compile(cs[..|cs| - 1], image, body)
      case Err(e) => Err(e)
      case Ok(done) =>
        match CompileComponent(cs[|cs| - 1], image, body)
        case Err(e) => Err(e)
        case Ok(more) => Ok(done + more)
  }

  /** The components of the template that contribute to the message, in template order. */
  function Contributing(cs: seq<Component>): seq<Component>
    decreases |cs|
  {
    if cs == [] then []
    else Contributing(cs[..|cs| - 1]) + (if Contributes(cs[|cs| - 1]) then [cs[|cs| - 1]] else [])
  }

  /** The inner loop of an image header: one image parameter per URL, in input order. */
  method BuildImageParameters(images: seq<string>) returns (parameters: seq<Parameter>)
    ensures |parameters| == |images|
    ensures forall i :: 0 <= i < |images| ==> parameters[i] == ImageParameter(images[i])
  {
    parameters := [];
    for i := 0 to |images|
      invariant |parameters| == i
      invariant forall j :: 0 <= j < i ==> parameters[j] == ImageParameter(images[j])
    {
      parameters := parameters + [ImageParameter(images[i])];
    }
  }

  /** The inner loop of a body: one text parameter per value, in input order. */
  method BuildTextParameters(texts: seq<string>) returns (parameters: seq<Parameter>)
    ensures |parameters| == |texts|
    ensures forall i :: 0 <= i < |texts| ==> parameters[i] == TextParameter(texts[i])
  {
    parameters := [];
    for i := 0 to |texts|
      invariant |parameters| == i
      invariant forall j :: 0 <= j < i ==> parameters[j] == TextParameter(texts[j])
    {
      parameters := parameters + [TextParameter(texts[i])];
    }
  }

  /** One pass of the component loop, branch by branch as the node takes it. */
  method CompileOne(d: Component, image: Option<string>, body: Option<string>) returns (r: Result<seq<CompiledComponent>, Error>)
    ensures r == CompileComponent(d, image, body)
  {
    if d.kind == "HEADER" && d.format == Some("IMAGE") {
      if image.None? {
        return Err(ImageRequired);
      }
      var images := Split(image.value, '|');
      if d.example.None? {
        return Err(Malformed("header_handle"));
      }
      if d.example.value.headerHandle.None? {
        return Err(Malformed("length"));
      }
      var totalImages := |d.example.value.headerHandle.value|;
      if |images| != totalImages {
        return Err(ImageCountMismatch(totalImages, |images|));
      }
      var parameters := BuildImageParameters(images);
      assert parameters == ImageParameters(images);
      r := Ok([Header(parameters)]);
    } else if d.kind == "BODY" {
      var compiled := Body(None);
      if d.example.Some? {
        if body.None? {
          return Err(BodyRequired);
        }
        var bodyMessages := Split(body.value, '|');
        if d.example.value.bodyText.None? {
          return Err(Malformed("0"));
        }
        if |d.example.value.bodyText.value| == 0 {
          return Err(Malformed("length"));
        }
        var totalBody := |d.example.value.bodyText.value[0]|;
        if |bodyMessages| != totalBody {
          return Err(BodyCountMismatch(totalBody, |bodyMessages|));
        }
        var parameters := BuildTextParameters(bodyMessages);
        assert parameters == TextParameters(bodyMessages);
        compiled := Body(Some(parameters));
      }
      r := Ok([compiled]);
    } else {
      r := Ok([]);
    }
  }

  /** A failure in the component at `i` is the failure of the whole compilation. */
  lemma {:induction false} CompileErrorIsFinal(cs: seq<Component>, i: nat, j: nat, image: Option<string>, body: Option<string>)
    requires i <= j <= |cs|
    requires Compile(cs[..i], image, body).Err?
    ensures Compile(cs[..j], image, body) == Compile(cs[..i], image, body)
    decreases j - i
  {
    if i < j {
      assert cs[..i + 1][..i] == cs[..i];
      CompileErrorIsFinal(cs, i + 1, j, image, body);
    }
  }

  /** The component loop of `messages/send`. */
  method CompileComponents(cs: seq<Component>, image: Option<string>, body: Option<string>) returns (r: Result<seq<CompiledComponent>, Error>)
    ensures r == Compile(cs, image, body)
  {
    var components: seq<CompiledComponent> := [];
    for i := 0 to |cs|
      invariant Compile(cs[..i], image, body) == Ok(components)
    {
      assert cs[..i + 1][..i] == cs[..i];
      var compiled := CompileOne(cs[i], image, body);
      if compiled.Err? {
        CompileErrorIsFinal(cs, i + 1, |cs|, image, body);
        assert cs[..|cs|] == cs;
        return Err(compiled.error);
      }
      components := components + compiled.value;
    }
    assert cs[..|cs|] == cs;
    r := Ok(components);
  }

  /** The envelope of `Dialog360Interface.ts`: recipient, template type, namespace, name and a deterministic language policy. */
  function Envelope(recipient: string, t: Template, components: seq<CompiledComponent>): MessageBody
  {
    MessageBody(recipient, "template", TemplateRef(t.namespace, t.name, Language("deterministic", t.language), components))
  }

  // ---------------------------------------------------------------- per item

  /** The `additionalFields` collection of an item. */
  datatype AdditionalFields = AdditionalFields(name: Option<string>, image: Option<string>, body: Option<string>)

  /**
    One input item: its parameters, the template listing the GET answers for it,
    and what the POST of its message answers.
   */
  datatype Item = Item(
    recipient: string,
    template: string,
    additionalFields: AdditionalFields,
    listing: Result<seq<Template>, string>,
    reply: Result<Response, string>)

  /** The requests an item issued and how it ended. */
  datatype Run = Run(requests: seq<Request>, result: Result<Response, Error>)

  const TemplatesPath := "v1/configs/templates"
  const MessagesPath := "v1/messages"

  /** `templates/get`: the whole listing, or the first template with the requested name. */
  function GetTemplates(item: Item): Run
  {
    var requests := [Get(TemplatesPath)];
    match item.listing
    case Err(m) => Run(requests, Err(Transport(m)))
    case Ok(templates) =>
      match item.additionalFields.name
      case None => Run(requests, Ok(Defined(Arr(seq(|templates|, i requires 0 <= i < |templates| => templates[i].raw)))))
      case Some(name) =>
        match FindTemplate(templates, name)
        case None => Run(requests, Err(TemplateNotFound(name)))
        case Some(k) => Run(requests, Ok(Defined(templates[k].raw)))
  }

  /** `messages/send`: look the template up, compile it, then post the envelope. */
  function SendMessage(item: Item): Run
  {
    var get := [Get(TemplatesPath)];
    match item.listing
    case Err(m) => Run(get, Err(Transport(m)))
    case Ok(templates) =>
      match FindTemplate(templates, item.template)
      case None => Run(get, Err(TemplateNotFound(item.template)))
      case Some(k) =>
        match Compile(templates[k].components, item.additionalFields.image, item.additionalFields.body)
        case Err(e) => Run(get, Err(e))
        case Ok(components) =>
          var post := Post(MessagesPath, Encode(Envelope(item.recipient, templates[k], components)));
          match item.reply
          case Err(m) => Run(get + [post], Err(Transport(m)))
          case Ok(response) => Run(get + [post], Ok(response))
  }

  /** The body of the item loop: dispatch on resource and operation. */
  function ExecuteItem(resource: string, operation: string, item: Item): Run
  {
    if resource == "templates" then
      if operation == "get" then GetTemplates(item) else Run([], Err(UnknownOperation(operation)))
    else if resource == "messages" then
      if operation == "send" then SendMessage(item) else Run([], Err(UnknownOperation(operation)))
    else Run([], Err(UnknownResource(resource)))
  }

  function ToItemRun(run: Run): Batch.ItemRun
  {
    Batch.ItemRun(run.requests, match run.result case Ok(r) => Batch.Produced(r) case Err(e) => Batch.Raised(Message(e)))
  }

  function Runs(resource: string, operation: string, items: seq<Item>): seq<Batch.ItemRun>
  {
    seq(|items|, i requires 0 <= i < |items| => ToItemRun(ExecuteItem(resource, operation, items[i])))
  }

  /** The record continue-on-fail leaves in place of a failing item. */
  function ErrorRecord(message: string): (record: Json)
    ensures record.Obj? && record.fields.Keys == {"error"} && record.fields["error"] == Str(message)
  {
    Obj(map["error" := Str(message)])
  }

  /** `messages/send` for one item, as the node performs it. */
  method SendMessageItem(item: Item) returns (run: Run)
    ensures run == SendMessage(item)
  {
    var get := [Get(TemplatesPath)];
    if item.listing.Err? {
      return Run(get, Err(Transport(item.listing.error)));
    }
    var templates := item.listing.value;
    var found := LookupTemplate(templates, item.template);
    if found.None? {
      return Run(get, Err(TemplateNotFound(item.template)));
    }
    var template := templates[found.value];
    var components := CompileComponents(template.components, item.additionalFields.image, item.additionalFields.body);
    if components.Err? {
      return Run(get, Err(components.error));
    }
    var body := Envelope(item.recipient, template, components.value);
    var post := Post(MessagesPath, Encode(body));
    if item.reply.Err? {
      return Run(get + [post], Err(Transport(item.reply.error)));
    }
    run := Run(get + [post], Ok(item.reply.value));
  }

  /** `templates/get` for one item, as the node performs it. */
  method GetTemplatesItem(item: Item) returns (run: Run)
    ensures run == GetTemplates(item)
  {
    var requests := [Get(TemplatesPath)];
    if item.listing.Err? {
      return Run(requests, Err(Transport(item.listing.error)));
    }
    var templates := item.listing.value;
    if item.additionalFields.name.Some? {
      var found := LookupTemplate(templates, item.additionalFields.name.value);
      if found.None? {
        return Run(requests, Err(TemplateNotFound(item.additionalFields.name.value)));
      }
      run := Run(requests, Ok(Defined(templates[found.value].raw)));
    } else {
      run := Run(requests, Ok(Defined(Arr(seq(|templates|, i requires 0 <= i < |templates| => templates[i].raw)))));
    }
  }

  /**
    `execute`: the item loop. Responses are appended (arrays element by element,
    `undefined` skipped); an item's error is recorded and skipped over with
    continue-on-fail, and otherwise rethrown, which ends the loop.
   */
  method Execute(resource: string, operation: string, items: seq<Item>, continueOnFail: bool) returns (r: Batch.BatchResult)
    ensures r == Batch.Collect(Runs(resource, operation, items), continueOnFail, ErrorRecord)
  {
    ghost var runs := Runs(resource, operation, items);
    var requests: seq<Request> := [];
    var returnData: seq<Json> := [];
    for i := 0 to |items|
      invariant Batch.Collect(runs[..i], continueOnFail, ErrorRecord) == Batch.BatchResult(requests, Batch.Returned(returnData))
    {
      Batch.CollectStep(runs, i, continueOnFail, ErrorRecord);
      var run: Run;
      if resource == "templates" {
        if operation == "get" {
          run := GetTemplatesItem(items[i]);
        } else {
          run := Run([], Err(UnknownOperation(operation)));
        }
      } else if resource == "messages" {
        if operation == "send" {
          run := SendMessageItem(items[i]);
        } else {
          run := Run([], Err(UnknownOperation(operation)));
        }
      } else {
        run := Run([], Err(UnknownResource(resource)));
      }
      requests := requests + run.requests;
      if run.result.Err? {
        if continueOnFail {
          returnData := returnData + [ErrorRecord(Message(run.result.error))];
          continue;
        }
        Batch.RethrownIsFinal(runs, i + 1, |runs|, continueOnFail, ErrorRecord);
        assert runs[..|runs|] == runs;
        return Batch.BatchResult(requests, Batch.Rethrown(Message(run.result.error)));
      }
      returnData := returnData + Flatten(run.result.value);
    }
    assert runs[..|runs|] == runs;
    r := Batch.BatchResult(requests, Batch.Returned(returnData));
  }
}

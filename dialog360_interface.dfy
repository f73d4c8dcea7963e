/**
  The message envelope the 360 Dialog node posts to `v1/messages` (`IBody`),
  the component payloads inside it, and their JSON wire form.
 */
module Dialog360Interface {
  import opened Wrappers
  import opened Json

  /** One substitution value of a compiled component. */
  datatype Parameter =
    | ImageParameter(link: string)   // {"type": "image", "image": {"link": link}}
    | TextParameter(text: string)    // {"type": "text", "text": text}

  /**
    A compiled component: an image header with its parameters, or a body whose
    `parameters` key is present only when the template declares example values.
   */
  datatype CompiledComponent =
    | Header(parameters: seq<Parameter>)
    | Body(bodyParameters: Option<seq<Parameter>>)

  datatype Language = Language(policy: string, code: string)

  datatype TemplateRef = TemplateRef(namespace: string, name: string, language: Language, components: seq<CompiledComponent>)

  /** `IBody`: recipient, message type and the template reference. */
  datatype MessageBody = MessageBody(to: string, kind: string, template: TemplateRef)

  function EncodeParameter(p: Parameter): Json
  {
    match p
    case ImageParameter(link) => Obj(map["type" := Str("image"), "image" := Obj(map["link" := Str(link)])])
    case TextParameter(text) => Obj(map["type" := Str("text"), "text" := Str(text)])
  }

  function EncodeParameters(ps: seq<Parameter>): (js: seq<Json>)
    ensures |js| == |ps|
  {
    if ps == [] then [] else [EncodeParameter(ps[0])] + EncodeParameters(ps[1..])
  }

  function EncodeComponent(c: CompiledComponent): Json
  {
    match c
    case Header(ps) => Obj(map["type" := Str("header"), "parameters" := Arr(EncodeParameters(ps))])
    case Body(None) => Obj(map["type" := Str("body")])
    case Body(Some(ps)) => Obj(map["type" := Str("body"), "parameters" := Arr(EncodeParameters(ps))])
  }

  function EncodeComponents(cs: seq<CompiledComponent>): (js: seq<Json>)
    ensures |js| == |cs|
  {
    if cs == [] then [] else [EncodeComponent(cs[0])] + EncodeComponents(cs[1..])
  }

  /** The JSON body posted to `v1/messages`. */
  function Encode(b: MessageBody): Json
  {
    Obj(map[
      "to" := Str(b.to),
      "type" := Str(b.kind),
      "template" := Obj(map[
        "namespace" := Str(b.template.namespace),
        "name" := Str(b.template.name),
        "language" := Obj(map["policy" := Str(b.template.language.policy), "code" := Str(b.template.language.code)]),
        "components" := Arr(EncodeComponents(b.template.components))])])
  }

  function StrField(m: map<string, Json>, key: string): Option<string>
  {
    if key in m && m[key].Str? then Some(m[key].s) else None
  }

  function ObjField(m: map<string, Json>, key: string): Option<map<string, Json>>
  {
    if key in m && m[key].Obj? then Some(m[key].fields) else None
  }

  function DecodeParameter(j: Json): Option<Parameter>
  {
    if !j.Obj? then None
    else if StrField(j.fields, "type") == Some("image") then
      match ObjField(j.fields, "image")
      case Some(img) => (match StrField(img, "link") case Some(l) => Some(ImageParameter(l)) case None => None)
      case None => None
    else if StrField(j.fields, "type") == Some("text") then
      match StrField(j.fields, "text")
      case Some(t) => Some(TextParameter(t))
      case None => None
    else None
  }

  function DecodeParameters(js: seq<Json>): Option<seq<Parameter>>
  {
    if js == [] then Some([])
    else
      match (DecodeParameter(js[0]), DecodeParameters(js[1..]))
      case (Some(p), Some(ps)) => Some([p] + ps)
      case _ => None
  }

  function DecodeComponent(j: Json): Option<CompiledComponent>
  {
    if !j.Obj? then None
    else
      var m := j.fields;
      var ps := if "parameters" in m && m["parameters"].Arr? then DecodeParameters(m["parameters"].elems) else None;
      if StrField(m, "type") == Some("header") then
        (if ps.Some? then Some(Header(ps.value)) else None)
      else if StrField(m, "type") == Some("body") then
        (if "parameters" !in m then Some(Body(None)) else if ps.Some? then Some(Body(Some(ps.value))) else None)
      else None
  }

  function DecodeComponents(js: seq<Json>): Option<seq<CompiledComponent>>
  {
    if js == [] then Some([])
    else
      match (DecodeComponent(js[0]), DecodeComponents(js[1..]))
      case (Some(c), Some(cs)) => Some([c] + cs)
      case _ => None
  }

  /** Reads a posted message body back from its JSON form. */
  function Decode(j: Json): Option<MessageBody>
  {
    if !j.Obj? then None
    else
      var m := j.fields;
      match (StrField(m, "to"), StrField(m, "type"), ObjField(m, "template"))
      case (Some(to), Some(kind), Some(t)) =>
        (match (StrField(t, "namespace"), StrField(t, "name"), ObjField(t, "language"))
         case (Some(ns), Some(name), Some(lang)) =>
           (match (StrField(lang, "policy"), StrField(lang, "code"))
            case (Some(policy), Some(code)) =>
              if "components" in t && t["components"].Arr? then
                match DecodeComponents(t["components"].elems)
                case Some(cs) => Some(MessageBody(to, kind, TemplateRef(ns, name, Language(policy, code), cs)))
                case None => None
              else None
            case _ => None)
         case _ => None)
      case _ => None
  }

  lemma {:induction false} DecodeEncodeParameters(ps: seq<Parameter>)
    ensures DecodeParameters(EncodeParameters(ps)) == Some(ps)
    decreases |ps|
  {
    if ps != [] {
      DecodeEncodeParameters(ps[1..]);
      assert EncodeParameters(ps)[1..] == EncodeParameters(ps[1..]);
      assert [ps[0]] + ps[1..] == ps;
    }
  }

  lemma DecodeEncodeComponent(c: CompiledComponent)
    ensures DecodeComponent(EncodeComponent(c)) == Some(c)
  {
    match c
    case Header(ps) => DecodeEncodeParameters(ps);
    case Body(None) =>
    case Body(Some(ps)) => DecodeEncodeParameters(ps);
  }

  lemma {:induction false} DecodeEncodeComponents(cs: seq<CompiledComponent>)
    ensures DecodeComponents(EncodeComponents(cs)) == Some(cs)
    decreases |cs|
  {
    if cs != [] {
      DecodeEncodeComponent(cs[0]);
      DecodeEncodeComponents(cs[1..]);
      assert EncodeComponents(cs)[1..] == EncodeComponents(cs[1..]);
      assert [cs[0]] + cs[1..] == cs;
    }
  }

  /** The wire form loses nothing: decoding the posted JSON gives back the envelope. */
  lemma DecodeEncode(b: MessageBody)
    ensures Decode(Encode(b)) == Some(b)
  {
    DecodeEncodeComponents(b.template.components);
  }

  /** Distinct envelopes are posted as distinct JSON bodies. */
  lemma EncodeInjective(a: MessageBody, b: MessageBody)
    requires Encode(a) == Encode(b)
    ensures a == b
  {
    DecodeEncode(a);
    DecodeEncode(b);
  }
}

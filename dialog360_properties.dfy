/**
  What the 360 Dialog message compiler promises: each component's validation,
  the order and shape of the compiled message, that every error comes before
  the post, the envelope that is posted, and how the item loop reports errors.
 */
module Dialog360Properties {
  import opened Wrappers
  import opened Json
  import opened Text
  import opened Dialog360Interface
  import opened Dialog360
  import Batch

  // ---------------------------------------------------------------- one component

  /**
    An image header: a missing `image` field fails before anything else, the
    URL count must equal the number of example handles, and on success the
    header carries one image parameter per URL piece, in input order.
   */
  lemma ImageHeaderValidation(c: Component, image: Option<string>, body: Option<string>)
    requires IsImageHeader(c)
    ensures image.None? ==> CompileComponent(c, image, body) == Err(ImageRequired)
    ensures image.Some? && c.example.Some? && c.example.value.headerHandle.Some? ==>
      var links := Split(image.value, '|');
      var total := |c.example.value.headerHandle.value|;
      && (CompileComponent(c, image, body).Ok? <==> |links| == total)
      && (|links| != total ==> CompileComponent(c, image, body) == Err(ImageCountMismatch(total, |links|)))
      && (|links| == total ==> CompileComponent(c, image, body) == Ok([Header(ImageParameters(links))]))
  {
  }

  /**
    The image URLs a user joins with `|` come back as exactly those links, one
    image parameter each in order, when their number is the number of handles;
    any other number fails with both counts. An empty `image` is one empty URL.
   */
  lemma {:induction false} ImageLinksRoundTrip(c: Component, links: seq<string>, body: Option<string>)
    requires IsImageHeader(c) && c.example.Some? && c.example.value.headerHandle.Some?
    requires |links| >= 1 && forall i :: 0 <= i < |links| ==> '|' !in links[i]
    ensures var total := |c.example.value.headerHandle.value|;
      CompileComponent(c, Some(Join(links, '|')), body) ==
        if |links| == total then Ok([Header(ImageParameters(links))])
        else Err(ImageCountMismatch(total, |links|))
    ensures |c.example.value.headerHandle.value| != 1 ==>
      CompileComponent(c, Some(""), body) == Err(ImageCountMismatch(|c.example.value.headerHandle.value|, 1))
  {
    SplitJoin(links, '|');
    SplitExamples();
  }

  /**
    A body: without `example` it is `{type: "body"}` with no parameters and needs
    no body input; with `example` a missing `body` fails, the text count must
    equal the length of the first example row, and on success the body carries
    one text parameter per piece, in input order.
   */
  lemma BodyValidation(c: Component, image: Option<string>, body: Option<string>)
    requires c.kind == "BODY"
    ensures c.example.None? ==> CompileComponent(c, image, body) == Ok([Body(None)])
    ensures c.example.Some? && body.None? ==> CompileComponent(c, image, body) == Err(BodyRequired)
    ensures c.example.Some? && body.Some? && c.example.value.bodyText.Some? && |c.example.value.bodyText.value| > 0 ==>
      var texts := Split(body.value, '|');
      var total := |c.example.value.bodyText.value[0]|;
      && (CompileComponent(c, image, body).Ok? <==> |texts| == total)
      && (|texts| != total ==> CompileComponent(c, image, body) == Err(BodyCountMismatch(total, |texts|)))
      && (|texts| == total ==> CompileComponent(c, image, body) == Ok([Body(Some(TextParameters(texts)))]))
  {
  }

  /** Body texts joined with `|` come back as exactly those texts when their number matches the example. */
  lemma {:induction false} BodyTextsRoundTrip(c: Component, texts: seq<string>, image: Option<string>)
    requires c.kind == "BODY" && c.example.Some? && c.example.value.bodyText.Some? && |c.example.value.bodyText.value| > 0
    requires |texts| >= 1 && forall i :: 0 <= i < |texts| ==> '|' !in texts[i]
    ensures var total := |c.example.value.bodyText.value[0]|;
      CompileComponent(c, image, Some(Join(texts, '|'))) ==
        if |texts| == total then Ok([Body(Some(TextParameters(texts)))])
        else Err(BodyCountMismatch(total, |texts|))
  {
    SplitJoin(texts, '|');
  }

  /** Headers of another format, footers, buttons and every other kind contribute nothing and never fail. */
  lemma OthersContributeNothing(c: Component, image: Option<string>, body: Option<string>)
    requires !Contributes(c)
    ensures CompileComponent(c, image, body) == Ok([])
  {
  }

  /** A contributing component compiles to exactly one component of its own kind. */
  lemma ContributingCompilesToOne(c: Component, image: Option<string>, body: Option<string>)
    requires Contributes(c) && CompileComponent(c, image, body).Ok?
    ensures |CompileComponent(c, image, body).value| == 1
    ensures IsImageHeader(c) <==> CompileComponent(c, image, body).value[0].Header?
  {
  }

  // ---------------------------------------------------------------- whole template

  /** Compilation succeeds exactly when every component compiles. */
  lemma {:induction false} CompileOkIffEveryComponentOk(cs: seq<Component>, image: Option<string>, body: Option<string>)
    ensures Compile(cs, image, body).Ok? <==> forall k :: 0 <= k < |cs| ==> CompileComponent(cs[k], image, body).Ok?
    decreases |cs|
  {
    if cs != [] {
      var init := cs[..|cs| - 1];
      CompileOkIffEveryComponentOk(init, image, body);
      assert forall k :: 0 <= k < |init| ==> init[k] == cs[k];
    }
  }

  /** Component `k` is the first of `cs` that fails to compile. */
  predicate FirstFailure(cs: seq<Component>, k: int, image: Option<string>, body: Option<string>)
  {
    && 0 <= k < |cs|
    && CompileComponent(cs[k], image, body).Err?
    && forall j :: 0 <= j < k ==> CompileComponent(cs[j], image, body).Ok?
  }

  /** A failed compilation reports the error of the first component that fails, in template order. */
  lemma {:induction false} CompileReportsFirstError(cs: seq<Component>, image: Option<string>, body: Option<string>)
    requires Compile(cs, image, body).Err?
    ensures exists k :: FirstFailure(cs, k, image, body) && CompileComponent(cs[k], image, body) == Err(Compile(cs, image, body).error)
    decreases |cs|
  {
    var init := cs[..|cs| - 1];
    assert forall k :: 0 <= k < |init| ==> init[k] == cs[k];
    if Compile(init, image, body).Err? {
      CompileReportsFirstError(init, image, body);
      var k :| FirstFailure(init, k, image, body) && CompileComponent(init[k], image, body) == Err(Compile(init, image, body).error);
      assert FirstFailure(cs, k, image, body);
    } else {
      CompileOkIffEveryComponentOk(init, image, body);
      assert FirstFailure(cs, |cs| - 1, image, body);
    }
  }

  /**
    The compiled components follow the template: the i-th compiled component is
    the compilation of the i-th image header or body of the template, and
    nothing else appears.
   */
  lemma {:induction false} CompileFollowsTemplateOrder(cs: seq<Component>, image: Option<string>, body: Option<string>)
    requires Compile(cs, image, body).Ok?
    ensures var out := Compile(cs, image, body).value;
      && |out| == |Contributing(cs)|
      && forall i :: 0 <= i < |out| ==> CompileComponent(Contributing(cs)[i], image, body) == Ok([out[i]])
    decreases |cs|
  {
    if cs != [] {
      var init := cs[..|cs| - 1];
      var last := cs[|cs| - 1];
      CompileFollowsTemplateOrder(init, image, body);
      if !Contributes(last) {
        OthersContributeNothing(last, image, body);
      } else {
        ContributingCompilesToOne(last, image, body);
      }
    }
  }

  // ---------------------------------------------------------------- one item

  /**
    `messages/send` with no template of the requested name fails with a
    not-found error naming it, after the listing and without any post.
   */
  lemma SendUnknownTemplateFails(item: Item)
    requires item.listing.Ok? && FindTemplate(item.listing.value, item.template).None?
    ensures SendMessage(item) == Run([Get(TemplatesPath)], Err(TemplateNotFound(item.template)))
  {
  }

  /** Every compilation error is raised before the post: nothing but the listing was requested. */
  lemma SendValidatesBeforePost(item: Item)
    requires SendMessage(item).result.Err?
    requires SendMessage(item).result.error.Transport? ==> |SendMessage(item).requests| == 1
    ensures SendMessage(item).requests == [Get(TemplatesPath)]
  {
  }

  /**
    What is posted: exactly one POST to `v1/messages`, after the listing, whose
    JSON body reads back as the envelope addressed to the recipient, of type
    "template", carrying the first template of the requested name (its
    namespace, name and language code, under the deterministic policy) and the
    compiled components.
   */
  lemma SentEnvelope(item: Item)
    requires |SendMessage(item).requests| > 1
    ensures item.listing.Ok? && FindTemplate(item.listing.value, item.template).Some?
    ensures var t := item.listing.value[FindTemplate(item.listing.value, item.template).value];
      var run := SendMessage(item);
      && |run.requests| == 2 && run.requests[0] == Get(TemplatesPath)
      && run.requests[1].Post? && run.requests[1].path == MessagesPath
      && Compile(t.components, item.additionalFields.image, item.additionalFields.body).Ok?
      && Decode(run.requests[1].payload) == Some(MessageBody(
           item.recipient,
           "template",
           TemplateRef(t.namespace, item.template, Language("deterministic", t.language),
             Compile(t.components, item.additionalFields.image, item.additionalFields.body).value)))
  {
    var t := item.listing.value[FindTemplate(item.listing.value, item.template).value];
    DecodeEncode(Envelope(item.recipient, t, Compile(t.components, item.additionalFields.image, item.additionalFields.body).value));
  }

  /** `templates/get` by name returns the first template of that name, as listed, or fails naming it. */
  lemma GetReturnsFirstMatch(item: Item)
    requires item.listing.Ok? && item.additionalFields.name.Some?
    ensures var ts := item.listing.value;
      var name := item.additionalFields.name.value;
      GetTemplates(item) ==
        if exists k :: 0 <= k < |ts| && ts[k].name == name then
          Run([Get(TemplatesPath)], Ok(Defined(ts[FindTemplate(ts, name).value].raw)))
        else Run([Get(TemplatesPath)], Err(TemplateNotFound(name)))
  {
  }

  // ---------------------------------------------------------------- the item loop

  /**
    An unknown resource fails every item without a request: the first error is
    rethrown, or with continue-on-fail each item leaves the error record.
   */
  lemma {:induction false} UnknownResourceFailsEveryItem(resource: string, operation: string, items: seq<Item>, continueOnFail: bool)
    requires resource != "templates" && resource != "messages" && |items| > 0
    ensures var r := Batch.Collect(Runs(resource, operation, items), continueOnFail, ErrorRecord);
      && r.requests == []
      && (!continueOnFail ==> r.verdict == Batch.Rethrown(Message(UnknownResource(resource))))
      && (continueOnFail ==> r.verdict == Batch.Returned(seq(|items|, i => ErrorRecord(Message(UnknownResource(resource))))))
  {
    var runs := Runs(resource, operation, items);
    var failed := Batch.ItemRun([], Batch.Raised(Message(UnknownResource(resource))));
    assert forall k :: 0 <= k < |runs| ==> runs[k] == failed;
    if continueOnFail {
      Batch.ContinueOnFailProcessesAll(runs, ErrorRecord);
      AllFailedRuns(runs, failed);
    } else {
      Batch.FirstFailureIsRethrown(runs, 0, ErrorRecord);
      assert runs[..1][..0] == [];
    }
  }

  /** Items that all raise the same error issue no request and leave one error record each. */
  lemma {:induction false} AllFailedRuns(runs: seq<Batch.ItemRun>, failed: Batch.ItemRun)
    requires failed.requests == [] && failed.outcome.Raised?
    requires forall k :: 0 <= k < |runs| ==> runs[k] == failed
    ensures Batch.AllRequests(runs) == []
    ensures Batch.AllRecords(runs, ErrorRecord) == seq(|runs|, i => ErrorRecord(failed.outcome.message))
    decreases |runs|
  {
    if runs != [] {
      AllFailedRuns(runs[..|runs| - 1], failed);
    }
  }

  // ---------------------------------------------------------------- scenarios

  /** A template with an image header of one slot and a body of two slots. */
  function WelcomeTemplate(): Template
  {
    Template("welcome", "ns1", "en",
      [Component("HEADER", Some("IMAGE"), Some(Example(Some(["h"]), None))),
       Component("BODY", None, Some(Example(None, Some([["x", "y"]]))))],
      Null)
  }

  /**
    That template filled with one URL and two texts: one image parameter and two
    text parameters, in order; for instance the URL "https://x/1.png" and the
    body "Alice|123 Main St".
   */
  lemma {:induction false} WelcomeScenario(url: string, first: string, second: string)
    requires '|' !in url && '|' !in first && '|' !in second
    ensures Compile(WelcomeTemplate().components, Some(url), Some(first + "|" + second))
      == Ok([Header([ImageParameter(url)]), Body(Some([TextParameter(first), TextParameter(second)]))])
  {
    var cs := WelcomeTemplate().components;
    var image, body := Some(url), Some(first + "|" + second);
    assert Join([url], '|') == url;
    ImageLinksRoundTrip(cs[0], [url], body);
    assert ImageParameters([url]) == [ImageParameter(url)];
    assert Join([first, second], '|') == first + "|" + second;
    BodyTextsRoundTrip(cs[1], [first, second], image);
    assert TextParameters([first, second]) == [TextParameter(first), TextParameter(second)];
    assert CompileComponent(cs[0], image, body) == Ok([Header([ImageParameter(url)])]);
    assert CompileComponent(cs[1], image, body) == Ok([Body(Some([TextParameter(first), TextParameter(second)]))]);
    TwoComponents(cs, image, body);
    var h, b := Header([ImageParameter(url)]), Body(Some([TextParameter(first), TextParameter(second)]));
    assert Compile(cs, image, body) == Ok([h] + [b]);
    assert [h] + [b] == [h, b];
    assert Compile(WelcomeTemplate().components, Some(url), Some(first + "|" + second)) == Ok([h, b]);
  }

  /** The same template given two URLs for its one image slot: the count error (required 1, given 2), before any post. */
  lemma {:induction false} WelcomeScenarioTooManyImages(url1: string, url2: string, body: Option<string>)
    requires '|' !in url1 && '|' !in url2
    ensures Compile(WelcomeTemplate().components, Some(url1 + "|" + url2), body) == Err(ImageCountMismatch(1, 2))
  {
    var cs := WelcomeTemplate().components;
    var image := Some(url1 + "|" + url2);
    assert Join([url1, url2], '|') == url1 + "|" + url2;
    ImageLinksRoundTrip(cs[0], [url1, url2], body);
    TwoComponents(cs, image, body);
  }

  /** Compilation of a two-component template, unfolded. */
  lemma TwoComponents(cs: seq<Component>, image: Option<string>, body: Option<string>)
    requires |cs| == 2
    ensures Compile(cs, image, body) ==
      match CompileComponent(cs[0], image, body)
      case Err(e) => Err(e)
      case Ok(first) =>
        match CompileComponent(cs[1], image, body)
        case Err(e) => Err(e)
        case Ok(second) => Ok(first + second)
  {
    var one := cs[..1];
    assert one[..0] == [];
    assert one[0] == cs[0];
    assert Compile(one, image, body) == (match CompileComponent(cs[0], image, body) case Err(e) => Err(e) case Ok(first) => Ok(first)) by {
      assert Compile(one[..0], image, body) == Ok([]);
      match CompileComponent(cs[0], image, body)
      case Err(e) =>
      case Ok(first) => assert [] + first == first;
    }
    assert cs[..|cs| - 1] == one;
  }
}

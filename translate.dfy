/** The `Translate` task: asks a fixed chat model to translate a text. */
module Translate {
  import opened Outcomes
  import opened Api
  import opened Host
  import opened JavaFormat

  const Model := "gpt-3.5-turbo"
  const WithSourceTemplate := "Translate '%s' from %s in %s"
  const WithoutSourceTemplate := "Translate '%s' in %s"

  /** The task's configuration; `from` may be null, `to` and `text` may not. */
  datatype Task = Task(from: Option<string>, to: string, text: string)

  datatype Output = Output(translation: string, text: string, to: string)

  /** The rendered target language and text, and the prompt built from them. */
  datatype Prepared = Prepared(to: string, text: string, content: string)

  lemma ContentWithSource(text: string, from: string, to: string)
    ensures Format(WithSourceTemplate, [text, from, to]) == Some("Translate '" + text + "' from " + from + " in " + to)
  {
    assert WithSourceTemplate == "Translate '" + ("%s" + ("' from " + ("%s" + (" in " + ("%s" + "")))));
    FormatThree("Translate '", "' from ", " in ", text, from, to);
  }

  lemma ContentWithoutSource(text: string, to: string)
    ensures Format(WithoutSourceTemplate, [text, to]) == Some("Translate '" + text + "' in " + to)
  {
    assert WithoutSourceTemplate == "Translate '" + ("%s" + ("' in " + ("%s" + "")));
    FormatTwo("Translate '", "' in ", text, to);
  }

  /** The prompt sent to the model, from the rendered text, source and target languages. */
  function Content(text: string, from: Option<string>, to: string): (c: string)
    ensures from.Some? ==> c == "Translate '" + text + "' from " + from.value + " in " + to
    ensures from.None? ==> c == "Translate '" + text + "' in " + to
  {
    match from
    case Some(f) =>
      ContentWithSource(text, f, to);
      Format(WithSourceTemplate, [text, f, to]).value
    case None =>
      ContentWithoutSource(text, to);
      Format(WithoutSourceTemplate, [text, to]).value
  }

  /** Renders `to`, then `text`, then `from` when it is set, and builds the prompt. */
  function Prepare(task: Task, render: string -> Result<string>): (r: Result<Prepared>)
    ensures r.Ok? ==> render(task.to) == Ok(r.value.to) && render(task.text) == Ok(r.value.text)
    ensures r.Ok? && task.from.Some? ==>
      render(task.from.value).Ok? && r.value.content == Content(r.value.text, Some(render(task.from.value).value), r.value.to)
    ensures r.Ok? && task.from.None? ==> r.value.content == Content(r.value.text, None, r.value.to)
  {
    var to :- render(task.to);
    var text :- render(task.text);
    if task.from.Some? then
      var from :- render(task.from.value);
      Ok(Prepared(to, text, Content(text, Some(from), to)))
    else
      Ok(Prepared(to, text, Content(text, None, to)))
  }

  /** The request: the prompt as the only message, a fixed model and `n = 1`;
      every other field is left null. */
  function RequestFor(content: string): ChatRequest
  {
    ChatRequest([Message("user", content)], Some(Model), None, None, Some(1), None, None, None, None, None, None)
  }

  /** The output built from the API's answer: the content of its first choice. */
  function Answer(p: Prepared, response: Result<ChatResult>): (r: Result<Output>)
    ensures response.Err? ==> r == Err(response.error)
    ensures response.Ok? ==> (r.Ok? <==> |response.value.choices| > 0)
    ensures r.Ok? ==>
      && response.Ok? && |response.value.choices| > 0
      && r.value == Output(response.value.choices[0].message.content, p.text, p.to)
  {
    var result :- response;
    if |result.choices| == 0 then Err(IndexOutOfBoundsException(0, 0))
    else Ok(Output(result.choices[0].message.content, p.text, p.to))
  }

  /** The preparation succeeds exactly when every rendering it asks for succeeds;
      `from` is rendered only when it is set. */
  lemma PrepareSucceeds(task: Task, render: string -> Result<string>)
    ensures Prepare(task, render).Ok? <==>
      render(task.to).Ok? && render(task.text).Ok? && (task.from.Some? ==> render(task.from.value).Ok?)
    ensures !render(task.to).Ok? ==> Prepare(task, render) == Err(render(task.to).error)
    ensures render(task.to).Ok? && !render(task.text).Ok? ==> Prepare(task, render) == Err(render(task.text).error)
    ensures render(task.to).Ok? && render(task.text).Ok? && task.from.Some? && render(task.from.value).Err? ==>
      Prepare(task, render) == Err(render(task.from.value).error)
  {
  }

  /** With `from` null, nothing but `to` and `text` is rendered: two hosts that
      agree on those two give the same preparation. */
  lemma AbsentFromIsNotRendered(task: Task, render1: string -> Result<string>, render2: string -> Result<string>)
    requires task.from.None?
    requires render1(task.to) == render2(task.to) && render1(task.text) == render2(task.text)
    ensures Prepare(task, render1) == Prepare(task, render2)
  {
  }

  /** Whatever the configuration, the request holds one user message whose content
      is the exact prompt built from the rendered values, for the fixed model with `n = 1`. */
  lemma RequestIsFixed(task: Task, render: string -> Result<string>)
    requires render(task.to).Ok? && render(task.text).Ok?
    requires task.from.Some? ==> render(task.from.value).Ok?
    ensures Prepare(task, render).Ok?
    ensures var req := RequestFor(Prepare(task, render).value.content);
      var text, to := render(task.text).value, render(task.to).value;
      && |req.messages| == 1
      && req.messages[0].role == "user"
      && req.messages[0].content ==
           (if task.from.Some? then "Translate '" + text + "' from " + render(task.from.value).value + " in " + to
            else "Translate '" + text + "' in " + to)
      && req.model == Some("gpt-3.5-turbo")
      && req.n == Some(1)
      && req.temperature.None? && req.topP.None? && req.stop.None? && req.maxTokens.None?
      && req.presencePenalty.None? && req.frequencyPenalty.None? && req.logitBias.None? && req.user.None?
  {
  }

  /** The output echoes the rendered `to` and `text` and carries the first choice's
      content; an answer without choices fails as Java's `get(0)` does. */
  lemma AnswerFromFirstChoice(p: Prepared, result: ChatResult)
    ensures Answer(p, Ok(result)).Ok? <==> |result.choices| > 0
    ensures |result.choices| > 0 ==>
      Answer(p, Ok(result)) == Ok(Output(result.choices[0].message.content, p.text, p.to))
    ensures |result.choices| == 0 ==> Answer(p, Ok(result)) == Err(IndexOutOfBoundsException(0, 0))
  {
  }

  /** A failed API call fails the task with the same error. */
  lemma AnswerPropagatesFailure(p: Prepared, e: Error)
    ensures Answer(p, Err(e)) == Err(e)
  {
  }

  /** `Translate.run`. */
  method Run(task: Task, ctx: RunContext, client: OpenAiService) returns (r: Result<Output>)
    modifies client`chatRequests
    ensures var p := Prepare(task, ctx.render);
      && client.chatRequests == old(client.chatRequests) + (if p.Ok? then [RequestFor(p.value.content)] else [])
      && r == (if p.Ok? then Answer(p.value, client.chatEndpoint(RequestFor(p.value.content))) else Err(p.error))
  {
    var to := ctx.render(task.to);
    if to.Err? { return Err(to.error); }
    var text := ctx.render(task.text);
    if text.Err? { return Err(text.error); }
    var content: string;
    if task.from.Some? {
      var from := ctx.render(task.from.value);
      if from.Err? { return Err(from.error); }
      content := Content(text.value, Some(from.value), to.value);
    } else {
      content := Content(text.value, None, to.value);
    }
    var request := RequestFor(content);
    var response := client.CreateChatCompletion(request);
    if response.Err? { return Err(response.error); }
    var choices := response.value.choices;
    if |choices| == 0 { return Err(IndexOutOfBoundsException(0, |choices|)); }
    r := Ok(Output(choices[0].message.content, text.value, to.value));
  }
}

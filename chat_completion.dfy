/** The `ChatCompletion` task: renders a conversation and asks the API to continue it. */
module ChatCompletion {
  import opened Outcomes
  import opened Api
  import opened Host

  const MissingInputMessage := "At least messages or prompt must be set"

  /** The task's configuration. `messages` holds the task's own message objects,
      which `Run` rewrites in place; `model` and `user` are always rendered. */
  datatype Task = Task(
    messages: Option<seq<ChatMessage>>,
    prompt: Option<string>,
    temperature: Option<real>,
    topP: Option<real>,
    n: Option<int>,
    stop: Option<seq<string>>,
    maxTokens: Option<int>,
    presencePenalty: Option<real>,
    frequencyPenalty: Option<real>,
    logitBias: Option<map<string, int>>,
    model: string,
    user: string)

  /** `objectType` is the output's `object` field. */
  datatype Output = Output(
    id: string,
    objectType: string,
    created: int,
    model: string,
    choices: seq<Choice>,
    usage: Usage)

  /** The fields rendered before the messages. */
  datatype Rendered = Rendered(stop: Option<seq<string>>, user: string, model: string)

  /** The configured message objects. */
  function Frame(task: Task): set<ChatMessage>
  {
    if task.messages.Some? then set m | m in task.messages.value else {}
  }

  /** The configured messages as values, in list order; none when `messages` is null. */
  function Configured(task: Task): seq<Message>
    reads Frame(task)
  {
    if task.messages.Some? then Values(task.messages.value) else []
  }

  /** No message object occurs twice in the list. */
  predicate Distinct(ms: seq<ChatMessage>)
  {
    forall i, j :: 0 <= i < j < |ms| ==> ms[i] != ms[j]
  }

  /** `buildMessage`. */
  function BuildMessage(role: string, content: string): Message
  {
    Message(role, content)
  }

  /** The input check, then `stop` (only when set), `user` and `model`, in that order. */
  function RenderFields(task: Task, render: string -> Result<string>,
                        renderList: seq<string> -> Result<seq<string>>): (r: Result<Rendered>)
    ensures task.messages.None? && task.prompt.None? ==> r == Err(Exception(MissingInputMessage))
    ensures r.Ok? <==>
      && (task.messages.Some? || task.prompt.Some?)
      && (task.stop.Some? ==> renderList(task.stop.value).Ok?)
      && render(task.user).Ok? && render(task.model).Ok?
    ensures r.Ok? ==>
      && (task.stop.None? ==> r.value.stop.None?)
      && (task.stop.Some? ==> r.value.stop.Some? && renderList(task.stop.value) == Ok(r.value.stop.value))
      && render(task.user) == Ok(r.value.user) && render(task.model) == Ok(r.value.model)
    ensures (task.messages.Some? || task.prompt.Some?) && task.stop.Some? && renderList(task.stop.value).Err? ==>
      r == Err(renderList(task.stop.value).error)
    ensures ((task.messages.Some? || task.prompt.Some?) && (task.stop.Some? ==> renderList(task.stop.value).Ok?) &&
             render(task.user).Err?) ==>
      r == Err(render(task.user).error)
    ensures ((task.messages.Some? || task.prompt.Some?) && (task.stop.Some? ==> renderList(task.stop.value).Ok?) &&
             render(task.user).Ok? && render(task.model).Err?) ==>
      r == Err(render(task.model).error)
  {
    if task.messages.None? && task.prompt.None? then Err(Exception(MissingInputMessage))
    else
      var stop :- if task.stop.Some? then (var s :- renderList(task.stop.value); Ok(Some(s))) else Ok(None);
      var user :- render(task.user);
      var model :- render(task.model);
      Ok(Rendered(stop, user, model))
  }

  /** The catch around each content's rendering: an unresolvable variable is rethrown
      wrapped in a `RuntimeException`; any other failure escapes as it is. */
  function Rethrown(e: Error): Error
  {
    if e.IllegalVariableEvaluationException? then RuntimeException(e) else e
  }

  /** The number of leading messages whose content renders before the first failure. */
  function RenderedPrefix(ms: seq<Message>, render: string -> Result<string>): (k: nat)
    ensures k <= |ms|
    ensures forall i :: 0 <= i < k ==> render(ms[i].content).Ok?
    ensures k < |ms| ==> render(ms[k].content).Err?
  {
    if ms == [] || render(ms[0].content).Err? then 0 else 1 + RenderedPrefix(ms[1..], render)
  }

  /** The messages with their content rendered, in order, or the first failure as the
      catch lets it out. */
  function RenderMessages(ms: seq<Message>, render: string -> Result<string>): (r: Result<seq<Message>>)
    ensures r.Ok? <==> forall i :: 0 <= i < |ms| ==> render(ms[i].content).Ok?
    ensures r.Ok? ==> |r.value| == |ms|
    ensures r.Ok? ==> forall i :: 0 <= i < |ms| ==>
      r.value[i].role == ms[i].role && render(ms[i].content) == Ok(r.value[i].content)
    ensures r.Err? ==>
      var k := RenderedPrefix(ms, render);
      k < |ms| &&
      var e := render(ms[k].content).error;
      && (e.IllegalVariableEvaluationException? ==> r.error == RuntimeException(e))
      && (!e.IllegalVariableEvaluationException? ==> r.error == e)
  {
    if ms == [] then Ok([])
    else
      match render(ms[0].content)
      case Err(e) => Err(Rethrown(e))
      case Ok(c) =>
        var rest :- RenderMessages(ms[1..], render);
        Ok([Message(ms[0].role, c)] + rest)
  }

  /** The request built from the rendered fields and the final message list. */
  function RequestOf(task: Task, fields: Rendered, messages: seq<Message>): (r: ChatRequest)
    ensures r.messages == messages && r.model == Some(fields.model) && r.user == Some(fields.user)
    ensures r.stop == fields.stop && r.temperature == task.temperature && r.topP == task.topP && r.n == task.n
    ensures r.maxTokens == task.maxTokens && r.presencePenalty == task.presencePenalty
    ensures r.frequencyPenalty == task.frequencyPenalty && r.logitBias == task.logitBias
  {
    ChatRequest(messages, Some(fields.model), task.temperature, task.topP, task.n, fields.stop,
                task.maxTokens, task.presencePenalty, task.frequencyPenalty, task.logitBias, Some(fields.user))
  }

  /** The request `run` sends, or the failure that stops it before anything is sent.
      `configured` is the value of the task's message list (empty when it is null)
      as it stands before `run` rewrites it. */
  function RequestFor(task: Task, configured: seq<Message>, render: string -> Result<string>,
                      renderList: seq<string> -> Result<seq<string>>): (r: Result<ChatRequest>)
    ensures RenderFields(task, render, renderList).Err? ==> r == Err(RenderFields(task, render, renderList).error)
    ensures RenderFields(task, render, renderList).Ok? && RenderMessages(configured, render).Err? ==>
      r == Err(RenderMessages(configured, render).error)
    ensures (RenderFields(task, render, renderList).Ok? && RenderMessages(configured, render).Ok? &&
             task.prompt.Some? && render(task.prompt.value).Err?) ==>
      r == Err(render(task.prompt.value).error)
    ensures r.Ok? ==>
      && RenderFields(task, render, renderList).Ok? && RenderMessages(configured, render).Ok?
      && (task.prompt.Some? ==> render(task.prompt.value).Ok?)
      && r.value.messages == RenderMessages(configured, render).value
           + (if task.prompt.Some? then [Message("user", render(task.prompt.value).value)] else [])
  {
    var fields :- RenderFields(task, render, renderList);
    var messages :- RenderMessages(configured, render);
    var last :- if task.prompt.Some? then (var p :- render(task.prompt.value); Ok([BuildMessage("user", p)])) else Ok([]);
    Ok(RequestOf(task, fields, messages + last))
  }

  /** How many configured message objects `run` rewrites before it stops. */
  function Touched(task: Task, configured: seq<Message>, render: string -> Result<string>,
                   renderList: seq<string> -> Result<seq<string>>): nat
  {
    if RenderFields(task, render, renderList).Err? then 0 else RenderedPrefix(configured, render)
  }

  function OutputOf(result: ChatResult): Output
  {
    Output(result.id, result.objectType, result.created, result.model, result.choices, result.usage)
  }

  /** The output for the API's answer. */
  function Completion(response: Result<ChatResult>): (r: Result<Output>)
    ensures r.Ok? <==> response.Ok?
    ensures response.Err? ==> r == Err(response.error)
    ensures r.Ok? ==> r.value.choices == response.value.choices && r.value.usage == response.value.usage
  {
    match response
    case Ok(result) => Ok(OutputOf(result))
    case Err(e) => Err(e)
  }

  /** The three usage counters, in emission order. */
  function UsageCounters(usage: Usage): (c: seq<Counter>)
    ensures |c| == 3 && forall i, j :: 0 <= i < j < |c| ==> c[i].name != c[j].name
    ensures c[0].value == usage.promptTokens && c[1].value == usage.completionTokens && c[2].value == usage.totalTokens
    ensures c[0].name == "usage.prompt_tokens" && c[1].name == "usage.completion_tokens" && c[2].name == "usage.total_tokens"
  {
    [Counter("usage.prompt_tokens", usage.promptTokens),
     Counter("usage.completion_tokens", usage.completionTokens),
     Counter("usage.total_tokens", usage.totalTokens)]
  }

  /** With neither `messages` nor `prompt`, the run fails with the task's own
      message before anything is rendered or sent. */
  lemma MissingInputRejected(task: Task, configured: seq<Message>, render: string -> Result<string>,
                             renderList: seq<string> -> Result<seq<string>>)
    requires task.messages.None? && task.prompt.None?
    ensures RequestFor(task, configured, render, renderList) == Err(Exception("At least messages or prompt must be set"))
    ensures Touched(task, configured, render, renderList) == 0
  {
  }

  /** A request is built exactly when the input check passes and every rendering it
      asks for succeeds: `stop` only when set, `user`, `model`, every configured
      content, and `prompt` only when set. */
  lemma RequestSucceeds(task: Task, configured: seq<Message>, render: string -> Result<string>,
                        renderList: seq<string> -> Result<seq<string>>)
    ensures RequestFor(task, configured, render, renderList).Ok? <==>
      && (task.messages.Some? || task.prompt.Some?)
      && (task.stop.Some? ==> renderList(task.stop.value).Ok?)
      && render(task.user).Ok? && render(task.model).Ok?
      && (forall i :: 0 <= i < |configured| ==> render(configured[i].content).Ok?)
      && (task.prompt.Some? ==> render(task.prompt.value).Ok?)
  {
  }

  /** The request holds the configured messages, plus one when `prompt` is set. */
  lemma RequestMessageCount(task: Task, configured: seq<Message>, render: string -> Result<string>,
                            renderList: seq<string> -> Result<seq<string>>)
    requires task.messages.None? ==> configured == []
    requires RequestFor(task, configured, render, renderList).Ok?
    ensures |RequestFor(task, configured, render, renderList).value.messages|
         == |configured| + (if task.prompt.Some? then 1 else 0)
  {
  }

  /** The configured messages come first, in their order, each with its role and its
      rendered content. */
  lemma ConfiguredMessagesFirst(task: Task, configured: seq<Message>, render: string -> Result<string>,
                                renderList: seq<string> -> Result<seq<string>>, i: nat)
    requires RequestFor(task, configured, render, renderList).Ok? && i < |configured|
    ensures var m := RequestFor(task, configured, render, renderList).value.messages;
      i < |m| && m[i].role == configured[i].role && render(configured[i].content) == Ok(m[i].content)
  {
  }

  /** With `prompt` set, the last message is a user message holding the rendered prompt;
      without it, the last message is the last configured one. */
  lemma PromptIsLast(task: Task, configured: seq<Message>, render: string -> Result<string>,
                     renderList: seq<string> -> Result<seq<string>>)
    requires RequestFor(task, configured, render, renderList).Ok?
    ensures var m := RequestFor(task, configured, render, renderList).value.messages;
      && (task.prompt.Some? ==>
           |m| > 0 && m[|m| - 1].role == "user" && render(task.prompt.value) == Ok(m[|m| - 1].content))
      && (task.prompt.None? ==> |m| == |configured|)
  {
  }

  /** `stop` is rendered only when set; a null `stop` is sent as null. */
  lemma StopRenderedOnlyWhenSet(task: Task, configured: seq<Message>, render: string -> Result<string>,
                                renderList: seq<string> -> Result<seq<string>>)
    requires RequestFor(task, configured, render, renderList).Ok?
    ensures var req := RequestFor(task, configured, render, renderList).value;
      && (task.stop.None? ==> req.stop.None?)
      && (task.stop.Some? ==> req.stop.Some? && renderList(task.stop.value) == Ok(req.stop.value))
  {
  }

  /** The sampling parameters are copied unchanged; `model` and `user` are the rendered values. */
  lemma ParametersCopied(task: Task, configured: seq<Message>, render: string -> Result<string>,
                         renderList: seq<string> -> Result<seq<string>>)
    requires RequestFor(task, configured, render, renderList).Ok?
    ensures var req := RequestFor(task, configured, render, renderList).value;
      && req.temperature == task.temperature && req.topP == task.topP && req.n == task.n
      && req.maxTokens == task.maxTokens && req.presencePenalty == task.presencePenalty
      && req.frequencyPenalty == task.frequencyPenalty && req.logitBias == task.logitBias
      && req.model.Some? && render(task.model) == Ok(req.model.value)
      && req.user.Some? && render(task.user) == Ok(req.user.value)
  {
  }

  /** When a request is sent, every configured message object has been rewritten;
      when a content fails to render, exactly the messages before it have been, and
      the run fails with that failure, wrapped only if it is an unresolvable variable. */
  lemma RewrittenMessages(task: Task, configured: seq<Message>, render: string -> Result<string>,
                          renderList: seq<string> -> Result<seq<string>>, i: nat)
    requires RenderFields(task, render, renderList).Ok?
    requires i < |configured| && render(configured[i].content).Err?
    requires forall j :: 0 <= j < i ==> render(configured[j].content).Ok?
    ensures Touched(task, configured, render, renderList) == i
    ensures var e := render(configured[i].content).error;
      && (e.IllegalVariableEvaluationException? ==> RequestFor(task, configured, render, renderList) == Err(RuntimeException(e)))
      && (!e.IllegalVariableEvaluationException? ==> RequestFor(task, configured, render, renderList) == Err(e))
  {
  }

  /** When the first failing content fails with anything but an unresolvable
      variable, the rendering fails with that very error. */
  lemma OtherRenderFailureNotWrapped(ms: seq<Message>, render: string -> Result<string>)
    requires RenderedPrefix(ms, render) < |ms|
    requires !render(ms[RenderedPrefix(ms, render)].content).error.IllegalVariableEvaluationException?
    ensures RenderMessages(ms, render) == Err(render(ms[RenderedPrefix(ms, render)].content).error)
  {
  }

  /** A sent request means every configured message object was rewritten. */
  lemma AllRewrittenOnSuccess(task: Task, configured: seq<Message>, render: string -> Result<string>,
                              renderList: seq<string> -> Result<seq<string>>)
    requires RequestFor(task, configured, render, renderList).Ok?
    ensures Touched(task, configured, render, renderList) == |configured|
  {
  }

  /** The output copies the result's fields verbatim; a failed call is passed on. */
  lemma CompletionCopiesResult(response: Result<ChatResult>)
    ensures Completion(response).Ok? <==> response.Ok?
    ensures response.Ok? ==>
      var o, c := Completion(response).value, response.value;
      o.id == c.id && o.objectType == c.objectType && o.created == c.created &&
      o.model == c.model && o.choices == c.choices && o.usage == c.usage
    ensures response.Err? ==> Completion(response) == Err(response.error)
  {
  }

  /** The loop of `run` over the configured messages: renders each content and
      writes it back into the message object, stopping at the first failure. */
  method RenderInPlace(ms: seq<ChatMessage>, render: string -> Result<string>) returns (r: Result<seq<Message>>)
    requires Distinct(ms)
    modifies set m | m in ms
    ensures r == RenderMessages(old(Values(ms)), render)
    ensures var k := RenderedPrefix(old(Values(ms)), render);
      forall i :: 0 <= i < |ms| ==>
        && ms[i].role == old(ms[i].role)
        && (if i < k then render(old(ms[i].content)) == Ok(ms[i].content)
            else ms[i].content == old(ms[i].content))
  {
    ghost var configured := Values(ms);
    var messages: seq<Message> := [];
    var i := 0;
    while i < |ms|
      invariant 0 <= i <= |ms| && |messages| == i
      invariant forall j :: 0 <= j < |ms| ==> ms[j].role == old(ms[j].role)
      invariant forall j :: 0 <= j < i ==>
        render(old(ms[j].content)) == Ok(ms[j].content) && messages[j] == Message(ms[j].role, ms[j].content)
      invariant forall j :: i <= j < |ms| ==> ms[j].content == old(ms[j].content)
    {
      var content := render(ms[i].content);
      if content.Err? {
        assert RenderedPrefix(configured, render) == i;
        return Err(Rethrown(content.error));
      }
      ms[i].content := content.value;
      messages := messages + [Message(ms[i].role, ms[i].content)];
      i := i + 1;
    }
    assert messages == RenderMessages(configured, render).value;
    r := Ok(messages);
  }

  /** `ChatCompletion.run`. The configured message objects are assumed distinct. */
  method Run(task: Task, ctx: RunContext, client: OpenAiService) returns (r: Result<Output>)
    requires task.messages.Some? ==> Distinct(task.messages.value)
    modifies Frame(task), ctx`metrics, client`chatRequests
    ensures var req := RequestFor(task, old(Configured(task)), ctx.render, ctx.renderList);
      && client.chatRequests == old(client.chatRequests) + (if req.Ok? then [req.value] else [])
      && r == (if req.Ok? then Completion(client.chatEndpoint(req.value)) else Err(req.error))
    ensures ctx.metrics == old(ctx.metrics) + (if r.Ok? then UsageCounters(r.value.usage) else [])
    ensures task.messages.Some? ==>
      var ms := task.messages.value;
      var k := Touched(task, old(Configured(task)), ctx.render, ctx.renderList);
      forall i :: 0 <= i < |ms| ==>
        && ms[i].role == old(ms[i].role)
        && (if i < k then ctx.render(old(ms[i].content)) == Ok(ms[i].content)
            else ms[i].content == old(ms[i].content))
  {
    ghost var configured := Configured(task);
    var fields := RenderFields(task, ctx.render, ctx.renderList);
    if fields.Err? { return Err(fields.error); }

    var messages: seq<Message> := [];
    if task.messages.Some? {
      var rendered := RenderInPlace(task.messages.value, ctx.render);
      if rendered.Err? { return Err(rendered.error); }
      messages := rendered.value;
    }
    assert Ok(messages) == RenderMessages(configured, ctx.render);

    var last: seq<Message> := [];
    if task.prompt.Some? {
      var prompt := ctx.render(task.prompt.value);
      if prompt.Err? { return Err(prompt.error); }
      last := [BuildMessage("user", prompt.value)];
    }
    var request := RequestOf(task, fields.value, messages + last);
    assert RequestFor(task, configured, ctx.render, ctx.renderList) == Ok(request);
    var response := client.CreateChatCompletion(request);
    if response.Err? { return Err(response.error); }
    var counters := UsageCounters(response.value.usage);
    ctx.Metric(counters[0]);
    ctx.Metric(counters[1]);
    ctx.Metric(counters[2]);
    r := Ok(OutputOf(response.value));
  }
}

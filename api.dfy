/** The request and response shapes of the OpenAI client library, and the client
    itself. The HTTP exchange is left uninterpreted: the client answers each
    request with an arbitrary function of it and keeps a log of what was sent. */
module Api {
  import opened Outcomes

  /** A chat message as it goes over the wire. */
  datatype Message = Message(role: string, content: string)

  /** A mutable `ChatMessage` object of the client library. */
  class ChatMessage {
    var role: string
    var content: string

    constructor (role: string, content: string)
      ensures this.role == role && this.content == content
    {
      this.role := role;
      this.content := content;
    }
  }

  /** The values of a list of message objects, in list order. */
  function Values(ms: seq<ChatMessage>): (s: seq<Message>)
    reads set m | m in ms
    ensures |s| == |ms|
    ensures forall i :: 0 <= i < |ms| ==> s[i] == Message(ms[i].role, ms[i].content)
  {
    if ms == [] then [] else [Message(ms[0].role, ms[0].content)] + Values(ms[1..])
  }

  /** `ChatCompletionRequest`; `None` is a field the builder left null. Floating-point
      parameters are carried as opaque `real` values and only ever copied. */
  datatype ChatRequest = ChatRequest(
    messages: seq<Message>,
    model: Option<string>,
    temperature: Option<real>,
    topP: Option<real>,
    n: Option<int>,
    stop: Option<seq<string>>,
    maxTokens: Option<int>,
    presencePenalty: Option<real>,
    frequencyPenalty: Option<real>,
    logitBias: Option<map<string, int>>,
    user: Option<string>)

  datatype Choice = Choice(index: int, message: Message, finishReason: string)

  datatype Usage = Usage(promptTokens: int, completionTokens: int, totalTokens: int)

  /** `ChatCompletionResult`; `objectType` is the result's `object` field. */
  datatype ChatResult = ChatResult(
    id: string,
    objectType: string,
    created: int,
    model: string,
    choices: seq<Choice>,
    usage: Usage)

  /** `Image`: depending on the requested format, the API fills `url` or `b64Json`. */
  datatype Image = Image(url: Option<string>, b64Json: Option<string>)

  /** `CreateImageRequest`. */
  datatype ImageRequest = ImageRequest(
    prompt: string,
    size: string,
    n: Option<int>,
    responseFormat: string,
    user: string)

  /** `ImageResult`. */
  datatype ImageResult = ImageResult(created: int, data: seq<Image>)

  /** `OpenAiService`. */
  class OpenAiService {
    const chatEndpoint: ChatRequest -> Result<ChatResult>
    const imageEndpoint: ImageRequest -> Result<ImageResult>
    var chatRequests: seq<ChatRequest>
    var imageRequests: seq<ImageRequest>

    constructor (chatEndpoint: ChatRequest -> Result<ChatResult>,
                 imageEndpoint: ImageRequest -> Result<ImageResult>)
      ensures this.chatEndpoint == chatEndpoint && this.imageEndpoint == imageEndpoint
      ensures chatRequests == [] && imageRequests == []
    {
      this.chatEndpoint := chatEndpoint;
      this.imageEndpoint := imageEndpoint;
      chatRequests, imageRequests := [], [];
    }

    method CreateChatCompletion(request: ChatRequest) returns (r: Result<ChatResult>)
      modifies this`chatRequests
      ensures chatRequests == old(chatRequests) + [request]
      ensures r == chatEndpoint(request)
    {
      chatRequests := chatRequests + [request];
      r := chatEndpoint(request);
    }

    method CreateImage(request: ImageRequest) returns (r: Result<ImageResult>)
      modifies this`imageRequests
      ensures imageRequests == old(imageRequests) + [request]
      ensures r == imageEndpoint(request)
    {
      imageRequests := imageRequests + [request];
      r := imageEndpoint(request);
    }
  }
}

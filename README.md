# OpenAI tasks for the Kestra orchestrator, modelled in Dafny

The plugin offers three workflow tasks: `ChatCompletion` (send a rendered
conversation to the chat API), `Translate` (ask a fixed chat model to translate a
text) and `CreateImage` (ask for images and, by default, store each one in the
orchestrator's internal storage). Each `run` renders the task's templated fields,
builds one request, calls the OpenAI client and maps its answer to the task's output.

The model keeps the order of the steps of the three `run` methods and the failure
each step can end the run with, apart from what "## Left out" lists.
The host's template engine and temp-file storage, the HTTP client and the
two download helpers are uninterpreted: any function of the right type stands for
them, including ones that fail. The client (`Api.OpenAiService`) logs every request
it is given, so "nothing is sent" becomes a statement about that log. The run
context (`Host.RunContext`) logs the metrics a task emits.

Files:

- `outcomes.dfy` (`Outcomes`): `Option` for nullable fields, `Result` for calls that may throw, and `Error` for the thrown exceptions.
- `host.dfy` (`Host`): the run context, with rendering, temp-file storage and the metric log.
- `api.dfy` (`Api`): the client library's request and response shapes, its mutable `ChatMessage`, and the logging client.
- `java_format.dfy` (`JavaFormat`): `String.format` restricted to `%s` and `%%`.
- `chat_completion.dfy` (`ChatCompletion`): input check, field rendering, the in-place message loop, the request, the metrics, the output.
- `translate.dfy` (`Translate`): the two prompt templates, the fixed request, the output.
- `image_generation.dfy` (`ImageGeneration`): the `SIZE` and `FORMAT` tables and their defaults.
- `create_image.dfy` (`CreateImage`): the request mapping, the `download` loop and the output.

Each task's `run` is a method. Its postcondition ties the request it sends, and its
result, to a specification function of the inputs (`ChatCompletion.RequestFor`,
`Translate.Prepare`/`RequestFor`/`Answer`, `CreateImage.RequestFor`/`OutputFor`).
The lemmas below prove the promised properties about those functions.

Facts about the code that the model keeps:
- `ChatCompletion` needs at least one of `messages` and `prompt`. With both set, the rendered prompt is appended as a last "user" message.
- `ChatCompletion.run` writes each rendered content back into the task's own message objects, so the objects stay rewritten even when the run fails later.
- Only two failures are wrapped in a `RuntimeException`. One is an `IllegalVariableEvaluationException` from rendering a message's content. The other is an `IOException` while fetching or storing an image.
- Every other failure leaves `run` as it is. That includes a content render failing otherwise and the `IllegalArgumentException` that base64 decoding throws on a malformed payload.
- `download` defaults to true, so a `CreateImage` built without it stores its images. The repository's tests that expect no files in that case disagree with the code.

## Model

| member | source | states |
|---|---|---|
| `ChatCompletion.Run` | src/main/java/io/kestra/plugin/openai/ChatCompletion.java:86-140 | the log gains exactly the request `RequestFor` gives, or nothing when that fails; the result is that failure or the mapped answer; the three usage counters are emitted in order only on success; message objects before the stopping point hold their rendered content, and the rest are unchanged |
| `ChatCompletion.RenderInPlace` | src/main/java/io/kestra/plugin/openai/ChatCompletion.java:97-108 | the loop returns `RenderMessages` of the messages' old values and writes the rendered content into exactly the objects before the first failure; roles never change |
| `ChatCompletion.RenderMessages` | src/main/java/io/kestra/plugin/openai/ChatCompletion.java:99-107 | succeeds iff every content renders; then it has the same length, order and roles, with each content rendered; otherwise it fails with the first failing render, wrapped in a `RuntimeException` when that is an `IllegalVariableEvaluationException` and unchanged otherwise |
| `ChatCompletion.RenderedPrefix` | src/main/java/io/kestra/plugin/openai/ChatCompletion.java:100-105 | the index of the first message whose content fails to render (every earlier one renders) |
| `ChatCompletion.RenderFields` | src/main/java/io/kestra/plugin/openai/ChatCompletion.java:89-95 | with neither `messages` nor `prompt` it fails with the task's message; otherwise it succeeds iff `stop` (only when set), `user` and `model` render, giving those rendered values; the first of those renders to fail (`stop`, then `user`, then `model`) is the run's failure, unchanged |
| `ChatCompletion.RequestFor` | src/main/java/io/kestra/plugin/openai/ChatCompletion.java:89-126 | a field failure comes before any content failure, which comes before a `prompt` failure, and a failing `prompt` render is the run's failure unchanged; a built request holds the rendered configured messages followed by the rendered prompt as a "user" message when `prompt` is set |
| `ChatCompletion.OtherRenderFailureNotWrapped` | src/main/java/io/kestra/plugin/openai/ChatCompletion.java:101-105 | when the first content to fail fails with anything other than `IllegalVariableEvaluationException`, the rendering fails with that error unchanged |
| `ChatCompletion.MissingInputRejected` | src/main/java/io/kestra/plugin/openai/ChatCompletion.java:89-91 | with both `messages` and `prompt` null, the run fails with "At least messages or prompt must be set", and no message object is touched |
| `ChatCompletion.RequestSucceeds` | src/main/java/io/kestra/plugin/openai/ChatCompletion.java:89-111 | a request is built iff the input check passes and every rendering asked for succeeds |
| `ChatCompletion.RequestMessageCount` | src/main/java/io/kestra/plugin/openai/ChatCompletion.java:97-111 | for a message list given as empty when `messages` is null (as `run` gives it), the request holds as many messages as are configured, plus one when `prompt` is set |
| `ChatCompletion.ConfiguredMessagesFirst` | src/main/java/io/kestra/plugin/openai/ChatCompletion.java:99-107 | message i of the request is configured message i with its role kept and its content rendered |
| `ChatCompletion.PromptIsLast` | src/main/java/io/kestra/plugin/openai/ChatCompletion.java:109-111 | with `prompt` set, the last message has role "user" and the rendered prompt as content |
| `ChatCompletion.StopRenderedOnlyWhenSet` | src/main/java/io/kestra/plugin/openai/ChatCompletion.java:93 | a null `stop` is sent as null; a set one is sent rendered |
| `ChatCompletion.ParametersCopied` | src/main/java/io/kestra/plugin/openai/ChatCompletion.java:113-125 | temperature, topP, n, maxTokens, both penalties and logitBias are copied unchanged; model and user are the rendered values |
| `ChatCompletion.RewrittenMessages` | src/main/java/io/kestra/plugin/openai/ChatCompletion.java:100-105 | when content i is the first to fail, exactly the i earlier objects have been rewritten, and the run fails with that failure: wrapped when it is an `IllegalVariableEvaluationException`, unchanged otherwise |
| `ChatCompletion.AllRewrittenOnSuccess` | src/main/java/io/kestra/plugin/openai/ChatCompletion.java:99-107 | when a request is sent, every configured message object holds its rendered content |
| `ChatCompletion.CompletionCopiesResult` | src/main/java/io/kestra/plugin/openai/ChatCompletion.java:132-139 | id, object, created, model, choices and usage are copied verbatim, and a failed call is passed on |
| `ChatCompletion.Completion` | src/main/java/io/kestra/plugin/openai/ChatCompletion.java:132-139 | the output exists iff the call succeeded; a failed call is passed on unchanged; choices and usage are the result's |
| `ChatCompletion.UsageCounters` | src/main/java/io/kestra/plugin/openai/ChatCompletion.java:128-130 | three counters with distinct names, the prompt, completion and total token counts in that order |
| `JavaFormat.FormatLiteral` | src/main/java/io/kestra/plugin/openai/Translate.java:58 | template text without `%` is copied to the output as it stands |
| `JavaFormat.FormatArgument` | src/main/java/io/kestra/plugin/openai/Translate.java:58 | `%s` is replaced by the next argument verbatim |
| `JavaFormat.FormatThree` | src/main/java/io/kestra/plugin/openai/Translate.java:58 | a three-argument template yields its literal runs joined by the three arguments |
| `JavaFormat.FormatTwo` | src/main/java/io/kestra/plugin/openai/Translate.java:60 | a two-argument template yields its literal runs joined by the two arguments |
| `JavaFormat.Format` | src/main/java/io/kestra/plugin/openai/Translate.java:58-60 | a template without `%` formats to itself, whatever the arguments |
| `Translate.ContentWithSource` | src/main/java/io/kestra/plugin/openai/Translate.java:58 | the template with a source language formats to exactly `"Translate '" + text + "' from " + from + " in " + to` |
| `Translate.ContentWithoutSource` | src/main/java/io/kestra/plugin/openai/Translate.java:60 | the template without one formats to exactly `"Translate '" + text + "' in " + to` |
| `Translate.Content` | src/main/java/io/kestra/plugin/openai/Translate.java:55-61 | the prompt is one of those two strings, chosen by whether `from` is set |
| `Translate.Prepare` | src/main/java/io/kestra/plugin/openai/Translate.java:51-61 | on success the prepared `to` and `text` are the rendered fields and the prompt is `Content` of them and of the rendered `from` (or none when `from` is null) |
| `Translate.PrepareSucceeds` | src/main/java/io/kestra/plugin/openai/Translate.java:51-61 | preparation succeeds iff `to`, `text` and (when set) `from` render; the first of `to`, `text` and `from` to fail is the task's failure, unchanged |
| `Translate.AbsentFromIsNotRendered` | src/main/java/io/kestra/plugin/openai/Translate.java:56-61 | with `from` null, nothing but `to` and `text` is rendered |
| `Translate.RequestIsFixed` | src/main/java/io/kestra/plugin/openai/Translate.java:62-67 | the request holds one "user" message with the exact prompt, model "gpt-3.5-turbo", `n = 1` and no other field |
| `Translate.AnswerFromFirstChoice` | src/main/java/io/kestra/plugin/openai/Translate.java:69-75 | the output's `to` and `text` are the rendered inputs and `translation` is the first choice's content; no choices fails like `get(0)` |
| `Translate.AnswerPropagatesFailure` | src/main/java/io/kestra/plugin/openai/Translate.java:69 | a failed API call is the task's failure |
| `Translate.Answer` | src/main/java/io/kestra/plugin/openai/Translate.java:69-75 | a failed call is passed on; an answer gives an output iff it has a choice, and then the output is the first choice's content with the rendered `text` and `to` |
| `Translate.Run` | src/main/java/io/kestra/plugin/openai/Translate.java:47-76 | the log gains the fixed request exactly when preparation succeeds; the result is the preparation failure or the mapped answer |
| `ImageGeneration.SizeTable` | src/main/java/io/kestra/plugin/openai/AbstractImageGeneration.java:38-53 | SMALL, MEDIUM and LARGE map to "256x256", "512x512" and "1024x1024", and each of those strings names exactly its own size |
| `ImageGeneration.FormatTable` | src/main/java/io/kestra/plugin/openai/AbstractImageGeneration.java:55-69 | URL and B64_JSON map to "url" and "b64_json", and each of those strings names exactly its own format |
| `ImageGeneration.SizeValueInjective` | src/main/java/io/kestra/plugin/openai/AbstractImageGeneration.java:38-53 | distinct sizes have distinct wire values |
| `ImageGeneration.FormatValueInjective` | src/main/java/io/kestra/plugin/openai/AbstractImageGeneration.java:55-69 | distinct formats have distinct wire values |
| `ImageGeneration.Defaults` | src/main/java/io/kestra/plugin/openai/AbstractImageGeneration.java:29-36 | the default size is LARGE ("1024x1024") and the default format is URL ("url") |
| `ImageGeneration.SizeValue` | src/main/java/io/kestra/plugin/openai/AbstractImageGeneration.java:38-51 | the wire value of a size reads back as that size |
| `ImageGeneration.FormatValue` | src/main/java/io/kestra/plugin/openai/AbstractImageGeneration.java:55-67 | the wire value of a format reads back as that format |
| `CreateImage.WithDefaults` | src/main/java/io/kestra/plugin/openai/CreateImage.java:36-37 | a task built with only its required fields has `download` true, size LARGE, format URL and no `n` |
| `CreateImage.RequestMapping` | src/main/java/io/kestra/plugin/openai/CreateImage.java:43-53 | the request is built iff user and prompt render; it carries them rendered, the size's and format's wire values, and `n` as configured, with no range check |
| `CreateImage.RequestFor` | src/main/java/io/kestra/plugin/openai/CreateImage.java:43-53 | `user` is rendered before `prompt`, and the first failing render is the run's failure; a built request's size and format read back as the task's |
| `CreateImage.FilesFor` | src/main/java/io/kestra/plugin/openai/CreateImage.java:61-73 | succeeds iff every image's `FileFor` succeeds; then it holds one file per image in order; otherwise it fails with the first failing image's `FileFor` failure |
| `CreateImage.DownloadedPrefix` | src/main/java/io/kestra/plugin/openai/CreateImage.java:62-72 | the index of the first image that cannot be stored (every earlier one is stored) |
| `CreateImage.FileFor` | src/main/java/io/kestra/plugin/openai/CreateImage.java:63-71 | one image succeeds iff its fetch and storage succeed, giving the stored file; an `IOException` is rethrown wrapped in a `RuntimeException`, and any other failure escapes unchanged |
| `CreateImage.DecodeFailureNotWrapped` | src/main/java/io/kestra/plugin/openai/CreateImage.java:106-108 | a malformed base64 payload fails the image with the decoder's `IllegalArgumentException`, unwrapped |
| `CreateImage.Download` | src/main/java/io/kestra/plugin/openai/CreateImage.java:60-74 | the loop returns exactly `FilesFor` of the result's images |
| `CreateImage.OutputCopiesResult` | src/main/java/io/kestra/plugin/openai/CreateImage.java:55-57 | whatever `download` is, the output's `created` and `data` are the result's |
| `CreateImage.NoDownloadNoFiles` | src/main/java/io/kestra/plugin/openai/CreateImage.java:60-74 | without `download` the output cannot fail and `files` stays null |
| `CreateImage.DownloadMatchesData` | src/main/java/io/kestra/plugin/openai/CreateImage.java:61-73 | with `download`, success means `files` is set with one entry per element of `data`, in order |
| `CreateImage.DownloadFailureAborts` | src/main/java/io/kestra/plugin/openai/CreateImage.java:69-71 | one image that cannot be fetched or stored fails the run with no partial file list; the failure is the first such image's, wrapped in a `RuntimeException` when it is an `IOException` and unchanged otherwise |
| `CreateImage.FileSourceByFormat` | src/main/java/io/kestra/plugin/openai/CreateImage.java:64-68 | for URL a file depends only on `image.url` and the URL download, otherwise only on `image.b64Json` and the decoder |
| `CreateImage.OutputPropagatesFailure` | src/main/java/io/kestra/plugin/openai/CreateImage.java:46 | a failed API call is the task's failure |
| `CreateImage.OutputFor` | src/main/java/io/kestra/plugin/openai/CreateImage.java:55-74 | a failed call is passed on; without `download` the output always exists with no files; a built output copies `created` and `data`, and with `download` it has one file per image |
| `CreateImage.Run` | src/main/java/io/kestra/plugin/openai/CreateImage.java:40-77 | the log gains the request `RequestFor` gives exactly when it succeeds; the result is that failure or `OutputFor` of the answer |

## Left out

- ChatCompletion.Run: requires the configured message objects to be distinct. If one object is listed twice, Java renders it twice, and the model does not cover that case.
- ChatCompletion.RenderInPlace: the same distinctness requirement, for the same reason.
- The HTTP exchange, template rendering, temp-file storage, the URL download and base64 decoding are uninterpreted functions. The model says nothing about what they compute or what bytes end up in a file.
- Fresh temp files are not modelled. Java creates a new `UUID`-named file on every download or decode (CreateImage.java:97, :107). In the model the helpers are pure functions, so two equal entries of `data` get the same local file and the same stored URI.
- `AbstractTask.client` and the API key it uses are not part of this model. In the source, `run` builds the client first, and that step can fail; here the built client is passed in and that failure is not modelled.
- Null values the source uses without a null check are not modelled: the fields `user`, `model`, `size`, `responseFormat` and `download`; a null element of `messages` and a message's null content; the result's null `usage`; a null `getData()` when `download` is set; a null `getChoices()` or a null choice `getMessage()` in `Translate`. Each such field is a non-null value here. The host's behaviour when asked to render null, and the resulting `NullPointerException`s, are out of scope.
- Metrics are only a log of counters. Reporting them to the host is out of scope.
- Floating-point sampling parameters are opaque `real` values that are only copied. Their documented ranges are not checked, and neither does the source check them.
- `String.format` is modelled only for `%s` and `%%`, the only conversions the two templates use. Any other conversion (`%n`, `%S`, a width) gives `None` in the model, although Java accepts it.
- Lombok builders and schema annotations are out of scope; `CreateImage.WithDefaults` and `ImageGeneration.Defaults` stand for the builder defaults.
- `OpenAiInterface` holds only annotations and has no behaviour.
- The repository's tests need the live API, and the model does not restate them.

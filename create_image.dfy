/** The `CreateImage` task: asks for images and, by default, stores them. */
module CreateImage {
  import opened Outcomes
  import opened Api
  import opened Host
  import opened ImageGeneration

  const DefaultDownload := true

  /** The task's configuration: the inherited image-generation fields, the
      inherited `user`, and `download`. */
  datatype Task = Task(
    prompt: string,
    n: Option<int>,
    size: Size,
    responseFormat: Format,
    user: string,
    download: bool)

  datatype Output = Output(created: int, data: seq<Image>, files: Option<seq<Uri>>)

  /** The task's private download helpers, left uninterpreted: fetching an image
      URL into a fresh local file, and decoding a base64 payload into one. */
  datatype ImageIo = ImageIo(
    downloadUrl: Option<string> -> Result<LocalFile>,
    downloadB64Json: Option<string> -> Result<LocalFile>)

  /** A task built with only the required fields set: every other field takes its default. */
  function WithDefaults(prompt: string, user: string): (t: Task)
    ensures t.prompt == prompt && t.user == user && t.n.None?
    ensures t.size == Large && t.responseFormat == Url && t.download
  {
    Task(prompt, None, DefaultSize, DefaultFormat, user, DefaultDownload)
  }

  /** Renders `user`, then `prompt`, and maps the enums to their wire values. */
  function RequestFor(task: Task, render: string -> Result<string>): (r: Result<ImageRequest>)
    ensures render(task.user).Err? ==> r == Err(render(task.user).error)
    ensures render(task.user).Ok? && render(task.prompt).Err? ==> r == Err(render(task.prompt).error)
    ensures r.Ok? ==> SizeOf(r.value.size) == Some(task.size) && FormatOf(r.value.responseFormat) == Some(task.responseFormat)
  {
    var user :- render(task.user);
    var prompt :- render(task.prompt);
    Ok(ImageRequest(prompt, SizeValue(task.size), task.n, FormatValue(task.responseFormat), user))
  }

  /** The body of the `try` for one image: fetch the URL image or decode the base64
      one into a local file, then hand that file to the storage. */
  function Materialize(format: Format, image: Image, io: ImageIo, putTempFile: LocalFile -> Result<Uri>): Result<Uri>
  {
    var file :- if format == Url then io.downloadUrl(image.url) else io.downloadB64Json(image.b64Json);
    putTempFile(file)
  }

  /** The `catch`: an `IOException` is rethrown wrapped in a `RuntimeException`;
      anything else, such as the decoder's `IllegalArgumentException`, escapes as it is. */
  function Rethrown(e: Error): Error
  {
    if e.IOException? then RuntimeException(e) else e
  }

  /** One image handled by the `forEach` callback: its stored file, or the failure
      the callback lets out. */
  function FileFor(format: Format, image: Image, io: ImageIo, putTempFile: LocalFile -> Result<Uri>): (r: Result<Uri>)
    ensures r.Ok? <==> Materialize(format, image, io, putTempFile).Ok?
    ensures r.Ok? ==> r == Materialize(format, image, io, putTempFile)
    ensures r.Err? ==>
      var e := Materialize(format, image, io, putTempFile).error;
      && (e.IOException? ==> r.error == RuntimeException(e))
      && (!e.IOException? ==> r.error == e)
  {
    match Materialize(format, image, io, putTempFile)
    case Err(e) => Err(Rethrown(e))
    case Ok(uri) => Ok(uri)
  }

  /** The number of leading images that are materialised before the first failure. */
  function DownloadedPrefix(data: seq<Image>, format: Format, io: ImageIo, putTempFile: LocalFile -> Result<Uri>): (k: nat)
    ensures k <= |data|
    ensures forall i :: 0 <= i < k ==> FileFor(format, data[i], io, putTempFile).Ok?
    ensures k < |data| ==> FileFor(format, data[k], io, putTempFile).Err?
  {
    if data == [] || FileFor(format, data[0], io, putTempFile).Err? then 0
    else 1 + DownloadedPrefix(data[1..], format, io, putTempFile)
  }

  /** The stored files of all images in order, or the first failure. */
  function FilesFor(data: seq<Image>, format: Format, io: ImageIo, putTempFile: LocalFile -> Result<Uri>): (r: Result<seq<Uri>>)
    ensures r.Ok? <==> forall i :: 0 <= i < |data| ==> FileFor(format, data[i], io, putTempFile).Ok?
    ensures r.Ok? ==> |r.value| == |data|
    ensures r.Ok? ==> forall i :: 0 <= i < |data| ==> FileFor(format, data[i], io, putTempFile) == Ok(r.value[i])
    ensures r.Err? ==>
      var k := DownloadedPrefix(data, format, io, putTempFile);
      k < |data| && FileFor(format, data[k], io, putTempFile) == Err(r.error)
  {
    if data == [] then Ok([])
    else
      var head :- FileFor(format, data[0], io, putTempFile);
      var tail :- FilesFor(data[1..], format, io, putTempFile);
      Ok([head] + tail)
  }

  /** The `download` branch of `run`: one stored file per image, in order. */
  method Download(data: seq<Image>, format: Format, io: ImageIo, ctx: RunContext) returns (r: Result<seq<Uri>>)
    ensures r == FilesFor(data, format, io, ctx.putTempFile)
  {
    var files: seq<Uri> := [];
    var i := 0;
    while i < |data|
      invariant 0 <= i <= |data|
      invariant |files| == i
      invariant forall j :: 0 <= j < i ==> FileFor(format, data[j], io, ctx.putTempFile) == Ok(files[j])
    {
      var image := data[i];
      var local := if format == Url then io.downloadUrl(image.url) else io.downloadB64Json(image.b64Json);
      if local.Err? {
        assert DownloadedPrefix(data, format, io, ctx.putTempFile) == i;
        return Err(Rethrown(local.error));
      }
      var uri := ctx.putTempFile(local.value);
      if uri.Err? {
        assert DownloadedPrefix(data, format, io, ctx.putTempFile) == i;
        return Err(Rethrown(uri.error));
      }
      files := files + [uri.value];
      i := i + 1;
    }
    assert FilesFor(data, format, io, ctx.putTempFile).value == files;
    r := Ok(files);
  }

  /** The output built from the API's answer. */
  function OutputFor(task: Task, response: Result<ImageResult>, io: ImageIo, putTempFile: LocalFile -> Result<Uri>): (r: Result<Output>)
    ensures response.Err? ==> r == Err(response.error)
    ensures response.Ok? && !task.download ==> r.Ok?
    ensures r.Ok? ==> response.Ok? && r.value.created == response.value.created && r.value.data == response.value.data
    ensures r.Ok? ==> (r.value.files.Some? <==> task.download)
    ensures r.Ok? && task.download ==> |r.value.files.value| == |response.value.data|
  {
    var result :- response;
    if task.download then
      var files :- FilesFor(result.data, task.responseFormat, io, putTempFile);
      Ok(Output(result.created, result.data, Some(files)))
    else
      Ok(Output(result.created, result.data, None))
  }

  /** `CreateImage.run`. */
  method Run(task: Task, ctx: RunContext, io: ImageIo, client: OpenAiService) returns (r: Result<Output>)
    modifies client`imageRequests
    ensures var req := RequestFor(task, ctx.render);
      && client.imageRequests == old(client.imageRequests) + (if req.Ok? then [req.value] else [])
      && r == (if req.Ok? then OutputFor(task, client.imageEndpoint(req.value), io, ctx.putTempFile) else Err(req.error))
  {
    var request :- RequestFor(task, ctx.render);
    var response := client.CreateImage(request);
    if response.Err? { return Err(response.error); }
    var files: Option<seq<Uri>> := None;
    if task.download {
      var downloaded := Download(response.value.data, task.responseFormat, io, ctx);
      if downloaded.Err? { return Err(downloaded.error); }
      files := Some(downloaded.value);
    }
    r := Ok(Output(response.value.created, response.value.data, files));
  }

  /** The request carries the rendered prompt and user, the wire values of the size
      and format, and `n` as configured: there is no range check on `n`. */
  lemma RequestMapping(task: Task, render: string -> Result<string>)
    ensures RequestFor(task, render).Ok? <==> render(task.user).Ok? && render(task.prompt).Ok?
    ensures RequestFor(task, render).Ok? ==>
      var req := RequestFor(task, render).value;
      && Ok(req.prompt) == render(task.prompt)
      && Ok(req.user) == render(task.user)
      && SizeOf(req.size) == Some(task.size)
      && FormatOf(req.responseFormat) == Some(task.responseFormat)
      && req.n == task.n
  {
    if RequestFor(task, render).Ok? {
      var req := RequestFor(task, render).value;
      SizeTable(task.size, req.size);
      FormatTable(task.responseFormat, req.responseFormat);
    }
  }

  /** Whatever `download` is, the output copies the result's `created` and `data`. */
  lemma OutputCopiesResult(task: Task, result: ImageResult, io: ImageIo, putTempFile: LocalFile -> Result<Uri>)
    ensures OutputFor(task, Ok(result), io, putTempFile).Ok? ==>
      OutputFor(task, Ok(result), io, putTempFile).value.created == result.created &&
      OutputFor(task, Ok(result), io, putTempFile).value.data == result.data
  {
  }

  /** Without `download` nothing is fetched or stored, nothing can fail and `files` stays null. */
  lemma NoDownloadNoFiles(task: Task, result: ImageResult, io: ImageIo, putTempFile: LocalFile -> Result<Uri>)
    requires !task.download
    ensures OutputFor(task, Ok(result), io, putTempFile) == Ok(Output(result.created, result.data, None))
  {
  }

  /** With `download`, a successful run stores exactly one file per image, in order,
      and the run succeeds only if every image is stored. */
  lemma DownloadMatchesData(task: Task, result: ImageResult, io: ImageIo, putTempFile: LocalFile -> Result<Uri>)
    requires task.download
    ensures var out := OutputFor(task, Ok(result), io, putTempFile);
      && (out.Ok? <==> forall i :: 0 <= i < |result.data| ==> FileFor(task.responseFormat, result.data[i], io, putTempFile).Ok?)
      && (out.Ok? ==>
           && out.value.files.Some?
           && |out.value.files.value| == |result.data|
           && forall i :: 0 <= i < |result.data| ==>
                FileFor(task.responseFormat, result.data[i], io, putTempFile) == Ok(out.value.files.value[i]))
  {
  }

  /** With `download`, one image that cannot be stored fails the whole run, and no
      partial list of files is returned. The failure is that of the first such image:
      wrapped in a `RuntimeException` if it is an `IOException`, unchanged otherwise. */
  lemma DownloadFailureAborts(task: Task, result: ImageResult, io: ImageIo, putTempFile: LocalFile -> Result<Uri>, i: nat)
    requires task.download
    requires i < |result.data| && Materialize(task.responseFormat, result.data[i], io, putTempFile).Err?
    ensures var out := OutputFor(task, Ok(result), io, putTempFile);
      var k := DownloadedPrefix(result.data, task.responseFormat, io, putTempFile);
      var e := Materialize(task.responseFormat, result.data[k], io, putTempFile).error;
      && k <= i
      && Materialize(task.responseFormat, result.data[k], io, putTempFile).Err?
      && (e.IOException? ==> out == Err(RuntimeException(e)))
      && (!e.IOException? ==> out == Err(e))
  {
  }

  /** A malformed base64 payload makes the decoder throw `IllegalArgumentException`,
      which is not an `IOException`: it leaves the callback unwrapped. */
  lemma DecodeFailureNotWrapped(image: Image, io: ImageIo, putTempFile: LocalFile -> Result<Uri>, message: string)
    requires io.downloadB64Json(image.b64Json) == Err(IllegalArgumentException(message))
    ensures FileFor(B64Json, image, io, putTempFile) == Err(IllegalArgumentException(message))
  {
  }

  /** For URL images a file depends only on the image's `url` and the URL download;
      for base64 images only on its `b64Json` and the decoder. */
  lemma FileSourceByFormat(image1: Image, image2: Image, io1: ImageIo, io2: ImageIo, putTempFile: LocalFile -> Result<Uri>)
    ensures io1.downloadUrl(image1.url) == io2.downloadUrl(image2.url) ==>
      FileFor(Url, image1, io1, putTempFile) == FileFor(Url, image2, io2, putTempFile)
    ensures io1.downloadB64Json(image1.b64Json) == io2.downloadB64Json(image2.b64Json) ==>
      FileFor(B64Json, image1, io1, putTempFile) == FileFor(B64Json, image2, io2, putTempFile)
  {
  }

  /** A failed API call fails the task with the same error, whatever `download` is. */
  lemma OutputPropagatesFailure(task: Task, e: Error, io: ImageIo, putTempFile: LocalFile -> Result<Uri>)
    ensures OutputFor(task, Err(e), io, putTempFile) == Err(e)
  {
  }
}

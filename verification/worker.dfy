/**
 * The Cloudflare worker in worker.js: a key-value directory of uploads. A POST
 * to /upload stores the request's JSON under its code field, a GET of
 * /download/<code> returns what is stored under that code, OPTIONS answers the
 * CORS preflight, and every response carries the CORS headers.
 */
module KvWorker {
  import opened Wrappers
  import opened JsString

  const CorsHeaders: map<string, string> := map[
    "Access-Control-Allow-Origin" := "*",
    "Access-Control-Allow-Methods" := "GET, POST, PUT, DELETE, OPTIONS",
    "Access-Control-Allow-Headers" := "Content-Type"
  ]

  /**
   * The CORS headers with the content type the Response constructor adds for a
   * string body whose headers name none.
   */
  const TextHeaders: map<string, string> := CorsHeaders["Content-Type" := "text/plain;charset=UTF-8"]

  /** The CORS headers with the JSON content type, for every JSON answer. */
  const JsonHeaders: map<string, string> := CorsHeaders["Content-Type" := "application/json"]

  /** The JSON bodies the worker builds itself: {success: true, code} and {error}. */
  datatype Json = SuccessReply(code: string) | ErrorReply(error: string)

  datatype Body = Null | Text(text: string) | JsonBody(json: Json)

  datatype Response = Response(status: int, headers: map<string, string>, body: Body)

  /**
   * The request body as request.json() sees it: none at all (request.json()
   * then throws), not JSON, or a value whose code field is a string, together
   * with its JSON.stringify text.
   */
  datatype RequestBody =
    | Empty
    | Unparsable(message: string)
    | Parsed(code: string, serialized: string)

  /** The message request.json() throws on an empty body. */
  const EmptyBodyMessage: string := "Unexpected end of JSON input"

  /** The message of the exception request.json() throws, for a body that is not parsed. */
  function ParseError(body: RequestBody): string
    requires !body.Parsed?
  {
    if body.Empty? then EmptyBodyMessage else body.message
  }

  /** A request: its method, its URL's pathname and its body. */
  datatype Request = Request(httpMethod: string, path: string, body: RequestBody)

  predicate HasCors(r: Response) {
    forall h :: h in CorsHeaders ==> h in r.headers && r.headers[h] == CorsHeaders[h]
  }

  const DownloadPrefix: string := "/download/"

  /** path.split('/')[2] for a path under /download/: the text after the prefix up to the next '/'. */
  function DownloadCode(path: string): (code: string)
    requires StartsWith(path, DownloadPrefix)
    ensures '/' !in code
    ensures StartsWith(path[|DownloadPrefix|..], code)
    ensures code == Split(path[|DownloadPrefix|..], '/')[0]
  {
    var rest := path[|DownloadPrefix|..];
    assert path == [] + ['/'] + ("download" + ['/'] + rest);
    SplitAfterPiece([], '/', "download" + ['/'] + rest);
    SplitAfterPiece("download", '/', rest);
    var parts := Split(rest, '/');
    assert StartsWith(rest, parts[0]) by {
      if |parts| > 1 {
        assert rest == parts[0] + ['/'] + Join(parts[1..], '/');
      }
    }
    Split(path, '/')[2]
  }

  /** The download key of /download/<code> is the code itself, when it holds no '/'. */
  lemma DownloadCodeOfCode(code: string)
    requires '/' !in code
    ensures StartsWith(DownloadPrefix + code, DownloadPrefix)
    ensures DownloadCode(DownloadPrefix + code) == code
  {
    assert (DownloadPrefix + code)[|DownloadPrefix|..] == code;
    SplitWithoutSeparator(code, '/');
  }

  /** A code with a '/' is stored under itself but looked up under its part before the first '/'. */
  lemma SlashedCodeNotReached(code: string)
    requires '/' in code
    ensures StartsWith(DownloadPrefix + code, DownloadPrefix)
    ensures DownloadCode(DownloadPrefix + code) != code
  {
    assert (DownloadPrefix + code)[|DownloadPrefix|..] == code;
  }

  datatype Route = Preflight | Upload | Download(code: string) | Fallback

  /** The order of the handler's tests: OPTIONS first, then exactly POST /upload, then GET under /download/. */
  function RouteOf(httpMethod: string, path: string): (r: Route)
    ensures r.Preflight? <==> httpMethod == "OPTIONS"
    ensures r.Upload? <==> httpMethod == "POST" && path == "/upload"
    ensures r.Download? <==> httpMethod == "GET" && StartsWith(path, DownloadPrefix)
    ensures r.Download? ==> r.code == DownloadCode(path)
  {
    if httpMethod == "OPTIONS" then Preflight
    else if httpMethod == "POST" && path == "/upload" then Upload
    else if httpMethod == "GET" && StartsWith(path, DownloadPrefix) then Download(DownloadCode(path))
    else Fallback
  }

  function ServerError(message: string): Response {
    Response(500, JsonHeaders, JsonBody(ErrorReply(message)))
  }

  /** The fallback answer: a plain-text name of the service. */
  const FallbackResponse: Response := Response(200, TextHeaders, Text("File Share API"))

  const FilesNotFound: Response := Response(404, JsonHeaders, JsonBody(ErrorReply("Files not found")))

  /**
   * The answer to a download of code: the stored text, or 404 when nothing
   * (or an empty string, which the handler treats as missing) is stored, or
   * 500 when the store throws.
   */
  function DownloadResponse(storage: map<string, string>, code: string, kvFailure: Option<string>): (r: Response)
    ensures HasCors(r)
    ensures r.status == 200 <==> kvFailure.None? && code in storage && storage[code] != []
    ensures r.status == 200 ==> r.body == Text(storage[code])
    ensures kvFailure.None? && code !in storage ==> r == FilesNotFound
    ensures kvFailure.None? && code in storage && storage[code] == [] ==> r == FilesNotFound
    ensures kvFailure.Some? ==> r == ServerError(kvFailure.value)
  {
    if kvFailure.Some? then ServerError(kvFailure.value)
    else if code !in storage || storage[code] == [] then FilesNotFound
    else Response(200, JsonHeaders, Text(storage[code]))
  }

  datatype Outcome = Outcome(response: Response, storage: map<string, string>)

  /**
   * The whole handler over a store: kvFailure is the exception the store
   * throws on this request, if any.
   */
  function Handle(storage: map<string, string>, request: Request, kvFailure: Option<string>): (out: Outcome)
    ensures HasCors(out.response)
    ensures out.storage != storage ==>
      && RouteOf(request.httpMethod, request.path).Upload?
      && request.body.Parsed? && kvFailure.None?
      && out.storage == storage[request.body.code := request.body.serialized]
    ensures request.httpMethod == "OPTIONS" ==> out == Outcome(Response(200, CorsHeaders, Null), storage)
    ensures RouteOf(request.httpMethod, request.path).Upload? && !request.body.Parsed? ==>
      out == Outcome(ServerError(ParseError(request.body)), storage)
    ensures RouteOf(request.httpMethod, request.path).Fallback? ==>
      out == Outcome(FallbackResponse, storage)
  {
    match RouteOf(request.httpMethod, request.path)
    case Preflight => Outcome(Response(200, CorsHeaders, Null), storage)
    case Upload =>
      (match request.body
       case Parsed(code, serialized) =>
         if kvFailure.Some? then Outcome(ServerError(kvFailure.value), storage)
         else Outcome(Response(200, JsonHeaders, JsonBody(SuccessReply(code))), storage[code := serialized])
       case _ => Outcome(ServerError(ParseError(request.body)), storage))
    case Download(code) => Outcome(DownloadResponse(storage, code, kvFailure), storage)
    case Fallback => Outcome(FallbackResponse, storage)
  }

  /**
   * Publish then resolve: after an upload under a code without '/', a download
   * of that code returns exactly the stored text.
   */
  lemma UploadThenDownload(storage: map<string, string>, code: string, serialized: string)
    requires '/' !in code && serialized != []
    ensures var up := Handle(storage, Request("POST", "/upload", Parsed(code, serialized)), None);
      && up.response == Response(200, JsonHeaders, JsonBody(SuccessReply(code)))
      && Handle(up.storage, Request("GET", DownloadPrefix + code, Empty), None).response
         == Response(200, JsonHeaders, Text(serialized))
  {
    DownloadCodeOfCode(code);
  }

  /** A download of a code never uploaded is a 404 whose body says the files were not found. */
  lemma DownloadOfUnknownCode(storage: map<string, string>, code: string)
    requires '/' !in code && code !in storage
    ensures Handle(storage, Request("GET", DownloadPrefix + code, Empty), None) == Outcome(FilesNotFound, storage)
  {
    DownloadCodeOfCode(code);
  }

  /** The worker over its KV namespace FILE_STORAGE, without the 24-hour expiry. */
  class Worker {
    var storage: map<string, string>

    constructor (initial: map<string, string>)
      ensures storage == initial
    {
      storage := initial;
    }

    /** The upload branch: put the serialized body under its code, or answer 500. */
    method Upload(body: RequestBody, kvFailure: Option<string>) returns (response: Response)
      modifies this
      ensures body.Parsed? && kvFailure.None? ==>
        && storage == old(storage)[body.code := body.serialized]
        && response == Response(200, JsonHeaders, JsonBody(SuccessReply(body.code)))
      ensures !body.Parsed? ==> storage == old(storage) && response == ServerError(ParseError(body))
      ensures body.Parsed? && kvFailure.Some? ==> storage == old(storage) && response == ServerError(kvFailure.value)
    {
      match body
      case Parsed(code, serialized) =>
        if kvFailure.Some? {
          response := ServerError(kvFailure.value);
        } else {
          storage := storage[code := serialized];
          response := Response(200, JsonHeaders, JsonBody(SuccessReply(code)));
        }
      case _ =>
        response := ServerError(ParseError(body));
    }

    /** The download branch: look the code up; the store is not changed. */
    method Download(code: string, kvFailure: Option<string>) returns (response: Response)
      ensures response == DownloadResponse(storage, code, kvFailure)
    {
      if kvFailure.Some? {
        return ServerError(kvFailure.value);
      }
      var data := if code in storage then Some(storage[code]) else None;
      if data.None? || data.value == [] {
        response := FilesNotFound;
      } else {
        response := Response(200, JsonHeaders, Text(data.value));
      }
    }

    /** fetch: route the request and answer it; the store changes only through Upload. */
    method Fetch(request: Request, kvFailure: Option<string>) returns (response: Response)
      modifies this
      ensures Outcome(response, storage) == Handle(old(storage), request, kvFailure)
    {
      match RouteOf(request.httpMethod, request.path)
      case Preflight =>
        response := Response(200, CorsHeaders, Null);
      case Upload =>
        response := Upload(request.body, kvFailure);
      case Download(code) =>
        response := Download(code, kvFailure);
      case Fallback =>
        response := FallbackResponse;
    }
  }

  /** A client of the class: an upload followed by a download of the same code gets the stored text back. */
  method PublishThenResolve(worker: Worker, code: string, serialized: string) returns (uploaded: Response, downloaded: Response)
    requires '/' !in code && serialized != []
    modifies worker
    ensures uploaded == Response(200, JsonHeaders, JsonBody(SuccessReply(code)))
    ensures downloaded == Response(200, JsonHeaders, Text(serialized))
    ensures worker.storage == old(worker.storage)[code := serialized]
  {
    uploaded := worker.Fetch(Request("POST", "/upload", Parsed(code, serialized)), None);
    UploadThenDownload(old(worker.storage), code, serialized);
    downloaded := worker.Fetch(Request("GET", DownloadPrefix + code, Empty), None);
  }
}

/**
 * The client in backend-script.js: it posts one file to a backend service,
 * which answers with a numeric code; the sender shows the code and a QR link
 * carrying it, and a receiver who types the code (or opens the link) checks it
 * with the service and starts the download.
 */
module BackendClient {
  import opened Wrappers
  import opened JsString
  import opened Browser

  const ApiUrl: string := "https://file-share-backend.vercel.app"

  // ---------------------------------------------------------------- code input

  /** The code input's handler: drop everything outside [0-9]. */
  function SanitizeDigits(typed: string): (code: string)
    ensures AllInClass(code, Digit)
    ensures IsSubsequence(code, typed)
  {
    KeepOnlySubsequence(typed, Digit);
    KeepOnly(typed, Digit)
  }

  /** The handler is idempotent and works piece by piece, keeping the order of what it keeps. */
  lemma SanitizeDigitsLaws(a: string, b: string)
    ensures SanitizeDigits(SanitizeDigits(a)) == SanitizeDigits(a)
    ensures SanitizeDigits(a + b) == SanitizeDigits(a) + SanitizeDigits(b)
  {
    KeepOnlyInClass(SanitizeDigits(a), Digit);
    KeepOnlyAppend(a, b, Digit);
  }

  // ---------------------------------------------------------------- receiving

  datatype ReceiveStart =
    | Rejected(message: string)        // error status, no request
    | Check(url: string, code: string) // GET of the check endpoint

  /** The start of receiveFiles: the trimmed input must be six UTF-16 code units long before the code is checked. */
  function ReceiveFiles(inputValue: string): (r: ReceiveStart)
    ensures r.Check? <==> Utf16Length(Trim(inputValue)) == 6
    ensures r.Check? ==> r.code == Trim(inputValue) && r.url == ApiUrl + "/check/" + r.code
    ensures r.Rejected? ==> r.message == "Please enter a valid 6-digit code"
  {
    var code := Trim(inputValue);
    if Utf16Length(code) != 6 then Rejected("Please enter a valid 6-digit code")
    else Check(ApiUrl + "/check/" + code, code)
  }

  /** After the input handler has run, the code is checked exactly when six digits are left. */
  lemma SanitizedDigitsAccepted(typed: string)
    ensures var code := SanitizeDigits(typed);
      ReceiveFiles(code).Check? <==> |code| == 6
    ensures var code := SanitizeDigits(typed);
      |code| == 6 ==> ReceiveFiles(code) == Check(ApiUrl + "/check/" + code, code)
  {
    var code := SanitizeDigits(typed);
    assert forall i :: 0 <= i < |code| ==> !IsWhiteSpace(code[i]) && code[i] as int < 0x1_0000 by {
      forall i | 0 <= i < |code| ensures !IsWhiteSpace(code[i]) && code[i] as int < 0x1_0000 {
        assert InClass(code[i], Digit);
      }
    }
  }

  /** The check endpoint's answer. */
  datatype CheckReply =
    | CheckFailed(message: string)                 // fetch rejected or the body is not JSON
    | CheckResult(valid: bool, filename: string)

  datatype ReceiveEnd =
    | ReceiveFailed(message: string)
    | DownloadStarted(url: string, filename: string)  // a link to url, named filename, is clicked

  /** The rest of receiveFiles: only a valid check leads to a download link, for the same code. */
  function AfterCheck(code: string, reply: CheckReply): (r: ReceiveEnd)
    ensures r.DownloadStarted? <==> reply.CheckResult? && reply.valid
    ensures r.DownloadStarted? ==> r.url == ApiUrl + "/download/" + code && r.filename == reply.filename
    ensures reply.CheckResult? && !reply.valid ==> r == ReceiveFailed("Code not found or expired")
    ensures reply.CheckFailed? ==> r == ReceiveFailed(reply.message)
  {
    match reply
    case CheckFailed(message) => ReceiveFailed(message)
    case CheckResult(valid, filename) =>
      if !valid then ReceiveFailed("Code not found or expired")
      else DownloadStarted(ApiUrl + "/download/" + code, filename)
  }

  // ---------------------------------------------------------------- QR link

  /** The link the QR code carries: the page's origin and path with the code as the code query parameter. */
  function QrUrl(origin: string, pathname: string, code: string): (url: string)
    ensures StartsWith(url, origin + pathname)
    ensures url[|origin + pathname|..] == "?code=" + code
  {
    origin + pathname + "?code=" + code
  }

  /** The load handler: a non-empty code query parameter is put into the input and received. */
  function CodeFromLocation(search: string): (code: Option<string>)
    ensures code.Some? ==> code.value != [] && SearchParamGet(search, "code") == code
    ensures code.None? ==> SearchParamGet(search, "code") in {None, Some([])}
  {
    match SearchParamGet(search, "code")
    case Some(value) => if value == [] then None else Some(value)
    case None => None
  }

  /** The QR round trip: opening the link made for a code of digits puts exactly that code into the input. */
  lemma QrLinkRoundTrip(origin: string, pathname: string, code: string)
    requires '?' !in origin + pathname && '#' !in origin + pathname
    requires code != [] && AllInClass(code, Digit)
    ensures CodeFromLocation(LocationSearch(QrUrl(origin, pathname, code))) == Some(code)
  {
    var base, query := origin + pathname, "code=" + code;
    var url := QrUrl(origin, pathname, code);
    assert url == base + "?" + query;
    var search := "?" + query;
    assert search == "?" + "code" + "=" + code;
    assert '#' !in code && '&' !in code by {
      forall i | 0 <= i < |code| ensures code[i] != '#' && code[i] != '&' {
        assert InClass(code[i], Digit);
      }
    }
    assert '#' !in query by {
      assert query == "code=" + code && '#' !in "code=";
    }
    LocationSearchOfQuery(base, query);
    assert LocationSearch(url) == search;
    SearchParamOfOnePair("code", code);
    assert SearchParamGet(search, "code") == Some(code);
  }

  /** A six-digit code read from the QR link is checked with the service as it is. */
  lemma QrLinkCodeChecked(origin: string, pathname: string, code: string)
    requires '?' !in origin + pathname && '#' !in origin + pathname
    requires |code| == 6 && AllInClass(code, Digit)
    ensures var read := CodeFromLocation(LocationSearch(QrUrl(origin, pathname, code)));
      read.Some? && ReceiveFiles(read.value) == Check(ApiUrl + "/check/" + code, code)
  {
    QrLinkRoundTrip(origin, pathname, code);
    SanitizedDigitsAccepted(code);
    KeepOnlyInClass(code, Digit);
  }

  // ---------------------------------------------------------------- upload reply

  /** The parsed JSON body of the upload reply: result.success, result.code and result.error ("" when absent). */
  datatype ReplyBody =
    | Unparsable(message: string)   // response.json() throws
    | Reply(success: bool, code: string, error: string)

  datatype UploadResponse =
    | NetworkFailure(message: string)  // fetch rejects
    | HttpResponse(ok: bool, contentType: Option<string>, body: ReplyBody)

  datatype UploadResult = Uploaded(code: string) | UploadError(message: string)

  /**
   * The content-type test: a missing header fails it, and any header that
   * starts with application/json (with or without parameters) passes it.
   */
  predicate IsJsonReply(response: UploadResponse)
    requires response.HttpResponse?
    ensures response.contentType.None? ==> !IsJsonReply(response)
    ensures response.contentType.Some? && StartsWith(response.contentType.value, "application/json") ==>
      IsJsonReply(response)
  {
    response.contentType.Some? && Contains(response.contentType.value, "application/json")
  }

  /**
   * The decision in the send handler: success needs a JSON content type, a
   * parsable body, response.ok and result.success; every other answer is an
   * error, with the message the handler throws.
   */
  function ClassifyUpload(response: UploadResponse): (r: UploadResult)
    ensures r.Uploaded? <==>
      && response.HttpResponse? && IsJsonReply(response)
      && response.body.Reply? && response.ok && response.body.success
    ensures r.Uploaded? ==> r.code == response.body.code
    ensures response.NetworkFailure? ==> r == UploadError(response.message)
    ensures response.HttpResponse? && !IsJsonReply(response) ==> r == UploadError("Server error. Please try again.")
    ensures response.HttpResponse? && IsJsonReply(response) && response.body.Unparsable? ==>
      r == UploadError(response.body.message)
    ensures response.HttpResponse? && IsJsonReply(response) && response.body.Reply? && r.UploadError? ==>
      r.message == if response.body.error != [] then response.body.error else "Upload failed"
  {
    match response
    case NetworkFailure(message) => UploadError(message)
    case HttpResponse(ok, _, body) =>
      if !IsJsonReply(response) then UploadError("Server error. Please try again.")
      else match body
        case Unparsable(message) => UploadError(message)
        case Reply(success, code, error) =>
          if ok && success then Uploaded(code)
          else UploadError(if error != [] then error else "Upload failed")
  }

  // ---------------------------------------------------------------- the send panel

  /** The POST the send button issues: the file as the form field "file". */
  datatype PostRequest = PostRequest(url: string, file: File)

  datatype SendOutcome =
    | NotSent                                       // no file: the handler returns at once
    | Sent(request: PostRequest, result: UploadResult)

  /** The sender's state: the global selectedFile, the send button's disabled flag, the share code and QR link. */
  class SendPanel {
    var selectedFile: Option<File>
    var sendDisabled: bool
    var resultShown: bool  // the sendResult block replaces the upload area
    var shareCode: string
    var qrUrl: string
    var statusMessage: string

    /** While the upload area is shown, a selected file can always be sent. */
    ghost predicate Valid()
      reads this
    {
      selectedFile.Some? && !resultShown ==> !sendDisabled
    }

    /** Page load: no file; the page's markup starts the send button disabled. */
    constructor ()
      ensures Valid()
      ensures selectedFile == None && sendDisabled && !resultShown
      ensures shareCode == [] && qrUrl == [] && statusMessage == []
    {
      selectedFile := None;
      sendDisabled := true;
      resultShown := false;
      shareCode := [];
      qrUrl := [];
      statusMessage := [];
    }

    /**
     * handleFileSelect: selectedFile becomes the first chosen file; send is
     * enabled when there is one. With no file chosen selectedFile becomes
     * undefined and the button keeps its state.
     */
    method HandleFileSelect(chosen: seq<File>)
      requires Valid()
      modifies this
      ensures Valid()
      ensures selectedFile == if chosen == [] then None else Some(chosen[0])
      ensures sendDisabled == if chosen == [] then old(sendDisabled) else false
      ensures resultShown == old(resultShown) && shareCode == old(shareCode)
      ensures qrUrl == old(qrUrl) && statusMessage == old(statusMessage)
    {
      selectedFile := if |chosen| > 0 then Some(chosen[0]) else None;
      if selectedFile.Some? {
        sendDisabled := false;
      }
    }

    /**
     * The send button's click handler. The POST is outside the model: its
     * response is given, and the page's origin and path make the QR link.
     */
    method Send(response: UploadResponse, origin: string, pathname: string) returns (r: SendOutcome)
      requires Valid()
      modifies this
      ensures Valid()
      ensures old(selectedFile).None? ==> r == NotSent && unchanged(this)
      ensures old(selectedFile).Some? ==>
        && r == Sent(PostRequest(ApiUrl + "/upload", old(selectedFile).value), ClassifyUpload(response))
        && selectedFile == old(selectedFile)
      ensures old(selectedFile).Some? && r.result.Uploaded? ==>
        && sendDisabled && resultShown && shareCode == r.result.code
        && qrUrl == QrUrl(origin, pathname, r.result.code)
        && statusMessage == "Upload successful!"
      ensures old(selectedFile).Some? && r.result.UploadError? ==>
        && !sendDisabled && statusMessage == "Upload failed: " + r.result.message
        && resultShown == old(resultShown) && shareCode == old(shareCode) && qrUrl == old(qrUrl)
    {
      if selectedFile.None? {
        return NotSent;
      }
      sendDisabled := true;
      var result := ClassifyUpload(response);
      r := Sent(PostRequest(ApiUrl + "/upload", selectedFile.value), result);
      match result
      case Uploaded(code) =>
        shareCode := code;
        qrUrl := QrUrl(origin, pathname, code);
        resultShown := true;
        statusMessage := "Upload successful!";
      case UploadError(message) =>
        statusMessage := "Upload failed: " + message;
        sendDisabled := false;
    }

    /** resetSend: no file, send disabled, upload area back. */
    method ResetSend()
      modifies this
      ensures Valid()
      ensures selectedFile == None && sendDisabled && !resultShown
      ensures shareCode == old(shareCode) && qrUrl == old(qrUrl) && statusMessage == old(statusMessage)
    {
      selectedFile := None;
      sendDisabled := true;
      resultShown := false;
    }
  }
}

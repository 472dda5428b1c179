/**
 * The client in script.js: it uploads the selected files as one JSON payload to
 * a file named after a six-character code in a GitHub repository, and a
 * receiver who types the code fetches that file and downloads each entry.
 */
module GithubClient {
  import opened JsString
  import opened Browser

  const GithubRepo: string := "jaysevak/file-share-storage"
  const ApiBase: string := "https://api.github.com/repos/" + GithubRepo + "/contents"

  /**
   * The repository file that holds the upload for a code: the sender PUTs it,
   * the receiver GETs it. The code can be read back from the URL, so different
   * codes name different files.
   */
  function ContentsUrl(code: string): (url: string)
    ensures |url| == |ApiBase| + |code| + 6
    ensures StartsWith(url, ApiBase + "/") && url[|url| - 5..] == ".json"
    ensures url[|ApiBase| + 1..|url| - 5] == code
  {
    ApiBase + "/" + code + ".json"
  }

  // ---------------------------------------------------------------- code input

  /** The code input's handler: upper-case what was typed, then drop everything outside [A-Z0-9]. */
  function SanitizeCode(typed: string): (code: string)
    ensures AllInClass(code, UpperAlnum)
  {
    KeepOnly(UpperCase(typed), UpperAlnum)
  }

  /** Running the handler again on its own output changes nothing. */
  lemma SanitizeCodeIdempotent(typed: string)
    ensures SanitizeCode(SanitizeCode(typed)) == SanitizeCode(typed)
  {
    var code := SanitizeCode(typed);
    UpperCaseOfUpperAlnum(code);
    KeepOnlyInClass(code, UpperAlnum);
  }

  /**
   * The handler works character by character and keeps the order: typing a
   * then b gives the code of a followed by the code of b.
   */
  lemma SanitizeCodeAppend(a: string, b: string)
    ensures SanitizeCode(a + b) == SanitizeCode(a) + SanitizeCode(b)
  {
    UpperCaseAppend(a, b);
    KeepOnlyAppend(UpperCase(a), UpperCase(b), UpperAlnum);
  }

  /** On one ASCII character: a lower-case letter comes back upper-case, A-Z and 0-9 stay, anything else goes. */
  lemma SanitizeCodeAsciiChar(c: char)
    requires c as int < 0x80
    ensures SanitizeCode([c]) ==
      if IsAsciiLower(c) then [(c as int - 32) as char]
      else if InClass(c, UpperAlnum) then [c]
      else []
  {
    assert UpperCase([c]) == UpperOf(c) + UpperCase([]);
  }

  /** What the handler keeps appears in the upper-cased input, in the same order. */
  lemma SanitizeCodeSubsequence(typed: string)
    ensures IsSubsequence(SanitizeCode(typed), UpperCase(typed))
  {
    KeepOnlySubsequence(UpperCase(typed), UpperAlnum);
  }

  // ---------------------------------------------------------------- receiving

  datatype ReceiveStart =
    | Rejected(message: string)  // error status, no request
    | Fetch(url: string)         // GET of the repository file

  /** The start of receiveFiles: the trimmed input must be six UTF-16 code units long before anything is fetched. */
  function ReceiveFiles(inputValue: string): (r: ReceiveStart)
    ensures r.Fetch? <==> Utf16Length(Trim(inputValue)) == 6
    ensures r.Fetch? ==> r.url == ContentsUrl(Trim(inputValue))
    ensures r.Rejected? ==> r.message == "Please enter a valid 6-digit code"
  {
    var code := Trim(inputValue);
    if Utf16Length(code) != 6 then Rejected("Please enter a valid 6-digit code")
    else Fetch(ContentsUrl(code))
  }

  /** After the input handler has run, the request goes out exactly when six characters are left. */
  lemma SanitizedInputAccepted(typed: string)
    ensures ReceiveFiles(SanitizeCode(typed)).Fetch? <==> |SanitizeCode(typed)| == 6
    ensures |SanitizeCode(typed)| == 6 ==> ReceiveFiles(SanitizeCode(typed)) == Fetch(ContentsUrl(SanitizeCode(typed)))
  {
    var code := SanitizeCode(typed);
    assert forall i :: 0 <= i < |code| ==> !IsWhiteSpace(code[i]) && code[i] as int < 0x1_0000 by {
      forall i | 0 <= i < |code| ensures !IsWhiteSpace(code[i]) && code[i] as int < 0x1_0000 {
        assert InClass(code[i], UpperAlnum);
      }
    }
  }

  /**
   * Rendezvous: whatever the receiver types, if the input handler turns it into
   * the six-character code the sender used, the receiver fetches the very file
   * the sender uploaded.
   */
  lemma TypedCodeReachesUpload(typed: string, code: string)
    requires |code| == 6 && SanitizeCode(typed) == code
    ensures ReceiveFiles(SanitizeCode(typed)) == Fetch(ContentsUrl(code))
  {
    SanitizedInputAccepted(typed);
  }

  // ---------------------------------------------------------------- payload

  /** One entry of the payload's files array (fileToBase64); data is the file read as a binary string. */
  datatype FileEntry = FileEntry(name: string, mime: string, size: nat, data: string)

  /** The uploaded JSON payload. */
  datatype Payload = Payload(files: seq<FileEntry>, timestamp: int)

  /** fileToBase64: the entry's data decodes back to the file's bytes, and its size is their number. */
  function Entry(file: File): (e: FileEntry)
    ensures e.name == file.name && e.mime == file.mime && e.size == |file.bytes|
    ensures IsBinaryString(e.data) && CharCodes(e.data) == file.bytes
  {
    BinaryStringRoundTrip(file.bytes);
    FileEntry(file.name, file.mime, |file.bytes|, BinaryString(file.bytes))
  }

  /** The payload of a send: one entry per selected file, in selection order, and the send time. */
  function BuildPayload(selected: seq<File>, timestamp: int): (p: Payload)
    ensures |p.files| == |selected| && p.timestamp == timestamp
    ensures forall i :: 0 <= i < |selected| ==>
      && p.files[i].name == selected[i].name
      && p.files[i].mime == selected[i].mime
      && p.files[i].size == |selected[i].bytes|
      && p.files[i].data == BinaryString(selected[i].bytes)
  {
    Payload(seq(|selected|, i requires 0 <= i < |selected| => Entry(selected[i])), timestamp)
  }

  /**
   * base64ToArrayBuffer after atob: a Uint8Array as long as the binary string,
   * filled with its char codes.
   */
  method Base64ToArrayBuffer(binary: string) returns (bytes: array<byte>)
    requires IsBinaryString(binary)
    ensures fresh(bytes)
    ensures bytes[..] == CharCodes(binary)
  {
    ghost var codes := CharCodes(binary);
    bytes := new byte[|binary|];
    for i := 0 to |binary|
      invariant bytes[..i] == codes[..i]
    {
      bytes[i] := binary[i] as int as byte;
      assert bytes[i] == codes[i];
      assert bytes[..i + 1] == bytes[..i] + [bytes[i]];
    }
    assert bytes[..] == bytes[..|binary|];
  }

  /** What downloadFile hands to the browser: the file name, the Blob type and the Blob bytes. */
  datatype Download = Download(name: string, mime: string, bytes: seq<byte>)

  /** downloadFile(index) on the listed files. */
  function DownloadFile(files: seq<FileEntry>, index: nat): (d: Download)
    requires index < |files| && IsBinaryString(files[index].data)
    ensures d.name == files[index].name && d.mime == files[index].mime
    ensures |d.bytes| == |files[index].data|
    ensures forall i :: 0 <= i < |d.bytes| ==> d.bytes[i] as int == files[index].data[i] as int
  {
    Download(files[index].name, files[index].mime, CharCodes(files[index].data))
  }

  /** Downloading entry i of a payload gives back the i-th selected file: its name, type and bytes. */
  lemma DownloadReturnsSelectedFile(selected: seq<File>, timestamp: int, i: nat)
    requires i < |selected|
    ensures var files := BuildPayload(selected, timestamp).files;
      i < |files| && IsBinaryString(files[i].data) &&
      DownloadFile(files, i) == Download(selected[i].name, selected[i].mime, selected[i].bytes)
  {
    BinaryStringRoundTrip(selected[i].bytes);
  }

  /** The answer to the receiver's GET, as far as the code tells outcomes apart. */
  datatype FetchReply =
    | Unreachable           // fetch rejected, or the body could not be decoded and parsed
    | NotOk                 // response.ok is false
    | Found(payload: Payload)

  datatype ReceiveEnd =
    | ReceiveFailed(message: string)
    | Listed(files: seq<FileEntry>)  // displayDownloadList(payload.files)

  /** The rest of receiveFiles: any failure shows one message; otherwise the payload's files are listed. */
  function AfterFetch(reply: FetchReply): (r: ReceiveEnd)
    ensures r.Listed? <==> reply.Found?
    ensures r.Listed? ==> r.files == reply.payload.files
    ensures r.ReceiveFailed? ==> r.message == "Files not found. Please check the code and try again."
  {
    match reply
    case Found(payload) => Listed(payload.files)
    case _ => ReceiveFailed("Files not found. Please check the code and try again.")
  }

  // ---------------------------------------------------------------- the send panel

  /**
   * Whether btoa(JSON.stringify(payload)) succeeds for a selection. btoa throws
   * on a character above U+00FF. JSON.stringify copies names and MIME types as
   * they are (its escapes are ASCII), the data entries are base64 text and the
   * timestamp is digits, so it fails exactly when a name or type holds such a
   * character.
   */
  predicate PayloadEncodable(selected: seq<File>) {
    forall i :: 0 <= i < |selected| ==> IsBinaryString(selected[i].name) && IsBinaryString(selected[i].mime)
  }

  /** The PUT the send button issues. */
  datatype PutRequest = PutRequest(url: string, payload: Payload)

  datatype SendOutcome =
    | NotSent                           // nothing selected: the handler returns at once
    | ReadFailed                        // a FileReader failed: Promise.all rejects, no request
    | EncodeFailed                      // btoa threw on the payload, before fetch is called
    | Uploaded(request: PutRequest)     // the share code is shown
    | UploadFailed(request: PutRequest) // the PUT was rejected or not ok

  /** The sender's state: the global selectedFiles, the send button's disabled flag and the share-code view. */
  class SendPanel {
    var selectedFiles: seq<File>
    var sendDisabled: bool
    var resultShown: bool  // the sendResult block replaces the upload area
    var shareCode: string

    /** While the upload area is shown, send is disabled exactly when nothing is selected. */
    ghost predicate Valid()
      reads this
    {
      !resultShown ==> (sendDisabled <==> selectedFiles == [])
    }

    /** Page load: nothing selected; the page's markup starts the send button disabled. */
    constructor ()
      ensures Valid()
      ensures selectedFiles == [] && sendDisabled && !resultShown && shareCode == []
    {
      selectedFiles := [];
      sendDisabled := true;
      resultShown := false;
      shareCode := [];
    }

    /** handleFiles: the selection becomes the given files, in order. */
    method HandleFiles(files: seq<File>)
      modifies this
      ensures Valid()
      ensures selectedFiles == files
      ensures sendDisabled <==> files == []
      ensures resultShown == old(resultShown) && shareCode == old(shareCode)
    {
      selectedFiles := files;
      sendDisabled := |selectedFiles| == 0;
    }

    /** removeFile: selectedFiles.splice(index, 1). */
    method RemoveFile(index: int)
      modifies this
      ensures Valid()
      ensures selectedFiles == SpliceOne(old(selectedFiles), index)
      ensures sendDisabled <==> selectedFiles == []
      ensures resultShown == old(resultShown) && shareCode == old(shareCode)
    {
      selectedFiles := SpliceOne(selectedFiles, index);
      sendDisabled := |selectedFiles| == 0;
    }

    /**
     * The send button's click handler. The code generator, the file reads and
     * the PUT are outside the model: the code is given, readOk says whether
     * every FileReader succeeded, and putOk whether the fetch resolved with
     * response.ok. The reads come first, then btoa of the payload, then the PUT;
     * every failure shows the error status and enables send again.
     */
    method Send(code: string, timestamp: int, readOk: bool, putOk: bool) returns (r: SendOutcome)
      requires Valid()
      modifies this
      ensures Valid()
      ensures old(selectedFiles) == [] ==> r == NotSent && unchanged(this)
      ensures old(selectedFiles) != [] ==>
        var request := PutRequest(ContentsUrl(code), BuildPayload(old(selectedFiles), timestamp));
        && selectedFiles == old(selectedFiles)
        && (!readOk ==> r == ReadFailed)
        && (readOk && !PayloadEncodable(old(selectedFiles)) ==> r == EncodeFailed)
        && (readOk && PayloadEncodable(old(selectedFiles)) ==>
              r == if putOk then Uploaded(request) else UploadFailed(request))
        && (r.Uploaded? ==> sendDisabled && resultShown && shareCode == code)
        && (!r.Uploaded? ==> !sendDisabled && resultShown == old(resultShown) && shareCode == old(shareCode))
    {
      if |selectedFiles| == 0 {
        return NotSent;
      }
      sendDisabled := true;
      if !readOk {
        r := ReadFailed;
      } else if !PayloadEncodable(selectedFiles) {
        r := EncodeFailed;
      } else {
        var request := PutRequest(ContentsUrl(code), BuildPayload(selectedFiles, timestamp));
        r := if putOk then Uploaded(request) else UploadFailed(request);
      }
      if r.Uploaded? {
        shareCode := code;
        resultShown := true;
      } else {
        sendDisabled := false;
      }
    }

    /** resetSend: empty selection, send disabled, upload area back. */
    method ResetSend()
      modifies this
      ensures Valid()
      ensures selectedFiles == [] && sendDisabled && !resultShown
      ensures shareCode == old(shareCode)
    {
      selectedFiles := [];
      sendDisabled := true;
      resultShown := false;
    }
  }
}

# File share by code: a Dafny model

This project models the logic of a small browser file-sharing tool. A sender picks files and gets a short code. A receiver types the code (or opens a QR link that carries it) and downloads the files. Three pieces of code do this, and each has its own module:

- `script.js` (module `GithubClient`, file `script.dfy`). It PUTs all selected files as one JSON payload to `<code>.json` in a GitHub repository. A receiver types the code; the input handler upper-cases it and keeps only `[A-Z0-9]`. A trimmed code of exactly six characters is fetched, and each listed entry is downloaded as bytes.
- `backend-script.js` (module `BackendClient`, file `backend_script.dfy`). It POSTs one file to a backend service and shows the returned code and a QR link `?code=<code>`. The input handler keeps only digits. A six-character code is checked with the service, and only a valid check starts a download.
- `worker.js` (module `KvWorker`, file `worker.dfy`). It is a key-value directory. `POST /upload` stores the request's JSON under its `code` field. `GET /download/<code>` returns what is stored there, or 404. `OPTIONS` gets the CORS preflight answer, and every response carries the CORS headers.

Two supporting modules model the platform the code calls. `JsString` (file `js_string.dfy`) covers the JavaScript string built-ins: `trim`, `length` in UTF-16 code units, `includes`, `split`, the `toUpperCase` cases that matter here, and `replace(/[^…]/g, '')`. `Browser` (file `browser.dfy`) covers `File`, `readAsBinaryString`, `splice(i, 1)`, `Location.search` and `URLSearchParams.get`.

Every transfer goes through a remote store: GitHub, the backend service or the worker's KV namespace. The code has no direct peer-to-peer transfer, no chunking and no session state.

Things the model shows about the code:

- `handleFileSelect` with an empty file list sets `selectedFile` to `undefined` but leaves the send button as it was. The button can therefore be enabled with nothing selected; the click handler's `if (!selectedFile) return` makes this harmless. `BackendClient.SendPanel.Valid` states the invariant that does hold: a selected file can always be sent.
- A code that arrives through the QR link goes into the input without passing the digit filter. Only the trim-and-length check applies to it.
- The worker stores under any `code` string. A code containing `/` can never be downloaded, because the download key is the path segment before the next `/` (`KvWorker.SlashedCodeNotReached`).
- The worker treats a stored empty string like a missing key and answers 404. `JSON.stringify` of a request body never yields an empty string.

## Model

| member | source | states |
|---|---|---|
| `JsString.Trim` | script.js:182 | The result is a slice of the input with only white space before and after it, and it neither starts nor ends with white space. Together these fix it as the input with exactly its leading and trailing white space removed. |
| `JsString.Utf16Units` | script.js:184 | The UTF-16 encoding of one code point is the code point itself up to U+FFFF. Above U+FFFF it is two units, a high surrogate then a low surrogate. Every unit fits in 16 bits, and decoding the units gives the code point back. |
| `JsString.Utf16Length` | script.js:184 | The length of a one-character string is the number of units in that character's UTF-16 encoding. The length lies between the number of code points and twice that, and equals it for text in the Basic Multilingual Plane. |
| `JsString.Utf16LengthAppend` | script.js:184 | The length of a concatenation is the sum of the lengths, so together with the one-character case each code point counts its own code units. |
| `JsString.StartsWithConcat` | worker.js:40 | `startsWith` holds if and only if the string is the prefix followed by some string. |
| `JsString.ContainsOccurs` | backend-script.js:113 | `includes` holds if and only if the substring occurs at some position of the string. |
| `JsString.UpperOf` | script.js:178 | `toUpperCase` of one character is never empty. It maps an ASCII lower-case letter to its capital and keeps every other ASCII character. |
| `JsString.UpperCase` | script.js:178 | `toUpperCase` never shortens a string. On ASCII text it maps `a`-`z` to `A`-`Z` position by position and keeps every other character. |
| `JsString.UpperCaseAppend` | script.js:178 | Upper-casing works piece by piece: the upper case of `a + b` is the upper case of `a` followed by that of `b`. |
| `JsString.UpperCaseOfUpperAlnum` | script.js:178 | Upper-casing leaves a string of `A`-`Z` and `0`-`9` unchanged. |
| `JsString.Split` | worker.js:42 | `split` on one character gives at least one piece, no piece holds the separator, and joining the pieces with it gives the input back. |
| `JsString.KeepOnly` | script.js:178 | A global replace of a negated character class leaves only class characters, and never lengthens the string. |
| `JsString.KeepOnlyAppend` | script.js:178 | The filter works piece by piece: filtering `a + b` equals filtering `a`, then `b`, so kept characters keep their order. |
| `JsString.KeepOnlySubsequence` | backend-script.js:163 | What the filter keeps is a subsequence of its input. |
| `JsString.KeepOnlyInClass` | script.js:178 | A string made only of class characters passes the filter unchanged. |
| `Browser.BinaryString` | script.js:153 | `readAsBinaryString` gives one character per byte, each below U+0100, with the byte's value. |
| `Browser.CharCodes` | script.js:262 | `charCodeAt` over a binary string gives one byte per character, with the character's code. |
| `Browser.BinaryStringRoundTrip` | script.js:153 | Reading bytes as a binary string and taking the char codes back gives the same bytes. |
| `Browser.SpliceOne` | script.js:79 | `splice(index, 1)` with an index in range removes exactly that element: length drops by one, earlier elements stay in place, later ones shift down by one, and the multiset loses just that element. An index past the end changes nothing; a negative index counts from the end and is clamped to the first element; an empty array stays empty. |
| `Browser.LocationSearch` | backend-script.js:6 | `location.search` is empty or a `?` followed by a non-empty query, with no fragment. |
| `Browser.LocationSearchOfQuery` | backend-script.js:6 | For a URL whose base has no `?` or `#`, followed by `?` and a non-empty query without `#`, `location.search` is `?` plus that query. |
| `Browser.FirstValue` | backend-script.js:7 | A found value comes from a pair named `name` (`name=value`, or `name` alone with the empty value). For a name without `=`, a value is found if and only if some non-empty pair is named `name`, and it is the value of the first such pair. |
| `Browser.SearchParamGet` | backend-script.js:6-7 | The query is the search without its leading `?`, split on `&`. For a name without `=`, `get` finds a value if and only if some pair of the query is named `name`, and the value is that of the first such pair. A found value never holds `&`; this holds only because percent-decoding is not modelled. |
| `Browser.SearchParamOfOnePair` | backend-script.js:6-7 | `URLSearchParams.get` on the query `?name=value` returns `value`, for a value without `&`. |
| `GithubClient.ContentsUrl` | script.js:110 | The upload URL is `<API base>/<code>.json`, and the code can be read back from it, so different codes name different files. The receiver's GET at script.js:192 uses the same URL. |
| `GithubClient.SanitizeCode` | script.js:177-179 | After the input handler runs, the code holds only `A`-`Z` and `0`-`9`. |
| `GithubClient.SanitizeCodeIdempotent` | script.js:178 | Running the handler on its own output changes nothing. |
| `GithubClient.SanitizeCodeAppend` | script.js:178 | The handler works piece by piece and keeps the order of what it keeps. |
| `GithubClient.SanitizeCodeAsciiChar` | script.js:178 | On an ASCII character, a lower-case letter comes back as its upper-case form, `A`-`Z` and `0`-`9` stay, and anything else is removed. |
| `GithubClient.SanitizeCodeSubsequence` | script.js:178 | The code is a subsequence of the upper-cased input. |
| `GithubClient.ReceiveFiles` | script.js:181-187 | A fetch is made if and only if the trimmed input is six code units long, and it goes to the file for the trimmed code. Otherwise the result is the "valid 6-digit code" error and no fetch. |
| `GithubClient.SanitizedInputAccepted` | script.js:177-187 | After the input handler runs, a fetch is made exactly when six characters are left, and it is for those six characters. |
| `GithubClient.TypedCodeReachesUpload` | script.js:177-192 | Any typed text that the handler turns into the sender's six-character code makes the receiver fetch the same URL the sender uploaded to. |
| `GithubClient.Entry` | script.js:141-155 | `fileToBase64` keeps the file's name and type, sets the size to the byte count, and produces data that decodes back to exactly the file's bytes. |
| `GithubClient.BuildPayload` | script.js:101-108 | The payload has one entry per selected file, in selection order, with that file's name, type, size and contents, plus the send time. |
| `GithubClient.Base64ToArrayBuffer` | script.js:258-265 | The loop fills a byte array as long as the decoded string, where byte `i` is the char code at `i`. |
| `GithubClient.DownloadFile` | script.js:240-250 | The download carries the entry's name and type, and one byte per character of its data; byte `i` is the char code of character `i`. |
| `GithubClient.DownloadReturnsSelectedFile` | script.js:240-264 | Downloading entry `i` of a sent payload returns the `i`-th selected file's name, type and bytes, exactly. |
| `GithubClient.AfterFetch` | script.js:198-208 | Files are listed if and only if the fetch returned a payload, and the list is that payload's files. Every failure shows the same "Files not found" message. |
| `GithubClient.SendPanel.constructor` | script.js:6 | The panel starts with an empty selection, send disabled, and the upload area shown. |
| `GithubClient.SendPanel.HandleFiles` | script.js:48-52 | The selection is replaced by the given files, in order. Send is disabled if and only if the new list is empty. |
| `GithubClient.SendPanel.RemoveFile` | script.js:78-82 | The selection becomes `splice(index, 1)` of the old one. Send is disabled if and only if the result is empty. |
| `GithubClient.SendPanel.Send` | script.js:93-135 | With nothing selected, nothing happens. A failed file read sends no request. So does a payload that `btoa` rejects, which happens when a file name or type has a character above U+00FF. Otherwise the payload of the selection is PUT to the code's file, and the upload succeeds if and only if the PUT resolves with `response.ok`. On success the share code is shown and send stays disabled; on every failure send is enabled again. The selection is kept, and "send disabled iff empty while the upload area shows" holds throughout. |
| `GithubClient.SendPanel.ResetSend` | script.js:163-172 | The selection is emptied, send is disabled, and the upload area shows again. |
| `BackendClient.SanitizeDigits` | backend-script.js:162-164 | After the input handler runs, the code holds only digits and is a subsequence of what was typed. |
| `BackendClient.SanitizeDigitsLaws` | backend-script.js:163 | The digit filter is idempotent and works piece by piece, keeping the order of the digits. |
| `BackendClient.ReceiveFiles` | backend-script.js:166-172 | The code is checked with the service if and only if the trimmed input is six code units long. Otherwise the result is the error and no request is made. |
| `BackendClient.SanitizedDigitsAccepted` | backend-script.js:162-172 | After the input handler runs, the check is requested exactly when six digits are left, and it is for those digits. |
| `BackendClient.AfterCheck` | backend-script.js:176-198 | A download link is made if and only if the check says valid, and it points at `/download/<code>` with the returned file name. An invalid check gives "Code not found or expired" and no link. |
| `BackendClient.QrUrl` | backend-script.js:123 | The QR link is the page's origin and path followed by `?code=` and the code. |
| `BackendClient.CodeFromLocation` | backend-script.js:5-16 | The load handler takes the `code` query parameter when it is non-empty, and nothing otherwise. |
| `BackendClient.QrLinkRoundTrip` | backend-script.js:123 | Opening the QR link made for a non-empty code of digits puts exactly that code into the input. |
| `BackendClient.QrLinkCodeChecked` | backend-script.js:9-15 | A six-digit code read back from its QR link is checked with the service as it is. |
| `BackendClient.IsJsonReply` | backend-script.js:112-113 | A missing content type fails the test. A content type that starts with `application/json` passes it, with or without parameters. |
| `BackendClient.ClassifyUpload` | backend-script.js:112-145 | An upload counts as a success if and only if the content type includes `application/json`, the body parses, `response.ok` holds and `result.success` is true; the shown code is `result.code`. Every other case is an error with the message the handler throws: the server-error text, the network message, the parse message for a JSON content type with a body that does not parse, or `result.error`, falling back to "Upload failed". |
| `BackendClient.SendPanel.constructor` | backend-script.js:18 | The panel starts with no file, send disabled, and the upload area shown. |
| `BackendClient.SendPanel.HandleFileSelect` | backend-script.js:61-67 | The selected file becomes the first chosen file, or none. Send is enabled when there is a file and otherwise keeps its state. |
| `BackendClient.SendPanel.Send` | backend-script.js:97-146 | With no file, nothing happens. Otherwise the file is POSTed to `/upload` and the reply is classified. On success the code and the QR link `?code=<code>` are shown and send stays disabled. On an error the "Upload failed: " message is shown and send is enabled again. |
| `BackendClient.SendPanel.ResetSend` | backend-script.js:148-157 | The selected file is cleared, send is disabled, and the upload area shows again. |
| `KvWorker.DownloadCode` | worker.js:42 | For a path under `/download/`, the key `path.split('/')[2]` is the text after the prefix up to the next `/`. |
| `KvWorker.DownloadCodeOfCode` | worker.js:40-43 | The key looked up for `/download/<code>` is the code itself, when it holds no `/`. |
| `KvWorker.SlashedCodeNotReached` | worker.js:42 | A code containing `/` is never the key looked up for `/download/<code>`. |
| `KvWorker.RouteOf` | worker.js:14-63 | OPTIONS goes to the preflight on any path. Exactly `POST /upload` goes to the upload branch. A `GET` under `/download/` goes to the download branch with the key from `split`. Everything else goes to the default answer. |
| `KvWorker.DownloadResponse` | worker.js:40-60 | A download answers 200 with the stored text if and only if the store does not throw and holds a non-empty value. A missing key or a stored empty string gives 404 "Files not found", a store exception gives 500, and every answer carries the CORS headers. |
| `KvWorker.Handle` | worker.js:2-64 | Every response carries the CORS headers. The store changes only on a successful upload, and then only by putting the serialized body under its code. OPTIONS gets the preflight answer with the store unchanged. A body that fails to parse gives 500 with the store unchanged. Any other method or path gets the plain-text "File Share API" answer, with the `text/plain;charset=UTF-8` content type the `Response` constructor adds for a string body. |
| `KvWorker.UploadThenDownload` | worker.js:19-54 | After an upload under a code without `/`, the worker replies `{success: true, code}`, and a download of that code returns exactly the stored payload. |
| `KvWorker.DownloadOfUnknownCode` | worker.js:45-50 | Downloading a code that was never stored gives 404 "Files not found" and leaves the store unchanged. |
| `KvWorker.Worker.Upload` | worker.js:19-37 | A parsed body is put under its code and answered with `{success: true, code}`. A parse failure or a store exception gives 500 with the store unchanged. |
| `KvWorker.Worker.Download` | worker.js:40-61 | The download branch answers as `DownloadResponse` says for the current store, and changes nothing. |
| `KvWorker.Worker.Fetch` | worker.js:2-64 | The response and the new store are those `Handle` gives for the old store. |
| `KvWorker.PublishThenResolve` | worker.js:19-54 | Through the class: an upload and then a download of the same code get `{success: true, code}` and the stored payload back, and the store maps the code to the payload. |

## Left out

- User-interface work is not modelled: tab switching, drag and drop, the HTML of the file lists, status toasts and their timers, and showing or hiding page sections (apart from the `resultShown` flag). This is presentation only. Clearing the code input after a download starts (backend-script.js:195) is also left out.
- `formatFileSize` is not modelled, because it uses floating-point `Math.log`, `Math.pow` and `Math.round`.
- `generateCode` is not modelled, because it depends on `Math.random`. The code is a parameter of `GithubClient.SendPanel.Send`. The model makes no claim about its length; the real generator can produce fewer than six characters, which the receiver would reject.
- Network calls (`fetch` to GitHub, the backend service and the KV store), `FileReader`, `Blob`, object URLs, `QRCode.toCanvas` and `JSON.stringify`/`parse` are not modelled. Their results enter the model as parameters: `readOk`, `putOk`, `UploadResponse`, `CheckReply`, `FetchReply`, `kvFailure` and the `serialized` text.
- `btoa` and `atob` are treated as an inverse pair on strings below U+0100. A payload entry's data holds the file's binary string rather than its base64 text. The outer base64 wrapping of the whole payload is not modelled either, except that `btoa` rejects a payload holding a character above U+00FF (`GithubClient.PayloadEncodable`). `Base64ToArrayBuffer` starts from the string `atob` returns. `atob` rejecting bad base64 is not modelled.
- The GitHub repository and the backend service are external stores and are not modelled. The publish/resolve law is proved only for the worker's store.
- The worker's 24-hour KV expiry is not modelled, because the external store enforces it over wall-clock time. The store is a plain map.
- `KvWorker.Handle`: request bodies whose `code` field is missing or not a string are not modelled, because what the KV binding does with a non-string key lies outside the shown source.
- `KvWorker.Handle`: the request's path is given as the URL's pathname. URL parsing and percent-encoding of the path are not modelled.
- `Browser.SearchParamGet`: `URLSearchParams` percent-decoding and `+`-to-space are not modelled, so the value is the raw text of the pair. This also affects `BackendClient.CodeFromLocation`. For `?code=+123456` the page gets `" 123456"`, which trims to six code units and is checked; the model gets `"+123456"` and rejects it. Likewise `?code=a%26b` gives `"a&b"` in the page.
- `Browser.SearchParamOfOnePair`: for the same reason, the round trip is stated on raw text. The QR link's digit codes need no decoding.
- `JsString.UpperOf`: `toUpperCase` is exact only for characters whose upper-case form contains `A`-`Z`. Every other character stays unchanged. The real upper-case forms of those other characters contain no `[A-Z0-9]`, so the code sanitiser's output is the same either way.
- `downloadAll`'s staggered `setTimeout` calls are not modelled, because this is timer scheduling.
- Each event handler is modelled as one atomic step. Interleavings at the `await` points are not modelled. The upload area stays visible while an upload is in flight (script.js:125, backend-script.js:134), so choosing new files then runs `handleFiles` or `handleFileSelect`. That replaces the selection and enables send again before the upload ends, which allows a second click. After such an interleaving, the selection left by a successful send is the new one, not the one uploaded; `GithubClient.SendPanel.Send` and `BackendClient.SendPanel.Send` state the selection only for a send with no interleaving.
- `GithubClient.SendPanel.Send`: `putOk` covers both a rejected fetch and `response.ok` being false. Both take the same error path in the source.
- `GithubClient.SendPanel.constructor` and `BackendClient.SendPanel.constructor`: both start with send disabled. The button's initial state comes from page markup that is not part of this model.

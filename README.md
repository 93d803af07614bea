# x0x0 upload core, modelled in Dafny

This project models the logic core of x0x0, a React Native client for the
anonymous file host 0x0.st. The core has two parts:

- **The protocol adapter** (`util/endpoint-service.ts`). `upload` builds a
  multipart form: the file part, an optional empty `secret` field and an
  optional `expires` field. It POSTs the form to `https://0x0.st/` and sorts
  the response into one of three outcomes: a failure, "already exists", or a
  result `{url, token, expires}`. `destroy` POSTs `token`/`delete` to a
  file's URL with only the User-Agent header. It does not trim the body and
  does not look at any header: an ok response yields the body as it is,
  and any other status throws "Error <status>: <body>". A rejection of
  `fetch` or of reading the body propagates out of either operation
  unchanged.
- **The index screen's file-registry controller** (`app/index.tsx`).
  `onUploadButtonPress` validates a picked file. `uploadFile` uploads it,
  writes a flattened record to the key-value store under the digest of the
  file name, and appends the record to the list on screen. `getFiles`
  rebuilds that list from the store whenever the screen gains focus.

Files:

- `wrappers.dfy`: `Option` (JavaScript's `undefined`/`null`, with `GetOr`
  for `??`) and `Result` (a value or a thrown message).
- `strings.dfy`: the two JavaScript string primitives the core uses.
  `Trim` models `String.prototype.trim`, over ECMAScript's WhiteSpace and
  LineTerminator code points. `NatToString` is decimal rendering. Their
  partners are `TrimPadded` (trim recovers any bare string from its
  whitespace padding) and `DecimalValue` (a digit parser that inverts
  `NatToString`).
- `endpoint_service.dfy`: module `EndpointService`. The network is a
  parameter `fetch: Request -> Result<Response, string>`: either a
  response, which is an abstract value (status, body, optional `x-token` and
  `x-expires` headers), or the error the request rejects with. The form
  construction is done by methods that append to a sequence step by step,
  proved equal to the specification function `UploadForm`. The response
  classification is done by pure functions.
- `index_screen.dfy`: module `Index`. The class `IndexScreen` holds the
  screen state: `isUploading`, `modalVisible`, `pickedFile`, `files`, the
  store (a `map<string, string>`) and `sent`, the requests issued so far.
  Each handler is a method proved to follow a pure step function on a
  `ScreenState` value (`PickStep`, `UploadFileStep`, `RefreshStep`). The
  lemmas are about those step functions, including sequences of several
  steps. MD5 and JSON are abstract functions bundled in an `Env`.
  `JsonRoundTrip(env)` is the hypothesis that parsing a serialized record
  gives the record back.

Notable behaviour of the code, which the model reproduces:

- Only an absent `x-token` header counts as "already exists". A present but
  empty token is accepted as a success.
- The upload body is trimmed before it is used or reported; the deletion
  body is not.
- The duplicate message reads "File already exist remotely: …".
- `getFiles` fails as a whole on one unparseable value; it does not skip
  malformed entries.
- There is no upload progress reporting and no cancellation.
- The record is the flattened one built in `uploadFile`, not the stale type
  with a nested `file` field in `util/file.tsx`.

## Model

| member | source | states |
|---|---|---|
| Strings.IsWhitespace | util/endpoint-service.ts:29 | the code points `trim` removes, that is ECMAScript's WhiteSpace and LineTerminator; among ASCII exactly TAB, LF, VT, FF, CR and space, so every visible ASCII character, which is what a URL is made of, is kept |
| Strings.Trim | util/endpoint-service.ts:29 | the trimmed text has no whitespace at either end and sits inside the input with only whitespace around it; it is empty exactly when the input is all whitespace |
| Strings.TrimPadded | util/endpoint-service.ts:29 | trimming a bare string padded with whitespace on both sides gives that string back, so trim is exactly "remove the padding" |
| Strings.TrimIdempotent | util/endpoint-service.ts:29 | trimming twice is the same as trimming once |
| Strings.NatToString | util/endpoint-service.ts:18 | the decimal rendering of a retention or status is a non-empty string of digits with no leading zero except for 0 itself |
| Strings.DecimalRoundTrip | util/endpoint-service.ts:18 | reading the rendered digits back gives the original number |
| Strings.NatToStringInjective | util/endpoint-service.ts:18 | different numbers render as different strings, so the `expires` field determines the retention |
| EndpointService.IsOk | util/endpoint-service.ts:31 | `response.ok` holds exactly for a status in 200..299, that is a status whose hundreds digit is 2 |
| EndpointService.UploadForm | util/endpoint-service.ts:11-19 | the file part `{name, type, uri}` comes first; an empty `secret` field is present iff the flag is set and comes second; an `expires` field with the retention's digits is present iff a retention is given and comes last; with the defaults the form is the file part alone |
| EndpointService.BuildUploadForm | util/endpoint-service.ts:11-19 | appending the fields one at a time to an empty form, skipping `secret` and `expires` unless asked for, yields exactly `UploadForm` |
| EndpointService.UploadRequest | util/endpoint-service.ts:21-28 | the upload is a POST to `https://0x0.st/` carrying `User-Agent: x0x0/0.0.1 (Android;RN Expo)` and `Content-Type: multipart/form-data`, with the upload form as its body |
| EndpointService.ClassifyUpload | util/endpoint-service.ts:29-46 | success iff the status is in 200..299 and `x-token` is present; a non-ok status yields "Upload failed: <status> - <trimmed body>"; an ok status without a token yields "File already exist remotely: <trimmed body>"; a success carries the trimmed body as URL, the token as given, and `x-expires` or "" |
| EndpointService.Upload | util/endpoint-service.ts:4-47 | the request sent is `UploadRequest` of the arguments (defaults: no secret, no retention), and the result is what `UploadAnswer` makes of the network's answer to that request |
| EndpointService.UploadFailureCarriesStatus | util/endpoint-service.ts:31-33 | the status code can be read back from a non-ok upload's failure message, whatever the body |
| EndpointService.UploadFailureIgnoresHeaders | util/endpoint-service.ts:31-38 | on a non-ok status the token and expiry headers do not affect the outcome |
| EndpointService.EmptyTokenIsNotDuplicate | util/endpoint-service.ts:35-40 | an ok response whose token header is present but empty is a success with the empty token, not a duplicate |
| EndpointService.UploadUrlIsTrimmedBody | util/endpoint-service.ts:29-46 | for every ok status and every response with a token, a bare URL with any whitespace before and after it comes back as exactly that URL, with the token and the expiry (or "") |
| EndpointService.UploadAnswer | util/endpoint-service.ts:21-29 | a rejection of `fetch` or of reading the body propagates as it is; an answer is classified; success needs an ok status and a token |
| EndpointService.BuildDestroyForm | util/endpoint-service.ts:50-52 | the deletion form is exactly `token=<token>` followed by an empty `delete` field |
| EndpointService.ClassifyDestroy | util/endpoint-service.ts:59-65 | success iff the status is ok, returning the body verbatim; otherwise the failure is "Error <status>: <body>" with the untrimmed body |
| EndpointService.DestroyAnswer | util/endpoint-service.ts:54-59 | a rejection of `fetch` or of reading the body propagates as it is; an answer is classified; success needs an ok status and returns the body |
| EndpointService.Destroy | util/endpoint-service.ts:49-66 | the deletion is a POST to the file's URL with only the User-Agent header and the deletion form, and its result is what `DestroyAnswer` makes of the network's answer |
| EndpointService.DestroyFailureCarriesStatus | util/endpoint-service.ts:61-63 | the status code can be read back from a failed deletion's message |
| EndpointService.DestroyDoesNotTrim | util/endpoint-service.ts:59-65 | for every ok status and every body made of a bare text followed by non-empty whitespace, `destroy` returns the whole body while `upload` (given a token) returns only the text, so the two differ |
| Index.ValidatePick | app/index.tsx:103-125 | a cancelled pick or a picker exception is ignored; a missing first asset, a missing or zero size, and a size above 536870912 are rejected with their own alerts; the first asset is accepted iff its size is in 1..536870912 |
| Index.PickSizeBoundary | app/index.tsx:117-125 | a size of exactly 536870912 is accepted and every larger size gets the 512 MiB alert |
| Index.CanUpload | app/index.tsx:45 | the upload guard fails exactly when nothing is picked or the picked asset has no `file` property |
| Index.AssetRequest | app/index.tsx:62-66 | the request `uploadFile` sends is a POST to the endpoint with the upload headers whose only field is the file part, with the MIME type defaulting to `*/*` |
| Index.MakeRecord | app/index.tsx:62-81 | the record carries the digest as id, the name and URI as picked, the size or 0, the MIME type or `*/*`, and the URL, token and expiry of the upload result |
| Index.PickStep | app/index.tsx:96-132 | an accepted file becomes `pickedFile` and opens the modal with no alert; any other verdict leaves the state unchanged, with the rejection's alert if there is one |
| Index.UploadFileStep | app/index.tsx:44-94 | with no picked file or no `.file`, it only alerts, sending no request and writing nothing; otherwise exactly one upload request is sent and both flags end false; an upload failure (a rejected request or a failure response) or a failed save (digest or store write) leaves store and list unchanged and alerts the error text; on success the store gains exactly the entry `digest(name) -> serialize(record)` and the list has the record appended |
| Index.UploadRejectionAlerts | app/index.tsx:66-93 | when the upload request rejects, the error is alerted under "File upload error", the store and the list are unchanged, and both flags come down |
| Index.Lookup | app/index.tsx:30 | `multiGet` reads a value exactly for a key in the store, and then that key's value |
| Index.ReadEntry | app/index.tsx:31-35 | a missing or empty stored value gives `undefined`; any other value gives its parse, and fails exactly when the parse fails |
| Index.RetrieveFiles | app/index.tsx:29-35 | the rebuilt list exists iff every key's value can be read; it then has one entry per listed key, in listing order, each the reading of that key's value |
| Index.RefreshStep | app/index.tsx:27-42 | only `files` can change; it succeeds iff the store listing and every parse succeed, and then `files` is the retrieved list; on any failure `files` is kept and the load alert is shown |
| Index.StepsPreserveInv | app/index.tsx:44-128 | every handler keeps the invariant: no upload in progress between handlers, the modal only shown for a picked file, and a picked file always within the size rules |
| Index.GuardUnderVisibleModal | app/index.tsx:45-48 | while the modal is shown, the upload guard can only fail because `.file` is missing |
| Index.UploadedRecordReadsBack | app/index.tsx:61-84 | after a successful upload, the store entry under `digest(name)` parses back to the record appended to the list, whose size is in 1..512 MiB, whose URL has no surrounding whitespace, and whose token is the host's header |
| Index.UploadKeepsStoreParsable | app/index.tsx:83 | if every stored value parses before an upload, every stored value parses after it |
| Index.RefreshListsStore | app/index.tsx:29-37 | refreshing over a listing of the store's keys, when every value parses, succeeds with one entry per stored key, each the parse of that key's value |
| Index.SameNameUploads | app/index.tsx:67-84 | picking and uploading two files with the same name leaves one store entry for that name, holding the second record, while the list grows by two |
| Index.SameNameRefreshShrinks | app/index.tsx:27-84 | if the list matched the store before two same-name uploads, the next focus refresh produces a strictly shorter list than the one on screen |
| Index.IndexScreen.constructor | app/index.tsx:22-25 | the screen starts with no upload in progress, the modal hidden, nothing picked, an empty list, and the store as given |
| Index.IndexScreen.OnUploadButtonPress | app/index.tsx:96-132 | the new state and the alert are those of `PickStep`, and the invariant is kept |
| Index.IndexScreen.DismissModal | app/index.tsx:163-168 | the Cancel button hides the modal and changes nothing else |
| Index.IndexScreen.UploadFile | app/index.tsx:44-94 | the new state (flags, picked file, list, store, requests sent) and the alert are those of `UploadFileStep`, and the invariant is kept |
| Index.IndexScreen.GetFiles | app/index.tsx:27-42 | the new state and the alert are those of `RefreshStep`, and the invariant is kept |

## Left out

- The real `fetch`, multipart encoding and header lookup are not modelled. The network's answer, a response or a rejection, is the function parameter `fetch`. A response is the status, the body and the two headers: the `x-token`/`x-expires` lookups (case-insensitive in `Headers.get`) are the two fields of `Response`.
- AsyncStorage is a `map<string, string>` field. What `getAllKeys`/`multiGet` return (the key order, or an exception) is the parameter `keys`. A rejection of `Crypto.digestStringAsync` (app/index.tsx:67-70) or of `setItem` is the parameter `saveError`: both end in the same catch with the same effect, so the model does not say which of the two threw.
- A network rejection is whatever string the request's `Result` carries; the text JavaScript gives for a thrown `TypeError` is not modelled.
- MD5 (`expo-crypto`) and JSON are abstract functions (`Env`). `JSON.parse` returns a `FileRecord` or fails. A stored value that is valid JSON of another shape cannot be represented.
- The picker (`getDocumentAsync`) is modelled by its result value `PickResult`. The asset's `file` property is reduced to the boolean `hasFile`. The library documentation describes that property as present on the web only; this is not confirmed here, and if it holds, the guard at app/index.tsx:45 always fails on Android and the success paths of `uploadFile` are reached only on the web.
- Async interleaving is left out: each handler is one atomic step. So the stale `files` closure in `setFiles([...files, file])` and focus refreshes racing an upload are not modelled. `isUploading` is raised and lowered inside one atomic `UploadFile` step.
- Progress reporting and cancellation are not modelled, because the code has neither.
- The unused `formData` at app/index.tsx:51-58 is left out; it is dead code.
- Retention and status are `nat`s, rendered by `NatToString`. Fractional or negative JavaScript numbers are not modelled, nor are integers of 10^21 and above (which JavaScript writes in exponent form) or above 2^53 (which a double cannot hold exactly).
- Toasts, `console.error` and the alert dialog are side effects and are left out. Only the alert's title and message are kept, as the handlers' return value.
- The delete flow on the detail screen (`app/[id].tsx`), the date formatting and clipboard helpers (`util/utils.ts`), the contexts, the components, the layout and the build configuration are not part of this model. They are rendering or library calls.
- `util/file.tsx` is a stale type declaration with no behaviour, and is left out.

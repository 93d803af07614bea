/** The protocol adapter for the 0x0.st file host: the upload request
    (`upload`) and the deletion request (`destroy`), and how each sorts the
    HTTP response into a result or a thrown message.

    The network is a parameter `fetch: Request -> Result<Response, string>`:
    the request the adapter builds goes in, and what comes back is either
    the server's answer as an abstract value (status, body text, and the
    two response headers it reads) or the error with which `fetch` or
    `response.text()` rejects. */
module EndpointService {
  import opened Wrappers
  import opened Strings

  const URL_ENDPOINT: string := "https://0x0.st/"
  const USER_AGENT: string := "x0x0/0.0.1 (Android;RN Expo)"

  /** The `{ name, type, uri }` object appended as the multipart file part. */
  datatype FormFile = FormFile(name: string, mimeType: string, uri: string)

  datatype FieldValue = Blob(file: FormFile) | Text(text: string)

  /** One `FormData.append(key, value)` entry. */
  datatype FormField = FormField(key: string, value: FieldValue)

  datatype Header = Header(name: string, value: string)

  datatype Request = Request(url: string, httpMethod: string, headers: seq<Header>, form: seq<FormField>)

  /** What the adapter reads of a `fetch` response: the status, the body
      text, and the `x-token` and `x-expires` headers (`None` when absent,
      which `Headers.get` reports as `null`). */
  datatype Response = Response(status: nat, body: string, token: Option<string>, expires: Option<string>)

  /** The object `upload` resolves with. */
  datatype Uploaded = Uploaded(url: string, token: string, expires: string)

  /** `Response.ok`: the status is in the range 200 to 299 (section 2.2.3,
      "Statuses", of the WHATWG Fetch Standard). */
  predicate IsOk(status: nat)
    ensures IsOk(status) <==> status / 100 == 2
  {
    200 <= status <= 299
  }

  predicate HasField(form: seq<FormField>, key: string) {
    exists i :: 0 <= i < |form| && form[i].key == key
  }

  function FileField(name: string, mimeType: string, uri: string): FormField {
    FormField("file", Blob(FormFile(name, mimeType, uri)))
  }

  const UPLOAD_HEADERS: seq<Header> := [Header("User-Agent", USER_AGENT), Header("Content-Type", "multipart/form-data")]
  const DESTROY_HEADERS: seq<Header> := [Header("User-Agent", USER_AGENT)]

  const SECRET_FIELD: FormField := FormField("secret", Text(""))

  function ExpiresField(retention: nat): FormField {
    FormField("expires", Text(NatToString(retention)))
  }

  // ---------------------------------------------------------------- upload

  /** The upload form: the file part always comes first; an empty `secret`
      field appears exactly when `secret` is set; an `expires` field holding
      the retention in decimal appears exactly when a retention is given,
      and comes last. */
  function UploadForm(name: string, mimeType: string, uri: string, secret: bool, retention: Option<nat>): (form: seq<FormField>)
    ensures |form| == 1 + (if secret then 1 else 0) + (if retention.Some? then 1 else 0)
    ensures form[0] == FileField(name, mimeType, uri)
    ensures secret ==> form[1] == SECRET_FIELD
    ensures retention.Some? ==> form[|form| - 1] == ExpiresField(retention.value)
    ensures HasField(form, "secret") <==> secret
    ensures HasField(form, "expires") <==> retention.Some?
  {
    var form := [FileField(name, mimeType, uri)]
      + (if secret then [SECRET_FIELD] else [])
      + (if retention.Some? then [ExpiresField(retention.value)] else []);
    assert form[0].key == "file";
    assert secret ==> form[1].key == "secret";
    assert retention.Some? ==> form[|form| - 1].key == "expires";
    form
  }

  /** Builds the upload form by appending to an initially empty form data,
      one entry at a time, as `upload` does. */
  method BuildUploadForm(name: string, mimeType: string, uri: string, secret: bool := false, retention: Option<nat> := None)
    returns (form: seq<FormField>)
    ensures form == UploadForm(name, mimeType, uri, secret, retention)
  {
    form := [];
    form := form + [FileField(name, mimeType, uri)];
    if secret {
      form := form + [SECRET_FIELD];
    }
    if retention.Some? {
      form := form + [ExpiresField(retention.value)];
    }
  }

  /** The full upload request: a POST to the endpoint carrying the client's
      User-Agent and a multipart Content-Type. */
  function UploadRequest(name: string, mimeType: string, uri: string, secret: bool, retention: Option<nat>): (r: Request)
    ensures r.url == "https://0x0.st/" && r.httpMethod == "POST"
    ensures r.headers == [Header("User-Agent", "x0x0/0.0.1 (Android;RN Expo)"), Header("Content-Type", "multipart/form-data")]
    ensures r.form == UploadForm(name, mimeType, uri, secret, retention)
  {
    Request(URL_ENDPOINT, "POST", UPLOAD_HEADERS, UploadForm(name, mimeType, uri, secret, retention))
  }

  const UPLOAD_FAILED_PREFIX: string := "Upload failed: "
  const ALREADY_EXISTS_PREFIX: string := "File already exist remotely: "

  function UploadFailedMessage(status: nat, text: string): string {
    UPLOAD_FAILED_PREFIX + NatToString(status) + " - " + text
  }

  /** How `upload` sorts a response. The body is trimmed on every path. A
      non-ok status throws with the status and the trimmed body, without
      looking at any header; an ok status with no `x-token` header throws
      the "already exists" message; otherwise the result carries the trimmed
      body as the URL, the token as sent (even when empty), and the
      `x-expires` header or "" when it is absent. */
  function ClassifyUpload(resp: Response): (r: Result<Uploaded, string>)
    ensures r.Success? <==> IsOk(resp.status) && resp.token.Some?
    ensures !IsOk(resp.status) ==> r == Failure(UploadFailedMessage(resp.status, Trim(resp.body)))
    ensures IsOk(resp.status) && resp.token.None? ==> r == Failure(ALREADY_EXISTS_PREFIX + Trim(resp.body))
    ensures r.Success? ==> r.value.url == Trim(resp.body) && Bare(r.value.url)
    ensures r.Success? ==> r.value.token == resp.token.value
    ensures r.Success? ==> r.value.expires == (if resp.expires.Some? then resp.expires.value else "")
  {
    var text := Trim(resp.body);
    if !IsOk(resp.status) then
      Failure(UploadFailedMessage(resp.status, text))
    else if resp.token.None? then
      Failure(ALREADY_EXISTS_PREFIX + text)
    else
      Success(Uploaded(text, resp.token.value, resp.expires.GetOr("")))
  }

  /** What `upload` settles to once the request has settled: a rejection
      of `fetch` or `response.text()` propagates unchanged, a response is
      classified; success needs an ok response carrying a token. */
  function UploadAnswer(answer: Result<Response, string>): (r: Result<Uploaded, string>)
    ensures answer.Failure? ==> r == Failure(answer.error)
    ensures answer.Success? ==> r == ClassifyUpload(answer.value)
    ensures r.Success? ==> answer.Success? && IsOk(answer.value.status) && answer.value.token.Some?
  {
    match answer
    case Failure(e) => Failure(e)
    case Success(resp) => ClassifyUpload(resp)
  }

  /** `upload`: build the form, send it, sort the answer. */
  method Upload(name: string, mimeType: string, uri: string, fetch: Request -> Result<Response, string>,
                secret: bool := false, retention: Option<nat> := None)
    returns (request: Request, result: Result<Uploaded, string>)
    ensures request == UploadRequest(name, mimeType, uri, secret, retention)
    ensures result == UploadAnswer(fetch(request))
  {
    var form := BuildUploadForm(name, mimeType, uri, secret, retention);
    request := Request(URL_ENDPOINT, "POST", UPLOAD_HEADERS, form);
    var answer := fetch(request);
    result := UploadAnswer(answer);
  }

  /** The failure message of a non-ok upload carries the status code: it can
      be read back from the message whatever the body said. */
  lemma UploadFailureCarriesStatus(resp: Response)
    requires !IsOk(resp.status)
    ensures ClassifyUpload(resp).Failure?
    ensures NumberAfter(UPLOAD_FAILED_PREFIX, ClassifyUpload(resp).error) == resp.status
  {
    var rest := " - " + Trim(resp.body);
    assert UploadFailedMessage(resp.status, Trim(resp.body)) == UPLOAD_FAILED_PREFIX + NatToString(resp.status) + rest;
    NumberAfterRoundTrip(UPLOAD_FAILED_PREFIX, resp.status, rest);
  }

  /** A non-ok upload never consults the headers: two responses that differ
      only in `x-token` and `x-expires` give the same failure. */
  lemma UploadFailureIgnoresHeaders(r1: Response, r2: Response)
    requires r1.status == r2.status && r1.body == r2.body && !IsOk(r1.status)
    ensures ClassifyUpload(r1) == ClassifyUpload(r2)
  {
  }

  /** A present but empty `x-token` is not a duplicate: only an absent
      header is. */
  lemma EmptyTokenIsNotDuplicate(status: nat, body: string, expires: Option<string>)
    requires IsOk(status)
    ensures ClassifyUpload(Response(status, body, Some(""), expires)).Success?
    ensures ClassifyUpload(Response(status, body, Some(""), expires)).value.token == ""
  {
  }

  /** Whitespace around the URL the host returns never reaches the caller:
      on any ok status with a token, a padded URL comes back bare, and one
      already bare is kept as is. */
  lemma UploadUrlIsTrimmedBody(status: nat, p: string, url: string, q: string, token: string, expires: Option<string>)
    requires IsOk(status)
    requires AllWhitespace(p) && AllWhitespace(q) && Bare(url)
    ensures ClassifyUpload(Response(status, p + url + q, Some(token), expires)) == Success(Uploaded(url, token, expires.GetOr("")))
  {
    TrimPadded(p, url, q);
  }

  // --------------------------------------------------------------- destroy

  /** The deletion form: the token, then an empty `delete` marker. */
  function DestroyForm(token: string): seq<FormField> {
    [FormField("token", Text(token)), FormField("delete", Text(""))]
  }

  /** Builds the deletion form by appending to an initially empty form data. */
  method BuildDestroyForm(token: string) returns (form: seq<FormField>)
    ensures form == DestroyForm(token)
    ensures |form| == 2 && form[0] == FormField("token", Text(token)) && form[1] == FormField("delete", Text(""))
  {
    form := [];
    form := form + [FormField("token", Text(token))];
    form := form + [FormField("delete", Text(""))];
  }

  const DESTROY_FAILED_PREFIX: string := "Error "

  function DestroyFailedMessage(status: nat, text: string): string {
    DESTROY_FAILED_PREFIX + NatToString(status) + ": " + text
  }

  /** How `destroy` sorts a response: the body is never trimmed; a non-ok
      status throws with status and body, an ok one returns the body. */
  function ClassifyDestroy(resp: Response): (r: Result<string, string>)
    ensures r.Success? <==> IsOk(resp.status)
    ensures r.Success? ==> r.value == resp.body
    ensures r.Failure? ==> r.error == DestroyFailedMessage(resp.status, resp.body)
  {
    if !IsOk(resp.status) then Failure(DestroyFailedMessage(resp.status, resp.body))
    else Success(resp.body)
  }

  /** What `destroy` settles to: a rejection propagates unchanged, a
      response is classified; success needs an ok response. */
  function DestroyAnswer(answer: Result<Response, string>): (r: Result<string, string>)
    ensures answer.Failure? ==> r == Failure(answer.error)
    ensures answer.Success? ==> r == ClassifyDestroy(answer.value)
    ensures r.Success? ==> answer.Success? && IsOk(answer.value.status) && r.value == answer.value.body
  {
    match answer
    case Failure(e) => Failure(e)
    case Success(resp) => ClassifyDestroy(resp)
  }

  /** `destroy`: a POST to the file's own URL with only the User-Agent header. */
  method Destroy(url: string, token: string, fetch: Request -> Result<Response, string>)
    returns (request: Request, result: Result<string, string>)
    ensures request == Request(url, "POST", DESTROY_HEADERS, DestroyForm(token))
    ensures request.headers == [Header("User-Agent", "x0x0/0.0.1 (Android;RN Expo)")]
    ensures result == DestroyAnswer(fetch(request))
  {
    var form := BuildDestroyForm(token);
    request := Request(url, "POST", DESTROY_HEADERS, form);
    var answer := fetch(request);
    result := DestroyAnswer(answer);
  }

  lemma DestroyFailureCarriesStatus(resp: Response)
    requires !IsOk(resp.status)
    ensures ClassifyDestroy(resp).Failure?
    ensures NumberAfter(DESTROY_FAILED_PREFIX, ClassifyDestroy(resp).error) == resp.status
  {
    var rest := ": " + resp.body;
    assert DestroyFailedMessage(resp.status, resp.body) == DESTROY_FAILED_PREFIX + NatToString(resp.status) + rest;
    NumberAfterRoundTrip(DESTROY_FAILED_PREFIX, resp.status, rest);
  }

  /** Unlike `upload`, `destroy` keeps surrounding whitespace: on the same
      ok response whose body is a bare text followed by whitespace, `destroy`
      returns the whole body while `upload` returns only the text. */
  lemma DestroyDoesNotTrim(status: nat, x: string, q: string, token: string, expires: Option<string>)
    requires IsOk(status) && Bare(x) && AllWhitespace(q) && q != []
    ensures ClassifyDestroy(Response(status, x + q, Some(token), expires)) == Success(x + q)
    ensures ClassifyUpload(Response(status, x + q, Some(token), expires)).value.url == x
    ensures x + q != x
  {
    TrimPadded([], x, q);
    assert [] + x + q == x + q;
  }
}

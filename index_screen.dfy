/** The file-registry controller of the index screen: validating a picked
    file, uploading it and recording it, and rebuilding the list of files
    from the key-value store when the screen gains focus.

    Each handler is one atomic step. The pure step functions (`PickStep`,
    `UploadFileStep`, `RefreshStep`) say what a handler does to the screen
    state; the class `IndexScreen` holds that state in fields and its
    methods are proved to follow the step functions. The MD5 digest and
    JSON are abstract functions bundled in an `Env`. */
module Index {
  import opened Wrappers
  import opened Strings
  import opened EndpointService

  /** 512 MiB, the largest accepted file. */
  const MAX_FILE_SIZE: nat := 536870912

  /** The picker's asset, reduced to the fields the screen reads. `size`
      and `mimeType` are optional; `hasFile` says whether the asset's
      `file` property is set. */
  datatype Asset = Asset(name: string, size: Option<nat>, mimeType: Option<string>, uri: string, hasFile: bool)

  /** What the document picker hands back: a cancelled pick, a list of
      assets, or an exception the handler catches. */
  datatype PickResult = Canceled | Picked(assets: seq<Asset>) | PickerThrew

  datatype Alert = Alert(title: string, message: string)

  datatype PickVerdict = Ignored | Rejected(alert: Alert) | Accepted(asset: Asset)

  const CORRUPTED_ALERT: Alert := Alert("File picker", "File seems to be  corrupted or something else went wrong.")
  const EMPTY_ALERT: Alert := Alert("File picker", "Empty file.")
  const TOO_LARGE_ALERT: Alert := Alert("File picker", "File size must not exceed 512 MiB.")
  const NO_FILE_ALERT: Alert := Alert("Upload error", "No file selected. Something went wrong.")
  const LOAD_ALERT: Alert := Alert("Loading files", "Failed to load files.")
  const UPLOAD_ERROR_TITLE: string := "File upload error"
  const DEFAULT_MIME_TYPE: string := "*/*"

  /** `!size`: the size is missing or zero. */
  predicate IsEmptySize(size: Option<nat>) {
    size.None? || size.value == 0
  }

  predicate IsAcceptableSize(size: Option<nat>) {
    size.Some? && 0 < size.value <= MAX_FILE_SIZE
  }

  /** The checks `onUploadButtonPress` makes, in order: a cancelled pick or
      a picker exception is ignored; then a missing first asset, an empty
      size and a size over 512 MiB are each rejected with their alert. */
  function ValidatePick(result: PickResult): (v: PickVerdict)
    ensures v.Ignored? <==> !result.Picked?
    ensures v.Accepted? <==> result.Picked? && |result.assets| > 0 && IsAcceptableSize(result.assets[0].size)
    ensures v.Accepted? ==> v.asset == result.assets[0]
    ensures result.Picked? && result.assets == [] ==> v == Rejected(CORRUPTED_ALERT)
    ensures result.Picked? && result.assets != [] && IsEmptySize(result.assets[0].size) ==> v == Rejected(EMPTY_ALERT)
    ensures result.Picked? && result.assets != [] && result.assets[0].size.Some? && result.assets[0].size.value > MAX_FILE_SIZE
            ==> v == Rejected(TOO_LARGE_ALERT)
  {
    match result
    case Canceled => Ignored
    case PickerThrew => Ignored
    case Picked(assets) =>
      if |assets| == 0 then Rejected(CORRUPTED_ALERT)
      else if IsEmptySize(assets[0].size) then Rejected(EMPTY_ALERT)
      else if assets[0].size.value > MAX_FILE_SIZE then Rejected(TOO_LARGE_ALERT)
      else Accepted(assets[0])
  }

  /** Exactly the sizes 1 to 536870912 pass; 512 MiB itself is accepted. */
  lemma PickSizeBoundary(a: Asset, n: nat)
    ensures ValidatePick(Picked([a.(size := Some(n))])).Accepted? <==> 1 <= n <= 536870912
    ensures n > 536870912 ==> ValidatePick(Picked([a.(size := Some(n))])) == Rejected(TOO_LARGE_ALERT)
  {
  }

  /** The flattened record that is stored and listed. */
  datatype FileRecord = FileRecord(id: string, name: string, size: nat, mimeType: string, uri: string,
                                   url: string, token: string, expires: string)

  /** An element of the list the screen shows: a record, or `undefined`
      when the store held no (or an empty) value for the key. */
  datatype Entry = Undefined | Parsed(record: FileRecord)

  /** The foreign functions: the MD5 digest of a string, `JSON.stringify`
      of a record and `JSON.parse` (which may throw: `None`). */
  datatype Env = Env(digest: string -> string, serialize: FileRecord -> string, parse: string -> Option<FileRecord>)

  /** What JSON promises for records: the text is never empty and parses
      back to the record. */
  ghost predicate JsonRoundTrip(env: Env) {
    forall r :: env.serialize(r) != "" && env.parse(env.serialize(r)) == Some(r)
  }

  /** The record `uploadFile` assembles, with the defaults for a missing
      size and MIME type. */
  function MakeRecord(id: string, asset: Asset, up: Uploaded): (r: FileRecord)
    ensures r.id == id && r.name == asset.name && r.uri == asset.uri
    ensures r.size == (if asset.size.Some? then asset.size.value else 0)
    ensures r.mimeType == (if asset.mimeType.Some? then asset.mimeType.value else "*/*")
    ensures r.url == up.url && r.token == up.token && r.expires == up.expires
  {
    FileRecord(id, asset.name, asset.size.GetOr(0), asset.mimeType.GetOr(DEFAULT_MIME_TYPE), asset.uri,
               up.url, up.token, up.expires)
  }

  /** The request `uploadFile` sends: `upload` with its default arguments. */
  function AssetRequest(a: Asset): (r: Request)
    ensures r.url == URL_ENDPOINT && r.httpMethod == "POST" && r.headers == UPLOAD_HEADERS
    ensures r.form == [FileField(a.name, if a.mimeType.Some? then a.mimeType.value else "*/*", a.uri)]
  {
    UploadRequest(a.name, a.mimeType.GetOr(DEFAULT_MIME_TYPE), a.uri, false, None)
  }

  /** What `await upload(...)` settles to for the picked asset. */
  function UploadOutcome(a: Asset, fetch: Request -> Result<Response, string>): Result<Uploaded, string> {
    UploadAnswer(fetch(AssetRequest(a)))
  }

  /** The screen's state, plus `sent`: the requests issued so far, which
      makes "no network call" observable. */
  datatype ScreenState = ScreenState(isUploading: bool, modalVisible: bool, pickedFile: Option<Asset>,
                                     files: seq<Entry>, store: map<string, string>, sent: seq<Request>)

  datatype Step = Step(state: ScreenState, alert: Option<Alert>)

  /** The invariant between handlers: no upload is in progress, the modal is
      only shown for a picked file, and a picked file passed validation. */
  predicate Inv(s: ScreenState) {
    && !s.isUploading
    && (s.modalVisible ==> s.pickedFile.Some?)
    && (s.pickedFile.Some? ==> IsAcceptableSize(s.pickedFile.value.size))
  }

  /** The upload guard: a file has been picked and its `file` is set. */
  predicate CanUpload(picked: Option<Asset>)
    ensures !CanUpload(picked) <==> picked.None? || !picked.value.hasFile
  {
    picked.Some? && picked.value.hasFile
  }

  /** `onUploadButtonPress`: an accepted file becomes the picked file and
      opens the modal; any other verdict changes nothing. */
  function PickStep(s: ScreenState, result: PickResult): (r: Step)
    ensures ValidatePick(result).Accepted? ==>
              r == Step(s.(pickedFile := Some(ValidatePick(result).asset), modalVisible := true), None)
    ensures !ValidatePick(result).Accepted? ==> r.state == s
    ensures ValidatePick(result).Rejected? ==> r.alert == Some(ValidatePick(result).alert)
    ensures ValidatePick(result).Ignored? ==> r.alert == None
  {
    match ValidatePick(result)
    case Ignored => Step(s, None)
    case Rejected(alert) => Step(s, Some(alert))
    case Accepted(asset) => Step(s.(pickedFile := Some(asset), modalVisible := true), None)
  }

  /** `uploadFile`. Without a usable picked file it only alerts. Otherwise
      it sends one upload request and ends with both flags down; the store
      and the list change only when the upload succeeded and saving the
      record (digest, then store write) did too, and then by exactly one
      entry each. */
  function UploadFileStep(s: ScreenState, env: Env, fetch: Request -> Result<Response, string>, saveError: Option<string>): (r: Step)
    ensures !CanUpload(s.pickedFile) ==> r == Step(s, Some(NO_FILE_ALERT))
    ensures CanUpload(s.pickedFile) ==>
              && !r.state.isUploading && !r.state.modalVisible
              && r.state.pickedFile == s.pickedFile
              && r.state.sent == s.sent + [AssetRequest(s.pickedFile.value)]
    ensures CanUpload(s.pickedFile) && UploadOutcome(s.pickedFile.value, fetch).Failure? ==>
              && r.state.store == s.store && r.state.files == s.files
              && r.alert == Some(Alert(UPLOAD_ERROR_TITLE, UploadOutcome(s.pickedFile.value, fetch).error))
    ensures CanUpload(s.pickedFile) && UploadOutcome(s.pickedFile.value, fetch).Success? && saveError.Some? ==>
              && r.state.store == s.store && r.state.files == s.files
              && r.alert == Some(Alert(UPLOAD_ERROR_TITLE, saveError.value))
    ensures CanUpload(s.pickedFile) && UploadOutcome(s.pickedFile.value, fetch).Success? && saveError.None? ==>
              var a := s.pickedFile.value;
              var rec := MakeRecord(env.digest(a.name), a, UploadOutcome(a, fetch).value);
              && r.state.store == s.store[env.digest(a.name) := env.serialize(rec)]
              && r.state.files == s.files + [Parsed(rec)]
              && r.alert == None
  {
    if !CanUpload(s.pickedFile) then Step(s, Some(NO_FILE_ALERT))
    else
      var a := s.pickedFile.value;
      var req := AssetRequest(a);
      var done := s.(isUploading := false, modalVisible := false, sent := s.sent + [req]);
      match UploadAnswer(fetch(req))
      case Failure(e) => Step(done, Some(Alert(UPLOAD_ERROR_TITLE, e)))
      case Success(up) =>
        var id := env.digest(a.name);
        var rec := MakeRecord(id, a, up);
        if saveError.Some? then Step(done, Some(Alert(UPLOAD_ERROR_TITLE, saveError.value)))
        else Step(done.(store := s.store[id := env.serialize(rec)], files := s.files + [Parsed(rec)]), None)
  }

  /** `multiGet`: a key without a value reads as `null`. */
  function Lookup(store: map<string, string>, key: string): (r: Option<string>)
    ensures r.Some? <==> key in store
    ensures r.Some? ==> r.value == store[key]
  {
    if key in store then Some(store[key]) else None
  }

  /** One element of the `values.map(...)` in `getFiles`: a truthy value
      (present and not empty) is parsed, any other gives `undefined`;
      `None` when the parse throws. */
  function ReadEntry(env: Env, value: Option<string>): (r: Option<Entry>)
    ensures value.None? || value.value == "" ==> r == Some(Undefined)
    ensures value.Some? && value.value != "" ==> (r.Some? <==> env.parse(value.value).Some?)
    ensures value.Some? && value.value != "" && env.parse(value.value).Some? ==>
              r == Some(Parsed(env.parse(value.value).value))
    ensures r.Some? && r.value.Parsed? ==> value.Some? && env.parse(value.value) == Some(r.value.record)
  {
    if value.None? || value.value == "" then Some(Undefined)
    else match env.parse(value.value)
      case None => None
      case Some(rec) => Some(Parsed(rec))
  }

  /** The list `getFiles` builds from a key listing: one entry per key, in
      the listing's order; if any one value fails to parse, no list at all. */
  function RetrieveFiles(env: Env, store: map<string, string>, keys: seq<string>): (r: Option<seq<Entry>>)
    ensures r.Some? <==> forall i :: 0 <= i < |keys| ==> ReadEntry(env, Lookup(store, keys[i])).Some?
    ensures r.Some? ==> |r.value| == |keys|
    ensures r.Some? ==> forall i :: 0 <= i < |keys| ==> ReadEntry(env, Lookup(store, keys[i])) == Some(r.value[i])
  {
    if keys == [] then Some([])
    else
      match ReadEntry(env, Lookup(store, keys[0]))
      case None => None
      case Some(e) =>
        match RetrieveFiles(env, store, keys[1..])
        case None =>
          assert exists j :: 0 <= j < |keys| && !ReadEntry(env, Lookup(store, keys[j])).Some? by {
            var i :| 0 <= i < |keys[1..]| && !ReadEntry(env, Lookup(store, keys[1..][i])).Some?;
            assert keys[1..][i] == keys[i + 1];
          }
          None
        case Some(rest) =>
          assert forall i :: 1 <= i < |keys| ==> keys[i] == keys[1..][i - 1];
          Some([e] + rest)
  }

  /** `getFiles`, run when the screen gains focus. `keys` is what the store
      lists (`None` when reading the store throws). Only `files` can change:
      on success it is replaced by the retrieved list; on any failure it is
      left as it was and the load alert is shown. */
  function RefreshStep(s: ScreenState, env: Env, keys: Option<seq<string>>): (r: Step)
    ensures r.state.(files := s.files) == s
    ensures r.alert.None? <==> keys.Some? && RetrieveFiles(env, s.store, keys.value).Some?
    ensures r.alert.Some? ==> r.alert == Some(LOAD_ALERT) && r.state == s
    ensures r.alert.None? ==> Some(r.state.files) == RetrieveFiles(env, s.store, keys.value)
  {
    if keys.None? then Step(s, Some(LOAD_ALERT))
    else match RetrieveFiles(env, s.store, keys.value)
      case None => Step(s, Some(LOAD_ALERT))
      case Some(fs) => Step(s.(files := fs), None)
  }

  /** Every handler keeps the invariant. */
  lemma StepsPreserveInv(s: ScreenState, env: Env, result: PickResult, fetch: Request -> Result<Response, string>,
                         saveError: Option<string>, keys: Option<seq<string>>)
    requires Inv(s)
    ensures Inv(PickStep(s, result).state)
    ensures Inv(UploadFileStep(s, env, fetch, saveError).state)
    ensures Inv(RefreshStep(s, env, keys).state)
  {
  }

  /** When the modal is showing, the only way the upload guard can fail is
      a picked file whose `file` is not set. */
  lemma GuardUnderVisibleModal(s: ScreenState)
    requires Inv(s) && s.modalVisible
    ensures CanUpload(s.pickedFile) <==> s.pickedFile.value.hasFile
  {
  }

  /** After a successful upload, the entry under the digest of the name
      reads back as the record that was appended to the list, and that
      record has the size validation let through, the host's URL without
      surrounding whitespace, and the host's token. */
  lemma UploadedRecordReadsBack(s: ScreenState, env: Env, fetch: Request -> Result<Response, string>)
    requires Inv(s) && JsonRoundTrip(env)
    requires CanUpload(s.pickedFile) && UploadOutcome(s.pickedFile.value, fetch).Success?
    ensures var a := s.pickedFile.value;
            var r := UploadFileStep(s, env, fetch, None).state;
            var id := env.digest(a.name);
            && id in r.store
            && |r.files| == |s.files| + 1
            && r.files[|s.files|].Parsed?
            && env.parse(r.store[id]) == Some(r.files[|s.files|].record)
            && r.files[|s.files|].record.id == id
            && 0 < r.files[|s.files|].record.size <= MAX_FILE_SIZE
            && Bare(r.files[|s.files|].record.url)
            && fetch(AssetRequest(a)).Success?
            && Some(r.files[|s.files|].record.token) == fetch(AssetRequest(a)).value.token
  {
  }

  /** When the request itself rejects (`fetch` or reading the body throws),
      the rejection reaches the catch: its text is alerted, nothing is
      written or listed, and both flags come down. */
  lemma UploadRejectionAlerts(s: ScreenState, env: Env, fetch: Request -> Result<Response, string>,
                              saveError: Option<string>)
    requires CanUpload(s.pickedFile) && fetch(AssetRequest(s.pickedFile.value)).Failure?
    ensures var r := UploadFileStep(s, env, fetch, saveError);
            && r.state == s.(isUploading := false, modalVisible := false, sent := s.sent + [AssetRequest(s.pickedFile.value)])
            && r.alert == Some(Alert(UPLOAD_ERROR_TITLE, fetch(AssetRequest(s.pickedFile.value)).error))
  {
  }

  /** The store only ever holds values that parse or are empty. */
  ghost predicate StoreParsable(env: Env, store: map<string, string>) {
    forall k :: k in store && store[k] != "" ==> env.parse(store[k]).Some?
  }

  lemma UploadKeepsStoreParsable(s: ScreenState, env: Env, fetch: Request -> Result<Response, string>, saveError: Option<string>)
    requires JsonRoundTrip(env) && StoreParsable(env, s.store)
    ensures StoreParsable(env, UploadFileStep(s, env, fetch, saveError).state.store)
  {
  }

  predicate Distinct(keys: seq<string>) {
    forall i, j :: 0 <= i < j < |keys| ==> keys[i] != keys[j]
  }

  /** `keys` lists the key set `ks`: each key exactly once. */
  ghost predicate ListsKeys(keys: seq<string>, ks: set<string>) {
    Distinct(keys) && forall k :: k in keys <==> k in ks
  }

  lemma {:induction false} DistinctCardinality(keys: seq<string>)
    requires Distinct(keys)
    ensures |set k | k in keys| == |keys|
  {
    if keys != [] {
      DistinctCardinality(keys[1..]);
      assert (set k | k in keys) == {keys[0]} + (set k | k in keys[1..]);
      assert keys[0] !in (set k | k in keys[1..]);
    }
  }

  /** A focus refresh over a listing of the whole store, when every stored
      value parses, succeeds and yields one entry per stored key, each the
      parse of that key's value (or `undefined` for an empty value). */
  lemma RefreshListsStore(s: ScreenState, env: Env, keys: seq<string>)
    requires ListsKeys(keys, s.store.Keys) && StoreParsable(env, s.store)
    ensures RefreshStep(s, env, Some(keys)).alert.None?
    ensures |RefreshStep(s, env, Some(keys)).state.files| == |s.store|
    ensures forall i :: 0 <= i < |keys| ==>
              var e := RefreshStep(s, env, Some(keys)).state.files[i];
              if s.store[keys[i]] == "" then e == Undefined
              else e.Parsed? && env.parse(s.store[keys[i]]) == Some(e.record)
  {
    forall i | 0 <= i < |keys| ensures ReadEntry(env, Lookup(s.store, keys[i])).Some? {
      assert keys[i] in s.store;
    }
    assert (set k | k in keys) == s.store.Keys;
    DistinctCardinality(keys);
  }

  /** Picking and uploading two files with the same name: the store keeps a
      single entry for that name (the second record overwrote the first),
      while the list on screen grew by two. */
  lemma SameNameUploads(s: ScreenState, env: Env, fetch1: Request -> Result<Response, string>,
                        fetch2: Request -> Result<Response, string>, a1: Asset, a2: Asset)
    requires Inv(s)
    requires a1.name == a2.name && a1.hasFile && a2.hasFile
    requires IsAcceptableSize(a1.size) && IsAcceptableSize(a2.size)
    requires UploadOutcome(a1, fetch1).Success? && UploadOutcome(a2, fetch2).Success?
    ensures var s1 := UploadFileStep(PickStep(s, Picked([a1])).state, env, fetch1, None).state;
            var s2 := UploadFileStep(PickStep(s1, Picked([a2])).state, env, fetch2, None).state;
            var id := env.digest(a1.name);
            && s2.store == s.store[id := env.serialize(MakeRecord(id, a2, UploadOutcome(a2, fetch2).value))]
            && s2.store.Keys == s.store.Keys + {id}
            && |s2.files| == |s.files| + 2
  {
  }

  /** The optimistic list can run ahead of the store: if the list matched
      the store before two same-name uploads, the next focus refresh yields
      a strictly shorter list than the one on screen. */
  lemma SameNameRefreshShrinks(s: ScreenState, env: Env, fetch1: Request -> Result<Response, string>,
                               fetch2: Request -> Result<Response, string>, a1: Asset, a2: Asset, keys: seq<string>)
    requires Inv(s) && JsonRoundTrip(env) && StoreParsable(env, s.store) && |s.files| == |s.store|
    requires a1.name == a2.name && a1.hasFile && a2.hasFile
    requires IsAcceptableSize(a1.size) && IsAcceptableSize(a2.size)
    requires UploadOutcome(a1, fetch1).Success? && UploadOutcome(a2, fetch2).Success?
    requires ListsKeys(keys, s.store.Keys + {env.digest(a1.name)})
    ensures var s1 := UploadFileStep(PickStep(s, Picked([a1])).state, env, fetch1, None).state;
            var s2 := UploadFileStep(PickStep(s1, Picked([a2])).state, env, fetch2, None).state;
            var r := RefreshStep(s2, env, Some(keys));
            r.alert.None? && |r.state.files| < |s2.files|
  {
    var p1 := PickStep(s, Picked([a1])).state;
    var s1 := UploadFileStep(p1, env, fetch1, None).state;
    var p2 := PickStep(s1, Picked([a2])).state;
    var s2 := UploadFileStep(p2, env, fetch2, None).state;
    var id := env.digest(a1.name);
    SameNameUploads(s, env, fetch1, fetch2, a1, a2);
    UploadKeepsStoreParsable(p1, env, fetch1, None);
    UploadKeepsStoreParsable(p2, env, fetch2, None);
    assert ListsKeys(keys, s2.store.Keys);
    RefreshListsStore(s2, env, keys);
    if id !in s.store.Keys {
      assert |s.store.Keys + {id}| == |s.store.Keys| + 1;
    }
  }

  /** The index screen's state, updated in place by its handlers. */
  class IndexScreen {
    var isUploading: bool
    var modalVisible: bool
    var pickedFile: Option<Asset>
    var files: seq<Entry>
    var store: map<string, string>
    var sent: seq<Request>
    const env: Env

    function State(): ScreenState
      reads this
    {
      ScreenState(isUploading, modalVisible, pickedFile, files, store, sent)
    }

    ghost predicate Valid()
      reads this
    {
      Inv(State())
    }

    /** The screen as first rendered, over whatever the store already holds. */
    constructor (env: Env, store: map<string, string>)
      ensures Valid()
      ensures State() == ScreenState(false, false, None, [], store, [])
    {
      this.env := env;
      isUploading := false;
      modalVisible := false;
      pickedFile := None;
      files := [];
      this.store := store;
      sent := [];
    }

    method OnUploadButtonPress(result: PickResult) returns (alert: Option<Alert>)
      requires Valid()
      modifies this
      ensures Valid()
      ensures Step(State(), alert) == PickStep(old(State()), result)
    {
      var verdict := ValidatePick(result);
      match verdict {
        case Ignored =>
          alert := None;
        case Rejected(a) =>
          alert := Some(a);
        case Accepted(asset) =>
          pickedFile := Some(asset);
          modalVisible := true;
          alert := None;
      }
    }

    /** The modal's Cancel button. */
    method DismissModal()
      requires Valid()
      modifies this
      ensures Valid()
      ensures State() == old(State()).(modalVisible := false)
    {
      modalVisible := false;
    }

    /** `saveError` is what saving the record throws, if anything does:
        the MD5 digest of the name or, after it, the store write. */
    method UploadFile(fetch: Request -> Result<Response, string>, saveError: Option<string>) returns (alert: Option<Alert>)
      requires Valid()
      modifies this
      ensures Valid()
      ensures Step(State(), alert) == UploadFileStep(old(State()), env, fetch, saveError)
    {
      if pickedFile.None? || !pickedFile.value.hasFile {
        alert := Some(NO_FILE_ALERT);
        return;
      }
      isUploading := true;
      var asset := pickedFile.value;
      var fileName := asset.name;
      var fileType := asset.mimeType.GetOr(DEFAULT_MIME_TYPE);
      var fileUri := asset.uri;
      var request, outcome := Upload(fileName, fileType, fileUri, fetch);
      sent := sent + [request];
      match outcome {
        case Failure(e) =>
          alert := Some(Alert(UPLOAD_ERROR_TITLE, e));
        case Success(up) =>
          var id := env.digest(asset.name);
          var file := MakeRecord(id, asset, up);
          if saveError.Some? {
            alert := Some(Alert(UPLOAD_ERROR_TITLE, saveError.value));
          } else {
            store := store[id := env.serialize(file)];
            files := files + [Parsed(file)];
            alert := None;
          }
      }
      isUploading := false;
      modalVisible := false;
    }

    /** `keys` is what listing the store returns (`None` when it throws). */
    method GetFiles(keys: Option<seq<string>>) returns (alert: Option<Alert>)
      requires Valid()
      modifies this
      ensures Valid()
      ensures Step(State(), alert) == RefreshStep(old(State()), env, keys)
    {
      if keys.None? {
        alert := Some(LOAD_ALERT);
        return;
      }
      var retrieved := RetrieveFiles(env, store, keys.value);
      if retrieved.None? {
        alert := Some(LOAD_ALERT);
        return;
      }
      files := retrieved.value;
      alert := None;
    }
  }
}

/**
 * The request handlers of the files controller: upload, owner-scoped
 * lookup and listing, publish / unpublish, and content retrieval.
 *
 * HTTP statuses and JSON bodies become an `Error` value. The handlers that
 * change state are methods on the shared `Store`; the ones that only read
 * are functions of the store's contents.
 *
 * The source calls `fs.promises.writeFile` and `fs.existsSync` without ever
 * requiring `fs`. As written, every non-folder upload throws after its
 * first save, and a content request that passes every check before
 * `fs.existsSync` answers 500; since no upload then records a path, an
 * uploaded file's content request answers NotFound at the null-path check.
 * The model gives the intended blob-store behaviour; the upload's write
 * failure is the `writeFails` parameter of `Upload` and `CreateFile`.
 */
module FilesController {
  import opened Wrappers
  import opened BlobStore
  import opened Metadata

  datatype Error =
    | Unauthorized          // 401
    | MissingName           // 400
    | MissingOrInvalidType  // 400
    | MissingData           // 400
    | ParentNotFound        // 400
    | ParentNotFolder       // 400
    | NotFound              // 404
    | NoContent             // 400: a folder has no content
    | ServerError           // 500: an exception caught by the handler

  datatype Result<+T> = Ok(value: T) | Err(error: Error)

  /** True of a JavaScript value that is falsy: absent, or the empty string. */
  predicate Blank(s: Option<string>) {
    s.None? || s.value == ""
  }

  // ---------------------------------------------------------------- upload

  /** The body of an upload request; a field the client left out is `None`. */
  datatype UploadRequest = UploadRequest(
    name: Option<string>,
    fileType: Option<string>,
    parentId: Option<Id>,
    isPublic: Option<bool>,
    data: Option<string>)

  function RequestedType(req: UploadRequest): Option<FileType> {
    if req.fileType.None? then None else ParseType(req.fileType.value)
  }

  /** `parentId` defaults to 0, the root. */
  function RequestedParent(req: UploadRequest): Id {
    req.parentId.GetOr(ROOT)
  }

  /**
   * The upload's validation chain, in the source's order: name, then type,
   * then data for a non-folder, then the parent. Succeeds with the type.
   */
  function CheckUpload(files: seq<Entry>, req: UploadRequest): (r: Result<FileType>)
    ensures r == Err(MissingName) <==> Blank(req.name)
    ensures r == Err(MissingOrInvalidType) <==> !Blank(req.name) && RequestedType(req).None?
    ensures r == Err(MissingData) <==>
      !Blank(req.name) && RequestedType(req).Some? && RequestedType(req) != Some(Folder) && Blank(req.data)
    ensures r == Err(ParentNotFound) ==>
      RequestedParent(req) != ROOT && IndexById(files, RequestedParent(req)).None?
    ensures r == Err(ParentNotFolder) ==>
      RequestedParent(req) != ROOT && IndexById(files, RequestedParent(req)).Some? && !IsFolderId(files, RequestedParent(req))
    ensures r.Ok? <==>
      && !Blank(req.name)
      && RequestedType(req).Some?
      && (RequestedType(req) == Some(Folder) || !Blank(req.data))
      && (RequestedParent(req) != ROOT ==> IsFolderId(files, RequestedParent(req)))
    ensures r.Ok? ==> Some(r.value) == RequestedType(req)
    ensures r.Err? ==> r.error in {MissingName, MissingOrInvalidType, MissingData, ParentNotFound, ParentNotFolder}
  {
    if Blank(req.name) then Err(MissingName)
    else if RequestedType(req).None? then Err(MissingOrInvalidType)
    else if RequestedType(req) != Some(Folder) && Blank(req.data) then Err(MissingData)
    else if RequestedParent(req) != ROOT && IndexById(files, RequestedParent(req)).None? then Err(ParentNotFound)
    else if RequestedParent(req) != ROOT && !IsFolderId(files, RequestedParent(req)) then Err(ParentNotFolder)
    else Ok(RequestedType(req).value)
  }

  /** The record first saved for an accepted upload: the given fields, the caller as owner, no path yet. */
  function Draft(userId: UserId, req: UploadRequest, t: FileType): FileRecord
    requires !Blank(req.name)
  {
    FileRecord(userId, req.name.value, t, RequestedParent(req), req.isPublic.GetOr(false), None)
  }

  /** Appending a well-formed document with a fresh id keeps the store valid. */
  lemma AppendValid(files: seq<Entry>, blobs: Blobs, e: Entry)
    requires ValidStore(files, blobs)
    requires IndexById(files, e.id).None?
    requires WellFormed(files, blobs, e)
    ensures ValidStore(files + [e], blobs)
  {
    var files' := files + [e];
    forall i | 0 <= i < |files'| ensures WellFormed(files', blobs, files'[i]) {
      var x := files'[i];
      assert WellFormed(files, blobs, x);
      if x.record.parentId != ROOT {
        IndexByIdAppend(files, e, x.record.parentId);
      }
    }
  }

  /**
   * Replacing a document by one with the same id, owner, type and parent,
   * whose path (if any) exists and which is a folder only without a path,
   * keeps the store valid.
   */
  lemma ReplaceValid(files: seq<Entry>, blobs: Blobs, k: nat, e: Entry)
    requires ValidStore(files, blobs)
    requires k < |files|
    requires e.id == files[k].id && e.record.userId == files[k].record.userId
    requires e.record.fileType == files[k].record.fileType && e.record.parentId == files[k].record.parentId
    requires e.record.localPath.Some? ==> e.record.localPath.value != "" && e.record.localPath.value in blobs
    requires e.record.fileType == Folder ==> e.record.localPath.None?
    ensures ValidStore(files[k := e], blobs)
  {
    var files' := files[k := e];
    forall i | 0 <= i < |files'| ensures WellFormed(files', blobs, files'[i]) {
      assert WellFormed(files, blobs, files[i]);
      SameShape(files, files', files'[i].record.parentId, 0);
    }
  }

  /**
   * The upload's second save: once the bytes are stored at a fresh,
   * non-empty path, recording that path in the just-appended document
   * keeps the store valid.
   */
  lemma RecordPathValid(files: seq<Entry>, blobs: Blobs, e: Entry, path: Path, bytes: Bytes)
    requires ValidStore(files + [e], blobs)
    requires e.record.fileType != Folder
    requires path != "" && path !in blobs
    ensures ValidStore(files + [Entry(e.id, e.record.(localPath := Some(path)))], blobs[path := bytes])
  {
    var finished := Entry(e.id, e.record.(localPath := Some(path)));
    BlobsGrow(files + [e], blobs, blobs[path := bytes]);
    ReplaceValid(files + [e], blobs[path := bytes], |files|, finished);
    assert (files + [e])[|files| := finished] == files + [finished];
  }

  /**
   * createFile as a function of its inputs: the outcome and the new
   * collection, blob store and queue. `newId` is the id the store
   * assigns and `fileName` the uuid; `decode` is base64 decoding;
   * `writeFails` says whether the disk write throws.
   */
  function Upload(files: seq<Entry>, blobs: Blobs, queue: seq<Job>, user: Option<UserId>, req: UploadRequest,
                  env: Option<string>, newId: Id, fileName: string, decode: string -> Bytes, writeFails: bool)
    : (Result<Entry>, seq<Entry>, Blobs, seq<Job>)
  {
    if user.None? then (Err(Unauthorized), files, blobs, queue)
    else match CheckUpload(files, req)
      case Err(error) => (Err(error), files, blobs, queue)
      case Ok(t) =>
        var draft := Draft(user.value, req, t);
        if t == Folder then (Ok(Entry(newId, draft)), files + [Entry(newId, draft)], blobs, queue)
        else if writeFails then (Err(ServerError), files + [Entry(newId, draft)], blobs, queue)
        else
          var path := UploadPath(FolderPath(env), fileName);
          var e := Entry(newId, draft.(localPath := Some(path)));
          (Ok(e), files + [e], blobs[path := decode(req.data.value)], queue + [Job(Some(newId), Some(user.value))])
  }

  /**
   * What an upload leaves behind. No user gives Unauthorized and a
   * rejection changes nothing. A folder appends one record without a path.
   * A failed disk write keeps the first save, without a path, and answers
   * ServerError with no blob and no job. Otherwise the record with its
   * path is appended, the decoded bytes are stored at the fresh upload
   * path, no other blob changes, and exactly the one job is enqueued.
   */
  lemma UploadOutcomes(files: seq<Entry>, blobs: Blobs, queue: seq<Job>, user: Option<UserId>, req: UploadRequest,
                       env: Option<string>, newId: Id, fileName: string, decode: string -> Bytes, writeFails: bool)
    ensures var u := Upload(files, blobs, queue, user, req, env, newId, fileName, decode, writeFails);
      && (user.None? ==> u.0 == Err(Unauthorized))
      && (user.Some? && CheckUpload(files, req).Err? ==> u.0 == Err(CheckUpload(files, req).error))
      && (u.0.Err? && u.0.error != ServerError ==> u.1 == files && u.2 == blobs && u.3 == queue)
      && (u.0.Err? ==> u.2 == blobs && u.3 == queue)
      && (u.0 == Err(ServerError) ==> user.Some? && CheckUpload(files, req).Ok? && writeFails)
    ensures user.Some? && CheckUpload(files, req) == Ok(Folder) ==>
      var u := Upload(files, blobs, queue, user, req, env, newId, fileName, decode, writeFails);
      var e := Entry(newId, Draft(user.value, req, Folder));
      u == (Ok(e), files + [e], blobs, queue)
    ensures user.Some? && CheckUpload(files, req).Ok? && CheckUpload(files, req) != Ok(Folder) && writeFails ==>
      var u := Upload(files, blobs, queue, user, req, env, newId, fileName, decode, writeFails);
      u == (Err(ServerError), files + [Entry(newId, Draft(user.value, req, CheckUpload(files, req).value))], blobs, queue)
    ensures user.Some? && CheckUpload(files, req).Ok? && CheckUpload(files, req) != Ok(Folder) && !writeFails ==>
      var u := Upload(files, blobs, queue, user, req, env, newId, fileName, decode, writeFails);
      var path := UploadPath(FolderPath(env), fileName);
      && u.0.Ok? && u.0.value.id == newId && u.0.value.record.localPath == Some(path)
      && u.0.value.record == Draft(user.value, req, CheckUpload(files, req).value).(localPath := Some(path))
      && u.1 == files + [u.0.value]
      && u.2.Keys == blobs.Keys + {path}
      && Lookup(u.2, path) == Some(decode(req.data.value))
      && (forall p :: p != path ==> Lookup(u.2, p) == Lookup(blobs, p))
      && u.3 == queue + [Job(Some(newId), Some(user.value))]
  {
  }

  /**
   * An upload keeps the store valid when the store assigns an unused,
   * non-root id and the uuid names an unused path.
   */
  lemma UploadValid(files: seq<Entry>, blobs: Blobs, queue: seq<Job>, user: Option<UserId>, req: UploadRequest,
                    env: Option<string>, newId: Id, fileName: string, decode: string -> Bytes, writeFails: bool)
    requires ValidStore(files, blobs)
    requires newId != ROOT && IndexById(files, newId).None?
    requires UploadPath(FolderPath(env), fileName) !in blobs
    ensures var u := Upload(files, blobs, queue, user, req, env, newId, fileName, decode, writeFails);
      ValidStore(u.1, u.2)
  {
    if user.Some? && CheckUpload(files, req).Ok? {
      var t := CheckUpload(files, req).value;
      var draft := Draft(user.value, req, t);
      AppendValid(files, blobs, Entry(newId, draft));
      if t != Folder && !writeFails {
        RecordPathValid(files, blobs, Entry(newId, draft), UploadPath(FolderPath(env), fileName), decode(req.data.value));
      }
    }
  }

  /**
   * createFile on the shared store. On the happy path the record is saved
   * with no path, the decoded bytes are written at the fresh upload path,
   * the record's `localPath` is then set to that path, and one job is
   * enqueued for every non-folder upload.
   */
  method CreateFile(s: Store, user: Option<UserId>, req: UploadRequest, env: Option<string>,
                    newId: Id, fileName: string, decode: string -> Bytes, writeFails: bool)
    returns (r: Result<Entry>)
    requires s.Valid()
    requires newId != ROOT && IndexById(s.files, newId).None?
    requires UploadPath(FolderPath(env), fileName) !in s.blobs
    modifies s
    ensures s.Valid()
    ensures (r, s.files, s.blobs, s.queue)
            == Upload(old(s.files), old(s.blobs), old(s.queue), user, req, env, newId, fileName, decode, writeFails)
  {
    UploadValid(s.files, s.blobs, s.queue, user, req, env, newId, fileName, decode, writeFails);
    if user.None? {
      return Err(Unauthorized);
    }
    var check := CheckUpload(s.files, req);
    if check.Err? {
      return Err(check.error);
    }
    var t := check.value;
    var draft := Draft(user.value, req, t);

    // First save: the record exists before any bytes do, with no path.
    s.files := s.files + [Entry(newId, draft)];
    if t == Folder {
      return Ok(Entry(newId, draft));
    }

    if writeFails {
      return Err(ServerError);
    }
    var path := UploadPath(FolderPath(env), fileName);
    var bytes := decode(req.data.value);
    s.blobs := s.blobs[path := bytes];

    // Second save: the path is recorded only once the bytes are stored.
    var finished := Entry(newId, draft.(localPath := Some(path)));
    s.files := s.files[|s.files| - 1 := finished];
    assert s.files == old(s.files) + [finished];

    s.queue := s.queue + [Job(Some(newId), Some(user.value))];
    r := Ok(finished);
  }

  // ------------------------------------------------- owner-scoped reads

  /** getFileById: the caller's own document with that id. */
  function GetFileById(files: seq<Entry>, user: Option<UserId>, id: Id): (r: Result<Entry>)
    ensures r == Err(Unauthorized) <==> user.None?
    ensures r.Ok? ==> r.value in files && IsOwned(r.value, id, user.value)
    ensures r == Err(NotFound) <==> user.Some? && forall e :: e in files ==> !IsOwned(e, id, user.value)
    ensures r.Err? ==> r.error in {Unauthorized, NotFound}
  {
    if user.None? then Err(Unauthorized)
    else match IndexOwned(files, id, user.value)
      case None => Err(NotFound)
      case Some(k) => Ok(files[k])
  }

  const PAGE_SIZE: nat := 20

  /** The page number: `parseInt(page) || 0`, where `None` stands for NaN or an absent query. */
  function PageNumber(page: Option<int>): int {
    page.GetOr(0)
  }

  /**
   * getAllFiles: one page of the caller's documents under `parentId`
   * (default 0, the root). A negative page gives a negative skip, which the
   * store refuses, and the handler answers 500.
   */
  function GetAllFiles(files: seq<Entry>, user: Option<UserId>, parentId: Option<Id>, page: Option<int>)
    : (r: Result<seq<Entry>>)
    ensures r == Err(Unauthorized) <==> user.None?
    ensures r == Err(ServerError) <==> user.Some? && PageNumber(page) < 0
    ensures r.Err? ==> r.error in {Unauthorized, ServerError}
    ensures r.Ok? ==> |r.value| <= PAGE_SIZE
    ensures r.Ok? ==> forall e :: e in r.value ==>
      e in files && e.record.parentId == parentId.GetOr(ROOT) && e.record.userId == user.value
    ensures r.Ok? ==>
      var all := Children(files, parentId.GetOr(ROOT), user.value);
      var skip := PageNumber(page) * PAGE_SIZE;
      && |r.value| == (if skip >= |all| then 0 else if |all| - skip < PAGE_SIZE then |all| - skip else PAGE_SIZE)
      && forall k :: 0 <= k < |r.value| ==> r.value[k] == all[skip + k]
  {
    if user.None? then Err(Unauthorized)
    else
      var skip := PageNumber(page) * PAGE_SIZE;
      if skip < 0 then Err(ServerError)
      else
        var all := Children(files, parentId.GetOr(ROOT), user.value);
        if skip >= |all| then Ok([])
        else if |all| - skip < PAGE_SIZE then Ok(all[skip..])
        else Ok(all[skip..skip + PAGE_SIZE])
  }

  /** Paging loses nothing: the j-th matching document is item j % 20 of page j / 20. */
  lemma PagesCoverChildren(files: seq<Entry>, userId: UserId, parentId: Id, j: nat)
    requires j < |Children(files, parentId, userId)|
    ensures var r := GetAllFiles(files, Some(userId), Some(parentId), Some(j / PAGE_SIZE));
      r.Ok? && j % PAGE_SIZE < |r.value| && r.value[j % PAGE_SIZE] == Children(files, parentId, userId)[j]
  {
    var skip := (j / PAGE_SIZE) * PAGE_SIZE;
    assert skip + j % PAGE_SIZE == j;
  }

  // ------------------------------------------------- publish / unpublish

  /**
   * The collection after `findOneAndUpdate({ _id: id, userId }, { isPublic: flag })`:
   * the matching document, if any, has `isPublic == flag`; nothing else moves.
   */
  function Published(files: seq<Entry>, id: Id, userId: Id, flag: bool): (r: seq<Entry>)
    ensures |r| == |files|
    ensures forall k :: 0 <= k < |files| ==>
      r[k].id == files[k].id && r[k].record == files[k].record.(isPublic := r[k].record.isPublic)
    ensures IndexOwned(files, id, userId).None? ==> r == files
    ensures IndexOwned(files, id, userId).Some? ==>
      var k := IndexOwned(files, id, userId).value;
      r[k].record.isPublic == flag && forall j :: 0 <= j < |files| && j != k ==> r[j] == files[j]
  {
    match IndexOwned(files, id, userId)
    case None => files
    case Some(k) => files[k := Entry(files[k].id, files[k].record.(isPublic := flag))]
  }

  /** With unique ids, exactly the document with that id and owner is touched. */
  lemma PublishedTouchesOnlyOwned(files: seq<Entry>, id: Id, userId: Id, flag: bool, k: nat)
    requires UniqueIds(files)
    requires k < |files|
    ensures Published(files, id, userId, flag)[k] ==
      if IsOwned(files[k], id, userId) then Entry(files[k].id, files[k].record.(isPublic := flag)) else files[k]
  {
    if IsOwned(files[k], id, userId) {
      OwnedLookup(files, k);
    }
  }

  /** A second toggle overrides the first: the last flag wins. */
  lemma PublishedOverrides(files: seq<Entry>, id: Id, userId: Id, a: bool, b: bool)
    ensures Published(Published(files, id, userId, a), id, userId, b) == Published(files, id, userId, b)
  {
    var once := Published(files, id, userId, a);
    SameShape(files, once, id, userId);
  }

  /** Publishing (or unpublishing) twice is the same as doing it once. */
  lemma PublishedIdempotent(files: seq<Entry>, id: Id, userId: Id, flag: bool)
    ensures Published(Published(files, id, userId, flag), id, userId, flag) == Published(files, id, userId, flag)
  {
    PublishedOverrides(files, id, userId, flag, flag);
  }

  /** After a toggle, the owner's lookup sees the new flag and every other field unchanged. */
  lemma PublishedThenFound(files: seq<Entry>, id: Id, userId: Id, flag: bool)
    requires IndexOwned(files, id, userId).Some?
    ensures var r := GetFileById(Published(files, id, userId, flag), Some(userId), id);
      r.Ok? && r.value.record == files[IndexOwned(files, id, userId).value].record.(isPublic := flag)
  {
    SameShape(files, Published(files, id, userId, flag), id, userId);
  }

  method SetPublic(s: Store, user: Option<UserId>, id: Id, flag: bool) returns (r: Result<Entry>)
    requires s.Valid()
    modifies s
    ensures s.Valid() && s.blobs == old(s.blobs) && s.queue == old(s.queue)
    ensures user.None? ==> r == Err(Unauthorized) && s.files == old(s.files)
    ensures user.Some? ==> s.files == Published(old(s.files), id, user.value, flag)
    ensures user.Some? && IndexOwned(old(s.files), id, user.value).None? ==> r == Err(NotFound)
    ensures user.Some? && IndexOwned(old(s.files), id, user.value).Some? ==>
      r == Ok(s.files[IndexOwned(old(s.files), id, user.value).value])
  {
    if user.None? {
      return Err(Unauthorized);
    }
    var found := IndexOwned(s.files, id, user.value);
    if found.None? {
      return Err(NotFound);
    }
    var k := found.value;
    var updated := Entry(s.files[k].id, s.files[k].record.(isPublic := flag));
    assert WellFormed(s.files, s.blobs, s.files[k]);
    ReplaceValid(s.files, s.blobs, k, updated);
    s.files := s.files[k := updated];
    r := Ok(updated);
  }

  /** publishFile: sets `isPublic` on the caller's document and returns it updated. */
  method PublishFile(s: Store, user: Option<UserId>, id: Id) returns (r: Result<Entry>)
    requires s.Valid()
    modifies s
    ensures s.Valid() && s.blobs == old(s.blobs) && s.queue == old(s.queue)
    ensures user.None? ==> r == Err(Unauthorized) && s.files == old(s.files)
    ensures user.Some? ==> s.files == Published(old(s.files), id, user.value, true)
    ensures user.Some? ==> r == GetFileById(s.files, user, id)
  {
    r := SetPublic(s, user, id, true);
    if user.Some? {
      SameShape(old(s.files), s.files, id, user.value);
    }
  }

  /** unpublishFile: clears `isPublic` on the caller's document and returns it updated. */
  method UnpublishFile(s: Store, user: Option<UserId>, id: Id) returns (r: Result<Entry>)
    requires s.Valid()
    modifies s
    ensures s.Valid() && s.blobs == old(s.blobs) && s.queue == old(s.queue)
    ensures user.None? ==> r == Err(Unauthorized) && s.files == old(s.files)
    ensures user.Some? ==> s.files == Published(old(s.files), id, user.value, false)
    ensures user.Some? ==> r == GetFileById(s.files, user, id)
  {
    r := SetPublic(s, user, id, false);
    if user.Some? {
      SameShape(old(s.files), s.files, id, user.value);
    }
  }

  // ------------------------------------------------------ content retrieval

  const DEFAULT_SIZE: nat := 500

  const OCTET_STREAM: string := "application/octet-stream"

  datatype Served = Served(path: Path, contentType: string)

  /** Whether the requester may see the record: it is public, or the requester owns it. */
  predicate Visible(rec: FileRecord, requester: Option<Id>) {
    rec.isPublic || (requester.Some? && requester.value == rec.userId)
  }

  /**
   * The size suffix: `req.query.size || 500`, passed through parseInt and
   * rendered by the template literal. `render` stands for that rendering
   * of a non-empty query value.
   */
  function SizeSuffix(size: Option<string>, render: string -> string): (s: string)
    ensures Blank(size) ==> s == NatToString(DEFAULT_SIZE)
  {
    if Blank(size) then NatToString(DEFAULT_SIZE) else render(size.value)
  }

  /** `mime.lookup(path) || 'application/octet-stream'`. */
  function ContentType(p: Path, lookup: Path -> Option<string>): (ct: string)
    ensures !Blank(lookup(p)) ==> ct == lookup(p).value
    ensures Blank(lookup(p)) ==> ct == OCTET_STREAM
  {
    if Blank(lookup(p)) then OCTET_STREAM else lookup(p).value
  }

  /**
   * getFileData. The checks run in the source's order: existence,
   * visibility, folder, recorded path. Then the sized variant is served if
   * it exists, and the original otherwise.
   */
  function GetFileData(files: seq<Entry>, blobs: Blobs, id: Id, requester: Option<Id>,
                       size: Option<string>, render: string -> string, lookup: Path -> Option<string>)
    : (r: Result<Served>)
    ensures IndexById(files, id).None? ==> r == Err(NotFound)
    ensures IndexById(files, id).Some? ==>
      var rec := files[IndexById(files, id).value].record;
      && (!Visible(rec, requester) ==> r == Err(NotFound))
      && (r == Err(NoContent) <==> Visible(rec, requester) && rec.fileType == Folder)
      && (r.Ok? <==> Visible(rec, requester) && rec.fileType != Folder && !Blank(rec.localPath))
      && (r.Ok? ==>
            var variant := SizedPath(rec.localPath.value, SizeSuffix(size, render));
            && r.value.path == (if variant in blobs then variant else rec.localPath.value)
            && r.value.contentType == ContentType(r.value.path, lookup))
    ensures r.Err? ==> r.error in {NotFound, NoContent}
  {
    match IndexById(files, id)
    case None => Err(NotFound)
    case Some(k) =>
      var rec := files[k].record;
      if !Visible(rec, requester) then Err(NotFound)
      else if rec.fileType == Folder then Err(NoContent)
      else if Blank(rec.localPath) then Err(NotFound)
      else
        var variant := SizedPath(rec.localPath.value, SizeSuffix(size, render));
        var path := if variant in blobs then variant else rec.localPath.value;
        Ok(Served(path, ContentType(path, lookup)))
  }

  /**
   * A private document asked for by anyone but its owner is answered
   * exactly as an id that does not exist, whatever its type.
   */
  lemma HiddenLooksAbsent(files: seq<Entry>, blobs: Blobs, k: nat, absent: Id, requester: Option<Id>,
                          size: Option<string>, render: string -> string, lookup: Path -> Option<string>)
    requires UniqueIds(files)
    requires k < |files| && IndexById(files, absent).None?
    requires !files[k].record.isPublic
    requires requester.None? || requester.value != files[k].record.userId
    ensures GetFileData(files, blobs, files[k].id, requester, size, render, lookup)
         == GetFileData(files, blobs, absent, requester, size, render, lookup)
         == Err(NotFound)
  {
    OwnedLookup(files, k);
  }

  /** A visible folder is refused as having no content, never answered not-found. */
  lemma FolderHasNoContent(files: seq<Entry>, blobs: Blobs, k: nat, requester: Option<Id>,
                           size: Option<string>, render: string -> string, lookup: Path -> Option<string>)
    requires UniqueIds(files)
    requires k < |files| && files[k].record.fileType == Folder
    requires Visible(files[k].record, requester)
    ensures GetFileData(files, blobs, files[k].id, requester, size, render, lookup) == Err(NoContent)
  {
    OwnedLookup(files, k);
  }

  /**
   * In a valid store, a visible stored file is always served, never an
   * error, and what is served exists: the requested variant if it is
   * there, the original otherwise.
   */
  lemma StoredFileIsServed(files: seq<Entry>, blobs: Blobs, k: nat, requester: Option<Id>,
                           size: Option<string>, render: string -> string, lookup: Path -> Option<string>)
    requires ValidStore(files, blobs)
    requires k < |files| && files[k].record.localPath.Some?
    requires Visible(files[k].record, requester)
    ensures var r := GetFileData(files, blobs, files[k].id, requester, size, render, lookup);
      var original := files[k].record.localPath.value;
      var variant := SizedPath(original, SizeSuffix(size, render));
      && r.Ok?
      && r.value.path in blobs
      && (variant !in blobs ==> r.value.path == original)
      && (variant in blobs ==> r.value.path == variant)
  {
    OwnedLookup(files, k);
    assert WellFormed(files, blobs, files[k]);
  }
}

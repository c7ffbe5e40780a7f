/**
 * The metadata store (the `files` collection), the job queue, and the
 * shared state both the request handlers and the thumbnail worker act on.
 *
 * The collection is a sequence in natural (insertion) order, because the
 * listing handler pages through it with skip/limit; each document carries
 * its store-generated id.
 */
module Metadata {
  import opened Wrappers
  import opened BlobStore

  /** Record and user identifiers. No record has id 0: as a `parentId`, 0 means the root. */
  type Id = nat

  /**
   * The owner of a record: the `_id` of an authenticated user document,
   * which, unlike a bare payload value, is never falsy.
   */
  type UserId = n: nat | n != 0 witness 1

  const ROOT: Id := 0

  datatype FileType = Folder | File | Image

  /** The accepted spellings of a file type: exactly "folder", "file" and "image". */
  function ParseType(t: string): (r: Option<FileType>)
    ensures r == Some(Folder) <==> t == "folder"
    ensures r == Some(File) <==> t == "file"
    ensures r == Some(Image) <==> t == "image"
  {
    if t == "folder" then Some(Folder)
    else if t == "file" then Some(File)
    else if t == "image" then Some(Image)
    else None
  }

  /** A stored file document, without its id. */
  datatype FileRecord = FileRecord(
    userId: UserId,
    name: string,
    fileType: FileType,
    parentId: Id,
    isPublic: bool,
    localPath: Option<Path>)

  /** A document as the store returns it: its id and its fields. */
  datatype Entry = Entry(id: Id, record: FileRecord)

  /** A thumbnail job's payload; either field may be absent in a job someone else enqueued. */
  datatype Job = Job(fileId: Option<Id>, userId: Option<Id>)

  /** JavaScript truthiness of a payload id: an absent id and the number 0 are both falsy. */
  predicate Present(id: Option<Id>) {
    id.Some? && id.value != 0
  }

  /** The owner-scoped filter `{ _id: id, userId: userId }`. */
  predicate IsOwned(e: Entry, id: Id, userId: Id) {
    e.id == id && e.record.userId == userId
  }

  /** `findById`: the position of the first document with the given id. */
  function IndexById(files: seq<Entry>, id: Id): (r: Option<nat>)
    ensures r.Some? ==> r.value < |files| && files[r.value].id == id
    ensures r.Some? ==> forall j :: 0 <= j < r.value ==> files[j].id != id
    ensures r.None? ==> forall j :: 0 <= j < |files| ==> files[j].id != id
  {
    if files == [] then None
    else if files[0].id == id then Some(0)
    else match IndexById(files[1..], id)
      case None => None
      case Some(k) => Some(k + 1)
  }

  /** `findOne({ _id: id, userId })`: the position of the first document matching both. */
  function IndexOwned(files: seq<Entry>, id: Id, userId: Id): (r: Option<nat>)
    ensures r.Some? ==> r.value < |files| && IsOwned(files[r.value], id, userId)
    ensures r.Some? ==> forall j :: 0 <= j < r.value ==> !IsOwned(files[j], id, userId)
    ensures r.None? ==> forall j :: 0 <= j < |files| ==> !IsOwned(files[j], id, userId)
  {
    if files == [] then None
    else if IsOwned(files[0], id, userId) then Some(0)
    else match IndexOwned(files[1..], id, userId)
      case None => None
      case Some(k) => Some(k + 1)
  }

  /** `find({ parentId, userId })`: the matching documents, in store order. */
  function Children(files: seq<Entry>, parentId: Id, userId: Id): (r: seq<Entry>)
    ensures |r| <= |files|
    ensures forall e :: e in r <==> e in files && e.record.parentId == parentId && e.record.userId == userId
  {
    if files == [] then []
    else
      var rest := Children(files[1..], parentId, userId);
      assert forall e :: e in files <==> e == files[0] || e in files[1..];
      if files[0].record.parentId == parentId && files[0].record.userId == userId
      then [files[0]] + rest
      else rest
  }

  /** True when `id` names a stored folder. */
  predicate IsFolderId(files: seq<Entry>, id: Id) {
    match IndexById(files, id)
    case Some(k) => files[k].record.fileType == Folder
    case None => false
  }

  ghost predicate UniqueIds(files: seq<Entry>) {
    forall i, j :: 0 <= i < j < |files| ==> files[i].id != files[j].id
  }

  /**
   * What every stored document satisfies: it is not the root sentinel, a
   * path it records is non-empty and exists in the blob store, a folder
   * records no path,
   * and a non-root parent is a stored folder.
   */
  ghost predicate WellFormed(files: seq<Entry>, blobs: Blobs, e: Entry) {
    && e.id != ROOT
    && (e.record.localPath.Some? ==> e.record.localPath.value != "" && e.record.localPath.value in blobs)
    && (e.record.fileType == Folder ==> e.record.localPath.None?)
    && (e.record.parentId != ROOT ==> IsFolderId(files, e.record.parentId))
  }

  ghost predicate ValidStore(files: seq<Entry>, blobs: Blobs) {
    && UniqueIds(files)
    && forall i :: 0 <= i < |files| ==> WellFormed(files, blobs, files[i])
  }

  /** Appending a document does not change where an existing id is found. */
  lemma IndexByIdAppend(files: seq<Entry>, e: Entry, id: Id)
    requires IndexById(files, id).Some?
    ensures IndexById(files + [e], id) == IndexById(files, id)
  {
    var k := IndexById(files, id).value;
    assert (files + [e])[k] == files[k];
  }

  /**
   * Two stores whose documents agree, position by position, on id, owner
   * and type give the same answers to every lookup the handlers make.
   */
  lemma SameShape(f1: seq<Entry>, f2: seq<Entry>, id: Id, userId: Id)
    requires |f1| == |f2|
    requires forall k :: 0 <= k < |f1| ==> f1[k].id == f2[k].id
    requires forall k :: 0 <= k < |f1| ==> f1[k].record.userId == f2[k].record.userId
    requires forall k :: 0 <= k < |f1| ==> f1[k].record.fileType == f2[k].record.fileType
    ensures IndexById(f1, id) == IndexById(f2, id)
    ensures IndexOwned(f1, id, userId) == IndexOwned(f2, id, userId)
    ensures IsFolderId(f1, id) == IsFolderId(f2, id)
  {
    var a, b := IndexById(f1, id), IndexById(f2, id);
    if a.Some? && b.Some? {
      assert f2[a.value].id == id && f1[b.value].id == id;
    }
    var c, d := IndexOwned(f1, id, userId), IndexOwned(f2, id, userId);
    if c.Some? && d.Some? {
      assert IsOwned(f2[c.value], id, userId) && IsOwned(f1[d.value], id, userId);
    }
  }

  /** Adding blobs never invalidates the store. */
  lemma BlobsGrow(files: seq<Entry>, b1: Blobs, b2: Blobs)
    requires ValidStore(files, b1)
    requires b1.Keys <= b2.Keys
    ensures ValidStore(files, b2)
  {
    forall i | 0 <= i < |files| ensures WellFormed(files, b2, files[i]) {
      assert WellFormed(files, b1, files[i]);
    }
  }

  /** With unique ids, the owner-scoped lookup finds exactly the document with that id and owner. */
  lemma OwnedLookup(files: seq<Entry>, k: nat)
    requires UniqueIds(files)
    requires k < |files|
    ensures IndexOwned(files, files[k].id, files[k].record.userId) == Some(k)
    ensures IndexById(files, files[k].id) == Some(k)
  {
    assert IsOwned(files[k], files[k].id, files[k].record.userId);
  }

  /** An upper bound on the stored ids. */
  function MaxId(files: seq<Entry>): (m: Id)
    ensures forall j :: 0 <= j < |files| ==> files[j].id <= m
  {
    if files == [] then ROOT
    else
      var rest := MaxId(files[1..]);
      assert forall j :: 1 <= j < |files| ==> files[j] == files[1..][j - 1];
      if files[0].id > rest then files[0].id else rest
  }

  /** The store can always issue an id that no document has: generating one is consistent. */
  lemma FreshIdExists(files: seq<Entry>)
    ensures exists id :: id != ROOT && IndexById(files, id).None?
  {
    var id := MaxId(files) + 1;
    assert IndexById(files, id).None?;
  }

  /** The state both the request handlers and the worker share. */
  class Store {
    var files: seq<Entry>
    var blobs: Blobs
    var queue: seq<Job>

    ghost predicate Valid()
      reads this
    {
      ValidStore(files, blobs)
    }

    constructor ()
      ensures Valid()
      ensures files == [] && blobs == map[] && queue == []
    {
      files, blobs, queue := [], map[], [];
    }
  }
}

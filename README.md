# Files manager: upload and thumbnail pipeline, in Dafny

This project models the decision logic of a small file-storage service.
Clients upload files, images or folders. The service writes a file's bytes
to local disk and keeps a metadata document per file. For every uploaded
non-folder it puts a job on a queue. A background worker then writes
500, 250 and 100 pixel thumbnails next to the original. A retrieval
endpoint serves either the requested thumbnail or the original.

The model works over three abstract in-memory stores, held by one shared
`Metadata.Store` object:

- `files`: the metadata collection, a sequence of `Entry(id, record)` in
  natural (insertion) order. It is a sequence rather than a map because
  listing pages through it with skip/limit. Record ids are unique and never
  0, since 0 is the "root" parent.
- `blobs`: the blob store, a map from path to bytes. A path exists exactly
  when it is a key.
- `queue`: the job queue, a sequence of `Job(fileId, userId)`.

The modules follow the program:

- `BlobStore` holds bytes, paths, the upload directory and the decimal
  rendering used in thumbnail paths.
- `Metadata` holds the document type, the store lookups and the store
  invariant `ValidStore`.
- `FilesController` holds the request handlers of
  `controllers/FilesController.js`.
- `Worker` holds the queue handler of `worker.js`.
- `Pipeline` holds lemmas that connect the two.

The handlers that change state (`CreateFile`, `PublishFile`,
`UnpublishFile`, `ProcessJob`) are methods on the store. Each one keeps
`ValidStore` and states its whole new state. `ValidStore` says:

- ids are unique and non-zero;
- every recorded `localPath` is non-empty and exists in the blob store;
- folders record no path;
- a non-root parent is a stored folder.

The handlers that only read (`GetFileById`, `GetAllFiles`, `GetFileData`)
are functions of the store's contents. The worker's loop is proved against
the function `Worker.HandleJob`, and the worker's properties are lemmas
about that function.

Library calls become parameters:

- base64 decoding is `decode`;
- the uuid and the store-assigned id are `fileName` and `newId`; the caller
  must pass a fresh one of each, and `FreshNameExists` / `FreshIdExists`
  show that fresh values always exist;
- the image-thumbnail library is `gen: (Bytes, nat) -> Option<Bytes>`,
  where `None` is a failure;
- `mime.lookup` is `lookup`;
- the rendering of `parseInt(size)` in a path is `render`;
- `parseInt(page)` is given already parsed, as `Option<int>`, where `None`
  is NaN or an absent query;
- disk-write failures are `writeFails` for the upload and `failedWrites`,
  a set of sizes, for the worker.

In four places the code does something a reader of the service's
description might not expect, and the model follows the code:

- an upload enqueues a job for every non-folder type, `file` as well as
  `image`;
- the job's owner field is `userId`;
- retrieval serves exactly `${localPath}_${size}` or the original, not a
  "nearest" size;
- the enqueue is not awaited and nothing handles its failure.

The worker looks the document up by id and owner together, so a job that
names the wrong owner fails with `FileNotFound`. Its payload checks are
JavaScript truthiness (`Metadata.Present`): an absent id and the number 0
are both missing. A job's ids are plain values, so either may be 0. A
record's owner is a `UserId`, the `_id` of an authenticated user, which is
never 0. A stored record's id is never 0 either, by `ValidStore`.

Neither source file requires `fs`, although both call it. As written:

- every non-folder upload throws right after saving its record, so the
  record keeps `localPath: null` and the client gets 500;
- a content request that passes the existence, visibility, folder and
  path checks throws at `fs.existsSync` and answers 500. Since no upload
  records a path, every uploaded file in fact answers 404 at the
  null-path check (`controllers/FilesController.js:167-169`);
- every thumbnail write fails inside the promise chain and is only logged.

The model gives the intended blob-store behaviour instead. The failing
upload is still covered: with `writeFails` set, `CreateFile` leaves exactly
that state. The failing worker writes are covered by `failedWrites` holding
every size.

A negative `page` makes the skip negative. The model assumes the document
store refuses a negative skip, so the handler catches the error and answers
500 (`ServerError`).

## Model

| member | source | states |
|---|---|---|
| `BlobStore.FolderPath` | controllers/FilesController.js:54 | the upload directory is `FOLDER_PATH` when set and non-empty, otherwise `/tmp/files_manager` |
| `BlobStore.NatToString` | worker.js:25 | the rendering of a size in a path is a non-empty string of decimal digits with no leading zero, one character long exactly for sizes below 10 |
| `BlobStore.NatToStringInjective` | worker.js:23-25 | different sizes render as different strings |
| `BlobStore.ThumbPathInjective` | worker.js:23-25 | thumbnails of different sizes of one original have different paths |
| `BlobStore.SizedPathIsNotOriginal` | worker.js:25-27 | a `${localPath}_${size}` path is never the original's path |
| `BlobStore.FreshNameExists` | controllers/FilesController.js:55-56 | whatever is stored, some file name gives an upload path that is not taken, so a fresh uuid path always exists |
| `Metadata.ParseType` | controllers/FilesController.js:22 | exactly the strings "folder", "file" and "image" are accepted, each as its own type |
| `Metadata.IndexById` | controllers/FilesController.js:154 | `findById` finds the first document with the id, or reports that none has it |
| `Metadata.IndexOwned` | worker.js:18 | `findOne({_id, userId})` finds the first document matching both id and owner, or reports that none does |
| `Metadata.Children` | controllers/FilesController.js:106 | the listing filter contains exactly the stored documents with the given parent and owner |
| `Metadata.OwnedLookup` | controllers/FilesController.js:82 | with unique ids, looking up a document by its id and owner (or by its id alone) finds exactly that document |
| `Metadata.FreshIdExists` | controllers/FilesController.js:40-48 | the store can always assign a non-zero id that no document has |
| `FilesController.CheckUpload` | controllers/FilesController.js:16-38 | validation runs in order: missing name, then missing or invalid type, then missing data for a non-folder, then a missing or non-folder parent when `parentId` (default 0) is not 0; otherwise it accepts with the requested type |
| `FilesController.UploadOutcomes` | controllers/FilesController.js:9-73 | no user gives Unauthorized. A rejection changes nothing. A folder appends one record with `localPath` None and writes no blob or job. A non-folder: (a) appends the record; (b) writes the decoded bytes at `FOLDER_PATH/<uuid>` and changes no other blob; (c) records that path; (d) appends exactly `Job(id, user)`. ServerError happens only for a failed disk write, which keeps the record without a path and writes no blob and no job |
| `FilesController.UploadValid` | controllers/FilesController.js:40-66 | with an unused non-root id and an unused upload path, every outcome of an upload keeps `ValidStore` |
| `FilesController.RecordPathValid` | controllers/FilesController.js:57-61 | the second save, recording the path once the bytes are stored there, keeps `ValidStore` |
| `FilesController.CreateFile` | controllers/FilesController.js:9-73 | createFile on the shared store: the saves, the write and the enqueue leave the outcome, collection, blob store and queue that `Upload` gives, and keep `ValidStore` |
| `FilesController.GetFileById` | controllers/FilesController.js:75-92 | no user gives Unauthorized. Otherwise the result is a stored document with that id owned by the caller, and NotFound exactly when the caller owns none |
| `FilesController.GetAllFiles` | controllers/FilesController.js:94-112 | no user gives Unauthorized; a negative page gives ServerError; otherwise at most 20 of the caller's documents under `parentId` (default 0), namely the matching ones from position `page*20` on |
| `FilesController.PagesCoverChildren` | controllers/FilesController.js:101-106 | paging loses nothing: the j-th matching document is item `j % 20` of page `j / 20` |
| `FilesController.Published` | controllers/FilesController.js:121 | a toggle sets `isPublic` only, and only on the document matching id and owner; every other field and document is unchanged, and with no match nothing changes |
| `FilesController.PublishedTouchesOnlyOwned` | controllers/FilesController.js:140 | with unique ids, the document touched is exactly the one with that id and owner |
| `FilesController.PublishedOverrides` | controllers/FilesController.js:121-145 | after two toggles of one document, the last flag wins |
| `FilesController.PublishedIdempotent` | controllers/FilesController.js:121-126 | publishing (or unpublishing) twice equals doing it once |
| `FilesController.PublishedThenFound` | controllers/FilesController.js:121-126 | after a toggle, the owner's lookup returns the document with the new flag and all other fields as before |
| `FilesController.SetPublic` | controllers/FilesController.js:121-126 | the shared publish/unpublish step: no user gives Unauthorized, no match gives NotFound with nothing changed, and a match gives the updated document; only `files` changes, as `Published` says |
| `FilesController.PublishFile` | controllers/FilesController.js:114-131 | sets `isPublic` to true on the caller's document and returns what the owner's lookup now returns; blobs and queue are unchanged |
| `FilesController.UnpublishFile` | controllers/FilesController.js:133-150 | sets `isPublic` to false on the caller's document and returns what the owner's lookup now returns; blobs and queue are unchanged |
| `FilesController.SizeSuffix` | controllers/FilesController.js:171-172 | an absent or empty size query means size 500 |
| `FilesController.ContentType` | controllers/FilesController.js:179 | the content type is the mime lookup of the served path, or `application/octet-stream` when the lookup finds nothing |
| `FilesController.GetFileData` | controllers/FilesController.js:152-186 | checks run in order: a missing id or a record the requester may not see gives NotFound; a visible folder gives NoContent; a visible record without a path gives NotFound. Otherwise it serves `${localPath}_${size}` if that exists and `localPath` if not, with that path's content type |
| `FilesController.HiddenLooksAbsent` | controllers/FilesController.js:154-161 | a private document, asked for by anyone but its owner, gets the same answer as an id that does not exist, even when it is a folder |
| `FilesController.FolderHasNoContent` | controllers/FilesController.js:163-165 | a visible folder is refused as having no content, never as not found |
| `FilesController.StoredFileIsServed` | controllers/FilesController.js:167-181 | in a valid store, a visible document with a path is always served. The served path exists: it is the requested variant when that exists, otherwise the original |
| `Worker.Attempt` | worker.js:26-28 | a size yields a thumbnail exactly when there is a readable original, the library produces bytes for that size, and the write succeeds |
| `Worker.ThumbsSpec` | worker.js:23-29 | the loop writes a thumbnail at `${localPath}_${size}` for exactly the sizes whose attempt succeeds, holding that attempt's bytes, and writes nothing else |
| `Worker.ThumbWrittenIff` | worker.js:24-28 | a size's thumbnail path is written if and only if its attempt succeeds |
| `Worker.SourceUnchanged` | worker.js:26 | no write in the loop touches the original, so every size is generated from the same original bytes |
| `Worker.HandleJob` | worker.js:7-30 | a falsy `fileId` (absent or 0) fails first, with MissingFileId, and a falsy `userId` second, with MissingUserId. No document with that id and owner fails with FileNotFound. A failure writes nothing. Otherwise the job completes with one flag per size |
| `Worker.ProcessJob` | worker.js:7-30 | the handler run on the shared store, with the same payload checks, gives the outcome and blobs `HandleJob` describes, changes neither documents nor queue, and keeps `ValidStore` |
| `Worker.GenerateThumbnails` | worker.js:23-29 | the loop over 500, 250, 100 leaves the blobs plus exactly the written thumbnails, and logs for each size whether it was written |
| `Worker.ThumbnailTargets` | worker.js:23-25 | the only write targets are `${localPath}_500`, `${localPath}_250` and `${localPath}_100` |
| `Worker.OnlyDerivedPathsChange` | worker.js:24-27 | a job removes no blob, and every path other than the found document's three derived paths keeps its bytes |
| `Worker.OriginalUntouched` | worker.js:25-27 | the found document's original path is not among the paths a job may change |
| `Worker.CompletesOnceFound` | worker.js:26-29 | once the document is found, the job completes whatever fails. A size is flagged written exactly when its attempt succeeded, and its path then holds the thumbnail. A failed size leaves its path as it was |
| `Worker.HandleJobIdempotent` | worker.js:23-29 | running a job a second time gives the same outcome and the same blobs as running it once |
| `Worker.RerunChangesSamePaths` | worker.js:23-29 | a redelivered job, whatever fails on either run, changes only the same derived paths and loses no blob |
| `Worker.RedeliveryCompletes` | worker.js:23-29 | if the library can produce every size and a rerun's writes all succeed, all three thumbnails exist after the rerun, whatever the first run managed |
| `Pipeline.DefaultSizeIsFirstThumbnail` | controllers/FilesController.js:171-174 | retrieval's default size, 500, names the worker's first thumbnail path |
| `Pipeline.UploadJobCompletes` | controllers/FilesController.js:63-66 | in a valid store, the job an upload enqueues, `{fileId, userId}` of the stored document, passes the worker's falsy-id checks and finds that document |
| `Pipeline.ThumbnailServedAfterJob` | controllers/FilesController.js:171-181 | once the worker has produced the 500-pixel thumbnail, the owner's default content request serves it |
| `Pipeline.OriginalServedWhenThumbnailFails` | controllers/FilesController.js:174-177 | when the 500-pixel thumbnail could not be produced and did not exist before, the default request still succeeds and serves the unchanged original |

## Left out

- HTTP: status codes, JSON bodies, Express routing and `res.sendFile` streaming. An outcome is an `Error` value or the served path with its content type.
- Authentication: `User.findById` is a given `Option<UserId>`, the found user's `_id`. `UserId` excludes 0 because an ObjectId is never falsy. A request with no `req.user` at all would throw in the handlers that read `req.user.id` and answer 500; it is modelled as an absent user.
- Metadata-store failures: a failing `save`, `findOne`, `find` or `findOneAndUpdate`, or an id that cannot be cast to an ObjectId, would make the handler answer 500. Only the blob write failure of an upload and a negative skip are modelled.
- The job queue's internals: Bull's retry, backoff, redelivery and concurrent workers. The queue is a sequence. The worker is one call of the handler on one job, and redelivery is a second call (`HandleJobIdempotent`, `RerunChangesSamePaths`, `RedeliveryCompletes`).
- A failing `fileQueue.add`: the enqueue always appends, because the source neither awaits it nor handles its failure.
- `console.error` logging: it is represented by the per-size `written` flags of a completed job.
- Library calls, which become parameters: image resizing, base64 decoding, `uuidv4`, the store's id generation, `mime.lookup` and `parseInt`. Number-to-text rendering of a parsed size query (including NaN and exponent forms) is the `render` parameter.
- `utils/redis.js`, `utils/db.js` and `server.js`: client bootstrap and server setup, with no logic of the pipeline's own.
- `FilesController.CreateFile`: requires the caller to supply a fresh id and a fresh uuid, standing for the store's and `uuidv4`'s guarantees. `Metadata.FreshIdExists` and `BlobStore.FreshNameExists` show that such values always exist.
- `Metadata.Children`: its contract states which documents are listed, not that they keep the collection's order; the definition keeps it, but no lemma states it.
- JSON field types of an upload request: each field is modelled as absent or as a value of its intended type. A JSON `null` `parentId` escapes the default of 0 and would be looked up and answer "Parent not found", and a `null` or non-boolean `isPublic` would be stored as given; neither input is representable here.
- Concurrency between request handlers and the worker: each handler runs to completion on the shared store.

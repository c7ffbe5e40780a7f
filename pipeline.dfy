/**
 * How the upload handler, the job queue, the worker and content retrieval
 * fit together: the job an upload enqueues finds its document, and what
 * the worker writes is what retrieval serves by default.
 */
module Pipeline {
  import opened Wrappers
  import opened BlobStore
  import opened Metadata
  import opened FilesController
  import opened Worker

  /** The job an upload enqueues for a stored document. */
  function UploadJob(e: Entry): Job {
    Job(Some(e.id), Some(e.record.userId))
  }

  /** Retrieval's default size names the worker's first (largest) thumbnail. */
  lemma DefaultSizeIsFirstThumbnail(original: Path, render: string -> string)
    ensures THUMBNAIL_SIZES[0] == DEFAULT_SIZE
    ensures SizedPath(original, SizeSuffix(None, render)) == ThumbPath(original, THUMBNAIL_SIZES[0])
  {
  }

  /**
   * The job enqueued for a stored document passes the worker's payload
   * checks (a stored id is never the root's 0, an owner never falsy) and
   * finds that very document, so the job completes.
   */
  lemma UploadJobCompletes(files: seq<Entry>, blobs: Blobs, k: nat, gen: Generator, failedWrites: set<nat>)
    requires ValidStore(files, blobs)
    requires k < |files|
    ensures var job := UploadJob(files[k]);
      && MayChange(files, job) == DerivedPaths(Target(files[k].record.localPath), THUMBNAIL_SIZES)
      && HandleJob(files, blobs, job, gen, failedWrites).0.Completed?
  {
    assert WellFormed(files, blobs, files[k]);
    OwnedLookup(files, k);
  }

  /**
   * After the worker produced the 500-pixel thumbnail of a stored file,
   * its owner's default content request serves that thumbnail.
   */
  lemma ThumbnailServedAfterJob(files: seq<Entry>, blobs: Blobs, k: nat, gen: Generator, failedWrites: set<nat>,
                                render: string -> string, lookup: Path -> Option<string>)
    requires ValidStore(files, blobs)
    requires k < |files| && files[k].record.localPath.Some?
    requires var localPath := files[k].record.localPath;
      Attempt(Source(blobs, localPath), DEFAULT_SIZE, gen, failedWrites).Some?
    ensures var after := HandleJob(files, blobs, UploadJob(files[k]), gen, failedWrites).1;
      var thumb := ThumbPath(files[k].record.localPath.value, DEFAULT_SIZE);
      GetFileData(files, after, files[k].id, Some(files[k].record.userId), None, render, lookup)
        == Ok(Served(thumb, ContentType(thumb, lookup)))
  {
    var localPath := files[k].record.localPath;
    OwnedLookup(files, k);
    assert WellFormed(files, blobs, files[k]);
    ThumbsSpec(Source(blobs, localPath), Target(localPath), THUMBNAIL_SIZES, gen, failedWrites);
    assert DEFAULT_SIZE in THUMBNAIL_SIZES;
  }

  /**
   * When the worker could not produce the 500-pixel thumbnail and none was
   * there before, the default content request still succeeds and serves
   * the original, which the job left as it was.
   */
  lemma OriginalServedWhenThumbnailFails(files: seq<Entry>, blobs: Blobs, k: nat, gen: Generator,
                                         failedWrites: set<nat>, render: string -> string,
                                         lookup: Path -> Option<string>)
    requires ValidStore(files, blobs)
    requires k < |files| && files[k].record.localPath.Some?
    requires ThumbPath(files[k].record.localPath.value, DEFAULT_SIZE) !in blobs
    requires var localPath := files[k].record.localPath;
      Attempt(Source(blobs, localPath), DEFAULT_SIZE, gen, failedWrites).None?
    ensures var after := HandleJob(files, blobs, UploadJob(files[k]), gen, failedWrites).1;
      var original := files[k].record.localPath.value;
      && Lookup(after, original) == Lookup(blobs, original)
      && GetFileData(files, after, files[k].id, Some(files[k].record.userId), None, render, lookup)
           == Ok(Served(original, ContentType(original, lookup)))
  {
    var localPath := files[k].record.localPath;
    OwnedLookup(files, k);
    assert WellFormed(files, blobs, files[k]);
    UploadJobCompletes(files, blobs, k, gen, failedWrites);
    OriginalUntouched(files, UploadJob(files[k]));
    OnlyDerivedPathsChange(files, blobs, UploadJob(files[k]), gen, failedWrites);
    ThumbWrittenIff(Source(blobs, localPath), Target(localPath), THUMBNAIL_SIZES, gen, failedWrites, DEFAULT_SIZE);
  }
}

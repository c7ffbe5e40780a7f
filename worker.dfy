/**
 * The thumbnail worker: the handler the job queue calls with one job.
 *
 * It checks the payload, looks the document up by id and owner, then
 * tries each thumbnail size in turn; a size whose generation or write
 * fails is logged and skipped, and the job still completes.
 *
 * `gen` stands for the image-thumbnail library: from the original's bytes
 * and a size it either yields the thumbnail's bytes or fails. The sizes
 * whose disk write fails are `failedWrites`. The source's `fs` is never
 * required, so as written every write fails; the model gives the intended
 * behaviour and covers that case with `failedWrites` holding every size.
 */
module Worker {
  import opened Wrappers
  import opened BlobStore
  import opened Metadata

  const THUMBNAIL_SIZES: seq<nat> := [500, 250, 100]

  type Generator = (Bytes, nat) -> Option<Bytes>

  datatype WorkerError = MissingFileId | MissingUserId | FileNotFound

  /** A job either fails (the handler throws) or completes with one written/skipped flag per size. */
  datatype JobResult = Failed(reason: WorkerError) | Completed(written: seq<bool>)

  /** The path the template literal builds from `localPath`; a null path prints as "null". */
  function Target(localPath: Option<Path>): Path {
    if localPath.None? then "null" else localPath.value
  }

  /** What the thumbnail library reads: the original's bytes, absent when there is no readable original. */
  function Source(blobs: Blobs, localPath: Option<Path>): Option<Bytes> {
    if localPath.None? then None else Lookup(blobs, localPath.value)
  }

  /** The thumbnail stored for `size`, or `None` when generating or writing it fails. */
  function Attempt(src: Option<Bytes>, size: nat, gen: Generator, failedWrites: set<nat>): (t: Option<Bytes>)
    ensures t.Some? <==> src.Some? && gen(src.value, size).Some? && size !in failedWrites
    ensures t.Some? ==> t == gen(src.value, size)
  {
    if src.None? then None
    else match gen(src.value, size)
      case None => None
      case Some(bytes) => if size in failedWrites then None else Some(bytes)
  }

  /** The derived paths of `original` for the given sizes. */
  function DerivedPaths(original: Path, sizes: seq<nat>): set<Path> {
    set size | size in sizes :: ThumbPath(original, size)
  }

  /** The derived paths whose attempt succeeds. */
  function Produced(src: Option<Bytes>, original: Path, sizes: seq<nat>, gen: Generator, failedWrites: set<nat>)
    : set<Path>
  {
    set size | size in sizes && Attempt(src, size, gen, failedWrites).Some? :: ThumbPath(original, size)
  }

  /** The thumbnails written by trying `sizes` in order, as a map from path to bytes. */
  function Thumbs(src: Option<Bytes>, original: Path, sizes: seq<nat>, gen: Generator, failedWrites: set<nat>)
    : Blobs
    decreases |sizes|
  {
    if sizes == [] then map[]
    else
      var last := sizes[|sizes| - 1];
      var earlier := Thumbs(src, original, sizes[..|sizes| - 1], gen, failedWrites);
      match Attempt(src, last, gen, failedWrites)
      case None => earlier
      case Some(bytes) => earlier[ThumbPath(original, last) := bytes]
  }

  /**
   * Exactly the sizes whose attempt succeeds get a thumbnail, holding
   * that attempt's bytes; nothing else is written.
   */
  lemma {:induction false} ThumbsSpec(src: Option<Bytes>, original: Path, sizes: seq<nat>, gen: Generator,
                                      failedWrites: set<nat>)
    ensures Thumbs(src, original, sizes, gen, failedWrites).Keys == Produced(src, original, sizes, gen, failedWrites)
    ensures forall size :: size in sizes && Attempt(src, size, gen, failedWrites).Some? ==>
      Thumbs(src, original, sizes, gen, failedWrites)[ThumbPath(original, size)] == Attempt(src, size, gen, failedWrites).value
    decreases |sizes|
  {
    if sizes != [] {
      var last := sizes[|sizes| - 1];
      var front := sizes[..|sizes| - 1];
      ThumbsSpec(src, original, front, gen, failedWrites);
      assert forall size :: size in sizes <==> size == last || size in front;
      ThumbPathsDistinct(original);
    }
  }

  lemma ThumbPathsDistinct(original: Path)
    ensures forall a: nat, b: nat :: ThumbPath(original, a) == ThumbPath(original, b) ==> a == b
  {
    forall a: nat, b: nat | ThumbPath(original, a) == ThumbPath(original, b) ensures a == b {
      ThumbPathInjective(original, a, b);
    }
  }

  /** Trying one more size extends the thumbnails by that size's attempt. */
  lemma ThumbsStep(src: Option<Bytes>, original: Path, sizes: seq<nat>, i: nat, gen: Generator, failedWrites: set<nat>)
    requires i < |sizes|
    ensures Thumbs(src, original, sizes[..i + 1], gen, failedWrites) ==
      match Attempt(src, sizes[i], gen, failedWrites)
      case None => Thumbs(src, original, sizes[..i], gen, failedWrites)
      case Some(bytes) => Thumbs(src, original, sizes[..i], gen, failedWrites)[ThumbPath(original, sizes[i]) := bytes]
  {
    assert sizes[..i + 1][..i] == sizes[..i];
  }

  lemma UpdateAfterUnion(blobs: Blobs, w: Blobs, p: Path, bytes: Bytes)
    ensures (blobs + w)[p := bytes] == blobs + w[p := bytes]
  {
  }

  /** A size's thumbnail is written exactly when its attempt succeeds. */
  lemma ThumbWrittenIff(src: Option<Bytes>, original: Path, sizes: seq<nat>, gen: Generator,
                        failedWrites: set<nat>, size: nat)
    requires size in sizes
    ensures ThumbPath(original, size) in Thumbs(src, original, sizes, gen, failedWrites)
        <==> Attempt(src, size, gen, failedWrites).Some?
  {
    ThumbsSpec(src, original, sizes, gen, failedWrites);
    ThumbPathsDistinct(original);
  }

  /** One flag per size: whether that size's thumbnail was written. */
  function Written(src: Option<Bytes>, sizes: seq<nat>, gen: Generator, failedWrites: set<nat>): (flags: seq<bool>)
    ensures |flags| == |sizes|
    ensures forall i :: 0 <= i < |sizes| ==> flags[i] == Attempt(src, sizes[i], gen, failedWrites).Some?
  {
    seq(|sizes|, i requires 0 <= i < |sizes| => Attempt(src, sizes[i], gen, failedWrites).Some?)
  }

  /** The job's outcome and the blob store after it: the handler as a function of its inputs. */
  function HandleJob(files: seq<Entry>, blobs: Blobs, job: Job, gen: Generator, failedWrites: set<nat>)
    : (r: (JobResult, Blobs))
    ensures !Present(job.fileId) <==> r.0 == Failed(MissingFileId)
    ensures Present(job.fileId) && !Present(job.userId) <==> r.0 == Failed(MissingUserId)
    ensures r.0 == Failed(FileNotFound) <==>
      Present(job.fileId) && Present(job.userId) && IndexOwned(files, job.fileId.value, job.userId.value).None?
    ensures r.0.Failed? ==> r.1 == blobs
    ensures r.0.Completed? ==> |r.0.written| == |THUMBNAIL_SIZES|
  {
    if !Present(job.fileId) then (Failed(MissingFileId), blobs)
    else if !Present(job.userId) then (Failed(MissingUserId), blobs)
    else match IndexOwned(files, job.fileId.value, job.userId.value)
      case None => (Failed(FileNotFound), blobs)
      case Some(k) =>
        var localPath := files[k].record.localPath;
        var src := Source(blobs, localPath);
        (Completed(Written(src, THUMBNAIL_SIZES, gen, failedWrites)), blobs + Thumbs(src, Target(localPath), THUMBNAIL_SIZES, gen, failedWrites))
  }

  /** A thumbnail path is never the original's path, so the original is what every attempt reads. */
  lemma SourceUnchanged(blobs: Blobs, localPath: Option<Path>, w: Blobs, sizes: seq<nat>)
    requires w.Keys <= DerivedPaths(Target(localPath), sizes)
    ensures Source(blobs + w, localPath) == Source(blobs, localPath)
  {
  }

  /**
   * The fileQueue process handler, run on one job against the shared
   * store. It changes nothing but blobs, and the blobs exactly as
   * `HandleJob` says.
   */
  method ProcessJob(s: Store, job: Job, gen: Generator, failedWrites: set<nat>) returns (r: JobResult)
    requires s.Valid()
    modifies s
    ensures s.Valid()
    ensures s.files == old(s.files) && s.queue == old(s.queue)
    ensures (r, s.blobs) == HandleJob(old(s.files), old(s.blobs), job, gen, failedWrites)
  {
    if !Present(job.fileId) {
      return Failed(MissingFileId);
    }
    if !Present(job.userId) {
      return Failed(MissingUserId);
    }
    var found := IndexOwned(s.files, job.fileId.value, job.userId.value);
    if found.None? {
      return Failed(FileNotFound);
    }
    var localPath := s.files[found.value].record.localPath;
    var written := GenerateThumbnails(s, localPath, gen, failedWrites);
    r := Completed(written);
    BlobsGrow(old(s.files), old(s.blobs), s.blobs);
  }

  /**
   * The handler's loop over the sizes: each size's attempt either writes
   * `${localPath}_${size}` or is logged as failed, and the loop goes on.
   */
  method GenerateThumbnails(s: Store, localPath: Option<Path>, gen: Generator, failedWrites: set<nat>)
    returns (written: seq<bool>)
    modifies s
    ensures s.files == old(s.files) && s.queue == old(s.queue)
    ensures var src := Source(old(s.blobs), localPath);
      && s.blobs == old(s.blobs) + Thumbs(src, Target(localPath), THUMBNAIL_SIZES, gen, failedWrites)
      && written == Written(src, THUMBNAIL_SIZES, gen, failedWrites)
  {
    var target := Target(localPath);
    ghost var src := Source(s.blobs, localPath);
    written := [];
    var i := 0;
    while i < |THUMBNAIL_SIZES|
      invariant 0 <= i <= |THUMBNAIL_SIZES|
      invariant s.files == old(s.files) && s.queue == old(s.queue)
      invariant s.blobs == old(s.blobs) + Thumbs(src, target, THUMBNAIL_SIZES[..i], gen, failedWrites)
      invariant |written| == i
      invariant forall j :: 0 <= j < i ==> written[j] == Attempt(src, THUMBNAIL_SIZES[j], gen, failedWrites).Some?
    {
      var size := THUMBNAIL_SIZES[i];
      var path := ThumbPath(target, size);
      ThumbsSpec(src, target, THUMBNAIL_SIZES[..i], gen, failedWrites);
      SourceUnchanged(old(s.blobs), localPath, Thumbs(src, target, THUMBNAIL_SIZES[..i], gen, failedWrites),
                      THUMBNAIL_SIZES[..i]);
      ThumbsStep(src, target, THUMBNAIL_SIZES, i, gen, failedWrites);
      // Each attempt reads the original afresh.
      var input := Source(s.blobs, localPath);
      var thumbnail := if input.None? then None else gen(input.value, size);
      if thumbnail.Some? && size !in failedWrites {
        UpdateAfterUnion(old(s.blobs), Thumbs(src, target, THUMBNAIL_SIZES[..i], gen, failedWrites), path, thumbnail.value);
        s.blobs := s.blobs[path := thumbnail.value];
        written := written + [true];
      } else {
        // generation or write failed: logged, and the next size is tried
        written := written + [false];
      }
      i := i + 1;
    }
    assert THUMBNAIL_SIZES[..i] == THUMBNAIL_SIZES;
  }

  // ------------------------------------------------------------ properties

  /** The decimal renderings of the three sizes. */
  lemma RenderedSizes()
    ensures NatToString(500) == "500" && NatToString(250) == "250" && NatToString(100) == "100"
  {
    assert Digit(0) == '0' && Digit(1) == '1' && Digit(2) == '2' && Digit(5) == '5';
    assert NatToString(5) == "5" && NatToString(2) == "2" && NatToString(1) == "1";
    assert NatToString(50) == "50" && NatToString(25) == "25" && NatToString(10) == "10";
  }

  /** The three write targets are `${localPath}_500`, `${localPath}_250` and `${localPath}_100`. */
  lemma ThumbnailTargets(original: Path)
    ensures DerivedPaths(original, THUMBNAIL_SIZES) == {original + "_500", original + "_250", original + "_100"}
  {
    RenderedSizes();
    assert ThumbPath(original, 500) == original + "_500";
    assert ThumbPath(original, 250) == original + "_250";
    assert ThumbPath(original, 100) == original + "_100";
    assert forall size :: size in THUMBNAIL_SIZES <==> size == 500 || size == 250 || size == 100;
  }

  /** The blob paths a job may change: the found document's derived paths, or none. */
  function MayChange(files: seq<Entry>, job: Job): set<Path> {
    if !Present(job.fileId) || !Present(job.userId) then {}
    else match IndexOwned(files, job.fileId.value, job.userId.value)
      case None => {}
      case Some(k) => DerivedPaths(Target(files[k].record.localPath), THUMBNAIL_SIZES)
  }

  /**
   * A job adds or overwrites only the found document's derived paths:
   * every other blob, the original among them, keeps its bytes, and no
   * blob disappears.
   */
  lemma OnlyDerivedPathsChange(files: seq<Entry>, blobs: Blobs, job: Job, gen: Generator, failedWrites: set<nat>)
    ensures var after := HandleJob(files, blobs, job, gen, failedWrites).1;
      && blobs.Keys <= after.Keys
      && forall p :: p !in MayChange(files, job) ==> Lookup(after, p) == Lookup(blobs, p)
  {
    if Present(job.fileId) && Present(job.userId) && IndexOwned(files, job.fileId.value, job.userId.value).Some? {
      var localPath := files[IndexOwned(files, job.fileId.value, job.userId.value).value].record.localPath;
      ThumbsSpec(Source(blobs, localPath), Target(localPath), THUMBNAIL_SIZES, gen, failedWrites);
    }
  }

  /** The original, when the document records one, is never among the paths a job changes. */
  lemma OriginalUntouched(files: seq<Entry>, job: Job)
    requires Present(job.fileId) && Present(job.userId)
    requires IndexOwned(files, job.fileId.value, job.userId.value).Some?
    requires files[IndexOwned(files, job.fileId.value, job.userId.value).value].record.localPath.Some?
    ensures files[IndexOwned(files, job.fileId.value, job.userId.value).value].record.localPath.value
            !in MayChange(files, job)
  {
  }

  /**
   * Once the document is found the job completes whatever fails; a size
   * is flagged written exactly when its attempt succeeded, its path then
   * holds the thumbnail, and a failed size leaves its path as it was.
   */
  lemma CompletesOnceFound(files: seq<Entry>, blobs: Blobs, job: Job, gen: Generator, failedWrites: set<nat>)
    requires Present(job.fileId) && Present(job.userId)
    requires IndexOwned(files, job.fileId.value, job.userId.value).Some?
    ensures var r := HandleJob(files, blobs, job, gen, failedWrites);
      var localPath := files[IndexOwned(files, job.fileId.value, job.userId.value).value].record.localPath;
      var src := Source(blobs, localPath);
      && r.0.Completed?
      && forall i :: 0 <= i < |THUMBNAIL_SIZES| ==>
           var size := THUMBNAIL_SIZES[i];
           var path := ThumbPath(Target(localPath), size);
           && (r.0.written[i] <==> Attempt(src, size, gen, failedWrites).Some?)
           && (r.0.written[i] ==> Lookup(r.1, path) == Attempt(src, size, gen, failedWrites))
           && (!r.0.written[i] ==> Lookup(r.1, path) == Lookup(blobs, path))
  {
    var localPath := files[IndexOwned(files, job.fileId.value, job.userId.value).value].record.localPath;
    var src := Source(blobs, localPath);
    forall i | 0 <= i < |THUMBNAIL_SIZES|
      ensures var path := ThumbPath(Target(localPath), THUMBNAIL_SIZES[i]);
        Attempt(src, THUMBNAIL_SIZES[i], gen, failedWrites).None? ==> Lookup(HandleJob(files, blobs, job, gen, failedWrites).1, path) == Lookup(blobs, path)
    {
      ThumbWrittenIff(src, Target(localPath), THUMBNAIL_SIZES, gen, failedWrites, THUMBNAIL_SIZES[i]);
    }
    ThumbsSpec(src, Target(localPath), THUMBNAIL_SIZES, gen, failedWrites);
  }

  /** Running the same job twice leaves the same outcome and the same blobs as running it once. */
  lemma HandleJobIdempotent(files: seq<Entry>, blobs: Blobs, job: Job, gen: Generator, failedWrites: set<nat>)
    ensures var once := HandleJob(files, blobs, job, gen, failedWrites);
      HandleJob(files, once.1, job, gen, failedWrites) == once
  {
    var once := HandleJob(files, blobs, job, gen, failedWrites);
    if once.0.Completed? {
      var localPath := files[IndexOwned(files, job.fileId.value, job.userId.value).value].record.localPath;
      var src := Source(blobs, localPath);
      var w := Thumbs(src, Target(localPath), THUMBNAIL_SIZES, gen, failedWrites);
      ThumbsSpec(src, Target(localPath), THUMBNAIL_SIZES, gen, failedWrites);
      SourceUnchanged(blobs, localPath, w, THUMBNAIL_SIZES);
      assert (blobs + w) + w == blobs + w;
    }
  }

  /**
   * A redelivered job, whatever failed on either run, still changes only
   * the same derived paths; and no blob is lost.
   */
  lemma RerunChangesSamePaths(files: seq<Entry>, blobs: Blobs, job: Job, gen: Generator,
                              firstFailures: set<nat>, secondFailures: set<nat>)
    ensures var first := HandleJob(files, blobs, job, gen, firstFailures).1;
      var second := HandleJob(files, first, job, gen, secondFailures).1;
      && blobs.Keys <= first.Keys <= second.Keys
      && forall p :: p !in MayChange(files, job) ==> Lookup(second, p) == Lookup(blobs, p)
  {
    var first := HandleJob(files, blobs, job, gen, firstFailures).1;
    OnlyDerivedPathsChange(files, blobs, job, gen, firstFailures);
    OnlyDerivedPathsChange(files, first, job, gen, secondFailures);
  }

  /**
   * Redelivery repairs a partial run: if the library can produce every
   * size and the second run's writes all succeed, every thumbnail exists
   * afterwards, however many the first run managed.
   */
  lemma RedeliveryCompletes(files: seq<Entry>, blobs: Blobs, job: Job, gen: Generator, firstFailures: set<nat>)
    requires Present(job.fileId) && Present(job.userId)
    requires IndexOwned(files, job.fileId.value, job.userId.value).Some?
    requires var localPath := files[IndexOwned(files, job.fileId.value, job.userId.value).value].record.localPath;
      var src := Source(blobs, localPath);
      src.Some? && forall size :: size in THUMBNAIL_SIZES ==> gen(src.value, size).Some?
    ensures var localPath := files[IndexOwned(files, job.fileId.value, job.userId.value).value].record.localPath;
      var first := HandleJob(files, blobs, job, gen, firstFailures).1;
      var second := HandleJob(files, first, job, gen, {}).1;
      forall size :: size in THUMBNAIL_SIZES ==> ThumbPath(Target(localPath), size) in second
  {
    var localPath := files[IndexOwned(files, job.fileId.value, job.userId.value).value].record.localPath;
    var src := Source(blobs, localPath);
    ThumbsSpec(src, Target(localPath), THUMBNAIL_SIZES, gen, firstFailures);
    SourceUnchanged(blobs, localPath, Thumbs(src, Target(localPath), THUMBNAIL_SIZES, gen, firstFailures), THUMBNAIL_SIZES);
    ThumbsSpec(src, Target(localPath), THUMBNAIL_SIZES, gen, {});
  }
}

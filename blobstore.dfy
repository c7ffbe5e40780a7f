/**
 * The blob store: file bytes on the local disk, addressed by path.
 * A path exists exactly when it is a key of the map.
 */
module BlobStore {
  import opened Wrappers

  newtype byte = b: int | 0 <= b < 256

  type Bytes = seq<byte>

  type Path = string

  type Blobs = map<Path, Bytes>

  /** The bytes stored at `p`, if `p` exists. */
  function Lookup(blobs: Blobs, p: Path): (r: Option<Bytes>)
    ensures r.Some? <==> p in blobs
    ensures r.Some? ==> r.value == blobs[p]
  {
    if p in blobs then Some(blobs[p]) else None
  }

  const DEFAULT_FOLDER_PATH: string := "/tmp/files_manager"

  /**
   * The upload directory: `FOLDER_PATH` when it is set to a non-empty
   * value, otherwise the default directory.
   */
  function FolderPath(env: Option<string>): (r: string)
    ensures env.Some? && env.value != "" ==> r == env.value
    ensures env.None? || env.value == "" ==> r == DEFAULT_FOLDER_PATH
    ensures r != ""
  {
    if env.Some? && env.value != "" then env.value else DEFAULT_FOLDER_PATH
  }

  /** Where an upload named `fileName` (a fresh uuid) is stored inside `dir`. */
  function UploadPath(dir: string, fileName: string): Path {
    dir + "/" + fileName
  }

  /** The path of a variant of `original`, written `${original}_${suffix}`. */
  function SizedPath(original: Path, suffix: string): Path {
    original + "_" + suffix
  }

  function Digit(d: nat): (c: char)
    requires d < 10
    ensures c as int == 48 + d
  {
    (48 + d) as char
  }

  /** The decimal rendering of `n`, as a template literal prints a number. */
  function NatToString(n: nat): (s: string)
    ensures 1 <= |s|
    ensures (|s| == 1) == (n < 10)
    ensures forall i :: 0 <= i < |s| ==> '0' <= s[i] <= '9'
    ensures n > 0 ==> s[0] != '0'
    decreases n
  {
    if n < 10 then [Digit(n)] else NatToString(n / 10) + [Digit(n % 10)]
  }

  /** The path of the `size`-pixel thumbnail of `original`. */
  function ThumbPath(original: Path, size: nat): Path {
    SizedPath(original, NatToString(size))
  }

  /** Different numbers render differently. */
  lemma {:induction false} NatToStringInjective(a: nat, b: nat)
    requires NatToString(a) == NatToString(b)
    ensures a == b
    decreases a
  {
    var sa, sb := NatToString(a), NatToString(b);
    if a < 10 && b < 10 {
      assert Digit(a) == sa[0] == sb[0] == Digit(b);
    } else if a >= 10 && b >= 10 {
      var ha, hb := NatToString(a / 10), NatToString(b / 10);
      assert sa == ha + [Digit(a % 10)] && sb == hb + [Digit(b % 10)];
      assert |ha| == |hb|;
      assert ha == sa[..|ha|] == sb[..|hb|] == hb;
      assert Digit(a % 10) == sa[|ha|] == sb[|hb|] == Digit(b % 10);
      NatToStringInjective(a / 10, b / 10);
    }
  }

  /** A variant path never coincides with its original. */
  lemma SizedPathIsNotOriginal(original: Path, suffix: string)
    ensures SizedPath(original, suffix) != original
  {
    assert |SizedPath(original, suffix)| > |original|;
  }

  /** Variants of one original with different suffixes are different paths. */
  lemma SizedPathInjective(original: Path, s1: string, s2: string)
    requires SizedPath(original, s1) == SizedPath(original, s2)
    ensures s1 == s2
  {
    var n := |original| + 1;
    assert SizedPath(original, s1)[n..] == s1;
    assert SizedPath(original, s2)[n..] == s2;
  }

  /** Thumbnails of different sizes of one original live at different paths. */
  lemma ThumbPathInjective(original: Path, a: nat, b: nat)
    requires ThumbPath(original, a) == ThumbPath(original, b)
    ensures a == b
  {
    SizedPathInjective(original, NatToString(a), NatToString(b));
    NatToStringInjective(a, b);
  }

  /** Some natural number exceeds the length of every path in `used`. */
  lemma {:induction false} LongerThanAll(used: set<Path>) returns (n: nat)
    ensures forall p :: p in used ==> |p| < n
    decreases used
  {
    if used == {} {
      n := 0;
    } else {
      var p :| p in used;
      var m := LongerThanAll(used - {p});
      n := if m > |p| then m else |p| + 1;
    }
  }

  /**
   * Whatever is already stored, a file name exists whose upload path is
   * not taken: the model of uuidv4 producing a fresh name is consistent.
   */
  lemma FreshNameExists(dir: string, blobs: Blobs)
    ensures exists fileName :: UploadPath(dir, fileName) !in blobs
  {
    var n := LongerThanAll(blobs.Keys);
    var fileName := seq(n, _ => 'a');
    assert |UploadPath(dir, fileName)| >= n;
    assert UploadPath(dir, fileName) !in blobs;
  }
}

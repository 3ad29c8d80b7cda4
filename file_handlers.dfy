/** The pure parts of the upload helpers: the public URL of a stored file, the
    callers' way back from a URL to the file name, and the upload filters. */
module FileHandlers {

  const StoragePrefix := "/storage/"

  /** `getFileUrl`. */
  function FileUrl(filename: string): (url: string)
    ensures |url| == |StoragePrefix| + |filename|
    ensures url[..|StoragePrefix|] == StoragePrefix && url[|StoragePrefix|..] == filename
  {
    StoragePrefix + filename
  }

  /** `url.split("/").pop()`: the text after the last '/', or all of it when there is none. */
  function LastSegment(s: string): (seg: string)
    ensures '/' !in seg
    ensures |seg| <= |s| && seg == s[|s| - |seg|..]
    ensures |seg| < |s| ==> s[|s| - |seg| - 1] == '/'
  {
    if s == [] then []
    else if s[|s| - 1] == '/' then []
    else LastSegment(s[..|s| - 1]) + [s[|s| - 1]]
  }

  /** A string without '/' is its own last segment. */
  lemma {:induction false} LastSegmentOfPlain(s: string)
    requires '/' !in s
    ensures LastSegment(s) == s
  {
    if s != [] {
      assert s == s[..|s| - 1] + [s[|s| - 1]];
      LastSegmentOfPlain(s[..|s| - 1]);
    }
  }

  /** Anything after a '/' does not look past it. */
  lemma {:induction false} LastSegmentAfterSlash(prefix: string, s: string)
    requires '/' !in s
    ensures LastSegment(prefix + "/" + s) == s
    decreases |s|
  {
    if s == [] {
      assert (prefix + "/" + s)[|prefix + "/" + s| - 1] == '/';
    } else {
      var n := |s| - 1;
      assert (prefix + "/" + s)[..|prefix + "/" + s| - 1] == prefix + "/" + s[..n];
      assert s == s[..n] + [s[n]];
      LastSegmentAfterSlash(prefix, s[..n]);
    }
  }

  /** The callers recover the stored file name from its URL, for any name without '/'. */
  lemma FileUrlRoundTrip(filename: string)
    requires '/' !in filename
    ensures LastSegment(FileUrl(filename)) == filename
  {
    assert FileUrl(filename) == "/storage" + "/" + filename;
    LastSegmentAfterSlash("/storage", filename);
  }

  /** A name with a '/' does not come back whole: "a/b" comes back as "b". */
  lemma FileUrlLosesDirectories()
    ensures LastSegment(FileUrl("a/b")) == "b"
  {
    assert FileUrl("a/b") == "/storage/a" + "/" + "b";
    LastSegmentAfterSlash("/storage/a", "b");
  }

  /** What a multer filter tells multer: take the file, or fail the upload with a message. */
  datatype Verdict = Accept | Reject(message: string)

  const ImageTypes: set<string> := {"image/png", "image/jpg", "image/jpeg"}

  /** `imageFilter`. */
  function ImageFilter(mimetype: string): (v: Verdict)
    ensures v == Accept <==> mimetype in ImageTypes
    ensures v != Accept ==> v == Reject("Only .png, .jpg and .jpeg format allowed!")
  {
    if mimetype == "image/png" || mimetype == "image/jpg" || mimetype == "image/jpeg" then Accept
    else Reject("Only .png, .jpg and .jpeg format allowed!")
  }

  /** `fileFilter`. */
  function FileFilter(mimetype: string): (v: Verdict)
    ensures v == Accept
  {
    Accept
  }

  /** Whatever the image filter accepts, the file filter accepts too. */
  lemma ImageFilterStricter(mimetype: string)
    ensures ImageFilter(mimetype) == Accept ==> FileFilter(mimetype) == Accept
    ensures ImageFilter("application/pdf").Reject? && FileFilter("application/pdf") == Accept
  {
  }
}

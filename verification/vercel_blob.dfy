/** `generateFilename` (src/lib/vercel-blob.ts:33-38): the blob path an uploaded image is stored under.
    The clock reading (`Date.now()`) and the random suffix are parameters. */
module VercelBlob {
  import opened Common

  /** `name.split('.').pop()`: the text after the last `.`, or the whole name when it has none. */
  function LastSegment(name: string): (r: string)
    ensures |r| <= |name| && r == name[|name| - |r|..]
    ensures '.' !in r
    ensures |r| < |name| ==> name[|name| - |r| - 1] == '.'
    decreases |name|
  {
    if name == [] then []
    else if name[|name| - 1] == '.' then []
    else LastSegment(name[..|name| - 1]) + [name[|name| - 1]]
  }

  /** `originalName?.split('.').pop() || 'jpg'`. */
  function Extension(originalName: Option<string>): (ext: string)
    ensures ext != [] && '.' !in ext
    ensures originalName.None? ==> ext == "jpg"
    ensures originalName.Some? && LastSegment(originalName.value) != [] ==> ext == LastSegment(originalName.value)
    ensures originalName.Some? && LastSegment(originalName.value) == [] ==> ext == "jpg"
  {
    match originalName
    case None => "jpg"
    case Some(name) =>
      var last := LastSegment(name);
      if last == [] then "jpg" else last
  }

  /** The blob path: `generations/<userId>/<timestamp>-<random>.<extension>`. */
  function GenerateFilename(userId: string, originalName: Option<string>, timestamp: nat, random: string): (path: string)
    ensures var dir := "generations/" + userId + "/"; |dir| <= |path| && path[..|dir|] == dir
  {
    "generations/" + userId + "/" + NatToString(timestamp) + "-" + random + "." + Extension(originalName)
  }

  /** A name without any `.` is its own extension. */
  lemma {:induction false} LastSegmentWithoutDot(name: string)
    requires '.' !in name
    ensures LastSegment(name) == name
    decreases |name|
  {
    if name != [] {
      LastSegmentWithoutDot(name[..|name| - 1]);
      assert name[..|name| - 1] + [name[|name| - 1]] == name;
    }
  }

  /** A name ending in `.`, or an empty one, falls back to `jpg`. */
  lemma ExtensionFallback(name: string)
    requires name == [] || name[|name| - 1] == '.'
    ensures Extension(Some(name)) == "jpg"
  {
  }

  /** Whatever comes before the last `.`, the piece after it is what `split('.').pop()` returns. */
  lemma {:induction false} LastSegmentAfterDot(prefix: string, ext: string)
    requires '.' !in ext
    ensures LastSegment(prefix + "." + ext) == ext
    decreases |ext|
  {
    var name := prefix + "." + ext;
    if ext != [] {
      var init := ext[..|ext| - 1];
      assert name[..|name| - 1] == prefix + "." + init;
      LastSegmentAfterDot(prefix, init);
      assert init + [ext[|ext| - 1]] == ext;
    }
  }

  /** The extension of a generated path, read back with the same rule, is the one that was chosen. */
  lemma FilenameExtensionRoundTrip(userId: string, originalName: Option<string>, timestamp: nat, random: string)
    ensures LastSegment(GenerateFilename(userId, originalName, timestamp, random)) == Extension(originalName)
  {
    var ext := Extension(originalName);
    LastSegmentAfterDot("generations/" + userId + "/" + NatToString(timestamp) + "-" + random, ext);
  }
}

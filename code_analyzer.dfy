/** The folder scan: list a directory recursively, keep the regular files whose extension is
    allowed, and fold the syntax-tree analysis over their contents. The data object the analysis
    fills in is abstract (type parameter `D`), and so is the analysis itself. */
module CodeAnalyzer {
  import opened Collections

  /** One entry of the recursive directory listing, in iterator (self-first) order. */
  datatype DirEntry = DirEntry(isFile: bool, extension: string, path: string)

  /** The file system as the scan observes it. */
  datatype FileSystem = FileSystem(
    isDir: string -> bool,
    listing: string -> seq<DirEntry>,
    isFile: string -> bool,
    contents: string -> string)

  /** Whether the first loop of `parseFolder` keeps the entry: a regular file whose extension is
      in the list (strict comparison). */
  predicate Matches(e: DirEntry, extensions: seq<string>) {
    e.isFile && e.extension in extensions
  }

  /** The paths the first loop collects, in listing order. */
  function Collected(listing: seq<DirEntry>, extensions: seq<string>): seq<string> {
    if |listing| == 0 then []
    else
      var last := listing[|listing| - 1];
      Collected(listing[..|listing| - 1], extensions) + (if Matches(last, extensions) then [last.path] else [])
  }

  /** The data object after the second loop has analysed the given paths, in order, skipping
      any path that is no longer a regular file. */
  function Analysed<D>(data: D, paths: seq<string>, fs: FileSystem, analyzeCode: (D, string) -> D): D {
    if |paths| == 0 then data
    else
      var last := paths[|paths| - 1];
      var before := Analysed(data, paths[..|paths| - 1], fs, analyzeCode);
      if fs.isFile(last) then analyzeCode(before, fs.contents(last)) else before
  }

  /** The files actually handed to the analysis, in order. */
  function AnalysedPaths(paths: seq<string>, fs: FileSystem): seq<string> {
    if |paths| == 0 then []
    else
      var last := paths[|paths| - 1];
      AnalysedPaths(paths[..|paths| - 1], fs) + (if fs.isFile(last) then [last] else [])
  }

  /** `parseFolder`: null for a path that is not a directory; otherwise the fresh data object
      after every collected file has been analysed once, in listing order. */
  method ParseFolder<D>(path: string, extensions: seq<string>, fs: FileSystem, empty: D, analyzeCode: (D, string) -> D)
    returns (r: Option<D>)
    ensures !fs.isDir(path) ==> r == None
    ensures fs.isDir(path) ==> r == Some(Analysed(empty, Collected(fs.listing(path), extensions), fs, analyzeCode))
  {
    if !fs.isDir(path) {
      return None;
    }
    var infoData := empty;
    var listing := fs.listing(path);
    var scannedDir: seq<string> := [];
    var i := 0;
    while i < |listing|
      invariant 0 <= i <= |listing|
      invariant scannedDir == Collected(listing[..i], extensions)
    {
      var file := listing[i];
      if file.isFile && file.extension in extensions {
        scannedDir := scannedDir + [file.path];
      }
      assert listing[..i + 1][..i] == listing[..i];
      i := i + 1;
    }
    assert listing[..i] == listing;
    var j := 0;
    while j < |scannedDir|
      invariant 0 <= j <= |scannedDir|
      invariant infoData == Analysed(empty, scannedDir[..j], fs, analyzeCode)
    {
      var phpFile := scannedDir[j];
      if fs.isFile(phpFile) {
        infoData := analyzeCode(infoData, fs.contents(phpFile));
      }
      assert scannedDir[..j + 1][..j] == scannedDir[..j];
      j := j + 1;
    }
    assert scannedDir[..j] == scannedDir;
    return Some(infoData);
  }

  /** A path is collected exactly when some listed entry with that path is a regular file whose
      extension is allowed. */
  lemma {:induction false} CollectedExactly(listing: seq<DirEntry>, extensions: seq<string>, p: string)
    ensures p in Collected(listing, extensions) <==>
      exists i :: 0 <= i < |listing| && listing[i].path == p && Matches(listing[i], extensions)
  {
    if |listing| > 0 {
      var init := listing[..|listing| - 1];
      CollectedExactly(init, extensions, p);
      if i :| 0 <= i < |init| && init[i].path == p && Matches(init[i], extensions) {
        assert listing[i] == init[i];
      }
      if i :| 0 <= i < |listing| && listing[i].path == p && Matches(listing[i], extensions) {
        if i < |init| {
          assert init[i] == listing[i];
        }
      }
    }
  }

  /** Collection follows listing order: the paths collected from a listing split in two are
      those of the first part followed by those of the second. */
  lemma {:induction false} CollectedKeepsListingOrder(a: seq<DirEntry>, b: seq<DirEntry>, extensions: seq<string>)
    ensures Collected(a + b, extensions) == Collected(a, extensions) + Collected(b, extensions)
  {
    if |b| == 0 {
      assert a + b == a;
    } else {
      var init := b[..|b| - 1];
      assert (a + b)[..|a + b| - 1] == a + init;
      CollectedKeepsListingOrder(a, init, extensions);
    }
  }

  /** The analysis is applied once per collected path that is still a file, in collected order:
      folding over the collected paths is folding over exactly the analysed ones. */
  lemma {:induction false} AnalysedOncePerFile<D>(data: D, paths: seq<string>, fs: FileSystem, analyzeCode: (D, string) -> D)
    ensures forall p :: p in AnalysedPaths(paths, fs) <==> p in paths && fs.isFile(p)
    ensures Analysed(data, paths, fs, analyzeCode) == Analysed(data, AnalysedPaths(paths, fs), fs, analyzeCode)
  {
    if |paths| > 0 {
      var init, last := paths[..|paths| - 1], paths[|paths| - 1];
      assert paths == init + [last];
      AnalysedOncePerFile(data, init, fs, analyzeCode);
      var ap := AnalysedPaths(init, fs);
      if fs.isFile(last) {
        assert (ap + [last])[..|ap|] == ap;
      } else {
        assert AnalysedPaths(paths, fs) == ap + [];
        assert ap + [] == ap;
      }
    }
  }

  /** A directory with no matching file yields the fresh, empty data object `empty`. */
  lemma NoMatchingFileGivesFreshData<D>(listing: seq<DirEntry>, extensions: seq<string>, fs: FileSystem, empty: D, analyzeCode: (D, string) -> D)
    requires forall i :: 0 <= i < |listing| ==> !Matches(listing[i], extensions)
    ensures Collected(listing, extensions) == []
    ensures Analysed(empty, Collected(listing, extensions), fs, analyzeCode) == empty
  {
    if Collected(listing, extensions) != [] {
      var p := Collected(listing, extensions)[0];
      CollectedExactly(listing, extensions, p);
    }
  }
}

/**
 * The filesystem tool server (mcp_filesystem.py): four tools over a
 * filesystem, each returning a result value; every failure that the source
 * catches becomes an error value instead of an exception.
 *
 * The filesystem is a map from path to node, exactly as the calls see it:
 * `os.listdir` gives a directory's entries in order, `os.stat` a node's size
 * and modification time, and reading a file in text mode its text. `glob.glob`
 * is an oracle from pattern to matches.
 */
module McpFilesystem {
  import opened Wrappers
  import opened Text

  datatype Node =
    | File(size: nat, mtime: real, text: string)
    | Directory(size: nat, mtime: real, entries: seq<string>)

  type FileSystem = map<string, Node>

  /** The `OSError`s the tools meet, standing for the text `str(e)` gives. */
  datatype OsError =
    | NotFound(path: string)
    | NotADirectory(path: string)
    | IsADirectory(path: string)

  /** `os.path.join(a, b)` on POSIX: an absolute `b` replaces `a`; otherwise a
      "/" is put between them unless `a` is empty or already ends with one. */
  function PathJoin(a: string, b: string): (p: string)
    ensures EndsWith(p, b)
    ensures StartsWith(b, "/") ==> p == b
    ensures !StartsWith(b, "/") && a != [] ==> StartsWith(p, a)
  {
    if StartsWith(b, "/") then b
    else if a == [] || a[|a| - 1] == '/' then
      assert (a + b)[..|a|] == a;
      a + b
    else
      assert (a + "/" + b)[..|a|] == a;
      a + "/" + b
  }

  /** `os.path.isdir(p)`: false for a path that does not exist. */
  predicate IsDir(fs: FileSystem, p: string) {
    p in fs && fs[p].Directory?
  }

  // ---------------------------------------------------------------------------
  // list_directory

  datatype EntryKind = DirectoryEntry | FileEntry

  /** The "type" value of an entry. */
  function KindName(k: EntryKind): string {
    match k
    case DirectoryEntry => "directory"
    case FileEntry => "file"
  }

  /** One item of "contents": its name, its type, and its size, which is
      `None` exactly for a directory. */
  datatype Entry = Entry(name: string, kind: EntryKind, size: Option<nat>)

  datatype ListResult =
    | Listing(path: string, contents: seq<Entry>)
    | ListError(error: OsError)

  /** The entry `list_directory` builds for a child that exists. */
  function EntryOf(fs: FileSystem, dir: string, name: string): (e: Entry)
    requires PathJoin(dir, name) in fs
    ensures e.name == name
    ensures e.kind == DirectoryEntry <==> IsDir(fs, PathJoin(dir, name))
    ensures e.size == None <==> e.kind == DirectoryEntry
    ensures e.kind == FileEntry ==> e.size == Some(fs[PathJoin(dir, name)].size)
  {
    var child := fs[PathJoin(dir, name)];
    if child.Directory? then Entry(name, DirectoryEntry, None) else Entry(name, FileEntry, Some(child.size))
  }

  /** `list_directory(path)`: one entry per listed item, in listing order; a
      missing path or a file gives the error of `os.listdir`, and an item that
      vanished before `os.path.getsize` gives that call's error. */
  method ListDirectory(fs: FileSystem, path: string) returns (r: ListResult)
    ensures path !in fs ==> r == ListError(NotFound(path))
    ensures path in fs && fs[path].File? ==> r == ListError(NotADirectory(path))
    ensures r.Listing? ==> IsDir(fs, path) && r.path == path
    ensures r.Listing? ==> |r.contents| == |fs[path].entries|
    ensures r.Listing? ==> forall i :: 0 <= i < |r.contents| ==>
              PathJoin(path, fs[path].entries[i]) in fs
              && r.contents[i] == EntryOf(fs, path, fs[path].entries[i])
    ensures (IsDir(fs, path) && forall i :: 0 <= i < |fs[path].entries| ==> PathJoin(path, fs[path].entries[i]) in fs)
              ==> r.Listing?
    ensures IsDir(fs, path) && r.ListError? ==>
              exists j :: 0 <= j < |fs[path].entries|
                && PathJoin(path, fs[path].entries[j]) !in fs
                && r.error == NotFound(PathJoin(path, fs[path].entries[j]))
  {
    if path !in fs {
      return ListError(NotFound(path));
    }
    if fs[path].File? {
      return ListError(NotADirectory(path));
    }
    var names := fs[path].entries;
    var items: seq<Entry> := [];
    var i := 0;
    while i < |names|
      invariant 0 <= i <= |names|
      invariant |items| == i
      invariant forall k :: 0 <= k < i ==> PathJoin(path, names[k]) in fs && items[k] == EntryOf(fs, path, names[k])
    {
      var itemPath := PathJoin(path, names[i]);
      var isDir := IsDir(fs, itemPath);
      if !isDir && itemPath !in fs {
        return ListError(NotFound(itemPath));
      }
      var size: Option<nat> := if isDir then None else Some(fs[itemPath].size);
      items := items + [Entry(names[i], if isDir then DirectoryEntry else FileEntry, size)];
      i := i + 1;
    }
    r := Listing(path, items);
  }

  // ---------------------------------------------------------------------------
  // read_file

  /** Length of the first line of a non-empty text: up to and including the
      first line feed, or the whole text when there is none. */
  function FirstLineLength(t: string): (k: nat)
    requires t != []
    ensures 0 < k <= |t|
    ensures forall j :: 0 <= j < k - 1 ==> t[j] != '\n'
    ensures k < |t| ==> t[k - 1] == '\n'
  {
    if t[0] == '\n' || |t| == 1 then 1 else 1 + FirstLineLength(t[1..])
  }

  /** `"".join(lines)` */
  function Concat(lines: seq<string>): string {
    if lines == [] then [] else lines[0] + Concat(lines[1..])
  }

  /** One line of `readlines()`: non-empty, with a line feed at most as its
      last character. */
  predicate IsLine(l: string) {
    l != [] && forall j :: 0 <= j < |l| - 1 ==> l[j] != '\n'
  }

  /** `f.readlines()`: the text cut after every line feed, keeping the line
      feeds; joining the lines gives the text back, each is a line, and only
      the last one may lack its final line feed. */
  function Lines(t: string): (ls: seq<string>)
    ensures Concat(ls) == t
    ensures forall i :: 0 <= i < |ls| ==> IsLine(ls[i])
    ensures forall i :: 0 <= i < |ls| - 1 ==> EndsWith(ls[i], "\n")
    decreases |t|
  {
    if t == [] then []
    else
      var k := FirstLineLength(t);
      var rest := Lines(t[k..]);
      assert t[..k] + t[k..] == t;
      [t[..k]] + rest
  }

  /** Joining a list in two parts is joining each part. */
  lemma {:induction false} ConcatSplit(lines: seq<string>, n: nat)
    requires n <= |lines|
    ensures Concat(lines) == Concat(lines[..n]) + Concat(lines[n..])
  {
    if n > 0 {
      ConcatSplit(lines[1..], n - 1);
      assert lines[1..][..n - 1] == lines[1..n];
      assert lines[1..][n - 1..] == lines[n..];
      assert lines[..n][1..] == lines[1..n];
    } else {
      assert lines[n..] == lines;
    }
  }

  /** Python's `s[:n]`: a negative `n` counts from the end; the result is
      always a prefix. */
  function TakePrefix<T>(s: seq<T>, n: int): (r: seq<T>)
    ensures |r| <= |s| && r == s[..|r|]
    ensures n >= 0 ==> |r| == if n < |s| then n else |s|
    ensures n < 0 ==> |r| == if |s| + n > 0 then |s| + n else 0
  {
    if n >= 0 then (if n < |s| then s[..n] else s)
    else (if |s| + n > 0 then s[..|s| + n] else [])
  }

  datatype ReadResult =
    | Read(path: string, content: string, truncated: bool)
    | ReadError(error: OsError)

  const DefaultMaxLines := 100

  /** `read_file(file_path, max_lines=100)`: the first `max_lines` lines joined,
      and `truncated` when as many lines as asked for were returned. */
  function ReadFile(fs: FileSystem, filePath: string, maxLines: int := DefaultMaxLines): (r: ReadResult)
    ensures filePath !in fs ==> r == ReadError(NotFound(filePath))
    ensures IsDir(fs, filePath) ==> r == ReadError(IsADirectory(filePath))
    ensures r.Read? <==> filePath in fs && fs[filePath].File?
    ensures r.Read? ==> r.path == filePath
    ensures r.Read? ==> exists n :: 0 <= n <= |Lines(fs[filePath].text)|
                          && r.content == Concat(Lines(fs[filePath].text)[..n])
                          && (r.truncated <==> n == maxLines)
  {
    if filePath !in fs then ReadError(NotFound(filePath))
    else if fs[filePath].Directory? then ReadError(IsADirectory(filePath))
    else
      var lines := TakePrefix(Lines(fs[filePath].text), maxLines);
      Read(filePath, Concat(lines), |lines| == maxLines)
  }

  /** What is returned is the beginning of the file: the content followed by
      the lines left out is the whole text. */
  lemma ReadFileIsPrefix(fs: FileSystem, filePath: string, maxLines: int)
    requires filePath in fs && fs[filePath].File?
    ensures var r := ReadFile(fs, filePath, maxLines);
      StartsWith(fs[filePath].text, r.content)
  {
    var ls := Lines(fs[filePath].text);
    var taken := TakePrefix(ls, maxLines);
    ConcatSplit(ls, |taken|);
  }

  /** For a non-negative cap, `truncated` holds exactly when the file has at
      least `max_lines` lines, so a file of exactly `max_lines` lines is
      reported truncated although nothing was cut; with more room than lines,
      the whole text comes back. */
  lemma ReadFileTruncation(fs: FileSystem, filePath: string, maxLines: nat)
    requires filePath in fs && fs[filePath].File?
    ensures var r := ReadFile(fs, filePath, maxLines);
      && (r.truncated <==> |Lines(fs[filePath].text)| >= maxLines)
      && (|Lines(fs[filePath].text)| < maxLines ==> r.content == fs[filePath].text)
      && (|Lines(fs[filePath].text)| == maxLines ==> r.content == fs[filePath].text && r.truncated)
  {
  }

  /** A negative cap drops lines from the end and is never reported
      truncated. */
  lemma ReadFileNegativeCap(fs: FileSystem, filePath: string, maxLines: int)
    requires filePath in fs && fs[filePath].File? && maxLines < 0
    ensures !ReadFile(fs, filePath, maxLines).truncated
  {
  }

  // ---------------------------------------------------------------------------
  // search_files

  const MaxMatches := 50

  // The glob pattern `search_files` builds: the directory joined with the
  // recursive wildcard, the search text between two wildcards, then the file type.
  function SearchPattern(directory: string, pattern: string, fileType: string): string {
    PathJoin(directory, "**/*" + pattern + "*" + fileType)
  }

  datatype SearchResult = SearchResult(pattern: string, matches: seq<string>)

  /** `search_files(directory, pattern, file_type="")`: at most 50 matches, the
      first ones `glob` returned, in its order; nothing here is caught. */
  function SearchFiles(glob: string -> seq<string>, directory: string, pattern: string, fileType: string := ""): (r: SearchResult)
    ensures r.pattern == pattern
    ensures |r.matches| <= MaxMatches
    ensures |r.matches| <= |glob(SearchPattern(directory, pattern, fileType))|
    ensures r.matches == glob(SearchPattern(directory, pattern, fileType))[..|r.matches|]
    ensures |glob(SearchPattern(directory, pattern, fileType))| <= MaxMatches ==>
              r.matches == glob(SearchPattern(directory, pattern, fileType))
  {
    SearchResult(pattern, TakePrefix(glob(SearchPattern(directory, pattern, fileType)), MaxMatches))
  }

  /** A relative directory gets the recursive pattern appended after a "/",
      with the search text between two wildcards and the file type last. */
  lemma SearchPatternShape(directory: string, pattern: string, fileType: string)
    requires directory != [] && directory[|directory| - 1] != '/'
    ensures SearchPattern(directory, pattern, fileType) == directory + "/**/*" + pattern + "*" + fileType
  {
    var b := "**/*" + pattern + "*" + fileType;
    assert b[0] == '*';
    assert directory + "/" + b == directory + "/**/*" + pattern + "*" + fileType;
  }

  // ---------------------------------------------------------------------------
  // get_file_info

  /** The last index of `c` in `s` (`str.rfind`), if any. */
  function LastIndexOf(s: string, c: char): (r: Option<nat>)
    ensures r.None? <==> c !in s
    ensures r.Some? ==> r.value < |s| && s[r.value] == c && c !in s[r.value + 1..]
  {
    if s == [] then None
    else if s[|s| - 1] == c then Some(|s| - 1)
    else
      var r := LastIndexOf(s[..|s| - 1], c);
      assert r.Some? ==> s[r.value + 1..] == s[..|s| - 1][r.value + 1..] + [s[|s| - 1]];
      assert r.None? ==> s == s[..|s| - 1] + [s[|s| - 1]];
      r
  }

  /** The final component of a path (`PurePath.name`), after trailing slashes. */
  function BaseName(p: string): (name: string)
    ensures '/' !in name
  {
    if p != [] && p[|p| - 1] == '/' then BaseName(p[..|p| - 1])
    else match LastIndexOf(p, '/')
      case None => p
      case Some(i) => p[i + 1..]
  }

  /** `PurePath.suffix`: from the last "." of the final component, provided the
      dot is neither its first nor its last character; otherwise empty. */
  function Suffix(p: string): (ext: string)
    ensures ext != [] ==> |ext| >= 2 && ext[0] == '.' && '.' !in ext[1..] && '/' !in ext
    ensures ext != [] ==> EndsWith(BaseName(p), ext) && |ext| < |BaseName(p)|
  {
    var name := BaseName(p);
    match LastIndexOf(name, '.')
    case None => []
    case Some(i) =>
      if 0 < i < |name| - 1 then
        assert name[i..][1..] == name[i + 1..];
        name[i..]
      else []
  }

  /** Only the last extension is the suffix. */
  lemma SuffixOfDoubleExtension()
    ensures Suffix("docs/report.tar.gz") == ".gz"
  {
    var p := "docs/report.tar.gz";
    assert p[|p| - 1] != '/';
    assert LastIndexOf(p, '/') == Some(4) by {
      assert p[4] == '/' && p[5..] == "report.tar.gz";
      assert '/' !in p[5..];
    }
    var name := "report.tar.gz";
    assert BaseName(p) == name;
    assert LastIndexOf(name, '.') == Some(10) by {
      assert name[10] == '.' && name[11..] == "gz";
    }
    assert name[10..] == ".gz";
  }

  /** A hidden file without a further dot has no suffix. */
  lemma SuffixOfHiddenFile()
    ensures Suffix("home/.bashrc") == ""
  {
    var p := "home/.bashrc";
    assert p[|p| - 1] != '/';
    assert LastIndexOf(p, '/') == Some(4) by {
      assert p[4] == '/' && p[5..] == ".bashrc";
      assert '/' !in p[5..];
    }
    var name := ".bashrc";
    assert BaseName(p) == name;
    assert LastIndexOf(name, '.') == Some(0) by {
      assert name[0] == '.' && name[1..] == "bashrc";
    }
  }

  /** A name ending in a dot has no suffix. */
  lemma SuffixOfTrailingDot()
    ensures Suffix("notes.") == ""
  {
    var p := "notes.";
    assert '/' !in p;
    assert BaseName(p) == p;
    assert LastIndexOf(p, '.') == Some(5);
  }

  datatype InfoResult =
    | FileInfo(path: string, size: nat, modified: real, isDirectory: bool, extension: string)
    | InfoError(error: OsError)

  /** `get_file_info(file_path)`: `os.stat`'s size and modification time, the
      directory flag and the suffix; a missing path gives the error value. */
  function GetFileInfo(fs: FileSystem, filePath: string): (r: InfoResult)
    ensures r.InfoError? <==> filePath !in fs
    ensures r.InfoError? ==> r.error == NotFound(filePath)
    ensures r.FileInfo? ==> r.path == filePath && r.size == fs[filePath].size
                            && r.modified == fs[filePath].mtime
                            && (r.isDirectory <==> fs[filePath].Directory?)
                            && r.extension == Suffix(filePath)
  {
    if filePath !in fs then InfoError(NotFound(filePath))
    else
      var node := fs[filePath];
      FileInfo(filePath, node.size, node.mtime, IsDir(fs, filePath), Suffix(filePath))
  }
}

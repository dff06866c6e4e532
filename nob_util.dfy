/**
 * The path helpers of the build script's utility file (nob_util.c): joining
 * and matching paths, turning a glob pattern into a directory scan, the
 * scans themselves over a file-system snapshot, and the destination paths
 * of `move_files`. C strings are modelled without their terminating NUL.
 */
module NobUtil {
  import opened Wrappers
  import opened Strings
  import opened Sequences

  /** The path `join_path` builds: `a`, a slash, `b`. */
  function Join(a: string, b: string): (r: string)
    ensures |r| == |a| + 1 + |b|
    ensures StartsWith(r, a + "/") && r[|a| + 1..] == b
  {
    a + "/" + b
  }

  /** `join_path`: a fresh buffer holding `a`, `'/'`, `b` and the terminating NUL. */
  method JoinPath(a: string, b: string) returns (r: array<char>)
    ensures fresh(r)
    ensures r[..] == Join(a, b) + ['\0']
  {
    r := new char[|a| + 1 + |b| + 1];
    for k := 0 to |a|
      invariant r[..k] == a[..k]
    {
      r[k] := a[k];
    }
    r[|a|] := '/';
    for k := 0 to |b|
      invariant r[..|a| + 1] == a + "/"
      invariant r[|a| + 1..|a| + 1 + k] == b[..k]
    {
      r[|a| + 1 + k] := b[k];
    }
    r[|a| + 1 + |b|] := '\0';
    assert r[..] == r[..|a| + 1] + r[|a| + 1..|a| + 1 + |b|] + [r[|a| + 1 + |b|]];
  }

  /** `ends_with`: `s` has at least as many characters as `e` and its last ones are `e`. */
  function EndsWith(s: string, e: string): (r: bool)
  {
    |s| >= |e| && s[|s| - |e|..] == e
  }

  /** `EndsWith(s, e)` holds exactly when `s` is some string followed by `e`; the empty suffix always matches. */
  lemma EndsWithIffSuffix(s: string, p: string, e: string)
    ensures EndsWith(p + e, e)
    ensures EndsWith(s, e) ==> s == s[..|s| - |e|] + e
    ensures EndsWith(s, [])
  {
    assert (p + e)[|p + e| - |e|..] == e;
  }

  /** A joined path ends with whatever its second part ends with. */
  lemma {:induction false} EndsWithJoin(a: string, b: string, e: string)
    requires EndsWith(b, e)
    ensures EndsWith(Join(a, b), e)
  {
    var j := Join(a, b);
    assert j[|j| - |e|..] == b[|b| - |e|..];
  }

  /** `basename_only`: the part after the last slash, or the whole path when it has none. */
  function BasenameOnly(p: string): (r: string)
    ensures '/' !in r && EndsWith(p, r)
    ensures '/' !in p ==> r == p
    ensures '/' in p ==> |r| < |p| && p[|p| - |r| - 1] == '/'
  {
    LastIndexOfIsLast(p, '/');
    match LastIndexOf(p, '/')
    case None => p
    case Some(i) => p[i + 1..]
  }

  /** The base name of `Join(a, b)` is `b` when `b` has no slash. */
  lemma {:induction false} BasenameOfJoin(a: string, b: string)
    requires '/' !in b
    ensures BasenameOnly(Join(a, b)) == b
  {
    var j := Join(a, b);
    assert j[|a|] == '/';
  }

  /**
   * The extension a file glob selects: from the first `.` at or after the
   * first `*`; `None` (every file matches) when there is no `*` or no `.` after it.
   */
  function ExtAfterStar(s: string): (ext: Option<string>)
    ensures '*' !in s ==> ext.None?
    ensures ext.Some? ==>
              |ext.value| >= 1 && ext.value[0] == '.' && EndsWith(s, ext.value) &&
              '*' in s[..|s| - |ext.value|] &&
              '.' !in s[IndexOf(s, '*').value..|s| - |ext.value|]
    ensures '*' in s && '.' in s[IndexOf(s, '*').value..] ==> ext.Some?
  {
    match IndexOf(s, '*')
    case None => None
    case Some(star) =>
      match IndexOf(s[star..], '.')
      case None => None
      case Some(d) =>
        assert s[star] == '*' && s[star + d] == '.';
        assert d > 0;
        assert s[..star + d][star] == '*';
        assert s[star..star + d] == s[star..][..d];
        Some(s[star + d..])
  }

  /** What `collect_files_by_pattern` does with a pattern. */
  datatype Plan =
    | ScanTree(dir: string, ext: Option<string>)  // "/**/": recursive scan of `dir`
    | LiteralFile(path: string)                    // no slash, no star: the file itself
    | NoFiles                                      // no slash, but a star
    | ScanDir(dir: string, ext: Option<string>)    // any other pattern: one directory

  const DEEP := "/**/"

  /**
   * Classifies a pattern: up to its first `"/**/"` a recursive scan of the
   * prefix; without any slash the literal file (only when it has no `*`);
   * otherwise a flat scan of the part before the last slash. Extensions come
   * from the text after the `"/**/"` or after the last slash.
   */
  function ParsePattern(pattern: string): (plan: Plan)
    ensures plan.ScanTree? <==> FindSubstring(pattern, DEEP).Some?
    ensures plan.ScanTree? ==>
              StartsWith(pattern, plan.dir + DEEP) &&
              (forall k: nat :: k < |plan.dir| ==> !OccursAt(pattern, DEEP, k)) &&
              plan.ext == ExtAfterStar(pattern[|plan.dir| + 4..])
    ensures plan.LiteralFile? <==> '/' !in pattern && '*' !in pattern
    ensures plan.LiteralFile? ==> plan.path == pattern
    ensures plan.NoFiles? <==> '/' !in pattern && '*' in pattern
    ensures plan.ScanDir? ==>
              StartsWith(pattern, plan.dir + "/") && '/' !in pattern[|plan.dir| + 1..] &&
              plan.ext == ExtAfterStar(pattern[|plan.dir| + 1..])
  {
    match FindSubstring(pattern, DEEP)
    case Some(deep) =>
      assert pattern[..deep + 4] == pattern[..deep] + DEEP && pattern[deep] == '/' by {
        assert pattern[deep..deep + 4] == DEEP;
      }
      ScanTree(pattern[..deep], ExtAfterStar(pattern[deep + 4..]))
    case None =>
      LastIndexOfIsLast(pattern, '/');
      match LastIndexOf(pattern, '/')
      case None =>
        assert !OccursAt(pattern, DEEP, 0);
        if '*' !in pattern then LiteralFile(pattern) else NoFiles
      case Some(slash) =>
        assert pattern[..slash + 1] == pattern[..slash] + "/";
        ScanDir(pattern[..slash], ExtAfterStar(pattern[slash + 1..]))
  }

  /**
   * A pattern `d/f` whose file part has no `*` is not a literal path: it
   * scans all of `d` with no extension filter.
   */
  lemma {:induction false} SlashedLiteralScansWholeDir(d: string, f: string)
    requires '/' !in d && '/' !in f && '*' !in f
    ensures ParsePattern(d + "/" + f) == ScanDir(d, None)
  {
    var p := d + "/" + f;
    forall k: nat | k + 4 <= |p|
      ensures !OccursAt(p, DEEP, k)
    {
      assert p[k..k + 4][0] == p[k] && p[k..k + 4][3] == p[k + 3];
    }
    assert p[|d|] == '/' && p[|d| + 1..] == f;
    LastIndexOfIsLast(p, '/');
  }

  datatype FileKind = RegularFile | DirectoryFile | OtherFile

  /**
   * A snapshot of the file system: the type of each path and the entries each
   * readable directory lists (including `"."` and `".."`). `maxPath` bounds
   * the length of every listed directory path, as any finite snapshot allows.
   */
  datatype FileSystem = FileSystem(kinds: map<string, FileKind>, listings: map<string, seq<string>>, maxPath: nat)

  predicate Bounded(fs: FileSystem)
  {
    forall d :: d in fs.listings ==> |d| <= fs.maxPath
  }

  /** `nob_get_file_type`; a path it cannot stat is neither a file nor a directory. */
  function KindOf(fs: FileSystem, p: string): FileKind
  {
    if p in fs.kinds then fs.kinds[p] else OtherFile
  }

  predicate IsDotEntry(name: string)
  {
    name == "." || name == ".."
  }

  /** A path the scans collect: a regular file carrying the extension, if one is asked for. */
  predicate Wanted(fs: FileSystem, p: string, ext: Option<string>)
  {
    KindOf(fs, p) == RegularFile && (ext.None? || EndsWith(p, ext.value))
  }

  /** The flat scan over `names`, the entries of `dir`, in listing order. */
  function DirMatches(fs: FileSystem, dir: string, ext: Option<string>, names: seq<string>): (r: seq<string>)
    ensures |r| <= |names|
    ensures forall p :: p in r ==> Wanted(fs, p, ext) && StartsWith(p, dir + "/")
    decreases |names|
  {
    if names == [] then []
    else
      var before := DirMatches(fs, dir, ext, names[..|names| - 1]);
      var name := names[|names| - 1];
      var p := Join(dir, name);
      if !IsDotEntry(name) && Wanted(fs, p, ext) then before + [p] else before
  }

  /** `collect_from_dir` without recursion; an unreadable directory gives nothing. */
  function Listing(fs: FileSystem, dir: string, ext: Option<string>): seq<string>
  {
    if dir in fs.listings then DirMatches(fs, dir, ext, fs.listings[dir]) else []
  }

  /** Decreases on every descent: a child path is longer than its parent. */
  function Measure(fs: FileSystem, p: string): nat
  {
    if |p| <= fs.maxPath then fs.maxPath + 1 - |p| else 0
  }

  /** `collect_from_dir_recursive` on `parent`: its tree's wanted files, depth first in listing order. */
  function TreeMatches(fs: FileSystem, parent: string, ext: Option<string>): seq<string>
    requires Bounded(fs)
    decreases Measure(fs, parent), 1
  {
    if parent !in fs.listings then []
    else ChildrenMatches(fs, parent, ext, fs.listings[parent])
  }

  function ChildrenMatches(fs: FileSystem, parent: string, ext: Option<string>, names: seq<string>): seq<string>
    requires Bounded(fs) && parent in fs.listings
    decreases Measure(fs, parent), 0, |names|
  {
    if names == [] then []
    else
      var before := ChildrenMatches(fs, parent, ext, names[..|names| - 1]);
      var name := names[|names| - 1];
      var p := Join(parent, name);
      if IsDotEntry(name) then before
      else match KindOf(fs, p)
        case DirectoryFile => before + TreeMatches(fs, p, ext)
        case RegularFile => if ext.None? || EndsWith(p, ext.value) then before + [p] else before
        case OtherFile => before
  }

  /** Everything a recursive scan collects is a wanted file somewhere below `parent`. */
  lemma {:induction false} TreeMatchesWanted(fs: FileSystem, parent: string, ext: Option<string>)
    requires Bounded(fs)
    ensures forall p :: p in TreeMatches(fs, parent, ext) ==> Wanted(fs, p, ext) && StartsWith(p, parent + "/")
    decreases Measure(fs, parent), 1
  {
    if parent in fs.listings {
      ChildrenMatchesWanted(fs, parent, ext, fs.listings[parent]);
    }
  }

  lemma {:induction false} ChildrenMatchesWanted(fs: FileSystem, parent: string, ext: Option<string>, names: seq<string>)
    requires Bounded(fs) && parent in fs.listings
    ensures forall p :: p in ChildrenMatches(fs, parent, ext, names) ==> Wanted(fs, p, ext) && StartsWith(p, parent + "/")
    decreases Measure(fs, parent), 0, |names|
  {
    if names != [] {
      ChildrenMatchesWanted(fs, parent, ext, names[..|names| - 1]);
      var name := names[|names| - 1];
      var child := Join(parent, name);
      if !IsDotEntry(name) && KindOf(fs, child) == DirectoryFile {
        TreeMatchesWanted(fs, child, ext);
        forall p | p in TreeMatches(fs, child, ext)
          ensures StartsWith(p, parent + "/")
        {
          assert p[..|parent| + 1] == p[..|child| + 1][..|parent| + 1];
        }
      }
    }
  }

  /** The entry `name` of `dir` is the path `p`: `p` is `Join(dir, name)`, which `name` can be read back from. */
  lemma JoinRecoversName(dir: string, name: string, other: string)
    requires Join(dir, name) == Join(dir, other)
    ensures name == other
  {
    assert Join(dir, name)[|dir| + 1..] == name;
  }

  /**
   * The flat scan keeps a path exactly when it is the join of a listed entry
   * other than `"."` and `".."` and a wanted file; in particular `dir/.` and
   * `dir/..` are never kept.
   */
  lemma {:induction false} DirMatchesMembers(fs: FileSystem, dir: string, ext: Option<string>, names: seq<string>)
    ensures forall p :: p in DirMatches(fs, dir, ext, names) <==>
              exists k :: 0 <= k < |names| && !IsDotEntry(names[k]) && p == Join(dir, names[k]) && Wanted(fs, p, ext)
    ensures Join(dir, ".") !in DirMatches(fs, dir, ext, names)
    ensures Join(dir, "..") !in DirMatches(fs, dir, ext, names)
    decreases |names|
  {
    if names != [] {
      var init := names[..|names| - 1];
      DirMatchesMembers(fs, dir, ext, init);
      forall p
        ensures p in DirMatches(fs, dir, ext, names) <==>
                exists k :: 0 <= k < |names| && !IsDotEntry(names[k]) && p == Join(dir, names[k]) && Wanted(fs, p, ext)
      {
        if p in DirMatches(fs, dir, ext, init) {
          var k :| 0 <= k < |init| && !IsDotEntry(init[k]) && p == Join(dir, init[k]) && Wanted(fs, p, ext);
          assert names[k] == init[k];
        } else if p in DirMatches(fs, dir, ext, names) {
          assert names[|names| - 1] == names[|names| - 1];
        } else {
          forall k | 0 <= k < |names| && !IsDotEntry(names[k]) && p == Join(dir, names[k])
            ensures !Wanted(fs, p, ext)
          {
            if k < |init| {
              assert init[k] == names[k];
            }
          }
        }
      }
    }
    forall name | Join(dir, name) in DirMatches(fs, dir, ext, names)
      ensures !IsDotEntry(name)
    {
      var k :| 0 <= k < |names| && !IsDotEntry(names[k]) && Join(dir, name) == Join(dir, names[k]);
      JoinRecoversName(dir, name, names[k]);
    }
  }

  /**
   * What the entry `name` of `parent` contributes to the recursive scan: the
   * entry itself when it is a wanted regular file, or what its own scan
   * collects when it is a directory; `"."` and `".."` contribute nothing.
   */
  predicate EntryYields(fs: FileSystem, parent: string, ext: Option<string>, name: string, p: string)
    requires Bounded(fs)
  {
    !IsDotEntry(name) &&
    var child := Join(parent, name);
    (p == child && Wanted(fs, p, ext)) || (KindOf(fs, child) == DirectoryFile && p in TreeMatches(fs, child, ext))
  }

  /** One level of the recursive scan: a path is collected exactly when some listed entry yields it. */
  lemma {:induction false} ChildrenMatchesMembers(fs: FileSystem, parent: string, ext: Option<string>, names: seq<string>)
    requires Bounded(fs) && parent in fs.listings
    ensures forall p :: p in ChildrenMatches(fs, parent, ext, names) <==>
              exists k :: 0 <= k < |names| && EntryYields(fs, parent, ext, names[k], p)
    decreases |names|
  {
    if names != [] {
      var init := names[..|names| - 1];
      var last := names[|names| - 1];
      ChildrenMatchesMembers(fs, parent, ext, init);
      forall p
        ensures p in ChildrenMatches(fs, parent, ext, names) <==>
                exists k :: 0 <= k < |names| && EntryYields(fs, parent, ext, names[k], p)
      {
        if p in ChildrenMatches(fs, parent, ext, init) {
          var k :| 0 <= k < |init| && EntryYields(fs, parent, ext, init[k], p);
          assert names[k] == init[k];
        } else if p in ChildrenMatches(fs, parent, ext, names) {
          assert EntryYields(fs, parent, ext, names[|names| - 1], p);
        } else {
          assert !EntryYields(fs, parent, ext, last, p);
          forall k | 0 <= k < |names|
            ensures !EntryYields(fs, parent, ext, names[k], p)
          {
            if k < |init| {
              assert init[k] == names[k];
            }
          }
        }
      }
    }
  }

  /**
   * The recursive scan of `parent`: nothing when it cannot be read, and
   * otherwise exactly what the entries of its listing yield.
   */
  lemma TreeMatchesMembers(fs: FileSystem, parent: string, ext: Option<string>)
    requires Bounded(fs)
    ensures parent !in fs.listings ==> TreeMatches(fs, parent, ext) == []
    ensures parent in fs.listings ==>
              var names := fs.listings[parent];
              forall p :: p in TreeMatches(fs, parent, ext) <==>
                exists k :: 0 <= k < |names| && EntryYields(fs, parent, ext, names[k], p)
  {
    if parent in fs.listings {
      ChildrenMatchesMembers(fs, parent, ext, fs.listings[parent]);
    }
  }

  /** The `StrVec` the scans append to. */
  class StrVec {
    var items: seq<string>

    constructor ()
      ensures items == []
    {
      items := [];
    }
  }

  /** Appends the wanted files of `parent`'s tree; an unreadable directory adds nothing. */
  method CollectFromDirRecursive(fs: FileSystem, parent: string, ext: Option<string>, out: StrVec)
    requires Bounded(fs)
    modifies out
    ensures out.items == old(out.items) + TreeMatches(fs, parent, ext)
    decreases Measure(fs, parent)
  {
    if parent !in fs.listings {
      return;
    }
    var children := fs.listings[parent];
    for i := 0 to |children|
      invariant out.items == old(out.items) + ChildrenMatches(fs, parent, ext, children[..i])
    {
      assert children[..i + 1][..i] == children[..i];
      ghost var next := ChildrenMatches(fs, parent, ext, children[..i + 1]);
      ghost var before := ChildrenMatches(fs, parent, ext, children[..i]);
      var name := children[i];
      if name == "." || name == ".." {
        assert next == before;
        continue;
      }
      var p := Join(parent, name);
      var t := KindOf(fs, p);
      if t == DirectoryFile {
        assert next == before + TreeMatches(fs, p, ext);
        CollectFromDirRecursive(fs, p, ext, out);
        SeqAssoc(old(out.items), before, TreeMatches(fs, p, ext));
      } else if t == RegularFile {
        if ext.None? || EndsWith(p, ext.value) {
          assert next == before + [p];
          out.items := out.items + [p];
          SeqAssoc(old(out.items), before, [p]);
        } else {
          assert next == before;
        }
      } else {
        assert next == before;
      }
    }
    assert children[..|children|] == children;
  }

  /** `collect_from_dir`: the recursive scan, or one level of regular files. */
  method CollectFromDir(fs: FileSystem, dir: string, ext: Option<string>, recursive: bool, out: StrVec)
    requires Bounded(fs)
    modifies out
    ensures recursive ==> out.items == old(out.items) + TreeMatches(fs, dir, ext)
    ensures !recursive ==> out.items == old(out.items) + Listing(fs, dir, ext)
  {
    if recursive {
      CollectFromDirRecursive(fs, dir, ext, out);
      return;
    }
    if dir !in fs.listings {
      return;
    }
    var children := fs.listings[dir];
    for i := 0 to |children|
      invariant out.items == old(out.items) + DirMatches(fs, dir, ext, children[..i])
    {
      assert children[..i + 1][..i] == children[..i];
      ghost var next := DirMatches(fs, dir, ext, children[..i + 1]);
      ghost var before := DirMatches(fs, dir, ext, children[..i]);
      var name := children[i];
      if name == "." || name == ".." {
        assert next == before;
        continue;
      }
      var p := Join(dir, name);
      if KindOf(fs, p) == RegularFile && (ext.None? || EndsWith(p, ext.value)) {
        assert next == before + [p];
        out.items := out.items + [p];
        SeqAssoc(old(out.items), before, [p]);
      } else {
        assert next == before;
      }
    }
    assert children[..|children|] == children;
  }

  /** The files a pattern collects, in the order they are appended. */
  function PatternMatches(fs: FileSystem, pattern: string): seq<string>
    requires Bounded(fs)
  {
    match ParsePattern(pattern)
    case ScanTree(dir, ext) => TreeMatches(fs, dir, ext)
    case LiteralFile(path) => if KindOf(fs, path) == RegularFile then [path] else []
    case NoFiles => []
    case ScanDir(dir, ext) => Listing(fs, dir, ext)
  }

  /** Every collected path is a regular file of the snapshot. */
  lemma PatternMatchesAreRegularFiles(fs: FileSystem, pattern: string)
    requires Bounded(fs)
    ensures forall p :: p in PatternMatches(fs, pattern) ==> KindOf(fs, p) == RegularFile
  {
    match ParsePattern(pattern)
    case ScanTree(dir, ext) => TreeMatchesWanted(fs, dir, ext);
    case LiteralFile(path) =>
    case NoFiles =>
    case ScanDir(dir, ext) =>
  }

  /** `collect_files_by_pattern`. */
  method CollectFilesByPattern(fs: FileSystem, pattern: string, out: StrVec)
    requires Bounded(fs)
    modifies out
    ensures out.items == old(out.items) + PatternMatches(fs, pattern)
  {
    var deep := FindSubstring(pattern, DEEP);
    if deep.Some? {
      var dir := pattern[..deep.value];
      var rest := pattern[deep.value + 4..];
      var ext := ExtAfterStar(rest);
      CollectFromDirRecursive(fs, dir, ext, out);
      return;
    }
    var lastSlash := LastIndexOf(pattern, '/');
    LastIndexOfIsLast(pattern, '/');
    if lastSlash.None? {
      if '*' !in pattern && KindOf(fs, pattern) == RegularFile {
        out.items := out.items + [pattern];
      }
      return;
    }
    var dir := pattern[..lastSlash.value];
    var filePart := pattern[lastSlash.value + 1..];
    var ext := ExtAfterStar(filePart);
    CollectFromDir(fs, dir, ext, false, out);
  }

  /**
   * The destination of `srcFile` in `move_files`: `dstPath`, a slash, and
   * `srcFile` without its first `|srcPath| + 1` characters.
   */
  function DestPath(srcFile: string, srcPath: string, dstPath: string): (d: string)
    requires |srcPath| < |srcFile|
    ensures |d| == |dstPath| + |srcFile| - |srcPath|
    ensures StartsWith(d, dstPath + "/")
  {
    Join(dstPath, srcFile[|srcPath| + 1..])
  }

  /** A file below `srcPath` keeps its relative path below `dstPath`. */
  lemma {:induction false} DestPathRelocates(srcPath: string, rel: string, dstPath: string)
    ensures DestPath(Join(srcPath, rel), srcPath, dstPath) == Join(dstPath, rel)
  {
    assert Join(srcPath, rel)[|srcPath| + 1..] == rel;
  }

  /**
   * The effects `move_files` has on the file system. `MakeDir` is
   * `nob_mkdir_if_not_exists`: it creates one directory, not its parents.
   */
  datatype FsOp = MakeDir(dir: string) | CopyFile(src: string, dst: string) | DeleteFile(path: string)

  /**
   * The effects for one file: create the directory part of the destination
   * (everything before its last slash, which always exists), then copy. A
   * file nested deeper below `srcPath` needs its destination's parent
   * directories to exist already.
   */
  function FileOps(srcFile: string, srcPath: string, dstPath: string): (ops: seq<FsOp>)
    requires |srcPath| < |srcFile|
    ensures |ops| == 2 && ops[0].MakeDir?
    ensures ops[1] == CopyFile(srcFile, DestPath(srcFile, srcPath, dstPath))
  {
    var dst := DestPath(srcFile, srcPath, dstPath);
    assert dst[|dstPath|] == (dstPath + "/")[|dstPath|];
    LastIndexOfIsLast(dst, '/');
    MakeParent(dst) + [CopyFile(srcFile, dst)]
  }

  /** The directory creation for `dst`: the part before its last slash, if it has one. */
  function MakeParent(dst: string): seq<FsOp>
  {
    match LastIndexOf(dst, '/')
    case Some(slash) => [MakeDir(dst[..slash])]
    case None => []
  }

  /**
   * The directory created for a file lies inside `dstPath` and is the
   * directory part of the copy's destination.
   */
  lemma FileOpsMakeDestinationDir(srcFile: string, srcPath: string, dstPath: string)
    requires |srcPath| < |srcFile|
    ensures var ops := FileOps(srcFile, srcPath, dstPath);
            StartsWith(ops[0].dir, dstPath) && StartsWith(ops[1].dst, ops[0].dir + "/") &&
            '/' !in ops[1].dst[|ops[0].dir| + 1..]
  {
    var dst := DestPath(srcFile, srcPath, dstPath);
    assert dst[|dstPath|] == (dstPath + "/")[|dstPath|];
    LastIndexOfIsLast(dst, '/');
    var slash := LastIndexOf(dst, '/').value;
    assert slash >= |dstPath|;
    assert dst[..slash + 1] == dst[..slash] + "/";
  }

  predicate UnderSource(files: seq<string>, srcPath: string)
  {
    forall i :: 0 <= i < |files| ==> |srcPath| < |files[i]|
  }

  /** The effects of moving the first `n` files, every copy succeeding. */
  function MoveOps(files: seq<string>, srcPath: string, dstPath: string, n: nat): (ops: seq<FsOp>)
    requires UnderSource(files, srcPath) && n <= |files|
    ensures |ops| == 3 * n
  {
    if n == 0 then []
    else MoveOps(files, srcPath, dstPath, n - 1) + FileOps(files[n - 1], srcPath, dstPath) + [DeleteFile(files[n - 1])]
  }

  /** File `j` is copied to its destination at position `3 j + 1`. */
  lemma {:induction false} MoveOpsCopies(files: seq<string>, srcPath: string, dstPath: string, n: nat, j: nat)
    requires UnderSource(files, srcPath) && n <= |files| && j < n
    ensures MoveOps(files, srcPath, dstPath, n)[3 * j + 1] == CopyFile(files[j], DestPath(files[j], srcPath, dstPath))
  {
    var prev := MoveOps(files, srcPath, dstPath, n - 1);
    var last := FileOps(files[n - 1], srcPath, dstPath) + [DeleteFile(files[n - 1])];
    if j < n - 1 {
      MoveOpsCopies(files, srcPath, dstPath, n - 1, j);
      assert (prev + last)[3 * j + 1] == prev[3 * j + 1];
    } else {
      assert (prev + last)[3 * j + 1] == last[1];
    }
  }

  /** File `j` is deleted right after its own copy, at position `3 j + 2`. */
  lemma {:induction false} MoveOpsDeletesAfterCopy(files: seq<string>, srcPath: string, dstPath: string, n: nat, j: nat)
    requires UnderSource(files, srcPath) && n <= |files| && j < n
    ensures MoveOps(files, srcPath, dstPath, n)[3 * j + 2] == DeleteFile(files[j])
  {
    var prev := MoveOps(files, srcPath, dstPath, n - 1);
    var last := FileOps(files[n - 1], srcPath, dstPath) + [DeleteFile(files[n - 1])];
    if j < n - 1 {
      MoveOpsDeletesAfterCopy(files, srcPath, dstPath, n - 1, j);
      assert (prev + last)[3 * j + 2] == prev[3 * j + 2];
    } else {
      assert (prev + last)[3 * j + 2] == last[2];
    }
  }

  /** The index of the first failed copy, or `|copyOk|` when none fails. */
  function FirstFailure(copyOk: seq<bool>): (k: nat)
    ensures k <= |copyOk|
    ensures forall j :: 0 <= j < k ==> copyOk[j]
    ensures k < |copyOk| ==> !copyOk[k]
  {
    if copyOk == [] then 0
    else if !copyOk[0] then 0
    else 1 + FirstFailure(copyOk[1..])
  }

  /**
   * `move_files`: for each file, create the destination directory and copy;
   * the first failed copy (`copyOk` holds each copy's outcome) stops the
   * loop and reports failure, otherwise the source is deleted.
   */
  method MoveFiles(files: seq<string>, srcPath: string, dstPath: string, copyOk: seq<bool>)
    returns (ok: bool, ops: seq<FsOp>)
    requires UnderSource(files, srcPath) && |copyOk| == |files|
    ensures ok <==> FirstFailure(copyOk) == |files|
    ensures ok ==> ops == MoveOps(files, srcPath, dstPath, |files|)
    ensures !ok ==>
              var k := FirstFailure(copyOk);
              k < |files| && ops == MoveOps(files, srcPath, dstPath, k) + FileOps(files[k], srcPath, dstPath)
  {
    ops := [];
    for i := 0 to |files|
      invariant i <= FirstFailure(copyOk)
      invariant ops == MoveOps(files, srcPath, dstPath, i)
    {
      var step := CopyStep(files[i], srcPath, dstPath);
      ops := ops + step;
      if !copyOk[i] {
        return false, ops;
      }
      ops := ops + [DeleteFile(files[i])];
      assert ops == MoveOps(files, srcPath, dstPath, i + 1);
    }
    ok := true;
  }

  /**
   * The first part of the loop body of `move_files`: build the destination,
   * cut it at its last slash to create the directories, then copy.
   */
  method CopyStep(srcFile: string, srcPath: string, dstPath: string) returns (step: seq<FsOp>)
    requires |srcPath| < |srcFile|
    ensures step == FileOps(srcFile, srcPath, dstPath)
  {
    var dstFile := DestPath(srcFile, srcPath, dstPath);
    var lastSlash := LastIndexOf(dstFile, '/');
    step := [];
    if lastSlash.Some? {
      step := [MakeDir(dstFile[..lastSlash.value])];
    }
    step := step + [CopyFile(srcFile, dstFile)];
  }
}

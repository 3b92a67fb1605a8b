// The composite file system: File leaves and Directory composites behind one
// component interface, with recursive size, pre-order find, extension-filtered
// file counting and subtree statistics.
//
// A directory's children are held as values (Component), each carrying the
// object it was taken from, so object identity (add(this), remove) is kept
// while the tree itself stays finite and acyclic by construction.

module FileSystem {
  import opened Wrappers
  import opened Exceptions
  import opened Text
  import opened Sequences

  /** Integer.MAX_VALUE, the default maxDepth of a directory. */
  const IntegerMax: int := 0x7fff_ffff

  const LeafAddMessage: string := "Cannot add component to a leaf node"
  const LeafRemoveMessage: string := "Cannot remove component from a leaf node"
  const LeafGetChildMessage: string := "Cannot get child from a leaf node"

  /** A component as its parent sees it: the object, and its state when it was added. */
  datatype Component =
    | FileNode(file: File, name: string, size: int, content: string, extension: string)
    | DirectoryNode(directory: Directory, name: string, children: seq<Component>)

  /** Java's `==` on components: the same File object or the same Directory object. */
  predicate SameObject(a: Component, b: Component) {
    || (a.FileNode? && b.FileNode? && a.file == b.file)
    || (a.DirectoryNode? && b.DirectoryNode? && a.directory == b.directory)
  }

  /** `content != null ? content : ""`. */
  function OrEmpty(content: Option<string>): (r: string)
    ensures content.Some? ==> r == content.value
    ensures content.None? ==> r == ""
  {
    if content.Some? then content.value else ""
  }

  // ---------------------------------------------------------------- extension

  /** The extension the File constructor extracts from a name. */
  function Extension(name: string): string {
    var dot := LastIndexOf(name, '.');
    if 0 < dot < |name| - 1 then ToLower(name[dot + 1..]) else ""
  }

  /**
   * The extension is the lower-cased text after the last '.', non-empty only
   * when that dot is neither the first nor the last character; it holds no
   * '.' and no upper-case letter.
   */
  lemma ExtensionShape(name: string)
    ensures '.' !in Extension(name)
    ensures forall i :: 0 <= i < |Extension(name)| ==> !IsUpper(Extension(name)[i])
    ensures Extension(name) != [] ==>
      var k := |name| - |Extension(name)| - 1;
      0 < k && name[k] == '.' && Extension(name) == ToLower(name[k + 1..])
    ensures Extension(name) == [] ==>
      forall k :: 0 < k < |name| - 1 && name[k] == '.' ==> '.' in name[k + 1..]
  {
    var dot := LastIndexOf(name, '.');
    var r := Extension(name);
    if 0 < dot < |name| - 1 {
      var tail := name[dot + 1..];
      ToLowerChars(tail);
      assert '.' !in tail;
      forall i | 0 <= i < |r| ensures r[i] != '.' {
        assert r[i] == LowerChar(tail[i]);
      }
    } else {
      forall k | 0 < k < |name| - 1 && name[k] == '.' ensures '.' in name[k + 1..] {
        LastDotFollows(name, k);
        assert name[dot] == name[k + 1..][dot - k - 1];
      }
    }
  }

  /** A dot after which no other dot follows is the one lastIndexOf finds. */
  lemma LastDotAt(name: string, k: int)
    requires 0 <= k < |name| && name[k] == '.' && '.' !in name[k + 1..]
    ensures LastIndexOf(name, '.') == k
  {
    assert name[k] in name;
  }

  /** Any dot of the name lies at or before the one lastIndexOf finds. */
  lemma LastDotFollows(name: string, k: int)
    requires 0 <= k < |name| && name[k] == '.'
    ensures k <= LastIndexOf(name, '.')
  {
    assert name[k] in name;
  }

  /** "README" has no dot, so no extension. */
  lemma NoDotNoExtension()
    ensures Extension("README") == ""
  {
    var plain := "README";
    assert forall i :: 0 <= i < |plain| ==> plain[i] != '.';
  }

  /** The extension of a name whose last dot sits strictly inside it is the lowered text after that dot. */
  lemma ExtensionAfterDot(name: string, k: int)
    requires 0 < k < |name| - 1 && name[k] == '.' && '.' !in name[k + 1..]
    ensures Extension(name) == ToLower(name[k + 1..])
  {
    LastDotAt(name, k);
  }

  /** Only the text after the last dot counts: "archive.tar.gz" has "gz". */
  lemma LastDotExtension()
    ensures Extension("archive.tar.gz") == "gz"
  {
    var gz := "archive.tar.gz";
    ExtensionAfterDot(gz, 11);
    assert gz[12..] == "gz";
  }

  /** A leading dot marks a hidden file, not an extension: ".gitignore" has none. */
  lemma HiddenFileExtension()
    ensures Extension(".gitignore") == ""
  {
    LastDotAt(".gitignore", 0);
  }

  lemma MarkdownExtension()
    ensures Extension("README.md") == "md"
  {
    var md := "README.md";
    ExtensionAfterDot(md, 6);
    assert md[7..] == "md";
  }

  // ---------------------------------------------------------------- getType

  /** getType: "File (" + upper-cased extension + ")" for a file, "Directory" for a directory. */
  function TypeName(c: Component): string {
    match c
    case FileNode(_, _, _, _, extension) => "File (" + ToUpper(extension) + ")"
    case DirectoryNode(_, _, _) => "Directory"
  }

  /** The file type spells the extension in capitals; lowering it gives the extension back. */
  lemma {:induction false} FileTypeRecoversExtension(f: File, name: string, size: int, content: string)
    ensures var t := TypeName(FileNode(f, name, size, content, Extension(name)));
      && |t| == |Extension(name)| + 7
      && t[..6] == "File (" && t[|t| - 1] == ')'
      && ToLower(t[6..|t| - 1]) == Extension(name)
  {
    var e := Extension(name);
    ExtensionShape(name);
    var t := TypeName(FileNode(f, name, size, content, e));
    ToUpperChars(e);
    LowerOfUpper(e);
    assert t[6..|t| - 1] == ToUpper(e);
  }

  lemma TypeNameExample(f: File, d: Directory)
    ensures TypeName(FileNode(f, "README.md", 1024, "# Test Project", Extension("README.md"))) == "File (MD)"
    ensures TypeName(DirectoryNode(d, "root", [])) == "Directory"
  {
    MarkdownExtension();
    assert ToUpper("md") == "MD";
  }

  // ---------------------------------------------------------------- getIndent

  /** getIndent: two spaces per level, none for a depth of zero or less. */
  method Indent(depth: int) returns (indent: string)
    ensures |indent| == 2 * Max(depth, 0)
    ensures forall i :: 0 <= i < |indent| ==> indent[i] == ' '
  {
    indent := "";
    var i := 0;
    while i < depth
      invariant 0 <= i && (i <= depth || i == 0)
      invariant |indent| == 2 * i
      invariant forall k :: 0 <= k < |indent| ==> indent[k] == ' '
    {
      indent := indent + "  ";
      i := i + 1;
    }
  }

  // ---------------------------------------------------------------- the tree, flattened

  /** Every component of the subtree in pre-order: the component, then each child's subtree. */
  function Nodes(c: Component): (r: seq<Component>)
    ensures |r| >= 1 && r[0] == c
    decreases c
  {
    match c
    case FileNode(_, _, _, _, _) => [c]
    case DirectoryNode(_, _, children) => [c] + NodesOf(children)
  }

  function NodesOf(cs: seq<Component>): seq<Component>
    decreases cs
  {
    if cs == [] then [] else Nodes(cs[0]) + NodesOf(cs[1..])
  }

  /** The first component of a list with the given name. */
  function FirstNamed(s: seq<Component>, query: string): (r: Option<Component>)
    ensures r.Some? ==> r.value in s && r.value.name == query
    ensures r.None? <==> forall i :: 0 <= i < |s| ==> s[i].name != query
  {
    if s == [] then None
    else if s[0].name == query then Some(s[0])
    else FirstNamed(s[1..], query)
  }

  lemma {:induction false} FirstNamedAppend(a: seq<Component>, b: seq<Component>, query: string)
    ensures FirstNamed(a + b, query) ==
      if FirstNamed(a, query).Some? then FirstNamed(a, query) else FirstNamed(b, query)
  {
    if a == [] {
      assert a + b == b;
    } else {
      assert (a + b)[1..] == a[1..] + b;
      FirstNamedAppend(a[1..], b, query);
    }
  }

  /** Files of a list whose extension passes the filter. */
  function MatchingFiles(s: seq<Component>, filter: Option<string>): nat {
    if s == [] then 0
    else
      var here := if s[0].FileNode? && ExtensionMatches(s[0].extension, filter) then 1 else 0;
      here + MatchingFiles(s[1..], filter)
  }

  /** Directories of a list. */
  function DirectoryCount(s: seq<Component>): nat {
    if s == [] then 0 else (if s[0].DirectoryNode? then 1 else 0) + DirectoryCount(s[1..])
  }

  /** The sizes of the files of a list, added up. */
  function FileBytes(s: seq<Component>): int {
    if s == [] then 0 else (if s[0].FileNode? then s[0].size else 0) + FileBytes(s[1..])
  }

  lemma {:induction false} MatchingFilesAppend(a: seq<Component>, b: seq<Component>, filter: Option<string>)
    ensures MatchingFiles(a + b, filter) == MatchingFiles(a, filter) + MatchingFiles(b, filter)
  {
    if a == [] {
      assert a + b == b;
    } else {
      assert (a + b)[1..] == a[1..] + b;
      MatchingFilesAppend(a[1..], b, filter);
    }
  }

  lemma {:induction false} DirectoryCountAppend(a: seq<Component>, b: seq<Component>)
    ensures DirectoryCount(a + b) == DirectoryCount(a) + DirectoryCount(b)
  {
    if a == [] {
      assert a + b == b;
    } else {
      assert (a + b)[1..] == a[1..] + b;
      DirectoryCountAppend(a[1..], b);
    }
  }

  lemma {:induction false} FileBytesAppend(a: seq<Component>, b: seq<Component>)
    ensures FileBytes(a + b) == FileBytes(a) + FileBytes(b)
  {
    if a == [] {
      assert a + b == b;
    } else {
      assert (a + b)[1..] == a[1..] + b;
      FileBytesAppend(a[1..], b);
    }
  }

  /** With no filter every component of a list is a counted file or a directory. */
  lemma {:induction false} FilesAndDirectoriesPartition(s: seq<Component>)
    ensures MatchingFiles(s, None) + DirectoryCount(s) == |s|
  {
    if s != [] {
      FilesAndDirectoriesPartition(s[1..]);
    }
  }

  // ---------------------------------------------------------------- getSize

  /** getSize: a file's own size; a directory's is that of its children added up. */
  function Size(c: Component): int
    decreases c
  {
    match c
    case FileNode(_, _, size, _, _) => size
    case DirectoryNode(_, _, children) => SizeOfAll(children)
  }

  function SizeOfAll(cs: seq<Component>): int
    decreases cs
  {
    if cs == [] then 0 else Size(cs[0]) + SizeOfAll(cs[1..])
  }

  /** A directory weighs what the files of its whole subtree weigh. */
  lemma {:induction false} SizeIsFileBytes(c: Component)
    ensures Size(c) == FileBytes(Nodes(c))
    decreases c
  {
    match c
    case FileNode(_, _, _, _, _) =>
    case DirectoryNode(_, _, children) =>
      SizeOfAllIsFileBytes(children);
      assert ([c] + NodesOf(children))[1..] == NodesOf(children);
  }

  lemma {:induction false} SizeOfAllIsFileBytes(cs: seq<Component>)
    ensures SizeOfAll(cs) == FileBytes(NodesOf(cs))
    decreases cs
  {
    if cs != [] {
      SizeIsFileBytes(cs[0]);
      SizeOfAllIsFileBytes(cs[1..]);
      FileBytesAppend(Nodes(cs[0]), NodesOf(cs[1..]));
    }
  }

  /** Adding a child adds its size; the sizes of a split list add up. */
  lemma {:induction false} SizeOfAllAppend(a: seq<Component>, b: seq<Component>)
    ensures SizeOfAll(a + b) == SizeOfAll(a) + SizeOfAll(b)
  {
    if a == [] {
      assert a + b == b;
    } else {
      assert (a + b)[1..] == a[1..] + b;
      SizeOfAllAppend(a[1..], b);
    }
  }

  /** The loop of Directory.getSize, calling each child's getSize. */
  method SizeAmong(children: seq<Component>) returns (total: int)
    ensures total == SizeOfAll(children)
    decreases children
  {
    total := 0;
    for i := 0 to |children|
      invariant total + SizeOfAll(children[i..]) == SizeOfAll(children)
    {
      assert children[i..][1..] == children[i + 1..];
      var size := SizeOf(children[i]);
      total := total + size;
    }
  }

  /** A component's getSize: File returns its field, Directory runs its loop. */
  method SizeOf(c: Component) returns (size: int)
    ensures size == Size(c)
    decreases c
  {
    match c
    case FileNode(_, _, s, _, _) => size := s;
    case DirectoryNode(_, _, children) => size := SizeAmong(children);
  }

  // ---------------------------------------------------------------- find

  /** find: the component itself when its name matches, else (for a directory) the children in order. */
  function Search(c: Component, query: string): Option<Component>
    decreases c
  {
    if c.name == query then Some(c)
    else match c
      case FileNode(_, _, _, _, _) => None
      case DirectoryNode(_, _, children) => SearchIn(children, query)
  }

  function SearchIn(cs: seq<Component>, query: string): Option<Component>
    decreases cs
  {
    if cs == [] then None
    else
      var found := Search(cs[0], query);
      if found.Some? then found else SearchIn(cs[1..], query)
  }

  /** find is a pre-order search: it returns the first component of the subtree with that name. */
  lemma {:induction false} FindIsFirstInPreorder(c: Component, query: string)
    ensures Search(c, query) == FirstNamed(Nodes(c), query)
    decreases c
  {
    match c
    case FileNode(_, _, _, _, _) =>
    case DirectoryNode(_, _, children) =>
      FindInIsFirst(children, query);
      assert ([c] + NodesOf(children))[1..] == NodesOf(children);
  }

  lemma {:induction false} FindInIsFirst(cs: seq<Component>, query: string)
    ensures SearchIn(cs, query) == FirstNamed(NodesOf(cs), query)
    decreases cs
  {
    if cs != [] {
      FindIsFirstInPreorder(cs[0], query);
      FindInIsFirst(cs[1..], query);
      FirstNamedAppend(Nodes(cs[0]), NodesOf(cs[1..]), query);
    }
  }

  /** Every component finds itself by its own name. */
  lemma FindsItself(c: Component)
    ensures Search(c, c.name) == Some(c)
  {
  }

  /** find fails exactly when no component of the subtree has that name. */
  lemma FindMissesOnlyAbsentNames(c: Component, query: string)
    ensures Search(c, query).None? <==> forall x :: x in Nodes(c) ==> x.name != query
    ensures Search(c, query).Some? ==> Search(c, query).value in Nodes(c) && Search(c, query).value.name == query
  {
    FindIsFirstInPreorder(c, query);
  }

  /** The loop of Directory.find over the children, returning the first hit. */
  method FindAmong(children: seq<Component>, query: string) returns (found: Option<Component>)
    ensures found == SearchIn(children, query)
    decreases children
  {
    for i := 0 to |children|
      invariant SearchIn(children[i..], query) == SearchIn(children, query)
    {
      assert children[i..][1..] == children[i + 1..];
      found := FindComponent(children[i], query);
      if found.Some? {
        return;
      }
    }
    return None;
  }

  /** A component's find: the default one for a file, the directory's override otherwise. */
  method FindComponent(c: Component, query: string) returns (found: Option<Component>)
    ensures found == Search(c, query)
    decreases c
  {
    if c.name == query {
      return Some(c);
    }
    match c
    case FileNode(_, _, _, _, _) => found := None;
    case DirectoryNode(_, _, children) => found := FindAmong(children, query);
  }

  // ---------------------------------------------------------------- getFileCount

  /** A null or empty filter admits every file; otherwise extensions are compared ignoring case. */
  predicate ExtensionMatches(extension: string, filter: Option<string>) {
    filter.None? || filter.value == "" || EqualsIgnoreCase(extension, filter.value)
  }

  /** getFileCount: the files of the subtree whose extension passes the filter. */
  function FileCount(c: Component, filter: Option<string>): nat
    decreases c
  {
    match c
    case FileNode(_, _, _, _, extension) => if ExtensionMatches(extension, filter) then 1 else 0
    case DirectoryNode(_, _, children) => FileCountAll(children, filter)
  }

  function FileCountAll(cs: seq<Component>, filter: Option<string>): nat
    decreases cs
  {
    if cs == [] then 0 else FileCount(cs[0], filter) + FileCountAll(cs[1..], filter)
  }

  /** getFileCount counts exactly the matching files of the subtree, and never a directory. */
  lemma {:induction false} FileCountIsMatchingFiles(c: Component, filter: Option<string>)
    ensures FileCount(c, filter) == MatchingFiles(Nodes(c), filter)
    decreases c
  {
    match c
    case FileNode(_, _, _, _, _) =>
    case DirectoryNode(_, _, children) =>
      FileCountAllIsMatchingFiles(children, filter);
      assert ([c] + NodesOf(children))[1..] == NodesOf(children);
  }

  lemma {:induction false} FileCountAllIsMatchingFiles(cs: seq<Component>, filter: Option<string>)
    ensures FileCountAll(cs, filter) == MatchingFiles(NodesOf(cs), filter)
    decreases cs
  {
    if cs != [] {
      FileCountIsMatchingFiles(cs[0], filter);
      FileCountAllIsMatchingFiles(cs[1..], filter);
      MatchingFilesAppend(Nodes(cs[0]), NodesOf(cs[1..]), filter);
    }
  }

  /** An empty filter is no filter, and any filter counts at most all the files. */
  lemma {:induction false} FilterNarrowsCount(c: Component, extension: string)
    ensures FileCount(c, Some("")) == FileCount(c, None)
    ensures FileCount(c, Some(extension)) <= FileCount(c, None)
    decreases c
  {
    match c
    case FileNode(_, _, _, _, _) =>
    case DirectoryNode(_, _, children) => FilterNarrowsCountAll(children, extension);
  }

  lemma {:induction false} FilterNarrowsCountAll(cs: seq<Component>, extension: string)
    ensures FileCountAll(cs, Some("")) == FileCountAll(cs, None)
    ensures FileCountAll(cs, Some(extension)) <= FileCountAll(cs, None)
    decreases cs
  {
    if cs != [] {
      FilterNarrowsCount(cs[0], extension);
      FilterNarrowsCountAll(cs[1..], extension);
    }
  }

  /** The loop of Directory.getFileCount: a file child counts when it matches, a directory child recurses. */
  method FileCountAmong(children: seq<Component>, filter: Option<string>) returns (count: nat)
    ensures count == FileCountAll(children, filter)
    decreases children
  {
    count := 0;
    for i := 0 to |children|
      invariant count + FileCountAll(children[i..], filter) == FileCountAll(children, filter)
    {
      assert children[i..][1..] == children[i + 1..];
      var child := children[i];
      if child.FileNode? {
        if filter.None? || filter.value == "" || EqualsIgnoreCase(child.extension, filter.value) {
          count := count + 1;
        }
      } else {
        var below := FileCountAmong(child.children, filter);
        count := count + below;
      }
    }
  }

  // ---------------------------------------------------------------- statistics

  /** The directories strictly below a component. */
  function DirectoriesBelow(c: Component): nat
    decreases c
  {
    match c
    case FileNode(_, _, _, _, _) => 0
    case DirectoryNode(_, _, children) => DirectoriesAll(children)
  }

  function DirectoriesAll(cs: seq<Component>): nat
    decreases cs
  {
    if cs == [] then 0
    else (if cs[0].DirectoryNode? then 1 else 0) + DirectoriesBelow(cs[0]) + DirectoriesAll(cs[1..])
  }

  /** How many directory levels lie below a component: 0 without sub-directories. */
  function Height(c: Component): (r: int)
    ensures r >= 0
    decreases c
  {
    match c
    case FileNode(_, _, _, _, _) => 0
    case DirectoryNode(_, _, children) => HeightAll(children)
  }

  function HeightAll(cs: seq<Component>): (r: int)
    ensures r >= 0
    decreases cs
  {
    if cs == [] then 0
    else Max(if cs[0].DirectoryNode? then 1 + Height(cs[0]) else 0, HeightAll(cs[1..]))
  }

  /** totalDirectories counts every directory of the subtree except its root. */
  lemma {:induction false} DirectoriesBelowAreCounted(c: Component)
    ensures DirectoriesBelow(c) + (if c.DirectoryNode? then 1 else 0) == DirectoryCount(Nodes(c))
    decreases c
  {
    match c
    case FileNode(_, _, _, _, _) =>
    case DirectoryNode(_, _, children) =>
      DirectoriesAllAreCounted(children);
      assert ([c] + NodesOf(children))[1..] == NodesOf(children);
  }

  lemma {:induction false} DirectoriesAllAreCounted(cs: seq<Component>)
    ensures DirectoriesAll(cs) == DirectoryCount(NodesOf(cs))
    decreases cs
  {
    if cs != [] {
      DirectoriesBelowAreCounted(cs[0]);
      DirectoriesAllAreCounted(cs[1..]);
      DirectoryCountAppend(Nodes(cs[0]), NodesOf(cs[1..]));
    }
  }

  /** The statistics of a directory account for every component of its subtree exactly once. */
  lemma EveryComponentCountedOnce(d: Component)
    requires d.DirectoryNode?
    ensures FileCount(d, None) + DirectoriesBelow(d) + 1 == |Nodes(d)|
  {
    FileCountIsMatchingFiles(d, None);
    DirectoriesBelowAreCounted(d);
    FilesAndDirectoriesPartition(Nodes(d));
  }

  /** The height is that of the deepest sub-directory plus one, or 0 when there is none. */
  lemma {:induction false} HeightIsDeepestChild(cs: seq<Component>)
    ensures forall i :: 0 <= i < |cs| && cs[i].DirectoryNode? ==> 1 + Height(cs[i]) <= HeightAll(cs)
    ensures HeightAll(cs) == 0 ||
      exists i :: 0 <= i < |cs| && cs[i].DirectoryNode? && HeightAll(cs) == 1 + Height(cs[i])
  {
    if cs != [] {
      HeightIsDeepestChild(cs[1..]);
      forall i | 1 <= i < |cs| && cs[i].DirectoryNode? ensures 1 + Height(cs[i]) <= HeightAll(cs) {
        assert cs[i] == cs[1..][i - 1];
      }
      if HeightAll(cs) != 0 && HeightAll(cs) != (if cs[0].DirectoryNode? then 1 + Height(cs[0]) else 0) {
        var j :| 0 <= j < |cs[1..]| && cs[1..][j].DirectoryNode? && HeightAll(cs[1..]) == 1 + Height(cs[1..][j]);
        assert cs[j + 1] == cs[1..][j];
      }
    }
  }

  /** Each level of depth needs a directory of its own. */
  lemma {:induction false} HeightAtMostDirectories(c: Component)
    ensures Height(c) <= DirectoriesBelow(c)
    decreases c
  {
    match c
    case FileNode(_, _, _, _, _) =>
    case DirectoryNode(_, _, children) => HeightAllAtMostDirectories(children);
  }

  lemma {:induction false} HeightAllAtMostDirectories(cs: seq<Component>)
    ensures HeightAll(cs) <= DirectoriesAll(cs)
    decreases cs
  {
    if cs != [] {
      HeightAtMostDirectories(cs[0]);
      HeightAllAtMostDirectories(cs[1..]);
    }
  }

  /** Directory.DirectoryStats: four counters filled in by one walk of the tree. */
  class DirectoryStats {
    var totalFiles: int
    var totalDirectories: int
    var totalSize: int
    var maxDepth: int

    /** Walks the directory from depth 0. */
    constructor(directory: Directory)
      ensures totalFiles == FileCount(directory.Value(), None)
      ensures totalDirectories == DirectoriesBelow(directory.Value())
      ensures totalSize == Size(directory.Value())
      ensures maxDepth == Height(directory.Value())
    {
      totalFiles, totalDirectories, totalSize, maxDepth := 0, 0, 0, 0;
      new;
      CalculateStats(directory.Value(), 0);
    }

    /**
     * calculateStats: records the depth, then counts each file child with its
     * size and each directory child before walking it one level deeper.
     */
    method CalculateStats(directory: Component, currentDepth: int)
      requires directory.DirectoryNode?
      modifies this
      ensures totalFiles == old(totalFiles) + FileCount(directory, None)
      ensures totalDirectories == old(totalDirectories) + DirectoriesBelow(directory)
      ensures totalSize == old(totalSize) + Size(directory)
      ensures maxDepth == Max(old(maxDepth), currentDepth + Height(directory))
      decreases directory
    {
      maxDepth := Max(maxDepth, currentDepth);
      var children := directory.children;
      for i := 0 to |children|
        invariant maxDepth >= currentDepth
        invariant totalFiles + FileCountAll(children[i..], None) == old(totalFiles) + FileCountAll(children, None)
        invariant totalDirectories + DirectoriesAll(children[i..]) == old(totalDirectories) + DirectoriesAll(children)
        invariant totalSize + SizeOfAll(children[i..]) == old(totalSize) + SizeOfAll(children)
        invariant Max(maxDepth, currentDepth + HeightAll(children[i..]))
          == Max(old(maxDepth), currentDepth + HeightAll(children))
      {
        assert children[i..][1..] == children[i + 1..];
        var child := children[i];
        DeepestStep(maxDepth, currentDepth, if child.DirectoryNode? then 1 + Height(child) else 0,
                    HeightAll(children[i + 1..]));
        if child.FileNode? {
          totalFiles := totalFiles + 1;
          totalSize := totalSize + child.size;
        } else {
          totalDirectories := totalDirectories + 1;
          CalculateStats(child, currentDepth + 1);
        }
      }
    }
  }

  /**
   * One child of the walk: raising the deepest level seen to the child's own
   * depth, then taking the rest, is taking the deepest of child and rest at once.
   */
  lemma DeepestStep(deepest: int, depth: int, child: int, rest: int)
    requires deepest >= depth && child >= 0 && rest >= 0
    ensures Max(Max(deepest, depth + child), depth + rest) == Max(deepest, depth + Max(child, rest))
    ensures Max(deepest, depth) == deepest
  {
  }

  // ---------------------------------------------------------------- children lists

  /** ArrayList.indexOf under identity: the first position holding the same object, or -1. */
  function FirstSame(cs: seq<Component>, c: Component): (k: int)
    ensures -1 <= k < |cs|
    ensures k == -1 <==> forall j :: 0 <= j < |cs| ==> !SameObject(cs[j], c)
    ensures 0 <= k ==> SameObject(cs[k], c) && forall j :: 0 <= j < k ==> !SameObject(cs[j], c)
  {
    if cs == [] then -1
    else if SameObject(cs[0], c) then 0
    else
      var k := FirstSame(cs[1..], c);
      if k == -1 then -1 else k + 1
  }

  /** Removing a just-added component that was not a child before restores the list. */
  lemma AddThenRemoveRestores(cs: seq<Component>, c: Component)
    requires forall j :: 0 <= j < |cs| ==> !SameObject(cs[j], c)
    ensures FirstSame(cs + [c], c) == |cs|
    ensures (cs + [c])[..|cs|] + (cs + [c])[|cs| + 1..] == cs
  {
    var s := cs + [c];
    assert SameObject(s[|cs|], c);
    assert forall j :: 0 <= j < |cs| ==> s[j] == cs[j];
    assert s[..|cs|] == cs;
  }

  // ---------------------------------------------------------------- the objects

  /** A leaf: its name and extension are fixed at construction, its content and size may be rewritten. */
  class File {
    const name: string
    var size: int
    var content: string
    const extension: string

    /** The component a directory holds when this file is added to it. */
    function Value(): Component
      reads this
    {
      FileNode(this, name, size, content, extension)
    }

    /** File(name, size): empty content and the extension taken from the name. */
    constructor(name: string, size: int)
      ensures this.name == name && this.size == size
      ensures content == "" && extension == Extension(name)
    {
      this.name := name;
      this.size := size;
      content := "";
      extension := Extension(name);
    }

    /** File(name, size, content): the given size is kept, whatever the content's length. */
    constructor WithContent(name: string, size: int, content: Option<string>)
      ensures this.name == name && this.size == size
      ensures this.content == OrEmpty(content) && extension == Extension(name)
    {
      this.name := name;
      this.size := size;
      this.content := if content.Some? then content.value else "";
      extension := Extension(name);
    }

    /** setContent: null becomes "", and the size becomes the content's length. */
    method SetContent(content: Option<string>)
      modifies this
      ensures this.content == OrEmpty(content) && size == |this.content|
    {
      this.content := if content.Some? then content.value else "";
      size := |this.content|;
    }

    /** write: the same as setContent. */
    method Write(content: Option<string>)
      modifies this
      ensures this.content == OrEmpty(content) && size == |this.content|
    {
      SetContent(content);
    }

    /** read: the current content. */
    method Read() returns (r: string)
      ensures r == content
    {
      r := content;
    }

    /** The inherited add: a leaf has no children. */
    method Add(component: Option<Component>) returns (r: Outcome<Exception>)
      ensures r == Fail(UnsupportedOperation(LeafAddMessage))
    {
      r := Fail(UnsupportedOperation(LeafAddMessage));
    }

    /** The inherited remove: a leaf has no children. */
    method Remove(component: Option<Component>) returns (r: Outcome<Exception>)
      ensures r == Fail(UnsupportedOperation(LeafRemoveMessage))
    {
      r := Fail(UnsupportedOperation(LeafRemoveMessage));
    }

    /** The inherited getChild: a leaf has no children. */
    method GetChild(index: int) returns (r: Result<Component, Exception>)
      ensures r == Failure(UnsupportedOperation(LeafGetChildMessage))
    {
      r := Failure(UnsupportedOperation(LeafGetChildMessage));
    }

    /** The inherited find: this file when the name matches, otherwise nothing. */
    method Find(query: string) returns (found: Option<Component>)
      ensures found.Some? <==> name == query
      ensures found.Some? ==> found.value == Value()
    {
      found := if name == query then Some(Value()) else None;
    }
  }

  /** A composite: an ordered list of children that add, remove and clear rewrite. */
  class Directory {
    const name: string
    var children: seq<Component>
    const maxDepth: int

    /** The component a directory holds when this directory is added to it. */
    function Value(): Component
      reads this
    {
      DirectoryNode(this, name, children)
    }

    /** Java's `component == this`. */
    predicate IsSelf(c: Component) {
      c.DirectoryNode? && c.directory == this
    }

    /** Directory(name): no children, and maxDepth Integer.MAX_VALUE. */
    constructor(name: string)
      ensures this.name == name && children == [] && maxDepth == IntegerMax
    {
      this.name := name;
      children := [];
      maxDepth := IntegerMax;
    }

    /** Directory(name, maxDepth). */
    constructor WithMaxDepth(name: string, maxDepth: int)
      ensures this.name == name && children == [] && this.maxDepth == maxDepth
    {
      this.name := name;
      children := [];
      this.maxDepth := maxDepth;
    }

    /** add: null and the directory itself are refused; anything else, even a duplicate, goes last. */
    method Add(component: Option<Component>) returns (r: Outcome<Exception>)
      modifies this
      ensures component.None? ==>
        r == Fail(IllegalArgument("Component cannot be null")) && children == old(children)
      ensures component.Some? && IsSelf(component.value) ==>
        r == Fail(IllegalArgument("Cannot add directory to itself")) && children == old(children)
      ensures component.Some? && !IsSelf(component.value) ==>
        r == Pass && children == old(children) + [component.value]
    {
      if component.None? {
        return Fail(IllegalArgument("Component cannot be null"));
      }
      if component.value.DirectoryNode? && component.value.directory == this {
        return Fail(IllegalArgument("Cannot add directory to itself"));
      }
      children := children + [component.value];
      r := Pass;
    }

    /**
     * remove: drops the first child that is the same object, if any. A null
     * argument is never a child, and naming it in the log message throws.
     */
    method Remove(component: Option<Component>) returns (r: Outcome<Exception>)
      modifies this
      ensures component.None? ==> r == Fail(NullPointer) && children == old(children)
      ensures component.Some? ==> r == Pass
      ensures component.Some? ==>
        var k := FirstSame(old(children), component.value);
        && (k == -1 ==> children == old(children))
        && (0 <= k ==> children == old(children)[..k] + old(children)[k + 1..])
    {
      if component.None? {
        return Fail(NullPointer);
      }
      var k := FirstSame(children, component.value);
      if 0 <= k {
        children := children[..k] + children[k + 1..];
      }
      r := Pass;
    }

    /** getChild: the child at the index, or IndexOutOfBoundsException naming index and size. */
    method GetChild(index: int) returns (r: Result<Component, Exception>)
      ensures 0 <= index < |children| ==> r == Success(children[index])
      ensures !(0 <= index < |children|) ==>
        r == Failure(IndexOutOfBounds("Index: " + IntToString(index) + ", Size: " + IntToString(|children|)))
    {
      if index < 0 || index >= |children| {
        return Failure(IndexOutOfBounds("Index: " + IntToString(index) + ", Size: " + IntToString(|children|)));
      }
      r := Success(children[index]);
    }

    /** getChildren: a copy of the list, which the caller cannot use to change the directory. */
    method GetChildren() returns (copy: seq<Component>)
      ensures copy == children
    {
      copy := children;
    }

    method GetChildCount() returns (n: nat)
      ensures n == |children|
    {
      n := |children|;
    }

    /** isEmpty: exactly when there are no children. */
    method IsEmpty() returns (empty: bool)
      ensures empty <==> |children| == 0
    {
      empty := children == [];
    }

    /** clear: no children are left. */
    method Clear()
      modifies this
      ensures children == []
    {
      children := [];
    }

    method GetSize() returns (total: int)
      ensures total == Size(Value())
    {
      total := SizeAmong(children);
    }

    /** find: this directory when its name matches, otherwise the first hit among the children. */
    method Find(query: string) returns (found: Option<Component>)
      ensures found == Search(Value(), query)
    {
      if name == query {
        return Some(Value());
      }
      found := FindAmong(children, query);
    }

    method GetFileCount(filter: Option<string>) returns (count: nat)
      ensures count == FileCount(Value(), filter)
    {
      count := FileCountAmong(children, filter);
    }

    method GetStats() returns (stats: DirectoryStats)
      ensures fresh(stats)
      ensures stats.totalFiles == FileCount(Value(), None)
      ensures stats.totalDirectories == DirectoriesBelow(Value())
      ensures stats.totalSize == Size(Value())
      ensures stats.maxDepth == Height(Value())
    {
      stats := new DirectoryStats(this);
    }
  }
}

// The composite test fixture built through the File and Directory objects:
// root holds Documents (which holds config.txt) and README.md. Sub-directories
// are filled before they are added, since a directory holds the state a child
// had when it was added.

module FileSystemRuns {
  import opened Wrappers
  import opened Exceptions
  import opened FileSystem
  import opened Text

  /** The shape of the fixture: root holds Documents and README.md, Documents holds config.txt. */
  predicate IsFixture(root: Component, documents: Component, readme: Component, config: Component) {
    && config.FileNode? && config.name == "config.txt" && config.size == 512
    && readme.FileNode? && readme.name == "README.md" && readme.size == 1024
    && documents.DirectoryNode? && documents.name == "Documents" && documents.children == [config]
    && root.DirectoryNode? && root.name == "root" && root.children == [documents, readme]
  }

  /** A new directory with the given children added in order. */
  method DirectoryOf(name: string, children: seq<Component>) returns (d: Directory)
    ensures fresh(d) && d.name == name && d.children == children
  {
    d := new Directory(name);
    for i := 0 to |children|
      invariant d.children == children[..i]
    {
      var added := d.Add(Some(children[i]));
    }
    assert children[..|children|] == children;
  }

  /** root/Documents/config.txt (512 bytes) and root/README.md (1024 bytes). */
  method Fixture() returns (root: Directory, documents: Directory, readme: File, config: File)
    ensures fresh(root) && fresh(documents) && fresh(readme) && fresh(config)
    ensures readme.content == "# Test Project" && config.content == "port=8080"
    ensures IsFixture(root.Value(), documents.Value(), readme.Value(), config.Value())
  {
    readme := new File.WithContent("README.md", 1024, Some("# Test Project"));
    config := new File.WithContent("config.txt", 512, Some("port=8080"));
    documents := DirectoryOf("Documents", [config.Value()]);
    root := DirectoryOf("root", [documents.Value(), readme.Value()]);
  }

  /** The fixture weighs 1536 bytes, 512 of them in Documents. */
  lemma FixtureSizes(root: Component, documents: Component, readme: Component, config: Component)
    requires IsFixture(root, documents, readme, config)
    ensures Size(documents) == 512
    ensures Size(root) == 1536
  {
    assert [config][1..] == [] && [documents, readme][1..] == [readme] && [readme][1..] == [];
    assert SizeOfAll([config]) == 512;
    assert SizeOfAll([readme]) == 1024;
  }

  /** find looks at the root first, then Documents and its file, then README.md. */
  lemma FixtureSearches(root: Component, documents: Component, readme: Component, config: Component)
    requires IsFixture(root, documents, readme, config)
    ensures Search(root, "README.md") == Some(readme)
    ensures Search(root, "config.txt") == Some(config)
    ensures Search(root, "nonexistent.txt") == None
  {
    assert [config][1..] == [] && [documents, readme][1..] == [readme] && [readme][1..] == [];
    assert "Documents" != "README.md" && "Documents" != "config.txt" && "Documents" != "nonexistent.txt";
    assert SearchIn([config], "README.md") == None;
    assert Search(documents, "README.md") == None;
    assert SearchIn([readme], "README.md") == Some(readme);
    assert SearchIn([config], "config.txt") == Some(config);
    assert Search(documents, "config.txt") == Some(config);
    assert SearchIn([config], "nonexistent.txt") == None;
    assert Search(documents, "nonexistent.txt") == None;
    assert SearchIn([readme], "nonexistent.txt") == None;
  }

  /** The message getChild(10) gives on a directory of two children. */
  lemma OutOfBoundsMessage()
    ensures "Index: " + IntToString(10) + ", Size: " + IntToString(2) == "Index: 10, Size: 2"
  {
    assert DigitChar(1) == '1' && DigitChar(0) == '0' && DigitChar(2) == '2';
    assert NatToString(10) == NatToString(1) + [DigitChar(0)];
  }

  /** The sizes add up through the levels, and the children are indexed in insertion order. */
  method SizeRun() returns (rootSize: int, documentsSize: int, count: nat, empty: bool,
                            first: Result<Component, Exception>, beyond: Result<Component, Exception>)
    ensures rootSize == 1536 && documentsSize == 512
    ensures count == 2 && !empty
    ensures first.Success? && first.value.name == "Documents"
    ensures beyond == Failure(IndexOutOfBounds("Index: 10, Size: 2"))
  {
    var root, documents, readme, config := Fixture();
    FixtureSizes(root.Value(), documents.Value(), readme.Value(), config.Value());
    rootSize := root.GetSize();
    documentsSize := documents.GetSize();
    count := root.GetChildCount();
    empty := root.IsEmpty();
    first := root.GetChild(0);
    beyond := root.GetChild(10);
    OutOfBoundsMessage();
  }

  /** find reaches a nested file, and reports a missing name as null. */
  method FindRun() returns (top: Option<Component>, nested: Option<Component>, missing: Option<Component>)
    ensures top.Some? && top.value.name == "README.md"
    ensures nested.Some? && nested.value.name == "config.txt"
    ensures missing.None?
  {
    var root, documents, readme, config := Fixture();
    FixtureSearches(root.Value(), documents.Value(), readme.Value(), config.Value());
    top := root.Find("README.md");
    nested := root.Find("config.txt");
    missing := root.Find("nonexistent.txt");
  }

  /** Adding a file grows the directory by its size; removing it restores both count and size. */
  method AddRemoveRun() returns (countAfterAdd: nat, sizeAfterAdd: int, countAfterRemove: nat, sizeAfterRemove: int)
    ensures countAfterAdd == 2 && sizeAfterAdd == 768
    ensures countAfterRemove == 1 && sizeAfterRemove == 512
  {
    var root, documents, readme, config := Fixture();
    var newFile := new File.WithContent("test.txt", 256, Some("test content"));
    var c, f := config.Value(), newFile.Value();
    FixtureSizes(root.Value(), documents.Value(), readme.Value(), c);
    var r := documents.Add(Some(f));
    countAfterAdd := documents.GetChildCount();
    SizeOfAllAppend([c], [f]);
    assert SizeOfAll([f]) == 256;
    sizeAfterAdd := documents.GetSize();
    AddThenRemoveRestores([c], f);
    r := documents.Remove(Some(newFile.Value()));
    countAfterRemove := documents.GetChildCount();
    sizeAfterRemove := documents.GetSize();
  }

  /** add refuses null and the directory itself, leaving the children as they were. */
  method RefusedAddRun() returns (self: Outcome<Exception>, absent: Outcome<Exception>, count: nat)
    ensures self == Fail(IllegalArgument("Cannot add directory to itself"))
    ensures absent == Fail(IllegalArgument("Component cannot be null"))
    ensures count == 2
  {
    var root, documents, readme, config := Fixture();
    self := root.Add(Some(root.Value()));
    absent := root.Add(None);
    count := root.GetChildCount();
  }

  /** write replaces the content and resizes the file to the new content's length. */
  method ContentRun() returns (content: string, size: int)
    ensures content == "# Updated Project" && size == 17
  {
    var root, documents, readme, config := Fixture();
    readme.Write(Some("# Updated Project"));
    content := readme.Read();
    size := readme.size;
  }

  /** clear empties a directory, whose size is then 0. */
  method ClearRun() returns (empty: bool, count: nat, size: int)
    ensures empty && count == 0 && size == 0
  {
    var root, documents, readme, config := Fixture();
    documents.Clear();
    empty := documents.IsEmpty();
    count := documents.GetChildCount();
    size := documents.GetSize();
  }

  /** The test files' extensions are already in lower case. */
  lemma LowerCaseExtensions()
    ensures ToLower("txt") == "txt" && ToLower("java") == "java"
    ensures ToLower("py") == "py" && ToLower("md") == "md"
  {
    ToLowerChars("txt");
    ToLowerChars("java");
    ToLowerChars("py");
    ToLowerChars("md");
  }

  /** The extensions of the test files' names. */
  lemma TestExtensions()
    ensures Extension("config.txt") == "txt" && Extension("README.md") == "md"
    ensures Extension("Main.java") == "java" && Extension("script.py") == "py"
  {
    var config, readme, main, script := "config.txt", "README.md", "Main.java", "script.py";
    LowerCaseExtensions();
    ExtensionAfterDot(config, 6);
    assert config[7..] == "txt";
    MarkdownExtension();
    ExtensionAfterDot(main, 4);
    assert main[5..] == "java";
    ExtensionAfterDot(script, 6);
    assert script[7..] == "py";
  }

  /** Documents holds config.txt, Main.java and script.py; root holds Documents and README.md. */
  predicate IsCountFixture(root: Component, documents: Component, readme: Component,
                           config: Component, java: Component, python: Component) {
    && IsCountShape(root, documents, readme, config, java, python)
    && config.extension == "txt" && java.extension == "java"
    && python.extension == "py" && readme.extension == "md"
  }

  predicate IsCountShape(root: Component, documents: Component, readme: Component,
                         config: Component, java: Component, python: Component) {
    && config.FileNode? && java.FileNode? && python.FileNode? && readme.FileNode?
    && documents.DirectoryNode? && documents.children == [config, java, python]
    && root.DirectoryNode? && root.children == [documents, readme]
  }

  lemma CountOfPair(a: Component, b: Component, filter: Option<string>)
    ensures FileCountAll([a, b], filter) == FileCount(a, filter) + FileCount(b, filter)
  {
    assert [a, b][0] == a && [a, b][1..] == [b] && [b][1..] == [];
    assert FileCountAll([b], filter) == FileCount(b, filter) + FileCountAll([], filter);
    assert FileCountAll([a, b], filter) == FileCount(a, filter) + FileCountAll([b], filter);
  }

  lemma CountOfTriple(a: Component, b: Component, c: Component, filter: Option<string>)
    ensures FileCountAll([a, b, c], filter) == FileCount(a, filter) + FileCount(b, filter) + FileCount(c, filter)
  {
    assert [a, b, c][1..] == [b, c];
    CountOfPair(b, c, filter);
  }

  /** Each extension is counted once across the levels, and no filter counts all four files. */
  lemma FixtureCounts(root: Component, documents: Component, readme: Component,
                      config: Component, java: Component, python: Component)
    requires IsCountFixture(root, documents, readme, config, java, python)
    ensures FileCount(root, Some("java")) == 1 && FileCount(root, Some("py")) == 1
    ensures FileCount(root, Some("md")) == 1 && FileCount(root, Some("txt")) == 1
    ensures FileCount(root, None) == 4
  {
    LowerCaseExtensions();
    var filters := [Some("java"), Some("py"), Some("md"), Some("txt"), None];
    forall k | 0 <= k < |filters|
      ensures FileCount(root, filters[k]) ==
        FileCount(config, filters[k]) + FileCount(java, filters[k]) + FileCount(python, filters[k])
        + FileCount(readme, filters[k])
    {
      CountOfTriple(config, java, python, filters[k]);
      CountOfPair(documents, readme, filters[k]);
    }
    assert filters[0] == Some("java") && filters[1] == Some("py") && filters[2] == Some("md");
    assert filters[3] == Some("txt") && filters[4] == None;
  }

  /** root/Documents/{config.txt, Main.java, script.py} and root/README.md. */
  method CountFixture() returns (root: Directory, documents: Directory, readme: File,
                                 config: File, java: File, python: File)
    ensures IsCountFixture(root.Value(), documents.Value(), readme.Value(), config.Value(), java.Value(), python.Value())
  {
    readme := new File.WithContent("README.md", 1024, Some("# Test Project"));
    config := new File.WithContent("config.txt", 512, Some("port=8080"));
    java := new File("Main.java", 1024);
    python := new File("script.py", 512);
    documents := DirectoryOf("Documents", [config.Value(), java.Value(), python.Value()]);
    root := DirectoryOf("root", [documents.Value(), readme.Value()]);
    TestExtensions();
  }

  /** getFileCount over a tree whose Documents holds three files of three kinds. */
  method FileCountRun() returns (javaCount: nat, pyCount: nat, mdCount: nat, txtCount: nat, allCount: nat)
    ensures javaCount == 1 && pyCount == 1 && mdCount == 1 && txtCount == 1 && allCount == 4
  {
    var root, documents, readme, config, java, python := CountFixture();
    FixtureCounts(root.Value(), documents.Value(), readme.Value(), config.Value(), java.Value(), python.Value());
    javaCount := root.GetFileCount(Some("java"));
    pyCount := root.GetFileCount(Some("py"));
    mdCount := root.GetFileCount(Some("md"));
    txtCount := root.GetFileCount(Some("txt"));
    allCount := root.GetFileCount(None);
  }

  /** Documents holds config.txt, Main.java and SubDir (holding sub.txt); root holds Documents and README.md. */
  predicate IsStatsFixture(root: Component, documents: Component, readme: Component,
                           config: Component, java: Component, subDir: Component, subFile: Component) {
    && config.FileNode? && config.size == 512
    && java.FileNode? && java.size == 2048
    && subFile.FileNode? && subFile.size == 256
    && readme.FileNode? && readme.size == 1024
    && subDir.DirectoryNode? && subDir.children == [subFile]
    && documents.DirectoryNode? && documents.children == [config, java, subDir]
    && root.DirectoryNode? && root.children == [documents, readme]
  }

  /** Four files of 3840 bytes in all, two directories below the root, two levels deep. */
  lemma FixtureStats(root: Component, documents: Component, readme: Component,
                     config: Component, java: Component, subDir: Component, subFile: Component)
    requires IsStatsFixture(root, documents, readme, config, java, subDir, subFile)
    ensures FileCount(root, None) == 4
    ensures DirectoriesBelow(root) == 2
    ensures Size(root) == 3840
    ensures Height(root) == 2
  {
    var files := [config, java, subDir];
    assert files[1..] == [java, subDir] && files[1..][1..] == [subDir] && [subDir][1..] == [];
    assert [subFile][1..] == [];
    assert [documents, readme][1..] == [readme] && [readme][1..] == [];
    assert HeightAll([subFile]) == 0 && Height(subDir) == 0;
    assert HeightAll([subDir]) == 1 && HeightAll([java, subDir]) == 1 && HeightAll(files) == 1;
    assert HeightAll([readme]) == 0 && Height(documents) == 1;
    assert SizeOfAll([subFile]) == 256 && Size(subDir) == 256;
    assert SizeOfAll([subDir]) == 256;
    assert SizeOfAll([java, subDir]) == 2304;
    assert SizeOfAll(files) == 2816;
    assert Size(documents) == 2816;
    assert [documents, readme][0] == documents;
    assert SizeOfAll([readme]) == 1024;
    assert SizeOfAll([documents, readme]) == 3840;
    assert FileCountAll([subFile], None) == 1 && FileCount(subDir, None) == 1;
    assert FileCountAll([subDir], None) == 1 && FileCountAll([java, subDir], None) == 2;
    assert FileCountAll(files, None) == 3;
    assert FileCountAll([readme], None) == 1;
    assert FileCount(documents, None) == 3;
    assert FileCountAll([documents, readme], None) == 4;
    assert DirectoriesAll([subFile]) == 0 && DirectoriesBelow(subDir) == 0;
    assert DirectoriesAll([subDir]) == 1;
    assert DirectoriesAll([java, subDir]) == 1;
    assert DirectoriesAll(files) == 1;
    assert DirectoriesAll([readme]) == 0;
    assert DirectoriesBelow(documents) == 1;
    assert DirectoriesAll([documents, readme]) == 2;
  }

  /** root/Documents/{config.txt, Main.java, SubDir/sub.txt} and root/README.md. */
  method StatsFixture() returns (root: Directory, documents: Directory, readme: File,
                                 config: File, java: File, subDir: Directory, subFile: File)
    ensures IsStatsFixture(root.Value(), documents.Value(), readme.Value(), config.Value(), java.Value(),
      subDir.Value(), subFile.Value())
  {
    readme := new File.WithContent("README.md", 1024, Some("# Test Project"));
    config := new File.WithContent("config.txt", 512, Some("port=8080"));
    java := new File("Main.java", 2048);
    subFile := new File("sub.txt", 256);
    subDir := DirectoryOf("SubDir", [subFile.Value()]);
    documents := DirectoryOf("Documents", [config.Value(), java.Value(), subDir.Value()]);
    root := DirectoryOf("root", [documents.Value(), readme.Value()]);
  }

  /** getStats over a tree with a directory inside a directory. */
  method StatsRun() returns (stats: DirectoryStats)
    ensures stats.totalFiles == 4 && stats.totalDirectories == 2
    ensures stats.totalSize == 3840 && stats.maxDepth == 2
  {
    var root, documents, readme, config, java, subDir, subFile := StatsFixture();
    FixtureStats(root.Value(), documents.Value(), readme.Value(), config.Value(), java.Value(),
      subDir.Value(), subFile.Value());
    stats := root.GetStats();
  }
}

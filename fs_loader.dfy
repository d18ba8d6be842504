// tmpl/loader/fs.go: templates on the local file system, under a root directory.
module FSLoaders {

  import opened Wrappers
  import opened Errors
  import opened GoStrings
  import opened Paths
  import opened Loaders

  /** What the loader asks of the operating system: os.Stat (whether a path is
      a directory, or the error), the items filepath.Walk visits from a root in
      order, filepath.EvalSymlinks, and os.ReadFile. */
  datatype Disk = Disk(
    stat: string -> Result<bool, Error>,
    walk: string -> seq<WalkItem>,
    evalSymlinks: string -> Result<string, Error>,
    readFile: ReadFile)

  /** filepath.Rel(root, path), which the model does not interpret. */
  type RelPath = (string, string) -> Result<string, Error>

  /** The texts NewFS puts after ErrInvalidRoot's "invalid root path". */
  const RootMissing := ": root directory does not exist"
  const RootInaccessible := ": cannot access root directory: "
  const RootNotDir := ": root path is not a directory"

  /** NewFS's check of the root: nil for a directory, and otherwise an error
      that errors.Is takes for ErrInvalidRoot. */
  function RootError(stat: Result<bool, Error>): (r: Option<Error>)
    ensures r.None? <==> stat == Ok(true)
    ensures r.Some? ==> Is(r.value, InvalidRoot)
    ensures stat.Err? && IsNotExist(stat.error) ==> Message(r.value) == Message(InvalidRoot) + RootMissing
    ensures stat.Err? && !IsNotExist(stat.error) ==>
      Message(r.value) == Message(InvalidRoot) + RootInaccessible + Message(stat.error)
    ensures stat == Ok(false) ==> Message(r.value) == Message(InvalidRoot) + RootNotDir
  {
    if stat.Err? then
      if IsNotExist(stat.error) then Some(Wrapped("", InvalidRoot, RootMissing))
      else Some(Wrapped("", InvalidRoot, RootInaccessible + Message(stat.error)))
    else if !stat.value then Some(Wrapped("", InvalidRoot, RootNotDir))
    else None
  }

  /** The read of `path` once the guard has passed, errors classified for `name`. */
  function ReadAt(path: string, name: string, disk: Disk): Result<string, Error>
  {
    match disk.readFile(path)
    case Ok(content) => Ok(content)
    case Err(e) => Err(ReadError(name, e))
  }

  /** The text Load puts after ErrInvalidPath's "invalid template path". */
  const RelFailed := ": failed to resolve relative path"

  const Traversal := Wrapped("", PathTraversal, ": attempt to read outside root directory")

  /** Read's classification of a failed os.ReadFile. */
  function ReadError(name: string, err: Error): (e: Error)
    ensures IsNotExist(err) ==> e == NotFound(name)
    ensures !IsNotExist(err) ==> Unwrap(e) == Some(err) && Is(e, err)
  {
    if IsNotExist(err) then NotFound(name) else Wrapped("failed to read template " + name + ": ", err, "")
  }

  /** The intended containment of a read: the cleaned join of the root and the
      name, when its elements are the root's followed by elements that never
      climb; nothing otherwise. */
  function Contained(root: string, name: string): (p: Option<PathForm>)
    ensures p.Some? ==>
      p.value.rooted == Parse(root).rooted
      && exists rest :: p.value.elems == Parse(root).elems + rest && NoDotDot(rest)
  {
    var r := Parse(root);
    var elems := Normalize(r.rooted, r.elems, Split(name));
    if |r.elems| <= |elems| && elems[..|r.elems|] == r.elems && NoDotDot(elems[|r.elems|..]) then
      assert elems == r.elems + elems[|r.elems|..];
      Some(PathForm(r.rooted, elems))
    else None
  }

  class FSLoader {
    const base: BaseLoader

    constructor (c: LoaderConfig)
      ensures base == NewBase(c, false)
      ensures Extension() == c.extension
    {
      base := NewBase(c, false);
    }

    /** The callback Load gives filepath.Walk. */
    function Visit(item: WalkItem, disk: Disk, rel: RelPath): (v: Loaders.Visit)
      ensures item.WalkError? ==> v == Stop(item.err)
      ensures item.Entry? && (item.isDir || !HasValidExtension(base, item.path)) ==> v == Skip
      ensures v.Add? ==>
        item.Entry? && !item.isDir && HasValidExtension(base, item.path)
        && rel(base.root, item.path).Ok? && v.name == ToSlash(rel(base.root, item.path).value, Separator)
      ensures (item.Entry? && !item.isDir && HasValidExtension(base, item.path) && item.isSymlink
               && disk.evalSymlinks(item.path).Ok?
               && !HasPrefix(Clean(disk.evalSymlinks(item.path).value), Clean(base.root))) ==>
        v.Stop? && Is(v.err, PathTraversal)
      ensures (item.Entry? && !item.isDir && HasValidExtension(base, item.path)
               && (item.isSymlink ==>
                     disk.evalSymlinks(item.path).Ok?
                     && HasPrefix(Clean(disk.evalSymlinks(item.path).value), Clean(base.root)))
               && rel(base.root, item.path).Ok?) ==>
        v == Add(ToSlash(rel(base.root, item.path).value, Separator))
      ensures (item.Entry? && !item.isDir && HasValidExtension(base, item.path) && item.isSymlink
               && disk.evalSymlinks(item.path).Err?) ==>
        v == Stop(disk.evalSymlinks(item.path).error)
      ensures (item.Entry? && !item.isDir && HasValidExtension(base, item.path)
               && (item.isSymlink ==>
                     disk.evalSymlinks(item.path).Ok?
                     && HasPrefix(Clean(disk.evalSymlinks(item.path).value), Clean(base.root)))
               && rel(base.root, item.path).Err?) ==>
        v.Stop? && Is(v.err, InvalidPath)
        && Message(v.err) == Message(InvalidPath) + RelFailed
    {
      match item
      case WalkError(_, e) => Stop(e)
      case Entry(path, isDir, isSymlink) =>
        if isDir then Skip
        else if !HasValidExtension(base, path) then Skip
        else if isSymlink && disk.evalSymlinks(path).Err? then Stop(disk.evalSymlinks(path).error)
        else if isSymlink && !HasPrefix(Clean(disk.evalSymlinks(path).value), Clean(base.root)) then
          Stop(Wrapped("", PathTraversal, ": symlink points outside root directory"))
        else
          match rel(base.root, path)
          case Err(_) => Stop(Wrapped("", InvalidPath, RelFailed))
          case Ok(r) => Add(ToSlash(r, Separator))
    }

    /** What Load returns. */
    function LoadResult(disk: Disk, rel: RelPath): Result<seq<string>, Error>
    {
      match Collect(item => Visit(item, disk, rel), disk.walk(base.root))
      case Err(e) => Err(Wrapped("failed to walk directory: ", e, ""))
      case Ok(ns) => Ok(ns)
    }

    method Load(pattern: string, disk: Disk, rel: RelPath) returns (r: Result<seq<string>, Error>)
      ensures r == LoadResult(disk, rel)
    {
      var templates := Walk(item => Visit(item, disk, rel), disk.walk(base.root));
      if templates.Err? {
        return Err(Wrapped("failed to walk directory: ", templates.error, ""));
      }
      r := templates;
    }

    /** Read as written: the joined and cleaned path must start with the root
        string as configured, which is not cleaned. */
    function Read(name: string, disk: Disk): (r: Result<string, Error>)
      ensures var path := Clean(JoinPath(base.root, name));
        && (r.Ok? <==> HasPrefix(path, base.root) && disk.readFile(path).Ok?)
        && (r.Ok? ==> r.value == disk.readFile(path).value)
        && (!HasPrefix(path, base.root) ==> r == Err(Traversal) && Is(r.error, PathTraversal))
        && (HasPrefix(path, base.root) && disk.readFile(path).Err? ==>
              r == Err(ReadError(name, disk.readFile(path).error)))
    {
      var path := Clean(JoinPath(base.root, name));
      if !HasPrefix(path, base.root) then Err(Traversal) else ReadAt(path, name, disk)
    }

    /** Read with the containment check it evidently intends: on the cleaned
        root's path elements rather than on the raw root string. */
    function ReadContained(name: string, disk: Disk): (r: Result<string, Error>)
      ensures r.Ok? ==>
        Contained(base.root, name).Some? && r == disk.readFile(Render(Contained(base.root, name).value))
      ensures Contained(base.root, name).None? ==> r == Err(Traversal) && Is(r.error, PathTraversal)
    {
      match Contained(base.root, name)
      case None => Err(Traversal)
      case Some(p) => ReadAt(Render(p), name, disk)
    }

    function Extension(): string
    {
      base.extension
    }
  }

  /** NewFS: a loader for a root that is a directory, and ErrInvalidRoot otherwise. */
  method NewFS(c: LoaderConfig, disk: Disk) returns (l: FSLoader?, err: Option<Error>)
    ensures err == RootError(disk.stat(c.root))
    ensures err.None? ==> l != null && fresh(l) && l.base == NewBase(c, false)
    ensures err.Some? ==> l == null
  {
    var info := disk.stat(c.root);
    if info.Err? {
      if IsNotExist(info.error) {
        return null, Some(Wrapped("", InvalidRoot, RootMissing));
      }
      return null, Some(Wrapped("", InvalidRoot, RootInaccessible + Message(info.error)));
    }
    if !info.value {
      return null, Some(Wrapped("", InvalidRoot, RootNotDir));
    }
    l := new FSLoader(c);
    err := None;
  }

  /** `item` is a template file whose path relative to the root is `n`. */
  predicate FromEntry(l: FSLoader, item: WalkItem, rel: RelPath, n: string)
  {
    item.Entry? && !item.isDir && HasValidExtension(l.base, item.path) && rel(l.base.root, item.path) == Ok(n)
  }

  /** Load lists only non-directory entries that pass the extension filter,
      each as its path relative to the root with forward slashes. */
  lemma LoadOnlyTemplates(l: FSLoader, disk: Disk, rel: RelPath, n: string)
    requires l.LoadResult(disk, rel).Ok? && n in l.LoadResult(disk, rel).value
    ensures exists j :: 0 <= j < |disk.walk(l.base.root)| && FromEntry(l, disk.walk(l.base.root)[j], rel, n)
  {
    var visit := item => l.Visit(item, disk, rel);
    var items := disk.walk(l.base.root);
    CollectOutcome(visit, items);
    AddedFrom(visit, items, n);
    var j :| 0 <= j < |items| && visit(items[j]) == Add(n);
    ToSlashOnSlashSystem(rel(l.base.root, items[j].path).value);
  }

  /** Conversely, a successful Load lists every template file the walk visits
      (a symlink among them when its cleaned target starts with the cleaned
      root string) as its path relative to the root. */
  lemma LoadListsTemplates(l: FSLoader, disk: Disk, rel: RelPath, j: nat)
    requires l.LoadResult(disk, rel).Ok?
    requires j < |disk.walk(l.base.root)|
    requires var item := disk.walk(l.base.root)[j];
      && item.Entry? && !item.isDir && HasValidExtension(l.base, item.path)
      && (item.isSymlink ==>
            disk.evalSymlinks(item.path).Ok?
            && HasPrefix(Clean(disk.evalSymlinks(item.path).value), Clean(l.base.root)))
    ensures rel(l.base.root, disk.walk(l.base.root)[j].path).Ok?
    ensures rel(l.base.root, disk.walk(l.base.root)[j].path).value in l.LoadResult(disk, rel).value
  {
    var visit := item => l.Visit(item, disk, rel);
    var items := disk.walk(l.base.root);
    CollectOutcome(visit, items);
    assert !visit(items[j]).Stop?;
    var n := rel(l.base.root, items[j].path).value;
    ToSlashOnSlashSystem(n);
    assert visit(items[j]) == Add(n);
    AddedHas(visit, items, j);
  }

  /** A template symlink that cannot be resolved (a dangling link) makes Load
      fail, with the resolution error itself when nothing before it failed. */
  lemma BrokenSymlinkFails(l: FSLoader, disk: Disk, rel: RelPath, j: nat)
    requires j < |disk.walk(l.base.root)|
    requires var item := disk.walk(l.base.root)[j];
      && item.Entry? && !item.isDir && item.isSymlink && HasValidExtension(l.base, item.path)
      && disk.evalSymlinks(item.path).Err?
    ensures l.LoadResult(disk, rel).Err?
    ensures (forall i :: 0 <= i < j ==> !l.Visit(disk.walk(l.base.root)[i], disk, rel).Stop?) ==>
      l.LoadResult(disk, rel).error
        == Wrapped("failed to walk directory: ", disk.evalSymlinks(disk.walk(l.base.root)[j].path).error, "")
  {
    var visit := item => l.Visit(item, disk, rel);
    var items := disk.walk(l.base.root);
    CollectOutcome(visit, items);
    assert visit(items[j]).Stop?;
    if forall i :: 0 <= i < j ==> !visit(items[i]).Stop? {
      var k :| 0 <= k < |items| && visit(items[k]) == Stop(Collect(visit, items).error)
        && forall i :: 0 <= i < k ==> !visit(items[i]).Stop?;
      assert k == j;
    }
  }

  /** Any walk error, wherever it comes, makes Load fail. */
  lemma WalkErrorFails(l: FSLoader, disk: Disk, rel: RelPath, j: nat)
    requires j < |disk.walk(l.base.root)| && disk.walk(l.base.root)[j].WalkError?
    ensures l.LoadResult(disk, rel).Err?
  {
    var visit := item => l.Visit(item, disk, rel);
    CollectOutcome(visit, disk.walk(l.base.root));
    assert visit(disk.walk(l.base.root)[j]).Stop?;
  }

  /** A template symlink whose cleaned target does not start with the cleaned
      root string makes Load fail, with ErrPathTraversal when nothing before
      it failed. */
  lemma SymlinkOutsideFails(l: FSLoader, disk: Disk, rel: RelPath, j: nat)
    requires j < |disk.walk(l.base.root)|
    requires var item := disk.walk(l.base.root)[j];
      && item.Entry? && !item.isDir && item.isSymlink && HasValidExtension(l.base, item.path)
      && disk.evalSymlinks(item.path).Ok?
      && !HasPrefix(Clean(disk.evalSymlinks(item.path).value), Clean(l.base.root))
    ensures l.LoadResult(disk, rel).Err?
    ensures (forall i :: 0 <= i < j ==> !l.Visit(disk.walk(l.base.root)[i], disk, rel).Stop?) ==>
      Is(l.LoadResult(disk, rel).error, PathTraversal)
  {
    var visit := item => l.Visit(item, disk, rel);
    var items := disk.walk(l.base.root);
    CollectOutcome(visit, items);
    assert visit(items[j]).Stop?;
    if forall i :: 0 <= i < j ==> !visit(items[i]).Stop? {
      var k :| 0 <= k < |items| && visit(items[k]) == Stop(Collect(visit, items).error)
        && forall i :: 0 <= i < k ==> !visit(items[i]).Stop?;
      assert k == j;
    }
  }

  /** Load's symlink guard is the same string-prefix test as Read's: under the
      root "/dir/sub", a template symlink whose target "/dir/subX/file" lies in
      a sibling directory is listed all the same. */
  lemma SymlinkSiblingListed(l: FSLoader, disk: Disk, rel: RelPath, item: WalkItem,
                             dir: string, sub: string, more: string, file: string)
    requires Word(dir) && Word(sub) && Word(sub + more) && Word(file) && more != ""
    requires l.base.root == "/" + dir + "/" + sub
    requires item.Entry? && !item.isDir && item.isSymlink && HasValidExtension(l.base, item.path)
    requires disk.evalSymlinks(item.path) == Ok("/" + dir + "/" + (sub + more) + "/" + file)
    requires rel(l.base.root, item.path).Ok?
    ensures l.Visit(item, disk, rel) == Add(rel(l.base.root, item.path).value)
  {
    var target := "/" + dir + "/" + (sub + more) + "/" + file;
    assert Join([dir, sub], "/") == dir + "/" + sub by {
      assert [dir, sub][1..] == [sub];
    }
    CleanRootedWords([dir, sub]);
    assert Join([dir, sub + more, file], "/") == dir + "/" + (sub + more) + "/" + file by {
      assert [dir, sub + more, file][1..] == [sub + more, file];
      assert [sub + more, file][1..] == [file];
    }
    CleanRootedWords([dir, sub + more, file]);
    assert "/" + Join([dir, sub], "/") == l.base.root;
    assert Clean(l.base.root) == l.base.root;
    assert "/" + Join([dir, sub + more, file], "/") == target;
    assert Clean(target) == target;
    assert target == l.base.root + (more + "/" + file);
    assert target[..|l.base.root|] == l.base.root;
    ToSlashOnSlashSystem(rel(l.base.root, item.path).value);
  }

  lemma SiblingSplit(dir: string, sub: string, sm: string, file: string)
    requires Word(dir) && Word(sub) && Word(sm) && Word(file)
    ensures Split("" + "/" + (dir + "/" + (sub + "/" + (".." + "/" + (sm + "/" + file)))))
         == ["", dir, sub, "..", sm, file]
  {
    SplitWord(dir); SplitWord(sub); SplitWord(".."); SplitWord(sm); SplitWord(file);
    SplitAppend(sm, file);
    SplitAppend("..", sm + "/" + file);
    SplitAppend(sub, ".." + "/" + (sm + "/" + file));
    SplitAppend(dir, sub + "/" + (".." + "/" + (sm + "/" + file)));
    SplitAppend("", dir + "/" + (sub + "/" + (".." + "/" + (sm + "/" + file))));
    assert Split("") == [""];
  }

  /** The elements of "/dir/sub/../sm/file": the ".." cancels "sub". */
  lemma SiblingParse(dir: string, sub: string, sm: string, file: string)
    requires Word(dir) && Word(sub) && Word(sm) && Word(file)
    ensures Parse("/" + dir + "/" + sub + "/" + ("../" + sm + "/" + file)) == PathForm(true, [dir, sm, file])
  {
    var s := "/" + dir + "/" + sub + "/" + ("../" + sm + "/" + file);
    assert s == "" + "/" + (dir + "/" + (sub + "/" + (".." + "/" + (sm + "/" + file))));
    SiblingSplit(dir, sub, sm, file);
    assert ["", dir, sub, "..", sm, file][1..] == [dir, sub, "..", sm, file];
    assert [dir, sub, "..", sm, file][1..] == [sub, "..", sm, file];
    assert [sub, "..", sm, file][1..] == ["..", sm, file];
    assert ["..", sm, file][1..] == [sm, file];
    assert [sm, file][1..] == [file];
    assert [file][1..] == [];
    assert Normalize(true, [dir, sm], [file]) == [dir, sm, file];
    assert Push(true, [dir], sm) == [dir, sm];
    assert Normalize(true, [dir], [sm, file]) == [dir, sm, file];
    assert [dir, sub][..1] == [dir];
    assert Normalize(true, [dir, sub], ["..", sm, file]) == [dir, sm, file];
    assert Push(true, [dir], sub) == [dir, sub];
    assert Normalize(true, [dir], [sub, "..", sm, file]) == [dir, sm, file];
    assert Push(true, [], dir) == [dir];
    assert Normalize(true, [], [dir, sub, "..", sm, file]) == [dir, sm, file];
    assert s[0] == '/';
  }

  /** The intended check refuses "../sm/file" under "/dir/sub" when sm is not sub. */
  lemma SiblingRefused(dir: string, sub: string, sm: string, file: string)
    requires Word(dir) && Word(sub) && Word(sm) && Word(file) && sm != sub
    ensures Contained("/" + dir + "/" + sub, "../" + sm + "/" + file).None?
  {
    var root := "/" + dir + "/" + sub;
    var name := "../" + sm + "/" + file;
    SplitWord(dir); SplitWord(sub); SplitWord(".."); SplitWord(sm); SplitWord(file);
    SplitAppend("", dir + "/" + sub);
    SplitAppend(dir, sub);
    assert root == "" + "/" + (dir + "/" + sub);
    assert Split("") == [""];
    assert Split(root) == ["", dir, sub];
    assert ["", dir, sub][1..] == [dir, sub] && [dir, sub][1..] == [sub] && [sub][1..] == [];
    assert Push(true, [], dir) == [dir];
    assert Push(true, [dir], sub) == [dir, sub];
    assert Normalize(true, [dir], [sub]) == [dir, sub];
    assert Normalize(true, [], [dir, sub]) == [dir, sub];
    assert Parse(root) == PathForm(true, [dir, sub]);
    SplitAppend(sm, file);
    SplitAppend("..", sm + "/" + file);
    assert name == ".." + "/" + (sm + "/" + file);
    assert Split(name) == ["..", sm, file];
    assert ["..", sm, file][1..] == [sm, file] && [sm, file][1..] == [file] && [file][1..] == [];
    assert [dir, sub][..1] == [dir];
    assert Push(true, [dir], sm) == [dir, sm];
    assert Normalize(true, [dir, sm], [file]) == [dir, sm, file];
    assert Normalize(true, [dir], [sm, file]) == [dir, sm, file];
    assert Normalize(true, [dir, sub], ["..", sm, file]) == [dir, sm, file];
    assert [dir, sm, file][..2] != [dir, sub] by {
      assert [dir, sm, file][..2][1] == sm;
    }
  }

  /** The guard as written lets a name climb out of the root into a sibling
      directory whose name extends the root's last element: with root
      "/srv/tpl", "../tpl2/x.html" reads "/srv/tpl2/x.html". The intended
      check refuses it. */
  lemma SiblingEscape(l: FSLoader, disk: Disk, dir: string, sub: string, more: string, file: string)
    requires Word(dir) && Word(sub) && Word(sub + more) && Word(file) && more != ""
    requires l.base.root == "/" + dir + "/" + sub
    ensures var name := "../" + (sub + more) + "/" + file;
      && l.Read(name, disk) == ReadAt("/" + dir + "/" + (sub + more) + "/" + file, name, disk)
      && Contained(l.base.root, name).None?
  {
    var root := l.base.root;
    var sm := sub + more;
    var name := "../" + sm + "/" + file;
    SiblingParse(dir, sub, sm, file);
    var outside := "/" + dir + "/" + sm + "/" + file;
    assert Join([dir, sm, file], "/") == dir + "/" + sm + "/" + file by {
      assert [dir, sm, file][1..] == [sm, file];
      assert [sm, file][1..] == [file];
    }
    CleanRootedWords([dir, sm, file]);
    assert JoinPath(root, name) == outside;
    assert Clean(JoinPath(root, name)) == outside;
    assert outside == root + (more + "/" + file);
    assert HasPrefix(outside, root);
    SiblingRefused(dir, sub, sm, file);
  }

  /** The guard as written refuses every plain name not starting with '.' under
      the root ".", because cleaning drops the leading "./" that the prefix
      test looks for. */
  lemma DotRootRefusesAll(l: FSLoader, disk: Disk, w: string)
    requires l.base.root == "." && Word(w) && w[0] != '.'
    ensures l.Read(w, disk) == Err(Traversal)
    ensures Contained(l.base.root, w).Some?
  {
    var s := "." + "/" + w;
    SplitWord("."); SplitWord(w);
    SplitAppend(".", w);
    assert Split(s) == [".", w];
    assert Normalize(false, [], [".", w]) == [w] by {
      assert [".", w][1..] == [w] && [w][1..] == [];
      assert Normalize(false, [], [w]) == [w];
    }
    assert Parse(s) == PathForm(false, [w]);
    assert Join([w], "/") == w;
    CleanRelativeWords([w]);
    assert Clean(JoinPath(".", w)) == w;
    assert !HasPrefix(w, ".");
    assert Parse(".") == PathForm(false, []) by {
      assert Split(".") == ["."];
      assert Normalize(false, [], ["."]) == [] by {
        assert ["."][1..] == [];
      }
    }
    assert Normalize(false, [], Split(w)) == [w] by {
      assert [w][1..] == [];
    }
  }

  /** Under the root "." the guard as written lets a name climb out of the
      root: "../w" cleans to "../w", which starts with "." and is read, while
      the intended check refuses it. */
  lemma DotRootAdmitsClimb(l: FSLoader, disk: Disk, w: string)
    requires l.base.root == "." && Word(w)
    ensures l.Read("../" + w, disk) == ReadAt("../" + w, "../" + w, disk)
    ensures Contained(l.base.root, "../" + w).None?
  {
    var name := "../" + w;
    SplitWord("."); SplitWord(".."); SplitWord(w);
    SplitAppend("..", w);
    assert name == ".." + "/" + w;
    assert Split(name) == ["..", w];
    SplitAppend(".", name);
    assert Split("." + "/" + name) == [".", "..", w];
    assert Normalize(false, [], [".", "..", w]) == ["..", w] by {
      assert [".", "..", w][1..] == ["..", w] && ["..", w][1..] == [w] && [w][1..] == [];
      assert Push(false, [], "..") == [".."];
      assert Push(false, [".."], w) == ["..", w];
      assert Normalize(false, [".."], [w]) == ["..", w];
      assert Normalize(false, [], ["..", w]) == ["..", w];
    }
    assert Parse("." + "/" + name) == PathForm(false, ["..", w]);
    assert Join(["..", w], "/") == name by {
      assert ["..", w][1..] == [w];
    }
    assert Clean(JoinPath(".", name)) == name;
    assert HasPrefix(name, ".");
    assert Parse(".") == PathForm(false, []) by {
      assert Normalize(false, [], ["."]) == [] by {
        assert ["."][1..] == [];
      }
    }
    assert Normalize(false, [], Split(name)) == ["..", w] by {
      assert ["..", w][1..] == [w] && [w][1..] == [];
      assert Normalize(false, [".."], [w]) == ["..", w];
    }
  }

  /** The intended check never refuses a name without "..": it resolves to the
      root's elements followed by the name's. */
  lemma ContainedAccepts(root: string, name: string)
    requires NoDotDot(Split(name))
    ensures Contained(root, name) == Some(PathForm(Parse(root).rooted, Parse(root).elems + Kept(Split(name))))
  {
    var r := Parse(root);
    NormalizeNoDotDot(r.rooted, r.elems, Split(name));
    var elems := r.elems + Kept(Split(name));
    assert elems[..|r.elems|] == r.elems && elems[|r.elems|..] == Kept(Split(name));
  }

  /** What the intended check admits is the file filepath.Join names. */
  lemma ContainedIsJoin(root: string, name: string)
    requires root != "" && Contained(root, name).Some?
    ensures Render(Contained(root, name).value) == JoinPath(root, name)
  {
    var r := Parse(root);
    SplitAppend(root, name);
    NormalizeAppend(r.rooted, [], Split(root), Split(name));
    assert (root + "/" + name)[0] == root[0];
  }
}

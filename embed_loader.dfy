// tmpl/loader/embed.go: templates in an embedded, read-only file system.
module EmbedLoaders {

  import opened Wrappers
  import opened Errors
  import opened GoStrings
  import opened Paths
  import opened Loaders

  /** The embedded file system: the items fs.WalkDir visits from a root, in
      order, and ReadFile. */
  datatype EmbedFS = EmbedFS(walk: string -> seq<WalkItem>, readFile: ReadFile)

  /** The name Load reports for a walked path, as written: the root, then one
      '/', cut off the front. */
  function NameAsWritten(root: string, path: string): (n: string)
    ensures HasPrefix(path, root) && HasPrefix(TrimPrefix(path, root), "/") ==> path == root + "/" + n
    ensures !HasPrefix(path, root) ==> n == TrimPrefix(path, "/")
    ensures HasPrefix(path, root) && !HasPrefix(TrimPrefix(path, root), "/") ==> n == TrimPrefix(path, root)
  {
    TrimPrefix(TrimPrefix(path, root), "/")
  }

  /** The name it evidently intends: the path relative to the root, where fs.WalkDir
      gives the paths under "." without any "./" in front. */
  function RelativeName(root: string, path: string): (n: string)
    ensures root == "." ==> n == path
    ensures root != "." ==> n == NameAsWritten(root, path)
  {
    if root == "." then path else NameAsWritten(root, path)
  }

  /** Read's classification of a failed ReadFile. */
  function ReadError(name: string, err: Error): (e: Error)
    ensures Is(err, NotExist) ==> e == NotFound(name)
    ensures !Is(err, NotExist) ==> Unwrap(e) == Some(err) && Is(e, err)
  {
    if Is(err, NotExist) then NotFound(name)
    else Wrapped("failed to read embedded template " + name + ": ", err, "")
  }

  class EmbedLoader {
    const base: BaseLoader
    const fsys: EmbedFS

    /** NewEmbed: the configuration with '/' as separator, and the file system. */
    constructor NewEmbed(fsys: EmbedFS, c: LoaderConfig)
      ensures base == NewBase(c, true) && this.fsys == fsys
      ensures Extension() == c.extension
    {
      base := NewBase(c, true);
      this.fsys := fsys;
    }

    /** The callback Load gives fs.WalkDir, naming files with `name`. */
    function Visit(item: WalkItem, name: (string, string) -> string): (v: Loaders.Visit)
      ensures item.WalkError? <==> v.Stop?
      ensures v.Stop? ==> v.err == item.err
      ensures v.Add? <==> item.Entry? && !item.isDir && HasValidExtension(base, item.path)
      ensures v.Add? ==> v.name == name(base.root, item.path)
    {
      match item
      case WalkError(_, e) => Stop(e)
      case Entry(path, isDir, _) =>
        if isDir then Skip
        else if !HasValidExtension(base, path) then Skip
        else Add(name(base.root, path))
    }

    /** What Load returns when files are named with `name`. */
    function LoadWith(name: (string, string) -> string): Result<seq<string>, Error>
    {
      match Collect(item => Visit(item, name), fsys.walk(base.root))
      case Err(e) => Err(Wrapped("failed to walk embedded filesystem: ", e, ""))
      case Ok(ns) => Ok(ns)
    }

    /** Load as written. */
    method Load(pattern: string) returns (r: Result<seq<string>, Error>)
      ensures r == LoadWith(NameAsWritten)
    {
      var templates := Walk(item => Visit(item, NameAsWritten), fsys.walk(base.root));
      if templates.Err? {
        return Err(Wrapped("failed to walk embedded filesystem: ", templates.error, ""));
      }
      r := templates;
    }

    /** Load with names relative to the root also under ".". */
    method LoadRelative(pattern: string) returns (r: Result<seq<string>, Error>)
      ensures r == LoadWith(RelativeName)
    {
      var templates := Walk(item => Visit(item, RelativeName), fsys.walk(base.root));
      if templates.Err? {
        return Err(Wrapped("failed to walk embedded filesystem: ", templates.error, ""));
      }
      r := templates;
    }

    /** The path Read asks the file system for. */
    function ReadPath(name: string): (p: string)
      ensures base.root != "" ==> p == Clean(base.root + "/" + ToSlash(name, Separator))
      ensures base.root == "" ==> p == (if name == "" then "" else Clean(ToSlash(name, Separator)))
    {
      JoinPath(base.root, ToSlash(name, Separator))
    }

    function Read(name: string): (r: Result<string, Error>)
      ensures fsys.readFile(ReadPath(name)).Ok? ==> r == fsys.readFile(ReadPath(name))
      ensures fsys.readFile(ReadPath(name)).Err? ==>
        r == Err(ReadError(ToSlash(name, Separator), fsys.readFile(ReadPath(name)).error))
    {
      var n := ToSlash(name, Separator);
      match fsys.readFile(JoinPath(base.root, n))
      case Ok(content) => Ok(content)
      case Err(e) => Err(ReadError(n, e))
    }

    function Extension(): string
    {
      base.extension
    }
  }

  /** Load fails exactly when the walk reports an error, with the first one
      wrapped; otherwise it lists the files that pass the extension filter, in
      walk order, named by `name`. */
  lemma LoadOutcome(l: EmbedLoader, name: (string, string) -> string)
    ensures var items := l.fsys.walk(l.base.root);
      (l.LoadWith(name).Err? <==> exists j :: 0 <= j < |items| && items[j].WalkError?)
      && (l.LoadWith(name).Ok? ==> l.LoadWith(name).value == Added(item => l.Visit(item, name), items))
  {
    var visit := item => l.Visit(item, name);
    var items := l.fsys.walk(l.base.root);
    CollectOutcome(visit, items);
    if exists j :: 0 <= j < |items| && items[j].WalkError? {
      var j :| 0 <= j < |items| && items[j].WalkError?;
      assert visit(items[j]).Stop?;
    }
  }

  /** Every name Load lists is that of a walked file with the extension. */
  lemma LoadOnlyTemplates(l: EmbedLoader, name: (string, string) -> string, n: string)
    requires l.LoadWith(name).Ok? && n in l.LoadWith(name).value
    ensures exists j :: 0 <= j < |l.fsys.walk(l.base.root)| && FromFile(l, l.fsys.walk(l.base.root)[j], name, n)
  {
    var visit := item => l.Visit(item, name);
    var items := l.fsys.walk(l.base.root);
    CollectOutcome(visit, items);
    AddedFrom(visit, items, n);
  }

  /** `item` is a file with the extension that `name` calls `n`. */
  predicate FromFile(l: EmbedLoader, item: WalkItem, name: (string, string) -> string, n: string)
  {
    item.Entry? && !item.isDir && HasValidExtension(l.base, item.path) && n == name(l.base.root, item.path)
  }

  /** Under a root "templates", a walked "templates/users/index.html" is listed
      as "users/index.html", by either naming. */
  lemma NameUnderRoot(root: string, rest: string)
    requires root != "" && root != "." && rest != ""
    ensures NameAsWritten(root, root + "/" + rest) == rest
    ensures RelativeName(root, root + "/" + rest) == rest
  {
    var p := root + "/" + rest;
    assert p[..|root|] == root;
    assert TrimPrefix(p, root) == "/" + rest by {
      assert p == root + ("/" + rest);
    }
    assert ("/" + rest)[..1] == "/";
    assert TrimPrefix("/" + rest, "/") == rest;
  }

  /** Load, then Read: under a root of plain path elements, a walked file below
      it is listed under a name for which Read asks the file system for exactly
      the walked path. */
  lemma LoadThenRead(l: EmbedLoader, rs: seq<string>, ws: seq<string>)
    requires rs != [] && forall i :: 0 <= i < |rs| ==> Word(rs[i])
    requires ws != [] && forall i :: 0 <= i < |ws| ==> Word(ws[i])
    requires l.base.root == Join(rs, "/")
    ensures var path := Join(rs, "/") + "/" + Join(ws, "/");
      && NameAsWritten(l.base.root, path) == Join(ws, "/")
      && l.ReadPath(NameAsWritten(l.base.root, path)) == path
  {
    var root := Join(rs, "/");
    var rest := Join(ws, "/");
    WordsRoot(rs);
    JoinStart(ws);
    NameUnderRoot(root, rest);
    ToSlashOnSlashSystem(rest);
    JoinWordsClean(rs, ws);
  }

  /** A relative path of words is neither empty nor ".". */
  lemma WordsRoot(rs: seq<string>)
    requires rs != [] && forall i :: 0 <= i < |rs| ==> Word(rs[i])
    ensures Join(rs, "/") != "" && Join(rs, "/") != "."
  {
    CleanRelativeWords(rs);
    JoinStart(rs);
    assert Normalize(false, [], ["."]) == [];
    assert Parse(".") == PathForm(false, []);
  }

  /** Two paths of words joined by '/' are already clean. */
  lemma JoinWordsClean(rs: seq<string>, ws: seq<string>)
    requires rs != [] && forall i :: 0 <= i < |rs| ==> Word(rs[i])
    requires ws != [] && forall i :: 0 <= i < |ws| ==> Word(ws[i])
    ensures Clean(Join(rs, "/") + "/" + Join(ws, "/")) == Join(rs, "/") + "/" + Join(ws, "/")
  {
    JoinAppend(rs, ws, "/");
    assert forall i :: 0 <= i < |rs + ws| ==> Word((rs + ws)[i]);
    CleanRelativeWords(rs + ws);
  }

  /** Under the root ".", a walked dot file ".w" is listed as written as "w",
      and Read then asks for "w" instead of ".w". */
  lemma DotFileRenamed(w: string)
    requires Word(w) && Word("." + w)
    ensures NameAsWritten(".", "." + w) == w
    ensures JoinPath(".", NameAsWritten(".", "." + w)) == w != "." + w
  {
    assert ("." + w)[..1] == ".";
    assert TrimPrefix("." + w, ".") == w;
    assert w[0] != '/' && !HasPrefix(w, "/");
    DotJoin(w);
  }

  /** The intended name under ".": the walked path itself, which Read finds again. */
  lemma DotFileKept(w: string)
    requires Word(w)
    ensures RelativeName(".", w) == w
    ensures JoinPath(".", RelativeName(".", w)) == w
  {
    DotJoin(w);
  }

  lemma DotJoin(w: string)
    requires Word(w)
    ensures JoinPath(".", w) == w
  {
    var s := "." + "/" + w;
    SplitWord("."); SplitWord(w);
    SplitAppend(".", w);
    assert Split(s) == [".", w];
    assert [".", w][1..] == [w] && [w][1..] == [];
    assert Normalize(false, [], [w]) == [w];
    assert Normalize(false, [], [".", w]) == [w];
    assert Parse(s) == PathForm(false, [w]);
    assert Join([w], "/") == w;
  }

  /** Read has no containment check of its own: "../w" under a one-word root
      names "w", beside the root, and the file system is asked for that. */
  lemma ReadLeavesRoot(l: EmbedLoader, w: string)
    requires Word(l.base.root) && Word(w)
    ensures l.ReadPath("../" + w) == w
  {
    var r := l.base.root;
    ToSlashOnSlashSystem("../" + w);
    var s := r + "/" + ("../" + w);
    assert s == r + "/" + (".." + "/" + w);
    SplitWord(r); SplitWord(".."); SplitWord(w);
    SplitAppend("..", w);
    SplitAppend(r, ".." + "/" + w);
    assert Split(s) == [r, "..", w];
    assert [r, "..", w][1..] == ["..", w] && ["..", w][1..] == [w] && [w][1..] == [];
    assert Normalize(false, [], [w]) == [w];
    assert Push(false, [r], "..") == [];
    assert Normalize(false, [r], ["..", w]) == [w];
    assert Push(false, [], r) == [r];
    assert Normalize(false, [], [r, "..", w]) == [w];
    assert r[0] != '/';
    assert Parse(s) == PathForm(false, [w]);
    assert Join([w], "/") == w;
  }
}

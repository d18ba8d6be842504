// tmpl/loader/loader.go and what the loaders share: the configuration, the
// base record, the extension filter, the Loader interface as a value, and the
// directory walks of filepath.Walk and fs.WalkDir that drive a callback which
// appends to the loader's result.
module Loaders {

  import opened Wrappers
  import opened Errors
  import opened GoStrings

  /** The system's path separator: the model is of a system that uses '/'. */
  const Separator: char := '/'

  /** tmpl.LoaderConfig */
  datatype LoaderConfig = LoaderConfig(root: string, extension: string)

  /** baseLoader */
  datatype BaseLoader = BaseLoader(root: string, extension: string, separator: string)

  /** newBase: root and extension as configured; '/' for embedded file systems
      and the system's separator otherwise. */
  function NewBase(c: LoaderConfig, forEmbed: bool): (b: BaseLoader)
    ensures b.root == c.root && b.extension == c.extension
    ensures forEmbed ==> b.separator == "/"
    ensures !forEmbed ==> b.separator == [Separator]
  {
    var separator := if forEmbed then "/" else [Separator];
    BaseLoader(c.root, c.extension, separator)
  }

  /** hasValidExtension */
  predicate HasValidExtension(b: BaseLoader, path: string)
  {
    if b.extension == "" then true else HasSuffix(path, b.extension)
  }

  /** No extension admits every path; otherwise a path is admitted exactly when
      it is something followed by the extension. */
  lemma ExtensionFilter(b: BaseLoader, path: string)
    ensures b.extension == "" ==> HasValidExtension(b, path)
    ensures b.extension != "" ==> (HasValidExtension(b, path) <==> exists head :: path == head + b.extension)
  {
    HasSuffixMeansEndsWith(path, b.extension);
  }

  /** The error a loader returns for a missing template: "template not found: name". */
  function NotFound(name: string): (e: Error)
    ensures Is(e, TemplateNotFound)
    ensures Message(e) == "template not found: " + name
  {
    Wrapped("", TemplateNotFound, ": " + name)
  }

  /** Reading one file: its content, or the error of the read. */
  type ReadFile = string -> Result<string, Error>

  /** A tmpl.Loader as a value: what its Load returns for a pattern, what its
      Read returns for a name, and its extension. */
  datatype Child = Child(load: string -> Result<seq<string>, Error>, read: ReadFile, extension: string)

  /** One call of a walk: an entry (its path, whether it is a directory, and
      whether it is a symbolic link as Lstat sees it), or an error the walk
      passes to the callback (a root that cannot be read, for instance). */
  datatype WalkItem =
    | Entry(path: string, isDir: bool, isSymlink: bool)
    | WalkError(path: string, err: Error)

  /** What the callback does with one walk item: nothing, append a name, or
      return an error, which ends the walk with that error. */
  datatype Visit = Skip | Add(name: string) | Stop(err: Error)

  /** A walk over `items` with the callback `visit`: the appended names, or the
      first error a callback returned. */
  function Collect(visit: WalkItem -> Visit, items: seq<WalkItem>): Result<seq<string>, Error>
  {
    if items == [] then Ok([])
    else
      match visit(items[0])
      case Stop(e) => Err(e)
      case Skip => Collect(visit, items[1..])
      case Add(n) =>
        var rest := Collect(visit, items[1..]);
        if rest.Err? then rest else Ok([n] + rest.value)
  }

  /** The names the callback appends, in walk order. */
  function Added(visit: WalkItem -> Visit, items: seq<WalkItem>): seq<string>
  {
    if items == [] then []
    else (if visit(items[0]).Add? then [visit(items[0]).name] else []) + Added(visit, items[1..])
  }

  /** Every appended name comes from an item the callback added it for. */
  lemma {:induction false} AddedFrom(visit: WalkItem -> Visit, items: seq<WalkItem>, n: string)
    requires n in Added(visit, items)
    ensures exists j :: 0 <= j < |items| && visit(items[j]) == Add(n)
  {
    if !(visit(items[0]).Add? && visit(items[0]).name == n) {
      AddedFrom(visit, items[1..], n);
      var j :| 0 <= j < |items[1..]| && visit(items[1..][j]) == Add(n);
      assert items[j + 1] == items[1..][j];
    }
  }

  /** Every name the callback adds is among the appended names. */
  lemma {:induction false} AddedHas(visit: WalkItem -> Visit, items: seq<WalkItem>, j: nat)
    requires j < |items| && visit(items[j]).Add?
    ensures visit(items[j]).name in Added(visit, items)
  {
    if j > 0 {
      assert items[j] == items[1..][j - 1];
      AddedHas(visit, items[1..], j - 1);
    }
  }

  /** A walk fails exactly when some callback returns an error, and then with
      the first such error; otherwise it yields every appended name in order. */
  lemma {:induction false} CollectOutcome(visit: WalkItem -> Visit, items: seq<WalkItem>)
    ensures Collect(visit, items).Err? <==> exists j :: 0 <= j < |items| && visit(items[j]).Stop?
    ensures Collect(visit, items).Err? ==>
      exists j :: 0 <= j < |items| && visit(items[j]) == Stop(Collect(visit, items).error)
        && forall i :: 0 <= i < j ==> !visit(items[i]).Stop?
    ensures Collect(visit, items).Ok? ==> Collect(visit, items).value == Added(visit, items)
  {
    if items != [] {
      CollectOutcome(visit, items[1..]);
      if visit(items[0]).Stop? {
        assert visit(items[0]) == Stop(Collect(visit, items).error);
      } else {
        var r := Collect(visit, items[1..]);
        if r.Err? {
          var j :| 0 <= j < |items[1..]| && visit(items[1..][j]) == Stop(r.error)
            && forall i :: 0 <= i < j ==> !visit(items[1..][i]).Stop?;
          assert visit(items[j + 1]) == Stop(r.error);
          assert forall i :: 0 <= i < j + 1 ==> !visit(items[i]).Stop? by {
            forall i | 0 <= i < j + 1 ensures !visit(items[i]).Stop? {
              if i > 0 {
                assert items[i] == items[1..][i - 1];
              }
            }
          }
        } else {
          forall j | 0 <= j < |items| ensures !visit(items[j]).Stop? {
            if j > 0 {
              assert items[j] == items[1..][j - 1];
            }
          }
        }
      }
    }
  }

  /** filepath.Walk and fs.WalkDir with a callback that appends to a list:
      the callback runs on each item in turn until one returns an error. */
  method Walk(visit: WalkItem -> Visit, items: seq<WalkItem>) returns (r: Result<seq<string>, Error>)
    ensures r == Collect(visit, items)
  {
    var templates: seq<string> := [];
    var i := 0;
    assert items[0..] == items;
    assert Extend([], Collect(visit, items)) == Collect(visit, items) by {
      if Collect(visit, items).Ok? {
        assert [] + Collect(visit, items).value == Collect(visit, items).value;
      }
    }
    while i < |items|
      invariant 0 <= i <= |items|
      invariant Collect(visit, items) == Extend(templates, Collect(visit, items[i..]))
    {
      assert items[i..][1..] == items[i + 1..];
      var v := visit(items[i]);
      assert items[i..][0] == items[i];
      if v.Stop? {
        assert Collect(visit, items[i..]) == Err(v.err);
        return Err(v.err);
      }
      if v.Add? {
        ExtendAppend(templates, v.name, Collect(visit, items[i + 1..]));
        templates := templates + [v.name];
      }
      i := i + 1;
    }
    assert items[i..] == [];
    assert templates + [] == templates;
    r := Ok(templates);
  }

  /** A walk result with `names` appended before it. */
  function Extend(names: seq<string>, r: Result<seq<string>, Error>): Result<seq<string>, Error>
  {
    if r.Err? then r else Ok(names + r.value)
  }

  lemma ExtendAppend(names: seq<string>, n: string, r: Result<seq<string>, Error>)
    ensures Extend(names, if r.Err? then r else Ok([n] + r.value)) == Extend(names + [n], r)
  {
    if r.Ok? {
      assert names + ([n] + r.value) == (names + [n]) + r.value;
    }
  }
}

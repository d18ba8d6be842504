// tmpl/loader/composite.go: several loaders behind one. Load merges their
// names, first seen first, without repeats; Read asks each in turn.
module CompositeLoaders {

  import opened Wrappers
  import opened Errors
  import opened GoStrings
  import opened Loaders

  function Elems(xs: seq<string>): set<string>
  {
    set x | x in xs
  }

  /** The names of `xs` not in `seen`, each at its first occurrence. */
  function Dedup(seen: set<string>, xs: seq<string>): seq<string>
    decreases xs
  {
    if xs == [] then []
    else if xs[0] in seen then Dedup(seen, xs[1..])
    else [xs[0]] + Dedup(seen + {xs[0]}, xs[1..])
  }

  /** Every child's names, concatenated in child order, or the first child error. */
  function AllNames(loaders: seq<Child>, pattern: string): Result<seq<string>, Error>
  {
    if loaders == [] then Ok([])
    else
      match loaders[0].load(pattern)
      case Err(e) => Err(e)
      case Ok(ns) =>
        var rest := AllNames(loaders[1..], pattern);
        if rest.Err? then rest else Ok(ns + rest.value)
  }

  /** What CompositeLoader.Load returns. */
  function LoadResult(loaders: seq<Child>, pattern: string): Result<seq<string>, Error>
  {
    match AllNames(loaders, pattern)
    case Err(e) => Err(Wrapped("composite load error: ", e, ""))
    case Ok(ns) => Ok(Dedup({}, ns))
  }

  /** The content of the first child whose Read succeeds. */
  function FirstRead(loaders: seq<Child>, name: string): Option<string>
  {
    if loaders == [] then None
    else if loaders[0].read(name).Ok? then Some(loaders[0].read(name).value)
    else FirstRead(loaders[1..], name)
  }

  /** The error Read returns once every child has failed and `lastErr` is the
      last child's error (nil with no children): ErrTemplateNotFound itself
      wrapped when errors.Is finds it, and otherwise a "composite read error". */
  function Classify(lastErr: Option<Error>, name: string): (e: Error)
    ensures IsSome(lastErr, TemplateNotFound) ==>
      Is(e, TemplateNotFound) && Message(e) == "template not found in any loader: " + name
    ensures !IsSome(lastErr, TemplateNotFound) ==> !Is(e, TemplateNotFound)
    ensures lastErr.Some? && !Is(lastErr.value, TemplateNotFound) ==> Unwrap(e) == lastErr
  {
    if IsSome(lastErr, TemplateNotFound) then Wrapped("", TemplateNotFound, " in any loader: " + name)
    else if lastErr.None? then Plain("composite read error: %!w(<nil>)")
    else Wrapped("composite read error: ", lastErr.value, "")
  }

  /** The error of the last child's Read, if it failed (nil with no children). */
  function LastError(loaders: seq<Child>, name: string): Option<Error>
  {
    if loaders == [] || loaders[|loaders| - 1].read(name).Ok? then None
    else Some(loaders[|loaders| - 1].read(name).error)
  }

  /** What CompositeLoader.Read returns. */
  function ReadResult(loaders: seq<Child>, name: string): Result<string, Error>
  {
    match FirstRead(loaders, name)
    case Some(c) => Ok(c)
    case None =>
      Err(Classify(LastError(loaders, name), name))
  }

  class CompositeLoader {
    const base: BaseLoader
    const loaders: seq<Child>

    constructor NewComposite(loaders: seq<Child>, config: LoaderConfig)
      ensures base == NewBase(config, false) && this.loaders == loaders
      ensures Extension() == config.extension
    {
      base := NewBase(config, false);
      this.loaders := loaders;
    }

    method Load(pattern: string) returns (r: Result<seq<string>, Error>)
      ensures r == LoadResult(loaders, pattern)
    {
      var seen: set<string> := {};
      var templates: seq<string> := [];
      var i := 0;
      assert loaders[0..] == loaders;
      assert MergedAll(loaders, pattern) == LoadResult(loaders, pattern) by {
        if AllNames(loaders, pattern).Ok? {
          assert [] + Dedup({}, AllNames(loaders, pattern).value) == Dedup({}, AllNames(loaders, pattern).value);
        }
      }
      while i < |loaders|
        invariant 0 <= i <= |loaders|
        invariant Merged(templates, seen, AllNames(loaders[i..], pattern)) == MergedAll(loaders, pattern)
      {
        assert loaders[i..][1..] == loaders[i + 1..];
        var names := loaders[i].load(pattern);
        assert loaders[i..][0] == loaders[i];
        if names.Err? {
          return Err(Wrapped("composite load error: ", names.error, ""));
        }
        ghost var t0, s0 := templates, seen;
        var j := 0;
        while j < |names.value|
          invariant 0 <= j <= |names.value|
          invariant templates == t0 + Dedup(s0, names.value[..j])
          invariant seen == s0 + Elems(names.value[..j])
        {
          var name := names.value[j];
          DedupSnoc(s0, names.value[..j], name);
          assert names.value[..j + 1] == names.value[..j] + [name];
          if name !in seen {
            seen := seen + {name};
            templates := templates + [name];
          }
          j := j + 1;
        }
        assert names.value[..j] == names.value;
        MergedStep(t0, s0, names.value, AllNames(loaders[i + 1..], pattern));
        i := i + 1;
      }
      assert loaders[i..] == [];
      assert templates + Dedup(seen, []) == templates;
      r := Ok(templates);
    }

    method Read(name: string) returns (r: Result<string, Error>)
      ensures r == ReadResult(loaders, name)
    {
      var lastErr: Option<Error> := None;
      var i := 0;
      while i < |loaders|
        invariant 0 <= i <= |loaders|
        invariant FirstRead(loaders, name) == FirstRead(loaders[i..], name)
        invariant lastErr == LastError(loaders[..i], name)
      {
        assert loaders[i..][1..] == loaders[i + 1..];
        var content := loaders[i].read(name);
        if content.Ok? {
          return Ok(content.value);
        }
        lastErr := Some(content.error);
        assert loaders[..i + 1][i] == loaders[i];
        i := i + 1;
      }
      assert loaders[i..] == [] && loaders[..i] == loaders;
      if lastErr.Some? && Is(lastErr.value, TemplateNotFound) {
        return Err(Wrapped("", TemplateNotFound, " in any loader: " + name));
      }
      if lastErr.None? {
        return Err(Plain("composite read error: %!w(<nil>)"));
      }
      return Err(Wrapped("composite read error: ", lastErr.value, ""));
    }

    function Extension(): string
    {
      base.extension
    }
  }

  /** A loop state (names so far, names seen) followed by the rest of the children's names. */
  function Merged(templates: seq<string>, seen: set<string>, rest: Result<seq<string>, Error>): Result<seq<string>, Error>
  {
    match rest
    case Err(e) => Err(Wrapped("composite load error: ", e, ""))
    case Ok(ns) => Ok(templates + Dedup(seen, ns))
  }

  function MergedAll(loaders: seq<Child>, pattern: string): Result<seq<string>, Error>
  {
    Merged([], {}, AllNames(loaders, pattern))
  }

  lemma MergedStep(t0: seq<string>, s0: set<string>, ns: seq<string>, rest: Result<seq<string>, Error>)
    ensures Merged(t0, s0, if rest.Err? then rest else Ok(ns + rest.value))
         == Merged(t0 + Dedup(s0, ns), s0 + Elems(ns), rest)
  {
    if rest.Ok? {
      DedupAppend(s0, ns, rest.value);
      assert t0 + Dedup(s0, ns + rest.value) == (t0 + Dedup(s0, ns)) + Dedup(s0 + Elems(ns), rest.value);
    }
  }

  lemma {:induction false} DedupAppend(seen: set<string>, a: seq<string>, b: seq<string>)
    ensures Dedup(seen, a + b) == Dedup(seen, a) + Dedup(seen + Elems(a), b)
    decreases a
  {
    if a == [] {
      assert a + b == b;
      assert Elems(a) == {};
      assert seen + {} == seen;
    } else {
      assert (a + b)[0] == a[0] && (a + b)[1..] == a[1..] + b;
      assert Elems(a) == {a[0]} + Elems(a[1..]);
      if a[0] in seen {
        DedupAppend(seen, a[1..], b);
        assert seen + Elems(a) == seen + Elems(a[1..]);
      } else {
        DedupAppend(seen + {a[0]}, a[1..], b);
        assert seen + Elems(a) == seen + {a[0]} + Elems(a[1..]);
      }
    }
  }

  lemma DedupSnoc(seen: set<string>, xs: seq<string>, x: string)
    ensures Dedup(seen, xs + [x]) == Dedup(seen, xs) + (if x in seen + Elems(xs) then [] else [x])
    ensures seen + Elems(xs + [x]) == seen + Elems(xs) + {x}
  {
    DedupAppend(seen, xs, [x]);
    assert [x][1..] == [];
    assert Elems(xs + [x]) == Elems(xs) + {x};
  }

  /** Dedup keeps exactly the unseen names, each once. */
  lemma {:induction false} DedupFacts(seen: set<string>, xs: seq<string>)
    ensures NoDup(Dedup(seen, xs))
    ensures forall x :: x in Dedup(seen, xs) <==> x in xs && x !in seen
    decreases xs
  {
    if xs != [] {
      if xs[0] in seen {
        DedupFacts(seen, xs[1..]);
      } else {
        DedupFacts(seen + {xs[0]}, xs[1..]);
        var rest := Dedup(seen + {xs[0]}, xs[1..]);
        assert forall k :: 0 <= k < |rest| ==> rest[k] != xs[0];
        assert forall x :: x in xs <==> x == xs[0] || x in xs[1..];
      }
    }
  }

  /** The names of the children when each loads successfully, in child order. */
  lemma {:induction false} AllNamesOk(loaders: seq<Child>, pattern: string)
    requires forall i :: 0 <= i < |loaders| ==> loaders[i].load(pattern).Ok?
    ensures AllNames(loaders, pattern).Ok?
    ensures forall x :: x in AllNames(loaders, pattern).value <==>
      exists i :: 0 <= i < |loaders| && x in loaders[i].load(pattern).value
  {
    if loaders != [] {
      AllNamesOk(loaders[1..], pattern);
      forall x | x in AllNames(loaders, pattern).value
        ensures exists i :: 0 <= i < |loaders| && x in loaders[i].load(pattern).value
      {
        if x !in loaders[0].load(pattern).value {
          var i :| 0 <= i < |loaders[1..]| && x in loaders[1..][i].load(pattern).value;
          assert loaders[i + 1] == loaders[1..][i];
        }
      }
      forall x | exists i :: 0 <= i < |loaders| && x in loaders[i].load(pattern).value
        ensures x in AllNames(loaders, pattern).value
      {
        var i :| 0 <= i < |loaders| && x in loaders[i].load(pattern).value;
        if i > 0 {
          assert loaders[1..][i - 1] == loaders[i];
        }
      }
    }
  }

  /** Successful children give exactly the union of their names, each once. */
  lemma LoadUnion(loaders: seq<Child>, pattern: string)
    requires forall i :: 0 <= i < |loaders| ==> loaders[i].load(pattern).Ok?
    ensures LoadResult(loaders, pattern).Ok?
    ensures NoDup(LoadResult(loaders, pattern).value)
    ensures forall x :: x in LoadResult(loaders, pattern).value <==>
      exists i :: 0 <= i < |loaders| && x in loaders[i].load(pattern).value
  {
    AllNamesOk(loaders, pattern);
    DedupFacts({}, AllNames(loaders, pattern).value);
  }

  /** First seen first: the merged names of a list of children are those of
      its first part followed by the names of the rest not already listed. */
  lemma {:induction false} LoadOrder(a: seq<Child>, b: seq<Child>, pattern: string)
    requires AllNames(a, pattern).Ok? && AllNames(b, pattern).Ok?
    ensures AllNames(a + b, pattern) == Ok(AllNames(a, pattern).value + AllNames(b, pattern).value)
    ensures LoadResult(a + b, pattern).value
         == LoadResult(a, pattern).value + Dedup(Elems(AllNames(a, pattern).value), AllNames(b, pattern).value)
  {
    AllNamesAppend(a, b, pattern);
    DedupAppend({}, AllNames(a, pattern).value, AllNames(b, pattern).value);
    assert {} + Elems(AllNames(a, pattern).value) == Elems(AllNames(a, pattern).value);
  }

  lemma {:induction false} AllNamesAppend(a: seq<Child>, b: seq<Child>, pattern: string)
    requires AllNames(a, pattern).Ok? && AllNames(b, pattern).Ok?
    ensures AllNames(a + b, pattern) == Ok(AllNames(a, pattern).value + AllNames(b, pattern).value)
  {
    if a == [] {
      assert a + b == b;
      assert [] + AllNames(b, pattern).value == AllNames(b, pattern).value;
    } else {
      assert (a + b)[0] == a[0] && (a + b)[1..] == a[1..] + b;
      AllNamesAppend(a[1..], b, pattern);
      var ns := a[0].load(pattern).value;
      assert ns + (AllNames(a[1..], pattern).value + AllNames(b, pattern).value)
          == (ns + AllNames(a[1..], pattern).value) + AllNames(b, pattern).value;
    }
  }

  /** A child's Load error aborts the merge: no names, and the error wrapped. */
  lemma LoadFailure(loaders: seq<Child>, pattern: string, k: nat)
    requires k < |loaders| && loaders[k].load(pattern).Err?
    requires forall i :: 0 <= i < k ==> loaders[i].load(pattern).Ok?
    ensures LoadResult(loaders, pattern) == Err(Wrapped("composite load error: ", loaders[k].load(pattern).error, ""))
    ensures Is(LoadResult(loaders, pattern).error, loaders[k].load(pattern).error)
  {
    FirstLoadError(loaders, pattern, k);
  }

  lemma {:induction false} FirstLoadError(loaders: seq<Child>, pattern: string, k: nat)
    requires k < |loaders| && loaders[k].load(pattern).Err?
    requires forall i :: 0 <= i < k ==> loaders[i].load(pattern).Ok?
    ensures AllNames(loaders, pattern) == Err(loaders[k].load(pattern).error)
  {
    if k > 0 {
      assert loaders[0].load(pattern).Ok?;
      assert loaders[1..][k - 1] == loaders[k];
      FirstLoadError(loaders[1..], pattern, k - 1);
    }
  }

  /** No children: no names and no error. */
  lemma NoChildren(pattern: string, name: string)
    ensures LoadResult([], pattern) == Ok([])
    ensures ReadResult([], name).Err? && !Is(ReadResult([], name).error, TemplateNotFound)
  {
  }

  /** Read returns the content of the first child that has the template. */
  lemma {:induction false} ReadFirstSuccess(loaders: seq<Child>, name: string, k: nat)
    requires k < |loaders| && loaders[k].read(name).Ok?
    requires forall i :: 0 <= i < k ==> loaders[i].read(name).Err?
    ensures ReadResult(loaders, name) == Ok(loaders[k].read(name).value)
  {
    FirstReadAt(loaders, name, k);
  }

  lemma {:induction false} FirstReadAt(loaders: seq<Child>, name: string, k: nat)
    requires k < |loaders| && loaders[k].read(name).Ok?
    requires forall i :: 0 <= i < k ==> loaders[i].read(name).Err?
    ensures FirstRead(loaders, name) == Some(loaders[k].read(name).value)
  {
    if k > 0 {
      assert loaders[0].read(name).Err?;
      assert loaders[1..][k - 1] == loaders[k];
      FirstReadAt(loaders[1..], name, k - 1);
    }
  }

  lemma {:induction false} NoneRead(loaders: seq<Child>, name: string)
    requires forall i :: 0 <= i < |loaders| ==> loaders[i].read(name).Err?
    ensures FirstRead(loaders, name).None?
  {
    if loaders != [] {
      assert loaders[0].read(name).Err?;
      NoneRead(loaders[1..], name);
    }
  }

  /** Every child fails: ErrTemplateNotFound when the last child's error is one,
      and otherwise an error errors.Is does not take for ErrTemplateNotFound. */
  lemma ReadAllFail(loaders: seq<Child>, name: string)
    requires loaders != []
    requires forall i :: 0 <= i < |loaders| ==> loaders[i].read(name).Err?
    ensures ReadResult(loaders, name).Err?
    ensures var last := loaders[|loaders| - 1].read(name).error;
      Is(ReadResult(loaders, name).error, TemplateNotFound) <==> Is(last, TemplateNotFound)
  {
    NoneRead(loaders, name);
  }
}

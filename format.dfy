// format.go: the formatting record shared by every renderer, its accessors,
// and the formatter combinators, each of which updates one field.
module Formatting {

  import opened Values

  datatype FormatOptions = FormatOptions(
    prefix: string,       // added at the start of each line
    lineEnding: string,   // "" means the renderer's default
    indent: string,       // one indentation level
    pretty: bool,         // human-readable output
    args: seq<Value>)     // Printf-style arguments
  {
    /** Clone: a copy of every field; `args` is a value here, so mutating the
        copy's arguments can never reach the original's. */
    function Clone(): (c: FormatOptions)
      ensures c == this
    {
      FormatOptions(prefix, lineEnding, indent, pretty, args)
    }

    function Indent(): string { indent }

    /** The line ending, with "\n" standing in for an unset field. */
    function LineEnding(): (r: string)
      ensures r != ""
      ensures lineEnding != "" ==> r == lineEnding
      ensures lineEnding == "" ==> r == "\n"
    {
      if lineEnding == "" then "\n" else lineEnding
    }

    function Prefix(): string { prefix }

    function Pretty(): bool { pretty }
  }

  /** The zero FormatOptions, which Reset installs. */
  const Empty := FormatOptions("", "", "", false, [])

  /** A `func(*FormatOptions)`: the built-in combinators, or any other function
      of the record supplied by a caller. */
  datatype Formatter =
    | SetArgs(args: seq<Value>)
    | SetPrefix(prefix: string)
    | SetPretty
    | SetIndent(indent: string)
    | SetLineEnding(ending: string)
    | CustomFormatter(f: FormatOptions -> FormatOptions)
  {
    /** What calling the formatter on `&o` leaves in `o`. */
    function ApplyTo(o: FormatOptions): FormatOptions
    {
      match this
      case SetArgs(a) => o.(args := a)
      case SetPrefix(p) => o.(prefix := p)
      case SetPretty => o.(pretty := true)
      case SetIndent(i) => o.(indent := i)
      case SetLineEnding(e) => o.(lineEnding := e)
      case CustomFormatter(f) => f(o)
    }
  }

  function Args(args: seq<Value>): Formatter { SetArgs(args) }

  function Comment(marker: string): Formatter { Prefix(marker + " ") }

  function Pretty(): Formatter { SetPretty }

  function Indent(indent: string): Formatter { SetIndent(indent) }

  function LineEnding(ending: string): Formatter { SetLineEnding(ending) }

  function Prefix(prefix: string): Formatter { SetPrefix(prefix) }

  /** The formatters applied to `o` in order, as the loop of `Format` does. */
  function ApplyAll(fs: seq<Formatter>, o: FormatOptions): FormatOptions
  {
    if fs == [] then o else ApplyAll(fs[1..], fs[0].ApplyTo(o))
  }

  lemma ApplyAllOne(f: Formatter, o: FormatOptions)
    ensures ApplyAll([f], o) == f.ApplyTo(o)
  {
    assert [f][1..] == [];
  }

  /** Applying `fs` then `gs` is applying `fs + gs`. */
  lemma {:induction false} ApplyAllAppend(fs: seq<Formatter>, gs: seq<Formatter>, o: FormatOptions)
    ensures ApplyAll(fs + gs, o) == ApplyAll(gs, ApplyAll(fs, o))
  {
    if fs == [] {
      assert fs + gs == gs;
    } else {
      assert (fs + gs)[1..] == fs[1..] + gs;
      ApplyAllAppend(fs[1..], gs, fs[0].ApplyTo(o));
    }
  }

  /** Each built-in combinator writes its own field and no other. */
  lemma CombinatorsTouchOneField(o: FormatOptions, m: string, s: string, a: seq<Value>)
    ensures Comment(m).ApplyTo(o) == o.(prefix := m + " ")
    ensures Pretty().ApplyTo(o) == o.(pretty := true)
    ensures Pretty().ApplyTo(o).indent == o.indent
    ensures Indent(s).ApplyTo(o) == o.(indent := s)
    ensures Prefix(s).ApplyTo(o) == o.(prefix := s)
    ensures LineEnding(s).ApplyTo(o) == o.(lineEnding := s)
    ensures Args(a).ApplyTo(o) == o.(args := a)
  {
  }

  /** Formatters that are not an indentation setter and are built in. */
  predicate KeepsIndent(f: Formatter) {
    !f.SetIndent? && !f.CustomFormatter?
  }

  /** The last write wins: after an `Indent(i)` that no later built-in formatter
      overrides, the indentation is `i` whatever came before. */
  lemma {:induction false} LastIndentWins(fs: seq<Formatter>, i: string, gs: seq<Formatter>, o: FormatOptions)
    requires forall k :: 0 <= k < |gs| ==> KeepsIndent(gs[k])
    ensures ApplyAll(fs + [Indent(i)] + gs, o).indent == i
  {
    ApplyAllAppend(fs + [Indent(i)], gs, o);
    ApplyAllAppend(fs, [Indent(i)], o);
    KeepsIndentAll(gs, ApplyAll(fs + [Indent(i)], o));
  }

  lemma {:induction false} KeepsIndentAll(gs: seq<Formatter>, o: FormatOptions)
    requires forall k :: 0 <= k < |gs| ==> KeepsIndent(gs[k])
    ensures ApplyAll(gs, o).indent == o.indent
  {
    if gs != [] {
      KeepsIndentAll(gs[1..], gs[0].ApplyTo(o));
    }
  }
}

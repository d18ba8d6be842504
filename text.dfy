// text.go: the plain-text renderer.
module TextRender {

  import opened Wrappers
  import opened Errors
  import opened Values
  import opened Formatting
  import opened Options
  import opened Render

  /** fmt.Sprintf(format, args...), which the model does not interpret. */
  type Sprintf = (string, seq<Value>) -> string

  /** The text chosen by the type switch, in its order: a string is a format for
      the options' arguments, then a Stringer's String(), then an error's
      Error(), and otherwise the %v form. */
  function TextOf(data: Value, args: seq<Value>, sprintf: Sprintf): string
  {
    match data
    case Str(s) => sprintf(s, args)
    case Records(rows) => RecordsText(rows)
    case Other(stringer, errorText, formatted) =>
      if stringer.Some? then stringer.value
      else if errorText.Some? then errorText.value
      else formatted
  }

  /** What the renderer writes: the text, and a newline in pretty mode. */
  function TextOutput(f: FormatOptions, data: Value, sprintf: Sprintf): string
  {
    TextOf(data, f.args, sprintf) + (if f.pretty then "\n" else "")
  }

  class TextRenderer {

    /** Text() */
    constructor ()
    {
    }

    method RenderContext(ctx: Token, w: Writer, data: Value, opts: seq<Opt>, sprintf: Sprintf,
                         ghost refs: set<OptionsRef>, ghost sinks: set<ResponseWriter>)
      returns (err: Option<Error>)
      requires RefsAll([MimeTextPlain()] + opts) <= refs && SinksAll([MimeTextPlain()] + opts) <= sinks
      requires SafeAll(Defaults, [MimeTextPlain()] + opts)
      modifies w, RefsAll([MimeTextPlain()] + opts), SinksAll([MimeTextPlain()] + opts)
      ensures Done(ctx, 0).Some? ==>
        err == Done(ctx, 0) && w.writes == old(w.writes)
        && Captures(refs) == old(Captures(refs)) && Responses(sinks) == old(Responses(sinks))
      ensures Done(ctx, 0).None? ==>
        var r := Resolve(MimeTextPlain(), opts, old(Captures(refs)), old(Responses(sinks)));
        && Captures(refs) == r.captured && Responses(sinks) == r.responses
        && w.writes == old(w.writes) + [TextOutput(r.options.format, data, sprintf)]
        && err == old(w.Next())
    {
      err := CheckContext(Poll(ctx, 0));
      if err.Some? {
        return;
      }
      var options := Prepare(MimeTextPlain(), opts, refs, sinks);
      assert options.format == Resolve(MimeTextPlain(), opts, old(Captures(refs)), old(Responses(sinks))).options.format;
      err := Emit(w, data, options.format, sprintf);
    }

    /** The type switch and the write, once the options are resolved to `f`. */
    method Emit(w: Writer, data: Value, f: FormatOptions, sprintf: Sprintf) returns (err: Option<Error>)
      modifies w
      ensures w.writes == old(w.writes) + [TextOutput(f, data, sprintf)] && err == old(w.Next())
    {
      var text: string;
      match data {
        case Str(s) => text := sprintf(s, f.args);
        case Records(rows) => text := RecordsText(rows);
        case Other(stringer, errorText, formatted) =>
          if stringer.Some? {
            text := stringer.value;
          } else if errorText.Some? {
            text := errorText.value;
          } else {
            text := formatted;
          }
      }
      if f.pretty {
        text := text + "\n";
      }
      assert text == TextOutput(f, data, sprintf);
      err := w.Write(text);
    }

    /** Render: RenderContext with context.Background(). */
    method Render(w: Writer, data: Value, opts: seq<Opt>, sprintf: Sprintf,
                  ghost refs: set<OptionsRef>, ghost sinks: set<ResponseWriter>)
      returns (err: Option<Error>)
      requires RefsAll([MimeTextPlain()] + opts) <= refs && SinksAll([MimeTextPlain()] + opts) <= sinks
      requires SafeAll(Defaults, [MimeTextPlain()] + opts)
      modifies w, RefsAll([MimeTextPlain()] + opts), SinksAll([MimeTextPlain()] + opts)
      ensures var r := Resolve(MimeTextPlain(), opts, old(Captures(refs)), old(Responses(sinks)));
        && Captures(refs) == r.captured && Responses(sinks) == r.responses
        && w.writes == old(w.writes) + [TextOutput(r.options.format, data, sprintf)]
        && err == old(w.Next())
    {
      err := RenderContext([], w, data, opts, sprintf, refs, sinks);
    }
  }

  /** Pretty mode adds exactly "\n", even when the line ending is "\r\n":
      Format(Pretty()) with UseCRLF() writes the text and one newline. */
  lemma PrettyAddsNewline(data: Value, sprintf: Sprintf, captured: map<OptionsRef, Option<OptionsState>>,
                          responses: map<ResponseWriter, HeaderOptions>)
    ensures var f := Resolve(MimeTextPlain(), [Format([Pretty()]), UseCRLF()], captured, responses).options.format;
      && f.LineEnding() == "\r\n"
      && TextOutput(f, data, sprintf) == TextOf(data, [], sprintf) + "\n"
  {
    var w0 := World(Defaults, captured, responses);
    var os := [MimeTextPlain(), Format([Pretty()]), UseCRLF()];
    assert [MimeTextPlain()] + [Format([Pretty()]), UseCRLF()] == os;
    FoldOptions(w0, os);
    var s1 := StateStep(Defaults, MimeTextPlain());
    var s2 := StateStep(s1, Format([Pretty()]));
    var s3 := StateStep(s2, UseCRLF());
    assert os[1..] == [Format([Pretty()]), UseCRLF()] && os[1..][1..] == [UseCRLF()] && os[1..][1..][1..] == [];
    assert StateFold(Defaults, os) == s3;
    ApplyAllOne(Pretty(), s1.format);
    UseCRLFSetsLineEnding(s2);
  }

  /** Textf(a...) makes a string datum a format for exactly the arguments a. */
  lemma TextfArguments(s: string, a: seq<Value>, sprintf: Sprintf, captured: map<OptionsRef, Option<OptionsState>>,
                       responses: map<ResponseWriter, HeaderOptions>)
    ensures var f := Resolve(MimeTextPlain(), [Textf(a)], captured, responses).options.format;
      TextOutput(f, Str(s), sprintf) == sprintf(s, a)
  {
    ResolveOne(MimeTextPlain(), Textf(a), captured, responses);
    TextfSetsArgs(StateStep(Defaults, MimeTextPlain()), a);
  }
}

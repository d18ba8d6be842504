// csv.go: the CSV renderer. Its own logic is the choice of the writer's
// delimiter and line ending from the options and the data-shape guard; the
// encoding/csv writer it hands the records to is modelled exactly for fields
// that need no quoting, and through an uninterpreted `FieldText` otherwise.
module CsvRender {

  import opened Wrappers
  import opened Errors
  import opened Values
  import opened GoStrings
  import opened Formatting
  import opened Options
  import opened Render

  /** What the csv writer prints for a field that is not `PlainField`. */
  type FieldText = string -> string

  /** The delimiter and line-ending flag the renderer configures. */
  datatype CSVSettings = CSVSettings(comma: char, useCRLF: bool)

  /** The "separator" parameter, with a missing key (or a nil map) read as "". */
  function SeparatorParam(s: OptionsState): (r: string)
    ensures "separator" in Entries(s.params) ==> r == Entries(s.params)["separator"]
    ensures "separator" !in Entries(s.params) ==> r == ""
  {
    var p := Entries(s.params);
    if "separator" in p then p["separator"] else ""
  }

  /** The writer's settings, as RenderContext assigns them: the first byte of a
      non-empty separator replaces the ',' default, and UseCRLF is assigned only
      when a line ending is set. */
  function Settings(s: OptionsState): (r: CSVSettings)
    ensures r.comma == (if SeparatorParam(s) != "" then SeparatorParam(s)[0] else ',')
    ensures r.useCRLF <==> s.format.lineEnding == "\r\n"
  {
    var sep := SeparatorParam(s);
    var comma := if sep != "" then sep[0] else ',';
    var crlf := if s.format.lineEnding != "" then s.format.lineEnding == "\r\n" else false;
    CSVSettings(comma, crlf)
  }

  /** The csv writer's validDelim for a delimiter taken from one byte. */
  predicate ValidDelim(c: char)
  {
    c != 0 as char && c != '"' && c != '\r' && c != '\n'
  }

  /** The bytes WriteRune writes for the delimiter: one for ASCII, and the
      two-byte UTF-8 form of a byte from 0x80 up. */
  function CommaBytes(c: char): (r: string)
    ensures c < 0x80 as char ==> r == [c]
    ensures c >= 0x80 as char ==> |r| == 2
  {
    if c < 0x80 as char then [c]
    else [(0xC0 + c as int / 64) as char, (0x80 + c as int % 64) as char]
  }

  /** An ASCII byte that never forces quoting. */
  predicate PlainByte(b: char, comma: char)
  {
    b < 0x80 as char && b != '\n' && b != '\r' && b != '"' && b != comma
  }

  /** The characters unicode.IsSpace reports among ASCII bytes that PlainByte admits. */
  predicate LeadingSpace(b: char)
  {
    b == ' ' || b == '\t' || b == 0x0B as char || b == 0x0C as char
  }

  /** An ASCII field the csv writer's fieldNeedsQuotes passes over: empty, or
      free of quotes, line breaks and the delimiter, not starting with a space
      and not the `\.` marker. Such a field is written as it is. */
  predicate PlainField(f: string, comma: char)
  {
    f == "" ||
    (f != "\\." && !LeadingSpace(f[0]) && forall i :: 0 <= i < |f| ==> PlainByte(f[i], comma))
  }

  function FieldOut(f: string, c: CSVSettings, quote: FieldText): string
  {
    if PlainField(f, c.comma) then f else quote(f)
  }

  /** One record's fields, each followed by the delimiter except the last. */
  function FieldsOut(fields: seq<string>, c: CSVSettings, quote: FieldText): string
  {
    if fields == [] then ""
    else if |fields| == 1 then FieldOut(fields[0], c, quote)
    else FieldOut(fields[0], c, quote) + CommaBytes(c.comma) + FieldsOut(fields[1..], c, quote)
  }

  function Ending(c: CSVSettings): (r: string)
    ensures r == (if c.useCRLF then "\r\n" else "\n")
  {
    if c.useCRLF then "\r\n" else "\n"
  }

  /** Writer.Write for one record. */
  function Line(fields: seq<string>, c: CSVSettings, quote: FieldText): string
  {
    FieldsOut(fields, c, quote) + Ending(c)
  }

  function Lines(rows: seq<seq<string>>, c: CSVSettings, quote: FieldText): string
  {
    if rows == [] then "" else Line(rows[0], c, quote) + Lines(rows[1..], c, quote)
  }

  /** Writer.WriteAll up to its flush: the buffered bytes, or the delimiter error
      of the first Write (there is no first Write for an empty record list). */
  function WriteAll(rows: seq<seq<string>>, c: CSVSettings, quote: FieldText): Result<string, Error>
  {
    if rows != [] && !ValidDelim(c.comma) then Err(InvalidDelim) else Ok(Lines(rows, c, quote))
  }

  /** Everything after the options are resolved to `s`: the shape guard, the
      records and the one flush to the sink (none when nothing was buffered). */
  function CSVRun(s: OptionsState, data: Value, quote: FieldText, fail: nat -> Option<Error>, n: nat): Delivery
  {
    if !data.Records? then Delivery([], Some(InvalidData))
    else
      match WriteAll(data.rows, Settings(s), quote)
      case Err(e) => Delivery([], Some(e))
      case Ok(out) => if out == "" then Delivery([], None) else Delivery([out], fail(n))
  }

  class CSVRenderer {

    constructor CSV()
    {
    }

    method RenderContext(ctx: Token, w: Writer, data: Value, opts: seq<Opt>, quote: FieldText,
                         ghost refs: set<OptionsRef>, ghost sinks: set<ResponseWriter>)
      returns (err: Option<Error>)
      requires RefsAll([MimeCSV()] + opts) <= refs && SinksAll([MimeCSV()] + opts) <= sinks
      requires SafeAll(Defaults, [MimeCSV()] + opts)
      modifies w, RefsAll([MimeCSV()] + opts), SinksAll([MimeCSV()] + opts)
      ensures Done(ctx, 0).Some? ==>
        err == Done(ctx, 0) && w.writes == old(w.writes)
        && Captures(refs) == old(Captures(refs)) && Responses(sinks) == old(Responses(sinks))
      ensures Done(ctx, 0).None? ==>
        var r := Resolve(MimeCSV(), opts, old(Captures(refs)), old(Responses(sinks)));
        var d := CSVRun(r.options, data, quote, w.failure, old(|w.writes|));
        && Captures(refs) == r.captured && Responses(sinks) == r.responses
        && w.writes == old(w.writes) + d.writes && err == d.err
    {
      err := CheckContext(Poll(ctx, 0));
      if err.Some? {
        return;
      }
      var options := Prepare(MimeCSV(), opts, refs, sinks);
      assert options.State() == Resolve(MimeCSV(), opts, old(Captures(refs)), old(Responses(sinks))).options;
      err := Emit(w, data, options, quote);
    }

    /** Everything RenderContext does once its options are resolved. */
    method Emit(w: Writer, data: Value, options: Options, quote: FieldText) returns (err: Option<Error>)
      modifies w
      ensures var d := CSVRun(options.State(), data, quote, w.failure, old(|w.writes|));
        w.writes == old(w.writes) + d.writes && err == d.err
    {
      var settings := CSVSettings(',', false);
      var params := if options.params.None? then map[] else options.params.value;
      var sep := if "separator" in params then params["separator"] else "";
      if sep != "" {
        settings := settings.(comma := sep[0]);
      }
      if options.format.lineEnding != "" {
        settings := settings.(useCRLF := options.format.lineEnding == "\r\n");
      }
      assert settings == Settings(options.State());
      if !data.Records? {
        return Some(InvalidData);
      }
      var out := WriteAll(data.rows, settings, quote);
      if out.Err? {
        err := Some(out.error);
      } else if out.value == "" {
        err := None;
      } else {
        err := w.Write(out.value);
      }
    }

    method Render(w: Writer, data: Value, opts: seq<Opt>, quote: FieldText,
                  ghost refs: set<OptionsRef>, ghost sinks: set<ResponseWriter>)
      returns (err: Option<Error>)
      requires RefsAll([MimeCSV()] + opts) <= refs && SinksAll([MimeCSV()] + opts) <= sinks
      requires SafeAll(Defaults, [MimeCSV()] + opts)
      modifies w, RefsAll([MimeCSV()] + opts), SinksAll([MimeCSV()] + opts)
      ensures var r := Resolve(MimeCSV(), opts, old(Captures(refs)), old(Responses(sinks)));
        var d := CSVRun(r.options, data, quote, w.failure, old(|w.writes|));
        && Captures(refs) == r.captured && Responses(sinks) == r.responses
        && w.writes == old(w.writes) + d.writes && err == d.err
    {
      err := RenderContext([], w, data, opts, quote, refs, sinks);
    }
  }

  /** The caller's Separator(sep): its first byte when it is non-empty, ',' otherwise. */
  lemma SeparatorChoice(sep: string, captured: map<OptionsRef, Option<OptionsState>>,
                        responses: map<ResponseWriter, HeaderOptions>)
    ensures Settings(Resolve(MimeCSV(), [Separator(sep)], captured, responses).options).comma
         == (if sep != "" then sep[0] else ',')
  {
    ResolveOne(MimeCSV(), Separator(sep), captured, responses);
    SeparatorIsParam(StateStep(Defaults, MimeCSV()), sep);
  }

  /** Without options of the caller's: ',' and "\n". */
  lemma DefaultSettings(captured: map<OptionsRef, Option<OptionsState>>,
                        responses: map<ResponseWriter, HeaderOptions>)
    ensures Settings(Resolve(MimeCSV(), [], captured, responses).options) == CSVSettings(',', false)
  {
    DefaultApplies(MimeCSV(), captured, responses);
  }

  /** UseCRLF() selects "\r\n"; so does any other way of setting that line ending. */
  lemma CRLFChoice(captured: map<OptionsRef, Option<OptionsState>>,
                   responses: map<ResponseWriter, HeaderOptions>)
    ensures Settings(Resolve(MimeCSV(), [UseCRLF()], captured, responses).options).useCRLF
  {
    ResolveOne(MimeCSV(), UseCRLF(), captured, responses);
    UseCRLFSetsLineEnding(StateStep(Defaults, MimeCSV()));
  }

  /** Data that is not a [][]string: ErrInvalidData itself, and nothing written. */
  lemma InvalidDataRejected(s: OptionsState, data: Value, quote: FieldText, fail: nat -> Option<Error>, n: nat)
    requires !data.Records?
    ensures CSVRun(s, data, quote, fail, n) == Delivery([], Some(InvalidData))
  {
  }

  /** No records: nothing is written and there is no error, whatever the delimiter. */
  lemma EmptyRecords(s: OptionsState, quote: FieldText, fail: nat -> Option<Error>, n: nat)
    ensures CSVRun(s, Records([]), quote, fail, n) == Delivery([], None)
  {
  }

  /** A delimiter the writer refuses fails the first record, before anything is buffered. */
  lemma InvalidDelimiter(s: OptionsState, rows: seq<seq<string>>, quote: FieldText, fail: nat -> Option<Error>, n: nat)
    requires rows != [] && !ValidDelim(Settings(s).comma)
    ensures CSVRun(s, Records(rows), quote, fail, n) == Delivery([], Some(InvalidDelim))
  {
  }

  /** With a valid delimiter, a non-empty record list is flushed in one write
      whose error is returned, and the write ends with the line ending. */
  lemma OneWrite(s: OptionsState, rows: seq<seq<string>>, quote: FieldText, fail: nat -> Option<Error>, n: nat)
    requires rows != [] && ValidDelim(Settings(s).comma)
    ensures var d := CSVRun(s, Records(rows), quote, fail, n);
      |d.writes| == 1 && d.err == fail(n) && HasSuffix(d.writes[0], Ending(Settings(s)))
  {
    var c := Settings(s);
    LinesEnd(rows, c, quote);
  }

  lemma {:induction false} LinesEnd(rows: seq<seq<string>>, c: CSVSettings, quote: FieldText)
    requires rows != []
    ensures HasSuffix(Lines(rows, c, quote), Ending(c))
  {
    var e := Ending(c);
    if |rows| == 1 {
      assert Lines(rows[1..], c, quote) == "";
      assert Lines(rows, c, quote) == FieldsOut(rows[0], c, quote) + e;
    } else {
      LinesEnd(rows[1..], c, quote);
      var rest := Lines(rows[1..], c, quote);
      var all := Line(rows[0], c, quote) + rest;
      assert all[|all| - |e|..] == rest[|rest| - |e|..];
    }
  }

  /** Fields that need no quoting are written verbatim, joined by the delimiter. */
  lemma {:induction false} PlainFieldsJoined(fields: seq<string>, c: CSVSettings, quote: FieldText)
    requires forall i :: 0 <= i < |fields| ==> PlainField(fields[i], c.comma)
    ensures FieldsOut(fields, c, quote) == Join(fields, CommaBytes(c.comma))
  {
    if |fields| > 1 {
      PlainFieldsJoined(fields[1..], c, quote);
    }
  }

  /** Records of plain fields: each line is its fields joined by the delimiter
      and then the line ending, and the quoting rule is never consulted. */
  lemma {:induction false} PlainRecords(rows: seq<seq<string>>, c: CSVSettings, quote: FieldText, other: FieldText)
    requires forall r, i :: 0 <= r < |rows| && 0 <= i < |rows[r]| ==> PlainField(rows[r][i], c.comma)
    ensures Lines(rows, c, quote) == Lines(rows, c, other)
    ensures rows != [] ==>
      Lines(rows, c, quote) == Join(rows[0], CommaBytes(c.comma)) + Ending(c) + Lines(rows[1..], c, quote)
  {
    if rows != [] {
      PlainFieldsJoined(rows[0], c, quote);
      PlainFieldsJoined(rows[0], c, other);
      PlainRecords(rows[1..], c, quote, other);
    }
  }
}

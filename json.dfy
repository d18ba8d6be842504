// json.go: the JSON and JSONP renderer over an encoder the model does not interpret.
module JsonRender {

  import opened Wrappers
  import opened Errors
  import opened Values
  import opened GoStrings
  import opened Formatting
  import opened Options
  import opened Render

  datatype JSONConfig = JSONConfig(escapeHTML: bool, prefix: string, indent: string, padding: string)

  /** One Encode call of an encoding/json Encoder after SetEscapeHTML(escape)
      and SetIndent(prefix, indent): the bytes it writes in one Write, or the
      error it returns before writing anything. */
  type JSONEncoder = (Value, bool, string, string) -> Result<string, Error>

  /** The prefix and indentation the encoder gets: in pretty mode each is the
      option's value when set and the configuration's otherwise; outside pretty
      mode SetIndent is not called, which is the same as ("", ""). */
  function JSONIndentation(c: JSONConfig, f: FormatOptions): (string, string)
  {
    if f.pretty then (Precedence(f.prefix, c.prefix), Precedence(f.indent, c.indent)) else ("", "")
  }

  /** The writes and the error of RenderContext once the options are resolved
      to `f`, when the sink's call number k fails with fail(k) and the sink has
      had n calls before. */
  function JSONRun(c: JSONConfig, f: FormatOptions, data: Value, enc: JSONEncoder,
                   fail: nat -> Option<Error>, n: nat): Delivery
  {
    var open := if c.padding != "" then [c.padding + "("] else [];
    if c.padding != "" && fail(n).Some? then Delivery(open, fail(n))
    else
      var layout := JSONIndentation(c, f);
      var e := enc(data, c.escapeHTML, layout.0, layout.1);
      var body := if e.Ok? then [e.value] else [];
      var close := if c.padding != "" then [")"] else [];  // deferred; its error is dropped
      Delivery(open + body + close, if e.Ok? then fail(n + |open|) else Some(e.error))
  }

  class JSONRenderer {
    const config: JSONConfig

    /** JSON(): HTML escaping on and a two-space indentation. */
    constructor JSON()
      ensures config == JSONConfig(true, "", "  ", "")
    {
      config := JSONConfig(true, "", "  ", "");
    }

    /** NewJSON(c); the zero configuration has HTML escaping off. */
    constructor NewJSON(c: JSONConfig)
      ensures config == c
    {
      config := c;
    }

    method RenderContext(ctx: Token, w: Writer, data: Value, opts: seq<Opt>, enc: JSONEncoder,
                         ghost refs: set<OptionsRef>, ghost sinks: set<ResponseWriter>)
      returns (err: Option<Error>)
      requires RefsAll([MimeJSON()] + opts) <= refs && SinksAll([MimeJSON()] + opts) <= sinks
      requires SafeAll(Defaults, [MimeJSON()] + opts)
      modifies w, RefsAll([MimeJSON()] + opts), SinksAll([MimeJSON()] + opts)
      ensures Done(ctx, 0).Some? ==>
        err == Done(ctx, 0) && w.writes == old(w.writes)
        && Captures(refs) == old(Captures(refs)) && Responses(sinks) == old(Responses(sinks))
      ensures Done(ctx, 0).None? ==>
        var r := Resolve(MimeJSON(), opts, old(Captures(refs)), old(Responses(sinks)));
        var d := JSONRun(config, r.options.format, data, enc, w.failure, old(|w.writes|));
        && Captures(refs) == r.captured && Responses(sinks) == r.responses
        && w.writes == old(w.writes) + d.writes && err == d.err
    {
      err := CheckContext(Poll(ctx, 0));
      if err.Some? {
        return;
      }
      var options := Prepare(MimeJSON(), opts, refs, sinks);
      assert options.format == Resolve(MimeJSON(), opts, old(Captures(refs)), old(Responses(sinks))).options.format;
      err := Emit(w, data, options.format, enc);
    }

    /** Everything RenderContext does once its options are resolved to `f`. */
    method Emit(w: Writer, data: Value, f: FormatOptions, enc: JSONEncoder) returns (err: Option<Error>)
      modifies w
      ensures var d := JSONRun(config, f, data, enc, w.failure, old(|w.writes|));
        w.writes == old(w.writes) + d.writes && err == d.err
    {
      ghost var n := |w.writes|;
      ghost var d := JSONRun(config, f, data, enc, w.failure, n);
      ghost var start := w.writes;
      var padded := false;
      if config.padding != "" {
        err := w.Write(config.padding + "(");
        if err.Some? {
          assert d == Delivery([config.padding + "("], err);
          return;
        }
        padded := true;
      }
      ghost var open := if padded then [config.padding + "("] else [];
      assert w.writes == start + open && |open| == |w.writes| - n;
      var prefix, indent := "", "";
      if f.pretty {
        prefix := f.prefix;
        indent := config.indent;
        if prefix == "" {
          prefix := config.prefix;
        }
        if f.indent != "" {
          indent := f.indent;
        }
      }
      assert (prefix, indent) == JSONIndentation(config, f);
      var encoded := enc(data, config.escapeHTML, prefix, indent);
      if encoded.Ok? {
        err := w.Write(encoded.value);
      } else {
        err := Some(encoded.error);
      }
      ghost var body := if encoded.Ok? then [encoded.value] else [];
      assert w.writes == start + open + body;
      if padded {
        var _ := w.Write(")");
      }
      assert d.writes == open + body + (if padded then [")"] else []);
    }

    method Render(w: Writer, data: Value, opts: seq<Opt>, enc: JSONEncoder,
                  ghost refs: set<OptionsRef>, ghost sinks: set<ResponseWriter>)
      returns (err: Option<Error>)
      requires RefsAll([MimeJSON()] + opts) <= refs && SinksAll([MimeJSON()] + opts) <= sinks
      requires SafeAll(Defaults, [MimeJSON()] + opts)
      modifies w, RefsAll([MimeJSON()] + opts), SinksAll([MimeJSON()] + opts)
      ensures var r := Resolve(MimeJSON(), opts, old(Captures(refs)), old(Responses(sinks)));
        var d := JSONRun(config, r.options.format, data, enc, w.failure, old(|w.writes|));
        && Captures(refs) == r.captured && Responses(sinks) == r.responses
        && w.writes == old(w.writes) + d.writes && err == d.err
    {
      err := RenderContext([], w, data, opts, enc, refs, sinks);
    }
  }

  /** JSONP: with a padding and a sink that accepts the opening, the bytes
      written are padding + "(" + the encoding + ")". */
  lemma JSONPWrapping(c: JSONConfig, f: FormatOptions, data: Value, enc: JSONEncoder,
                      fail: nat -> Option<Error>, n: nat)
    requires c.padding != "" && fail(n).None?
    requires var l := JSONIndentation(c, f); enc(data, c.escapeHTML, l.0, l.1).Ok?
    ensures var d := JSONRun(c, f, data, enc, fail, n);
      var l := JSONIndentation(c, f);
      && |d.writes| == 3
      && Concat(d.writes) == c.padding + "(" + enc(data, c.escapeHTML, l.0, l.1).value + ")"
      && d.err == fail(n + 1)
  {
    var d := JSONRun(c, f, data, enc, fail, n);
    var l := JSONIndentation(c, f);
    var b := enc(data, c.escapeHTML, l.0, l.1).value;
    assert d.writes == [c.padding + "(", b, ")"];
    assert d.writes[1..] == [b, ")"] && d.writes[1..][1..] == [")"] && d.writes[1..][1..][1..] == [];
    assert Concat(d.writes[1..][1..]) == ")";
    assert Concat(d.writes[1..]) == b + ")";
  }

  /** Without a padding the sink receives the encoding in one Write, or nothing. */
  lemma PlainJSON(c: JSONConfig, f: FormatOptions, data: Value, enc: JSONEncoder,
                  fail: nat -> Option<Error>, n: nat)
    requires c.padding == ""
    ensures var d := JSONRun(c, f, data, enc, fail, n);
      var l := JSONIndentation(c, f);
      var e := enc(data, c.escapeHTML, l.0, l.1);
      && (e.Ok? ==> d.writes == [e.value] && d.err == fail(n))
      && (e.Err? ==> d.writes == [] && d.err == Some(e.error))
  {
  }

  /** A failed write of the padding's opening is returned before encoding:
      nothing else is written. */
  lemma PaddingWriteFails(c: JSONConfig, f: FormatOptions, data: Value, enc: JSONEncoder,
                          fail: nat -> Option<Error>, n: nat)
    requires c.padding != "" && fail(n).Some?
    ensures JSONRun(c, f, data, enc, fail, n) == Delivery([c.padding + "("], fail(n))
  {
  }

  /** An encoding error is returned, and the deferred ")" is written all the same. */
  lemma EncodeFailsStillCloses(c: JSONConfig, f: FormatOptions, data: Value, enc: JSONEncoder,
                               fail: nat -> Option<Error>, n: nat)
    requires c.padding != "" && fail(n).None?
    requires var l := JSONIndentation(c, f); enc(data, c.escapeHTML, l.0, l.1).Err?
    ensures var d := JSONRun(c, f, data, enc, fail, n);
      var l := JSONIndentation(c, f);
      d.writes == [c.padding + "(", ")"] && d.err == Some(enc(data, c.escapeHTML, l.0, l.1).error)
  {
  }

  /** Pretty mode through the caller's Format(Pretty(), Prefix(p), Indent(i)):
      a set prefix or indentation overrides the configuration's, an empty one
      leaves the configuration's in place. */
  lemma PrettyPrecedence(c: JSONConfig, p: string, i: string, captured: map<OptionsRef, Option<OptionsState>>,
                         responses: map<ResponseWriter, HeaderOptions>)
    ensures var f := Resolve(MimeJSON(), [Format([Pretty(), Prefix(p), Indent(i)])], captured, responses).options.format;
      && JSONIndentation(c, f).0 == (if p != "" then p else c.prefix)
      && JSONIndentation(c, f).1 == (if i != "" then i else c.indent)
  {
    PrettyFormatOption(MimeJSON(), p, i, captured, responses);
  }

  /** Outside pretty mode neither the option's nor the configuration's layout is used. */
  lemma NoLayoutWithoutPretty(c: JSONConfig, p: string, i: string, captured: map<OptionsRef, Option<OptionsState>>,
                              responses: map<ResponseWriter, HeaderOptions>)
    ensures var f := Resolve(MimeJSON(), [Format([Prefix(p), Indent(i)])], captured, responses).options.format;
      JSONIndentation(c, f) == ("", "")
  {
    PlainFormatOption(MimeJSON(), p, i, captured, responses);
  }
}

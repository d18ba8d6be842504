// xml.go: the XML renderer over an encoder the model does not interpret.
module XmlRender {

  import opened Wrappers
  import opened Errors
  import opened Values
  import opened GoStrings
  import opened Formatting
  import opened Options
  import opened Render

  datatype XMLConfig = XMLConfig(prefix: string, indent: string, header: bool)

  /** encoding/xml's Header constant. */
  const XMLHeader := "<?xml version=\"1.0\" encoding=\"UTF-8\"?>\n"

  /** One Encode call of an encoding/xml Encoder after Indent(prefix, indent):
      the bytes it flushes in one Write (none when they are empty), or the
      error it returns without flushing. */
  type XMLEncoder = (Value, string, string) -> Result<string, Error>

  /** The layout the encoder gets: in pretty mode each field is the option's
      when set and the configuration's otherwise; outside pretty mode Indent is
      not called, which is the same as ("", ""). */
  function XMLIndentation(c: XMLConfig, f: FormatOptions): (string, string)
  {
    if f.pretty then (Precedence(f.prefix, c.prefix), Precedence(f.indent, c.indent)) else ("", "")
  }

  /** The writes and the error of RenderContext once the options are resolved
      to `f`, when the sink's call number k fails with fail(k) and the sink has
      had n calls before. */
  function XMLRun(c: XMLConfig, f: FormatOptions, data: Value, enc: XMLEncoder,
                  fail: nat -> Option<Error>, n: nat): Delivery
  {
    var head := if c.header then [XMLHeader] else [];
    if c.header && fail(n).Some? then Delivery(head, fail(n))
    else
      var layout := XMLIndentation(c, f);
      match enc(data, layout.0, layout.1)
      case Err(e) => Delivery(head, Some(e))
      case Ok(b) => if b == "" then Delivery(head, None) else Delivery(head + [b], fail(n + |head|))
  }

  class XMLRenderer {
    const config: XMLConfig

    /** XML(): two-space indentation, no prefix, and the declaration. */
    constructor XML()
      ensures config == XMLConfig("", "  ", true)
    {
      config := XMLConfig("", "  ", true);
    }

    constructor NewXML(c: XMLConfig)
      ensures config == c
    {
      config := c;
    }

    method RenderContext(ctx: Token, w: Writer, data: Value, opts: seq<Opt>, enc: XMLEncoder,
                         ghost refs: set<OptionsRef>, ghost sinks: set<ResponseWriter>)
      returns (err: Option<Error>)
      requires RefsAll([MimeXML()] + opts) <= refs && SinksAll([MimeXML()] + opts) <= sinks
      requires SafeAll(Defaults, [MimeXML()] + opts)
      modifies w, RefsAll([MimeXML()] + opts), SinksAll([MimeXML()] + opts)
      ensures Done(ctx, 0).Some? ==>
        err == Done(ctx, 0) && w.writes == old(w.writes)
        && Captures(refs) == old(Captures(refs)) && Responses(sinks) == old(Responses(sinks))
      ensures Done(ctx, 0).None? ==>
        var r := Resolve(MimeXML(), opts, old(Captures(refs)), old(Responses(sinks)));
        var d := XMLRun(config, r.options.format, data, enc, w.failure, old(|w.writes|));
        && Captures(refs) == r.captured && Responses(sinks) == r.responses
        && w.writes == old(w.writes) + d.writes && err == d.err
    {
      err := CheckContext(Poll(ctx, 0));
      if err.Some? {
        return;
      }
      var options := Prepare(MimeXML(), opts, refs, sinks);
      assert options.format == Resolve(MimeXML(), opts, old(Captures(refs)), old(Responses(sinks))).options.format;
      err := Emit(w, data, options.format, enc);
    }

    /** Everything RenderContext does once its options are resolved to `f`. */
    method Emit(w: Writer, data: Value, f: FormatOptions, enc: XMLEncoder) returns (err: Option<Error>)
      modifies w
      ensures var d := XMLRun(config, f, data, enc, w.failure, old(|w.writes|));
        w.writes == old(w.writes) + d.writes && err == d.err
    {
      ghost var n := |w.writes|;
      if config.header {
        err := w.Write(XMLHeader);
        if err.Some? {
          return;
        }
      }
      var prefix, indent := config.prefix, config.indent;
      if f.pretty {
        if f.prefix != "" {
          prefix := f.prefix;
        }
        if f.indent != "" {
          indent := f.indent;
        }
      } else {
        prefix, indent := "", "";
      }
      assert (prefix, indent) == XMLIndentation(config, f);
      var encoded := enc(data, prefix, indent);
      if encoded.Err? {
        err := Some(encoded.error);
      } else if encoded.value == "" {
        err := None;
      } else {
        err := w.Write(encoded.value);
      }
    }

    method Render(w: Writer, data: Value, opts: seq<Opt>, enc: XMLEncoder,
                  ghost refs: set<OptionsRef>, ghost sinks: set<ResponseWriter>)
      returns (err: Option<Error>)
      requires RefsAll([MimeXML()] + opts) <= refs && SinksAll([MimeXML()] + opts) <= sinks
      requires SafeAll(Defaults, [MimeXML()] + opts)
      modifies w, RefsAll([MimeXML()] + opts), SinksAll([MimeXML()] + opts)
      ensures var r := Resolve(MimeXML(), opts, old(Captures(refs)), old(Responses(sinks)));
        var d := XMLRun(config, r.options.format, data, enc, w.failure, old(|w.writes|));
        && Captures(refs) == r.captured && Responses(sinks) == r.responses
        && w.writes == old(w.writes) + d.writes && err == d.err
    {
      err := RenderContext([], w, data, opts, enc, refs, sinks);
    }
  }

  /** With the declaration configured and accepted, the output starts with it:
      it is the first write, and everything else follows it. */
  lemma HeaderFirst(c: XMLConfig, f: FormatOptions, data: Value, enc: XMLEncoder,
                    fail: nat -> Option<Error>, n: nat)
    requires c.header && fail(n).None?
    ensures var d := XMLRun(c, f, data, enc, fail, n);
      && d.writes != [] && d.writes[0] == XMLHeader
      && HasPrefix(Concat(d.writes), XMLHeader)
  {
    var d := XMLRun(c, f, data, enc, fail, n);
    assert Concat(d.writes) == XMLHeader + Concat(d.writes[1..]);
  }

  /** Without the declaration configured, only the encoder's bytes are written. */
  lemma NoHeader(c: XMLConfig, f: FormatOptions, data: Value, enc: XMLEncoder,
                 fail: nat -> Option<Error>, n: nat)
    requires !c.header
    ensures var d := XMLRun(c, f, data, enc, fail, n);
      var l := XMLIndentation(c, f);
      var e := enc(data, l.0, l.1);
      d.writes == (if e.Ok? && e.value != "" then [e.value] else [])
  {
  }

  /** A failed write of the declaration is returned before encoding: nothing else is written. */
  lemma HeaderWriteFails(c: XMLConfig, f: FormatOptions, data: Value, enc: XMLEncoder,
                         fail: nat -> Option<Error>, n: nat)
    requires c.header && fail(n).Some?
    ensures XMLRun(c, f, data, enc, fail, n) == Delivery([XMLHeader], fail(n))
  {
  }

  /** Pretty mode through the caller's Format(Pretty(), Prefix(p), Indent(i)):
      a set prefix or indentation overrides the configuration's. */
  lemma PrettyPrecedence(c: XMLConfig, p: string, i: string, captured: map<OptionsRef, Option<OptionsState>>,
                         responses: map<ResponseWriter, HeaderOptions>)
    ensures var f := Resolve(MimeXML(), [Format([Pretty(), Prefix(p), Indent(i)])], captured, responses).options.format;
      && XMLIndentation(c, f).0 == (if p != "" then p else c.prefix)
      && XMLIndentation(c, f).1 == (if i != "" then i else c.indent)
  {
    PrettyFormatOption(MimeXML(), p, i, captured, responses);
  }

  /** Outside pretty mode neither the option's nor the configuration's layout is used. */
  lemma NoLayoutWithoutPretty(c: XMLConfig, p: string, i: string, captured: map<OptionsRef, Option<OptionsState>>,
                              responses: map<ResponseWriter, HeaderOptions>)
    ensures var f := Resolve(MimeXML(), [Format([Prefix(p), Indent(i)])], captured, responses).options.format;
      XMLIndentation(c, f) == ("", "")
  {
    PlainFormatOption(MimeXML(), p, i, captured, responses);
  }
}

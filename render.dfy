// render.go: the cancellation poll and the default content-type options,
// together with the io.Writer the renderers write to.
module Render {

  import opened Wrappers
  import opened Errors
  import opened GoStrings
  import opened MediaType
  import opened Formatting
  import opened Options

  /** What one non-blocking poll of a context's Done channel finds. */
  datatype Status = Live | Cancelled | TimedOut

  /** A context as the outcomes of its successive polls: poll k sees element k,
      the last element persists once the sequence is exhausted, and the empty
      sequence is context.Background(), which is never done. */
  type Token = seq<Status>

  function Poll(ctx: Token, k: nat): Status
  {
    if ctx == [] then Live else if k < |ctx| then ctx[k] else ctx[|ctx| - 1]
  }

  /** A context cannot come back from being done, nor change its error. */
  predicate Settled(ctx: Token)
  {
    forall i, j :: 0 <= i <= j < |ctx| && ctx[i] != Live ==> ctx[j] == ctx[i]
  }

  /** CheckContext: nil while the context is live, and otherwise its own error. */
  function CheckContext(s: Status): (r: Option<Error>)
    ensures r.None? <==> s == Live
    ensures s == Cancelled ==> r == Some(Canceled)
    ensures s == TimedOut ==> r == Some(DeadlineExceeded)
  {
    match s
    case Live => None
    case Cancelled => Some(Canceled)
    case TimedOut => Some(DeadlineExceeded)
  }

  /** The error CheckContext returns at the k-th poll of a context. */
  function Done(ctx: Token, k: nat): Option<Error>
  {
    CheckContext(Poll(ctx, k))
  }

  /** Once a settled context has been seen done, every later poll sees the same error. */
  lemma DoneStaysDone(ctx: Token, i: nat, j: nat)
    requires Settled(ctx) && i <= j
    requires CheckContext(Poll(ctx, i)).Some?
    ensures CheckContext(Poll(ctx, j)) == CheckContext(Poll(ctx, i))
  {
    var i' := if i < |ctx| then i else |ctx| - 1;
    var j' := if j < |ctx| then j else |ctx| - 1;
    assert Poll(ctx, i) == ctx[i'] && Poll(ctx, j) == ctx[j'];
  }

  /** The media type "major/sub", spelled out from its two words. */
  function TypeName(major: string, sub: string): string { major + "/" + sub }

  function MimeTextPlain(): Opt { MimeUTF8(TypeName("text", "plain")) }

  function MimeTextHTML(): Opt { MimeUTF8(TypeName("text", "html")) }

  function MimeJSON(): Opt { MimeUTF8(TypeName("application", "json")) }

  function MimeXML(): Opt { MimeUTF8(TypeName("application", "xml")) }

  function MimeCSV(): Opt { MimeUTF8(TypeName("text", "csv")) }

  function MimeBinary(): Opt { Mime(TypeName("application", "octet-stream"), []) }

  function MimePDF(): Opt { Mime(TypeName("application", "pdf"), []) }

  function MimeStream(): Opt { Mime(TypeName("application", "octet-stream"), []) }

  function MimeYAML(): Opt { MimeUTF8(TypeName("application", "yaml")) }

  /** The Content-Type a MimeUTF8(major/sub) option stores for lower-case words. */
  lemma Utf8Form(s: OptionsState, major: string, sub: string)
    requires s.header.Some?
    requires major != [] && forall c :: c in major ==> LowerWordChar(c)
    requires sub != [] && forall c :: c in sub ==> LowerWordChar(c)
    ensures ContentTypeOf(StateStep(s, MimeUTF8(major + "/" + sub))) == major + "/" + sub + "; charset=utf-8"
  {
    LowerWord(major);
    LowerWord(sub);
    Utf8IsToken();
    MimeTokenForm(s, major, sub, "utf-8");
  }

  lemma Utf8IsToken()
    ensures IsToken("utf-8")
  {
    LowerWord("utf-8");
  }

  lemma MimeTextPlainForm(s: OptionsState)
    requires s.header.Some?
    ensures ContentTypeOf(StateStep(s, MimeTextPlain())) == TypeName("text", "plain") + "; charset=utf-8"
  {
    Utf8Form(s, "text", "plain");
  }

  lemma MimeTextHTMLForm(s: OptionsState)
    requires s.header.Some?
    ensures ContentTypeOf(StateStep(s, MimeTextHTML())) == TypeName("text", "html") + "; charset=utf-8"
  {
    Utf8Form(s, "text", "html");
  }

  lemma MimeJSONForm(s: OptionsState)
    requires s.header.Some?
    ensures ContentTypeOf(StateStep(s, MimeJSON())) == TypeName("application", "json") + "; charset=utf-8"
  {
    Utf8Form(s, "application", "json");
  }

  lemma MimeXMLForm(s: OptionsState)
    requires s.header.Some?
    ensures ContentTypeOf(StateStep(s, MimeXML())) == TypeName("application", "xml") + "; charset=utf-8"
  {
    Utf8Form(s, "application", "xml");
  }

  lemma MimeCSVForm(s: OptionsState)
    requires s.header.Some?
    ensures ContentTypeOf(StateStep(s, MimeCSV())) == TypeName("text", "csv") + "; charset=utf-8"
  {
    Utf8Form(s, "text", "csv");
  }

  lemma MimeYAMLForm(s: OptionsState)
    requires s.header.Some?
    ensures ContentTypeOf(StateStep(s, MimeYAML())) == TypeName("application", "yaml") + "; charset=utf-8"
  {
    Utf8Form(s, "application", "yaml");
  }

  /** The default content types, each of which replaces any earlier value. */
  lemma DefaultContentTypes(s: OptionsState)
    requires s.header.Some?
    ensures ContentTypeOf(StateStep(s, MimeTextPlain())) == TypeName("text", "plain") + "; charset=utf-8"
    ensures ContentTypeOf(StateStep(s, MimeTextHTML())) == TypeName("text", "html") + "; charset=utf-8"
    ensures ContentTypeOf(StateStep(s, MimeJSON())) == TypeName("application", "json") + "; charset=utf-8"
    ensures ContentTypeOf(StateStep(s, MimeXML())) == TypeName("application", "xml") + "; charset=utf-8"
    ensures ContentTypeOf(StateStep(s, MimeCSV())) == TypeName("text", "csv") + "; charset=utf-8"
    ensures ContentTypeOf(StateStep(s, MimeYAML())) == TypeName("application", "yaml") + "; charset=utf-8"
    ensures ContentTypeOf(StateStep(s, MimeBinary())) == TypeName("application", "octet-stream")
    ensures ContentTypeOf(StateStep(s, MimeStream())) == TypeName("application", "octet-stream")
    ensures ContentTypeOf(StateStep(s, MimePDF())) == TypeName("application", "pdf")
  {
    MimeTextPlainForm(s);
    MimeTextHTMLForm(s);
    MimeJSONForm(s);
    MimeXMLForm(s);
    MimeCSVForm(s);
    MimeYAMLForm(s);
    MimeReplacesContentType(s, TypeName("application", "octet-stream"), []);
    MimeReplacesContentType(s, TypeName("application", "pdf"), []);
  }

  /** An io.Writer: the payload of every call it received, and the error its
      k-th call returns, fixed in advance. */
  class Writer {
    var writes: seq<string>
    const failure: nat -> Option<Error>

    constructor (failure: nat -> Option<Error>)
      ensures writes == [] && this.failure == failure
    {
      writes := [];
      this.failure := failure;
    }

    /** The error the next call will return. */
    function Next(): Option<Error>
      reads this
    {
      failure(|writes|)
    }

    method Write(p: string) returns (err: Option<Error>)
      modifies this
      ensures writes == old(writes) + [p]
      ensures err == old(Next())
    {
      err := failure(|writes|);
      writes := writes + [p];
    }
  }

  /** The payloads a renderer gives the sink, and the error it returns. */
  datatype Delivery = Delivery(writes: seq<string>, err: Option<Error>)

  /** The state of `NewOptions().Use(mime).Use(opts...)`, which every format
      renderer builds, from the given capture targets and response writers. */
  function Resolve(mime: Opt, opts: seq<Opt>, captured: map<OptionsRef, Option<OptionsState>>,
                   responses: map<ResponseWriter, HeaderOptions>): World
  {
    Fold(World(Defaults, captured, responses), [mime] + opts)
  }

  /** NewOptions().Use(mime).Use(opts...), as the format renderers write it. */
  method Prepare(mime: Opt, opts: seq<Opt>, ghost refs: set<OptionsRef>, ghost sinks: set<ResponseWriter>)
    returns (o: Options)
    requires RefsAll([mime] + opts) <= refs && SinksAll([mime] + opts) <= sinks
    requires SafeAll(Defaults, [mime] + opts)
    modifies RefsAll([mime] + opts), SinksAll([mime] + opts)
    ensures fresh(o)
    ensures o.View(refs, sinks) == Resolve(mime, opts, old(Captures(refs)), old(Responses(sinks)))
  {
    assert ([mime] + opts)[1..] == opts && [mime][1..] == [];
    assert RefsAll([mime]) == Refs(mime) + RefsAll([]);
    assert SinksAll([mime]) == Sinks(mime) + SinksAll([]);
    o := new Options();
    ghost var w0 := o.View(refs, sinks);
    o := o.Use([mime], refs, sinks);
    FoldOptions(w0, [mime]);
    assert o.State() == StateStep(Defaults, mime);
    o := o.Use(opts, refs, sinks);
    FoldAppend(w0, [mime], opts);
  }

  /** With no options of the caller's, the renderer's default type is the Content-Type. */
  lemma DefaultApplies(mime: Opt, captured: map<OptionsRef, Option<OptionsState>>,
                       responses: map<ResponseWriter, HeaderOptions>)
    ensures Resolve(mime, [], captured, responses).options == StateStep(Defaults, mime)
  {
    var w0 := World(Defaults, captured, responses);
    assert [mime] + [] == [mime] && [mime][1..] == [];
    assert Fold(w0, [mime]) == Step(w0, mime);
    StepOptions(w0, mime);
  }

  /** The caller's options run after the default type, so a Mime of theirs is
      the Content-Type that results. */
  lemma UserMimeOverrides(mime: Opt, t: string, cs: seq<string>, captured: map<OptionsRef, Option<OptionsState>>,
                          responses: map<ResponseWriter, HeaderOptions>)
    requires StateStep(Defaults, mime).header.Some?
    ensures ContentTypeOf(Resolve(mime, [Mime(t, cs)], captured, responses).options) == ContentTypeValue(t, cs)
  {
    var w0 := World(Defaults, captured, responses);
    FoldOptions(w0, [mime] + [Mime(t, cs)]);
    assert [mime] + [Mime(t, cs)] == [mime, Mime(t, cs)];
    assert [mime, Mime(t, cs)][1..] == [Mime(t, cs)] && [Mime(t, cs)][1..] == [];
    var s1 := StateStep(Defaults, mime);
    assert StateFold(s1, [Mime(t, cs)]) == StateStep(s1, Mime(t, cs));
    assert StateFold(Defaults, [mime, Mime(t, cs)]) == StateStep(StateStep(Defaults, mime), Mime(t, cs));
    MimeReplacesContentType(StateStep(Defaults, mime), t, cs);
  }

  /** One option of the caller's after the default type. */
  lemma ResolveOne(mime: Opt, opt: Opt, captured: map<OptionsRef, Option<OptionsState>>,
                   responses: map<ResponseWriter, HeaderOptions>)
    requires mime.Headers?
    ensures Resolve(mime, [opt], captured, responses).options == StateStep(StateStep(Defaults, mime), opt)
    ensures StateStep(Defaults, mime).format == Empty
  {
    var w0 := World(Defaults, captured, responses);
    FoldOptions(w0, [mime] + [opt]);
    assert [mime] + [opt] == [mime, opt];
    assert [mime, opt][1..] == [opt] && [opt][1..] == [];
    var s1 := StateStep(Defaults, mime);
    assert StateFold(s1, [opt]) == StateStep(s1, opt);
  }

  /** The JSON and XML renderers' rule for a formatting field in pretty mode:
      the option's value when it is set, the renderer's configured one otherwise. */
  function Precedence(option: string, configured: string): string
  {
    if option != "" then option else configured
  }

  /** Format(Pretty(), Prefix(p), Indent(i)) as the caller's one option: pretty
      mode with exactly that prefix and indentation. */
  lemma PrettyFormatOption(mime: Opt, p: string, i: string, captured: map<OptionsRef, Option<OptionsState>>,
                           responses: map<ResponseWriter, HeaderOptions>)
    requires mime.Headers?
    ensures Resolve(mime, [Format([Pretty(), Prefix(p), Indent(i)])], captured, responses).options.format
         == Empty.(pretty := true, prefix := p, indent := i)
  {
    ResolveOne(mime, Format([Pretty(), Prefix(p), Indent(i)]), captured, responses);
    var fs := [Pretty(), Prefix(p), Indent(i)];
    assert fs[1..] == [Prefix(p), Indent(i)] && fs[1..][1..] == [Indent(i)];
    var o1 := Empty.(pretty := true);
    var o2 := o1.(prefix := p);
    assert ApplyAll(fs, Empty) == ApplyAll([Prefix(p), Indent(i)], o1);
    assert ApplyAll([Prefix(p), Indent(i)], o1) == ApplyAll([Indent(i)], o2);
    ApplyAllOne(Indent(i), o2);
    assert StateStep(StateStep(Defaults, mime), Format(fs)).format == ApplyAll(fs, Empty);
  }

  /** Format(Prefix(p), Indent(i)) without Pretty(): not pretty mode. */
  lemma PlainFormatOption(mime: Opt, p: string, i: string, captured: map<OptionsRef, Option<OptionsState>>,
                          responses: map<ResponseWriter, HeaderOptions>)
    requires mime.Headers?
    ensures !Resolve(mime, [Format([Prefix(p), Indent(i)])], captured, responses).options.format.pretty
  {
    ResolveOne(mime, Format([Prefix(p), Indent(i)]), captured, responses);
    var fs := [Prefix(p), Indent(i)];
    assert fs[1..] == [Indent(i)];
    assert ApplyAll(fs, Empty) == ApplyAll([Indent(i)], Empty.(prefix := p));
    ApplyAllOne(Indent(i), Empty.(prefix := p));
    assert StateStep(StateStep(Defaults, mime), Format(fs)).format == ApplyAll(fs, Empty);
  }

  /** Each format renderer's default type, as it stands when the caller passes no options. */
  lemma RendererDefaultTypes(captured: map<OptionsRef, Option<OptionsState>>,
                             responses: map<ResponseWriter, HeaderOptions>)
    ensures ContentTypeOf(Resolve(MimeTextPlain(), [], captured, responses).options)
         == TypeName("text", "plain") + "; charset=utf-8"
    ensures ContentTypeOf(Resolve(MimeJSON(), [], captured, responses).options)
         == TypeName("application", "json") + "; charset=utf-8"
    ensures ContentTypeOf(Resolve(MimeXML(), [], captured, responses).options)
         == TypeName("application", "xml") + "; charset=utf-8"
    ensures ContentTypeOf(Resolve(MimeCSV(), [], captured, responses).options)
         == TypeName("text", "csv") + "; charset=utf-8"
  {
    DefaultApplies(MimeTextPlain(), captured, responses);
    DefaultApplies(MimeJSON(), captured, responses);
    DefaultApplies(MimeXML(), captured, responses);
    DefaultApplies(MimeCSV(), captured, responses);
    MimeTextPlainForm(Defaults);
    MimeJSONForm(Defaults);
    MimeXMLForm(Defaults);
    MimeCSVForm(Defaults);
  }
}

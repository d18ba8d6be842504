// options.go, with the three option builders of format.go that produce a
// `func(*Options)` (Format, Textf, UseCRLF).
//
// An option is a closure that mutates an *Options. The closures the package
// builds are the constructors of `Opt`; a caller's own closure is `Closure(f)`,
// a function of the option state. `Options` is a class whose fields the closures
// update; `Apply` runs one closure, and `Use` runs a list of them in order. Both
// are proved against `Step` and `Fold`, which say what a closure does to the
// option state and to the objects outside it that it may write: the targets of
// CaptureOptions and the response writers of WriteResponse.
module Options {

  import opened Wrappers
  import opened Values
  import opened Formatting
  import opened MediaType
  import opened GoStrings

  /** textproto.MIMEHeader, with keys already in canonical form. */
  type HeaderOptions = map<string, seq<string>>

  type Params = map<string, string>

  /** The five fields of an Options value; a nil map is `None`. */
  datatype OptionsState = OptionsState(
    name: string,
    timeout: int,                  // stored and returned, never enforced
    format: FormatOptions,
    header: Option<HeaderOptions>,
    params: Option<Params>)

  /** Reading a nil map sees no entries. */
  function Entries<K, V>(m: Option<map<K, V>>): map<K, V>
  {
    if m.None? then map[] else m.value
  }

  /** The state NewOptions and Reset produce: zero fields, empty allocated maps. */
  const Defaults := OptionsState("", 0, Empty, Some(map[]), Some(map[]))

  /** The state of an `&Options{}` literal: zero fields and nil maps. */
  const ZeroState := OptionsState("", 0, Empty, None, None)

  /** The state of `o.Clone()`: every field copied, both maps allocated. */
  function CloneState(s: OptionsState): (c: OptionsState)
    ensures c.name == s.name && c.timeout == s.timeout && c.format == s.format
    ensures c.params == Some(Entries(s.params)) && c.header == Some(Entries(s.header))
  {
    OptionsState(s.name, s.timeout, s.format.Clone(), Some(Entries(s.header)), Some(Entries(s.params)))
  }

  /** MIMEHeader.Get: the first value of the key, or "". */
  function Get(h: HeaderOptions, key: string): (r: string)
    ensures key !in h ==> r == ""
    ensures key in h && h[key] != [] ==> r == h[key][0]
    ensures key in h && h[key] == [] ==> r == ""
  {
    if key in h && h[key] != [] then h[key][0] else ""
  }

  function ContentTypeOf(s: OptionsState): string
  {
    Get(Entries(s.header), "Content-Type")
  }

  /** The value Mime stores under Content-Type. */
  function ContentTypeValue(mediatype: string, charset: seq<string>): string
  {
    if |charset| > 0 then FormatMediaType(mediatype, charset[0]) else mediatype
  }

  /** A `func(HeaderOptions)` given to Header. */
  datatype HeaderFn =
    | Set(key: string, value: string)
    | Add(key: string, value: string)
    | Del(key: string)
    | SetContentType(mediatype: string, charset: seq<string>)  // the function Mime builds
  {
    /** Deleting is the only thing that may be done to a nil header map. */
    predicate WritesEntry() { !Del? }

    function ApplyTo(h: HeaderOptions): HeaderOptions
    {
      match this
      case Set(k, v) => h[k := [v]]
      case Add(k, v) => h[k := (if k in h then h[k] else []) + [v]]
      case Del(k) => h - {k}
      case SetContentType(t, cs) => h["Content-Type" := [ContentTypeValue(t, cs)]]
    }
  }

  /** The header functions applied in order to one map. */
  function HeaderFold(fns: seq<HeaderFn>, h: HeaderOptions): HeaderOptions
  {
    if fns == [] then h else HeaderFold(fns[1..], fns[0].ApplyTo(h))
  }

  lemma {:induction false} HeaderFoldAppend(fns: seq<HeaderFn>, gns: seq<HeaderFn>, h: HeaderOptions)
    ensures HeaderFold(fns + gns, h) == HeaderFold(gns, HeaderFold(fns, h))
  {
    if fns == [] {
      assert fns + gns == gns;
    } else {
      assert (fns + gns)[1..] == fns[1..] + gns;
      HeaderFoldAppend(fns[1..], gns, fns[0].ApplyTo(h));
    }
  }

  lemma HeaderFoldOne(f: HeaderFn, h: HeaderOptions)
    ensures HeaderFold([f], h) == f.ApplyTo(h)
  {
    assert [f][1..] == [];
  }

  /** The header after Header(fns): a nil map stays nil, since only deletions,
      which do nothing to it, may reach it. */
  function ApplyHeaderFns(fns: seq<HeaderFn>, h: Option<HeaderOptions>): Option<HeaderOptions>
  {
    if h.None? then None else Some(HeaderFold(fns, h.value))
  }

  /** The `*Options` variable that a CaptureOptions target points to. */
  class OptionsRef {
    var captured: Option<OptionsState>  // nil, or the state of the clone stored there

    constructor ()
      ensures captured == None
    {
      captured := None;
    }
  }

  /** An http.ResponseWriter, reduced to its header map. */
  class ResponseWriter {
    var header: HeaderOptions

    constructor ()
      ensures header == map[]
    {
      header := map[];
    }

    /** Header().Set(key, value): the key now holds exactly this value. */
    method Set(key: string, value: string)
      modifies this
      ensures header == old(header)[key := [value]]
    {
      header := header[key := [value]];
    }
  }

  /** A `func(*Options)`. */
  datatype Opt =
    | SetName(name: string)
    | SetTimeout(d: int)
    | SetParam(key: string, value: string)
    | Headers(fns: seq<HeaderFn>)
    | Formats(fs: seq<Formatter>)
    | Combined(opts: seq<Opt>)
    | Capture(target: OptionsRef)
    | Respond(w: ResponseWriter)
    | Closure(f: OptionsState -> OptionsState)

  function Name(name: string): Opt { SetName(name) }

  function Timeout(d: int): Opt { SetTimeout(d) }

  function Param(key: string, value: string): Opt { SetParam(key, value) }

  function Separator(sep: string): Opt { Param("separator", sep) }

  function Header(fns: seq<HeaderFn>): Opt { Headers(fns) }

  function Mime(mediatype: string, charset: seq<string>): Opt
  {
    Header([SetContentType(mediatype, charset)])
  }

  function MimeUTF8(mediatype: string): Opt { Mime(mediatype, ["utf-8"]) }

  function With(opts: seq<Opt>): Opt { Combined(opts) }

  function CaptureOptions(target: OptionsRef): Opt { Capture(target) }

  function WriteResponse(w: ResponseWriter): Opt { Respond(w) }

  function Format(fs: seq<Formatter>): Opt { Formats(fs) }

  function Textf(args: seq<Value>): Opt { Format([Args(args)]) }

  function UseCRLF(): Opt { Format([LineEnding("\r\n")]) }

  /** What a closure does to the option state. */
  function StateStep(s: OptionsState, opt: Opt): OptionsState
    decreases opt, 1
  {
    match opt
    case SetName(n) => s.(name := n)
    case SetTimeout(d) => s.(timeout := d)
    case SetParam(k, v) => s.(params := Some(Entries(s.params)[k := v]))
    case Headers(fns) => s.(header := ApplyHeaderFns(fns, s.header))
    case Formats(fs) => s.(format := ApplyAll(fs, s.format))
    case Combined(os) => StateFold(s, os)
    case Capture(_) => s
    case Respond(_) => s
    case Closure(f) => f(s)
  }

  /** The closures applied left to right. */
  function StateFold(s: OptionsState, os: seq<Opt>): OptionsState
    decreases os, 0
  {
    if os == [] then s else StateFold(StateStep(s, os[0]), os[1..])
  }

  /** The closure does not panic: Go's map assignment panics on a nil map, so
      no header value may be written while the header map is nil. */
  predicate Safe(s: OptionsState, opt: Opt)
    decreases opt, 1
  {
    match opt
    case Headers(fns) => s.header.Some? || forall i :: 0 <= i < |fns| ==> !fns[i].WritesEntry()
    case Combined(os) => SafeAll(s, os)
    case _ => true
  }

  predicate SafeAll(s: OptionsState, os: seq<Opt>)
    decreases os, 0
  {
    os == [] || (Safe(s, os[0]) && SafeAll(StateStep(s, os[0]), os[1..]))
  }

  /** The option state together with what the closures may write outside it. */
  datatype World = World(
    options: OptionsState,
    captured: map<OptionsRef, Option<OptionsState>>,
    responses: map<ResponseWriter, HeaderOptions>)

  function ResponseOf(w: World, rw: ResponseWriter): HeaderOptions
  {
    if rw in w.responses then w.responses[rw] else map[]
  }

  /** What WriteResponse leaves in the sink's header `dst`: each key of `src`
      with at least one value now holds its last value. */
  function SetAll(dst: HeaderOptions, src: HeaderOptions): HeaderOptions
  {
    dst + map k | k in src && src[k] != [] :: [src[k][|src[k]| - 1]]
  }

  function Step(w: World, opt: Opt): World
    decreases opt, 1
  {
    match opt
    case Combined(os) => Fold(w, os)
    case Capture(r) => w.(captured := w.captured[r := Some(CloneState(w.options))])
    case Respond(rw) => w.(responses := w.responses[rw := SetAll(ResponseOf(w, rw), Entries(w.options.header))])
    case _ => w.(options := StateStep(w.options, opt))
  }

  function Fold(w: World, os: seq<Opt>): World
    decreases os, 0
  {
    if os == [] then w else Fold(Step(w, os[0]), os[1..])
  }

  /** The capture targets a closure may write. */
  function Refs(opt: Opt): set<OptionsRef>
    decreases opt, 1
  {
    match opt
    case Combined(os) => RefsAll(os)
    case Capture(r) => {r}
    case _ => {}
  }

  function RefsAll(os: seq<Opt>): set<OptionsRef>
    decreases os, 0
  {
    if os == [] then {} else Refs(os[0]) + RefsAll(os[1..])
  }

  /** The response writers a closure may write. */
  function Sinks(opt: Opt): set<ResponseWriter>
    decreases opt, 1
  {
    match opt
    case Combined(os) => SinksAll(os)
    case Respond(rw) => {rw}
    case _ => {}
  }

  function SinksAll(os: seq<Opt>): set<ResponseWriter>
    decreases os, 0
  {
    if os == [] then {} else Sinks(os[0]) + SinksAll(os[1..])
  }

  lemma {:induction false} FramesOfElement(os: seq<Opt>, i: nat)
    requires i < |os|
    ensures Refs(os[i]) <= RefsAll(os) && Sinks(os[i]) <= SinksAll(os)
  {
    if i > 0 {
      FramesOfElement(os[1..], i - 1);
    }
  }

  function Captures(refs: set<OptionsRef>): map<OptionsRef, Option<OptionsState>>
    reads refs
  {
    map r | r in refs :: r.captured
  }

  function Responses(sinks: set<ResponseWriter>): map<ResponseWriter, HeaderOptions>
    reads sinks
  {
    map rw | rw in sinks :: rw.header
  }

  class Options {
    var name: string
    var timeout: int
    var format: FormatOptions
    var header: Option<HeaderOptions>
    var params: Option<Params>

    function State(): OptionsState
      reads this
    {
      OptionsState(name, timeout, format, header, params)
    }

    /** The option state and the given capture targets and response writers. */
    function View(refs: set<OptionsRef>, sinks: set<ResponseWriter>): World
      reads this, refs, sinks
    {
      World(State(), Captures(refs), Responses(sinks))
    }

    /** `&Options{}` */
    constructor Zero()
      ensures State() == ZeroState
    {
      name := "";
      timeout := 0;
      format := Empty;
      header := None;
      params := None;
    }

    /** NewOptions: a zero Options, then Reset. */
    constructor ()
      ensures State() == Defaults
    {
      name := "";
      timeout := 0;
      format := Empty;
      params := Some(map[]);
      header := Some(map[]);
    }

    /** Reset: defaults for every field, whatever the prior state. */
    method Reset() returns (self: Options)
      modifies this
      ensures self == this
      ensures State() == Defaults
    {
      name := "";
      timeout := 0;
      format := Empty;
      params := Some(map[]);
      header := Some(map[]);
      self := this;
    }

    /** Clone: a new Options whose maps are copied entry by entry. */
    method Clone() returns (c: Options)
      ensures fresh(c)
      ensures c.State() == CloneState(State())
    {
      c := new Options.Zero();
      c.name := name;
      c.timeout := timeout;
      c.format := format.Clone();
      var ps := Entries(params);
      var copied: Params := map[];
      var keys := ps.Keys;
      while keys != {}
        invariant keys <= ps.Keys
        invariant copied == ps - keys
        decreases keys
      {
        var k :| k in keys;
        copied := copied[k := ps[k]];
        keys := keys - {k};
      }
      assert copied == ps;
      c.params := Some(copied);
      var hs := Entries(header);
      var hcopy: HeaderOptions := map[];
      var hkeys := hs.Keys;
      while hkeys != {}
        invariant hkeys <= hs.Keys
        invariant hcopy == hs - hkeys
        decreases hkeys
      {
        var k :| k in hkeys;
        hcopy := hcopy[k := hs[k]];  // a copy of the slice: a seq is a value
        hkeys := hkeys - {k};
      }
      assert hcopy == hs;
      c.header := Some(hcopy);
    }

    /** ContentType: the first Content-Type value, or "". */
    function ContentType(): (r: string)
      reads this
      ensures r == ContentTypeOf(State())
    {
      Get(Entries(header), "Content-Type")
    }

    /** Calls the closure `opt` on this Options. */
    method Apply(opt: Opt, ghost refs: set<OptionsRef>, ghost sinks: set<ResponseWriter>)
      requires Refs(opt) <= refs && Sinks(opt) <= sinks
      requires Safe(State(), opt)
      modifies this, Refs(opt), Sinks(opt)
      ensures View(refs, sinks) == Step(old(View(refs, sinks)), opt)
      decreases opt, 1
    {
      match opt
      case SetName(n) =>
        name := n;
      case SetTimeout(d) =>
        timeout := d;
      case SetParam(k, v) =>
        if params.None? {
          params := Some(map[]);
        }
        params := Some(params.value[k := v]);
      case Headers(fns) =>
        var i := 0;
        while i < |fns|
          invariant 0 <= i <= |fns|
          invariant header == ApplyHeaderFns(fns[..i], old(header))
          invariant unchanged(Refs(opt)) && unchanged(Sinks(opt))
          invariant name == old(name) && timeout == old(timeout) && format == old(format) && params == old(params)
        {
          if header.Some? {
            HeaderFoldAppend(fns[..i], [fns[i]], old(header).value);
            header := Some(fns[i].ApplyTo(header.value));
          }
          assert fns[..i + 1] == fns[..i] + [fns[i]];
          i := i + 1;
        }
        assert fns[..i] == fns;
      case Formats(fs) =>
        var i := 0;
        while i < |fs|
          invariant 0 <= i <= |fs|
          invariant format == ApplyAll(fs[..i], old(format))
          invariant unchanged(Refs(opt)) && unchanged(Sinks(opt))
          invariant name == old(name) && timeout == old(timeout) && header == old(header) && params == old(params)
        {
          ApplyAllAppend(fs[..i], [fs[i]], old(format));
          format := fs[i].ApplyTo(format);
          assert fs[..i + 1] == fs[..i] + [fs[i]];
          i := i + 1;
        }
        assert fs[..i] == fs;
      case Combined(os) =>
        ApplyEach(os, refs, sinks);
      case Capture(r) =>
        var c := Clone();
        r.captured := Some(c.State());
      case Respond(rw) =>
        WriteTo(rw, sinks);
      case Closure(f) =>
        var s := f(State());
        name := s.name;
        timeout := s.timeout;
        format := s.format;
        header := s.header;
        params := s.params;
    }

    /** The loop of With: each closure in turn. */
    method ApplyEach(os: seq<Opt>, ghost refs: set<OptionsRef>, ghost sinks: set<ResponseWriter>)
      requires RefsAll(os) <= refs && SinksAll(os) <= sinks
      requires SafeAll(State(), os)
      modifies this, RefsAll(os), SinksAll(os)
      ensures View(refs, sinks) == Fold(old(View(refs, sinks)), os)
      decreases os, 0
    {
      ghost var w0 := View(refs, sinks);
      var i := 0;
      while i < |os|
        invariant 0 <= i <= |os|
        invariant View(refs, sinks) == Fold(w0, os[..i])
        invariant SafeAll(State(), os[i..])
      {
        FramesOfElement(os, i);
        assert os[i..][1..] == os[i + 1..];
        ghost var before := View(refs, sinks);
        Apply(os[i], refs, sinks);
        StepOptions(before, os[i]);
        FoldAppend(w0, os[..i], [os[i]]);
        assert os[..i + 1] == os[..i] + [os[i]];
        i := i + 1;
      }
      assert os[..i] == os;
    }

    /** The closure of WriteResponse: for every header key, in the map's
        unspecified order, Set each of its values in turn on the sink. */
    method WriteTo(rw: ResponseWriter, ghost sinks: set<ResponseWriter>)
      requires rw in sinks
      modifies rw
      ensures Responses(sinks) == old(Responses(sinks))[rw := SetAll(old(rw.header), Entries(header))]
    {
      var h := Entries(header);
      var keys := h.Keys;
      ghost var start := rw.header;
      while keys != {}
        invariant keys <= h.Keys
        invariant rw.header == SetAll(start, h - keys)
        invariant forall s :: s in sinks && s != rw ==> s.header == old(s.header)
        decreases keys
      {
        var k :| k in keys;
        var vs := h[k];
        ghost var before := rw.header;
        var j := 0;
        while j < |vs|
          invariant 0 <= j <= |vs|
          invariant rw.header == if j == 0 then before else before[k := [vs[j - 1]]]
          invariant forall s :: s in sinks && s != rw ==> s.header == old(s.header)
        {
          rw.Set(k, vs[j]);
          j := j + 1;
        }
        SetAllStep(start, h, keys, k);
        keys := keys - {k};
      }
      assert h - keys == h;
    }

    /** Use: the closures in order, returning the receiver. */
    method Use(opts: seq<Opt>, ghost refs: set<OptionsRef>, ghost sinks: set<ResponseWriter>)
      returns (self: Options)
      requires RefsAll(opts) <= refs && SinksAll(opts) <= sinks
      requires SafeAll(State(), opts)
      modifies this, RefsAll(opts), SinksAll(opts)
      ensures self == this
      ensures View(refs, sinks) == Fold(old(View(refs, sinks)), opts)
    {
      ghost var w0 := View(refs, sinks);
      var i := 0;
      while i < |opts|
        invariant 0 <= i <= |opts|
        invariant View(refs, sinks) == Fold(w0, opts[..i])
        invariant SafeAll(State(), opts[i..])
      {
        FramesOfElement(opts, i);
        assert opts[i..][1..] == opts[i + 1..];
        ghost var before := View(refs, sinks);
        Apply(opts[i], refs, sinks);
        StepOptions(before, opts[i]);
        FoldAppend(w0, opts[..i], [opts[i]]);
        assert opts[..i + 1] == opts[..i] + [opts[i]];
        i := i + 1;
      }
      assert opts[..i] == opts;
      self := this;
    }
  }

  /** One more key handled by WriteResponse's loop. */
  lemma SetAllStep(start: HeaderOptions, h: HeaderOptions, keys: set<string>, k: string)
    requires k in keys && keys <= h.Keys
    ensures SetAll(start, h - (keys - {k}))
         == if h[k] == [] then SetAll(start, h - keys) else SetAll(start, h - keys)[k := [h[k][|h[k]| - 1]]]
  {
  }

  /** The option state evolves through Step exactly as through StateStep. */
  lemma {:induction false} StepOptions(w: World, opt: Opt)
    ensures Step(w, opt).options == StateStep(w.options, opt)
    decreases opt, 1
  {
    match opt
    case Combined(os) => FoldOptions(w, os);
    case _ =>
  }

  lemma {:induction false} FoldOptions(w: World, os: seq<Opt>)
    ensures Fold(w, os).options == StateFold(w.options, os)
    decreases os, 0
  {
    if os != [] {
      StepOptions(w, os[0]);
      FoldOptions(Step(w, os[0]), os[1..]);
    }
  }

  /** Folding `a` then `b` is folding `a + b`: chained Use calls accumulate. */
  lemma {:induction false} FoldAppend(w: World, a: seq<Opt>, b: seq<Opt>)
    ensures Fold(w, a + b) == Fold(Fold(w, a), b)
    decreases a
  {
    if a == [] {
      assert a + b == b;
    } else {
      assert (a + b)[1..] == a[1..] + b;
      FoldAppend(Step(w, a[0]), a[1..], b);
    }
  }

  /** With(os) inside a list of options is the same as its members in its place. */
  lemma WithFlattens(w: World, a: seq<Opt>, os: seq<Opt>, b: seq<Opt>)
    ensures Fold(w, a + [With(os)] + b) == Fold(w, a + os + b)
  {
    FoldAppend(w, a + [With(os)], b);
    FoldAppend(w, a, [With(os)]);
    FoldAppend(w, a + os, b);
    FoldAppend(w, a, os);
  }

  /** Param(k, v) sets exactly the key k, allocating a nil map first. */
  lemma ParamSetsExactlyKey(s: OptionsState, k: string, v: string)
    ensures var r := StateStep(s, Param(k, v));
      && r.params.Some?
      && r.params.value.Keys == Entries(s.params).Keys + {k}
      && r.params.value[k] == v
      && (forall j :: j in Entries(s.params) && j != k ==> r.params.value[j] == Entries(s.params)[j])
      && r.(params := s.params) == s
  {
  }

  lemma ParamOnZeroOptions(k: string, v: string)
    ensures StateStep(ZeroState, Param(k, v)).params == Some(map[k := v])
  {
  }

  /** Separator(sep) is Param("separator", sep). */
  lemma SeparatorIsParam(s: OptionsState, sep: string)
    ensures StateStep(s, Separator(sep)) == StateStep(s, Param("separator", sep))
    ensures Entries(StateStep(s, Separator(sep)).params)["separator"] == sep
  {
  }

  /** Mime replaces any Content-Type with its single value and touches no other
      key: the formatted type when a charset is given, the type verbatim otherwise. */
  lemma MimeReplacesContentType(s: OptionsState, t: string, cs: seq<string>)
    requires s.header.Some?
    ensures var r := StateStep(s, Mime(t, cs));
      && r.header == Some(s.header.value["Content-Type" := [ContentTypeValue(t, cs)]])
      && ContentTypeOf(r) == (if cs == [] then t else FormatMediaType(t, cs[0]))
      && r.(header := s.header) == s
  {
    HeaderFoldOne(SetContentType(t, cs), s.header.value);
  }

  /** With a token type and a token charset, Mime(major/sub, [cs]) stores
      "major/sub; charset=cs" with the type lower-cased. */
  lemma MimeTokenForm(s: OptionsState, major: string, sub: string, cs: string)
    requires s.header.Some?
    requires IsToken(major) && IsToken(sub) && IsToken(cs)
    ensures ContentTypeOf(StateStep(s, Mime(major + "/" + sub, [cs])))
         == ToLower(major) + "/" + ToLower(sub) + "; charset=" + cs
  {
    MimeReplacesContentType(s, major + "/" + sub, [cs]);
    TokenMediaType(major, sub, cs);
  }

  /** MimeUTF8(t) is Mime(t, "utf-8"). */
  lemma MimeUTF8IsMime(s: OptionsState, t: string)
    ensures StateStep(s, MimeUTF8(t)) == StateStep(s, Mime(t, ["utf-8"]))
  {
  }

  /** The Mime of this model computes its value from its arguments alone, so
      applying the same option value twice is applying it once. */
  lemma MimeIdempotent(s: OptionsState, t: string, cs: seq<string>)
    ensures StateStep(StateStep(s, Mime(t, cs)), Mime(t, cs)) == StateStep(s, Mime(t, cs))
  {
    if s.header.Some? {
      var h := s.header.value;
      HeaderFoldOne(SetContentType(t, cs), h);
      HeaderFoldOne(SetContentType(t, cs), h["Content-Type" := [ContentTypeValue(t, cs)]]);
      var v := [ContentTypeValue(t, cs)];
      assert h["Content-Type" := v]["Content-Type" := v] == h["Content-Type" := v];
    }
  }

  /** UseCRLF() sets the line ending to "\r\n" and nothing else. */
  lemma UseCRLFSetsLineEnding(s: OptionsState)
    ensures StateStep(s, UseCRLF()) == StateStep(s, Format([LineEnding("\r\n")]))
    ensures StateStep(s, UseCRLF()) == s.(format := s.format.(lineEnding := "\r\n"))
  {
    ApplyAllOne(LineEnding("\r\n"), s.format);
  }

  /** Textf(a) sets the format arguments to exactly a and nothing else. */
  lemma TextfSetsArgs(s: OptionsState, a: seq<Value>)
    ensures StateStep(s, Textf(a)) == s.(format := s.format.(args := a))
  {
    ApplyAllOne(Args(a), s.format);
  }

  /** Format applies its formatters in order, so the last indentation set wins. */
  lemma FormatLastIndentWins(s: OptionsState, fs: seq<Formatter>, i: string, gs: seq<Formatter>)
    requires forall k :: 0 <= k < |gs| ==> KeepsIndent(gs[k])
    ensures StateStep(s, Format(fs + [Indent(i)] + gs)).format.indent == i
  {
    LastIndentWins(fs, i, gs, s.format);
  }

  lemma {:induction false} StepKeepsCapture(w: World, opt: Opt, r: OptionsRef)
    requires r !in Refs(opt) && r in w.captured
    ensures r in Step(w, opt).captured && Step(w, opt).captured[r] == w.captured[r]
    decreases opt, 1
  {
    match opt
    case Combined(os) => FoldKeepsCapture(w, os, r);
    case _ =>
  }

  lemma {:induction false} FoldKeepsCapture(w: World, os: seq<Opt>, r: OptionsRef)
    requires r !in RefsAll(os) && r in w.captured
    ensures r in Fold(w, os).captured && Fold(w, os).captured[r] == w.captured[r]
    decreases os, 0
  {
    if os != [] {
      StepKeepsCapture(w, os[0], r);
      FoldKeepsCapture(Step(w, os[0]), os[1..], r);
    }
  }

  /** CaptureOptions stores a clone of the state at the moment it runs: options
      applied after it do not reach the captured copy. */
  lemma CaptureStoresSnapshot(w: World, r: OptionsRef, os: seq<Opt>)
    requires r !in RefsAll(os)
    ensures r in Fold(w, [CaptureOptions(r)] + os).captured
    ensures Fold(w, [CaptureOptions(r)] + os).captured[r] == Some(CloneState(w.options))
  {
    assert ([CaptureOptions(r)] + os)[1..] == os;
    FoldKeepsCapture(Step(w, CaptureOptions(r)), os, r);
  }

  /** WriteResponse leaves each key that has values holding its last value, and
      every other key of the sink as it was. */
  lemma WriteResponseLastValue(w: World, rw: ResponseWriter, k: string)
    ensures var h := Entries(w.options.header);
      var out := Step(w, WriteResponse(rw)).responses[rw];
      && (k in h && h[k] != [] ==> k in out && out[k] == [h[k][|h[k]| - 1]])
      && (!(k in h && h[k] != []) ==> (k in out <==> k in ResponseOf(w, rw)))
      && (!(k in h && h[k] != []) && k in out ==> out[k] == ResponseOf(w, rw)[k])
  {
  }

  /** The closure options.go's Mime returns, as written: the `mediatype`
      variable it captures is overwritten with the formatted value on each call. */
  class MimeClosure {
    var mediatype: string
    const charset: seq<string>

    constructor (mediatype: string, charset: seq<string>)
      ensures this.mediatype == mediatype && this.charset == charset
    {
      this.mediatype := mediatype;
      this.charset := charset;
    }

    method Call(h: HeaderOptions) returns (r: HeaderOptions)
      modifies this
      ensures mediatype == ContentTypeValue(old(mediatype), charset)
      ensures r == h["Content-Type" := [mediatype]]
    {
      if |charset| > 0 {
        mediatype := FormatMediaType(mediatype, charset[0]);
      }
      r := h["Content-Type" := [mediatype]];
    }
  }

  /** Calling one Mime(t, c) option value twice, as written, leaves "" as the
      Content-Type: the second call formats the already formatted value. */
  method MimeReuseAsWritten(t: string, c: string) returns (first: string, second: string)
    requires FormatMediaType(t, c) != ""
    ensures first == FormatMediaType(t, c)
    ensures second == ""
  {
    var m := new MimeClosure(t, [c]);
    var h1 := m.Call(map[]);
    var h2 := m.Call(h1);
    first := Get(h1, "Content-Type");
    second := Get(h2, "Content-Type");
    FormattedIsNotAType(t, c);
  }
}

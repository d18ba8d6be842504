# render: a Dafny model of its own logic

`github.com/nanoninja/render` is a thin Go layer that renders a value as text,
JSON, JSONP, XML or CSV into an `io.Writer`, configured by functional options
(`func(*Options)`), with a buffering decorator and a template-loader layer
(in-memory, file-system, embedded and composite loaders). The encoders
themselves are Go's standard library. This project models the layer's own
logic and proves what it promises:

- the configuration algebra: the `Options` and `FormatOptions` records, the
  option closures, and `Use`/`With`/`Format` applying them left to right
  (`options.dfy`, `format.dfy`);
- the cancellation poll and the default content types (`render.dfy`), with
  `mime.FormatMediaType` for the one `charset` parameter (`mediatype.dfy`);
- the all-or-nothing `BufferRenderer` (`buffer.dfy`);
- the option rules of the text, JSON, XML and CSV renderers, over encoders
  passed in as functions (`text.dfy`, `json.dfy`, `xml.dfy`, `csv.dfy`);
- the `nl2br` and `toHTML` template functions (`funcs.dfy`);
- the loaders: the shared base and extension filter, the walk callback
  pattern (`loader.dfy`), and the string, composite, file-system and embedded
  loaders (`string_loader.dfy`, `composite.dfy`, `fs_loader.dfy`,
  `embed_loader.dfy`), over the lexical path functions of `path/filepath`
  (`paths.dfy`).

Shared pieces: `wrappers.dfy` (Option, Result), `errors.dfy` (one datatype for
every error the code creates or inspects, with `errors.Is`, `errors.Unwrap`
and `os.IsNotExist`), `values.dfy` (the dynamic `data any` argument) and
`gostrings.dfy` (the few `strings` functions used).

Modelling choices:

- A Go string is a `seq<char>`, one `char` per byte.
- An `*Options` is a class whose fields the option methods update. `Apply` and
  `Use` are loops, proved against the pure `StateStep`/`Fold` functions.
  The objects an option may write outside the options are part of the `World`;
  these are the target of `CaptureOptions` and the sink of `WriteResponse`.
- A `context.Context` is the sequence of outcomes its successive polls see.
- An `io.Writer` records every payload it is given. The error it returns on
  each call is fixed in advance.
- File systems, walks, encoders, `fmt.Sprintf`, `filepath.Rel` and user
  callbacks are function parameters.
- The file-system model is of a system whose path separator is '/'.
- Go map iteration order is an arbitrary choice (`:|`). Every contract over it
  is independent of the order.

## Model

| member | source | states |
|---|---|---|
| Formatting.FormatOptions.Clone | format.go:40-48 | the clone equals the original in every field, including args, which is an independent copy because a sequence is a value |
| Formatting.FormatOptions.LineEnding | format.go:56-61 | "\n" when the field is empty, the stored value otherwise, and never "" |
| Formatting.ApplyAllOne | format.go:82-88 | Format with a single formatter applies exactly that formatter |
| Formatting.ApplyAllAppend | format.go:82-88 | applying formatters a then b equals applying a + b: formatters run in order |
| Formatting.CombinatorsTouchOneField | format.go:91-113 | Comment(m) sets prefix to m + " "; Pretty sets pretty and leaves indent alone; Indent, Prefix, LineEnding and Args each change exactly their own field |
| Formatting.LastIndentWins | format.go:82-88 | the last Indent in a Format list wins over earlier ones when later formatters leave indent alone |
| Options.CloneState | options.go:46-61 | a clone keeps name, timeout and format, and holds allocated copies of both maps with the same entries (a nil map becomes an empty one) |
| Options.Get | options.go:70-72 | the first value stored under a key, or "" when the key is absent or holds no values |
| Options.Options.Zero | options.go:33 | an `&Options{}` literal: zero fields and nil maps |
| Options.Options.constructor | options.go:32-34 | NewOptions: empty name, zero timeout, empty format, and allocated empty params and header |
| Options.Options.Reset | options.go:102-112 | whatever the prior state, every field is back at its default, both maps are allocated and empty, and the receiver is returned |
| Options.Options.Clone | options.go:46-61 | a fresh Options is built with the two map-copy loops, and its state is CloneState of the original's |
| Options.Options.ContentType | options.go:70-72 | the first Content-Type value, or "" |
| Options.Options.Apply | options.go:185-271 | one option call changes the options and the capture targets and response sinks exactly as Step says, for every built-in option and for a caller's closure |
| Options.Options.ApplyEach | options.go:265-271 | With's loop: the options in order, as Fold |
| Options.Options.WriteTo | options.go:282-290 | WriteResponse's nested loop leaves the sink's header as SetAll says, whatever the order of the keys, and changes no other sink |
| Options.Options.Use | options.go:145-150 | the options applied left to right, as Fold, returning the receiver |
| Options.ResponseWriter.Set | options.go:286 | Header().Set: the key holds exactly the one value |
| Options.HeaderFoldAppend | options.go:185-191 | Header's functions are applied in order: running a then b equals running a + b |
| Options.FoldAppend | options.go:145-150 | Use(a) then Use(b) equals Use(a + b): chained calls accumulate |
| Options.WithFlattens | options.go:265-271 | With(os) among other options equals os itself in its place |
| Options.ParamSetsExactlyKey | options.go:239-246 | Param(k, v) allocates a nil map, sets k to v, keeps every other key and changes no other field |
| Options.ParamOnZeroOptions | options.go:239-246 | on a zero Options (nil map), Param leaves the map holding exactly k: v |
| Options.SeparatorIsParam | options.go:253-255 | Separator(s) equals Param("separator", s) |
| Options.MimeReplacesContentType | options.go:207-216 | Content-Type becomes the single value "t" when no charset is given, or FormatMediaType(t, cs) when one is; every other key and field is unchanged |
| Options.MimeTokenForm | options.go:207-216 | with token type words and a token charset, the value is "major/sub; charset=cs" with the type lower-cased |
| Options.MimeUTF8IsMime | options.go:228-230 | MimeUTF8(t) equals Mime(t, "utf-8") |
| Options.MimeIdempotent | options.go:207-216 | the intended Mime, whose value depends only on its arguments: applying the same option twice equals applying it once |
| Options.UseCRLFSetsLineEnding | format.go:138-140 | UseCRLF() equals Format(LineEnding("\r\n")) and changes nothing but the line ending |
| Options.TextfSetsArgs | format.go:122-124 | Textf(a) sets the format arguments to exactly a and changes nothing else |
| Options.FormatLastIndentWins | format.go:82-88 | through Options, the last Indent of a Format call wins |
| Options.CaptureStoresSnapshot | options.go:160-162 | CaptureOptions stores a clone of the state at the moment it runs; options applied afterwards do not reach the copy |
| Options.WriteResponseLastValue | options.go:282-290 | each header key with values ends holding its last value in the sink; every other key of the sink is kept as it was |
| Options.MimeClosure.constructor | options.go:207-208 | the closure Mime returns captures its arguments |
| Options.MimeClosure.Call | options.go:208-215 | as written: each call overwrites the captured media type with its formatted form, then sets Content-Type to it |
| Options.MimeReuseAsWritten | options.go:207-216 | as written: calling the same Mime(t, c) closure twice gives FormatMediaType(t, c) the first time and "" the second |
| MediaType.TokenMediaType | options.go:209-213 | for token words and a token charset the result is "major/sub; charset=cs", lower-cased type |
| MediaType.FormattedIsNotAType | options.go:210 | formatting an already formatted non-empty value gives "", because ';' is never part of a token |
| Render.CheckContext | render.go:85-92 | nil exactly when the poll finds the context live, otherwise Canceled or DeadlineExceeded |
| Render.DoneStaysDone | render.go:85-92 | for a context that cannot come back from done, a later poll returns the same error |
| Render.MimeTextPlainForm | render.go:32-34 | Content-Type "text/plain; charset=utf-8" |
| Render.MimeTextHTMLForm | render.go:38-40 | Content-Type "text/html; charset=utf-8" |
| Render.MimeJSONForm | render.go:44-46 | Content-Type "application/json; charset=utf-8" |
| Render.MimeXMLForm | render.go:50-52 | Content-Type "application/xml; charset=utf-8" |
| Render.MimeCSVForm | render.go:56-58 | Content-Type "text/csv; charset=utf-8" |
| Render.MimeYAMLForm | render.go:79-81 | Content-Type "application/yaml; charset=utf-8" |
| Render.DefaultContentTypes | render.go:32-81 | every helper replaces any prior Content-Type: the six UTF-8 types with "; charset=utf-8"; Binary and Stream give "application/octet-stream" and PDF gives "application/pdf", without a charset |
| Render.Prepare | json.go:67-69 | NewOptions().Use(mime).Use(opts...): a fresh Options in the state Resolve describes, the renderer's default first |
| Render.DefaultApplies | json.go:67-69 | with no caller options the state is the default type's alone |
| Render.UserMimeOverrides | csv.go:37-39 | caller options run after the default type, so a caller's Mime is the resulting Content-Type |
| Render.PrettyFormatOption | json.go:80 | Format(Pretty(), Prefix(p), Indent(i)) gives pretty mode with exactly that prefix and indent |
| Render.PlainFormatOption | json.go:80 | without Pretty(), pretty mode stays off |
| Render.RendererDefaultTypes | text.go:44-46 | with no caller options the text, JSON, XML and CSV renderers' Content-Type is their UTF-8 default |
| BufferRender.BufferRenderer.NewBuffer | buffer.go:70-76 | the renderer, size and hook are stored as configured |
| BufferRender.BufferRenderer.Buffer | buffer.go:53-55 | NewBuffer with the zero configuration: no hook |
| BufferRender.BufferRenderer.RenderContext | buffer.go:93-127 | the error, the checkpoint sequence and the sink's writes are those of Run; the buffer's initial size has no influence |
| BufferRender.BufferRenderer.Render | buffer.go:80-82 | RenderContext with a context that is never done |
| BufferRender.PreCancelled | buffer.go:94-96 | a context done on entry: its error, the inner renderer is not called, and nothing is written |
| BufferRender.InnerFailure | buffer.go:103-105 | an inner failure is returned wrapped in "buffer render: "; errors.Is still finds it; nothing is written |
| BufferRender.ExactBytes | buffer.go:121-126 | without a hook the sink gets exactly the inner renderer's bytes, and the write's error comes back unwrapped |
| BufferRender.Transformed | buffer.go:110-119 | with a hook that succeeds the sink gets exactly the transformed bytes |
| BufferRender.PostFailure | buffer.go:115-117 | a hook failure comes back wrapped in "post-processing: " and nothing is written |
| BufferRender.CancelledBeforeHook | buffer.go:111-113 | a context done at the second poll prevents the hook and the write |
| BufferRender.CancelledBeforeWrite | buffer.go:121-123 | a context done at the third poll prevents the write after the hook ran |
| BufferRender.AllOrNothing | buffer.go:93-127 | the sink is written exactly when the write step is taken; it is written once and last, with the inner or the transformed bytes, and its error is returned; when nothing is written an error is returned |
| TextRender.TextRenderer.RenderContext | text.go:40-64 | a done context returns its error and writes nothing; otherwise one write of TextOutput for the resolved options, whose error is returned |
| TextRender.TextRenderer.Emit | text.go:48-63 | the type switch's text (a string formats the Textf arguments, then String(), then Error(), then the %v form), a newline in pretty mode, written once with the sink's error returned |
| TextRender.TextRenderer.Render | text.go:31-33 | RenderContext with a context that is never done |
| TextRender.PrettyAddsNewline | text.go:59-61 | pretty mode appends exactly "\n", even when the line ending is "\r\n" |
| TextRender.TextfArguments | text.go:50-51 | a string datum is a format for exactly the arguments of Textf |
| JsonRender.JSONRenderer.JSON | json.go:38-43 | JSON(): HTML escaping on, two-space indent, no prefix or padding |
| JsonRender.JSONRenderer.NewJSON | json.go:47-49 | the configuration as given, so that NewJSON(JSONConfig{}) has HTML escaping off |
| JsonRender.JSONRenderer.RenderContext | json.go:63-93 | a done context returns its error and writes nothing; otherwise the default type goes in first, then the caller's options, and the writes and error are JSONRun's |
| JsonRender.JSONRenderer.Emit | json.go:71-92 | the padding's opening, the encoding and the deferred ")" are written as JSONRun says |
| JsonRender.JSONRenderer.Render | json.go:53-55 | RenderContext with a context that is never done |
| JsonRender.JSONPWrapping | json.go:71-76 | with padding the bytes written are padding + "(" + encoding + ")" in three writes |
| JsonRender.PlainJSON | json.go:77-92 | without padding: the encoding in one write, or nothing and the encoder's error |
| JsonRender.PaddingWriteFails | json.go:72-74 | a failed write of the padding's opening is returned before encoding, and nothing else is written |
| JsonRender.EncodeFailsStillCloses | json.go:75 | an encoding error is returned, and the deferred ")" is still written |
| JsonRender.PrettyPrecedence | json.go:80-91 | in pretty mode a non-empty option prefix or indent wins; an empty one leaves the configuration's |
| JsonRender.NoLayoutWithoutPretty | json.go:80-91 | outside pretty mode no layout is set |
| XmlRender.XMLRenderer.XML | xml.go:40-45 | XML(): two-space indent, empty prefix, declaration on |
| XmlRender.XMLRenderer.NewXML | xml.go:49-51 | the configuration as given |
| XmlRender.XMLRenderer.RenderContext | xml.go:66-94 | a done context returns its error and writes nothing; otherwise the writes and error are XMLRun's for the resolved options |
| XmlRender.XMLRenderer.Emit | xml.go:74-93 | the declaration and the encoding are written as XMLRun says |
| XmlRender.XMLRenderer.Render | xml.go:57-59 | RenderContext with a context that is never done |
| XmlRender.HeaderFirst | xml.go:74-78 | with the declaration on and accepted, the output begins with it |
| XmlRender.NoHeader | xml.go:74-78 | with it off, only the encoder's bytes are written |
| XmlRender.HeaderWriteFails | xml.go:75-77 | a failed declaration write is returned before encoding |
| XmlRender.PrettyPrecedence | xml.go:81-92 | in pretty mode a non-empty option prefix or indent overrides the configuration's |
| XmlRender.NoLayoutWithoutPretty | xml.go:81-92 | outside pretty mode Indent is not called |
| CsvRender.SeparatorParam | csv.go:42 | the "separator" parameter, "" when it is missing or the map is nil |
| CsvRender.Settings | csv.go:41-47 | the delimiter is the first byte of a non-empty separator, otherwise ','; CRLF is on exactly when the line ending field is "\r\n" |
| CsvRender.CSVRenderer.RenderContext | csv.go:33-53 | a done context returns its error before the options are touched; otherwise the writes and error are CSVRun's for the resolved options |
| CsvRender.CSVRenderer.Emit | csv.go:41-52 | the writer is configured from the options' Settings, and the writes and error are CSVRun's |
| CsvRender.CSVRenderer.Render | csv.go:26-28 | RenderContext with a context that is never done |
| CsvRender.SeparatorChoice | csv.go:42-44 | the caller's Separator(sep) gives its first byte when sep is non-empty, ',' otherwise |
| CsvRender.DefaultSettings | csv.go:41-47 | without caller options: ',' and "\n" |
| CsvRender.CRLFChoice | csv.go:45-47 | UseCRLF() selects "\r\n" line endings |
| CsvRender.InvalidDataRejected | csv.go:48-51 | data that is not a [][]string gives ErrInvalidData itself, and nothing is written |
| CsvRender.EmptyRecords | csv.go:52 | no records: nothing written and no error |
| CsvRender.InvalidDelimiter | csv.go:52 | a delimiter the writer refuses fails with nothing written |
| CsvRender.OneWrite | csv.go:52 | a non-empty record list with a valid delimiter is flushed in one write whose bytes end with the line ending, and that write's error is returned |
| CsvRender.PlainFieldsJoined | csv.go:52 | fields that need no quoting are written verbatim, joined by the delimiter |
| CsvRender.PlainRecords | csv.go:52 | records of such fields are written independently of the quoting function, each line being its fields joined by the delimiter followed by the line ending |
| TmplFuncs.EscapeByte | tmpl/funcs.go:41 | a byte is left alone exactly when it is not one of `"`, `'`, `&`, `<`, `>` or NUL; a line feed appears in the output exactly when the byte is one |
| TmplFuncs.ToHTML | tmpl/funcs.go:25-27 | the content is the string unchanged |
| TmplFuncs.Nl2brIsScan | tmpl/funcs.go:36-48 | the chain of replacements, escaping and replacement equals one left-to-right scan that turns "\r\n" or "\n" into "<br>" and escapes every other byte |
| TmplFuncs.NoNewlineInOutput | tmpl/funcs.go:38-44 | no line feed survives |
| TmplFuncs.LineBreaks | tmpl/funcs.go:36-48 | "\n" and "\r\n" each become exactly one "<br>", wherever they stand |
| TmplFuncs.EscapesMarkup | tmpl/funcs.go:41 | "<" becomes "&lt;" and ">" becomes "&gt;", wherever they stand |
| TmplFuncs.PlainTextUnchanged | tmpl/funcs.go:36-48 | text with no line break and no byte to escape is returned unchanged |
| Loaders.NewBase | tmpl/loader/loader.go:31-41 | root and extension are stored unchanged; the separator is "/" for embedded file systems and the system's otherwise |
| Loaders.ExtensionFilter | tmpl/loader/loader.go:45-50 | with no extension every path passes; otherwise a path passes exactly when it ends with the extension |
| Loaders.NotFound | tmpl/loader/string.go:56 | ErrTemplateNotFound wrapped, with the message "template not found: " + name |
| Loaders.CollectOutcome | tmpl/loader/fs.go:63-96 | a walk fails exactly when some callback returns an error, and then with the first one; otherwise its names are those the callbacks added, in walk order |
| Loaders.Walk | tmpl/loader/fs.go:63-93 | the walk loop, with its callback appending to a list, returns Collect |
| StringLoaders.StringLoader.NewString | tmpl/loader/string.go:30-35 | the map as given, the base of the configuration, and Extension() equal to the configured extension |
| StringLoaders.StringLoader.Load | tmpl/loader/string.go:40-49 | never an error; the result contains exactly the keys that pass the extension filter, each once, in some order |
| StringLoaders.StringLoader.Read | tmpl/loader/string.go:53-59 | any key that is present gives its content, whatever its extension; an absent key gives ErrTemplateNotFound with the name |
| CompositeLoaders.Classify | tmpl/loader/composite.go:80-83 | a not-found last error gives ErrTemplateNotFound "in any loader"; any other last error gives a composite read error that unwraps to it and is not ErrTemplateNotFound; with no last error the result is still not ErrTemplateNotFound |
| CompositeLoaders.CompositeLoader.NewComposite | tmpl/loader/composite.go:35-40 | the children as given and the base of the configuration |
| CompositeLoaders.CompositeLoader.Load | tmpl/loader/composite.go:45-64 | the nested loops with their seen set return LoadResult |
| CompositeLoaders.CompositeLoader.Read | tmpl/loader/composite.go:68-84 | the loop over children return ReadResult |
| CompositeLoaders.DedupFacts | tmpl/loader/composite.go:56-61 | the merged names have no repeats and are exactly the unseen ones |
| CompositeLoaders.LoadUnion | tmpl/loader/composite.go:50-63 | when every child loads, the result is exactly the union of their names, each once, with no filtering of the composite's own |
| CompositeLoaders.LoadOrder | tmpl/loader/composite.go:55-60 | first seen first: the names of earlier children come before the new names of later ones |
| CompositeLoaders.LoadFailure | tmpl/loader/composite.go:52-54 | a child's Load error aborts with no names and "composite load error: " around it |
| CompositeLoaders.NoChildren | tmpl/loader/composite.go:45-64 | no children: Load gives no names and no error; Read fails with an error that is not ErrTemplateNotFound |
| CompositeLoaders.ReadFirstSuccess | tmpl/loader/composite.go:72-76 | Read returns the content of the first child whose Read succeeds |
| CompositeLoaders.ReadAllFail | tmpl/loader/composite.go:69-83 | when every child fails, the error is classified from the last child's error |
| FSLoaders.RootError | tmpl/loader/fs.go:38-47 | no error exactly when the root is a directory; otherwise an error that is ErrInvalidRoot, whose message is "invalid root path" followed by ": root directory does not exist" for a missing root, ": cannot access root directory: " and the stat error's message for another stat failure, and ": root path is not a directory" for a file |
| FSLoaders.NewFS | tmpl/loader/fs.go:36-49 | a loader over the configuration when the root is a directory, and no loader with RootError otherwise |
| FSLoaders.FSLoader.constructor | tmpl/loader/fs.go:48 | the base of the configuration with the system's separator |
| FSLoaders.ReadError | tmpl/loader/fs.go:119-122 | a missing file gives ErrTemplateNotFound with the name; any other failure is wrapped, unwraps to the cause and is not reported as not found |
| FSLoaders.FSLoader.Visit | tmpl/loader/fs.go:63-93 | walk errors stop the walk; directories and other extensions are skipped; an added name is the entry's relative path with forward slashes; a template file (a symlink only when its cleaned target starts with the cleaned root string) whose relative path resolves is added under that path; a template symlink that cannot be resolved stops with the resolution error; one whose cleaned target does not start with the cleaned root string stops with ErrPathTraversal; a relative path that cannot be computed stops with ErrInvalidPath and "invalid template path: failed to resolve relative path" |
| FSLoaders.FSLoader.Load | tmpl/loader/fs.go:60-98 | the walk through Visit, its error wrapped in "failed to walk directory: " |
| FSLoaders.LoadOnlyTemplates | tmpl/loader/fs.go:63-97 | every listed name is the relative path of a non-directory entry that passes the extension filter |
| FSLoaders.LoadListsTemplates | tmpl/loader/fs.go:51-52 | conversely, a successful Load lists every walked template file (a symlink when its cleaned target starts with the cleaned root string) under its relative path |
| FSLoaders.WalkErrorFails | tmpl/loader/fs.go:94-96 | any walk error makes Load fail |
| FSLoaders.SymlinkOutsideFails | tmpl/loader/fs.go:75-83 | a template symlink whose cleaned target does not start with the cleaned root string makes Load fail, with ErrPathTraversal when nothing failed before it |
| FSLoaders.SymlinkSiblingListed | tmpl/loader/fs.go:75-90 | as written: under the root "/dir/sub" a template symlink whose target is "/dir/subX/file", in a sibling directory, passes the string-prefix guard and is listed |
| FSLoaders.BrokenSymlinkFails | tmpl/loader/fs.go:75-79 | a template symlink that cannot be resolved (a dangling link) makes Load fail, with the resolution error wrapped in "failed to walk directory: " when nothing failed before it |
| FSLoaders.FSLoader.Read | tmpl/loader/fs.go:109-125 | as written: content only when the cleaned join starts with the configured root string and the file reads; ErrPathTraversal when it does not start with it; ReadError otherwise |
| FSLoaders.SiblingEscape | tmpl/loader/fs.go:111-115 | as written: under "/dir/sub", the name "../subX/file" passes the guard and reads "/dir/subX/file" outside the root, while the corrected check refuses it |
| FSLoaders.DotRootRefusesAll | tmpl/loader/fs.go:111-115 | as written: under the root "." every plain name that does not start with '.' is refused as a traversal, while the corrected check accepts it |
| FSLoaders.DotRootAdmitsClimb | tmpl/loader/fs.go:111-115 | as written: under the root "." the name "../w" cleans to "../w", which starts with ".", so it is read outside the root, while the corrected check refuses it |
| FSLoaders.SiblingRefused | tmpl/loader/fs.go:111-115 | the corrected check refuses a climb into a sibling directory |
| FSLoaders.Contained | tmpl/loader/fs.go:111-115 | corrected: an accepted path keeps the root's elements and then only elements that never climb |
| FSLoaders.FSLoader.ReadContained | tmpl/loader/fs.go:109-125 | corrected Read: content only from a contained path; ErrPathTraversal otherwise |
| FSLoaders.ContainedAccepts | tmpl/loader/fs.go:111-115 | corrected: a name without ".." is always accepted, as the root's elements followed by its own |
| FSLoaders.ContainedIsJoin | tmpl/loader/fs.go:111 | corrected: the file read is the one filepath.Join(root, name) names |
| EmbedLoaders.EmbedLoader.NewEmbed | tmpl/loader/embed.go:43-48 | the base of the configuration with "/" as separator, and the file system |
| EmbedLoaders.EmbedLoader.Visit | tmpl/loader/embed.go:63-78 | a walk error stops the walk with that error; a name is added exactly for a non-directory entry that passes the extension filter |
| EmbedLoaders.EmbedLoader.Load | tmpl/loader/embed.go:59-83 | as written: the walk through Visit with NameAsWritten, its error wrapped in "failed to walk embedded filesystem: " |
| EmbedLoaders.LoadOutcome | tmpl/loader/embed.go:63-81 | Load fails exactly when the walk reports an error; otherwise it lists the filtered files in walk order |
| EmbedLoaders.LoadOnlyTemplates | tmpl/loader/embed.go:63-78 | every listed name comes from a walked file that passes the extension filter |
| EmbedLoaders.NameAsWritten | tmpl/loader/embed.go:74-75 | the root, then one "/", removed from the front of the path; when the path starts with the root but no "/" follows, only the root is removed; a path not starting with the root loses only a leading "/" |
| EmbedLoaders.NameUnderRoot | tmpl/loader/embed.go:74-75 | under a root other than ".", "root/rest" is listed as "rest", by the naming as written and by the corrected one |
| EmbedLoaders.LoadThenRead | tmpl/loader/embed.go:74-94 | Read takes the names Load returns: under a root of plain path elements, the name listed for a walked file below it makes Read ask for exactly that file |
| EmbedLoaders.DotFileRenamed | tmpl/loader/embed.go:74-75 | as written: under ".", a walked ".w" is listed as "w", and Read then asks for "w" |
| EmbedLoaders.RelativeName | tmpl/loader/embed.go:74-75 | corrected: under "." the walked path itself, otherwise the name as written |
| EmbedLoaders.EmbedLoader.LoadRelative | tmpl/loader/embed.go:59-83 | corrected Load: names from RelativeName |
| EmbedLoaders.DotFileKept | tmpl/loader/embed.go:74-75 | corrected: under ".", a walked "w" is listed as "w", and Read asks for "w" |
| EmbedLoaders.EmbedLoader.ReadPath | tmpl/loader/embed.go:92-94 | the file asked for is the cleaned join of the root and the slash-normalised name; with an empty root it is the cleaned name, or "" for an empty name |
| EmbedLoaders.EmbedLoader.Read | tmpl/loader/embed.go:90-102 | the content read at ReadPath, or ReadError for the slash-normalised name |
| EmbedLoaders.ReadError | tmpl/loader/embed.go:96-99 | a missing entry gives ErrTemplateNotFound with the name; any other error is wrapped, unwraps to it and is not reported as not found |
| EmbedLoaders.ReadLeavesRoot | tmpl/loader/embed.go:94 | Read performs no containment check: "../w" under a one-word root asks for "w", next to the root |

## Left out

- Encoding itself is not interpreted. `encoding/json`, `encoding/xml`, CSV quoting and `fmt.Sprintf` are parameters. A CSV field that needs quoting, or that has a byte at or above 0x80, is printed by an uninterpreted function.
- CsvRender.OneWrite: the csv writer's bufio buffer holds 4096 bytes. A longer output reaches the sink in several writes, which the model does not split.
- XmlRender.XMLRun: the encoder's output is one write, or none on an error. Any partial output it writes before failing is not modelled.
- Options.String and Dump are not modelled. Their output depends on map iteration order and `time.Duration` formatting.
- The timeout is stored and read back, and nothing enforces it (options.go:25). The model keeps it as an inert field.
- The accessors Name, Format, Header, Params and Timeout are reads of the class's fields.
- MIME header keys are assumed to be in canonical form already. `textproto` canonicalisation is not modelled.
- Options.Options.Apply: a header write on a nil header map panics in Go. The model requires `Safe`, which rules that out, instead of modelling the panic.
- CaptureOptions stores the captured clone's state, not a second `Options` object.
- Options.Mime: an `Opt` is one application of a freshly built closure, and its value depends only on its arguments. So `StateStep`, `Fold`, `Resolve` and `Use` treat every use of one `Mime(t, cs)` value as a new closure. Reusing one charset Mime value, which in Go stores "" the second time, is modelled only by `MimeClosure` and `MimeReuseAsWritten`. The renderers build their default Mime afresh on each call, so their defaults are not affected.
- A context is the sequence of its poll outcomes. No timing and no goroutines are modelled.
- BufferRender.BufferRenderer.RenderContext: the wrapped renderer is a function. What it does to the options or to other objects is not modelled, and its own cancellation polls are not counted among the checkpoints.
- tmpl/html.go, tmpl/text.go and tmpl/tmpl.go are not part of this model. They delegate to `html/template` and `text/template`.
- In tmpl/funcs.go, only `nl2br` and `toHTML` are modelled. The floating-point helpers (`add`, `sub`, `mul`, `div`, `sum`, `avg`) are left out. So are the time helpers (`now`, `date`) and the library string helpers (`lower`, `upper`, `trim`, `contains`).
- `os.Stat`, `filepath.Walk`, `fs.WalkDir`, `filepath.EvalSymlinks`, `os.ReadFile` and the embedded file system's ReadFile are parameters. The walk is the sequence of items it visits.
- `filepath.Rel` is an uninterpreted parameter.
- The system separator is '/', so `filepath.ToSlash` changes nothing. Windows paths are not modelled.
- The sentinel errors that no modelled code returns (ErrInvalidContentType, ErrNegativeTimeout, ErrInvalidParam, ErrRenderFailed) are left out.
- FSLoaders.NewFS: the doc comment of NewFS (tmpl/loader/fs.go:34-35) says the root is cleaned and normalized, and that an empty root defaults to ".". The code does neither. It passes the root to os.Stat and stores it unchanged, and the model follows the code. The third Findings row depends on that uncleaned root.

## Findings

| source | as written | input that shows it | evidently intended | confidence | as-written member | corrected member |
|---|---|---|---|---|---|---|
| options.go:207-216 | the closure Mime returns overwrites its captured `mediatype` with the formatted value, so a second call formats "t; charset=c" again, which is not a media type, and stores "" | one `opt := Mime("text/html", "utf-8")` value applied to two Options: the second gets Content-Type "" | the value depends only on the arguments, so reusing an option value gives the same Content-Type each time | high for closures reused across renders; not executed | Options.MimeReuseAsWritten | Options.MimeIdempotent |
| tmpl/loader/fs.go:111-115 | the guard tests the cleaned path with a string prefix against the root as configured; a sibling directory whose name extends the root's last element passes. Load's symlink guard at tmpl/loader/fs.go:80 is the same string-prefix test (on the cleaned root), so a symlink into such a sibling is listed (FSLoaders.SymlinkSiblingListed) | root "/srv/tpl", name "../tpl2/x.html": the path "/srv/tpl2/x.html" starts with "/srv/tpl" and is read | only files under the root are read, which is a comparison of path elements | high; not executed | FSLoaders.SiblingEscape | FSLoaders.FSLoader.ReadContained |
| tmpl/loader/fs.go:111-115 | the root is not cleaned before the prefix test, so under a root that Clean rewrites the test no longer tracks containment: under "." it refuses every name whose cleaned join does not start with '.', and accepts every name whose cleaned join does, including names that climb out ("../x", FSLoaders.DotRootAdmitsClimb) and dot files | root ".", name "index.html": Clean gives "index.html", which does not start with "." and is refused; name "../x" gives "../x", which does and is read | every name under the root can be read, and no name outside it | medium; not executed | FSLoaders.DotRootRefusesAll | FSLoaders.ContainedAccepts |
| tmpl/loader/embed.go:74-75 | under the root ".", fs.WalkDir yields paths without "./", and TrimPrefix(path, ".") removes the leading dot of a dot file | root ".", walked ".page.html": listed as "page.html", which Read then looks up instead of ".page.html" | names are paths relative to the root, so Read finds what Load lists | medium, since embed drops dot files unless the pattern uses `all:`; not executed | EmbedLoaders.DotFileRenamed | EmbedLoaders.DotFileKept |

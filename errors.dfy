// Errors of the modelled code, as one datatype.
//
// The sentinel values of errors.go, tmpl/errors.go and tmpl/loader/errors.go,
// the two context errors, fs.ErrNotExist and the CSV writer's delimiter error are
// constructors without arguments; `fmt.Errorf` with one `%w` verb becomes
// `Wrapped`, whose message is the text around the wrapped error's message;
// `*fs.PathError` becomes `PathError`; and an error made by a collaborator the
// model does not interpret (a writer, an encoder, a file system, a post-processing
// hook) is `Foreign`, identified by its text.
module Errors {

  import opened Wrappers

  datatype Error =
    | Canceled                 // context.Canceled
    | DeadlineExceeded         // context.DeadlineExceeded
    | InvalidData              // render.ErrInvalidData
    | TemplateNotFound         // tmpl.ErrTemplateNotFound
    | InvalidRoot              // loader.ErrInvalidRoot
    | InvalidPath              // loader.ErrInvalidPath
    | PathTraversal            // loader.ErrPathTraversal
    | NotExist                 // fs.ErrNotExist
    | InvalidDelim             // the CSV writer's "invalid field or comment delimiter"
    | Foreign(text: string)
    | PathError(op: string, path: string, err: Error)
    | Wrapped(prefix: string, cause: Error, suffix: string)
    | Plain(text: string)      // an error with a message and nothing to unwrap

  /** The text `Error()` returns. */
  function Message(e: Error): string
  {
    match e
    case Canceled => "context canceled"
    case DeadlineExceeded => "context deadline exceeded"
    case InvalidData => "invalid data for renderer"
    case TemplateNotFound => "template not found"
    case InvalidRoot => "invalid root path"
    case InvalidPath => "invalid template path"
    case PathTraversal => "path traversal attempt detected"
    case NotExist => "file does not exist"
    case InvalidDelim => "csv: invalid field or comment delimiter"
    case Foreign(text) => text
    case PathError(op, path, err) => op + " " + path + ": " + Message(err)
    case Wrapped(prefix, cause, suffix) => prefix + Message(cause) + suffix
    case Plain(text) => text
  }

  /** The error `errors.Unwrap` returns, if any. */
  function Unwrap(e: Error): (r: Option<Error>)
    ensures r.Some? <==> e.PathError? || e.Wrapped?
  {
    match e
    case PathError(_, _, err) => Some(err)
    case Wrapped(_, cause, _) => Some(cause)
    case _ => None
  }

  /** errors.Is: `target` is `e` or is reachable from it by unwrapping. */
  predicate Is(e: Error, target: Error)
  {
    e == target || (Unwrap(e).Some? && Is(Unwrap(e).value, target))
  }

  /** errors.Is on a possibly nil error: nil is no error at all. */
  predicate IsSome(e: Option<Error>, target: Error)
  {
    e.Some? && Is(e.value, target)
  }

  /** os.IsNotExist: unlike errors.Is it looks through one path error only, and
      not through `fmt.Errorf` wrapping. */
  predicate IsNotExist(e: Error)
  {
    e == NotExist || (e.PathError? && e.err == NotExist)
  }
}

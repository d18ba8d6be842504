// buffer.go: BufferRenderer renders into a private buffer, optionally
// post-processes it, and delivers it to the sink in one Write, or not at all.
module BufferRender {

  import opened Wrappers
  import opened Errors
  import opened Values
  import opened Options
  import opened Render

  /** What a wrapped renderer leaves in the buffer, and the error it returns.
      On an error the buffer is discarded, whatever it holds. */
  datatype Rendered = Rendered(content: string, err: Option<Error>)

  /** The wrapped renderer's RenderContext, as a function of its inputs. */
  type Inner = (Token, Value, seq<Opt>) -> Rendered

  /** BufferConfig.PostRender. */
  type PostRender = string -> Result<string, Error>

  datatype BufferConfig = BufferConfig(initialSize: int, postRender: Option<PostRender>)

  /** What RenderContext does, in order: its own context checkpoints (numbered
      from 0), the call of the wrapped renderer, the post-processing hook and
      the write to the sink. */
  datatype Step = Checkpoint(k: nat) | RenderInner | PostProcess | WriteOut

  /** The steps taken, the one payload given to the sink if any, and the error. */
  datatype Outcome = Outcome(steps: seq<Step>, written: Option<string>, err: Option<Error>)

  /** The last checkpoint (number k) and the write, once `content` is final. */
  function Deliver(ctx: Token, k: nat, steps: seq<Step>, content: string, writeErr: Option<Error>): Outcome
  {
    if Done(ctx, k).Some? then Outcome(steps + [Checkpoint(k)], None, Done(ctx, k))
    else Outcome(steps + [Checkpoint(k), WriteOut], Some(content), writeErr)
  }

  /** RenderContext as a function of the wrapped renderer, the hook, the
      context, the inputs and the error the sink's Write returns. */
  function Run(inner: Inner, post: Option<PostRender>, ctx: Token, data: Value, opts: seq<Opt>,
               writeErr: Option<Error>): Outcome
  {
    if Done(ctx, 0).Some? then Outcome([Checkpoint(0)], None, Done(ctx, 0))
    else
      var r := inner(ctx, data, opts);
      var steps := [Checkpoint(0), RenderInner];
      if r.err.Some? then Outcome(steps, None, Some(Wrapped("buffer render: ", r.err.value, "")))
      else
        match post
        case None => Deliver(ctx, 1, steps, r.content, writeErr)
        case Some(f) =>
          if Done(ctx, 1).Some? then Outcome(steps + [Checkpoint(1)], None, Done(ctx, 1))
          else
            match f(r.content)
            case Err(e) => Outcome(steps + [Checkpoint(1), PostProcess], None, Some(Wrapped("post-processing: ", e, "")))
            case Ok(t) => Deliver(ctx, 2, steps + [Checkpoint(1), PostProcess], t, writeErr)
  }

  /** The payloads an outcome adds to the sink's record. */
  function Payloads(o: Outcome): seq<string>
  {
    if o.written.Some? then [o.written.value] else []
  }

  class BufferRenderer {
    const renderer: Inner
    const initialSize: int
    const postRender: Option<PostRender>

    /** NewBuffer: the configuration's fields, stored as they are. */
    constructor NewBuffer(r: Inner, c: BufferConfig)
      ensures renderer == r && initialSize == c.initialSize && postRender == c.postRender
    {
      renderer := r;
      initialSize := c.initialSize;
      postRender := c.postRender;
    }

    /** Buffer: NewBuffer with the zero configuration. */
    constructor Buffer(r: Inner)
      ensures renderer == r && initialSize == 0 && postRender.None?
    {
      renderer := r;
      initialSize := 0;
      postRender := None;
    }

    method RenderContext(ctx: Token, w: Writer, data: Value, opts: seq<Opt>)
      returns (err: Option<Error>, ghost steps: seq<Step>)
      modifies w
      ensures var o := Run(renderer, postRender, ctx, data, opts, old(w.Next()));
        err == o.err && steps == o.steps && w.writes == old(w.writes) + Payloads(o)
    {
      ghost var writeErr := w.Next();
      steps := [Checkpoint(0)];
      err := CheckContext(Poll(ctx, 0));
      if err.Some? {
        return;
      }
      // The buffer's initial capacity changes nothing that is observable.
      var r := renderer(ctx, data, opts);
      steps := steps + [RenderInner];
      if r.err.Some? {
        err := Some(Wrapped("buffer render: ", r.err.value, ""));
        return;
      }
      var content := r.content;
      var k := 1;
      if postRender.Some? {
        steps := steps + [Checkpoint(1)];
        err := CheckContext(Poll(ctx, 1));
        if err.Some? {
          return;
        }
        var transformed := postRender.value(content);
        steps := steps + [PostProcess];
        if transformed.Err? {
          err := Some(Wrapped("post-processing: ", transformed.error, ""));
          return;
        }
        content := transformed.value;
        k := 2;
      }
      steps := steps + [Checkpoint(k)];
      err := CheckContext(Poll(ctx, k));
      if err.Some? {
        return;
      }
      err := w.Write(content);
      steps := steps + [WriteOut];
    }

    /** Render: RenderContext with context.Background(). */
    method Render(w: Writer, data: Value, opts: seq<Opt>) returns (err: Option<Error>)
      modifies w
      ensures var o := Run(renderer, postRender, [], data, opts, old(w.Next()));
        err == o.err && w.writes == old(w.writes) + Payloads(o)
    {
      ghost var steps;
      err, steps := RenderContext([], w, data, opts);
    }
  }

  /** A context done on entry: its own error, the wrapped renderer is not
      called, and the sink receives nothing. */
  lemma PreCancelled(inner: Inner, post: Option<PostRender>, ctx: Token, data: Value, opts: seq<Opt>,
                     writeErr: Option<Error>)
    requires Done(ctx, 0).Some?
    ensures var o := Run(inner, post, ctx, data, opts, writeErr);
      o.err == Done(ctx, 0) && o.written.None? && RenderInner !in o.steps
  {
  }

  /** A failing wrapped renderer: "buffer render: " around its error, which
      errors.Is still finds, and nothing for the sink. */
  lemma InnerFailure(inner: Inner, post: Option<PostRender>, ctx: Token, data: Value, opts: seq<Opt>,
                     writeErr: Option<Error>)
    requires Done(ctx, 0).None? && inner(ctx, data, opts).err.Some?
    ensures var o := Run(inner, post, ctx, data, opts, writeErr);
      var e := inner(ctx, data, opts).err.value;
      o.err == Some(Wrapped("buffer render: ", e, "")) && Is(o.err.value, e) && o.written.None?
      && Message(o.err.value) == "buffer render: " + Message(e)
  {
  }

  /** Without a hook and with a live context, the sink receives exactly what
      the wrapped renderer produced, and the sink's error is returned as it is. */
  lemma ExactBytes(inner: Inner, ctx: Token, data: Value, opts: seq<Opt>, writeErr: Option<Error>)
    requires Done(ctx, 0).None? && Done(ctx, 1).None?
    requires inner(ctx, data, opts).err.None?
    ensures var o := Run(inner, None, ctx, data, opts, writeErr);
      o.written == Some(inner(ctx, data, opts).content) && o.err == writeErr
      && PostProcess !in o.steps
  {
  }

  /** With a hook that succeeds, the sink receives exactly the transformed bytes. */
  lemma Transformed(inner: Inner, f: PostRender, ctx: Token, data: Value, opts: seq<Opt>, writeErr: Option<Error>)
    requires Done(ctx, 0).None? && Done(ctx, 1).None? && Done(ctx, 2).None?
    requires inner(ctx, data, opts).err.None?
    requires f(inner(ctx, data, opts).content).Ok?
    ensures var o := Run(inner, Some(f), ctx, data, opts, writeErr);
      o.written == Some(f(inner(ctx, data, opts).content).value) && o.err == writeErr
  {
  }

  /** A failing hook: "post-processing: " around its error, and nothing written. */
  lemma PostFailure(inner: Inner, f: PostRender, ctx: Token, data: Value, opts: seq<Opt>, writeErr: Option<Error>)
    requires Done(ctx, 0).None? && Done(ctx, 1).None?
    requires inner(ctx, data, opts).err.None?
    requires f(inner(ctx, data, opts).content).Err?
    ensures var o := Run(inner, Some(f), ctx, data, opts, writeErr);
      var e := f(inner(ctx, data, opts).content).error;
      o.err == Some(Wrapped("post-processing: ", e, "")) && Is(o.err.value, e) && o.written.None?
  {
  }

  /** Cancellation seen at the checkpoint before the hook: the hook is not
      called and nothing is written. */
  lemma CancelledBeforeHook(inner: Inner, f: PostRender, ctx: Token, data: Value, opts: seq<Opt>,
                            writeErr: Option<Error>)
    requires Done(ctx, 0).None? && inner(ctx, data, opts).err.None?
    requires Done(ctx, 1).Some?
    ensures var o := Run(inner, Some(f), ctx, data, opts, writeErr);
      o.err == Done(ctx, 1) && PostProcess !in o.steps && WriteOut !in o.steps && o.written.None?
  {
  }

  /** Cancellation seen at the checkpoint before the write: the write does not happen. */
  lemma CancelledBeforeWrite(inner: Inner, f: PostRender, ctx: Token, data: Value, opts: seq<Opt>,
                             writeErr: Option<Error>)
    requires Done(ctx, 0).None? && inner(ctx, data, opts).err.None?
    requires Done(ctx, 1).None? && f(inner(ctx, data, opts).content).Ok?
    requires Done(ctx, 2).Some?
    ensures var o := Run(inner, Some(f), ctx, data, opts, writeErr);
      o.err == Done(ctx, 2) && PostProcess in o.steps && WriteOut !in o.steps && o.written.None?
  {
    var o := Run(inner, Some(f), ctx, data, opts, writeErr);
    assert o.steps == [Checkpoint(0), RenderInner, Checkpoint(1), PostProcess, Checkpoint(2)];
  }

  /** All or nothing: the sink is written exactly when the write step is
      taken, it is written last and once, and a failed write's error is
      returned unwrapped. Something is delivered only after a live
      checkpoint that follows every other step. */
  lemma AllOrNothing(inner: Inner, post: Option<PostRender>, ctx: Token, data: Value, opts: seq<Opt>,
                     writeErr: Option<Error>)
    ensures var o := Run(inner, post, ctx, data, opts, writeErr);
      (o.written.Some? <==> WriteOut in o.steps)
      && (o.written.Some? ==>
            o.err == writeErr && o.steps[|o.steps| - 1] == WriteOut
            && WriteOut !in o.steps[..|o.steps| - 1]
            && (o.written == Some(inner(ctx, data, opts).content)
                || (post.Some? && o.written == Some(post.value(inner(ctx, data, opts).content).value))))
      && (o.written.None? ==> o.err.Some?)
  {
    var o := Run(inner, post, ctx, data, opts, writeErr);
    var r := inner(ctx, data, opts);
    if Done(ctx, 0).None? && r.err.None? {
      if post.None? {
        assert o == Deliver(ctx, 1, [Checkpoint(0), RenderInner], r.content, writeErr);
      } else if Done(ctx, 1).None? && post.value(r.content).Ok? {
        assert o == Deliver(ctx, 2, [Checkpoint(0), RenderInner, Checkpoint(1), PostProcess],
                            post.value(r.content).value, writeErr);
      }
    }
  }
}

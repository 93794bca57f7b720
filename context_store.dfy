/** `load_context` and `save_context`: the session context is kept in a
    file.  The file is modelled by what reading and parsing it yields; writing
    it may fail, and `save_context` swallows that failure. */
module ContextStore {
  import opened Js

  /** The context object, the parsed contents of the file. */
  type Context = map<string, Json>

  const ThreadInfoKey := "thread_info"

  datatype ContextFile =
    | Missing                   // existsSync is false
    | Unparsable                // reading or JSON.parse throws
    | Holds(context: Context)   // the file parses to this object

  /** A missing or unparsable file degrades to `{}`; otherwise the parsed
      object is returned. */
  function LoadContext(file: ContextFile): (ctx: Context)
    ensures file.Holds? ==> ctx == file.context
    ensures !file.Holds? ==> ctx == map[]
  {
    match file
    case Holds(c) => c
    case _ => map[]
  }

  /** `save_context(ctx)`: when the write succeeds, loading afterwards yields
      exactly `ctx`; when it fails the error is swallowed and the file is as
      it was. */
  function SaveContext(file: ContextFile, ctx: Context, written: bool): (f: ContextFile)
    ensures written ==> LoadContext(f) == ctx
    ensures !written ==> f == file
  {
    if written then Holds(ctx) else file
  }

  /** `context.thread_info`: undefined when the key is absent. */
  function ThreadInfo(ctx: Context): (v: Value)
    ensures v.Defined? <==> ThreadInfoKey in ctx
    ensures v.Defined? ==> v.json == ctx[ThreadInfoKey]
  {
    Property(Defined(Obj(ctx)), ThreadInfoKey)
  }

  /** Saving the same context again changes nothing. */
  lemma SaveIdempotent(file: ContextFile, ctx: Context, written: bool)
    ensures SaveContext(SaveContext(file, ctx, true), ctx, written) == SaveContext(file, ctx, true)
  {
  }

  /** A thread stored in the context and saved is found by the next load. */
  lemma SavedThreadIsReloaded(file: ContextFile, ctx: Context, info: Json)
    ensures ThreadInfo(LoadContext(SaveContext(file, ctx[ThreadInfoKey := info], true))) == Defined(info)
  {
  }
}

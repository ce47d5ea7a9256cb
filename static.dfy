/** `sendFile` (lib/server.js): serve one file from disk into the Koa
    context. Resolving what to send (stat, directory and index, error codes)
    is a pure decision; writing the headers, type and body is a method on the
    context that follows the decision. */
module Static {
  import opened Basics
  import opened Disk
  import opened Paths
  import opened Http
  import opened JsNumbers

  /** The stat error codes that mean "no such file". */
  const NotFoundCodes: seq<string> := ["ENOENT", "ENAMETOOLONG", "ENOTDIR"]

  const ContentLength: string := "Content-Length"
  const LastModified: string := "Last-Modified"
  const CacheControlName: string := "Cache-Control"

  /** An error `sendFile` throws: its HTTP status and its `code` (none for the
      ReferenceError that line 218 raises). */
  datatype Thrown = Thrown(status: int, code: Option<string>)

  /** The `{ index, maxAge, immutable }` argument; "" stands for no index. */
  datatype SendOptions = SendOptions(index: string, maxAge: int, immutable: bool)

  /** The defaults used when a caller passes no options. */
  const NoOptions: SendOptions := SendOptions("", 0, false)

  /** What `sendFile` decides: serve `entry` found at `path`, or throw. */
  datatype Resolution = Serve(path: string, entry: Entry) | Throw(error: Thrown)

  /** The `catch` block: a not-found code becomes `createError(404, err)`,
      which keeps the code; anything else is rethrown with status 500. */
  function StatError(code: Option<string>): (t: Thrown)
    ensures t.code == code
    ensures t.status == 404 <==> code.Some? && code.value in NotFoundCodes
    ensures t.status != 404 ==> t.status == 500
  {
    if code.Some? && code.value in NotFoundCodes then Thrown(404, code) else Thrown(500, code)
  }

  /** The `try` block of `sendFile`: stat the path; a directory is served
      through its index, which is stat'ed again, and without an index the
      call of the unbound `next` throws (an error with no code, so 500). */
  function Resolve(disk: Disk, filepath: string, index: string): (r: Resolution)
    ensures r.Serve? ==> Stat(disk, r.path) == Found(r.entry)
    ensures Stat(disk, filepath).Failed? ==> r == Throw(StatError(Some(Stat(disk, filepath).code)))
    ensures Stat(disk, filepath).Found? && Stat(disk, filepath).entry.File? ==>
              r == Serve(filepath, Stat(disk, filepath).entry)
    ensures Stat(disk, filepath).Found? && Stat(disk, filepath).entry.Directory? ==>
              if index == "" then r == Throw(Thrown(500, None))
              else
                var indexPath := filepath + "/" + index;
                (r.Serve? <==> Exists(disk, indexPath)) &&
                (r.Serve? ==> r.path == indexPath) &&
                (r.Throw? ==> r.error == StatError(Some(Stat(disk, indexPath).code)))
  {
    match Stat(disk, filepath)
    case Failed(code) => Throw(StatError(Some(code)))
    case Found(File(_, _)) => Serve(filepath, Stat(disk, filepath).entry)
    case Found(Directory(_, _)) =>
      if index == "" then Throw(StatError(None))
      else
        var indexPath := filepath + "/" + index;
        match Stat(disk, indexPath)
        case Failed(code) => Throw(StatError(Some(code)))
        case Found(e) => Serve(indexPath, e)
  }

  /** The Cache-Control value: `max-age=` with `maxAge / 1000 | 0`, then
      `,immutable` when asked for. */
  function CacheControl(maxAge: int, immutable: bool): (r: string)
    ensures "max-age=" <= r
    ensures immutable <==> |r| >= 10 && r[|r| - 10..] == ",immutable"
  {
    var seconds := IntToString(ToInt32(TruncDiv(maxAge, 1000)));
    var r := "max-age=" + seconds + (if immutable then ",immutable" else "");
    assert !immutable ==> r[|r| - 1] == seconds[|seconds| - 1];
    r
  }

  /** For any realistic `maxAge` the header carries the whole seconds, and
      reading them back gives `maxAge / 1000`. */
  lemma CacheControlSeconds(maxAge: nat, immutable: bool)
    requires maxAge < 1000 * TwoTo31
    ensures CacheControl(maxAge, immutable)
              == "max-age=" + NatToString(maxAge / 1000) + (if immutable then ",immutable" else "")
    ensures ParseNat(NatToString(maxAge / 1000)) == maxAge / 1000
  {
    ToInt32InRange(maxAge / 1000);
    ParseNatToString(maxAge / 1000);
  }

  /** The headers after lines 230-238: Content-Length is the size; Last-Modified
      and Cache-Control are added only where the response has none yet. */
  function FileHeaders(h: Headers, e: Entry, opts: SendOptions): (r: Headers)
    ensures r.Keys == h.Keys + {ContentLength, LastModified, CacheControlName}
    ensures r[ContentLength] == Number(Size(e))
    ensures r[LastModified] == if HasHeader(h, LastModified) then h[LastModified] else Date(e.mtime)
    ensures r[CacheControlName] ==
              if HasHeader(h, CacheControlName) then h[CacheControlName]
              else Text(CacheControl(opts.maxAge, opts.immutable))
    ensures forall k :: k in h && k != ContentLength && k != LastModified && k != CacheControlName ==> r[k] == h[k]
  {
    var h1 := h[ContentLength := Number(Size(e))];
    var h2 := if HasHeader(h1, LastModified) then h1 else h1[LastModified := Date(e.mtime)];
    if HasHeader(h2, CacheControlName) then h2
    else h2[CacheControlName := Text(CacheControl(opts.maxAge, opts.immutable))]
  }

  /** The response after a successful `sendFile` of `entry` at `path`: the
      file's headers, the type of its extension unless one is set, a read
      stream as body, and status 200 unless one was set explicitly. */
  function Served(before: ResponseState, path: string, entry: Entry, opts: SendOptions): (r: ResponseState)
    ensures r.body == FileStream(path) && r.explicitStatus
    ensures r.status == if before.explicitStatus then before.status else 200
    ensures ContentLength in r.headers && r.headers[ContentLength] == Number(Size(entry))
    ensures forall k :: k in before.headers ==> k in r.headers
    ensures before.contentType != "" ==> r.contentType == before.contentType
  {
    ResponseState(
      if before.explicitStatus then before.status else 200,
      true,
      FileHeaders(before.headers, entry, opts),
      if before.contentType == "" then Extname(path) else before.contentType,
      FileStream(path))
  }

  /** `sendFile(ctx, filepath, opts)`: on a throw nothing in the context has
      changed; otherwise the context holds the file's headers, type and stream. */
  method SendFile(ctx: Context, disk: Disk, filepath: string, opts: SendOptions) returns (r: Resolution)
    modifies ctx
    ensures r == Resolve(disk, filepath, opts.index)
    ensures r.Throw? ==> unchanged(ctx)
    ensures r.Serve? ==> ctx.State() == Served(old(ctx.State()), r.path, r.entry, opts)
  {
    var path := filepath;
    var stats := Stat(disk, path);
    var failure: Option<Thrown> := None;
    if stats.Failed? {
      failure := Some(StatError(Some(stats.code)));
    } else if stats.entry.Directory? {
      if opts.index != "" {
        path := path + "/" + opts.index;
        stats := Stat(disk, path);
        if stats.Failed? {
          failure := Some(StatError(Some(stats.code)));
        }
      } else {
        failure := Some(StatError(None));
      }
    }
    if failure.Some? {
      return Throw(failure.value);
    }
    SetFileResponse(ctx, path, stats.entry, opts);
    r := Serve(path, stats.entry);
  }

  /** Lines 230-240: the headers, the type and the read stream for `entry`. */
  method SetFileResponse(ctx: Context, path: string, entry: Entry, opts: SendOptions)
    modifies ctx
    ensures ctx.State() == Served(old(ctx.State()), path, entry, opts)
  {
    SetFileHeaders(ctx, entry, opts);
    DefaultType(ctx, path);
    ctx.SetBody(FileStream(path));
  }

  /** Line 239: the type follows the file's extension unless one is set. */
  method DefaultType(ctx: Context, path: string)
    modifies ctx`contentType
    ensures ctx.contentType == if old(ctx.contentType) == "" then Extname(path) else old(ctx.contentType)
  {
    if ctx.contentType == "" {
      ctx.SetType(Extname(path));
    }
  }

  /** Lines 230-238: Content-Length always, Last-Modified and Cache-Control
      only where the response has no such header yet. */
  method SetFileHeaders(ctx: Context, entry: Entry, opts: SendOptions)
    modifies ctx`headers
    ensures ctx.headers == FileHeaders(old(ctx.headers), entry, opts)
  {
    ghost var h0 := ctx.headers;
    ctx.Set(ContentLength, Number(Size(entry)));
    ghost var h1 := ctx.headers;
    if !HasHeader(ctx.headers, LastModified) {
      ctx.Set(LastModified, Date(entry.mtime));
    }
    assert ctx.headers == if HasHeader(h1, LastModified) then h1 else h1[LastModified := Date(entry.mtime)];
    if !HasHeader(ctx.headers, CacheControlName) {
      var directives := "max-age=" + IntToString(ToInt32(TruncDiv(opts.maxAge, 1000)));
      if opts.immutable {
        directives := directives + ",immutable";
      }
      assert directives == CacheControl(opts.maxAge, opts.immutable);
      ctx.Set(CacheControlName, Text(directives));
    }
  }

  /** The response after `sendFile(ctx, filepath).catch(...)` as the local
      rule stage and the cache lookup stage write it: a served file, or
      404 "Not Found" for an ENOENT error with status 404, or for any other
      error the response as it was. */
  function Caught(before: ResponseState, disk: Disk, filepath: string): (r: ResponseState)
    ensures Resolve(disk, filepath, "").Serve? ==> r.body == FileStream(Resolve(disk, filepath, "").path)
    ensures Resolve(disk, filepath, "").Throw? ==> r.headers == before.headers && r.contentType == before.contentType
    ensures var e := Resolve(disk, filepath, ""); e.Throw? && e.error == Thrown(404, Some(ENOENT)) ==>
              r.status == 404 && r.body == Message("Not Found")
    ensures var e := Resolve(disk, filepath, ""); e.Throw? && e.error != Thrown(404, Some(ENOENT)) ==> r == before
  {
    match Resolve(disk, filepath, "")
    case Serve(path, entry) => Served(before, path, entry, NoOptions)
    case Throw(err) =>
      if err.code == Some(ENOENT) && err.status == 404 then
        before.(status := 404, explicitStatus := true, body := Message("Not Found"))
      else before
  }

  /** Lines 99-105 and 153-159: send the file and handle what it throws. */
  method SendCaught(ctx: Context, disk: Disk, filepath: string)
    modifies ctx
    ensures ctx.State() == Caught(old(ctx.State()), disk, filepath)
  {
    var r := SendFile(ctx, disk, filepath, NoOptions);
    if r.Throw? && r.error.code == Some(ENOENT) && r.error.status == 404 {
      ctx.SetStatus(404);
      ctx.SetBody(Message("Not Found"));
    }
  }

  /** A path that exists is served, or, being a directory with no index, left
      alone with the context untouched: the "Not Found" branch of the catch
      is never taken for a path just found to exist. */
  lemma ExistingIsServedOrSwallowed(before: ResponseState, disk: Disk, filepath: string)
    requires Exists(disk, filepath)
    ensures Resolve(disk, filepath, "").Serve? <==> Stat(disk, filepath).entry.File?
    ensures Resolve(disk, filepath, "").Throw? ==> Resolve(disk, filepath, "").error == Thrown(500, None)
    ensures Caught(before, disk, filepath)
              == if Stat(disk, filepath).entry.File? then Served(before, filepath, Stat(disk, filepath).entry, NoOptions)
                 else before
  {
  }

  /** With the default options the Cache-Control header is `max-age=0`. */
  lemma DefaultCacheControl()
    ensures CacheControl(NoOptions.maxAge, NoOptions.immutable) == "max-age=0"
  {
    CacheControlSeconds(0, false);
  }
}

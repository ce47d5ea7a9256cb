/** The middleware chain of lib/server.js (lines 30-48): the local rule stage
    when `localRules` is set, then, when `proxy` is set, the cache lookup
    stage (when `cache` is set too) and the proxy middlewares, then the
    history-mode fallback when `historyApiFallback` is set. A request that
    no stage takes is left to Koa's default 404. */
module Server {
  import opened Basics
  import opened Disk
  import opened Paths
  import opened Http
  import opened Static
  import opened ProxyConfig
  import opened Config
  import opened LocalRules
  import opened ProxyService

  /** The proxy part of the chain: the flattened table's keys, the cache
      setting and the proxy middlewares. */
  datatype ProxyStack = ProxyStack(keys: seq<string>, cache: Option<CacheSetting>, middlewares: seq<Middleware>)

  /** The installed chain. */
  datatype App = App(localRules: Option<seq<Rule>>, proxy: Option<ProxyStack>, fallback: Option<string>)

  /** Line 44: the fallback path is served as it is when it has an
      extension, and as a directory with `index.html` when it has none. */
  function FallbackIndex(fallback: string): (index: string)
    ensures index == "index.html" <==> Extname(fallback) == ""
    ensures index != "index.html" ==> index == ""
  {
    if |Extname(fallback)| > 0 then "" else "index.html"
  }

  /** The options lines 45-47 pass to `sendFile`. */
  function FallbackOptions(fallback: string): SendOptions {
    SendOptions(FallbackIndex(fallback), 0, false)
  }

  /** What the chain did: answered, left the request to Koa's 404, raised an
      error to Koa, or ended in the exception a failed cache write throws
      inside the response interceptor, with no answer written. */
  datatype Step = Handled | PassThrough | Raised(error: Thrown) | Stalled

  /** What the chain leaves behind: the stage that took the request, what
      it did, the response and the disk. */
  datatype Outcome = Outcome(handler: Handler, step: Step, response: ResponseState, disk: Disk)

  /** The fallback stage's result: the file `sendFile` resolved, or the
      response as it was and the error raised. */
  function FallbackOutcome(fallback: string, before: ResponseState, disk: Disk): (o: Outcome)
    ensures o.handler == Fallback && o.disk == disk
    ensures o.step == Handled || o.step.Raised?
  {
    match Resolve(disk, fallback, FallbackIndex(fallback))
    case Serve(path, entry) => Outcome(Fallback, Handled, Served(before, path, entry, FallbackOptions(fallback)), disk)
    case Throw(err) => Outcome(Fallback, Raised(err), before, disk)
  }

  /** The fallback middleware of lines 45-47: it never calls `next`; what
      `sendFile` throws goes up to Koa with its status. */
  method FallbackStage(ctx: Context, disk: Disk, fallback: string) returns (step: Step)
    modifies ctx
    ensures Outcome(Fallback, step, ctx.State(), disk) == FallbackOutcome(fallback, old(ctx.State()), disk)
  {
    var r := SendFile(ctx, disk, fallback, FallbackOptions(fallback));
    if r.Throw? {
      return Raised(r.error);
    }
    return Handled;
  }

  /** A directory configured as the fallback serves its `index.html`; a
      missing one gives the 404 of `createError`. */
  lemma FallbackDirectory(disk: Disk, fallback: string)
    requires Extname(fallback) == ""
    requires Stat(disk, fallback).Found? && Stat(disk, fallback).entry.Directory?
    ensures var r := Resolve(disk, fallback, FallbackIndex(fallback));
            var index := fallback + "/index.html";
            && (r.Serve? <==> Exists(disk, index))
            && (r.Serve? ==> r.path == index)
            && (Stat(disk, index) == Failed(ENOENT) ==> r == Throw(Thrown(404, Some(ENOENT))))
  {
    IndexPath(fallback);
    assert FallbackIndex(fallback) == "index.html";
    assert ENOENT in NotFoundCodes;
  }

  /** The index path `sendFile` stats for the fallback directory. */
  lemma IndexPath(dir: string)
    ensures dir + "/" + "index.html" == dir + "/index.html"
  {
  }

  /** A fallback path with an extension that names a directory has no
      index to fall back on: the unbound `next` fails with status 500. */
  lemma FallbackDirectoryWithExtension(disk: Disk, fallback: string)
    requires Extname(fallback) != ""
    requires Stat(disk, fallback).Found? && Stat(disk, fallback).entry.Directory?
    ensures Resolve(disk, fallback, FallbackIndex(fallback)) == Throw(Thrown(500, None))
  {
  }

  /** The chain as `Setup` builds it: keys and middlewares line up, and the
      middlewares self-handle exactly when a cache is set. */
  predicate WellBuilt(app: App) {
    app.proxy.Some? ==> StackBuilt(app.proxy.value)
  }

  predicate StackBuilt(s: ProxyStack) {
    && |s.middlewares| == |s.keys|
    && forall i :: 0 <= i < |s.keys| ==>
         s.middlewares[i].context == s.keys[i] && s.middlewares[i].selfHandleResponse == s.cache.Some?
  }

  /** The chain lines 30-48 install for `settings`, as a value. */
  function Installed(settings: Settings): (app: App)
    requires settings.proxy.Some? && settings.proxy.value.ObjectForm? ==> ValidTable(settings.proxy.value.table)
    ensures WellBuilt(app)
    ensures app.fallback.None? <==> settings.historyApiFallback == ""
    ensures app.proxy.None? <==> settings.proxy.None?
    ensures app.proxy.Some? ==> app.proxy.value.keys == Flattened(settings.proxy.value).keys
  {
    var stack :=
      if settings.proxy.Some? then
        FlattenedValid(settings.proxy.value);
        var table := Flattened(settings.proxy.value);
        Some(ProxyStack(table.keys, settings.cache, MiddlewareList(table, settings.cache.Some?)))
      else None;
    App(settings.localRules, stack, if settings.historyApiFallback != "" then Some(settings.historyApiFallback) else None)
  }

  /** The chain lines 30-48 install for `settings`. */
  method Setup(settings: Settings) returns (app: App)
    requires settings.proxy.Some? && settings.proxy.value.ObjectForm? ==> ValidTable(settings.proxy.value.table)
    ensures app == Installed(settings)
    ensures WellBuilt(app)
    ensures app.localRules == settings.localRules
    ensures app.fallback.None? <==> settings.historyApiFallback == ""
    ensures app.fallback.Some? ==> app.fallback.value == settings.historyApiFallback
    ensures app.proxy.None? <==> settings.proxy.None?
    ensures app.proxy.Some? ==>
              var table := Flattened(settings.proxy.value);
              var mws := app.proxy.value.middlewares;
              && ValidTable(table)
              && app.proxy.value.keys == table.keys
              && app.proxy.value.cache == settings.cache
              && |mws| == |table.keys|
              && forall i :: 0 <= i < |mws| ==>
                   mws[i] == Middleware(table.keys[i], OptionsOf(table.values[table.keys[i]]), settings.cache.Some?)
  {
    var stack: Option<ProxyStack> := None;
    if settings.proxy.Some? {
      var proxy := FlatProxy(settings.proxy.value);
      FlattenedValid(settings.proxy.value);
      var mws := Middlewares(proxy, settings.cache.Some?);
      stack := Some(ProxyStack(proxy.keys, settings.cache, mws));
    }
    var fallback: Option<string> := if settings.historyApiFallback != "" then Some(settings.historyApiFallback) else None;
    app := App(settings.localRules, stack, fallback);
  }

  /** Which stage answers a request. */
  datatype Handler = LocalFile | CacheReplay | Upstream | Fallback | NoStage

  /** The stage of the proxy part that takes `req`: a cache hit first,
      then the first matching proxy middleware. */
  function ProxyRoute(s: ProxyStack, req: Request, disk: Disk): (h: Handler)
    ensures h == CacheReplay || h == Upstream || h == NoStage
    // a hit always wins; the upstream only without a hit; nothing otherwise
    ensures h == CacheReplay <==> s.cache.Some? && CacheHit(s.keys, LookupResolver(s.cache.value), req, disk).Some?
    ensures h == Upstream <==>
              !(s.cache.Some? && CacheHit(s.keys, LookupResolver(s.cache.value), req, disk).Some?)
              && ProxyFor(s.middlewares, req.path).Some?
  {
    if s.cache.Some? && CacheHit(s.keys, LookupResolver(s.cache.value), req, disk).Some? then CacheReplay
    else if ProxyFor(s.middlewares, req.path).Some? then Upstream
    else NoStage
  }

  /** The stage that takes `req`, in chain order. */
  function Route(app: App, req: Request, disk: Disk): (h: Handler)
    // a local file exactly when a rule resolves one; every later stage only
    // when it is installed and the earlier ones pass
    ensures h == LocalFile <==> app.localRules.Some? && LocalTarget(app.localRules.value, req, disk).Some?
    ensures h == CacheReplay ==> app.proxy.Some? && app.proxy.value.cache.Some?
    ensures h == Upstream ==> app.proxy.Some? && ProxyFor(app.proxy.value.middlewares, req.path).Some?
    ensures h == Fallback ==> app.fallback.Some? && (app.proxy.Some? ==> ProxyRoute(app.proxy.value, req, disk) == NoStage)
    ensures h == NoStage ==> app.fallback.None?
    // each stage takes the request iff it is installed, takes it, and every
    // earlier stage passed
    ensures h == CacheReplay <==>
              !(app.localRules.Some? && LocalTarget(app.localRules.value, req, disk).Some?)
              && app.proxy.Some? && ProxyRoute(app.proxy.value, req, disk) == CacheReplay
    ensures h == Upstream <==>
              !(app.localRules.Some? && LocalTarget(app.localRules.value, req, disk).Some?)
              && app.proxy.Some? && ProxyRoute(app.proxy.value, req, disk) == Upstream
    ensures h == Fallback <==>
              !(app.localRules.Some? && LocalTarget(app.localRules.value, req, disk).Some?)
              && !(app.proxy.Some? && ProxyRoute(app.proxy.value, req, disk) != NoStage)
              && app.fallback.Some?
    ensures h == NoStage <==>
              !(app.localRules.Some? && LocalTarget(app.localRules.value, req, disk).Some?)
              && !(app.proxy.Some? && ProxyRoute(app.proxy.value, req, disk) != NoStage)
              && app.fallback.None?
  {
    if app.localRules.Some? && LocalTarget(app.localRules.value, req, disk).Some? then LocalFile
    else if app.proxy.Some? && ProxyRoute(app.proxy.value, req, disk) != NoStage then ProxyRoute(app.proxy.value, req, disk)
    else if app.fallback.Some? then Fallback
    else NoStage
  }

  /** The proxy middleware `m` answering with `answer`: through the
      interceptor when it self-handles with a cache, where a failed write
      throws before any answer is written, and directly otherwise. */
  function Proxied(m: Middleware, cache: Option<CacheSetting>, req: Request, before: ResponseState, disk: Disk,
                   answer: Response, now: int): (o: Outcome)
    ensures o.handler == Upstream && (o.step == Handled || o.step == Stalled)
    ensures o.step == Stalled ==> o.response == before
  {
    if m.selfHandleResponse && cache.Some? then
      var x := Intercept(disk, RecordResolver(cache.value), req, answer.body, now);
      if x.recording.WriteFailed? then Outcome(Upstream, Stalled, before, x.disk)
      else Outcome(Upstream, Handled, Answered(before, answer.status, x.buffer), x.disk)
    else Outcome(Upstream, Handled, Answered(before, answer.status, answer.body), disk)
  }

  /** The proxy part's result: a served cache file, the upstream's answer,
      or nothing done. */
  function ProxyOutcome(s: ProxyStack, req: Request, before: ResponseState, disk: Disk,
                        upstream: (ProxyOptions, Request) -> Response, now: int): (o: Outcome)
    ensures o.handler == ProxyRoute(s, req, disk)
    ensures o.handler != Upstream ==> o.disk == disk
    ensures o.handler == NoStage <==> o.step == PassThrough
    ensures o.handler == NoStage ==> o.response == before
    ensures o.step == Stalled ==> o.handler == Upstream && o.response == before
  {
    if s.cache.Some? && CacheHit(s.keys, LookupResolver(s.cache.value), req, disk).Some? then
      Outcome(CacheReplay, Handled, Caught(before, disk, CacheHit(s.keys, LookupResolver(s.cache.value), req, disk).value), disk)
    else if ProxyFor(s.middlewares, req.path).Some? then
      var m := s.middlewares[ProxyFor(s.middlewares, req.path).value];
      Proxied(m, s.cache, req, before, disk, upstream(m.options, req), now)
    else Outcome(NoStage, PassThrough, before, disk)
  }

  /** One request through the chain as a value: the first stage that takes
      it decides the outcome. */
  function Chain(app: App, req: Request, before: ResponseState, disk: Disk,
                 upstream: (ProxyOptions, Request) -> Response, now: int): (o: Outcome)
    ensures o.handler == Route(app, req, disk)
    ensures o.handler != Upstream ==> o.disk == disk
    ensures o.handler == NoStage ==> o.step == PassThrough && o.response == before
    ensures o.step == Stalled ==> o.handler == Upstream && o.response == before
    ensures o.step == PassThrough ==> o.handler == NoStage
  {
    if app.localRules.Some? && LocalTarget(app.localRules.value, req, disk).Some? then
      Outcome(LocalFile, Handled, Caught(before, disk, LocalTarget(app.localRules.value, req, disk).value), disk)
    else if app.proxy.Some? && ProxyRoute(app.proxy.value, req, disk) != NoStage then
      ProxyOutcome(app.proxy.value, req, before, disk, upstream, now)
    else if app.fallback.Some? then FallbackOutcome(app.fallback.value, before, disk)
    else Outcome(NoStage, PassThrough, before, disk)
  }

  /** Lines 86-139 at request time: the cache lookup stage, then the proxy
      middlewares; a request neither takes goes on untouched. */
  method ProxyPart(s: ProxyStack, ctx: Context, disk: Disk, upstream: (ProxyOptions, Request) -> Response, now: int)
    returns (handler: Handler, step: Step, disk': Disk)
    requires StackBuilt(s)
    modifies ctx
    ensures handler == NoStage ==> unchanged(ctx)
    ensures Outcome(handler, step, ctx.State(), disk') == ProxyOutcome(s, ctx.request, old(ctx.State()), disk, upstream, now)
  {
    if s.cache.Some? {
      var consulted, passed := CacheLookupStage(ctx, disk, s.keys, LookupResolver(s.cache.value));
      if !passed {
        return CacheReplay, Handled, disk;
      }
    }
    var record: CacheArgs -> Candidates := if s.cache.Some? then RecordResolver(s.cache.value) else _ => Falsy;
    var forwarded, stalled;
    forwarded, stalled, disk' := ProxyStage(ctx, disk, s.middlewares, record, upstream, now);
    if forwarded {
      return Upstream, if stalled then Stalled else Handled, disk';
    }
    return NoStage, PassThrough, disk;
  }

  /** One request through the chain: the outcome `Chain` describes, with
      the context untouched when no stage takes the request. */
  method Handle(app: App, ctx: Context, disk: Disk, upstream: (ProxyOptions, Request) -> Response, now: int)
    returns (handler: Handler, step: Step, disk': Disk)
    requires WellBuilt(app)
    modifies ctx
    ensures handler == NoStage ==> unchanged(ctx)
    ensures Outcome(handler, step, ctx.State(), disk') == Chain(app, ctx.request, old(ctx.State()), disk, upstream, now)
  {
    if app.localRules.Some? {
      var passed := LocalStage(ctx, disk, app.localRules.value);
      if !passed {
        return LocalFile, Handled, disk;
      }
    }
    if app.proxy.Some? {
      handler, step, disk' := ProxyPart(app.proxy.value, ctx, disk, upstream, now);
      if handler != NoStage {
        return;
      }
    }
    if app.fallback.Some? {
      step := FallbackStage(ctx, disk, app.fallback.value);
      return Fallback, step, disk;
    }
    return NoStage, PassThrough, disk;
  }

  /** A cache hit answers the request without asking the upstream, and the
      cache lookup acts only on paths that the proxy takes. */
  lemma ReplayOnlyOnProxiedPaths(app: App, req: Request, disk: Disk)
    requires WellBuilt(app)
    requires Route(app, req, disk) == CacheReplay
    ensures app.proxy.Some? && ProxyFor(app.proxy.value.middlewares, req.path).Some?
  {
    var s := app.proxy.value;
    LookupOnlyWhereProxied(s.middlewares, s.keys, req.path);
  }

  /** With no local file, a cache hit answers the request from the file
      found: the upstream is not asked and the disk is not written. */
  lemma CacheHitSkipsUpstream(app: App, req: Request, before: ResponseState, disk: Disk,
                              upstream: (ProxyOptions, Request) -> Response, now: int)
    requires !(app.localRules.Some? && LocalTarget(app.localRules.value, req, disk).Some?)
    requires app.proxy.Some? && app.proxy.value.cache.Some?
    requires CacheHit(app.proxy.value.keys, LookupResolver(app.proxy.value.cache.value), req, disk).Some?
    ensures var s := app.proxy.value;
            var o := Chain(app, req, before, disk, upstream, now);
            && o.handler == CacheReplay && o.step == Handled && o.disk == disk
            && o.response == Caught(before, disk, CacheHit(s.keys, LookupResolver(s.cache.value), req, disk).value)
  {
  }

  /** A request the proxy takes when no cache file exists is recorded where
      the write resolver says; when the lookup resolver names that path for
      a later request to the same path, and no candidate before it exists,
      the later request is replayed from that file with the recorded bytes
      (unless a local rule takes it first). */
  lemma RecordedIsReplayed(app: App, req: Request, later: Request, disk: Disk, answer: Response, now: int)
    requires WellBuilt(app)
    requires Route(app, req, disk) == Upstream
    requires app.proxy.value.cache.Some?
    requires later.path == req.path
    requires var c := app.proxy.value.cache.value;
             var x := Intercept(disk, RecordResolver(c), req, answer.body, now);
             && x.recording.Written?
             && var ps := CandidateList(LookupResolver(c)(CacheArgs(later, Hit)));
                exists i :: 0 <= i < |ps| && ps[i] == x.recording.path &&
                  forall j :: 0 <= j < i ==> !Exists(x.disk, ps[j])
    requires app.localRules.Some? ==>
               var x := Intercept(disk, RecordResolver(app.proxy.value.cache.value), req, answer.body, now);
               LocalTarget(app.localRules.value, later, x.disk).None?
    ensures var c := app.proxy.value.cache.value;
            var x := Intercept(disk, RecordResolver(c), req, answer.body, now);
            && Route(app, later, x.disk) == CacheReplay
            && CacheHit(app.proxy.value.keys, LookupResolver(c), later, x.disk) == Some(x.recording.path)
            && Stat(x.disk, x.recording.path) == Found(File(answer.body, now))
  {
    var s := app.proxy.value;
    var c := s.cache.value;
    var x := Intercept(disk, RecordResolver(c), req, answer.body, now);
    var p := x.recording.path;
    LookupOnlyWhereProxied(s.middlewares, s.keys, req.path);
    var cands := LookupResolver(c)(CacheArgs(later, Hit));
    var ps := CandidateList(cands);
    var i :| 0 <= i < |ps| && ps[i] == p && forall j :: 0 <= j < i ==> !Exists(x.disk, ps[j]);
    LocateFirst(cands, x.disk, i);
  }

  /** A request the proxy takes with a cache configured is forwarded to the
      upstream of its middleware, and the answer goes through the
      interceptor: the disk afterwards is the interceptor's, and the client
      is answered unless the write failed. */
  lemma UpstreamRecords(app: App, req: Request, before: ResponseState, disk: Disk,
                        upstream: (ProxyOptions, Request) -> Response, now: int)
    requires WellBuilt(app)
    requires Route(app, req, disk) == Upstream
    requires app.proxy.value.cache.Some?
    ensures var s := app.proxy.value;
            var m := s.middlewares[ProxyFor(s.middlewares, req.path).value];
            var answer := upstream(m.options, req);
            var x := Intercept(disk, RecordResolver(s.cache.value), req, answer.body, now);
            var o := Chain(app, req, before, disk, upstream, now);
            && o.disk == x.disk
            && (o.step == Stalled <==> x.recording.WriteFailed?)
            && (o.step == Handled ==> o.response == Answered(before, answer.status, answer.body))
  {
    var s := app.proxy.value;
    var i := ProxyFor(s.middlewares, req.path).value;
    assert s.middlewares[i].selfHandleResponse;
  }

  /** The later request of `RecordedIsReplayed` is answered with the
      recorded file as `sendFile` serves it: a read stream over the cache
      file whose Content-Length is the number of recorded bytes. */
  lemma ReplayServesRecording(app: App, req: Request, later: Request, disk: Disk, answer: Response, now: int,
                              before: ResponseState, upstream: (ProxyOptions, Request) -> Response, when: int)
    requires WellBuilt(app)
    requires Route(app, req, disk) == Upstream
    requires app.proxy.value.cache.Some?
    requires later.path == req.path
    requires var c := app.proxy.value.cache.value;
             var x := Intercept(disk, RecordResolver(c), req, answer.body, now);
             && x.recording.Written?
             && var ps := CandidateList(LookupResolver(c)(CacheArgs(later, Hit)));
                exists i :: 0 <= i < |ps| && ps[i] == x.recording.path &&
                  forall j :: 0 <= j < i ==> !Exists(x.disk, ps[j])
    requires app.localRules.Some? ==>
               var x := Intercept(disk, RecordResolver(app.proxy.value.cache.value), req, answer.body, now);
               LocalTarget(app.localRules.value, later, x.disk).None?
    ensures var x := Intercept(disk, RecordResolver(app.proxy.value.cache.value), req, answer.body, now);
            var o := Chain(app, later, before, x.disk, upstream, when);
            && o.handler == CacheReplay && o.step == Handled && o.disk == x.disk
            && o.response == Served(before, x.recording.path, File(answer.body, now), NoOptions)
            && o.response.body == FileStream(x.recording.path)
            && o.response.headers[ContentLength] == Number(|answer.body|)
  {
    RecordedIsReplayed(app, req, later, disk, answer, now);
    var x := Intercept(disk, RecordResolver(app.proxy.value.cache.value), req, answer.body, now);
    var p := x.recording.path;
    assert Resolve(x.disk, p, "") == Serve(p, File(answer.body, now));
  }

  /** Two requests through the chain: the first, forwarded upstream with a
      cache configured, records the answer; the second, to the same path,
      is answered from the recorded file, on the disk the first left. */
  lemma RecordThenReplay(app: App, req: Request, later: Request, disk: Disk, before: ResponseState,
                         beforeLater: ResponseState, upstream: (ProxyOptions, Request) -> Response, now: int, when: int)
    requires WellBuilt(app)
    requires Route(app, req, disk) == Upstream
    requires app.proxy.value.cache.Some?
    requires later.path == req.path
    requires var s := app.proxy.value;
             var answer := upstream(s.middlewares[ProxyFor(s.middlewares, req.path).value].options, req);
             var x := Intercept(disk, RecordResolver(s.cache.value), req, answer.body, now);
             && x.recording.Written?
             && (var ps := CandidateList(LookupResolver(s.cache.value)(CacheArgs(later, Hit)));
                 exists i :: 0 <= i < |ps| && ps[i] == x.recording.path &&
                   forall j :: 0 <= j < i ==> !Exists(x.disk, ps[j]))
             && (app.localRules.Some? ==> LocalTarget(app.localRules.value, later, x.disk).None?)
    ensures var s := app.proxy.value;
            var answer := upstream(s.middlewares[ProxyFor(s.middlewares, req.path).value].options, req);
            var first := Chain(app, req, before, disk, upstream, now);
            var second := Chain(app, later, beforeLater, first.disk, upstream, when);
            var p := RecordResolver(s.cache.value)(CacheArgs(req, Record)).path;
            && first.handler == Upstream && first.step == Handled
            && first.response == Answered(before, answer.status, answer.body)
            && second.handler == CacheReplay && second.step == Handled && second.disk == first.disk
            && second.response == Served(beforeLater, p, File(answer.body, now), NoOptions)
  {
    var s := app.proxy.value;
    var answer := upstream(s.middlewares[ProxyFor(s.middlewares, req.path).value].options, req);
    UpstreamRecords(app, req, before, disk, upstream, now);
    ReplayServesRecording(app, req, later, disk, answer, now, beforeLater, upstream, when);
  }
}

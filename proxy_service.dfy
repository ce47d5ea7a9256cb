/** `proxyService` (lib/server.js:63-140): the cache lookup middleware, one
    proxy middleware per prefix of the flattened table, and the response
    interceptor that records upstream answers on disk. */
module ProxyService {
  import opened Basics
  import opened Disk
  import opened Http
  import opened Static
  import opened ProxyConfig
  import opened Config

  /** `Object.keys(proxy).some(context => ctx.path.indexOf(context) === 0)`:
      some proxy prefix starts the path. */
  predicate MatchesContext(keys: seq<string>, path: string): (b: bool)
    ensures b <==> exists k :: k in keys && k <= path
  {
    var p := (k: string) => IndexOf(path, k) == 0;
    forall k | k in keys
      ensures p(k) <==> k <= path
    {
      IndexOfZeroIsPrefix(path, k);
    }
    Any(keys, p)
  }

  /** The file the lookup stage serves: none when no prefix matches (the
      resolver is then not even called), otherwise the first existing path
      the `matchCacheFilepath` resolver names for the 'hit' stage. */
  function CacheHit(keys: seq<string>, lookup: CacheArgs -> Candidates, req: Request, disk: Disk): (r: Option<string>)
    ensures !MatchesContext(keys, req.path) ==> r.None?
    ensures MatchesContext(keys, req.path) ==> r == Locate(lookup(CacheArgs(req, Hit)), disk)
    ensures r.Some? ==> Exists(disk, r.value)
  {
    if MatchesContext(keys, req.path) then Locate(lookup(CacheArgs(req, Hit)), disk) else None
  }

  /** The middleware of lines 88-108. `consulted` says whether the resolver
      was called; the stage passes on exactly when it serves nothing. */
  method CacheLookupStage(ctx: Context, disk: Disk, keys: seq<string>, lookup: CacheArgs -> Candidates)
    returns (consulted: bool, passed: bool)
    modifies ctx
    ensures consulted <==> MatchesContext(keys, ctx.request.path)
    ensures passed <==> CacheHit(keys, lookup, ctx.request, disk).None?
    ensures passed ==> unchanged(ctx)
    ensures !passed ==> ctx.State() == Caught(old(ctx.State()), disk, CacheHit(keys, lookup, ctx.request, disk).value)
  {
    var matchContext := MatchesContext(keys, ctx.request.path);
    if !matchContext {
      return false, true;
    }
    consulted := true;
    var filepath := Locate(lookup(CacheArgs(ctx.request, Hit)), disk);
    if filepath.Some? {
      SendCaught(ctx, disk, filepath.value);
      return consulted, false;
    }
    passed := true;
  }

  /** A proxy middleware: the prefix it serves, the options it passes on,
      and whether it answers the client itself through the cache-writing
      interceptor (`selfHandleResponse`). */
  datatype Middleware = Middleware(context: string, options: ProxyOptions, selfHandleResponse: bool)

  /** `typeof currentProxy === 'string' ? { target: currentProxy } : currentProxy`. */
  function OptionsOf(t: Target): (o: ProxyOptions)
    ensures t.Url? ==> o == ProxyOptions(t.url, None, None)
    ensures t.Options? ==> o == t.options
  {
    match t
    case Url(u) => ProxyOptions(u, None, None)
    case Options(o) => o
  }

  /** The loop of lines 111-139: one middleware per key, in key order, each
      with its key's options, all self-handling exactly when a cache is
      configured. */
  method Middlewares(proxy: Table<Target>, caching: bool) returns (mws: seq<Middleware>)
    requires forall k :: k in proxy.keys ==> k in proxy.values
    ensures mws == MiddlewareList(proxy, caching)
    ensures |mws| == |proxy.keys|
    ensures forall i :: 0 <= i < |mws| ==>
              mws[i] == Middleware(proxy.keys[i], OptionsOf(proxy.values[proxy.keys[i]]), caching)
  {
    mws := [];
    var i := 0;
    while i < |proxy.keys|
      invariant 0 <= i <= |proxy.keys|
      invariant |mws| == i
      invariant forall j :: 0 <= j < i ==>
                  mws[j] == Middleware(proxy.keys[j], OptionsOf(proxy.values[proxy.keys[j]]), caching)
    {
      var api := proxy.keys[i];
      var currentProxy := proxy.values[api];
      var options := OptionsOf(currentProxy);
      var mw := Middleware(api, options, false);
      if caching {
        mw := mw.(selfHandleResponse := true);
      }
      mws := mws + [mw];
      i := i + 1;
    }
  }

  /** The middlewares the loop of lines 111-139 builds, as a value. */
  function MiddlewareList(proxy: Table<Target>, caching: bool): seq<Middleware>
    requires forall k :: k in proxy.keys ==> k in proxy.values
  {
    seq(|proxy.keys|, i requires 0 <= i < |proxy.keys| =>
      Middleware(proxy.keys[i], OptionsOf(proxy.values[proxy.keys[i]]), caching))
  }

  /** The middleware that takes the request: the first whose prefix starts
      the path (a string context matches by `indexOf === 0`). */
  function ProxyFor(mws: seq<Middleware>, path: string): (r: Option<nat>)
    ensures r.Some? ==> r.value < |mws| && mws[r.value].context <= path
    ensures r.Some? ==> forall j :: 0 <= j < r.value ==> !(mws[j].context <= path)
    ensures r.None? <==> forall j :: 0 <= j < |mws| ==> !(mws[j].context <= path)
  {
    var p := (m: Middleware) => IndexOf(path, m.context) == 0;
    var r := FindIndex(mws, p);
    forall j | 0 <= j < |mws|
      ensures p(mws[j]) <==> mws[j].context <= path
    {
      IndexOfZeroIsPrefix(path, mws[j].context);
    }
    r
  }

  /** The lookup stage and the proxy middlewares agree: the stage acts
      exactly on the requests some proxy middleware would take. */
  lemma LookupOnlyWhereProxied(mws: seq<Middleware>, keys: seq<string>, path: string)
    requires |mws| == |keys| && forall i :: 0 <= i < |mws| ==> mws[i].context == keys[i]
    ensures MatchesContext(keys, path) <==> ProxyFor(mws, path).Some?
  {
    if ProxyFor(mws, path).Some? {
      assert keys[ProxyFor(mws, path).value] in keys;
    }
    if MatchesContext(keys, path) {
      var k :| k in keys && k <= path;
      var i :| 0 <= i < |keys| && keys[i] == k;
      assert mws[i].context <= path;
    }
  }

  /** What the upstream server answers. */
  datatype Response = Response(status: int, body: seq<byte>)

  /** What the interceptor did with the `cacheFilepath` result: wrote the
      body there, skipped a falsy path, or failed (a list is not a path, and
      a directory cannot be overwritten), which throws inside the
      interceptor before the answer is written. */
  datatype Recording = Written(path: string) | Skipped | WriteFailed

  datatype Interception = Interception(recording: Recording, disk: Disk, buffer: seq<byte>)

  /** The `responseInterceptor` callback of lines 127-135 at time `now`. */
  function Intercept(disk: Disk, record: CacheArgs -> Candidates, req: Request, buffer: seq<byte>, now: int)
    : (r: Interception)
    ensures r.buffer == buffer
    ensures r.recording.Written? <==>
              record(CacheArgs(req, Record)).OnePath? && Writable(disk, record(CacheArgs(req, Record)).path)
    ensures r.recording.Skipped? <==>
              record(CacheArgs(req, Record)) == Falsy || record(CacheArgs(req, Record)) == OnePath("")
    ensures r.recording.Written? ==> r.recording.path == record(CacheArgs(req, Record)).path
    ensures r.recording.Written? ==> Stat(r.disk, r.recording.path) == Found(File(buffer, now))
    ensures r.recording.Written? ==>
              forall q :: q != r.recording.path ==> Stat(r.disk, q) == Stat(disk, q)
    ensures !r.recording.Written? ==> r.disk == disk
  {
    match record(CacheArgs(req, Record))
    case Falsy => Interception(Skipped, disk, buffer)
    case PathList(_) => Interception(WriteFailed, disk, buffer)
    case OnePath(p) =>
      if p == "" then Interception(Skipped, disk, buffer)
      else if Writable(disk, p) then Interception(Written(p), Write(disk, p, buffer, now), buffer)
      else Interception(WriteFailed, disk, buffer)
  }

  /** The client's answer: the upstream status, set explicitly, and the
      bytes; headers and type stay as they were. */
  function Answered(before: ResponseState, status: int, body: seq<byte>): (r: ResponseState)
    ensures r.status == status && r.explicitStatus && r.body == Bytes(body)
    ensures r.headers == before.headers && r.contentType == before.contentType
  {
    before.(status := status, explicitStatus := true, body := Bytes(body))
  }

  /** The proxy middlewares in order: the first whose prefix starts the path
      forwards the request (with its body restored) to the upstream and
      answers with what comes back, through the interceptor when it
      self-handles; when none matches the request goes on untouched. */
  method ProxyStage(ctx: Context, disk: Disk, mws: seq<Middleware>, record: CacheArgs -> Candidates,
                    upstream: (ProxyOptions, Request) -> Response, now: int)
    returns (forwarded: bool, stalled: bool, disk': Disk)
    modifies ctx
    ensures forwarded <==> ProxyFor(mws, ctx.request.path).Some?
    ensures !forwarded ==> !stalled && disk' == disk && unchanged(ctx)
    ensures forwarded ==>
              var m := mws[ProxyFor(mws, ctx.request.path).value];
              var answer := upstream(m.options, ctx.request);
              if !m.selfHandleResponse then
                !stalled && disk' == disk && ctx.State() == Answered(old(ctx.State()), answer.status, answer.body)
              else
                var x := Intercept(disk, record, ctx.request, answer.body, now);
                && disk' == x.disk
                && (stalled <==> x.recording.WriteFailed?)
                && (stalled ==> unchanged(ctx))
                && (!stalled ==> ctx.State() == Answered(old(ctx.State()), answer.status, x.buffer))
  {
    var found := ProxyFor(mws, ctx.request.path);
    if found.None? {
      return false, false, disk;
    }
    forwarded := true;
    var m := mws[found.value];
    var answer := upstream(m.options, ctx.request);
    var body := answer.body;
    disk' := disk;
    stalled := false;
    if m.selfHandleResponse {
      var x := Intercept(disk, record, ctx.request, answer.body, now);
      disk' := x.disk;
      if x.recording.WriteFailed? {
        stalled := true;
        return;
      }
      body := x.buffer;
    }
    ctx.SetStatus(answer.status);
    ctx.SetBody(Bytes(body));
  }
}

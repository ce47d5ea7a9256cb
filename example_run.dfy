/** The example configuration at work: a request below `/api` that no
    local rule takes and no cache file answers yet is forwarded to the
    upstream on localhost:3001 and recorded under `.cache`; the same request
    a second time is answered from that file. */
module ExampleRun {
  import opened Basics
  import opened Disk
  import opened Paths
  import opened Http
  import opened Static
  import opened ProxyConfig
  import opened Config
  import opened LocalRules
  import opened ProxyService
  import opened Server
  import opened ExampleConf

  /** The chain the example configuration installs. */
  function ExampleApp(root: seq<string>, apiPattern: string -> bool, webPattern: string -> bool): (app: App)
    ensures WellBuilt(app)
    ensures app.proxy.Some? && app.proxy.value.keys == ["/api", "/mock"] && app.proxy.value.cache.Some?
    ensures app.fallback.Some?
  {
    Installed(ExampleSettings(root, apiPattern, webPattern))
  }

  /** With neither rule pattern matching the path, the local rules pass. */
  lemma NoLocalRule(root: seq<string>, apiPattern: string -> bool, webPattern: string -> bool, req: Request, disk: Disk)
    requires !apiPattern(req.path) && !webPattern(req.path)
    ensures var app := ExampleApp(root, apiPattern, webPattern);
            app.localRules.Some? && LocalTarget(app.localRules.value, req, disk).None?
  {
    var rules := ExampleApp(root, apiPattern, webPattern).localRules.value;
    assert !rules[0].matches(req.path) && !rules[1].matches(req.path);
    assert MatchedRule(rules, req.path).None?;
  }

  /** A path below `/api` is taken by the first proxy middleware, whose
      options are the `/api` entry's. */
  lemma ApiMiddleware(root: seq<string>, apiPattern: string -> bool, webPattern: string -> bool, path: string)
    requires "/api" <= path
    ensures var s := ExampleApp(root, apiPattern, webPattern).proxy.value;
            ProxyFor(s.middlewares, path) == Some(0) && s.middlewares[0].options == ExampleConf.Upstream
  {
    var s := ExampleApp(root, apiPattern, webPattern).proxy.value;
    assert s.middlewares[0].context == "/api";
  }

  /** A request below `/api` with neither cache candidate on disk goes to
      the upstream. */
  lemma Forwarded(root: seq<string>, apiPattern: string -> bool, webPattern: string -> bool,
                  req: Request, disk: Disk)
    requires |root| > 0 && AllPlain(root) && '/' !in req.httpMethod
    requires "/api" <= req.path
    requires !apiPattern(req.path) && !webPattern(req.path)
    requires var name := FileName(req.httpMethod, req.path);
             Absolute(root + ["data", name]) !in disk && Absolute(root + [".cache", name]) !in disk
    ensures Route(ExampleApp(root, apiPattern, webPattern), req, disk) == Upstream
  {
    var app := ExampleApp(root, apiPattern, webPattern);
    var s := app.proxy.value;
    NoLocalRule(root, apiPattern, webPattern, req, disk);
    ApiMiddleware(root, apiPattern, webPattern, req.path);
    LookupCandidates(root, CacheArgs(req, Hit));
    assert CacheHit(s.keys, LookupResolver(s.cache.value), req, disk).None?;
  }

  /** The interceptor writes the answer to `.cache/<name>`, which did not
      exist, and the `data` candidate stays absent. */
  lemma Recorded(root: seq<string>, apiPattern: string -> bool, webPattern: string -> bool,
                 req: Request, disk: Disk, body: seq<byte>, now: int)
    requires |root| > 0 && AllPlain(root) && '/' !in req.httpMethod
    requires var name := FileName(req.httpMethod, req.path);
             Absolute(root + ["data", name]) !in disk && Absolute(root + [".cache", name]) !in disk
    ensures var name := FileName(req.httpMethod, req.path);
            var c := ExampleApp(root, apiPattern, webPattern).proxy.value.cache.value;
            var x := Intercept(disk, RecordResolver(c), req, body, now);
            && x.recording == Written(Absolute(root + [".cache", name]))
            && !Exists(x.disk, Absolute(root + ["data", name]))
  {
    var name := FileName(req.httpMethod, req.path);
    var c := ExampleApp(root, apiPattern, webPattern).proxy.value.cache.value;
    CacheFileLayout(root, req);
    LookupCandidates(root, CacheArgs(req, Hit));
    assert RecordResolver(c)(CacheArgs(req, Record)) == CacheFilepath(root, CacheArgs(req, Record));
  }

  /** The later request's lookup candidates are the first request's. */
  lemma SameCandidates(root: seq<string>, apiPattern: string -> bool, webPattern: string -> bool,
                       req: Request, later: Request)
    requires |root| > 0 && AllPlain(root) && '/' !in req.httpMethod
    requires later.httpMethod == req.httpMethod && later.path == req.path
    ensures var name := FileName(req.httpMethod, req.path);
            var c := ExampleApp(root, apiPattern, webPattern).proxy.value.cache.value;
            CandidateList(LookupResolver(c)(CacheArgs(later, Hit)))
              == [Absolute(root + ["data", name]), Absolute(root + [".cache", name])]
  {
    var c := ExampleApp(root, apiPattern, webPattern).proxy.value.cache.value;
    assert LookupResolver(c)(CacheArgs(later, Hit)) == MatchCacheFilepath(root, CacheArgs(later, Hit));
    LookupCandidates(root, CacheArgs(later, Hit));
  }

  /** Once the answer `body` is recorded, the later request passes the local
      rules and finds the recorded file as the first existing candidate. */
  lemma ReplayConditions(root: seq<string>, apiPattern: string -> bool, webPattern: string -> bool,
                         req: Request, later: Request, disk: Disk, body: seq<byte>, now: int)
    requires |root| > 0 && AllPlain(root) && '/' !in req.httpMethod
    requires later.httpMethod == req.httpMethod && later.path == req.path
    requires !apiPattern(req.path) && !webPattern(req.path)
    requires var name := FileName(req.httpMethod, req.path);
             Absolute(root + ["data", name]) !in disk && Absolute(root + [".cache", name]) !in disk
    ensures var app := ExampleApp(root, apiPattern, webPattern);
            var c := app.proxy.value.cache.value;
            var x := Intercept(disk, RecordResolver(c), req, body, now);
            && x.recording.Written?
            && (var ps := CandidateList(LookupResolver(c)(CacheArgs(later, Hit)));
                exists i :: 0 <= i < |ps| && ps[i] == x.recording.path &&
                  forall j :: 0 <= j < i ==> !Exists(x.disk, ps[j]))
            && (app.localRules.Some? ==> LocalTarget(app.localRules.value, later, x.disk).None?)
  {
    var c := ExampleApp(root, apiPattern, webPattern).proxy.value.cache.value;
    Recorded(root, apiPattern, webPattern, req, disk, body, now);
    SameCandidates(root, apiPattern, webPattern, req, later);
    var x := Intercept(disk, RecordResolver(c), req, body, now);
    var ps := CandidateList(LookupResolver(c)(CacheArgs(later, Hit)));
    assert |ps| == 2 && ps[1] == x.recording.path && x.recording.Written?;
    assert forall j :: 0 <= j < 1 ==> !Exists(x.disk, ps[j]);
    NoLocalRule(root, apiPattern, webPattern, later, x.disk);
  }

  /** `RecordThenReplay` with the answer and the recorded file named. */
  lemma ReplayOf(app: App, req: Request, later: Request, disk: Disk, before: ResponseState,
                 beforeLater: ResponseState, upstream: (ProxyOptions, Request) -> Response, now: int, when: int,
                 options: ProxyOptions, cacheFile: string)
    requires WellBuilt(app)
    requires Route(app, req, disk) == Upstream
    requires app.proxy.value.cache.Some?
    requires later.path == req.path
    requires var s := app.proxy.value;
             && s.middlewares[ProxyFor(s.middlewares, req.path).value].options == options
             && RecordResolver(s.cache.value)(CacheArgs(req, Record)) == OnePath(cacheFile)
    requires var s := app.proxy.value;
             var answer := upstream(options, req);
             var x := Intercept(disk, RecordResolver(s.cache.value), req, answer.body, now);
             && x.recording.Written?
             && (var ps := CandidateList(LookupResolver(s.cache.value)(CacheArgs(later, Hit)));
                 exists i :: 0 <= i < |ps| && ps[i] == x.recording.path &&
                   forall j :: 0 <= j < i ==> !Exists(x.disk, ps[j]))
             && (app.localRules.Some? ==> LocalTarget(app.localRules.value, later, x.disk).None?)
    ensures var answer := upstream(options, req);
            var first := Chain(app, req, before, disk, upstream, now);
            var second := Chain(app, later, beforeLater, first.disk, upstream, when);
            && first.handler == Upstream && first.step == Handled
            && first.response == Answered(before, answer.status, answer.body)
            && Stat(first.disk, cacheFile) == Found(File(answer.body, now))
            && second.handler == CacheReplay && second.step == Handled
            && second.response == Served(beforeLater, cacheFile, File(answer.body, now), NoOptions)
  {
    RecordThenReplay(app, req, later, disk, before, beforeLater, upstream, now, when);
    UpstreamRecords(app, req, before, disk, upstream, now);
  }

  /** Recording then replaying a request below `/api` when neither cache
      candidate exists yet. */
  lemma ExampleRecordThenReplay(root: seq<string>, apiPattern: string -> bool, webPattern: string -> bool,
                                req: Request, later: Request, disk: Disk, before: ResponseState,
                                beforeLater: ResponseState, upstream: (ProxyOptions, Request) -> Response,
                                now: int, when: int)
    requires |root| > 0 && AllPlain(root) && '/' !in req.httpMethod
    requires "/api" <= req.path
    requires later.httpMethod == req.httpMethod && later.path == req.path
    requires !apiPattern(req.path) && !webPattern(req.path)
    requires var name := FileName(req.httpMethod, req.path);
             Absolute(root + ["data", name]) !in disk && Absolute(root + [".cache", name]) !in disk
    ensures var app := ExampleApp(root, apiPattern, webPattern);
            var cacheFile := Absolute(root + [".cache", FileName(req.httpMethod, req.path)]);
            var answer := upstream(ExampleConf.Upstream, req);
            var first := Chain(app, req, before, disk, upstream, now);
            var second := Chain(app, later, beforeLater, first.disk, upstream, when);
            && first.handler == Upstream && first.step == Handled
            && first.response == Answered(before, answer.status, answer.body)
            && Stat(first.disk, cacheFile) == Found(File(answer.body, now))
            && second.handler == CacheReplay && second.step == Handled
            && second.response == Served(beforeLater, cacheFile, File(answer.body, now), NoOptions)
  {
    var app := ExampleApp(root, apiPattern, webPattern);
    var name := FileName(req.httpMethod, req.path);
    Forwarded(root, apiPattern, webPattern, req, disk);
    ReplayConditions(root, apiPattern, webPattern, req, later, disk, upstream(ExampleConf.Upstream, req).body, now);
    ApiMiddleware(root, apiPattern, webPattern, req.path);
    CacheFileLayout(root, req);
    ReplayOf(app, req, later, disk, before, beforeLater, upstream, now, when,
             ExampleConf.Upstream, Absolute(root + [".cache", name]));
  }
}

/** The example configuration (example/conf.js): two local rules, a proxy
    table for `/api` and `/mock`, a history-mode fallback and the cache
    resolvers. The directory the configuration file sits in (`__dirname`)
    is the absolute path of the plain pieces `root`; the two rule patterns
    are left as given predicates. */
module ExampleConf {
  import opened Basics
  import opened Paths
  import opened Http
  import opened ProxyConfig
  import opened Config

  /** `s.replace(/\//g, '__')`. */
  function SlashesToUnderscores(s: string): (r: string)
    ensures '/' !in r
    decreases |s|
  {
    if |s| == 0 then ""
    else if s[0] == '/' then "__" + SlashesToUnderscores(s[1..])
    else [s[0]] + SlashesToUnderscores(s[1..])
  }

  /** `method + '__' + path.replace(/\//g, '__') + '.json'`: the file name the
      cache resolvers and the first local rule derive from a request. */
  function FileName(httpMethod: string, path: string): (r: string)
    ensures |r| >= |httpMethod| + 7
    ensures r[..|httpMethod| + 2] == httpMethod + "__" && r[|r| - 5..] == ".json"
  {
    httpMethod + "__" + SlashesToUnderscores(path) + ".json"
  }

  /** When the method holds no '/', the file name is a single plain piece,
      so joining it below a directory adds exactly one level. */
  lemma FileNamePlain(httpMethod: string, path: string)
    requires '/' !in httpMethod
    ensures Plain(FileName(httpMethod, path))
  {
    var u := SlashesToUnderscores(path);
    var r := FileName(httpMethod, path);
    assert forall c :: c in r ==> c in httpMethod || c in "__" || c in u || c in ".json";
  }

  /** The replacement works piece by piece. */
  lemma {:induction false} SlashesConcat(a: string, b: string)
    ensures SlashesToUnderscores(a + b) == SlashesToUnderscores(a) + SlashesToUnderscores(b)
    decreases |a|
  {
    if |a| == 0 {
      assert a + b == b;
    } else {
      var head := if a[0] == '/' then "__" else [a[0]];
      assert (a + b)[0] == a[0];
      assert (a + b)[1..] == a[1..] + b;
      assert SlashesToUnderscores(a + b) == head + SlashesToUnderscores(a[1..] + b);
      SlashesConcat(a[1..], b);
      assert SlashesToUnderscores(a) == head + SlashesToUnderscores(a[1..]);
    }
  }

  /** Different paths can share a file name: `/x/y` and `/x__y` are both
      recorded in the same file, so their responses overwrite each other. */
  lemma FileNameCollision(httpMethod: string, x: string, y: string)
    requires '/' !in x && '/' !in y
    ensures FileName(httpMethod, "/" + x + "/" + y) == FileName(httpMethod, "/" + x + "__" + y)
    ensures "/" + x + "/" + y != "/" + x + "__" + y
  {
    SlashesConcat("/" + x + "/", y);
    SlashesConcat("/" + x, "/");
    SlashesConcat("/", x);
    SlashesConcat("/" + x + "__", y);
    SlashesConcat("/" + x, "__");
    assert SlashesToUnderscores("/") == "__";
    assert '/' !in "__";
    assert ("/" + x + "/" + y)[|x| + 1] == '/';
    assert ("/" + x + "__" + y)[|x| + 1] == '_';
  }

  /** `__dirname`. */
  function Dirname(root: seq<string>): string {
    Absolute(root)
  }

  /** `applicationPath(...paths)`: `path.join(__dirname, 'application-demo', ...paths)`. */
  function ApplicationPath(root: seq<string>, parts: seq<string>): (r: string)
    ensures r != "" && r[0] == '/'
  {
    Join([Dirname(root), "application-demo"] + parts)
  }

  /** The first rule's resolver (example/conf.js:14-17). */
  function ApiFile(root: seq<string>, req: Request): (r: Candidates)
    // always one absolute path, so the rule serves a file or answers 404
    ensures r.OnePath? && r.path != "" && r.path[0] == '/'
  {
    OnePath(ApplicationPath(root, ["api", FileName(req.httpMethod, req.path)]))
  }

  /** The second rule's resolver (example/conf.js:22-26): the request path
      below `web` when it has an extension, `web/index.html` otherwise. */
  function WebFile(root: seq<string>, req: Request): (r: Candidates)
    ensures r.OnePath? && r.path != "" && r.path[0] == '/'
    ensures Extname(req.path) == "" ==> r.path == ApplicationPath(root, ["web", "index.html"])
  {
    if |Extname(req.path)| > 0 then OnePath(ApplicationPath(root, ["web", req.path]))
    else OnePath(ApplicationPath(root, ["web", "index.html"]))
  }

  /** `historyApiFallback` (example/conf.js:30). */
  function HistoryApiFallback(root: seq<string>): (r: string)
    // set, so the fallback stage is installed
    ensures r != "" && r[0] == '/'
  {
    ApplicationPath(root, ["web"])
  }

  /** `matchCacheFilepath` (example/conf.js:46-49). */
  function MatchCacheFilepath(root: seq<string>, args: CacheArgs): (r: Candidates)
    // two candidates, the second being where the response is recorded
    ensures r.PathList? && |r.paths| == 2
    ensures r.paths[1] == CacheFilepath(root, args).path
    ensures r.paths[0] != "" && r.paths[0][0] == '/'
  {
    var name := FileName(args.req.httpMethod, args.req.path);
    PathList([Join([Dirname(root), "data", name]), Join([Dirname(root), ".cache", name])])
  }

  /** `cacheFilepath` (example/conf.js:50-54). */
  function CacheFilepath(root: seq<string>, args: CacheArgs): (r: Candidates)
    // one non-empty path: the interceptor never skips the write
    ensures r.OnePath? && r.path != "" && r.path[0] == '/'
  {
    OnePath(Join([Dirname(root), ".cache", FileName(args.req.httpMethod, args.req.path)]))
  }

  /** The `/api` and `/mock` entries of the proxy table (example/conf.js:32-43). */
  const Upstream: ProxyOptions := ProxyOptions("http://localhost:3001", Some(true), Some(false))

  const ProxyTable: Table<Target> :=
    Table(["/api", "/mock"], map["/api" := Options(Upstream), "/mock" := Options(Upstream)])

  /** The whole configuration, with the two compiled rule patterns given. */
  function ExampleSettings(root: seq<string>, apiPattern: string -> bool, webPattern: string -> bool)
    : (r: Settings)
    ensures r.localRules.Some? && |r.localRules.value| == 2
    ensures r.proxy == Some(ObjectForm(ProxyTable)) && ValidTable(ProxyTable)
    ensures r.historyApiFallback != ""
    ensures r.cache.Some? && r.cache.value.CacheResolvers?
  {
    ProxyTableValid();
    Settings(
      Some([Rule(apiPattern, (req: Request) => ApiFile(root, req)),
            Rule(webPattern, (req: Request) => WebFile(root, req))]),
      Some(ObjectForm(ProxyTable)),
      HistoryApiFallback(root),
      Some(CacheResolvers((args: CacheArgs) => MatchCacheFilepath(root, args),
                          (args: CacheArgs) => CacheFilepath(root, args))))
  }

  /** The directory and file names the configuration writes out are plain pieces. */
  lemma NamesPlain()
    ensures Plain("application-demo") && Plain("api") && Plain("web") && Plain("index.html")
    ensures Plain("data") && Plain(".cache")
  {
    assert |"application-demo"| > 2 && |"api"| > 2 && |"web"| > 2 && |"index.html"| > 2;
    assert |"data"| > 2 && |".cache"| > 2;
  }

  /** `applicationPath` of plain pieces is the absolute path of the pieces
      below `__dirname/application-demo`. */
  lemma ApplicationPathPlain(root: seq<string>, parts: seq<string>)
    requires |root| > 0 && AllPlain(root) && AllPlain(parts)
    ensures ApplicationPath(root, parts) == Absolute(root + ["application-demo"] + parts)
  {
    NamesPlain();
    var names := ["application-demo"] + parts;
    AllPlainAppend(["application-demo"], parts);
    assert [Dirname(root), "application-demo"] + parts == [Absolute(root)] + names;
    JoinPlain(root, names);
    assert root + names == root + ["application-demo"] + parts;
  }

  lemma ProxyTableValid()
    ensures ValidTable(ProxyTable)
  {
  }

  /** The first rule serves `application-demo/api/<name>` directly below the
      configuration's directory. */
  lemma ApiFileLayout(root: seq<string>, req: Request)
    requires |root| > 0 && AllPlain(root) && '/' !in req.httpMethod
    ensures ApiFile(root, req).path
              == Absolute(root + ["application-demo", "api", FileName(req.httpMethod, req.path)])
  {
    var name := FileName(req.httpMethod, req.path);
    FileNamePlain(req.httpMethod, req.path);
    NamesPlain();
    ApplicationPathPlain(root, ["api", name]);
    assert root + ["application-demo"] + ["api", name] == root + ["application-demo", "api", name];
  }

  /** The two lookup candidates: the `data` file first, then the `.cache`
      file, and they differ. */
  lemma LookupCandidates(root: seq<string>, args: CacheArgs)
    requires |root| > 0 && AllPlain(root) && '/' !in args.req.httpMethod
    ensures var ps := CandidateList(MatchCacheFilepath(root, args));
            var name := FileName(args.req.httpMethod, args.req.path);
            && |ps| == 2
            && ps[0] == Absolute(root + ["data", name])
            && ps[1] == Absolute(root + [".cache", name])
            && ps[0] != ps[1]
  {
    var name := FileName(args.req.httpMethod, args.req.path);
    FileNamePlain(args.req.httpMethod, args.req.path);
    NamesPlain();
    assert [Dirname(root), "data", name] == [Absolute(root)] + ["data", name];
    assert [Dirname(root), ".cache", name] == [Absolute(root)] + [".cache", name];
    JoinPlain(root, ["data", name]);
    JoinPlain(root, [".cache", name]);
    var a := root + ["data", name];
    var b := root + [".cache", name];
    assert AllPlain(a) && AllPlain(b);
    SplitAbsolute(a);
    SplitAbsolute(b);
    assert ([""] + a)[|root| + 1] == "data";
    assert ([""] + b)[|root| + 1] == ".cache";
  }

  /** The file a response is recorded in is the second lookup candidate of
      every request with the same method and path, whatever its query
      string or body. */
  lemma RecordedWhereLookedUp(root: seq<string>, req: Request, later: Request)
    requires later.httpMethod == req.httpMethod && later.path == req.path
    ensures var ps := CandidateList(MatchCacheFilepath(root, CacheArgs(later, Hit)));
            |ps| == 2 && ps[1] == CacheFilepath(root, CacheArgs(req, Record)).path
  {
  }

  /** The resolvers look only at the method and the path. */
  lemma ResolversIgnoreQueryAndBody(root: seq<string>, req: Request, other: Request, stage: CacheStage)
    requires other.httpMethod == req.httpMethod && other.path == req.path
    ensures CacheFilepath(root, CacheArgs(other, stage)) == CacheFilepath(root, CacheArgs(req, stage))
    ensures CandidateList(MatchCacheFilepath(root, CacheArgs(other, stage)))
              == CandidateList(MatchCacheFilepath(root, CacheArgs(req, stage)))
  {
  }

  /** Responses are recorded in `.cache/<name>` directly below the
      configuration's directory. */
  lemma CacheFileLayout(root: seq<string>, req: Request)
    requires |root| > 0 && AllPlain(root) && '/' !in req.httpMethod
    ensures CacheFilepath(root, CacheArgs(req, Record)).path
              == Absolute(root + [".cache", FileName(req.httpMethod, req.path)])
  {
    var name := FileName(req.httpMethod, req.path);
    FileNamePlain(req.httpMethod, req.path);
    NamesPlain();
    assert [Dirname(root), ".cache", name] == [Absolute(root)] + [".cache", name];
    JoinPlain(root, [".cache", name]);
  }

  /** Recorded responses are JSON files. */
  lemma RecordedFileIsJson(root: seq<string>, req: Request)
    requires |root| > 0 && AllPlain(root) && '/' !in req.httpMethod
    ensures Extname(CacheFilepath(root, CacheArgs(req, Record)).path) == ".json"
  {
    var name := FileName(req.httpMethod, req.path);
    CacheFileLayout(root, req);
    var dir := root + [".cache"];
    assert root + [".cache", name] == dir + [name];
    AbsoluteAppend(dir, name);
    var u := SlashesToUnderscores(req.path);
    var stem := req.httpMethod + "__" + u;
    assert name == stem + ".json";
    assert |stem| >= 2;
    assert '/' !in stem by {
      assert forall c :: c in stem ==> c in req.httpMethod || c in "__" || c in u;
    }
    var full := Absolute(dir) + "/" + stem + ".json";
    assert Absolute(dir) + "/" + name == full;
    assert CacheFilepath(root, CacheArgs(req, Record)).path == full;
    ExtnameOfName(Absolute(dir), stem, ".json");
  }

  /** The fallback is a directory path without extension, so the server
      serves its `index.html`. */
  lemma FallbackHasNoExtension(root: seq<string>)
    requires |root| > 0 && AllPlain(root)
    ensures HistoryApiFallback(root) == Absolute(root + ["application-demo", "web"])
    ensures Extname(HistoryApiFallback(root)) == ""
  {
    NamesPlain();
    ApplicationPathPlain(root, ["web"]);
    var dir := root + ["application-demo"];
    assert root + ["application-demo", "web"] == dir + ["web"];
    AbsoluteAppend(dir, "web");
    assert '.' !in "web";
    ExtnameNone(Absolute(dir), "web");
  }

  /** A path without extension gets the `index.html` of `web`. */
  lemma WebFileIndex(root: seq<string>, req: Request)
    requires |root| > 0 && AllPlain(root)
    requires Extname(req.path) == ""
    ensures WebFile(root, req).path == Absolute(root + ["application-demo", "web", "index.html"])
  {
    NamesPlain();
    ApplicationPathPlain(root, ["web", "index.html"]);
    assert root + ["application-demo"] + ["web", "index.html"] == root + ["application-demo", "web", "index.html"];
  }

  /** The pieces below `__dirname` that lead to `web`. */
  lemma WebDirPlain()
    ensures AllPlain(["application-demo", "web"])
  {
    NamesPlain();
  }

  /** `applicationPath('web', p)` normalizes `p` below the `web` directory. */
  lemma WebJoin(root: seq<string>, p: string)
    requires |root| > 0 && AllPlain(root) && p != ""
    ensures ApplicationPath(root, ["web", p]) == Normalize(Absolute(root + ["application-demo", "web"]) + "/" + p)
  {
    assert [Dirname(root), "application-demo"] + ["web", p] == [Absolute(root)] + ["application-demo", "web"] + [p];
    WebDirPlain();
    JoinThen(root, ["application-demo", "web"], p);
  }

  /** A path with an extension is not empty. */
  lemma ExtnameNonEmpty(p: string)
    requires Extname(p) != ""
    ensures p != ""
  {
  }

  /** A path with an extension and no ".." piece is served from inside `web`. */
  lemma WebFileWithin(root: seq<string>, req: Request)
    requires |root| > 0 && AllPlain(root)
    requires Extname(req.path) != "" && ".." !in Split(req.path)
    ensures Within(Absolute(root + ["application-demo", "web"]), WebFile(root, req).path)
  {
    ExtnameNonEmpty(req.path);
    WebJoin(root, req.path);
    var base := root + ["application-demo", "web"];
    WebDirPlain();
    AllPlainAppend(root, ["application-demo", "web"]);
    NormalizeWithin(base, req.path);
    var q := Normalize(Absolute(base) + "/" + req.path);
    assert Within(Absolute(base), q);
    assert WebFile(root, req).path == q;
  }
}

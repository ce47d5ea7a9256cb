/** The configuration file's settings as lib/server.js reads them, and the
    way it turns a resolver's result into the one path it serves. */
module Config {
  import opened Basics
  import opened Disk
  import opened Http
  import opened ProxyConfig

  /** What a filepath resolver returns: one path, a list of paths, or a
      falsy value (`undefined`, `null`, `false`). */
  datatype Candidates = OnePath(path: string) | PathList(paths: seq<string>) | Falsy

  /** `typeof fps === 'string' ? [fps] : fps || []`: a string becomes a list
      of one, a falsy value the empty list, and a list stays as it is. */
  function CandidateList(c: Candidates): (r: seq<string>)
    ensures c.OnePath? ==> r == [c.path]
    ensures c.PathList? ==> r == c.paths
    ensures c.Falsy? ==> r == []
  {
    match c
    case OnePath(p) => [p]
    case PathList(ps) => ps
    case Falsy => []
  }

  /** `filepaths.find(fp => fse.pathExistsSync(fp))`: the first candidate
      that exists on the disk. */
  function Locate(c: Candidates, disk: Disk): (r: Option<string>)
    ensures c.Falsy? ==> r.None?
    ensures c.OnePath? ==> (r.Some? <==> Exists(disk, c.path)) && (r.Some? ==> r.value == c.path)
    ensures r.Some? ==> Exists(disk, r.value)
    ensures r.None? <==> forall p :: p in CandidateList(c) ==> !Exists(disk, p)
    ensures r.Some? ==> exists i :: (0 <= i < |CandidateList(c)| && CandidateList(c)[i] == r.value &&
              forall j :: 0 <= j < i ==> !Exists(disk, CandidateList(c)[j]))
  {
    var ps := CandidateList(c);
    match FindIndex(ps, p => Exists(disk, p))
    case None => None
    case Some(i) => Some(ps[i])
  }

  /** An existing candidate with no existing one before it is the one found. */
  lemma LocateFirst(c: Candidates, disk: Disk, i: nat)
    requires i < |CandidateList(c)| && Exists(disk, CandidateList(c)[i])
    requires forall j :: 0 <= j < i ==> !Exists(disk, CandidateList(c)[j])
    ensures Locate(c, disk) == Some(CandidateList(c)[i])
  {
    FindIndexFirst(CandidateList(c), p => Exists(disk, p), i);
  }

  /** A local rule: its compiled `path` pattern, tested against the request
      path, and its `filepath` resolver. */
  datatype Rule = Rule(matches: string -> bool, filepath: Request -> Candidates)

  /** The `stage` a cache resolver is called with: 'hit' when looking up,
      'cache' when recording. */
  datatype CacheStage = Hit | Record

  /** The `{ req, stage }` argument of a cache resolver. */
  datatype CacheArgs = CacheArgs(req: Request, stage: CacheStage)

  /** The `cache` setting: one function for both uses, or an object with
      `matchCacheFilepath` and `cacheFilepath`. */
  datatype CacheSetting =
    | CacheFunction(resolve: CacheArgs -> Candidates)
    | CacheResolvers(matchCacheFilepath: CacheArgs -> Candidates, cacheFilepath: CacheArgs -> Candidates)

  /** The resolver the lookup stage calls (lib/server.js:87). */
  function LookupResolver(c: CacheSetting): (r: CacheArgs -> Candidates)
    ensures c.CacheFunction? ==> r == c.resolve
    ensures c.CacheResolvers? ==> r == c.matchCacheFilepath
  {
    match c
    case CacheFunction(f) => f
    case CacheResolvers(m, _) => m
  }

  /** The resolver the response interceptor calls (lib/server.js:124). */
  function RecordResolver(c: CacheSetting): (r: CacheArgs -> Candidates)
    // a single function answers both stages; an object gives each its own
    ensures c.CacheFunction? ==> r == LookupResolver(c)
    ensures c.CacheResolvers? ==> r == c.cacheFilepath
  {
    match c
    case CacheFunction(f) => f
    case CacheResolvers(_, w) => w
  }

  /** The settings the server reads: `localRules`, `proxy`,
      `historyApiFallback` ("" when absent) and `cache`. */
  datatype Settings = Settings(
    localRules: Option<seq<Rule>>,
    proxy: Option<ProxySetting>,
    historyApiFallback: string,
    cache: Option<CacheSetting>)
}
